/** The part of Python's abstract syntax that the strategy merger reads or builds.

    Expressions and statements the merger never inspects are kept as opaque
    nodes (`OtherExpr`, `OtherStmt`) that carry their sub-expressions, so the
    renaming pass reaches every `self.<name>` in those expressions. An
    `OtherStmt` carries no nested statements: the bodies of `async def`,
    `async for`, `async with`, `match` and `try*` are outside the model. So are
    the keyword arguments of a call, the keyword defaults, `*args`/`**kwargs`
    and parameter annotations of a `def`, and the decorators and keywords of
    a class: an expression in one of them can only be modelled by folding it
    into `args` or an `OtherExpr`. Source text (what `astor.to_source` would
    print) is not modelled. */
module Ast {

  datatype Option<T> = None | Some(value: T)

  /** The literal constants the merger creates or compares against. */
  datatype Const = CBool(b: bool) | CInt(i: int) | CStr(s: string) | CNone

  /** Comparison operators: only `==` is built by the merger. */
  datatype CmpOp = Eq | OtherCmp(symbol: string)

  datatype Expr =
    | Name(id: string)
    | Attribute(value: Expr, attr: string)
    | Call(func: Expr, args: seq<Expr>)
    | Constant(c: Const)
    | List(elts: seq<Expr>)
    | Compare(left: Expr, op: CmpOp, right: Expr)
    | OtherExpr(kind: string, children: seq<Expr>)

  /** A bare `return` is represented as `return None`. */
  datatype Stmt =
    | Return(value: Expr)
    | Assign(targets: seq<Expr>, value: Expr)
    | If(test: Expr, body: seq<Stmt>, orelse: seq<Stmt>)
    | For(target: Expr, iter: Expr, body: seq<Stmt>, orelse: seq<Stmt>)
    | While(test: Expr, body: seq<Stmt>, orelse: seq<Stmt>)
    | With(items: seq<Expr>, body: seq<Stmt>)
    | Try(body: seq<Stmt>, handlers: seq<Handler>, orelse: seq<Stmt>, finalbody: seq<Stmt>)
    | ExprStmt(value: Expr)
    | FunctionDef(fn: FuncDef)
    | ClassDef(name: string, bases: seq<Expr>, body: seq<Stmt>)
    | OtherStmt(kind: string, exprs: seq<Expr>)

  /** An `except` clause. */
  datatype Handler = Handler(typ: Option<Expr>, body: seq<Stmt>)

  /** Parameter names and default-value expressions of a `def`. */
  datatype Arguments = Arguments(params: seq<string>, defaults: seq<Expr>)

  datatype FuncDef = FuncDef(
    name: string,
    args: Arguments,
    body: seq<Stmt>,
    decorators: seq<Expr>,
    annotation: Option<Expr>)

  /** `self.<name>` */
  function SelfAttr(name: string): Expr {
    Attribute(Name("self"), name)
  }

  /** The field the merged strategy uses to record which source strategy owns the current trade. */
  const ActiveStrategy: string := "active_strategy"

  /** `self.active_strategy = None` */
  const ResetOwner: Stmt := Assign([SelfAttr(ActiveStrategy)], Constant(CNone))

  /** `self.active_strategy = '<strategy>'` */
  function ClaimOwner(strategy: string): Stmt {
    Assign([SelfAttr(ActiveStrategy)], Constant(CStr(strategy)))
  }

  /** `if self.active_strategy == '<strategy>': <body>` */
  function Guard(strategy: string, body: seq<Stmt>): Stmt {
    If(Compare(SelfAttr(ActiveStrategy), Eq, Constant(CStr(strategy))), body, [])
  }

  /** A string-expression statement that the printer turns into a comment line. */
  function Comment(text: string): Stmt {
    ExprStmt(Constant(CStr(text)))
  }

  /** The provenance marker placed before each module's contribution. */
  function Marker(fileName: string): Stmt {
    Comment("# Merged from " + fileName)
  }

  /** Arguments made only of positional parameters without defaults. */
  function Params(names: seq<string>): Arguments {
    Arguments(names, [])
  }
}
