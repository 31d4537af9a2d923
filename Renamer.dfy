/** The renaming pass that `merge_files` runs over each strategy's syntax tree
    (`FunctionMerger.visit_Attribute`, `visit_FunctionDef`, `visit_Call`).

    `RenameExpr`, `RenameStmt`, `RenameBody`, ... say what the pass produces;
    the class `Renamer` is the per-file merger object whose visitor methods
    produce it while they grow the `modified_functions` set. */
module Renaming {
  import opened Ast
  import opened Naming
  import opened Paths

  predicate IsSelf(e: Expr) {
    e == Name("self")
  }

  // ---------------------------------------------------------------------
  // What the pass produces

  function RenameExpr(strategy: string, e: Expr): (r: Expr)
    ensures e.Name? || e.Constant? ==> r == e
    ensures r.Attribute? == e.Attribute? && r.Call? == e.Call?
  {
    match e
    case Name(_) => e
    case Constant(_) => e
    case Attribute(v, a) =>
      Attribute(RenameExpr(strategy, v), if IsSelf(v) then Rename(strategy, a) else a)
    case Call(f, args) => Call(RenameExpr(strategy, f), RenameExprs(strategy, args))
    case List(elts) => List(RenameExprs(strategy, elts))
    case Compare(l, op, r) => Compare(RenameExpr(strategy, l), op, RenameExpr(strategy, r))
    case OtherExpr(k, cs) => OtherExpr(k, RenameExprs(strategy, cs))
  }

  function RenameExprs(strategy: string, es: seq<Expr>): seq<Expr> {
    if es == [] then [] else [RenameExpr(strategy, es[0])] + RenameExprs(strategy, es[1..])
  }

  function RenameOpt(strategy: string, o: Option<Expr>): Option<Expr> {
    match o
    case None => None
    case Some(e) => Some(RenameExpr(strategy, e))
  }

  function RenameArgs(strategy: string, a: Arguments): Arguments {
    Arguments(a.params, RenameExprs(strategy, a.defaults))
  }

  function RenameFuncDef(strategy: string, fn: FuncDef): FuncDef {
    FuncDef(Rename(strategy, fn.name), RenameArgs(strategy, fn.args), RenameBody(strategy, fn.body),
            RenameExprs(strategy, fn.decorators), RenameOpt(strategy, fn.annotation))
  }

  function RenameStmt(strategy: string, s: Stmt): Stmt {
    match s
    case Return(v) => Return(RenameExpr(strategy, v))
    case Assign(ts, v) => Assign(RenameExprs(strategy, ts), RenameExpr(strategy, v))
    case If(t, b, o) => If(RenameExpr(strategy, t), RenameBody(strategy, b), RenameBody(strategy, o))
    case For(t, it, b, o) =>
      For(RenameExpr(strategy, t), RenameExpr(strategy, it), RenameBody(strategy, b), RenameBody(strategy, o))
    case While(t, b, o) => While(RenameExpr(strategy, t), RenameBody(strategy, b), RenameBody(strategy, o))
    case With(items, b) => With(RenameExprs(strategy, items), RenameBody(strategy, b))
    case Try(b, hs, o, f) =>
      Try(RenameBody(strategy, b), RenameHandlers(strategy, hs), RenameBody(strategy, o), RenameBody(strategy, f))
    case ExprStmt(v) => ExprStmt(RenameExpr(strategy, v))
    case FunctionDef(fn) => FunctionDef(RenameFuncDef(strategy, fn))
    case ClassDef(n, bases, b) => ClassDef(n, RenameExprs(strategy, bases), RenameBody(strategy, b))
    case OtherStmt(k, es) => OtherStmt(k, RenameExprs(strategy, es))
  }

  function RenameHandlers(strategy: string, hs: seq<Handler>): seq<Handler> {
    if hs == [] then []
    else [Handler(RenameOpt(strategy, hs[0].typ), RenameBody(strategy, hs[0].body))] + RenameHandlers(strategy, hs[1..])
  }

  function RenameBody(strategy: string, b: seq<Stmt>): (r: seq<Stmt>)
    ensures |r| == |b|
  {
    if b == [] then [] else [RenameStmt(strategy, b[0])] + RenameBody(strategy, b[1..])
  }

  // ---------------------------------------------------------------------
  // Names defined and called in a tree

  /** Names `n` of the calls `self.n(...)` in an expression. */
  function ExprCalls(e: Expr): set<string> {
    match e
    case Name(_) => {}
    case Constant(_) => {}
    case Attribute(v, _) => ExprCalls(v)
    case Call(f, args) =>
      (if f.Attribute? && IsSelf(f.value) then {f.attr} else {}) + ExprCalls(f) + ExprsCalls(args)
    case List(elts) => ExprsCalls(elts)
    case Compare(l, _, r) => ExprCalls(l) + ExprCalls(r)
    case OtherExpr(_, cs) => ExprsCalls(cs)
  }

  function ExprsCalls(es: seq<Expr>): set<string> {
    if es == [] then {} else ExprCalls(es[0]) + ExprsCalls(es[1..])
  }

  function OptCalls(o: Option<Expr>): set<string> {
    match o
    case None => {}
    case Some(e) => ExprCalls(e)
  }

  function StmtCalls(s: Stmt): set<string> {
    match s
    case Return(v) => ExprCalls(v)
    case Assign(ts, v) => ExprsCalls(ts) + ExprCalls(v)
    case If(t, b, o) => ExprCalls(t) + BodyCalls(b) + BodyCalls(o)
    case For(t, it, b, o) => ExprCalls(t) + ExprCalls(it) + BodyCalls(b) + BodyCalls(o)
    case While(t, b, o) => ExprCalls(t) + BodyCalls(b) + BodyCalls(o)
    case With(items, b) => ExprsCalls(items) + BodyCalls(b)
    case Try(b, hs, o, f) => BodyCalls(b) + HandlersCalls(hs) + BodyCalls(o) + BodyCalls(f)
    case ExprStmt(v) => ExprCalls(v)
    case FunctionDef(fn) =>
      ExprsCalls(fn.args.defaults) + BodyCalls(fn.body) + ExprsCalls(fn.decorators) + OptCalls(fn.annotation)
    case ClassDef(_, bases, b) => ExprsCalls(bases) + BodyCalls(b)
    case OtherStmt(_, es) => ExprsCalls(es)
  }

  function HandlersCalls(hs: seq<Handler>): set<string> {
    if hs == [] then {} else OptCalls(hs[0].typ) + BodyCalls(hs[0].body) + HandlersCalls(hs[1..])
  }

  function BodyCalls(b: seq<Stmt>): set<string> {
    if b == [] then {} else StmtCalls(b[0]) + BodyCalls(b[1..])
  }

  /** Names of the `def`s anywhere in a statement, nested ones included. */
  function StmtDefs(s: Stmt): set<string> {
    match s
    case If(_, b, o) => BodyDefs(b) + BodyDefs(o)
    case For(_, _, b, o) => BodyDefs(b) + BodyDefs(o)
    case While(_, b, o) => BodyDefs(b) + BodyDefs(o)
    case With(_, b) => BodyDefs(b)
    case Try(b, hs, o, f) => BodyDefs(b) + HandlersDefs(hs) + BodyDefs(o) + BodyDefs(f)
    case FunctionDef(fn) => {fn.name} + BodyDefs(fn.body)
    case ClassDef(_, _, b) => BodyDefs(b)
    case _ => {}
  }

  function HandlersDefs(hs: seq<Handler>): set<string> {
    if hs == [] then {} else BodyDefs(hs[0].body) + HandlersDefs(hs[1..])
  }

  function BodyDefs(b: seq<Stmt>): set<string> {
    if b == [] then {} else StmtDefs(b[0]) + BodyDefs(b[1..])
  }

  /** The names a set of names becomes under the renaming rule. */
  function Image(strategy: string, names: set<string>): set<string> {
    set n | n in names :: Rename(strategy, n)
  }

  lemma ImageUnion(strategy: string, a: set<string>, b: set<string>)
    ensures Image(strategy, a + b) == Image(strategy, a) + Image(strategy, b)
  {
  }

  /** The names the pass adds to `modified_functions` for the given `def` and
      `self.<name>(...)` names: the new name of each one the rule changes. */
  function Recorded(strategy: string, names: set<string>): set<string> {
    set n | n in names && Rename(strategy, n) != n :: Rename(strategy, n)
  }

  lemma RecordedUnion(strategy: string, a: set<string>, b: set<string>)
    ensures Recorded(strategy, a + b) == Recorded(strategy, a) + Recorded(strategy, b)
  {
  }

  /** The names of a statement, part by part, in the order the visitor meets them. */
  lemma StmtNamesSplit(s: Stmt)
    ensures s.Return? ==> StmtNames(s) == ExprCalls(s.value)
    ensures s.Assign? ==> StmtNames(s) == ExprsCalls(s.targets) + ExprCalls(s.value)
    ensures s.If? ==> StmtNames(s) == ExprCalls(s.test) + BodyNames(s.body) + BodyNames(s.orelse)
    ensures s.For? ==>
      StmtNames(s) == ExprCalls(s.target) + ExprCalls(s.iter) + BodyNames(s.body) + BodyNames(s.orelse)
    ensures s.While? ==> StmtNames(s) == ExprCalls(s.test) + BodyNames(s.body) + BodyNames(s.orelse)
    ensures s.With? ==> StmtNames(s) == ExprsCalls(s.items) + BodyNames(s.body)
    ensures s.Try? ==>
      StmtNames(s) == BodyNames(s.body) + HandlersNames(s.handlers) + BodyNames(s.orelse) + BodyNames(s.finalbody)
    ensures s.ExprStmt? ==> StmtNames(s) == ExprCalls(s.value)
    ensures s.FunctionDef? ==>
      StmtNames(s) == {s.fn.name} + ExprsCalls(s.fn.args.defaults) + BodyNames(s.fn.body)
        + ExprsCalls(s.fn.decorators) + OptCalls(s.fn.annotation)
    ensures s.ClassDef? ==> StmtNames(s) == ExprsCalls(s.bases) + BodyNames(s.body)
    ensures s.OtherStmt? ==> StmtNames(s) == ExprsCalls(s.exprs)
  {
  }

  /** Regrouping steps the visiting loops take once per element. */
  lemma SeqStep<T>(r: seq<T>, x: T, rest: seq<T>)
    ensures r + ([x] + rest) == (r + [x]) + rest
  {}

  lemma SetStep<T>(seen: set<T>, a: set<T>, b: set<T>, rest: set<T>)
    ensures seen + (a + b + rest) == (seen + a + b) + rest
  {}

  /** A list of expressions, statements or handlers from position `i` on is
      its element at `i` followed by the rest. */
  lemma ExprsFrom(strategy: string, es: seq<Expr>, i: nat)
    requires i < |es|
    ensures ExprsCalls(es[i..]) == ExprCalls(es[i]) + ExprsCalls(es[i + 1..])
    ensures RenameExprs(strategy, es[i..]) == [RenameExpr(strategy, es[i])] + RenameExprs(strategy, es[i + 1..])
  {
    assert es[i..][1..] == es[i + 1..];
  }

  lemma BodyFrom(strategy: string, b: seq<Stmt>, i: nat)
    requires i < |b|
    ensures BodyNames(b[i..]) == StmtNames(b[i]) + BodyNames(b[i + 1..])
    ensures RenameBody(strategy, b[i..]) == [RenameStmt(strategy, b[i])] + RenameBody(strategy, b[i + 1..])
  {
    assert b[i..][1..] == b[i + 1..];
  }

  lemma HandlersFrom(strategy: string, hs: seq<Handler>, i: nat)
    requires i < |hs|
    ensures HandlersNames(hs[i..]) == OptCalls(hs[i].typ) + BodyNames(hs[i].body) + HandlersNames(hs[i + 1..])
    ensures RenameHandlers(strategy, hs[i..])
      == [Handler(RenameOpt(strategy, hs[i].typ), RenameBody(strategy, hs[i].body))] + RenameHandlers(strategy, hs[i + 1..])
  {
    assert hs[i..][1..] == hs[i + 1..];
  }

  lemma RecordedSingle(strategy: string, x: string)
    ensures Recorded(strategy, {x}) == if Rename(strategy, x) != x then {Rename(strategy, x)} else {}
  {
  }

  /** Visiting the parts of a node one after the other records the names of
      the whole node. */
  lemma Added2(strategy: string, m0: set<string>, m1: set<string>, m2: set<string>,
               all: set<string>, a: set<string>, b: set<string>)
    requires all == a + b
    requires m1 == m0 + Recorded(strategy, a) && m2 == m1 + Recorded(strategy, b)
    ensures m2 == m0 + Recorded(strategy, all)
  {
    RecordedUnion(strategy, a, b);
  }

  lemma Added3(strategy: string, m0: set<string>, m1: set<string>, m2: set<string>, m3: set<string>,
               all: set<string>, a: set<string>, b: set<string>, c: set<string>)
    requires all == a + b + c
    requires m1 == m0 + Recorded(strategy, a) && m2 == m1 + Recorded(strategy, b)
    requires m3 == m2 + Recorded(strategy, c)
    ensures m3 == m0 + Recorded(strategy, all)
  {
    Added2(strategy, m0, m1, m2, a + b, a, b);
    Added2(strategy, m0, m2, m3, all, a + b, c);
  }

  lemma Added4(strategy: string, m0: set<string>, m1: set<string>, m2: set<string>, m3: set<string>,
               m4: set<string>, all: set<string>, a: set<string>, b: set<string>, c: set<string>, d: set<string>)
    requires all == a + b + c + d
    requires m1 == m0 + Recorded(strategy, a) && m2 == m1 + Recorded(strategy, b)
    requires m3 == m2 + Recorded(strategy, c) && m4 == m3 + Recorded(strategy, d)
    ensures m4 == m0 + Recorded(strategy, all)
  {
    Added3(strategy, m0, m1, m2, m3, a + b + c, a, b, c);
    Added2(strategy, m0, m3, m4, all, a + b + c, d);
  }

  lemma Added5(strategy: string, m0: set<string>, m1: set<string>, m2: set<string>, m3: set<string>,
               m4: set<string>, m5: set<string>,
               all: set<string>, a: set<string>, b: set<string>, c: set<string>, d: set<string>, e: set<string>)
    requires all == a + b + c + d + e
    requires m1 == m0 + Recorded(strategy, a) && m2 == m1 + Recorded(strategy, b)
    requires m3 == m2 + Recorded(strategy, c) && m4 == m3 + Recorded(strategy, d)
    requires m5 == m4 + Recorded(strategy, e)
    ensures m5 == m0 + Recorded(strategy, all)
  {
    Added4(strategy, m0, m1, m2, m3, m4, a + b + c + d, a, b, c, d);
    Added2(strategy, m0, m4, m5, all, a + b + c + d, e);
  }


  /** Every `def` name and `self.<name>(...)` name in a statement, a list of
      them or a list of handlers. */
  function StmtNames(s: Stmt): set<string> {
    StmtCalls(s) + StmtDefs(s)
  }

  function BodyNames(b: seq<Stmt>): set<string> {
    BodyCalls(b) + BodyDefs(b)
  }

  function HandlersNames(hs: seq<Handler>): set<string> {
    HandlersCalls(hs) + HandlersDefs(hs)
  }

  // ---------------------------------------------------------------------
  // The pass touches nothing but attribute names of `self`

  /** An expression with the attribute name of every `self.<name>` blanked. */
  function Strip(e: Expr): Expr {
    match e
    case Name(_) => e
    case Constant(_) => e
    case Attribute(v, a) => Attribute(Strip(v), if IsSelf(v) then "" else a)
    case Call(f, args) => Call(Strip(f), StripAll(args))
    case List(elts) => List(StripAll(elts))
    case Compare(l, op, r) => Compare(Strip(l), op, Strip(r))
    case OtherExpr(k, cs) => OtherExpr(k, StripAll(cs))
  }

  function StripAll(es: seq<Expr>): seq<Expr> {
    if es == [] then [] else [Strip(es[0])] + StripAll(es[1..])
  }

  /** Apart from the attribute names of `self`, the pass leaves an expression
      as it was: every other name, receiver, constant and operator is kept. */
  lemma {:induction false} OnlySelfAttrsChange(strategy: string, e: Expr)
    ensures Strip(RenameExpr(strategy, e)) == Strip(e)
    decreases e
  {
    match e
    case Name(_) =>
    case Constant(_) =>
    case Attribute(v, a) => OnlySelfAttrsChange(strategy, v);
    case Call(f, args) => OnlySelfAttrsChange(strategy, f); OnlySelfAttrsChangeAll(strategy, args);
    case List(elts) => OnlySelfAttrsChangeAll(strategy, elts);
    case Compare(l, op, r) => OnlySelfAttrsChange(strategy, l); OnlySelfAttrsChange(strategy, r);
    case OtherExpr(k, cs) => OnlySelfAttrsChangeAll(strategy, cs);
  }

  lemma {:induction false} OnlySelfAttrsChangeAll(strategy: string, es: seq<Expr>)
    ensures StripAll(RenameExprs(strategy, es)) == StripAll(es)
    decreases es
  {
    if es != [] {
      OnlySelfAttrsChange(strategy, es[0]);
      OnlySelfAttrsChangeAll(strategy, es[1..]);
    }
  }

  // ---------------------------------------------------------------------
  // The pass on expressions: idempotent, and call targets follow the rule

  lemma {:induction false} ExprRenamed(strategy: string, e: Expr)
    ensures RenameExpr(strategy, RenameExpr(strategy, e)) == RenameExpr(strategy, e)
    ensures ExprCalls(RenameExpr(strategy, e)) == Image(strategy, ExprCalls(e))
  {
    match e
    case Name(_) =>
    case Constant(_) =>
    case Attribute(v, a) =>
      ExprRenamed(strategy, v);
      RenameIdempotent(strategy, a);
    case Call(f, args) =>
      ExprRenamed(strategy, f);
      ExprsRenamed(strategy, args);
      CallRenamed(strategy, f, args);
    case List(elts) =>
      ExprsRenamed(strategy, elts);
    case Compare(l, _, r) =>
      ExprRenamed(strategy, l);
      ExprRenamed(strategy, r);
      ImageUnion(strategy, ExprCalls(l), ExprCalls(r));
    case OtherExpr(_, cs) =>
      ExprsRenamed(strategy, cs);
  }

  /** The call case of `ExprRenamed`, given its facts for the callee and the arguments. */
  lemma CallRenamed(strategy: string, f: Expr, args: seq<Expr>)
    requires RenameExpr(strategy, RenameExpr(strategy, f)) == RenameExpr(strategy, f)
    requires ExprCalls(RenameExpr(strategy, f)) == Image(strategy, ExprCalls(f))
    requires RenameExprs(strategy, RenameExprs(strategy, args)) == RenameExprs(strategy, args)
    requires ExprsCalls(RenameExprs(strategy, args)) == Image(strategy, ExprsCalls(args))
    ensures RenameExpr(strategy, RenameExpr(strategy, Call(f, args))) == RenameExpr(strategy, Call(f, args))
    ensures ExprCalls(RenameExpr(strategy, Call(f, args))) == Image(strategy, ExprCalls(Call(f, args)))
  {
    if f.Attribute? && IsSelf(f.value) {
      RenameIdempotent(strategy, f.attr);
      ImageUnion(strategy, {f.attr}, ExprCalls(f));
      ImageUnion(strategy, {f.attr} + ExprCalls(f), ExprsCalls(args));
    } else {
      ImageUnion(strategy, ExprCalls(f), ExprsCalls(args));
    }
  }

  lemma {:induction false} ExprsRenamed(strategy: string, es: seq<Expr>)
    ensures RenameExprs(strategy, RenameExprs(strategy, es)) == RenameExprs(strategy, es)
    ensures ExprsCalls(RenameExprs(strategy, es)) == Image(strategy, ExprsCalls(es))
  {
    if es != [] {
      ExprRenamed(strategy, es[0]);
      ExprsRenamed(strategy, es[1..]);
      ImageUnion(strategy, ExprCalls(es[0]), ExprsCalls(es[1..]));
      assert RenameExprs(strategy, es)[1..] == RenameExprs(strategy, es[1..]);
    }
  }

  lemma {:induction false} OptRenamed(strategy: string, o: Option<Expr>)
    ensures RenameOpt(strategy, RenameOpt(strategy, o)) == RenameOpt(strategy, o)
    ensures OptCalls(RenameOpt(strategy, o)) == Image(strategy, OptCalls(o))
  {
    if o.Some? {
      ExprRenamed(strategy, o.value);
    }
  }

  // ---------------------------------------------------------------------
  // The pass on statements

  lemma {:induction false} StmtRenamed(strategy: string, s: Stmt)
    ensures RenameStmt(strategy, RenameStmt(strategy, s)) == RenameStmt(strategy, s)
    ensures StmtCalls(RenameStmt(strategy, s)) == Image(strategy, StmtCalls(s))
    ensures StmtDefs(RenameStmt(strategy, s)) == Image(strategy, StmtDefs(s))
  {
    match s
    case Return(v) =>
      ExprRenamed(strategy, v);
    case Assign(ts, v) =>
      ExprsRenamed(strategy, ts);
      ExprRenamed(strategy, v);
      ImageUnion(strategy, ExprsCalls(ts), ExprCalls(v));
    case If(t, b, o) =>
      ExprRenamed(strategy, t);
      BodyRenamed(strategy, b);
      BodyRenamed(strategy, o);
      ImageUnion(strategy, ExprCalls(t), BodyCalls(b));
      ImageUnion(strategy, ExprCalls(t) + BodyCalls(b), BodyCalls(o));
      ImageUnion(strategy, BodyDefs(b), BodyDefs(o));
    case For(t, it, b, o) =>
      ExprRenamed(strategy, t);
      ExprRenamed(strategy, it);
      BodyRenamed(strategy, b);
      BodyRenamed(strategy, o);
      ForRenamed(strategy, t, it, b, o);
    case While(t, b, o) =>
      ExprRenamed(strategy, t);
      BodyRenamed(strategy, b);
      BodyRenamed(strategy, o);
      ImageUnion(strategy, ExprCalls(t), BodyCalls(b));
      ImageUnion(strategy, ExprCalls(t) + BodyCalls(b), BodyCalls(o));
      ImageUnion(strategy, BodyDefs(b), BodyDefs(o));
    case With(items, b) =>
      ExprsRenamed(strategy, items);
      BodyRenamed(strategy, b);
      ImageUnion(strategy, ExprsCalls(items), BodyCalls(b));
    case Try(b, hs, o, f) =>
      BodyRenamed(strategy, b);
      HandlersRenamed(strategy, hs);
      BodyRenamed(strategy, o);
      BodyRenamed(strategy, f);
      TryRenamed(strategy, b, hs, o, f);
    case ExprStmt(v) =>
      ExprRenamed(strategy, v);
    case FunctionDef(fn) =>
      ExprsRenamed(strategy, fn.args.defaults);
      BodyRenamed(strategy, fn.body);
      ExprsRenamed(strategy, fn.decorators);
      OptRenamed(strategy, fn.annotation);
      FunctionDefRenamed(strategy, fn);
    case ClassDef(_, bases, b) =>
      ExprsRenamed(strategy, bases);
      BodyRenamed(strategy, b);
      ImageUnion(strategy, ExprsCalls(bases), BodyCalls(b));
    case OtherStmt(_, es) =>
      ExprsRenamed(strategy, es);
  }

  /** What `ExprsRenamed`, `OptRenamed`, `BodyRenamed` and `HandlersRenamed`
      establish, as premises of the per-statement cases below. */
  predicate ExprFacts(strategy: string, e: Expr) {
    && RenameExpr(strategy, RenameExpr(strategy, e)) == RenameExpr(strategy, e)
    && ExprCalls(RenameExpr(strategy, e)) == Image(strategy, ExprCalls(e))
  }

  predicate ExprsFacts(strategy: string, es: seq<Expr>) {
    && RenameExprs(strategy, RenameExprs(strategy, es)) == RenameExprs(strategy, es)
    && ExprsCalls(RenameExprs(strategy, es)) == Image(strategy, ExprsCalls(es))
  }

  predicate OptFacts(strategy: string, o: Option<Expr>) {
    && RenameOpt(strategy, RenameOpt(strategy, o)) == RenameOpt(strategy, o)
    && OptCalls(RenameOpt(strategy, o)) == Image(strategy, OptCalls(o))
  }

  predicate BodyFacts(strategy: string, b: seq<Stmt>) {
    && RenameBody(strategy, RenameBody(strategy, b)) == RenameBody(strategy, b)
    && BodyCalls(RenameBody(strategy, b)) == Image(strategy, BodyCalls(b))
    && BodyDefs(RenameBody(strategy, b)) == Image(strategy, BodyDefs(b))
  }

  predicate HandlersFacts(strategy: string, hs: seq<Handler>) {
    && RenameHandlers(strategy, RenameHandlers(strategy, hs)) == RenameHandlers(strategy, hs)
    && HandlersCalls(RenameHandlers(strategy, hs)) == Image(strategy, HandlersCalls(hs))
    && HandlersDefs(RenameHandlers(strategy, hs)) == Image(strategy, HandlersDefs(hs))
  }

  predicate StmtFacts(strategy: string, s: Stmt) {
    && RenameStmt(strategy, RenameStmt(strategy, s)) == RenameStmt(strategy, s)
    && StmtCalls(RenameStmt(strategy, s)) == Image(strategy, StmtCalls(s))
    && StmtDefs(RenameStmt(strategy, s)) == Image(strategy, StmtDefs(s))
  }

  lemma ForRenamed(strategy: string, t: Expr, it: Expr, b: seq<Stmt>, o: seq<Stmt>)
    requires ExprFacts(strategy, t) && ExprFacts(strategy, it)
    requires BodyFacts(strategy, b) && BodyFacts(strategy, o)
    ensures StmtFacts(strategy, For(t, it, b, o))
  {
    ImageUnion(strategy, ExprCalls(t), ExprCalls(it));
    ImageUnion(strategy, ExprCalls(t) + ExprCalls(it), BodyCalls(b));
    ImageUnion(strategy, ExprCalls(t) + ExprCalls(it) + BodyCalls(b), BodyCalls(o));
    ImageUnion(strategy, BodyDefs(b), BodyDefs(o));
  }

  lemma TryRenamed(strategy: string, b: seq<Stmt>, hs: seq<Handler>, o: seq<Stmt>, f: seq<Stmt>)
    requires BodyFacts(strategy, b) && HandlersFacts(strategy, hs)
    requires BodyFacts(strategy, o) && BodyFacts(strategy, f)
    ensures StmtFacts(strategy, Try(b, hs, o, f))
  {
    var r := Try(RenameBody(strategy, b), RenameHandlers(strategy, hs), RenameBody(strategy, o), RenameBody(strategy, f));
    assert RenameStmt(strategy, Try(b, hs, o, f)) == r;
    assert RenameStmt(strategy, r) == r;
    assert StmtCalls(r) == Image(strategy, BodyCalls(b)) + Image(strategy, HandlersCalls(hs))
      + Image(strategy, BodyCalls(o)) + Image(strategy, BodyCalls(f));
    assert StmtDefs(r) == Image(strategy, BodyDefs(b)) + Image(strategy, HandlersDefs(hs))
      + Image(strategy, BodyDefs(o)) + Image(strategy, BodyDefs(f));
    ImageUnion(strategy, BodyCalls(b), HandlersCalls(hs));
    ImageUnion(strategy, BodyCalls(b) + HandlersCalls(hs), BodyCalls(o));
    ImageUnion(strategy, BodyCalls(b) + HandlersCalls(hs) + BodyCalls(o), BodyCalls(f));
    ImageUnion(strategy, BodyDefs(b), HandlersDefs(hs));
    ImageUnion(strategy, BodyDefs(b) + HandlersDefs(hs), BodyDefs(o));
    ImageUnion(strategy, BodyDefs(b) + HandlersDefs(hs) + BodyDefs(o), BodyDefs(f));
  }

  lemma FunctionDefRenamed(strategy: string, fn: FuncDef)
    requires ExprsFacts(strategy, fn.args.defaults) && BodyFacts(strategy, fn.body)
    requires ExprsFacts(strategy, fn.decorators) && OptFacts(strategy, fn.annotation)
    ensures StmtFacts(strategy, FunctionDef(fn))
  {
    RenameIdempotent(strategy, fn.name);
    var r := RenameFuncDef(strategy, fn);
    assert RenameArgs(strategy, r.args) == r.args;
    assert RenameFuncDef(strategy, r) == r;
    assert RenameStmt(strategy, FunctionDef(fn)) == FunctionDef(r);
    ImageUnion(strategy, ExprsCalls(fn.args.defaults), BodyCalls(fn.body));
    ImageUnion(strategy, ExprsCalls(fn.args.defaults) + BodyCalls(fn.body), ExprsCalls(fn.decorators));
    ImageUnion(strategy, ExprsCalls(fn.args.defaults) + BodyCalls(fn.body) + ExprsCalls(fn.decorators),
               OptCalls(fn.annotation));
    ImageUnion(strategy, {fn.name}, BodyDefs(fn.body));
  }

  lemma {:induction false} HandlersRenamed(strategy: string, hs: seq<Handler>)
    ensures RenameHandlers(strategy, RenameHandlers(strategy, hs)) == RenameHandlers(strategy, hs)
    ensures HandlersCalls(RenameHandlers(strategy, hs)) == Image(strategy, HandlersCalls(hs))
    ensures HandlersDefs(RenameHandlers(strategy, hs)) == Image(strategy, HandlersDefs(hs))
  {
    if hs != [] {
      OptRenamed(strategy, hs[0].typ);
      BodyRenamed(strategy, hs[0].body);
      HandlersRenamed(strategy, hs[1..]);
      assert RenameHandlers(strategy, hs)[1..] == RenameHandlers(strategy, hs[1..]);
      ImageUnion(strategy, OptCalls(hs[0].typ), BodyCalls(hs[0].body));
      ImageUnion(strategy, OptCalls(hs[0].typ) + BodyCalls(hs[0].body), HandlersCalls(hs[1..]));
      ImageUnion(strategy, BodyDefs(hs[0].body), HandlersDefs(hs[1..]));
    }
  }

  /** The pass is idempotent, and it moves every `def` name and every
      `self.<name>(...)` call target through the same rule. */
  lemma {:induction false} BodyRenamed(strategy: string, b: seq<Stmt>)
    ensures RenameBody(strategy, RenameBody(strategy, b)) == RenameBody(strategy, b)
    ensures BodyCalls(RenameBody(strategy, b)) == Image(strategy, BodyCalls(b))
    ensures BodyDefs(RenameBody(strategy, b)) == Image(strategy, BodyDefs(b))
  {
    if b != [] {
      StmtRenamed(strategy, b[0]);
      BodyRenamed(strategy, b[1..]);
      assert RenameBody(strategy, b)[1..] == RenameBody(strategy, b[1..]);
      ImageUnion(strategy, StmtCalls(b[0]), BodyCalls(b[1..]));
      ImageUnion(strategy, StmtDefs(b[0]), BodyDefs(b[1..]));
    }
  }

  /** After the pass, a method that a module both defines and calls as
      `self.<name>(...)` is defined and called under one and the same name. */
  lemma DefinitionAndCallsAgree(strategy: string, b: seq<Stmt>, name: string)
    requires name in BodyDefs(b) && name in BodyCalls(b)
    ensures Rename(strategy, name) in BodyDefs(RenameBody(strategy, b))
    ensures Rename(strategy, name) in BodyCalls(RenameBody(strategy, b))
  {
    BodyRenamed(strategy, b);
  }

  /** Conversely, every `self.<name>(...)` target after the pass is the
      renamed form of a target that was called before it. */
  lemma CallsReachRenamedDefs(strategy: string, b: seq<Stmt>, target: string)
    requires target in BodyCalls(RenameBody(strategy, b))
    ensures exists n :: n in BodyCalls(b) && Rename(strategy, n) == target
  {
    BodyRenamed(strategy, b);
  }

  // ---------------------------------------------------------------------
  // The per-file merger object that runs the pass

  /** The `FunctionMerger` that `merge_files` builds for one strategy file to
      rename its tree; `strategy` is the name `get_strategy_name` extracts. */
  class Renamer {
    const strategy: string
    var modifiedFunctions: set<string>

    /** Every name recorded in `modified_functions` already carries the prefix. */
    ghost predicate Valid()
      reads this
    {
      forall n | n in modifiedFunctions :: StartsWith(n, PrefixOf(strategy))
    }

    constructor (filePath: string)
      requires Sep in filePath
      ensures Valid()
      ensures Some(strategy) == StrategyName(filePath)
      ensures modifiedFunctions == {}
    {
      strategy := StrategyName(filePath).value;
      modifiedFunctions := {};
    }

    /** `visit_Attribute` on `<value>.<attr>`, then the visit of `<value>`.
        Attributes are renamed but not recorded. */
    method VisitAttribute(value: Expr, attr: string) returns (r: Expr)
      requires Valid()
      modifies this
      ensures Valid()
      ensures modifiedFunctions == old(modifiedFunctions) + Recorded(strategy, ExprCalls(Attribute(value, attr)))
      ensures r == RenameExpr(strategy, Attribute(value, attr))
      decreases value, 2
    {
      var a := attr;
      if IsSelf(value) && !IsReserved(a) {
        if !StartsWith(a, PrefixOf(strategy)) {
          a := PrefixOf(strategy) + a;
        }
      }
      var v := VisitExpr(value);
      r := Attribute(v, a);
    }

    /** `visit_Call` on a call, and the generic visit of every other expression. */
    method VisitExpr(e: Expr) returns (r: Expr)
      requires Valid()
      modifies this
      ensures Valid()
      ensures modifiedFunctions == old(modifiedFunctions) + Recorded(strategy, ExprCalls(e))
      ensures r == RenameExpr(strategy, e)
      decreases e, 1
    {
      match e
      case Name(_) =>
        r := e;
      case Constant(_) =>
        r := e;
      case Attribute(v, a) =>
        r := VisitAttribute(v, a);
      case Call(f, args) =>
        // visit_Call: rename and record the method of a `self.<name>(...)` call ...
        ghost var m0 := modifiedFunctions;
        var func: Expr;
        ghost var own: set<string> := {};
        if f.Attribute? && IsSelf(f.value) {
          var a := f.attr;
          own := {f.attr};
          RecordedSingle(strategy, f.attr);
          if !IsReserved(a) && a !in modifiedFunctions {
            if !StartsWith(a, PrefixOf(strategy)) {
              a := PrefixOf(strategy) + a;
              modifiedFunctions := modifiedFunctions + {a};
            }
          }
          ghost var m1 := modifiedFunctions;
          assert m1 == m0 + Recorded(strategy, own);
          RenameIdempotent(strategy, f.attr);
          // ... then visit the callee, an attribute already renamed
          func := VisitAttribute(f.value, a);
          assert ExprCalls(Attribute(f.value, a)) == ExprCalls(f);
          Added2(strategy, m0, m1, modifiedFunctions, own + ExprCalls(f), own, ExprCalls(f));
        } else {
          func := VisitExpr(f);
          Added2(strategy, m0, m0, modifiedFunctions, own + ExprCalls(f), own, ExprCalls(f));
        }
        ghost var m2 := modifiedFunctions;
        var args' := VisitExprs(args);
        Added2(strategy, m0, m2, modifiedFunctions, ExprCalls(e), own + ExprCalls(f), ExprsCalls(args));
        r := Call(func, args');
      case List(elts) =>
        var elts' := VisitExprs(elts);
        r := List(elts');
      case Compare(left, op, right) =>
        ghost var m0 := modifiedFunctions;
        var left' := VisitExpr(left);
        ghost var m1 := modifiedFunctions;
        var right' := VisitExpr(right);
        Added2(strategy, m0, m1, modifiedFunctions, ExprCalls(e), ExprCalls(left), ExprCalls(right));
        r := Compare(left', op, right');
      case OtherExpr(k, cs) =>
        var cs' := VisitExprs(cs);
        r := OtherExpr(k, cs');
    }

    method VisitExprs(es: seq<Expr>) returns (r: seq<Expr>)
      requires Valid()
      modifies this
      ensures Valid()
      ensures modifiedFunctions == old(modifiedFunctions) + Recorded(strategy, ExprsCalls(es))
      ensures r == RenameExprs(strategy, es)
      decreases es
    {
      r := [];
      var i := 0;
      ghost var seen: set<string> := {};
      while i < |es|
        invariant 0 <= i <= |es|
        invariant Valid() && modifiedFunctions == old(modifiedFunctions) + Recorded(strategy, seen)
        invariant RenameExprs(strategy, es) == r + RenameExprs(strategy, es[i..])
        invariant ExprsCalls(es) == seen + ExprsCalls(es[i..])
      {
        ghost var m1 := modifiedFunctions;
        var x := VisitExpr(es[i]);
        ExprsFrom(strategy, es, i);
        SeqStep(r, x, RenameExprs(strategy, es[i + 1..]));
        SetStep(seen, ExprCalls(es[i]), {}, ExprsCalls(es[i + 1..]));
        Added2(strategy, old(modifiedFunctions), m1, modifiedFunctions, seen + ExprCalls(es[i]), seen, ExprCalls(es[i]));
        seen := seen + ExprCalls(es[i]);
        r := r + [x];
        i := i + 1;
      }
    }

    method VisitOpt(o: Option<Expr>) returns (r: Option<Expr>)
      requires Valid()
      modifies this
      ensures Valid()
      ensures modifiedFunctions == old(modifiedFunctions) + Recorded(strategy, OptCalls(o))
      ensures r == RenameOpt(strategy, o)
      decreases o
    {
      match o
      case None =>
        r := None;
      case Some(e) =>
        var e' := VisitExpr(e);
        r := Some(e');
    }

    /** `visit_FunctionDef`: rename and record the definition's name, then
        visit its fields. */
    method VisitFunctionDef(fn: FuncDef) returns (r: FuncDef)
      requires Valid()
      modifies this
      ensures Valid()
      ensures modifiedFunctions == old(modifiedFunctions) + Recorded(strategy, StmtNames(FunctionDef(fn)))
      ensures r == RenameFuncDef(strategy, fn)
      decreases fn
    {
      ghost var m0 := modifiedFunctions;
      StmtNamesSplit(FunctionDef(fn));
      var name := fn.name;
      RecordedSingle(strategy, fn.name);
      if !IsReserved(name) && name !in modifiedFunctions {
        if !StartsWith(name, PrefixOf(strategy)) {
          name := PrefixOf(strategy) + name;
          modifiedFunctions := modifiedFunctions + {name};
        }
      }
      ghost var m1 := modifiedFunctions;
      assert m1 == m0 + Recorded(strategy, {fn.name});
      var defaults := VisitExprs(fn.args.defaults);
      ghost var m2 := modifiedFunctions;
      var body := VisitBody(fn.body);
      ghost var m3 := modifiedFunctions;
      var decorators := VisitExprs(fn.decorators);
      ghost var m4 := modifiedFunctions;
      var annotation := VisitOpt(fn.annotation);
      Added5(strategy, m0, m1, m2, m3, m4, modifiedFunctions, StmtNames(FunctionDef(fn)),
             {fn.name}, ExprsCalls(fn.args.defaults), BodyNames(fn.body), ExprsCalls(fn.decorators), OptCalls(fn.annotation));
      r := FuncDef(name, Arguments(fn.args.params, defaults), body, decorators, annotation);
    }

    method VisitStmt(s: Stmt) returns (r: Stmt)
      requires Valid()
      modifies this
      ensures Valid()
      ensures modifiedFunctions == old(modifiedFunctions) + Recorded(strategy, StmtNames(s))
      ensures r == RenameStmt(strategy, s)
      decreases s
    {
      ghost var m0 := modifiedFunctions;
      StmtNamesSplit(s);
      match s
      case Return(v) =>
        var v' := VisitExpr(v);
        r := Return(v');
      case Assign(ts, v) =>
        var ts' := VisitExprs(ts);
        ghost var m1 := modifiedFunctions;
        var v' := VisitExpr(v);
        Added2(strategy, m0, m1, modifiedFunctions, StmtNames(s), ExprsCalls(ts), ExprCalls(v));
        r := Assign(ts', v');
      case If(t, b, o) =>
        var t' := VisitExpr(t);
        ghost var m1 := modifiedFunctions;
        var b' := VisitBody(b);
        ghost var m2 := modifiedFunctions;
        var o' := VisitBody(o);
        Added3(strategy, m0, m1, m2, modifiedFunctions, StmtNames(s), ExprCalls(t), BodyNames(b), BodyNames(o));
        r := If(t', b', o');
      case For(t, it, b, o) =>
        var t' := VisitExpr(t);
        ghost var m1 := modifiedFunctions;
        var it' := VisitExpr(it);
        ghost var m2 := modifiedFunctions;
        var b' := VisitBody(b);
        ghost var m3 := modifiedFunctions;
        var o' := VisitBody(o);
        Added4(strategy, m0, m1, m2, m3, modifiedFunctions, StmtNames(s),
               ExprCalls(t), ExprCalls(it), BodyNames(b), BodyNames(o));
        r := For(t', it', b', o');
      case While(t, b, o) =>
        var t' := VisitExpr(t);
        ghost var m1 := modifiedFunctions;
        var b' := VisitBody(b);
        ghost var m2 := modifiedFunctions;
        var o' := VisitBody(o);
        Added3(strategy, m0, m1, m2, modifiedFunctions, StmtNames(s), ExprCalls(t), BodyNames(b), BodyNames(o));
        r := While(t', b', o');
      case With(items, b) =>
        var items' := VisitExprs(items);
        ghost var m1 := modifiedFunctions;
        var b' := VisitBody(b);
        Added2(strategy, m0, m1, modifiedFunctions, StmtNames(s), ExprsCalls(items), BodyNames(b));
        r := With(items', b');
      case Try(b, hs, o, f) =>
        var b' := VisitBody(b);
        ghost var m1 := modifiedFunctions;
        var hs' := VisitHandlers(hs);
        ghost var m2 := modifiedFunctions;
        var o' := VisitBody(o);
        ghost var m3 := modifiedFunctions;
        var f' := VisitBody(f);
        Added4(strategy, m0, m1, m2, m3, modifiedFunctions, StmtNames(s),
               BodyNames(b), HandlersNames(hs), BodyNames(o), BodyNames(f));
        r := Try(b', hs', o', f');
      case ExprStmt(v) =>
        var v' := VisitExpr(v);
        r := ExprStmt(v');
      case FunctionDef(fn) =>
        var fn' := VisitFunctionDef(fn);
        r := FunctionDef(fn');
      case ClassDef(n, bases, b) =>
        var bases' := VisitExprs(bases);
        ghost var m1 := modifiedFunctions;
        var b' := VisitBody(b);
        Added2(strategy, m0, m1, modifiedFunctions, StmtNames(s), ExprsCalls(bases), BodyNames(b));
        r := ClassDef(n, bases', b');
      case OtherStmt(k, es) =>
        var es' := VisitExprs(es);
        r := OtherStmt(k, es');
    }

    method VisitHandlers(hs: seq<Handler>) returns (r: seq<Handler>)
      requires Valid()
      modifies this
      ensures Valid()
      ensures modifiedFunctions == old(modifiedFunctions) + Recorded(strategy, HandlersNames(hs))
      ensures r == RenameHandlers(strategy, hs)
      decreases hs
    {
      r := [];
      var i := 0;
      ghost var seen: set<string> := {};
      while i < |hs|
        invariant 0 <= i <= |hs|
        invariant Valid() && modifiedFunctions == old(modifiedFunctions) + Recorded(strategy, seen)
        invariant RenameHandlers(strategy, hs) == r + RenameHandlers(strategy, hs[i..])
        invariant HandlersNames(hs) == seen + HandlersNames(hs[i..])
      {
        ghost var m1 := modifiedFunctions;
        var typ := VisitOpt(hs[i].typ);
        ghost var m2 := modifiedFunctions;
        var body := VisitBody(hs[i].body);
        HandlersFrom(strategy, hs, i);
        SeqStep(r, Handler(typ, body), RenameHandlers(strategy, hs[i + 1..]));
        SetStep(seen, OptCalls(hs[i].typ), BodyNames(hs[i].body), HandlersNames(hs[i + 1..]));
        Added3(strategy, old(modifiedFunctions), m1, m2, modifiedFunctions,
               seen + OptCalls(hs[i].typ) + BodyNames(hs[i].body), seen, OptCalls(hs[i].typ), BodyNames(hs[i].body));
        seen := seen + OptCalls(hs[i].typ) + BodyNames(hs[i].body);
        r := r + [Handler(typ, body)];
        i := i + 1;
      }
    }

    /** Visiting a module's statements, as `merger.visit(tree)` does. */
    method VisitBody(b: seq<Stmt>) returns (r: seq<Stmt>)
      requires Valid()
      modifies this
      ensures Valid()
      ensures modifiedFunctions == old(modifiedFunctions) + Recorded(strategy, BodyNames(b))
      ensures r == RenameBody(strategy, b)
      decreases b
    {
      r := [];
      var i := 0;
      ghost var seen: set<string> := {};
      while i < |b|
        invariant 0 <= i <= |b|
        invariant Valid() && modifiedFunctions == old(modifiedFunctions) + Recorded(strategy, seen)
        invariant RenameBody(strategy, b) == r + RenameBody(strategy, b[i..])
        invariant BodyNames(b) == seen + BodyNames(b[i..])
      {
        ghost var m1 := modifiedFunctions;
        var x := VisitStmt(b[i]);
        BodyFrom(strategy, b, i);
        SeqStep(r, x, RenameBody(strategy, b[i + 1..]));
        SetStep(seen, StmtNames(b[i]), {}, BodyNames(b[i + 1..]));
        Added2(strategy, old(modifiedFunctions), m1, modifiedFunctions, seen + StmtNames(b[i]), seen, StmtNames(b[i]));
        seen := seen + StmtNames(b[i]);
        r := r + [x];
        i := i + 1;
      }
    }
  }
}
