/** A small evaluator for the statements the merger builds, so that what the
    merged callbacks DO can be stated, not only how they are laid out.

    The state the merged strategy relies on is `self.active_strategy` plus the
    local variables of the running method. Everything else the strategy reads
    (indicators, candles, the position) is an oracle `world` that maps an
    expression to its value; statements other than assignments to a local or
    to `self.active_strategy` do not change the modelled state. A call
    `self.<m>()` of a method of the merged class runs that method's body,
    with fresh locals, and costs one unit of `fuel`. Loops are not evaluated
    (they end in `Stuck`), and no exception is ever raised. */
module Semantics {
  import opened Ast
  import opened Naming
  import opened Returns
  import opened Merge

  /** The Python values the merged code compares and returns; `VOther` is any
      other object, known only by its truth value. */
  datatype Value = VBool(b: bool) | VInt(i: int) | VStr(s: string) | VNone | VOther(truthy: bool)

  datatype State = State(active: Value, locals: map<string, Value>)

  /** The methods of the merged class and the oracle for everything else. */
  datatype Env = Env(methods: map<string, seq<Stmt>>, world: Expr -> Value)

  datatype EvalResult = Evaluated(v: Value, st: State) | EvalStuck

  /** How a statement list ends: by running off its end, by `return`, or not at all. */
  datatype Outcome = Normal(st: State) | Returned(v: Value, st: State) | Stuck

  function ConstValue(c: Const): Value {
    match c
    case CBool(b) => VBool(b)
    case CInt(i) => VInt(i)
    case CStr(s) => VStr(s)
    case CNone => VNone
  }

  /** Python's `bool(v)`. */
  predicate Truthy(v: Value) {
    match v
    case VBool(b) => b
    case VInt(i) => i != 0
    case VStr(s) => s != ""
    case VNone => false
    case VOther(t) => t
  }

  /** `True == 1` and `False == 0` in Python. */
  function Numeric(v: Value): Option<int> {
    match v
    case VBool(b) => Some(if b then 1 else 0)
    case VInt(i) => Some(i)
    case _ => None
  }

  /** Python's `==` between two modelled values. */
  predicate PyEq(a: Value, b: Value)
    requires !a.VOther? && !b.VOther?
  {
    if a.VStr? || b.VStr? then a.VStr? && b.VStr? && a.s == b.s
    else if a.VNone? || b.VNone? then a.VNone? && b.VNone?
    else Numeric(a).value == Numeric(b).value
  }

  /** Back in the caller after `self.<m>()`: the callee's return value (or
      `None`) and its effect on `active_strategy`, with the caller's locals. */
  function Resume(r: Outcome, caller: State): EvalResult {
    match r
    case Normal(st) => Evaluated(VNone, State(st.active, caller.locals))
    case Returned(v, st) => Evaluated(v, State(st.active, caller.locals))
    case Stuck => EvalStuck
  }

  function Eval(env: Env, fuel: nat, e: Expr, st: State): EvalResult
    decreases fuel, e
  {
    match e
    case Constant(c) => Evaluated(ConstValue(c), st)
    case Name(id) => Evaluated(if id in st.locals then st.locals[id] else env.world(e), st)
    case Attribute(obj, attr) =>
      Evaluated(if obj == Name("self") && attr == ActiveStrategy then st.active else env.world(e), st)
    case Compare(l, op, r) =>
      (match Eval(env, fuel, l, st)
       case EvalStuck => EvalStuck
       case Evaluated(a, st1) =>
         match Eval(env, fuel, r, st1)
         case EvalStuck => EvalStuck
         case Evaluated(b, st2) =>
           Evaluated(if op == Eq && !a.VOther? && !b.VOther? then VBool(PyEq(a, b)) else env.world(e), st2))
    case Call(f, args) =>
      if args == [] && f.Attribute? && f.value == Name("self") && f.attr in env.methods then
        if fuel == 0 then EvalStuck
        else Resume(Exec(env, fuel - 1, env.methods[f.attr], State(st.active, map[])), st)
      else Evaluated(env.world(e), st)
    case _ => Evaluated(env.world(e), st)
  }

  /** Only a single local name or `self.active_strategy` is a modelled target. */
  function AssignTo(targets: seq<Expr>, v: Value, st: State): State {
    if |targets| == 1 && targets[0].Name? then State(st.active, st.locals[targets[0].id := v])
    else if targets == [SelfAttr(ActiveStrategy)] then State(v, st.locals)
    else st
  }

  function ExecStmt(env: Env, fuel: nat, s: Stmt, st: State): Outcome
    decreases fuel, s
  {
    match s
    case Return(v) =>
      (match Eval(env, fuel, v, st)
       case Evaluated(x, st1) => Returned(x, st1)
       case EvalStuck => Stuck)
    case Assign(targets, v) =>
      (match Eval(env, fuel, v, st)
       case Evaluated(x, st1) => Normal(AssignTo(targets, x, st1))
       case EvalStuck => Stuck)
    case If(t, b, o) =>
      (match Eval(env, fuel, t, st)
       case Evaluated(x, st1) => if Truthy(x) then Exec(env, fuel, b, st1) else Exec(env, fuel, o, st1)
       case EvalStuck => Stuck)
    case For(_, _, _, _) => Stuck
    case While(_, _, _) => Stuck
    case With(_, b) => Exec(env, fuel, b, st)
    case Try(b, _, o, f) =>
      // `else` runs when the `try` part ends normally; the `finally` block
      // runs after either, and a `return` in it replaces the earlier outcome
      var r := match Exec(env, fuel, b, st)
        case Normal(st1) => Exec(env, fuel, o, st1)
        case other => other;
      (match r
       case Normal(st1) => Exec(env, fuel, f, st1)
       case Returned(v, st1) =>
         (match Exec(env, fuel, f, st1)
          case Normal(st2) => Returned(v, st2)
          case other => other)
       case Stuck => Stuck)
    case ExprStmt(e) =>
      (match Eval(env, fuel, e, st)
       case Evaluated(_, st1) => Normal(st1)
       case EvalStuck => Stuck)
    case _ => Normal(st)
  }

  function Exec(env: Env, fuel: nat, body: seq<Stmt>, st: State): Outcome
    decreases fuel, body
  {
    if body == [] then Normal(st)
    else
      match ExecStmt(env, fuel, body[0], st)
      case Normal(st1) => Exec(env, fuel, body[1..], st1)
      case other => other
  }

  /** Running `rest` after an outcome, as a statement list continues. */
  function Then(env: Env, fuel: nat, r: Outcome, rest: seq<Stmt>): Outcome {
    match r
    case Normal(st) => Exec(env, fuel, rest, st)
    case other => other
  }

  /** The value and state `self.<m>()` leaves behind. */
  function Invoke(env: Env, fuel: nat, m: string, st: State): EvalResult
    requires fuel > 0 && m in env.methods
  {
    Resume(Exec(env, fuel - 1, env.methods[m], State(st.active, map[])), st)
  }

  // ---------------------------------------------------------------------
  // Statement lists

  /** A statement list runs its parts one after the other. */
  lemma {:induction false} ExecAppend(env: Env, fuel: nat, a: seq<Stmt>, b: seq<Stmt>, st: State)
    ensures Exec(env, fuel, a + b, st) == Then(env, fuel, Exec(env, fuel, a, st), b)
  {
    if a == [] {
      assert a + b == b;
    } else {
      assert (a + b)[0] == a[0];
      assert (a + b)[1..] == a[1..] + b;
      match ExecStmt(env, fuel, a[0], st)
      case Normal(st1) => ExecAppend(env, fuel, a[1..], b, st1);
      case _ =>
    }
  }

  lemma ExecSingle(env: Env, fuel: nat, x: Stmt, st: State)
    ensures Exec(env, fuel, [x], st) == ExecStmt(env, fuel, x, st)
  {
    assert [x][1..] == [];
    assert forall st' :: Exec(env, fuel, [], st') == Normal(st');
  }

  /** `self.active_strategy = None` releases the trade and nothing else. */
  lemma ResetOwnerReleases(env: Env, fuel: nat, st: State)
    ensures Exec(env, fuel, [ResetOwner], st) == Normal(State(VNone, st.locals))
  {
    ExecSingle(env, fuel, ResetOwner, st);
    assert Eval(env, fuel, Constant(CNone), st) == Evaluated(VNone, st);
  }

  /** A provenance marker changes nothing. */
  lemma MarkerSkipped(env: Env, fuel: nat, file: string, b: seq<Stmt>, st: State)
    ensures Exec(env, fuel, [Marker(file)] + b, st) == Exec(env, fuel, b, st)
  {
    assert ([Marker(file)] + b)[1..] == b;
    assert Eval(env, fuel, Marker(file).value, st) == Evaluated(VStr("# Merged from " + file), st);
    assert ExecStmt(env, fuel, Marker(file), st) == Normal(st);
  }

  /** `active_strategy` only ever holds `None` or a strategy's name. */
  predicate OwnerValue(v: Value) {
    v.VNone? || v.VStr?
  }

  /** `if self.active_strategy == '<s>': <body>` runs the body exactly when
      strategy `s` owns the trade, and otherwise changes nothing. */
  lemma GuardRunsOnlyOwner(env: Env, fuel: nat, strategy: string, body: seq<Stmt>, st: State)
    requires OwnerValue(st.active)
    ensures ExecStmt(env, fuel, Guard(strategy, body), st) ==
      if st.active == VStr(strategy) then Exec(env, fuel, body, st) else Normal(st)
  {
    var test := Compare(SelfAttr(ActiveStrategy), Eq, Constant(CStr(strategy)));
    assert Eval(env, fuel, SelfAttr(ActiveStrategy), st) == Evaluated(st.active, st);
    assert Eval(env, fuel, test, st) == Evaluated(VBool(st.active == VStr(strategy)), st);
    assert Exec(env, fuel, [], st) == Normal(st);
  }

  // ---------------------------------------------------------------------
  // Rewritten entry evaluators

  /** No `try` on a walked path has a `finally` block (such a block runs after
      a `return` and could undo the claim). */
  predicate NoFinally(b: seq<Stmt>) {
    forall i | 0 <= i < |b| :: NoFinallyIn(b[i])
  }

  predicate NoFinallyIn(s: Stmt) {
    match s
    case If(_, b, o) => NoFinally(b) && NoFinally(o)
    case For(_, _, b, o) => NoFinally(b) && NoFinally(o)
    case While(_, b, o) => NoFinally(b) && NoFinally(o)
    case With(_, b) => NoFinally(b)
    case Try(b, _, o, f) => f == [] && NoFinally(b) && NoFinally(o)
    case _ => true
  }

  /** What one rewritten `return <e>` does: it stores the value, and leaves
      with `True` after claiming ownership exactly when the value `== True`
      (so `return 1` claims too); any other value, truthy or not, falls
      through to the next statement. */
  lemma RewrittenReturn(env: Env, fuel: nat, e: Expr, strategy: string, fname: string, st: State,
                        x: Value, st1: State)
    requires Eval(env, fuel, e, st) == Evaluated(x, st1) && !x.VOther?
    ensures var temp := TempName(strategy, fname);
      var locals := st1.locals[temp := x];
      Exec(env, fuel, RewriteStmt(Return(e), strategy, fname), st) ==
        if PyEq(x, VBool(true)) then Returned(VBool(true), State(VStr(strategy), locals))
        else Normal(State(st1.active, locals))
  {
    var temp := TempName(strategy, fname);
    var locals := st1.locals[temp := x];
    var st2 := State(st1.active, locals);
    var w := RewriteStmt(Return(e), strategy, fname);
    assert ExecStmt(env, fuel, w[0], st) == Normal(st2);
    assert w[1..] == [ClaimIf(strategy, temp)];
    var test := Compare(Name(temp), Eq, Constant(CBool(true)));
    assert Eval(env, fuel, test, st2) == Evaluated(VBool(PyEq(x, VBool(true))), st2);
    var claim := ClaimIf(strategy, temp).body;
    assert claim[1..] == [Return(Constant(CBool(true)))];
    var st3 := State(VStr(strategy), locals);
    assert ExecStmt(env, fuel, claim[0], st2) == Normal(st3);
    assert ExecStmt(env, fuel, claim[1], st3) == Returned(VBool(true), st3);
    assert Exec(env, fuel, claim[1..], st3) == Returned(VBool(true), st3);
    assert Exec(env, fuel, [], st2) == Normal(st2);
    var r := if PyEq(x, VBool(true)) then Returned(VBool(true), st3) else Normal(st2);
    assert ExecStmt(env, fuel, w[1], st2) == r;
    assert Exec(env, fuel, w[1..], st2) == r;
  }

  /** The rewrite changes what a module's `should_long` means for a truthy
      value that is not `True`: `return 'yes'` leaves the original function
      with a truthy result, while the rewritten body runs on. */
  lemma TruthyReturnFallsThrough(env: Env, fuel: nat, strategy: string, st: State)
    ensures Exec(env, fuel, [Return(Constant(CStr("yes")))], st) == Returned(VStr("yes"), st)
    ensures Truthy(VStr("yes"))
    ensures Exec(env, fuel, RewriteReturns([Return(Constant(CStr("yes")))], strategy, ShouldLong), st).Normal?
  {
    var body := [Return(Constant(CStr("yes")))];
    assert RewriteReturns(body, strategy, ShouldLong) == RewriteStmt(body[0], strategy, ShouldLong) + [] by {
      assert body[1..] == [];
    }
    assert RewriteStmt(body[0], strategy, ShouldLong) + [] == RewriteStmt(body[0], strategy, ShouldLong);
    RewrittenReturn(env, fuel, body[0].value, strategy, ShouldLong, st, VStr("yes"), st);
  }

  /** The claim pair leaves only with `True`, after the claim. */
  lemma ClaimIfClaims(env: Env, fuel: nat, strategy: string, temp: string, st: State)
    ensures var r := Exec(env, fuel, [ClaimIf(strategy, temp)], st);
      r.Returned? ==> r.v == VBool(true) && r.st.active == VStr(strategy)
  {
    var claim := ClaimIf(strategy, temp).body;
    var tv := Eval(env, fuel, ClaimIf(strategy, temp).test, st);
    var lv := Eval(env, fuel, Name(temp), st);
    assert lv.Evaluated? && lv.st == st;
    assert Eval(env, fuel, Constant(CBool(true)), st) == Evaluated(VBool(true), st);
    assert tv.Evaluated? && tv.st == st;
    assert claim[1..] == [Return(Constant(CBool(true)))];
    var st3 := State(VStr(strategy), st.locals);
    assert ExecStmt(env, fuel, claim[0], st) == Normal(st3);
    assert ExecStmt(env, fuel, claim[1], st3) == Returned(VBool(true), st3);
    assert Exec(env, fuel, claim, st) == Returned(VBool(true), st3);
    assert Exec(env, fuel, [], st) == Normal(st);
    assert ExecStmt(env, fuel, ClaimIf(strategy, temp), st) ==
      if Truthy(tv.v) then Returned(VBool(true), st3) else Normal(st);
  }

  lemma {:induction false} RewrittenStmtClaims(env: Env, fuel: nat, s: Stmt, strategy: string, fname: string, st: State)
    requires NoFinallyIn(s)
    ensures var r := Exec(env, fuel, RewriteStmt(s, strategy, fname), st);
      r.Returned? ==> r.v == VBool(true) && r.st.active == VStr(strategy)
    decreases s, 0
  {
    var w := RewriteStmt(s, strategy, fname);
    match s
    case Return(e) =>
      var temp := TempName(strategy, fname);
      assert w[1..] == [ClaimIf(strategy, temp)];
      match Eval(env, fuel, e, st) {
        case Evaluated(x, st1) =>
          var st2 := State(st1.active, st1.locals[temp := x]);
          assert ExecStmt(env, fuel, w[0], st) == Normal(st2);
          ClaimIfClaims(env, fuel, strategy, temp, st2);
        case EvalStuck =>
          assert ExecStmt(env, fuel, w[0], st) == Stuck;
      }
    case If(t, b, o) =>
      match Eval(env, fuel, t, st) {
        case Evaluated(x, st1) =>
          RewrittenBodyClaims(env, fuel, b, strategy, fname, st1);
          RewrittenBodyClaims(env, fuel, o, strategy, fname, st1);
        case EvalStuck =>
      }
    case With(items, b) =>
      RewrittenBodyClaims(env, fuel, b, strategy, fname, st);
    case Try(b, hs, o, f) =>
      RewrittenBodyClaims(env, fuel, b, strategy, fname, st);
      assert forall st' :: Exec(env, fuel, [], st') == Normal(st');
      match Exec(env, fuel, RewriteReturns(b, strategy, fname), st) {
        case Normal(st1) =>
          RewrittenBodyClaims(env, fuel, o, strategy, fname, st1);
          var r2 := Exec(env, fuel, RewriteReturns(o, strategy, fname), st1);
          assert ExecStmt(env, fuel, w[0], st) == r2;
        case Returned(v, st1) =>
          assert ExecStmt(env, fuel, w[0], st) == Returned(v, st1);
        case Stuck =>
      }
    case _ =>
  }

  /** A rewritten entry evaluator can only leave through `return True`, and
      only once its module owns the trade. */
  lemma {:induction false} RewrittenBodyClaims(env: Env, fuel: nat, body: seq<Stmt>, strategy: string, fname: string, st: State)
    requires NoFinally(body)
    ensures var r := Exec(env, fuel, RewriteReturns(body, strategy, fname), st);
      r.Returned? ==> r.v == VBool(true) && r.st.active == VStr(strategy)
    decreases body, 1
  {
    if body != [] {
      var head := RewriteStmt(body[0], strategy, fname);
      var rest := RewriteReturns(body[1..], strategy, fname);
      ExecAppend(env, fuel, head, rest, st);
      RewrittenStmtClaims(env, fuel, body[0], strategy, fname, st);
      assert NoFinally(body[1..]) by {
        forall i | 0 <= i < |body[1..]| ensures NoFinallyIn(body[1..][i]) {
          assert body[1..][i] == body[i + 1];
        }
      }
      match Exec(env, fuel, head, st)
      case Normal(st1) => RewrittenBodyClaims(env, fuel, body[1..], strategy, fname, st1);
      case _ =>
    }
  }

  // ---------------------------------------------------------------------
  // The composed callbacks

  lemma {:induction false} BlocksAppend(name: string, a: seq<Contribution>, b: seq<Contribution>)
    ensures Blocks(name, a + b) == Blocks(name, a) + Blocks(name, b)
  {
    if b == [] {
      assert a + b == a;
    } else {
      var init := b[..|b| - 1];
      assert (a + b)[..|a + b| - 1] == a + init;
      BlocksAppend(name, a, init);
      AppendAssoc(Blocks(name, a), Blocks(name, init), Block(name, b[|b| - 1]));
    }
  }

  lemma BlocksSingle(name: string, c: Contribution)
    ensures Blocks(name, [c]) == Block(name, c)
  {
    assert [c][..0] == [];
    assert Blocks(name, [c]) == [] + Block(name, c);
  }

  /** `should_long` and `should_short` are never scanned for a super call, so
      their merged body is the modules' blocks. */
  lemma EntryBlocks(name: string, cs: seq<Contribution>)
    requires name == ShouldLong || name == ShouldShort
    ensures Combined(name, cs) == Blocks(name, cs)
  {
    SuperAddedMeans(name, cs);
    CombinedWithoutSuperCall(name, cs);
  }

  /** The composed `should_long` runs the modules' rewritten bodies in input
      order and stops at the first one that leaves: the first module whose
      condition is `True` claims the trade, and no later module runs. */
  lemma ComposedShouldLong(env: Env, fuel: nat, c: Contribution, rest: seq<Contribution>, st: State)
    ensures Exec(env, fuel, Combined(ShouldLong, [c] + rest), st) ==
      Then(env, fuel, Exec(env, fuel, RewriteReturns(c.fn.body, c.strategy, ShouldLong), st), Combined(ShouldLong, rest))
  {
    EntryBlocks(ShouldLong, [c] + rest);
    EntryBlocks(ShouldLong, rest);
    BlocksAppend(ShouldLong, [c], rest);
    BlocksSingle(ShouldLong, c);
    assert !IsGated(ShouldLong) by {
      forall i | 0 <= i < |FunctionsToAddIf| ensures FunctionsToAddIf[i] != ShouldLong {
        assert FunctionsToAddIf[i][|FunctionsToAddIf[i]| - 1] != 'g' || |FunctionsToAddIf[i]| != 11;
      }
    }
    var body := RewriteReturns(c.fn.body, c.strategy, ShouldLong);
    assert Blocks(ShouldLong, [c]) == [Marker(c.file)] + body;
    ExecAppend(env, fuel, [Marker(c.file)] + body, Blocks(ShouldLong, rest), st);
    MarkerSkipped(env, fuel, c.file, body, st);
  }

  /** The composed `should_long` answers `True` only on behalf of one of the
      modules, whose name it has then recorded as the owner. */
  lemma {:induction false} ComposedShouldLongClaims(env: Env, fuel: nat, cs: seq<Contribution>, st: State)
    requires forall j | 0 <= j < |cs| :: NoFinally(cs[j].fn.body)
    ensures var r := Exec(env, fuel, Combined(ShouldLong, cs), st);
      r.Returned? ==> r.v == VBool(true) && exists j | 0 <= j < |cs| :: r.st.active == VStr(cs[j].strategy)
  {
    if cs != [] {
      var c := cs[0];
      var rest := cs[1..];
      assert cs == [c] + rest;
      ComposedShouldLong(env, fuel, c, rest, st);
      RewrittenBodyClaims(env, fuel, c.fn.body, c.strategy, ShouldLong, st);
      match Exec(env, fuel, RewriteReturns(c.fn.body, c.strategy, ShouldLong), st) {
        case Normal(st1) =>
          assert forall j | 0 <= j < |rest| :: rest[j] == cs[j + 1];
          ComposedShouldLongClaims(env, fuel, rest, st1);
        case Returned(v, st1) =>
          assert st1.active == VStr(cs[0].strategy);
        case Stuck =>
      }
    } else {
      assert Exec(env, fuel, [], st) == Normal(st);
    }
  }

  /** The merged `should_short` first asks `should_long`: when that answer is
      truthy it returns `False` and no module's short condition runs;
      otherwise the modules' conditions run in the state `should_long` left. */
  lemma ShouldShortYieldsToShouldLong(env: Env, fuel: nat, body: seq<Stmt>, st: State)
    requires fuel > 0 && ShouldLong in env.methods
    ensures var answer := Invoke(env, fuel, ShouldLong, st);
      Exec(env, fuel, ShouldShortDef(body).body, st) ==
        if answer.EvalStuck? then Stuck
        else if Truthy(answer.v) then Returned(VBool(false), answer.st)
        else Exec(env, fuel, body, answer.st)
  {
    var answer := Invoke(env, fuel, ShouldLong, st);
    var head := [Comment(ProtectionComment), LongGuard];
    assert ShouldShortDef(body).body == head + body;
    ExecAppend(env, fuel, head, body, st);
    assert head[1..] == [LongGuard];
    ExecSingle(env, fuel, LongGuard, st);
    assert ExecStmt(env, fuel, head[0], st) == Normal(st);
    assert Exec(env, fuel, head, st) == ExecStmt(env, fuel, LongGuard, st);
    assert Eval(env, fuel, LongGuard.test, st) == answer;
    if answer.Evaluated? && Truthy(answer.v) {
      ExecSingle(env, fuel, LongGuard.body[0], answer.st);
      assert Eval(env, fuel, Constant(CBool(false)), answer.st) == Evaluated(VBool(false), answer.st);
    } else if answer.Evaluated? {
      assert Exec(env, fuel, [], answer.st) == Normal(answer.st);
    }
  }

  /** Gated blocks whose modules do not own the trade change nothing. */
  lemma {:induction false} GatedBlocksSkipNonOwners(env: Env, fuel: nat, name: string, cs: seq<Contribution>, st: State)
    requires IsGated(name) && OwnerValue(st.active)
    requires forall j | 0 <= j < |cs| :: st.active != VStr(cs[j].strategy)
    ensures Exec(env, fuel, Blocks(name, cs), st) == Normal(st)
  {
    if cs == [] {
      assert Exec(env, fuel, [], st) == Normal(st);
    } else {
      var init := cs[..|cs| - 1];
      var c := cs[|cs| - 1];
      assert forall j | 0 <= j < |init| :: init[j] == cs[j];
      GatedBlocksSkipNonOwners(env, fuel, name, init, st);
      ExecAppend(env, fuel, Blocks(name, init), Block(name, c), st);
      GatedBlock(env, fuel, name, c, st);
    }
  }

  /** One gated block: the marker, then the guarded module code. */
  lemma GatedBlock(env: Env, fuel: nat, name: string, c: Contribution, st: State)
    requires IsGated(name) && OwnerValue(st.active)
    ensures Block(name, c) == [Marker(c.file), Guard(c.strategy, c.fn.body)]
    ensures Exec(env, fuel, Block(name, c), st) ==
      if st.active == VStr(c.strategy) then Exec(env, fuel, c.fn.body, st) else Normal(st)
  {
    var g := Guard(c.strategy, c.fn.body);
    GatedBlockShape(name, c);
    assert [Marker(c.file)] + [g] == [Marker(c.file), g];
    MarkerSkipped(env, fuel, c.file, [g], st);
    GuardRunsOnlyOwner(env, fuel, c.strategy, c.fn.body, st);
    assert [g][1..] == [];
    assert forall st' :: Exec(env, fuel, [], st') == Normal(st');
  }

  /** Without super calls, a merged body splits around module `k`. */
  lemma CombinedAround(name: string, cs: seq<Contribution>, k: nat)
    requires forall j | 0 <= j < |cs| :: SuperCallOf(name, cs[j]).None?
    requires k < |cs|
    ensures Combined(name, cs) == Blocks(name, cs[..k]) + (Blocks(name, [cs[k]]) + Blocks(name, cs[k + 1..]))
  {
    SuperAddedMeans(name, cs);
    CombinedWithoutSuperCall(name, cs);
    assert cs == cs[..k] + ([cs[k]] + cs[k + 1..]);
    BlocksAppend(name, cs[..k], [cs[k]] + cs[k + 1..]);
    BlocksAppend(name, [cs[k]], cs[k + 1..]);
  }

  /** A gated callback without super calls runs the code of the module that
      owns the trade, and only that: the other modules' blocks are skipped. */
  lemma GatedCallbackRunsOnlyOwner(env: Env, fuel: nat, name: string, cs: seq<Contribution>, k: nat,
                                   st: State, st1: State)
    requires IsGated(name) && OwnerValue(st.active)
    requires forall j | 0 <= j < |cs| :: SuperCallOf(name, cs[j]).None?
    requires k < |cs| && st.active == VStr(cs[k].strategy)
    requires forall j | 0 <= j < |cs| && j != k :: cs[j].strategy != cs[k].strategy
    requires Exec(env, fuel, cs[k].fn.body, st) == Normal(st1) && st1.active == st.active
    ensures Exec(env, fuel, Combined(name, cs), st) == Normal(st1)
  {
    var before := cs[..k];
    var after := cs[k + 1..];
    var blocksBefore := Blocks(name, before);
    var owner := Blocks(name, [cs[k]]);
    var blocksAfter := Blocks(name, after);
    CombinedAround(name, cs, k);
    assert Exec(env, fuel, blocksBefore, st) == Normal(st) by {
      assert forall j | 0 <= j < |before| :: before[j] == cs[j];
      GatedBlocksSkipNonOwners(env, fuel, name, before, st);
    }
    assert Exec(env, fuel, owner, st) == Normal(st1) by {
      BlocksSingle(name, cs[k]);
      GatedBlock(env, fuel, name, cs[k], st);
    }
    assert Exec(env, fuel, blocksAfter, st1) == Normal(st1) by {
      assert forall j | 0 <= j < |after| :: after[j] == cs[k + 1 + j];
      GatedBlocksSkipNonOwners(env, fuel, name, after, st1);
    }
    ExecAppend(env, fuel, blocksBefore, owner + blocksAfter, st);
    ExecAppend(env, fuel, owner, blocksAfter, st);
  }

  // ---------------------------------------------------------------------
  // Releasing and resetting the owner

  /** The merged `on_close_position` releases the trade when the module code
      runs to its end; a `return` inside it skips the reset. */
  lemma OnCloseReleasesOwner(env: Env, fuel: nat, body: seq<Stmt>, st: State)
    ensures Exec(env, fuel, OnCloseDef(body).body, st) ==
      match Exec(env, fuel, body, st)
      case Normal(st1) => Normal(State(VNone, st1.locals))
      case other => other
  {
    ExecAppend(env, fuel, body, [ResetOwner], st);
    match Exec(env, fuel, body, st) {
      case Normal(st1) => ResetOwnerReleases(env, fuel, st1);
      case _ =>
    }
  }

  /** The synthesised `__init__` leaves the trade unowned. */
  lemma InitDefUnowned(env: Env, fuel: nat, st: State)
    ensures Exec(env, fuel, InitDef.body, st) == Normal(State(VNone, st.locals))
  {
    ResetOwnerReleases(env, fuel, st);
  }

  /** A merged `__init__` clears the owner before any module's code runs. */
  lemma MergedInitStartsUnowned(env: Env, fuel: nat, cs: seq<Contribution>, st: State)
    requires cs != []
    ensures Exec(env, fuel, MergedDef(Init, cs).body, st) ==
      Exec(env, fuel, Combined(Init, cs), State(VNone, st.locals))
  {
    ExecAppend(env, fuel, [ResetOwner], Combined(Init, cs), st);
    ResetOwnerReleases(env, fuel, st);
  }

  /** With two modules defining `on_close_position`, closing a trade owned by
      the first runs the first module's code twice (see
      `OnCloseRepeatsEarlierModules`) before releasing the trade. */
  lemma OnCloseRunsFirstModuleTwice(env: Env, fuel: nat, a: Contribution, b: Contribution,
                                    st: State, st1: State, st2: State)
    requires SuperCallOf(OnClosePosition, a).None? && SuperCallOf(OnClosePosition, b).None?
    requires a.strategy != b.strategy && st.active == VStr(a.strategy)
    requires Exec(env, fuel, a.fn.body, st) == Normal(st1) && st1.active == st.active
    requires Exec(env, fuel, a.fn.body, st1) == Normal(st2) && st2.active == st.active
    ensures Exec(env, fuel, OnCloseDef(OnCloseBody([a, b])).body, st) == Normal(State(VNone, st2.locals))
  {
    var blockA := [Marker(a.file), Guard(a.strategy, a.fn.body)];
    var blockB := [Marker(b.file), Guard(b.strategy, b.fn.body)];
    var tail := blockB + [ResetOwner];
    assert OnCloseDef(OnCloseBody([a, b])).body == blockA + (blockA + tail) by {
      OnCloseRepeatsEarlierModules(a, b);
    }
    assert IsGated(OnClosePosition);
    assert Exec(env, fuel, blockA, st) == Normal(st1) by {
      GatedBlock(env, fuel, OnClosePosition, a, st);
    }
    assert Exec(env, fuel, blockA, st1) == Normal(st2) by {
      GatedBlock(env, fuel, OnClosePosition, a, st1);
    }
    assert Exec(env, fuel, tail, st2) == Normal(State(VNone, st2.locals)) by {
      GatedBlock(env, fuel, OnClosePosition, b, st2);
      ExecAppend(env, fuel, blockB, [ResetOwner], st2);
      ResetOwnerReleases(env, fuel, st2);
    }
    ExecAppend(env, fuel, blockA, blockA + tail, st);
    ExecAppend(env, fuel, blockA, tail, st1);
  }
}
