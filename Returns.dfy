/** `FunctionMerger.modify_return_statements`: the rewrite that turns every
    `return <e>` of an entry evaluator (`should_long`, `should_short`) into an
    ownership claim that only leaves the function when `<e>` is `True`:

        <strategy>_<fn> = <e>
        if <strategy>_<fn> == True:
            self.active_strategy = '<strategy>'
            return True

    The rewrite descends into the body and `orelse` of `if`, `for`, `while`,
    `with` and `try`, but not into `except` handlers, `finally` blocks or
    nested definitions. */
module Returns {
  import opened Ast
  import opened Naming

  /** The temporary that receives the value of a rewritten `return`. */
  function TempName(strategy: string, function_name: string): string {
    PrefixOf(strategy) + function_name
  }

  /** `if <temp> == True: self.active_strategy = '<strategy>'; return True` */
  function ClaimIf(strategy: string, temp: string): Stmt {
    If(Compare(Name(temp), Eq, Constant(CBool(true))),
       [ClaimOwner(strategy), Return(Constant(CBool(true)))], [])
  }

  function RewriteStmt(s: Stmt, strategy: string, fname: string): seq<Stmt> {
    match s
    case Return(v) =>
      [Assign([Name(TempName(strategy, fname))], v), ClaimIf(strategy, TempName(strategy, fname))]
    case If(t, b, o) => [If(t, RewriteReturns(b, strategy, fname), RewriteReturns(o, strategy, fname))]
    case For(t, it, b, o) =>
      [For(t, it, RewriteReturns(b, strategy, fname), RewriteReturns(o, strategy, fname))]
    case While(t, b, o) => [While(t, RewriteReturns(b, strategy, fname), RewriteReturns(o, strategy, fname))]
    case With(items, b) => [With(items, RewriteReturns(b, strategy, fname))]
    case Try(b, hs, o, f) => [Try(RewriteReturns(b, strategy, fname), hs, RewriteReturns(o, strategy, fname), f)]
    case _ => [s]
  }

  /** The statement list `modify_return_statements` builds. */
  function RewriteReturns(body: seq<Stmt>, strategy: string, fname: string): seq<Stmt> {
    if body == [] then [] else RewriteStmt(body[0], strategy, fname) + RewriteReturns(body[1..], strategy, fname)
  }

  // ---------------------------------------------------------------------
  // Every return the rewrite leaves is `return True` right after the claim

  /** In the statement lists the rewrite walks, each `return` is `return True`
      and comes directly after `self.active_strategy = '<strategy>'`. */
  predicate ReturnsClaim(b: seq<Stmt>, strategy: string) {
    && (forall i | 0 <= i < |b| && b[i].Return? ::
          b[i] == Return(Constant(CBool(true))) && i > 0 && ClaimsBefore(b, i, strategy))
    && (forall i | 0 <= i < |b| :: NestedReturnsClaim(b[i], strategy))
  }

  predicate ClaimsBefore(b: seq<Stmt>, i: nat, strategy: string)
    requires 0 < i <= |b|
  {
    b[i - 1] == ClaimOwner(strategy)
  }

  predicate NestedReturnsClaim(s: Stmt, strategy: string) {
    match s
    case If(_, b, o) => ReturnsClaim(b, strategy) && ReturnsClaim(o, strategy)
    case For(_, _, b, o) => ReturnsClaim(b, strategy) && ReturnsClaim(o, strategy)
    case While(_, b, o) => ReturnsClaim(b, strategy) && ReturnsClaim(o, strategy)
    case With(_, b) => ReturnsClaim(b, strategy)
    case Try(b, _, o, _) => ReturnsClaim(b, strategy) && ReturnsClaim(o, strategy)
    case _ => true
  }

  lemma ReturnsClaimAppend(a: seq<Stmt>, c: seq<Stmt>, strategy: string)
    requires ReturnsClaim(a, strategy) && ReturnsClaim(c, strategy)
    requires c != [] ==> !c[0].Return?
    ensures ReturnsClaim(a + c, strategy)
  {
    var ac := a + c;
    forall i | 0 <= i < |ac|
      ensures ac[i].Return? ==> ac[i] == Return(Constant(CBool(true))) && i > 0 && ClaimsBefore(ac, i, strategy)
      ensures NestedReturnsClaim(ac[i], strategy)
    {
      if i >= |a| {
        var j := i - |a|;
        assert ac[i] == c[j];
        if c[j].Return? {
          assert j > 0 && ClaimsBefore(c, j, strategy);
          assert ac[i - 1] == c[j - 1];
        }
      } else {
        assert ac[i] == a[i];
        if a[i].Return? {
          assert i > 0 && ClaimsBefore(a, i, strategy);
          assert ac[i - 1] == a[i - 1];
        }
      }
    }
  }

  lemma {:induction false} RewriteStmtClaims(s: Stmt, strategy: string, fname: string)
    ensures ReturnsClaim(RewriteStmt(s, strategy, fname), strategy)
    ensures !RewriteStmt(s, strategy, fname)[0].Return?
  {
    match s
    case Return(v) =>
      var claim := ClaimIf(strategy, TempName(strategy, fname));
      assert ClaimsBefore(claim.body, 1, strategy);
      assert ReturnsClaim(claim.body, strategy);
    case If(t, b, o) =>
      RewriteReturnsClaims(b, strategy, fname);
      RewriteReturnsClaims(o, strategy, fname);
    case For(t, it, b, o) =>
      RewriteReturnsClaims(b, strategy, fname);
      RewriteReturnsClaims(o, strategy, fname);
    case While(t, b, o) =>
      RewriteReturnsClaims(b, strategy, fname);
      RewriteReturnsClaims(o, strategy, fname);
    case With(items, b) =>
      RewriteReturnsClaims(b, strategy, fname);
    case Try(b, hs, o, f) =>
      RewriteReturnsClaims(b, strategy, fname);
      RewriteReturnsClaims(o, strategy, fname);
    case _ =>
  }

  /** After the rewrite, a walked statement list can only be left through
      `return True`, and only right after the module claims ownership. */
  lemma {:induction false} RewriteReturnsClaims(body: seq<Stmt>, strategy: string, fname: string)
    ensures ReturnsClaim(RewriteReturns(body, strategy, fname), strategy)
  {
    if body != [] {
      RewriteStmtClaims(body[0], strategy, fname);
      RewriteReturnsClaims(body[1..], strategy, fname);
      var rest := RewriteReturns(body[1..], strategy, fname);
      if rest != [] {
        assert rest[0] == RewriteStmt(body[1..][0], strategy, fname)[0];
        RewriteStmtClaims(body[1..][0], strategy, fname);
      }
      ReturnsClaimAppend(RewriteStmt(body[0], strategy, fname), rest, strategy);
    }
  }

  /** No `return` is left among the rewritten statements of the list itself:
      each statement stays one statement, and a `return` becomes the
      assignment followed by the claim. */
  lemma {:induction false} RewriteRemovesTopLevelReturns(body: seq<Stmt>, strategy: string, fname: string)
    ensures forall t | t in RewriteReturns(body, strategy, fname) :: !t.Return?
    ensures |RewriteReturns(body, strategy, fname)| >= |body|
    ensures (forall s | s in body :: !s.Return?) ==> |RewriteReturns(body, strategy, fname)| == |body|
  {
    if body != [] {
      RewriteRemovesTopLevelReturns(body[1..], strategy, fname);
      var head := RewriteStmt(body[0], strategy, fname);
      assert forall t | t in head :: !t.Return?;
      assert |head| == if body[0].Return? then 2 else 1;
    }
  }

  // ---------------------------------------------------------------------
  // The rewrite loses nothing: undoing it gives back the original body

  /** No walked statement already assigns the temporary. */
  predicate TempUnused(b: seq<Stmt>, temp: string) {
    forall i | 0 <= i < |b| :: TempUnusedIn(b[i], temp)
  }

  predicate TempUnusedIn(s: Stmt, temp: string) {
    match s
    case Assign(ts, _) => ts != [Name(temp)]
    case If(_, b, o) => TempUnused(b, temp) && TempUnused(o, temp)
    case For(_, _, b, o) => TempUnused(b, temp) && TempUnused(o, temp)
    case While(_, b, o) => TempUnused(b, temp) && TempUnused(o, temp)
    case With(_, b) => TempUnused(b, temp)
    case Try(b, _, o, _) => TempUnused(b, temp) && TempUnused(o, temp)
    case _ => true
  }

  /** Folds each `<temp> = e` + claim pair back into `return e`. */
  function Unrewrite(b: seq<Stmt>, strategy: string, fname: string): seq<Stmt> {
    var temp := TempName(strategy, fname);
    if b == [] then []
    else if |b| >= 2 && b[0].Assign? && b[0].targets == [Name(temp)] && b[1] == ClaimIf(strategy, temp) then
      [Return(b[0].value)] + Unrewrite(b[2..], strategy, fname)
    else
      [UnrewriteStmt(b[0], strategy, fname)] + Unrewrite(b[1..], strategy, fname)
  }

  function UnrewriteStmt(s: Stmt, strategy: string, fname: string): Stmt {
    match s
    case If(t, b, o) => If(t, Unrewrite(b, strategy, fname), Unrewrite(o, strategy, fname))
    case For(t, it, b, o) => For(t, it, Unrewrite(b, strategy, fname), Unrewrite(o, strategy, fname))
    case While(t, b, o) => While(t, Unrewrite(b, strategy, fname), Unrewrite(o, strategy, fname))
    case With(items, b) => With(items, Unrewrite(b, strategy, fname))
    case Try(b, hs, o, f) => Try(Unrewrite(b, strategy, fname), hs, Unrewrite(o, strategy, fname), f)
    case _ => s
  }

  /** The rewrite keeps every other statement, in order, and leaves `except`
      handlers and `finally` blocks as they were: folding the claim pairs back
      gives the original body. */
  lemma {:induction false} UnrewriteRewrite(body: seq<Stmt>, strategy: string, fname: string)
    requires TempUnused(body, TempName(strategy, fname))
    ensures Unrewrite(RewriteReturns(body, strategy, fname), strategy, fname) == body
  {
    if body != [] {
      var temp := TempName(strategy, fname);
      var s := body[0];
      var rest := RewriteReturns(body[1..], strategy, fname);
      assert TempUnused(body[1..], temp) by {
        forall i | 0 <= i < |body[1..]| ensures TempUnusedIn(body[1..][i], temp) {
          assert body[1..][i] == body[i + 1];
        }
      }
      UnrewriteRewrite(body[1..], strategy, fname);
      assert TempUnusedIn(s, temp);
      var w := RewriteStmt(s, strategy, fname) + rest;
      match s
      case Return(v) =>
        assert w[2..] == rest;
      case If(t, b, o) =>
        UnrewriteRewrite(b, strategy, fname);
        UnrewriteRewrite(o, strategy, fname);
        assert w[1..] == rest;
      case For(t, it, b, o) =>
        UnrewriteRewrite(b, strategy, fname);
        UnrewriteRewrite(o, strategy, fname);
        assert w[1..] == rest;
      case While(t, b, o) =>
        UnrewriteRewrite(b, strategy, fname);
        UnrewriteRewrite(o, strategy, fname);
        assert w[1..] == rest;
      case With(items, b) =>
        UnrewriteRewrite(b, strategy, fname);
        assert w[1..] == rest;
      case Try(b, hs, o, f) =>
        UnrewriteRewrite(b, strategy, fname);
        UnrewriteRewrite(o, strategy, fname);
        assert w[1..] == rest;
      case _ =>
        assert w[1..] == rest;
    }
  }
}
