/** The merge phase of `FunctionMerger`: `collect_functions`,
    `merge_functions` and `generate_merged_tree`.

    The functions below say what each merged definition is, module by module;
    the class `Merger` is the merger object `merge_files` builds over all the
    renamed strategy files, whose methods fill its tables in place. */
module Merge {
  import opened Ast
  import opened Naming
  import opened Paths
  import opened Returns
  import opened Walk

  const ShouldLong: string := "should_long"
  const ShouldShort: string := "should_short"
  const Hyperparameters: string := "hyperparameters"
  const Init: string := "__init__"
  const OnClosePosition: string := "on_close_position"

  const HyperparametersComment: string := "# Merged from multiple strategies"
  const ProtectionComment: string :=
    "# Protection to prevent long & short at the same time (will trigger an error on jesse)"

  /** `if self.should_long(): return False` */
  const LongGuard: Stmt := If(Call(SelfAttr(ShouldLong), []), [Return(Constant(CBool(false)))], [])

  /** One module's definition of a function name: the file it came from, the
      strategy name taken from that file's path, and the definition. */
  datatype Contribution = Contribution(file: string, strategy: string, fn: FuncDef)

  function StrategyOf(file: string): string
    requires Sep in file
  {
    StrategyName(file).value
  }

  predicate WellFormed(files: seq<string>, ff: map<string, map<string, FuncDef>>) {
    forall f | f in files :: f in ff && Sep in f
  }

  /** The modules that define `name`, in the order of `files`. */
  function Contribs(files: seq<string>, ff: map<string, map<string, FuncDef>>, name: string): seq<Contribution>
    requires WellFormed(files, ff)
  {
    if files == [] then []
    else
      var init := files[..|files| - 1];
      var f := files[|files| - 1];
      assert forall g | g in init :: g in files;
      Contribs(init, ff, name) + (if name in ff[f] then [Contribution(f, StrategyOf(f), ff[f][name])] else [])
  }

  /** The contributions are exactly the definitions of `name`, one per
      defining file; `ContribsInFileOrder` gives their order. */
  lemma {:induction false} ContribsAreDefinitions(files: seq<string>, ff: map<string, map<string, FuncDef>>, name: string)
    requires WellFormed(files, ff)
    ensures var cs := Contribs(files, ff, name);
      && |cs| <= |files|
      && (forall c | c in cs ::
            c.file in files && name in ff[c.file] && c.fn == ff[c.file][name] && c.strategy == StrategyOf(c.file))
      && (forall f | f in files && name in ff[f] :: exists c | c in cs :: c.file == f)
  {
    if files != [] {
      var init := files[..|files| - 1];
      var f := files[|files| - 1];
      assert files == init + [f];
      ContribsAreDefinitions(init, ff, name);
    }
  }

  /** The positions in `files` of the modules that define `name`. */
  function Definers(files: seq<string>, ff: map<string, map<string, FuncDef>>, name: string): seq<nat>
    requires WellFormed(files, ff)
  {
    if files == [] then []
    else
      var init := files[..|files| - 1];
      assert forall g | g in init :: g in files;
      Definers(init, ff, name) + (if name in ff[files[|files| - 1]] then [|files| - 1] else [])
  }

  /** The defining positions are exactly the positions of the modules that
      define `name`, in increasing order. */
  lemma {:induction false} DefinersAreDefiningPositions(files: seq<string>, ff: map<string, map<string, FuncDef>>, name: string)
    requires WellFormed(files, ff)
    ensures var ps := Definers(files, ff, name);
      && (forall k | 0 <= k < |ps| :: ps[k] < |files| && name in ff[files[ps[k]]])
      && (forall k, l | 0 <= k < l < |ps| :: ps[k] < ps[l])
      && (forall p | 0 <= p < |files| && name in ff[files[p]] :: p in ps)
  {
    if files != [] {
      var init := files[..|files| - 1];
      assert forall g | g in init :: g in files;
      DefinersAreDefiningPositions(init, ff, name);
      assert forall p | 0 <= p < |init| :: files[p] == init[p];
    }
  }

  /** The k-th contribution is the definition at the k-th defining position. */
  lemma {:induction false} ContribsAtDefiners(files: seq<string>, ff: map<string, map<string, FuncDef>>, name: string)
    requires WellFormed(files, ff)
    ensures var cs := Contribs(files, ff, name); var ps := Definers(files, ff, name);
      && |ps| == |cs|
      && (forall k | 0 <= k < |ps| ::
            ps[k] < |files| && cs[k].file == files[ps[k]] && name in ff[files[ps[k]]] && cs[k].fn == ff[files[ps[k]]][name])
  {
    if files != [] {
      var init := files[..|files| - 1];
      assert forall g | g in init :: g in files;
      ContribsAtDefiners(init, ff, name);
      assert forall p | 0 <= p < |init| :: files[p] == init[p];
    }
  }

  /** The contributions follow `files`: they come from strictly increasing
      positions that leave no definer out, so the first module's definition,
      when it has one, comes first. */
  lemma ContribsInFileOrder(files: seq<string>, ff: map<string, map<string, FuncDef>>, name: string)
    requires WellFormed(files, ff)
    ensures var cs := Contribs(files, ff, name); var ps := Definers(files, ff, name);
      && |ps| == |cs|
      && (forall k | 0 <= k < |ps| :: ps[k] < |files| && cs[k].file == files[ps[k]] && name in ff[files[ps[k]]] && cs[k].fn == ff[files[ps[k]]][name])
      && (forall k, l | 0 <= k < l < |ps| :: ps[k] < ps[l])
      && (forall p | 0 <= p < |files| && name in ff[files[p]] :: p in ps)
    ensures |files| > 0 && name in ff[files[0]] ==>
      var cs := Contribs(files, ff, name); |cs| > 0 && cs[0].file == files[0]
  {
    DefinersAreDefiningPositions(files, ff, name);
    ContribsAtDefiners(files, ff, name);
    var ps := Definers(files, ff, name);
    if |files| > 0 && name in ff[files[0]] {
      assert 0 in ps;
      var k0 :| 0 <= k0 < |ps| && ps[k0] == 0;
      assert k0 == 0;
    }
  }

  // ---------------------------------------------------------------------
  // One module's contribution to a merged body

  /** The entry evaluators have their returns turned into ownership claims. */
  function Modified(name: string, c: Contribution): seq<Stmt> {
    if name == ShouldLong || name == ShouldShort then RewriteReturns(c.fn.body, c.strategy, name)
    else c.fn.body
  }

  /** Gated callbacks run a module's code only while that module owns the trade. */
  function Wrapped(name: string, c: Contribution): seq<Stmt> {
    if IsGated(name) then [Guard(c.strategy, Modified(name, c))] else Modified(name, c)
  }

  /** The provenance marker followed by the module's code. The
      `hyperparameters` branch adds nothing that survives: its body is rebuilt
      from the collected list elements. */
  function Block(name: string, c: Contribution): seq<Stmt> {
    if name == Hyperparameters then [] else [Marker(c.file)] + Wrapped(name, c)
  }

  /** A call statement `<receiver>.<name>(...)`, as `super().<name>(...)` is. */
  predicate IsSuperCall(s: Stmt, name: string) {
    s.ExprStmt? && s.value.Call? && s.value.func.Attribute? && s.value.func.attr == name
  }

  /** The first such call in a body. */
  function FirstSuperCall(body: seq<Stmt>, name: string): (r: Option<Stmt>)
    ensures r.Some? ==> r.value in body && IsSuperCall(r.value, name)
    ensures r.None? <==> forall s | s in body :: !IsSuperCall(s, name)
  {
    if body == [] then None
    else if IsSuperCall(body[0], name) then Some(body[0])
    else FirstSuperCall(body[1..], name)
  }

  /** The call found is the first one: it sits at some position before which
      no statement is such a call, and a call at a position with none before
      it is the one found. */
  lemma {:induction false} FirstSuperCallIsFirst(body: seq<Stmt>, name: string)
    ensures var r := FirstSuperCall(body, name);
      r.Some? ==> exists k | 0 <= k < |body| ::
        body[k] == r.value && forall j | 0 <= j < k :: !IsSuperCall(body[j], name)
    ensures forall k | 0 <= k < |body| && IsSuperCall(body[k], name) ::
      (forall j | 0 <= j < k :: !IsSuperCall(body[j], name)) ==> FirstSuperCall(body, name) == Some(body[k])
  {
    if body != [] && !IsSuperCall(body[0], name) {
      FirstSuperCallIsFirst(body[1..], name);
      var r := FirstSuperCall(body, name);
      if r.Some? {
        var k :| 0 <= k < |body[1..]| && body[1..][k] == r.value
          && forall j | 0 <= j < k :: !IsSuperCall(body[1..][j], name);
        assert body[k + 1] == r.value;
        forall j | 0 <= j < k + 1 ensures !IsSuperCall(body[j], name) {
          if j > 0 { assert body[j] == body[1..][j - 1]; }
        }
      }
      forall k | 0 <= k < |body| && IsSuperCall(body[k], name) && (forall j | 0 <= j < k :: !IsSuperCall(body[j], name))
        ensures FirstSuperCall(body, name) == Some(body[k])
      {
        assert k > 0;
        assert body[1..][k - 1] == body[k];
        forall j | 0 <= j < k - 1 ensures !IsSuperCall(body[1..][j], name) {
          assert body[1..][j] == body[j + 1];
        }
      }
    }
  }

  /** Every name but the entry evaluators and `hyperparameters` is scanned for a super call. */
  predicate ScansSuperCall(name: string) {
    name != ShouldLong && name != ShouldShort && name != Hyperparameters
  }

  function SuperCallOf(name: string, c: Contribution): Option<Stmt> {
    if ScansSuperCall(name) then FirstSuperCall(c.fn.body, name) else None
  }

  /** `super_call_added` after the modules `cs`. */
  predicate SuperAdded(name: string, cs: seq<Contribution>) {
    cs != [] && (SuperAdded(name, cs[..|cs| - 1]) || SuperCallOf(name, cs[|cs| - 1]).Some?)
  }

  /** `combined_body` after the modules `cs`: each module's block, with the
      first super call met copied once in front of its module's block. */
  function Combined(name: string, cs: seq<Contribution>): seq<Stmt> {
    if cs == [] then []
    else
      var init := cs[..|cs| - 1];
      var c := cs[|cs| - 1];
      var sc := SuperCallOf(name, c);
      Combined(name, init) + (if !SuperAdded(name, init) && sc.Some? then [sc.value] else []) + Block(name, c)
  }

  /** The elements of every top-level `return [<list>]` of a body, in order. */
  function ListReturns(body: seq<Stmt>): seq<Expr> {
    if body == [] then []
    else
      var s := body[|body| - 1];
      ListReturns(body[..|body| - 1]) + (if s.Return? && s.value.List? then s.value.elts else [])
  }

  /** `combined_hyperparameters` after the modules `cs`. */
  function Hyper(cs: seq<Contribution>): seq<Expr> {
    if cs == [] then [] else Hyper(cs[..|cs| - 1]) + ListReturns(cs[|cs| - 1].fn.body)
  }

  /** `should_short_body` after the modules `cs`. */
  function ShortBody(cs: seq<Contribution>): seq<Stmt> {
    if cs == [] then []
    else
      var c := cs[|cs| - 1];
      ShortBody(cs[..|cs| - 1]) + RewriteReturns(c.fn.body, c.strategy, ShouldShort)
  }

  /** `on_close_position_body` after the modules `cs`: the whole of
      `combined_body` is appended after every module, so the blocks of the
      earlier modules come back each time. */
  function OnCloseBody(cs: seq<Contribution>): seq<Stmt> {
    if cs == [] then [] else OnCloseBody(cs[..|cs| - 1]) + Combined(OnClosePosition, cs)
  }

  // ---------------------------------------------------------------------
  // The merged definitions

  /** The definition the name loop stores: signature from the first module. */
  function MergedDef(name: string, cs: seq<Contribution>): (r: FuncDef)
    requires cs != []
    ensures r.name == name && r.args == cs[0].fn.args && r.decorators == cs[0].fn.decorators
    ensures r.annotation == cs[0].fn.annotation
  {
    var first := cs[0].fn;
    var body :=
      if name == Init then [ResetOwner] + Combined(name, cs)
      else if name == Hyperparameters then [Comment(HyperparametersComment), Return(List(Hyper(cs)))]
      else Combined(name, cs);
    FuncDef(name, first.args, body, first.decorators, first.annotation)
  }

  function ShouldShortDef(body: seq<Stmt>): FuncDef {
    FuncDef(ShouldShort, Params(["self"]), [Comment(ProtectionComment), LongGuard] + body, [], None)
  }

  function OnCloseDef(body: seq<Stmt>): FuncDef {
    FuncDef(OnClosePosition, Params(["self", "order"]), body + [ResetOwner], [], None)
  }

  const InitDef: FuncDef := FuncDef(Init, Params(["self"]), [ResetOwner], [], None)

  /** The definition `merged_functions` finally holds for `name`. */
  function FinalDef(files: seq<string>, ff: map<string, map<string, FuncDef>>, name: string): (r: FuncDef)
    requires WellFormed(files, ff)
    requires Contribs(files, ff, name) != [] || name == Init
    ensures r.name == name
  {
    var cs := Contribs(files, ff, name);
    if name == ShouldShort && ShortBody(cs) != [] then ShouldShortDef(ShortBody(cs))
    else if name == OnClosePosition && OnCloseBody(cs) != [] then OnCloseDef(OnCloseBody(cs))
    else if cs != [] then MergedDef(name, cs)
    else InitDef
  }

  // ---------------------------------------------------------------------
  // What the composition means

  /** Each module's block, one after the other. */
  function Blocks(name: string, cs: seq<Contribution>): seq<Stmt> {
    if cs == [] then [] else Blocks(name, cs[..|cs| - 1]) + Block(name, cs[|cs| - 1])
  }

  /** Slicing a sequence relates to slicing it without its last element. */
  lemma SliceOfInit<T>(s: seq<T>, k: nat)
    requires k < |s|
    ensures s[..k] == s[..|s| - 1][..k]
    ensures s[k..] == s[..|s| - 1][k..] + [s[|s| - 1]]
  {
  }

  lemma AppendAssoc<T>(a: seq<T>, b: seq<T>, c: seq<T>)
    ensures a + b + c == a + (b + c)
  {
  }

  lemma BlocksStep(name: string, cs: seq<Contribution>, c: Contribution)
    ensures Blocks(name, cs + [c]) == Blocks(name, cs) + Block(name, c)
  {
    assert (cs + [c])[..|cs|] == cs;
  }

  /** `super_call_added` holds once some module so far has a call of the same name. */
  lemma {:induction false} SuperAddedMeans(name: string, cs: seq<Contribution>)
    ensures SuperAdded(name, cs) <==> exists j | 0 <= j < |cs| :: SuperCallOf(name, cs[j]).Some?
  {
    if cs != [] {
      var init := cs[..|cs| - 1];
      SuperAddedMeans(name, init);
      if SuperAdded(name, init) {
        var j :| 0 <= j < |init| && SuperCallOf(name, init[j]).Some?;
        assert cs[j] == init[j];
      }
      if exists j | 0 <= j < |cs| :: SuperCallOf(name, cs[j]).Some? {
        var j :| 0 <= j < |cs| && SuperCallOf(name, cs[j]).Some?;
        if j < |init| {
          assert init[j] == cs[j];
        }
      }
    }
  }

  /** The combined body holds the module blocks and one statement more, the
      copied super call, exactly when some module has a super call. */
  lemma {:induction false} CombinedLength(name: string, cs: seq<Contribution>)
    ensures |Combined(name, cs)| == |Blocks(name, cs)| + if SuperAdded(name, cs) then 1 else 0
  {
    if cs != [] {
      CombinedLength(name, cs[..|cs| - 1]);
    }
  }

  /** Without super calls, a merged body is the modules' blocks in input order. */
  lemma {:induction false} CombinedWithoutSuperCall(name: string, cs: seq<Contribution>)
    requires !SuperAdded(name, cs)
    ensures Combined(name, cs) == Blocks(name, cs)
  {
    if cs != [] {
      CombinedWithoutSuperCall(name, cs[..|cs| - 1]);
    }
  }

  /** With super calls, the one of module `k`, the first module that has one,
      is copied once, in front of that module's block. */
  lemma {:induction false} CombinedWithSuperCall(name: string, cs: seq<Contribution>, k: nat)
    requires k < |cs| && SuperCallOf(name, cs[k]).Some?
    requires forall j | 0 <= j < k :: SuperCallOf(name, cs[j]).None?
    ensures Combined(name, cs) == Blocks(name, cs[..k]) + [SuperCallOf(name, cs[k]).value] + Blocks(name, cs[k..])
  {
    var init := cs[..|cs| - 1];
    var c := cs[|cs| - 1];
    var sc := [SuperCallOf(name, cs[k]).value];
    if k == |cs| - 1 {
      assert !SuperAdded(name, init) by {
        SuperAddedMeans(name, init);
        forall j | 0 <= j < |init| ensures SuperCallOf(name, init[j]).None? {
          assert cs[j] == init[j];
        }
      }
      CombinedWithoutSuperCall(name, init);
      assert cs[..k] == init;
      assert cs[k..] == [c];
      assert Blocks(name, [c]) == Block(name, c) by {
        assert [c][..0] == [];
      }
    } else {
      assert init[k] == cs[k];
      assert Combined(name, cs) == Combined(name, init) + Block(name, c) by {
        SuperAddedMeans(name, init);
      }
      assert Combined(name, init) == Blocks(name, cs[..k]) + sc + Blocks(name, init[k..]) by {
        CombinedWithSuperCall(name, init, k);
        SliceOfInit(cs, k);
      }
      assert Blocks(name, cs[k..]) == Blocks(name, init[k..]) + Block(name, c) by {
        SliceOfInit(cs, k);
        BlocksStep(name, init[k..], c);
      }
      AppendAssoc(Blocks(name, cs[..k]) + sc, Blocks(name, init[k..]), Block(name, c));
    }
  }

  /** A gated callback without super calls is a marker and a guard per module,
      in input order: module `i` contributes positions `2i` and `2i+1`. */
  lemma {:induction false} GatedLayout(name: string, cs: seq<Contribution>, i: nat)
    requires IsGated(name) && i < |cs|
    requires forall j | 0 <= j < |cs| :: SuperCallOf(name, cs[j]).None?
    ensures |Combined(name, cs)| == 2 * |cs|
    ensures Combined(name, cs)[2 * i] == Marker(cs[i].file)
    ensures Combined(name, cs)[2 * i + 1] == Guard(cs[i].strategy, cs[i].fn.body)
  {
    SuperAddedMeans(name, cs);
    CombinedWithoutSuperCall(name, cs);
    BlocksGated(name, cs, i);
  }

  lemma {:induction false} BlocksGated(name: string, cs: seq<Contribution>, i: nat)
    requires IsGated(name) && i < |cs|
    ensures |Blocks(name, cs)| == 2 * |cs|
    ensures Blocks(name, cs)[2 * i] == Marker(cs[i].file)
    ensures Blocks(name, cs)[2 * i + 1] == Guard(cs[i].strategy, cs[i].fn.body)
  {
    assert name != Hyperparameters && name != ShouldLong && name != ShouldShort;
    var init := cs[..|cs| - 1];
    if i < |init| {
      BlocksGated(name, init, i);
    } else if init != [] {
      BlocksGated(name, init, 0);
    }
  }

  /** The last element of a concatenation with a non-empty right side. */
  lemma InitOfAppend<T>(a: seq<T>, b: seq<T>)
    requires b != []
    ensures (a + b)[..|a + b| - 1] == a + b[..|b| - 1]
    ensures (a + b)[|a + b| - 1] == b[|b| - 1]
  {
  }

  lemma {:induction false} HyperAppend(a: seq<Contribution>, b: seq<Contribution>)
    ensures Hyper(a + b) == Hyper(a) + Hyper(b)
    decreases |b|
  {
    if b == [] {
      assert a + b == a;
    } else {
      var b' := b[..|b| - 1];
      var last := ListReturns(b[|b| - 1].fn.body);
      InitOfAppend(a, b);
      assert Hyper(a + b) == Hyper(a + b') + last;
      HyperAppend(a, b');
      AppendAssoc(Hyper(a), Hyper(b'), last);
    }
  }

  /** A `return [<list>]` statement whose list holds `x`. */
  predicate ReturnsListWith(s: Stmt, x: Expr) {
    s.Return? && s.value.List? && x in s.value.elts
  }

  /** Some top-level statement of the body is such a return. */
  predicate SomeListReturnWith(body: seq<Stmt>, x: Expr) {
    exists j | 0 <= j < |body| :: ReturnsListWith(body[j], x)
  }

  lemma {:induction false} ListReturnsMembers(body: seq<Stmt>, x: Expr)
    ensures x in ListReturns(body) <==> SomeListReturnWith(body, x)
  {
    if body != [] {
      var init := body[..|body| - 1];
      var s := body[|body| - 1];
      ListReturnsMembers(init, x);
      assert x in ListReturns(body) <==> x in ListReturns(init) || ReturnsListWith(s, x);
      if SomeListReturnWith(init, x) {
        var j :| 0 <= j < |init| && ReturnsListWith(init[j], x);
        assert body[j] == init[j];
      }
      if SomeListReturnWith(body, x) && !ReturnsListWith(s, x) {
        var j :| 0 <= j < |body| && ReturnsListWith(body[j], x);
        assert init[j] == body[j];
      }
    }
  }

  /** The merged `hyperparameters` list holds the elements of the `return
      [<list>]` statements of every module, the modules in input order; any
      other statement, a `return` of something else included, adds nothing. */
  lemma HyperparametersUnion(files: seq<string>, ff: map<string, map<string, FuncDef>>, x: Expr)
    requires WellFormed(files, ff) && Contribs(files, ff, Hyperparameters) != []
    ensures var cs := Contribs(files, ff, Hyperparameters); var d := FinalDef(files, ff, Hyperparameters);
      && d.body == [Comment(HyperparametersComment), Return(List(Hyper(cs)))]
      && (x in d.body[1].value.elts <==> exists i | 0 <= i < |cs| :: SomeListReturnWith(cs[i].fn.body, x))
  {
    HyperMembers(Contribs(files, ff, Hyperparameters), x);
  }

  lemma {:induction false} HyperMembers(cs: seq<Contribution>, x: Expr)
    ensures x in Hyper(cs) <==> exists i | 0 <= i < |cs| :: SomeListReturnWith(cs[i].fn.body, x)
  {
    if cs != [] {
      var init := cs[..|cs| - 1];
      var c := cs[|cs| - 1];
      HyperMembers(init, x);
      ListReturnsMembers(c.fn.body, x);
      assert Hyper(cs) == Hyper(init) + ListReturns(c.fn.body);
      if x in Hyper(init) {
        var i :| 0 <= i < |init| && SomeListReturnWith(init[i].fn.body, x);
        assert cs[i] == init[i];
      }
      if exists i | 0 <= i < |cs| :: SomeListReturnWith(cs[i].fn.body, x) {
        var i :| 0 <= i < |cs| && SomeListReturnWith(cs[i].fn.body, x);
        if i < |init| {
          assert init[i] == cs[i];
        } else {
          assert x in ListReturns(c.fn.body);
        }
      }
    }
  }

  /** Two modules, both defining a gated `on_close_position` without super
      calls: the first module's marker and guard appear twice before the
      second's, because the accumulated body is appended after each module. */
  lemma OnCloseRepeatsEarlierModules(a: Contribution, b: Contribution)
    requires SuperCallOf(OnClosePosition, a).None? && SuperCallOf(OnClosePosition, b).None?
    ensures OnCloseDef(OnCloseBody([a, b])).body ==
      [Marker(a.file), Guard(a.strategy, a.fn.body),
       Marker(a.file), Guard(a.strategy, a.fn.body),
       Marker(b.file), Guard(b.strategy, b.fn.body),
       ResetOwner]
  {
    assert IsGated(OnClosePosition);
    GatedBlockShape(OnClosePosition, a);
    GatedBlockShape(OnClosePosition, b);
    OnCloseBodyOfTwo(a, b);
    var blockA := Block(OnClosePosition, a);
    var blockB := Block(OnClosePosition, b);
    assert OnCloseDef(OnCloseBody([a, b])).body == blockA + (blockA + blockB) + [ResetOwner];
  }

  lemma OnCloseBodyOfTwo(a: Contribution, b: Contribution)
    requires SuperCallOf(OnClosePosition, a).None? && SuperCallOf(OnClosePosition, b).None?
    ensures OnCloseBody([a, b]) == Block(OnClosePosition, a) + (Block(OnClosePosition, a) + Block(OnClosePosition, b))
  {
    var blockA := Block(OnClosePosition, a);
    var blockB := Block(OnClosePosition, b);
    assert Combined(OnClosePosition, [a]) == blockA by {
      assert [a][..0] == [];
      assert Combined(OnClosePosition, [a]) == [] + [] + blockA;
    }
    assert Combined(OnClosePosition, [a, b]) == blockA + blockB by {
      assert [a, b][..1] == [a];
      assert !SuperAdded(OnClosePosition, [a]) by {
        assert [a][..0] == [];
      }
      assert Combined(OnClosePosition, [a, b]) == Combined(OnClosePosition, [a]) + [] + blockB;
    }
    assert OnCloseBody([a]) == blockA by {
      assert [a][..0] == [];
      assert OnCloseBody([a]) == [] + Combined(OnClosePosition, [a]);
    }
    assert [a, b][..1] == [a];
    assert OnCloseBody([a, b]) == OnCloseBody([a]) + Combined(OnClosePosition, [a, b]);
  }

  /** A gated callback's block: the marker, then the module's code under the owner guard. */
  lemma GatedBlockShape(name: string, c: Contribution)
    requires IsGated(name)
    ensures Block(name, c) == [Marker(c.file), Guard(c.strategy, c.fn.body)]
  {
    assert name != Hyperparameters && name != ShouldLong && name != ShouldShort;
    assert [Marker(c.file)] + [Guard(c.strategy, c.fn.body)] == [Marker(c.file), Guard(c.strategy, c.fn.body)];
  }

  /** The accumulators of the loop over `file_names` once the modules `cs`
      have been added, starting from `hyper0`, `short0` and `onClose0`. */
  ghost predicate Accumulated(name: string, cs: seq<Contribution>, added: bool, combined: seq<Stmt>,
                              hyper0: seq<Expr>, hyper: seq<Expr>, short0: seq<Stmt>, short: seq<Stmt>,
                              onClose0: seq<Stmt>, onClose: seq<Stmt>)
  {
    && added == SuperAdded(name, cs)
    && combined == Combined(name, cs)
    && hyper == hyper0 + (if name == Hyperparameters then Hyper(cs) else [])
    && short == short0 + (if name == ShouldShort then ShortBody(cs) else [])
    && onClose == onClose0 + (if name == OnClosePosition then OnCloseBody(cs) else [])
  }

  /** What `AddModule` does to the accumulators is adding one module to `cs`. */
  lemma AccumulatedStep(name: string, before: seq<Contribution>, c: Contribution,
                        added: bool, combined: seq<Stmt>, hyper0: seq<Expr>, hyper: seq<Expr>,
                        short0: seq<Stmt>, short: seq<Stmt>, onClose0: seq<Stmt>, onClose: seq<Stmt>,
                        added': bool, combined': seq<Stmt>, hyper': seq<Expr>, short': seq<Stmt>, onClose': seq<Stmt>)
    requires Accumulated(name, before, added, combined, hyper0, hyper, short0, short, onClose0, onClose)
    requires added' == (added || SuperCallOf(name, c).Some?)
    requires combined' == combined
      + (if !added && SuperCallOf(name, c).Some? then [SuperCallOf(name, c).value] else [])
      + Block(name, c)
    requires hyper' == hyper + (if name == Hyperparameters then ListReturns(c.fn.body) else [])
    requires short' == short + (if name == ShouldShort then RewriteReturns(c.fn.body, c.strategy, name) else [])
    requires onClose' == onClose + (if name == OnClosePosition then combined' else [])
    ensures Accumulated(name, before + [c], added', combined', hyper0, hyper', short0, short', onClose0, onClose')
  {
    var after := before + [c];
    assert after[..|after| - 1] == before;
    if name == Hyperparameters {
      AppendAssoc(hyper0, Hyper(before), ListReturns(c.fn.body));
    }
    if name == ShouldShort {
      AppendAssoc(short0, ShortBody(before), RewriteReturns(c.fn.body, c.strategy, name));
    }
    if name == OnClosePosition {
      AppendAssoc(onClose0, OnCloseBody(before), combined');
    }
  }

  // ---------------------------------------------------------------------
  // Class assembly

  datatype Group = Attributes | Properties | Protocol | Others

  predicate HasPropertyDecorator(f: FuncDef) {
    exists d | d in f.decorators :: d == Name("property")
  }

  /** The group `generate_merged_tree` files a merged function under. */
  function GroupOf(name: string, f: FuncDef): Group {
    if HasPropertyDecorator(f) then Properties
    else if name in JesseGlobalAttributes then Attributes
    else if name in JesseGlobalFunctions then Protocol
    else Others
  }

  /** The definitions of `names` that fall in group `g`, in the order of `names`. */
  function Select(names: seq<string>, defs: map<string, FuncDef>, g: Group): seq<Stmt>
    requires forall n | n in names :: n in defs
  {
    if names == [] then []
    else
      var init := names[..|names| - 1];
      var n := names[|names| - 1];
      Select(init, defs, g) + (if GroupOf(n, defs[n]) == g then [FunctionDef(defs[n])] else [])
  }

  function AllDefs(names: seq<string>, defs: map<string, FuncDef>): seq<Stmt>
    requires forall n | n in names :: n in defs
  {
    if names == [] then [] else AllDefs(names[..|names| - 1], defs) + [FunctionDef(defs[names[|names| - 1]])]
  }

  const StrategyBase: Expr := Name("Strategy")

  /** The class body holds every merged function exactly once: it is a
      rearrangement of the merged functions in `merged_functions` order. */
  lemma {:induction false} ClassBodyIsPermutation(names: seq<string>, defs: map<string, FuncDef>)
    requires forall n | n in names :: n in defs
    ensures multiset(Select(names, defs, Attributes) + Select(names, defs, Properties)
                     + Select(names, defs, Protocol) + Select(names, defs, Others))
         == multiset(AllDefs(names, defs))
  {
    if names != [] {
      var init := names[..|names| - 1];
      ClassBodyIsPermutation(init, defs);
    }
  }

  // ---------------------------------------------------------------------
  // The merger object

  predicate NoDuplicates<T(==)>(s: seq<T>) {
    forall i, j | 0 <= i < j < |s| :: s[i] != s[j]
  }

  function AllNames(ff: map<string, map<string, FuncDef>>): set<string> {
    set f, n | f in ff && n in ff[f] :: n
  }

  /** The names of `order` that some listed module defines, in that order. */
  function DefinedNames(files: seq<string>, ff: map<string, map<string, FuncDef>>, order: seq<string>): seq<string>
    requires WellFormed(files, ff)
  {
    if order == [] then []
    else
      var init := order[..|order| - 1];
      var n := order[|order| - 1];
      DefinedNames(files, ff, init) + (if Contribs(files, ff, n) != [] then [n] else [])
  }

  /** The `FunctionMerger` that `merge_files` builds over all renamed files. */
  class Merger {
    const fileNames: seq<string>
    var fileFunctions: map<string, map<string, FuncDef>>
    /** `merged_functions`: its entries, and its keys in insertion order. */
    var mergedFunctions: map<string, FuncDef>
    var mergedOrder: seq<string>

    ghost predicate Valid()
      reads this
    {
      && WellFormed(fileNames, fileFunctions)
      && NoDuplicates(mergedOrder)
      && (forall n :: n in mergedOrder <==> n in mergedFunctions)
    }

    constructor (fileNames: seq<string>)
      requires forall f | f in fileNames :: Sep in f
      ensures Valid()
      ensures this.fileNames == fileNames
      ensures fileFunctions == map f | f in fileNames :: map[]
      ensures mergedFunctions == map[] && mergedOrder == []
    {
      this.fileNames := fileNames;
      fileFunctions := map f | f in fileNames :: map[];
      mergedFunctions := map[];
      mergedOrder := [];
    }

    /** `collect_functions`: every `def` met by `ast.walk`, the last one of a
        name winning, becomes the file's function table. */
    method CollectFunctions(fileName: string, tree: seq<Stmt>)
      requires Valid()
      modifies this`fileFunctions
      ensures Valid()
      ensures fileFunctions == old(fileFunctions)[fileName := DefTable(WalkModule(tree))]
    {
      var nodes := WalkModule(tree);
      var functionMap: map<string, FuncDef> := map[];
      var i := 0;
      while i < |nodes|
        invariant 0 <= i <= |nodes|
        invariant functionMap == DefTable(nodes[..i])
      {
        var node := nodes[i];
        assert nodes[..i + 1][..i] == nodes[..i];
        if node.StmtNode? && node.s.FunctionDef? {
          functionMap := functionMap[node.s.fn.name := node.s.fn];
        }
        i := i + 1;
      }
      assert nodes[..|nodes|] == nodes;
      fileFunctions := fileFunctions[fileName := functionMap];
    }

    /** `merged_functions[name] = ...`: a new key goes to the end, an existing
        key keeps its place. */
    method Put(name: string, f: FuncDef)
      requires Valid()
      modifies this`mergedFunctions, this`mergedOrder
      ensures Valid()
      ensures mergedFunctions == old(mergedFunctions)[name := f]
      ensures mergedOrder == if name in old(mergedOrder) then old(mergedOrder) else old(mergedOrder) + [name]
    {
      mergedFunctions := mergedFunctions[name := f];
      if name !in mergedOrder {
        mergedOrder := mergedOrder + [name];
      }
    }

    /** The loop over `file_names` for one function name. */
    method ComposeName(name: string, hyper: seq<Expr>, short: seq<Stmt>, onClose: seq<Stmt>)
      returns (first: Option<FuncDef>, combined: seq<Stmt>,
               hyper': seq<Expr>, short': seq<Stmt>, onClose': seq<Stmt>)
      requires Valid()
      ensures var cs := Contribs(fileNames, fileFunctions, name);
        && first == (if cs == [] then None else Some(cs[0].fn))
        && combined == Combined(name, cs)
        && hyper' == hyper + (if name == Hyperparameters then Hyper(cs) else [])
        && short' == short + (if name == ShouldShort then ShortBody(cs) else [])
        && onClose' == onClose + (if name == OnClosePosition then OnCloseBody(cs) else [])
    {
      first, combined, hyper', short', onClose' := None, [], hyper, short, onClose;
      var superCallAdded := false;
      var j := 0;
      assert Accumulated(name, [], superCallAdded, combined, hyper, hyper', short, short', onClose, onClose');
      while j < |fileNames|
        invariant 0 <= j <= |fileNames|
        invariant var cs := Contribs(fileNames[..j], fileFunctions, name);
          first == if cs == [] then None else Some(cs[0].fn)
        invariant Accumulated(name, Contribs(fileNames[..j], fileFunctions, name),
          superCallAdded, combined, hyper, hyper', short, short', onClose, onClose')
      {
        var fileName := fileNames[j];
        ghost var before := Contribs(fileNames[..j], fileFunctions, name);
        assert fileNames[..j + 1][..j] == fileNames[..j];
        if name in fileFunctions[fileName] {
          var func := fileFunctions[fileName][name];
          if first.None? {
            first := Some(func);
          }
          var c := Contribution(fileName, StrategyOf(fileName), func);
          assert Contribs(fileNames[..j + 1], fileFunctions, name) == before + [c];
          assert (before + [c])[0] == if before == [] then c else before[0];
          ghost var added0, combined0, hyper0, short0, onClose0 := superCallAdded, combined, hyper', short', onClose';
          superCallAdded, combined, hyper', short', onClose' :=
            AddModule(name, c, superCallAdded, combined, hyper', short', onClose');
          AccumulatedStep(name, before, c, added0, combined0, hyper, hyper0, short, short0, onClose, onClose0,
                          superCallAdded, combined, hyper', short', onClose');
        } else {
          assert Contribs(fileNames[..j + 1], fileFunctions, name) == before;
        }
        j := j + 1;
      }
      assert fileNames[..|fileNames|] == fileNames;
    }

    /** The state of `merge_functions` once the names `done` have been merged. */
    ghost predicate Merging(done: seq<string>, hyper: seq<Expr>, short: seq<Stmt>, onClose: seq<Stmt>)
      reads this
    {
      && Valid()
      && MergedUpTo(fileNames, fileFunctions, done, mergedFunctions, mergedOrder, hyper, short, onClose)
    }

    /** One pass of the loop over all function names: the merged definition
        of `name`, stored when some module defines it. */
    method MergeName(name: string, ghost done: seq<string>, hyper: seq<Expr>, short: seq<Stmt>, onClose: seq<Stmt>)
      returns (hyper': seq<Expr>, short': seq<Stmt>, onClose': seq<Stmt>)
      requires Merging(done, hyper, short, onClose) && name !in done
      modifies this`mergedFunctions, this`mergedOrder
      ensures Merging(done + [name], hyper', short', onClose')
    {
      DefinedNamesStep(fileNames, fileFunctions, done, name);
      DefinedNamesMembers(fileNames, fileFunctions, done);
      var first, combined;
      first, combined, hyper', short', onClose' := ComposeName(name, hyper, short, onClose);
      CollectedStep(Hyperparameters, done, name, Hyper(Contribs(fileNames, fileFunctions, Hyperparameters)), hyper, hyper');
      CollectedStep(ShouldShort, done, name, ShortBody(Contribs(fileNames, fileFunctions, ShouldShort)), short, short');
      CollectedStep(OnClosePosition, done, name, OnCloseBody(Contribs(fileNames, fileFunctions, OnClosePosition)), onClose, onClose');
      if first.Some? {
        var body := combined;
        if name == Init {
          body := [ResetOwner] + combined;
        } else if name == Hyperparameters {
          body := [Comment(HyperparametersComment), Return(List(hyper'))];
        }
        var f := first.value;
        Put(name, FuncDef(name, f.args, body, f.decorators, f.annotation));
      }
    }

    /** `merge_functions`: `order` is the iteration order of the set of all
        collected function names, which Python leaves unspecified. */
    method MergeFunctions(order: seq<string>)
      requires Valid()
      requires mergedFunctions == map[] && mergedOrder == []
      requires NoDuplicates(order)
      requires forall n :: n in order <==> n in AllNames(fileFunctions)
      modifies this`mergedFunctions, this`mergedOrder
      ensures Valid()
      ensures var defined := DefinedNames(fileNames, fileFunctions, order);
        mergedOrder == defined + (if Init in defined then [] else [Init])
      ensures forall n | n in mergedFunctions ::
        (Contribs(fileNames, fileFunctions, n) != [] || n == Init)
        && mergedFunctions[n] == FinalDef(fileNames, fileFunctions, n)
    {
      var hyper, short, onClose := MergeNames(order);
      LoopEnd(fileNames, fileFunctions, order, mergedFunctions, mergedOrder, hyper, short, onClose);
      ghost var defined := mergedOrder;
      AddProtocolDefinitions(short, onClose);
      ProtocolOrderAppends(defined, short, onClose);
    }

    /** The loop of `merge_functions` over the collected function names. */
    method MergeNames(order: seq<string>) returns (hyper: seq<Expr>, short: seq<Stmt>, onClose: seq<Stmt>)
      requires Valid()
      requires mergedFunctions == map[] && mergedOrder == []
      requires NoDuplicates(order)
      modifies this`mergedFunctions, this`mergedOrder
      ensures Merging(order, hyper, short, onClose)
    {
      hyper, short, onClose := [], [], [];
      ghost var done: seq<string> := [];
      var k := 0;
      while k < |order|
        invariant 0 <= k <= |order| && done == order[..k]
        invariant Merging(done, hyper, short, onClose)
      {
        var name := order[k];
        assert name !in done;
        assert order[..k + 1] == done + [name];
        hyper, short, onClose := MergeName(name, done, hyper, short, onClose);
        done := done + [name];
        k := k + 1;
      }
      assert done == order;
    }

    /** The end of `merge_functions`: the rebuilt `should_short` and
        `on_close_position`, and a default `__init__`. */
    method AddProtocolDefinitions(short: seq<Stmt>, onClose: seq<Stmt>)
      requires Valid()
      modifies this`mergedFunctions, this`mergedOrder
      ensures Valid()
      ensures mergedFunctions == WithProtocolDefinitions(old(mergedFunctions), short, onClose)
      ensures mergedOrder == ProtocolOrder(old(mergedOrder), short, onClose)
    {
      if short != [] {
        Put(ShouldShort, ShouldShortDef(short));
      }
      if onClose != [] {
        Put(OnClosePosition, OnCloseDef(onClose));
      }
      if Init !in mergedFunctions {
        Put(Init, InitDef);
      }
    }

    /** `generate_merged_tree`: the class holds the attributes, then the
        properties, then the protocol functions, then the rest. */
    method GenerateMergedTree(className: string) returns (tree: seq<Stmt>)
      requires Valid()
      ensures tree == [ClassDef(className, [StrategyBase],
        Select(mergedOrder, mergedFunctions, Attributes) + Select(mergedOrder, mergedFunctions, Properties)
        + Select(mergedOrder, mergedFunctions, Protocol) + Select(mergedOrder, mergedFunctions, Others))]
    {
      var attributes: seq<Stmt> := [];
      var properties: seq<Stmt> := [];
      var globalFunctions: seq<Stmt> := [];
      var otherFunctions: seq<Stmt> := [];
      var i := 0;
      while i < |mergedOrder|
        invariant 0 <= i <= |mergedOrder|
        invariant attributes == Select(mergedOrder[..i], mergedFunctions, Attributes)
        invariant properties == Select(mergedOrder[..i], mergedFunctions, Properties)
        invariant globalFunctions == Select(mergedOrder[..i], mergedFunctions, Protocol)
        invariant otherFunctions == Select(mergedOrder[..i], mergedFunctions, Others)
      {
        var funcName := mergedOrder[i];
        var funcNode := mergedFunctions[funcName];
        assert mergedOrder[..i + 1][..i] == mergedOrder[..i];
        if HasPropertyDecorator(funcNode) {
          properties := properties + [FunctionDef(funcNode)];
        } else if funcName in JesseGlobalAttributes {
          attributes := attributes + [FunctionDef(funcNode)];
        } else if funcName in JesseGlobalFunctions {
          globalFunctions := globalFunctions + [FunctionDef(funcNode)];
        } else {
          otherFunctions := otherFunctions + [FunctionDef(funcNode)];
        }
        i := i + 1;
      }
      assert mergedOrder[..|mergedOrder|] == mergedOrder;
      var classBody := attributes + properties + globalFunctions + otherFunctions;
      tree := [ClassDef(className, [StrategyBase], classBody)];
    }
  }

  /** The body of the loop over `file_names`: one module's definition of
      `name` added to the accumulators. */
  method AddModule(name: string, c: Contribution, added: bool, combined: seq<Stmt>,
                   hyper: seq<Expr>, short: seq<Stmt>, onClose: seq<Stmt>)
    returns (added': bool, combined': seq<Stmt>, hyper': seq<Expr>, short': seq<Stmt>, onClose': seq<Stmt>)
    ensures added' == (added || SuperCallOf(name, c).Some?)
    ensures combined' == combined
      + (if !added && SuperCallOf(name, c).Some? then [SuperCallOf(name, c).value] else [])
      + Block(name, c)
    ensures hyper' == hyper + (if name == Hyperparameters then ListReturns(c.fn.body) else [])
    ensures short' == short + (if name == ShouldShort then RewriteReturns(c.fn.body, c.strategy, name) else [])
    ensures onClose' == onClose + (if name == OnClosePosition then combined' else [])
  {
    added', combined', hyper', short', onClose' := added, combined, hyper, short, onClose;
    var modifiedBody: seq<Stmt> := [];
    if name == ShouldLong {
      modifiedBody := RewriteReturns(c.fn.body, c.strategy, name);
    } else if name == ShouldShort {
      modifiedBody := RewriteReturns(c.fn.body, c.strategy, name);
      short' := short' + modifiedBody;
    } else if name == Hyperparameters {
      var elts := ListReturnsOf(c.fn.body);
      hyper' := hyper' + elts;
    } else {
      modifiedBody := c.fn.body;
      added', combined' := ScanSuperCall(c.fn.body, name, added', combined');
    }
    if IsGated(name) {
      combined' := combined' + [Marker(c.file), Guard(c.strategy, modifiedBody)];
    } else if name != Hyperparameters {
      combined' := combined' + [Marker(c.file)] + modifiedBody;
    }
    if name == OnClosePosition {
      onClose' := onClose' + combined';
    }
  }

  /** The elements of the `return [<list>]` statements of a `hyperparameters` body. */
  method ListReturnsOf(body: seq<Stmt>) returns (elts: seq<Expr>)
    ensures elts == ListReturns(body)
  {
    elts := [];
    var k := 0;
    while k < |body|
      invariant 0 <= k <= |body|
      invariant elts == ListReturns(body[..k])
    {
      var node := body[k];
      assert body[..k + 1][..k] == body[..k];
      if node.Return? && node.value.List? {
        elts := elts + node.value.elts;
      }
      k := k + 1;
    }
    assert body[..|body|] == body;
  }

  /** The scan for a call of the same name: the first one met is copied into
      the merged body, unless an earlier module's already was. */
  method ScanSuperCall(body: seq<Stmt>, name: string, added: bool, combined: seq<Stmt>)
    returns (added': bool, combined': seq<Stmt>)
    ensures added' == (added || FirstSuperCall(body, name).Some?)
    ensures combined' == combined
      + (if !added && FirstSuperCall(body, name).Some? then [FirstSuperCall(body, name).value] else [])
  {
    added', combined' := added, combined;
    var k := 0;
    while k < |body|
      invariant 0 <= k <= |body|
      invariant added' == (added || FirstSuperCall(body[..k], name).Some?)
      invariant combined' == combined
        + (if !added && FirstSuperCall(body[..k], name).Some? then [FirstSuperCall(body[..k], name).value] else [])
    {
      var node := body[k];
      FirstSuperCallPrefix(body, name, k);
      if IsSuperCall(node, name) {
        if !added' {
          combined' := combined' + [node];
          added' := true;
        }
      }
      k := k + 1;
    }
    assert body[..|body|] == body;
  }

  /** A module-spanning accumulator: empty until its own name has been merged. */
  function Collected<T>(own: string, done: seq<string>, total: seq<T>): seq<T> {
    if own in done then total else []
  }

  lemma CollectedStep<T>(own: string, done: seq<string>, name: string, total: seq<T>, acc: seq<T>, acc': seq<T>)
    requires name !in done
    requires acc == Collected(own, done, total)
    requires acc' == acc + (if name == own then total else [])
    ensures acc' == Collected(own, done + [name], total)
  {
  }

  /** The tables and accumulators of `merge_functions` once the names
      `done` have been merged. */
  ghost predicate MergedUpTo(files: seq<string>, ff: map<string, map<string, FuncDef>>, done: seq<string>,
                             merged: map<string, FuncDef>, mergedOrder: seq<string>,
                             hyper: seq<Expr>, short: seq<Stmt>, onClose: seq<Stmt>)
  {
    && WellFormed(files, ff)
    && mergedOrder == DefinedNames(files, ff, done)
    && (forall n | n in merged ::
          n in done && Contribs(files, ff, n) != [] && merged[n] == MergedDef(n, Contribs(files, ff, n)))
    && hyper == Collected(Hyperparameters, done, Hyper(Contribs(files, ff, Hyperparameters)))
    && short == Collected(ShouldShort, done, ShortBody(Contribs(files, ff, ShouldShort)))
    && onClose == Collected(OnClosePosition, done, OnCloseBody(Contribs(files, ff, OnClosePosition)))
  }

  /** Once every collected name has been merged, the rebuilt `should_short`
      and `on_close_position` replace entries the loop stored, and after the
      three additions every entry is the definition `FinalDef` describes. */
  lemma LoopEnd(files: seq<string>, ff: map<string, map<string, FuncDef>>, order: seq<string>,
                merged: map<string, FuncDef>, mergedOrder: seq<string>,
                hyper: seq<Expr>, short: seq<Stmt>, onClose: seq<Stmt>)
    requires MergedUpTo(files, ff, order, merged, mergedOrder, hyper, short, onClose)
    requires forall n :: n in order <==> n in AllNames(ff)
    requires forall n :: n in mergedOrder <==> n in merged
    ensures short != [] ==> ShouldShort in mergedOrder
    ensures onClose != [] ==> OnClosePosition in mergedOrder
    ensures forall n | n in WithProtocolDefinitions(merged, short, onClose) ::
      (Contribs(files, ff, n) != [] || n == Init)
      && WithProtocolDefinitions(merged, short, onClose)[n] == FinalDef(files, ff, n)
  {
    DefinedNamesMembers(files, ff, order);
    CollectedNamesInOrder(files, ff, order);
    assert forall n :: n in merged <==> Contribs(files, ff, n) != [] by {
      forall n | Contribs(files, ff, n) != [] ensures n in merged {
        assert n in mergedOrder;
      }
    }
    assert short == ShortBody(Contribs(files, ff, ShouldShort));
    assert onClose == OnCloseBody(Contribs(files, ff, OnClosePosition));
    OnCloseNonEmpty(Contribs(files, ff, OnClosePosition));
    ShortNonEmpty(Contribs(files, ff, ShouldShort));
    ProtocolDefinitionsAreFinal(files, ff, merged, short, onClose);
  }

  /** `merged_functions` after the three additions that follow the name loop. */
  function WithProtocolDefinitions(merged: map<string, FuncDef>, short: seq<Stmt>, onClose: seq<Stmt>): map<string, FuncDef> {
    var m1 := if short != [] then merged[ShouldShort := ShouldShortDef(short)] else merged;
    var m2 := if onClose != [] then m1[OnClosePosition := OnCloseDef(onClose)] else m1;
    if Init !in m2 then m2[Init := InitDef] else m2
  }

  /** A key's position in `merged_functions` after it is assigned. */
  function PutOrder(order: seq<string>, name: string): seq<string> {
    if name in order then order else order + [name]
  }

  /** The keys of `merged_functions`, in order, after the three additions. */
  function ProtocolOrder(order: seq<string>, short: seq<Stmt>, onClose: seq<Stmt>): seq<string> {
    var o1 := if short != [] then PutOrder(order, ShouldShort) else order;
    var o2 := if onClose != [] then PutOrder(o1, OnClosePosition) else o1;
    PutOrder(o2, Init)
  }

  /** The additions append the names not yet present, in this order:
      `should_short`, `on_close_position`, `__init__`. */
  lemma ProtocolOrderAppends(order: seq<string>, short: seq<Stmt>, onClose: seq<Stmt>)
    ensures ProtocolOrder(order, short, onClose) == order
      + (if short != [] && ShouldShort !in order then [ShouldShort] else [])
      + (if onClose != [] && OnClosePosition !in order then [OnClosePosition] else [])
      + (if Init in order then [] else [Init])
  {
    assert ShouldShort != OnClosePosition && ShouldShort != Init && OnClosePosition != Init;
    var a := if short != [] && ShouldShort !in order then [ShouldShort] else [];
    var b := if onClose != [] && OnClosePosition !in order then [OnClosePosition] else [];
    var c := if Init in order then [] else [Init];
    assert Init in order + a + b <==> Init in order;
    assert OnClosePosition in order + a <==> OnClosePosition in order;
  }

  /** After the additions, every entry is the definition `FinalDef` describes. */
  lemma ProtocolDefinitionsAreFinal(files: seq<string>, ff: map<string, map<string, FuncDef>>,
                                    merged: map<string, FuncDef>, short: seq<Stmt>, onClose: seq<Stmt>)
    requires WellFormed(files, ff)
    requires forall n :: n in merged <==> Contribs(files, ff, n) != []
    requires forall n | n in merged :: merged[n] == MergedDef(n, Contribs(files, ff, n))
    requires short == ShortBody(Contribs(files, ff, ShouldShort))
    requires onClose == OnCloseBody(Contribs(files, ff, OnClosePosition))
    ensures var final := WithProtocolDefinitions(merged, short, onClose);
      forall n | n in final ::
        (Contribs(files, ff, n) != [] || n == Init) && final[n] == FinalDef(files, ff, n)
  {
    var final := WithProtocolDefinitions(merged, short, onClose);
    forall n | n in final
      ensures (Contribs(files, ff, n) != [] || n == Init) && final[n] == FinalDef(files, ff, n)
    {
      WithProtocolLookup(merged, short, onClose, n);
      FinalDefCases(files, ff, n, merged, short, onClose, final[n]);
    }
  }

  lemma WithProtocolLookup(merged: map<string, FuncDef>, short: seq<Stmt>, onClose: seq<Stmt>, n: string)
    ensures var final := WithProtocolDefinitions(merged, short, onClose);
      && (n in final <==> n in merged || n == Init || (n == ShouldShort && short != []) || (n == OnClosePosition && onClose != []))
      && (n in final ==>
            final[n] == (if n == ShouldShort && short != [] then ShouldShortDef(short)
                         else if n == OnClosePosition && onClose != [] then OnCloseDef(onClose)
                         else if n in merged then merged[n] else InitDef))
  {
    assert ShouldShort != OnClosePosition && ShouldShort != Init && OnClosePosition != Init;
  }

  /** The entry for `n` after the three additions that follow the name loop. */
  lemma FinalDefCases(files: seq<string>, ff: map<string, map<string, FuncDef>>, n: string,
                      merged: map<string, FuncDef>, short: seq<Stmt>, onClose: seq<Stmt>, v: FuncDef)
    requires WellFormed(files, ff)
    requires n in merged <==> Contribs(files, ff, n) != []
    requires n in merged ==> merged[n] == MergedDef(n, Contribs(files, ff, n))
    requires short == ShortBody(Contribs(files, ff, ShouldShort))
    requires onClose == OnCloseBody(Contribs(files, ff, OnClosePosition))
    requires n in merged || n == Init || (n == ShouldShort && short != []) || (n == OnClosePosition && onClose != [])
    requires v == if n == ShouldShort && short != [] then ShouldShortDef(short)
                  else if n == OnClosePosition && onClose != [] then OnCloseDef(onClose)
                  else if n in merged then merged[n] else InitDef
    ensures Contribs(files, ff, n) != [] || n == Init
    ensures v == FinalDef(files, ff, n)
  {
    var cs := Contribs(files, ff, n);
    assert ShouldShort != OnClosePosition && ShouldShort != Init && OnClosePosition != Init;
    if n == ShouldShort {
      ShortNonEmpty(cs);
    } else if n == OnClosePosition {
      OnCloseNonEmpty(cs);
    }
  }

  lemma DefinedNamesStep(files: seq<string>, ff: map<string, map<string, FuncDef>>, done: seq<string>, name: string)
    requires WellFormed(files, ff)
    ensures DefinedNames(files, ff, done + [name])
         == DefinedNames(files, ff, done) + (if Contribs(files, ff, name) != [] then [name] else [])
  {
    assert (done + [name])[..|done|] == done;
  }

  /** Every name some file defines is one of `order`. */
  lemma CollectedNamesInOrder(files: seq<string>, ff: map<string, map<string, FuncDef>>, order: seq<string>)
    requires WellFormed(files, ff)
    requires forall n :: n in order <==> n in AllNames(ff)
    ensures forall n | Contribs(files, ff, n) != [] :: n in order
  {
    forall n | Contribs(files, ff, n) != [] ensures n in order {
      ContribsAreDefinitions(files, ff, n);
      var c := Contribs(files, ff, n)[0];
      assert c.file in ff && n in ff[c.file];
    }
  }

  lemma {:induction false} FirstSuperCallPrefix(body: seq<Stmt>, name: string, k: nat)
    requires k < |body|
    ensures FirstSuperCall(body[..k + 1], name) ==
      if FirstSuperCall(body[..k], name).Some? then FirstSuperCall(body[..k], name)
      else if IsSuperCall(body[k], name) then Some(body[k]) else None
  {
    if k > 0 {
      if IsSuperCall(body[0], name) {
      } else {
        FirstSuperCallPrefix(body[1..], name, k - 1);
        assert body[1..][..k] == body[..k + 1][1..];
        assert body[1..][..k - 1] == body[..k][1..];
      }
    }
  }

  lemma {:induction false} DefinedNamesMembers(files: seq<string>, ff: map<string, map<string, FuncDef>>, order: seq<string>)
    requires WellFormed(files, ff)
    ensures forall n :: n in DefinedNames(files, ff, order) <==> n in order && Contribs(files, ff, n) != []
  {
    if order != [] {
      DefinedNamesMembers(files, ff, order[..|order| - 1]);
      assert order == order[..|order| - 1] + [order[|order| - 1]];
    }
  }

  lemma {:induction false} OnCloseNonEmpty(cs: seq<Contribution>)
    ensures OnCloseBody(cs) != [] <==> cs != []
  {
    if cs != [] {
      assert OnClosePosition != Hyperparameters;
      assert Block(OnClosePosition, cs[|cs| - 1])[0] == Marker(cs[|cs| - 1].file);
    }
  }

  /** The collected `should_short` body holds no `return` of its own: every
      module's returns were turned into claims. */
  lemma {:induction false} ShortBodyHasNoReturn(cs: seq<Contribution>)
    ensures forall t | t in ShortBody(cs) :: !t.Return?
  {
    if cs != [] {
      var c := cs[|cs| - 1];
      ShortBodyHasNoReturn(cs[..|cs| - 1]);
      RewriteRemovesTopLevelReturns(c.fn.body, c.strategy, ShouldShort);
    }
  }

  /** The collected `should_short` body is non-empty iff some module defines
      `should_short` with a non-empty body, as every Python `def` has. */
  lemma {:induction false} ShortNonEmpty(cs: seq<Contribution>)
    ensures ShortBody(cs) != [] <==> exists c | c in cs :: c.fn.body != []
  {
    if cs != [] {
      var init := cs[..|cs| - 1];
      var c := cs[|cs| - 1];
      ShortNonEmpty(init);
      RewriteRemovesTopLevelReturns(c.fn.body, c.strategy, ShouldShort);
      assert cs == init + [c];
      if ShortBody(cs) != [] && ShortBody(init) == [] {
        assert c.fn.body != [];
      }
    }
  }
}
