/** `ast.walk` restricted to the nodes that can hold statements, and the
    function table `FunctionMerger.collect_functions` builds from it.

    `ast.walk` visits a tree breadth first. Expressions never contain
    statements, so leaving expression nodes out of the queue does not change
    the relative order in which statements and `except` handlers are met. */
module Walk {
  import opened Ast
  import opened Renaming

  datatype Node = StmtNode(s: Stmt) | HandlerNode(h: Handler)

  function StmtNodes(b: seq<Stmt>): (r: seq<Node>)
    ensures |r| == |b| && forall i | 0 <= i < |b| :: r[i] == StmtNode(b[i])
  {
    if b == [] then [] else [StmtNode(b[0])] + StmtNodes(b[1..])
  }

  function HandlerNodes(hs: seq<Handler>): (r: seq<Node>)
    ensures |r| == |hs| && forall i | 0 <= i < |hs| :: r[i] == HandlerNode(hs[i])
  {
    if hs == [] then [] else [HandlerNode(hs[0])] + HandlerNodes(hs[1..])
  }

  /** The statement and handler children of a node, in `ast.iter_child_nodes` order. */
  function Children(n: Node): seq<Node> {
    match n
    case HandlerNode(h) => StmtNodes(h.body)
    case StmtNode(s) =>
      match s
      case If(_, b, o) => StmtNodes(b) + StmtNodes(o)
      case For(_, _, b, o) => StmtNodes(b) + StmtNodes(o)
      case While(_, b, o) => StmtNodes(b) + StmtNodes(o)
      case With(_, b) => StmtNodes(b)
      case Try(b, hs, o, f) => StmtNodes(b) + HandlerNodes(hs) + StmtNodes(o) + StmtNodes(f)
      case FunctionDef(fn) => StmtNodes(fn.body)
      case ClassDef(_, _, b) => StmtNodes(b)
      case _ => []
  }

  // ---------------------------------------------------------------------
  // Sizes, for termination of the breadth-first walk

  function StmtSize(s: Stmt): nat {
    match s
    case If(_, b, o) => 1 + BodySize(b) + BodySize(o)
    case For(_, _, b, o) => 1 + BodySize(b) + BodySize(o)
    case While(_, b, o) => 1 + BodySize(b) + BodySize(o)
    case With(_, b) => 1 + BodySize(b)
    case Try(b, hs, o, f) => 1 + BodySize(b) + HandlersSize(hs) + BodySize(o) + BodySize(f)
    case FunctionDef(fn) => 1 + BodySize(fn.body)
    case ClassDef(_, _, b) => 1 + BodySize(b)
    case _ => 1
  }

  function BodySize(b: seq<Stmt>): nat {
    if b == [] then 0 else StmtSize(b[0]) + BodySize(b[1..])
  }

  function HandlersSize(hs: seq<Handler>): nat {
    if hs == [] then 0 else 1 + BodySize(hs[0].body) + HandlersSize(hs[1..])
  }

  function NodeSize(n: Node): nat {
    match n
    case StmtNode(s) => StmtSize(s)
    case HandlerNode(h) => 1 + BodySize(h.body)
  }

  function QueueSize(q: seq<Node>): nat {
    if q == [] then 0 else NodeSize(q[0]) + QueueSize(q[1..])
  }

  lemma {:induction false} QueueSizeAppend(a: seq<Node>, b: seq<Node>)
    ensures QueueSize(a + b) == QueueSize(a) + QueueSize(b)
  {
    if a == [] {
      assert a + b == b;
    } else {
      QueueSizeAppend(a[1..], b);
      assert (a + b)[0] == a[0];
      assert (a + b)[1..] == a[1..] + b;
    }
  }

  lemma {:induction false} QueueSizeStmts(b: seq<Stmt>)
    ensures QueueSize(StmtNodes(b)) == BodySize(b)
  {
    if b != [] {
      QueueSizeStmts(b[1..]);
      assert StmtNodes(b)[1..] == StmtNodes(b[1..]);
    }
  }

  lemma {:induction false} QueueSizeHandlers(hs: seq<Handler>)
    ensures QueueSize(HandlerNodes(hs)) == HandlersSize(hs)
  {
    if hs != [] {
      QueueSizeHandlers(hs[1..]);
      assert HandlerNodes(hs)[1..] == HandlerNodes(hs[1..]);
    }
  }

  lemma TryChildrenSize(b: seq<Stmt>, hs: seq<Handler>, o: seq<Stmt>, f: seq<Stmt>)
    ensures QueueSize(StmtNodes(b) + HandlerNodes(hs) + StmtNodes(o) + StmtNodes(f))
      == BodySize(b) + HandlersSize(hs) + BodySize(o) + BodySize(f)
  {
    QueueSizeAppend(StmtNodes(b), HandlerNodes(hs));
    QueueSizeAppend(StmtNodes(b) + HandlerNodes(hs), StmtNodes(o));
    QueueSizeAppend(StmtNodes(b) + HandlerNodes(hs) + StmtNodes(o), StmtNodes(f));
    QueueSizeStmts(b); QueueSizeHandlers(hs); QueueSizeStmts(o); QueueSizeStmts(f);
  }

  lemma ChildrenSmaller(n: Node)
    ensures QueueSize(Children(n)) < NodeSize(n)
  {
    match n
    case HandlerNode(h) =>
      QueueSizeStmts(h.body);
    case StmtNode(s) =>
      match s
      case If(_, b, o) =>
        QueueSizeAppend(StmtNodes(b), StmtNodes(o)); QueueSizeStmts(b); QueueSizeStmts(o);
      case For(_, _, b, o) =>
        QueueSizeAppend(StmtNodes(b), StmtNodes(o)); QueueSizeStmts(b); QueueSizeStmts(o);
      case While(_, b, o) =>
        QueueSizeAppend(StmtNodes(b), StmtNodes(o)); QueueSizeStmts(b); QueueSizeStmts(o);
      case With(_, b) =>
        QueueSizeStmts(b);
      case Try(b, hs, o, f) =>
        TryChildrenSize(b, hs, o, f);
      case FunctionDef(fn) =>
        QueueSizeStmts(fn.body);
      case ClassDef(_, _, b) =>
        QueueSizeStmts(b);
      case _ =>
  }

  /** Breadth-first order from a queue of nodes, as `ast.walk` yields them. */
  function BreadthFirst(q: seq<Node>): (r: seq<Node>)
    ensures q != [] ==> r != [] && r[0] == q[0]
    ensures forall n | n in q :: n in r
    decreases QueueSize(q)
  {
    if q == [] then []
    else
      ChildrenSmaller(q[0]);
      QueueSizeAppend(q[1..], Children(q[0]));
      [q[0]] + BreadthFirst(q[1..] + Children(q[0]))
  }

  /** `ast.walk(tree)` for a module whose top-level statements are `tree`. */
  function WalkModule(tree: seq<Stmt>): seq<Node> {
    BreadthFirst(StmtNodes(tree))
  }

  // ---------------------------------------------------------------------
  // The walk meets every definition

  function NodeDefName(n: Node): set<string> {
    if n.StmtNode? && n.s.FunctionDef? then {n.s.fn.name} else {}
  }

  function NodeDefs(n: Node): set<string> {
    match n
    case StmtNode(s) => StmtDefs(s)
    case HandlerNode(h) => BodyDefs(h.body)
  }

  function QueueDefs(q: seq<Node>): set<string> {
    if q == [] then {} else NodeDefs(q[0]) + QueueDefs(q[1..])
  }

  /** Names of the `def` nodes in a sequence of visited nodes. */
  function WalkedDefNames(ns: seq<Node>): set<string> {
    if ns == [] then {} else NodeDefName(ns[0]) + WalkedDefNames(ns[1..])
  }

  lemma {:induction false} QueueDefsAppend(a: seq<Node>, b: seq<Node>)
    ensures QueueDefs(a + b) == QueueDefs(a) + QueueDefs(b)
  {
    if a == [] {
      assert a + b == b;
    } else {
      QueueDefsAppend(a[1..], b);
      assert (a + b)[0] == a[0];
      assert (a + b)[1..] == a[1..] + b;
    }
  }

  lemma {:induction false} QueueDefsStmts(b: seq<Stmt>)
    ensures QueueDefs(StmtNodes(b)) == BodyDefs(b)
  {
    if b != [] {
      QueueDefsStmts(b[1..]);
      assert StmtNodes(b)[1..] == StmtNodes(b[1..]);
    }
  }

  lemma {:induction false} QueueDefsHandlers(hs: seq<Handler>)
    ensures QueueDefs(HandlerNodes(hs)) == HandlersDefs(hs)
  {
    if hs != [] {
      QueueDefsHandlers(hs[1..]);
      assert HandlerNodes(hs)[1..] == HandlerNodes(hs[1..]);
      QueueDefsStmts(hs[0].body);
    }
  }

  /** A node's definitions are its own name, if it is a `def`, and those of its children. */
  lemma TryChildrenDefs(b: seq<Stmt>, hs: seq<Handler>, o: seq<Stmt>, f: seq<Stmt>)
    ensures QueueDefs(StmtNodes(b) + HandlerNodes(hs) + StmtNodes(o) + StmtNodes(f))
      == BodyDefs(b) + HandlersDefs(hs) + BodyDefs(o) + BodyDefs(f)
  {
    QueueDefsAppend(StmtNodes(b), HandlerNodes(hs));
    QueueDefsAppend(StmtNodes(b) + HandlerNodes(hs), StmtNodes(o));
    QueueDefsAppend(StmtNodes(b) + HandlerNodes(hs) + StmtNodes(o), StmtNodes(f));
    QueueDefsStmts(b); QueueDefsHandlers(hs); QueueDefsStmts(o); QueueDefsStmts(f);
  }

  lemma NodeDefsSplit(n: Node)
    ensures NodeDefs(n) == NodeDefName(n) + QueueDefs(Children(n))
  {
    match n
    case HandlerNode(h) =>
      QueueDefsStmts(h.body);
    case StmtNode(s) =>
      match s
      case If(_, b, o) =>
        QueueDefsAppend(StmtNodes(b), StmtNodes(o)); QueueDefsStmts(b); QueueDefsStmts(o);
      case For(_, _, b, o) =>
        QueueDefsAppend(StmtNodes(b), StmtNodes(o)); QueueDefsStmts(b); QueueDefsStmts(o);
      case While(_, b, o) =>
        QueueDefsAppend(StmtNodes(b), StmtNodes(o)); QueueDefsStmts(b); QueueDefsStmts(o);
      case With(_, b) =>
        QueueDefsStmts(b);
      case Try(b, hs, o, f) =>
        TryChildrenDefs(b, hs, o, f);
      case FunctionDef(fn) =>
        QueueDefsStmts(fn.body);
      case ClassDef(_, _, b) =>
        QueueDefsStmts(b);
      case _ =>
  }

  lemma {:induction false} BreadthFirstDefs(q: seq<Node>)
    ensures WalkedDefNames(BreadthFirst(q)) == QueueDefs(q)
    decreases QueueSize(q)
  {
    if q != [] {
      ChildrenSmaller(q[0]);
      QueueSizeAppend(q[1..], Children(q[0]));
      var next := q[1..] + Children(q[0]);
      BreadthFirstDefs(next);
      assert BreadthFirst(q)[1..] == BreadthFirst(next);
      QueueDefsAppend(q[1..], Children(q[0]));
      NodeDefsSplit(q[0]);
    }
  }

  /** `ast.walk` meets a `def` of every name defined anywhere in the tree,
      nested definitions included, and of no other name. */
  lemma WalkMeetsEveryDef(tree: seq<Stmt>)
    ensures WalkedDefNames(WalkModule(tree)) == BodyDefs(tree)
  {
    BreadthFirstDefs(StmtNodes(tree));
    QueueDefsStmts(tree);
  }

  // ---------------------------------------------------------------------
  // The function table: the last definition met wins

  /** The `function_map` `collect_functions` has built after visiting `ns`. */
  function DefTable(ns: seq<Node>): (r: map<string, FuncDef>)
    ensures forall n | n in r :: r[n].name == n
  {
    if ns == [] then map[]
    else
      var last := ns[|ns| - 1];
      var table := DefTable(ns[..|ns| - 1]);
      if last.StmtNode? && last.s.FunctionDef? then table[last.s.fn.name := last.s.fn] else table
  }

  predicate IsDefAt(ns: seq<Node>, i: int, name: string)
    requires 0 <= i < |ns|
  {
    ns[i].StmtNode? && ns[i].s.FunctionDef? && ns[i].s.fn.name == name
  }

  /** A name has an entry exactly when some visited `def` has it, and the entry
      is the last such `def`. */
  lemma {:induction false} DefTableLastWins(ns: seq<Node>, name: string)
    ensures name in DefTable(ns) <==> exists i | 0 <= i < |ns| :: IsDefAt(ns, i, name)
    ensures name in DefTable(ns) ==>
      exists i | 0 <= i < |ns| :: IsDefAt(ns, i, name) && ns[i].s.fn == DefTable(ns)[name]
        && forall j | i < j < |ns| :: !IsDefAt(ns, j, name)
  {
    if ns != [] {
      var init := ns[..|ns| - 1];
      var k := |ns| - 1;
      DefTableLastWins(init, name);
      forall i | 0 <= i < |init| ensures IsDefAt(init, i, name) == IsDefAt(ns, i, name) {
        assert init[i] == ns[i];
      }
      if IsDefAt(ns, k, name) {
        assert ns[k].s.fn == DefTable(ns)[name];
      } else if name in DefTable(ns) {
        var i :| 0 <= i < |init| && IsDefAt(init, i, name) && init[i].s.fn == DefTable(init)[name]
          && forall j | i < j < |init| :: !IsDefAt(init, j, name);
        assert IsDefAt(ns, i, name) && ns[i].s.fn == DefTable(ns)[name];
        forall j | i < j < |ns| ensures !IsDefAt(ns, j, name) {
          if j < k {
            assert !IsDefAt(init, j, name);
          }
        }
      }
    }
  }

  /** `collect_functions` records a definition for every name defined anywhere
      in the module, and nothing else. */
  lemma CollectedNames(tree: seq<Stmt>)
    ensures DefTable(WalkModule(tree)).Keys == BodyDefs(tree)
  {
    var ns := WalkModule(tree);
    WalkMeetsEveryDef(tree);
    forall name ensures name in DefTable(ns) <==> name in WalkedDefNames(ns) {
      DefTableLastWins(ns, name);
      WalkedDefNamesAt(ns, name);
    }
  }

  lemma {:induction false} WalkedDefNamesAt(ns: seq<Node>, name: string)
    ensures name in WalkedDefNames(ns) <==> exists i | 0 <= i < |ns| :: IsDefAt(ns, i, name)
  {
    if ns != [] {
      WalkedDefNamesAt(ns[1..], name);
      forall i | 0 <= i < |ns[1..]| ensures IsDefAt(ns[1..], i, name) == IsDefAt(ns, i + 1, name) {
        assert ns[1..][i] == ns[i + 1];
      }
      if exists i | 0 <= i < |ns| :: IsDefAt(ns, i, name) {
        var i :| 0 <= i < |ns| && IsDefAt(ns, i, name);
        if i > 0 {
          assert IsDefAt(ns[1..], i - 1, name);
        }
      }
      if name in WalkedDefNames(ns[1..]) {
        var i :| 0 <= i < |ns[1..]| && IsDefAt(ns[1..], i, name);
        assert IsDefAt(ns, i + 1, name);
      }
      if name in NodeDefName(ns[0]) {
        assert IsDefAt(ns, 0, name);
      }
    }
  }
}
