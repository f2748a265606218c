/**
 * The orders the iterator is meant to produce. `Run` threads `Step` the way
 * an iterator whose `Next` kept its update would, and the lemmas here show
 * that, on a tree the node queries describe, depth-first mode yields the
 * pre-order of the tree and breadth-first mode its level order, each node
 * exactly once, followed by `io.EOF`.
 */
module Traversal {
  import opened Values
  import opened Iter

  /** A syntax tree as the node queries see it: a node and its children in index order. */
  datatype Tree = Tree(node: Node, children: seq<Tree>)

  function Nodes(f: seq<Tree>): (ns: seq<Node>)
    ensures |ns| == |f| && forall i | 0 <= i < |f| :: ns[i] == f[i].node
  {
    seq(|f|, i requires 0 <= i < |f| => f[i].node)
  }

  lemma NodesAppend(a: seq<Tree>, b: seq<Tree>)
    ensures Nodes(a + b) == Nodes(a) + Nodes(b)
  {
  }

  /** Number of nodes in a forest. */
  function ForestSize(f: seq<Tree>): nat
    decreases f
  {
    if f == [] then 0 else 1 + ForestSize(f[0].children) + ForestSize(f[1..])
  }

  /** All children of the trees of `f`, tree by tree: the next level down. */
  function Kids(f: seq<Tree>): seq<Tree>
    decreases f
  {
    if f == [] then [] else f[0].children + Kids(f[1..])
  }

  /** Pre-order: each node, then its subtrees left to right. */
  function Preorder(f: seq<Tree>): seq<Node>
    decreases f
  {
    if f == [] then [] else [f[0].node] + Preorder(f[0].children) + Preorder(f[1..])
  }

  /** Level order: the roots, then the level below them, and so on. */
  function LevelOrder(f: seq<Tree>): seq<Node>
    decreases ForestSize(f)
  {
    if f == [] then []
    else
      ForestSizeKids(f);
      Nodes(f) + LevelOrder(Kids(f))
  }

  /** Visiting a queue of trees one at a time, each node's children joining the back of the queue. */
  function BfsQueue(q: seq<Tree>): seq<Node>
    decreases ForestSize(q)
  {
    if q == [] then []
    else
      ForestSizeAppend(q[1..], q[0].children);
      [q[0].node] + BfsQueue(q[1..] + q[0].children)
  }

  lemma {:induction false} ForestSizeAppend(a: seq<Tree>, b: seq<Tree>)
    ensures ForestSize(a + b) == ForestSize(a) + ForestSize(b)
    decreases a
  {
    if a != [] {
      assert (a + b)[0] == a[0] && (a + b)[1..] == a[1..] + b;
      ForestSizeAppend(a[1..], b);
    } else {
      assert a + b == b;
    }
  }

  lemma {:induction false} ForestSizeKids(f: seq<Tree>)
    ensures ForestSize(f) == |f| + ForestSize(Kids(f))
    decreases f
  {
    if f != [] {
      ForestSizeKids(f[1..]);
      ForestSizeAppend(f[0].children, Kids(f[1..]));
    }
  }

  lemma {:induction false} PreorderAppend(a: seq<Tree>, b: seq<Tree>)
    ensures Preorder(a + b) == Preorder(a) + Preorder(b)
    decreases a
  {
    if a != [] {
      assert (a + b)[0] == a[0] && (a + b)[1..] == a[1..] + b;
      PreorderAppend(a[1..], b);
    } else {
      assert a + b == b;
    }
  }

  /** Pre-order lists every node of the forest once: its length is the forest's size. */
  lemma {:induction false} PreorderSize(f: seq<Tree>)
    ensures |Preorder(f)| == ForestSize(f)
    decreases f
  {
    if f != [] {
      PreorderSize(f[0].children);
      PreorderSize(f[1..]);
    }
  }

  /** Taking a front part `p` off the queue visits its roots, then puts all their children behind the rest. */
  lemma {:induction false} BfsSplit(p: seq<Tree>, r: seq<Tree>)
    ensures BfsQueue(p + r) == Nodes(p) + BfsQueue(r + Kids(p))
    decreases |p|
  {
    if p == [] {
      assert p + r == r && r + Kids(p) == r;
    } else {
      var q := p + r;
      assert q[0] == p[0] && q[1..] == p[1..] + r;
      assert q[1..] + q[0].children == p[1..] + (r + p[0].children);
      BfsSplit(p[1..], r + p[0].children);
      assert r + p[0].children + Kids(p[1..]) == r + Kids(p);
      assert Nodes(p) == [p[0].node] + Nodes(p[1..]);
    }
  }

  /** The queue visits the forest in level order. */
  lemma {:induction false} BfsIsLevelOrder(q: seq<Tree>)
    ensures BfsQueue(q) == LevelOrder(q)
    decreases ForestSize(q)
  {
    if q != [] {
      BfsSplit(q, []);
      assert q + [] == q && [] + Kids(q) == Kids(q);
      ForestSizeKids(q);
      BfsIsLevelOrder(Kids(q));
    }
  }

  /** The queue visits the same nodes as pre-order, each as often: the two orders are permutations of each other. */
  lemma {:induction false} BfsPermutesPreorder(q: seq<Tree>)
    ensures multiset(BfsQueue(q)) == multiset(Preorder(q))
    decreases ForestSize(q)
  {
    if q != [] {
      ForestSizeAppend(q[1..], q[0].children);
      BfsPermutesPreorder(q[1..] + q[0].children);
      PreorderAppend(q[1..], q[0].children);
    }
  }

  /** The count and child queries answer for `t.node` with `t`'s children. */
  predicate Links(acc: NodeAccess, named: bool, t: Tree) {
    && |t.children| < 0x1_0000_0000_0000_0000
    && CountOf(acc, named)(t.node) == Ok(|t.children|)
    && forall j: u64 | 0 <= j < |t.children| :: ChildOf(acc, named)(t.node, j) == Ok(t.children[j].node)
  }

  /** The node queries describe every tree of the forest, at every depth. */
  predicate Describes(acc: NodeAccess, named: bool, f: seq<Tree>)
    decreases f
  {
    f == [] || (Links(acc, named, f[0]) && Describes(acc, named, f[0].children) && Describes(acc, named, f[1..]))
  }

  lemma {:induction false} DescribesAppend(acc: NodeAccess, named: bool, a: seq<Tree>, b: seq<Tree>)
    requires Describes(acc, named, a) && Describes(acc, named, b)
    ensures Describes(acc, named, a + b)
    decreases a
  {
    if a != [] {
      assert (a + b)[0] == a[0] && (a + b)[1..] == a[1..] + b;
      DescribesAppend(acc, named, a[1..], b);
    } else {
      assert a + b == b;
    }
  }

  /** What a run of `Next` calls returns: the nodes in order, then the error that stopped it (None when the fuel ran out). */
  datatype Outcome = Outcome(visited: seq<Node>, err: Option<IterError>)

  /** `Next` called up to `fuel` times on an iterator that keeps each call's update, stopping at the first error. */
  function Run(acc: NodeAccess, s: State, fuel: nat): (o: Outcome)
    requires IsMode(s.mode)
    ensures |o.visited| <= fuel
    ensures o.err.None? ==> |o.visited| == fuel
    decreases fuel
  {
    if fuel == 0 then Outcome([], None)
    else
      var r := Step(acc, s);
      if r.err.Some? then Outcome([], r.err)
      else
        var o := Run(acc, r.after, fuel - 1);
        Outcome([r.node] + o.visited, o.err)
  }

  /** A run whose first step succeeds is that step's node followed by the run from the state it leaves. */
  lemma RunUnfold(acc: NodeAccess, s: State, fuel: nat)
    requires IsMode(s.mode) && fuel > 0 && Step(acc, s).err.None?
    ensures var r := Step(acc, s);
            Run(acc, s, fuel) == Outcome([r.node] + Run(acc, r.after, fuel - 1).visited, Run(acc, r.after, fuel - 1).err)
  {
  }

  /** The queries answer for the front tree of a described forest with that tree's children. */
  lemma FrontChildren(acc: NodeAccess, named: bool, f: seq<Tree>)
    requires f != [] && Describes(acc, named, f)
    ensures FetchChildren(acc, named, f[0].node) == Ok(Nodes(f[0].children))
  {
    var t, kids := f[0], Nodes(f[0].children);
    assert Links(acc, named, t);
    assert forall j: u64 | 0 <= j < |kids| :: ChildOf(acc, named)(t.node, j) == Ok(kids[j]);
    FetchChildrenExact(acc, named, t.node, kids);
  }

  /** The step on the front tree of a described forest: it returns that tree's node and fetches its children. */
  lemma StepFront(acc: NodeAccess, named: bool, mode: int, f: seq<Tree>)
    requires IsMode(mode) && f != [] && Describes(acc, named, f)
    ensures var r := Step(acc, State(named, mode, Nodes(f)));
            && r.err.None? && r.node == f[0].node
            && r.after == State(named, mode,
                                if mode == DFSMode then Nodes(f[0].children + f[1..]) else Nodes(f[1..] + f[0].children))
  {
    var s := State(named, mode, Nodes(f));
    FrontChildren(acc, named, f);
    assert s.pending[0] == f[0].node && s.pending[1..] == Nodes(f[1..]);
    if mode == DFSMode {
      StepDfs(acc, s);
      NodesAppend(f[0].children, f[1..]);
    } else {
      StepBfs(acc, s);
      NodesAppend(f[1..], f[0].children);
    }
  }

  /** Depth first, from the nodes of a described forest, the iterator returns the forest's pre-order and then EOF. */
  lemma {:induction false} RunDfs(acc: NodeAccess, named: bool, f: seq<Tree>, fuel: nat)
    requires Describes(acc, named, f) && fuel > ForestSize(f)
    ensures Run(acc, State(named, DFSMode, Nodes(f)), fuel) == Outcome(Preorder(f), Some(EndOfNodes))
    decreases fuel
  {
    if f != [] {
      StepFront(acc, named, DFSMode, f);
      RunUnfold(acc, State(named, DFSMode, Nodes(f)), fuel);
      var next := f[0].children + f[1..];
      DescribesAppend(acc, named, f[0].children, f[1..]);
      ForestSizeAppend(f[0].children, f[1..]);
      RunDfs(acc, named, next, fuel - 1);
      PreorderAppend(f[0].children, f[1..]);
    }
  }

  /** Breadth first, from the nodes of a described queue of trees, the iterator returns `BfsQueue` and then EOF. */
  lemma {:induction false} RunBfs(acc: NodeAccess, named: bool, q: seq<Tree>, fuel: nat)
    requires Describes(acc, named, q) && fuel > ForestSize(q)
    ensures Run(acc, State(named, BFSMode, Nodes(q)), fuel) == Outcome(BfsQueue(q), Some(EndOfNodes))
    decreases fuel
  {
    if q != [] {
      StepFront(acc, named, BFSMode, q);
      RunUnfold(acc, State(named, BFSMode, Nodes(q)), fuel);
      var next := q[1..] + q[0].children;
      DescribesAppend(acc, named, q[1..], q[0].children);
      ForestSizeAppend(q[1..], q[0].children);
      RunBfs(acc, named, next, fuel - 1);
    }
  }

  /** Repeated steps that keep their update, seeded with the root of a described tree, visit it in pre-order (DFS) or level order (BFS), then report EOF. */
  lemma TraversalOrder(acc: NodeAccess, named: bool, mode: int, t: Tree, fuel: nat)
    requires IsMode(mode) && Describes(acc, named, [t]) && fuel > ForestSize([t])
    ensures Run(acc, State(named, mode, [t.node]), fuel)
            == Outcome(if mode == DFSMode then Preorder([t]) else LevelOrder([t]), Some(EndOfNodes))
  {
    assert Nodes([t]) == [t.node];
    if mode == DFSMode {
      RunDfs(acc, named, [t], fuel);
    } else {
      RunBfs(acc, named, [t], fuel);
      BfsIsLevelOrder([t]);
    }
  }

  /** The root `1` with children `2` (which has child `3`) and `4`: DFS gives 1, 2, 3, 4 and BFS gives 1, 2, 4, 3. */
  lemma OrdersDiffer()
    ensures var t := Tree(Node(1), [Tree(Node(2), [Tree(Node(3), [])]), Tree(Node(4), [])]);
            Preorder([t]) == [Node(1), Node(2), Node(3), Node(4)]
            && LevelOrder([t]) == [Node(1), Node(2), Node(4), Node(3)]
  {
    var c := Tree(Node(3), []);
    var a := Tree(Node(2), [c]);
    var b := Tree(Node(4), []);
    var t := Tree(Node(1), [a, b]);
    assert [a, b][1..] == [b] && [c][1..] == [] && [t][1..] == [];
    assert Kids([t]) == [a, b];
    assert [b][1..] == [];
    assert Kids([a, b]) == [c] by {
      assert Kids([b]) == [];
    }
    assert Kids([c]) == [];
    assert LevelOrder([c]) == [Node(3)];
    assert LevelOrder([a, b]) == [Node(2), Node(4), Node(3)];
  }
}
