/**
 * iter.go: a node iterator that keeps a list of nodes still to visit,
 * seeded with one node. Each `Next` pops the front node, fetches its
 * children (all of them, or the named ones) in index order, and puts them
 * in front of the list (depth first) or behind it (breadth first).
 */
module Iter {
  import opened Values

  /** `IterMode` is a Go `int`; only these two values are implemented. */
  const DFSMode: int := 0
  const BFSMode: int := 1

  predicate IsMode(mode: int) {
    mode == DFSMode || mode == BFSMode
  }

  /**
   * The node queries the iterator calls. They read a tree that does not
   * change while it is being walked, so each is a function of the node (and
   * index); each can fail with the error text of the guest call.
   */
  datatype NodeAccess = NodeAccess(
    childCount: Node -> Result<u64>,
    child: (Node, u64) -> Result<Node>,
    namedChildCount: Node -> Result<u64>,
    namedChild: (Node, u64) -> Result<Node>)

  function CountOf(acc: NodeAccess, named: bool): Node -> Result<u64> {
    if named then acc.namedChildCount else acc.childCount
  }

  function ChildOf(acc: NodeAccess, named: bool): (Node, u64) -> Result<Node> {
    if named then acc.namedChild else acc.child
  }

  function CountPrefix(named: bool): string {
    if named then "getting named child count: " else "getting child count: "
  }

  function ChildPrefix(named: bool): string {
    if named then "getting named child: " else "getting child: "
  }

  /**
   * The children loop from index `i` on, with `sofar` already collected:
   * the first child that cannot be fetched ends it with that child's error.
   */
  function CollectChildren(acc: NodeAccess, named: bool, n: Node, i: u64, count: u64, sofar: seq<Node>): (r: Result<seq<Node>>)
    requires i <= count
    ensures r.Ok? ==> |r.value| == |sofar| + (count - i) && r.value[..|sofar|] == sofar
    decreases count - i
  {
    if i == count then Ok(sofar)
    else
      match ChildOf(acc, named)(n, i)
      case Err(e) => Err(ChildPrefix(named) + e)
      case Ok(c) => CollectChildren(acc, named, n, i + 1, count, sofar + [c])
  }

  /**
   * The loop succeeds iff every child query from `i` on succeeds; it then
   * appends exactly their answers in index order, and otherwise reports the
   * wrapped error of one of them.
   */
  lemma {:induction false} CollectChildrenSound(acc: NodeAccess, named: bool, n: Node, i: u64, count: u64, sofar: seq<Node>)
    requires i <= count
    ensures var r := CollectChildren(acc, named, n, i, count, sofar);
            && (r.Ok? <==> forall j: u64 | i <= j < count :: ChildOf(acc, named)(n, j).Ok?)
            && (r.Ok? ==> forall j: u64 | i <= j < count :: ChildOf(acc, named)(n, j) == Ok(r.value[|sofar| + (j - i)]))
            && (r.Err? ==> exists j: u64 | i <= j < count ::
                             ChildOf(acc, named)(n, j).Err? && r.message == ChildPrefix(named) + ChildOf(acc, named)(n, j).message)
    decreases count - i
  {
    if i < count && ChildOf(acc, named)(n, i).Ok? {
      var c := ChildOf(acc, named)(n, i).value;
      CollectChildrenSound(acc, named, n, i + 1, count, sofar + [c]);
      var r := CollectChildren(acc, named, n, i + 1, count, sofar + [c]);
      if r.Ok? {
        assert r.value[|sofar|] == c;
      }
    }
  }

  /** The children of `n` in index order, or the wrapped error of the first query that failed. */
  function FetchChildren(acc: NodeAccess, named: bool, n: Node): (r: Result<seq<Node>>)
    ensures CountOf(acc, named)(n).Err? ==> r == Err(CountPrefix(named) + CountOf(acc, named)(n).message)
    ensures r.Ok? ==> CountOf(acc, named)(n) == Ok(|r.value|)
  {
    match CountOf(acc, named)(n)
    case Err(e) => Err(CountPrefix(named) + e)
    case Ok(count) => CollectChildren(acc, named, n, 0, count, [])
  }

  /** What a successful fetch returns is what the count and child queries answer. */
  lemma FetchChildrenSound(acc: NodeAccess, named: bool, n: Node)
    requires FetchChildren(acc, named, n).Ok?
    ensures var children := FetchChildren(acc, named, n).value;
            forall j: u64 | 0 <= j < |children| :: ChildOf(acc, named)(n, j) == Ok(children[j])
  {
    CollectChildrenSound(acc, named, n, 0, CountOf(acc, named)(n).value, []);
  }

  /** Conversely, the fetch succeeds with the children that the count and child queries report. */
  lemma {:induction false} FetchChildrenExact(acc: NodeAccess, named: bool, n: Node, children: seq<Node>)
    requires |children| < 0x1_0000_0000_0000_0000
    requires CountOf(acc, named)(n) == Ok(|children|)
    requires forall j: u64 | 0 <= j < |children| :: ChildOf(acc, named)(n, j) == Ok(children[j])
    ensures FetchChildren(acc, named, n) == Ok(children)
  {
    CollectExact(acc, named, n, 0, |children|, children[..0], children);
  }

  lemma {:induction false} CollectExact(acc: NodeAccess, named: bool, n: Node, i: u64, count: u64, sofar: seq<Node>, children: seq<Node>)
    requires i <= count == |children| && sofar == children[..i]
    requires forall j: u64 | i <= j < count :: ChildOf(acc, named)(n, j) == Ok(children[j])
    ensures CollectChildren(acc, named, n, i, count, sofar) == Ok(children)
    decreases count - i
  {
    if i < count {
      assert children[..i + 1] == sofar + [children[i]];
      CollectExact(acc, named, n, i + 1, count, children[..i + 1], children);
    } else {
      assert sofar == children;
    }
  }

  /** Why `Next` returns an error: `io.EOF` on an empty list, or a failed node query. */
  datatype IterError = EndOfNodes | Failed(message: string)

  /** The iterator's fields that `Next` reads. */
  datatype State = State(named: bool, mode: int, pending: seq<Node>)

  /** What one `Next` computes: its results and the list it leaves in its copy of the iterator. */
  datatype StepResult = StepResult(node: Node, err: Option<IterError>, after: State)

  /** `Next` panics only when it gets as far as the mode switch with a mode it does not know. */
  predicate NoPanic(acc: NodeAccess, s: State) {
    s.pending != [] && FetchChildren(acc, s.named, s.pending[0]).Ok? ==> IsMode(s.mode)
  }

  /** One `Next` as a function of the iterator's fields. */
  function Step(acc: NodeAccess, s: State): (r: StepResult)
    requires NoPanic(acc, s)
    ensures s.pending == [] ==> r == StepResult(ZeroNode, Some(EndOfNodes), s)
    ensures r.err.None? <==> s.pending != [] && FetchChildren(acc, s.named, s.pending[0]).Ok?
    ensures s.pending != [] && FetchChildren(acc, s.named, s.pending[0]).Err? ==>
              r.err == Some(Failed(FetchChildren(acc, s.named, s.pending[0]).message))
    ensures r.err.Some? ==> r.node == ZeroNode
    ensures r.err.None? ==> r.node == s.pending[0]
    ensures r.after.named == s.named && r.after.mode == s.mode
  {
    if s.pending == [] then StepResult(ZeroNode, Some(EndOfNodes), s)
    else
      var n, rest := s.pending[0], s.pending[1..];
      match FetchChildren(acc, s.named, n)
      case Err(e) => StepResult(ZeroNode, Some(Failed(e)), s.(pending := rest))
      case Ok(children) =>
        if s.mode == DFSMode then StepResult(n, None, s.(pending := children + rest))
        else StepResult(n, None, s.(pending := rest + children))
  }

  /** A successful step loses no node and invents none: the list it leaves is the rest plus the children, as a multiset. */
  lemma StepKeepsNodes(acc: NodeAccess, s: State)
    requires NoPanic(acc, s) && Step(acc, s).err.None?
    ensures multiset(Step(acc, s).after.pending)
            == multiset(s.pending[1..]) + multiset(FetchChildren(acc, s.named, s.pending[0]).value)
  {
  }

  /** Depth first: the popped node's children go in front of the rest, in index order. */
  lemma StepDfs(acc: NodeAccess, s: State)
    requires s.mode == DFSMode && s.pending != []
    requires FetchChildren(acc, s.named, s.pending[0]).Ok?
    ensures Step(acc, s).after.pending == FetchChildren(acc, s.named, s.pending[0]).value + s.pending[1..]
  {
  }

  /** Breadth first: the popped node's children go behind the rest, in index order. */
  lemma StepBfs(acc: NodeAccess, s: State)
    requires s.mode == BFSMode && s.pending != []
    requires FetchChildren(acc, s.named, s.pending[0]).Ok?
    ensures Step(acc, s).after.pending == s.pending[1..] + FetchChildren(acc, s.named, s.pending[0]).value
  {
  }

  class Iterator {
    var named: bool
    var mode: int
    var nodesToVisit: seq<Node>

    /** `NewIterator`: all children, starting from `n`. */
    constructor NewIterator(n: Node, mode: int)
      ensures !named && this.mode == mode && nodesToVisit == [n]
    {
      named := false;
      this.mode := mode;
      nodesToVisit := [n];
    }

    /** `NewNamedIterator`: named children only, starting from `n`. */
    constructor NewNamedIterator(n: Node, mode: int)
      ensures named && this.mode == mode && nodesToVisit == [n]
    {
      named := true;
      this.mode := mode;
      nodesToVisit := [n];
    }

    function Fields(): State
      reads this
    {
      State(named, mode, nodesToVisit)
    }

    /**
     * `Next`. Its receiver is a value, so the list it pops and extends is a
     * copy: the method changes nothing here, and the list it built is only
     * handed back as the ghost `discarded`.
     */
    method Next(acc: NodeAccess) returns (n: Node, err: Option<IterError>, ghost discarded: seq<Node>)
      requires NoPanic(acc, Fields())
      ensures n == Step(acc, Fields()).node && err == Step(acc, Fields()).err
      ensures discarded == Step(acc, Fields()).after.pending
    {
      if |nodesToVisit| == 0 {
        return ZeroNode, Some(EndOfNodes), nodesToVisit;
      }
      var front := nodesToVisit[0];
      var pending := nodesToVisit[1..];
      var count := CountOf(acc, named)(front);
      if count.Err? {
        return ZeroNode, Some(Failed(CountPrefix(named) + count.message)), pending;
      }
      var children: seq<Node> := [];
      var i: u64 := 0;
      while i < count.value
        invariant i <= count.value
        invariant CollectChildren(acc, named, front, 0, count.value, []) == CollectChildren(acc, named, front, i, count.value, children)
        decreases count.value - i
      {
        var c := ChildOf(acc, named)(front, i);
        if c.Err? {
          return ZeroNode, Some(Failed(ChildPrefix(named) + c.message)), pending;
        }
        children := children + [c.value];
        i := i + 1;
      }
      assert FetchChildren(acc, named, front) == Ok(children);
      if mode == DFSMode {
        pending := children + pending;
      } else if mode == BFSMode {
        pending := pending + children;
      } else {
        assert false;
      }
      return front, None, pending;
    }

    /**
     * `ForEach` with at most `fuel` rounds: `fn` is the caller's callback,
     * given the round number so that it may keep state. Since `Next` never
     * advances the iterator, every round gets the same node.
     */
    method ForEach(acc: NodeAccess, fn: (nat, Node) -> Option<string>, fuel: nat) returns (err: Option<IterError>, visited: seq<Node>)
      requires NoPanic(acc, Fields())
      ensures Step(acc, Fields()).err.Some? && fuel > 0 ==> err == Step(acc, Fields()).err && visited == []
      ensures |visited| <= fuel
      ensures forall i | 0 <= i < |visited| :: nodesToVisit != [] && visited[i] == nodesToVisit[0]
      ensures forall i | 0 <= i < |visited| - 1 :: fn(i, visited[i]).None?
      ensures err.None? ==> |visited| == fuel && forall i | 0 <= i < fuel :: fn(i, visited[i]).None?
      ensures Step(acc, Fields()).err.None? && err.Some? ==>
                |visited| > 0 && fn(|visited| - 1, visited[|visited| - 1]).Some?
                && err.value == Failed(fn(|visited| - 1, visited[|visited| - 1]).value)
    {
      visited := [];
      var round := 0;
      while round < fuel
        invariant round <= fuel && |visited| == round
        invariant round > 0 ==> Step(acc, Fields()).err.None?
        invariant forall i | 0 <= i < round :: nodesToVisit != [] && visited[i] == nodesToVisit[0] && fn(i, visited[i]).None?
      {
        var n, e, _ := Next(acc);
        if e.Some? {
          return e, visited;
        }
        visited := visited + [n];
        var r := fn(round, n);
        if r.Some? {
          return Some(Failed(r.value)), visited;
        }
        round := round + 1;
      }
      err := None;
    }
  }
}
