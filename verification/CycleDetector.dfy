/**
 The plan linter's cycle search: a depth-first walk over the prerequisite graph with a three-valued
 colour per node (0 unseen, 1 on the stack, 2 finished) and an explicit stack of the nodes in progress.
 The verdict is compared with an independent notion of directed cycle: a closed walk of at least one edge.
 */
module CycleDetector {
  import opened Common

  type Node = string

  /** Successor lists by node. A successor that is not a key has no successors of its own. */
  type Graph = map<Node, seq<Node>>

  function Succ(g: Graph, n: Node): seq<Node> {
    if n in g then g[n] else []
  }

  predicate Edge(g: Graph, n: Node, m: Node) {
    n in g && m in g[n]
  }

  ghost predicate IsWalk(g: Graph, p: seq<Node>) {
    forall i :: 0 <= i < |p| - 1 ==> Edge(g, p[i], p[i + 1])
  }

  ghost predicate IsClosedWalk(g: Graph, p: seq<Node>) {
    |p| >= 2 && p[0] == p[|p| - 1] && IsWalk(g, p)
  }

  ghost predicate Acyclic(g: Graph) {
    forall p :: !IsClosedWalk(g, p)
  }

  /** A closed walk that meets no node twice, except that it ends where it began. */
  ghost predicate IsSimpleCycle(g: Graph, p: seq<Node>) {
    IsClosedWalk(g, p) && forall i, j :: 0 <= i < j < |p| - 1 ==> p[i] != p[j]
  }

  /** Every node the search can meet. */
  function Universe(g: Graph): set<Node> {
    g.Keys + (set n, m | n in g && m in g[n] :: m)
  }

  /** Every successor of a finished node was finished before it. */
  ghost predicate FinishOrder(g: Graph, finished: seq<Node>) {
    forall i :: 0 <= i < |finished| ==> forall m :: m in Succ(g, finished[i]) ==> m in finished[..i]
  }

  function IndexOf(s: seq<Node>, n: Node): (i: nat)
    requires n in s
    ensures i < |s| && s[i] == n && n !in s[..i]
  {
    if s[0] == n then 0 else 1 + IndexOf(s[1..], n)
  }

  /** Along a walk through finished nodes the finishing position falls at every step. */
  lemma {:induction false} WalkDescends(g: Graph, finished: seq<Node>, p: seq<Node>, k: nat)
    requires FinishOrder(g, finished) && IsWalk(g, p) && k < |p| && p[0] in finished
    ensures p[k] in finished
    ensures IndexOf(finished, p[k]) + k <= IndexOf(finished, p[0])
  {
    if k == 0 {
    } else {
      WalkDescends(g, finished, p, k - 1);
      var i := IndexOf(finished, p[k - 1]);
      assert Edge(g, p[k - 1], p[k - 1 + 1]) && p[k] in Succ(g, finished[i]);
      assert finished[..IndexOf(finished, p[k])] <= finished;
    }
  }

  /** A finishing order that covers every node with successors certifies that there is no cycle. */
  lemma FinishedGraphIsAcyclic(g: Graph, finished: seq<Node>)
    requires FinishOrder(g, finished) && forall n :: n in g ==> n in finished
    ensures Acyclic(g)
  {
    forall p ensures !IsClosedWalk(g, p) {
      if IsClosedWalk(g, p) {
        assert Edge(g, p[0], p[0 + 1]);
        WalkDescends(g, finished, p, |p| - 1);
      }
    }
  }

  /** What holds of the search variables between any two steps. */
  ghost predicate Consistent(g: Graph, all: set<Node>, color: map<Node, int>, stack: seq<Node>, finished: seq<Node>) {
    && color.Keys <= all
    && (forall n :: n in color ==> color[n] == 1 || color[n] == 2)
    && (forall n :: n in stack <==> n in color && color[n] == 1)
    && (forall n :: n in finished <==> n in color && color[n] == 2)
    && (forall i, j :: 0 <= i < j < |stack| ==> stack[i] != stack[j])
    && IsWalk(g, stack)
    && FinishOrder(g, finished)
  }

  lemma PushKeepsConsistent(
      g: Graph, all: set<Node>, color: map<Node, int>, stack: seq<Node>, finished: seq<Node>, n: Node)
    requires Consistent(g, all, color, stack, finished) && n in all && n !in color
    requires |stack| > 0 ==> n in Succ(g, stack[|stack| - 1])
    ensures Consistent(g, all, color[n := 1], stack + [n], finished)
  {
  }

  lemma FinishExtendsOrder(g: Graph, finished: seq<Node>, n: Node)
    requires FinishOrder(g, finished) && forall m :: m in Succ(g, n) ==> m in finished
    ensures FinishOrder(g, finished + [n])
  {
    var done := finished + [n];
    forall i, m | 0 <= i < |done| && m in Succ(g, done[i]) ensures m in done[..i] {
      assert done[..i] == finished[..i];
    }
  }

  lemma PrefixIsWalk(g: Graph, p: seq<Node>, n: Node)
    requires IsWalk(g, p + [n])
    ensures IsWalk(g, p)
  {
    forall i | 0 <= i < |p| - 1 ensures p[i + 1] in Succ(g, p[i]) {
      assert (p + [n])[i + 1] in Succ(g, (p + [n])[i]);
    }
  }

  lemma FinishKeepsConsistent(
      g: Graph, all: set<Node>, color: map<Node, int>, stack: seq<Node>, finished: seq<Node>, n: Node)
    requires Consistent(g, all, color, stack + [n], finished)
    requires forall j :: 0 <= j < |Succ(g, n)| ==> Succ(g, n)[j] in color && color[Succ(g, n)[j]] == 2
    ensures Consistent(g, all, color[n := 2], stack, finished + [n])
  {
    PrefixIsWalk(g, stack, n);
    FinishExtendsOrder(g, finished, n);
    assert (stack + [n])[|stack|] == n;
    assert forall i :: 0 <= i < |stack| ==> (stack + [n])[i] == stack[i];
  }

  /** A successor that is still on the stack closes a cycle. */
  lemma StackClosesCycle(g: Graph, stack: seq<Node>, at: nat, m: Node)
    requires IsWalk(g, stack) && at < |stack| && stack[at] == m && m in Succ(g, stack[|stack| - 1])
    requires forall i, j :: 0 <= i < j < |stack| ==> stack[i] != stack[j]
    ensures IsSimpleCycle(g, stack[at..] + [m])
  {
    var p := stack[at..] + [m];
    forall i | 0 <= i < |p| - 1 ensures p[i + 1] in Succ(g, p[i]) {
      assert p[i] == stack[at + i];
      if i + 1 < |p| - 1 {
        assert stack[at + i + 1] in Succ(g, stack[at + i]);
      }
    }
  }

  lemma OnStackClosesCycle(
      g: Graph, all: set<Node>, color: map<Node, int>, stack: seq<Node>, finished: seq<Node>, m: Node)
    requires Consistent(g, all, color, stack, finished) && m in color && color[m] == 1
    requires stack != [] && m in Succ(g, stack[|stack| - 1])
    ensures m in stack && IsSimpleCycle(g, stack[IndexOf(stack, m)..] + [m])
  {
    StackClosesCycle(g, stack, IndexOf(stack, m), m);
  }

  lemma Colors(g: Graph, all: set<Node>, color: map<Node, int>, stack: seq<Node>, finished: seq<Node>, m: Node)
    requires Consistent(g, all, color, stack, finished)
    ensures color.Keys <= all && (m in color ==> color[m] == 1 || color[m] == 2)
    ensures m in stack <==> m in color && color[m] == 1
  {
  }

  /** The linter's closure variables `color` and `stack`, and the recursive `visit`. */
  class CycleSearch {
    const graph: Graph
    ghost const universe: set<Node>
    var color: map<Node, int>
    var stack: seq<Node>
    ghost var finished: seq<Node>

    ghost predicate Valid()
      reads this
    {
      Consistent(graph, universe, color, stack, finished)
    }

    constructor (graph: Graph)
      ensures this.graph == graph && universe == Universe(graph) && color == map[] && stack == [] && Valid()
    {
      this.graph := graph;
      universe := Universe(graph);
      color := map[];
      stack := [];
      finished := [];
    }

    function ColorOf(n: Node): int
      reads this
    {
      if n in color then color[n] else 0
    }

    method Visit(n: Node) returns (found: Option<seq<Node>>)
      requires Valid() && n in universe && (forall a, m :: m in Succ(graph, a) ==> m in universe)
      requires n !in color
      requires |stack| > 0 ==> n in Succ(graph, stack[|stack| - 1])
      modifies this
      ensures found.Some? ==> IsSimpleCycle(graph, found.value)
      ensures found.None? ==> Valid() && stack == old(stack) && ColorOf(n) == 2
      ensures found.None? ==> old(color.Keys) <= color.Keys
      ensures found.None? ==> forall m :: m in old(color) && old(color[m]) == 2 ==> color[m] == 2
      decreases universe - color.Keys
    {
      ghost var seen, before := color.Keys, stack;
      hide Consistent, IsSimpleCycle, IsWalk, Universe;
      PushKeepsConsistent(graph, universe, color, stack, finished, n);
      color := color[n := 1];
      stack := stack + [n];
      var next := Succ(graph, n);
      for i := 0 to |next|
        invariant Valid() && stack == before + [n] && n in color && seen <= color.Keys
        invariant forall m :: m in old(color) && old(color[m]) == 2 ==> color[m] == 2
        invariant forall j :: 0 <= j < i ==> ColorOf(next[j]) == 2
      {
        var m := next[i];
        assert m in next && stack[|before|] == n;
        Colors(graph, universe, color, stack, finished, m);
        if ColorOf(m) == 1 {
          OnStackClosesCycle(graph, universe, color, stack, finished, m);
          return Some(stack[IndexOf(stack, m)..] + [m]);
        }
        if ColorOf(m) == 0 {
          found := Visit(m);
          if found.Some? {
            return;
          }
        }
      }
      assert stack[..|stack| - 1] == before;
      FinishKeepsConsistent(graph, universe, color, before, finished, n);
      stack := stack[..|stack| - 1];
      color := color[n := 2];
      finished := finished + [n];
      found := None;
    }
  }

  /** `topo_cycle`: `order` lists the keys in the dictionary's iteration order. */
  method TopoCycle(graph: Graph, order: seq<Node>) returns (cycle: Option<seq<Node>>)
    requires forall n :: n in order <==> n in graph
    ensures cycle.None? <==> Acyclic(graph)
    ensures cycle.Some? ==> IsSimpleCycle(graph, cycle.value)
  {
    var search := new CycleSearch(graph);
    for i := 0 to |order|
      invariant fresh(search) && search.graph == graph && search.universe == Universe(graph)
      invariant search.Valid() && search.stack == []
      invariant forall j :: 0 <= j < i ==> search.ColorOf(order[j]) == 2
    {
      var node := order[i];
      assert node in order;
      if search.ColorOf(node) == 0 {
        cycle := search.Visit(node);
        if cycle.Some? {
          assert !Acyclic(graph);
          return;
        }
      } else {
        assert node !in search.stack;
      }
    }
    FinishedGraphIsAcyclic(graph, search.finished);
    cycle := None;
  }
}
