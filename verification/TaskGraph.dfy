/** Sub-tasks: creation under the graph limits, the edge table with its trigger, and the ancestor walk. */
module TaskGraph {
  import opened Common

  type Id = string

  datatype Task = Task(root: Option<Id>, depth: nat, terminal: bool)
  datatype Edge = Edge(parent: Id, root: Id, depth: nat)

  /** The task streams, folded, and the append-only edge table keyed by child. */
  datatype Graph = Graph(tasks: map<Id, Task>, edges: map<Id, Edge>)

  datatype Limits = Limits(depth: nat, fanOut: nat, concurrent: nat)

  datatype Error =
    | TASK_NOT_FOUND | TASK_TERMINAL | TASK_GRAPH_CYCLE | TASK_DEPTH_EXCEEDED | TASK_FANOUT_EXCEEDED
    | TASK_CONCURRENCY_EXCEEDED | SEQUENCE_CONFLICT | EVENT_REFUSED | TASK_EDGE_INVALID

  const MAX_ANCESTORS := 128
  const MAX_HOPS := 64

  // ---------------------------------------------------------------- what a sound graph is

  ghost predicate EdgeSound(g: Graph, c: Id)
    requires c in g.edges
  {
    var e := g.edges[c];
    && c in g.tasks && e.parent in g.tasks
    && g.tasks[c].depth == g.tasks[e.parent].depth + 1 == e.depth
    && g.tasks[c].root == g.tasks[e.parent].root == Some(e.root)
  }

  ghost predicate TaskSound(g: Graph, t: Id)
    requires t in g.tasks
  {
    g.tasks[t].depth <= MAX_HOPS && g.tasks[t].root.Some?
    && (t !in g.edges ==> g.tasks[t].depth == 0 && g.tasks[t].root == Some(t))
  }

  /** Every edge leads one level up within one tree; what has no edge is a root. */
  ghost predicate Forest(g: Graph) {
    && (forall c :: c in g.edges ==> EdgeSound(g, c))
    && forall t :: t in g.tasks ==> TaskSound(g, t)
  }

  /** The strict ancestors, nearest first. */
  ghost function Ancestors(g: Graph, t: Id): seq<Id>
    requires Forest(g) && t in g.tasks
    decreases g.tasks[t].depth
  {
    if t in g.edges then [g.edges[t].parent] + Ancestors(g, g.edges[t].parent) else []
  }

  /** As many ancestors as the depth says, each one level higher, the last one the root. */
  lemma {:induction false} AncestorsShape(g: Graph, t: Id)
    requires Forest(g) && t in g.tasks
    ensures var up := Ancestors(g, t);
      && |up| == g.tasks[t].depth
      && (forall i :: 0 <= i < |up| ==> up[i] in g.tasks && g.tasks[up[i]].depth == g.tasks[t].depth - 1 - i)
      && g.tasks[t].root == Some(if up == [] then t else up[|up| - 1])
    decreases g.tasks[t].depth
  {
    if t !in g.edges {
    } else {
      AncestorsShape(g, g.edges[t].parent);
    }
  }

  /** So no ancestor repeats and no task is its own ancestor. */
  lemma NoCycle(g: Graph, t: Id)
    requires Forest(g) && t in g.tasks
    ensures t !in Ancestors(g, t)
    ensures forall i, j :: 0 <= i < j < |Ancestors(g, t)| ==> Ancestors(g, t)[i] != Ancestors(g, t)[j]
  {
    AncestorsShape(g, t);
  }

  // ---------------------------------------------------------------- the walks

  /** Each task of the list is the parent of the one before it, starting from `t`. */
  ghost predicate Climbs(edges: map<Id, Edge>, t: Id, up: seq<Id>) {
    up == [] ||
    (var n := |up| - 1;
     var c := if n == 0 then t else up[n - 1];
     c in edges && edges[c].parent == up[n] && Climbs(edges, t, up[..n]))
  }

  ghost predicate Distinct(up: seq<Id>) {
    forall i, j :: 0 <= i < j < |up| ==> up[i] != up[j]
  }

  lemma AncestorsStep(g: Graph, t: Id)
    requires Forest(g) && t in g.tasks
    ensures if t in g.edges then
        g.edges[t].parent in g.tasks && Ancestors(g, t) == [g.edges[t].parent] + Ancestors(g, g.edges[t].parent)
      else Ancestors(g, t) == []
    ensures |Ancestors(g, t)| <= MAX_HOPS
  {
    AncestorsShape(g, t);
  }

  lemma NoRepeat(g: Graph, t: Id, up: seq<Id>, p: Id, rest: seq<Id>)
    requires Forest(g) && t in g.tasks && up + ([p] + rest) == Ancestors(g, t)
    ensures p !in up
  {
    NoCycle(g, t);
    assert Ancestors(g, t)[|up|] == p;
    assert forall i :: 0 <= i < |up| ==> Ancestors(g, t)[i] == up[i];
  }

  lemma Assoc(up: seq<Id>, p: Id, rest: seq<Id>)
    ensures up + ([p] + rest) == (up + [p]) + rest
    ensures up + [] == up
  {
  }

  /** The climb goes no further: the last task has no parent, or one that was met before. */
  ghost predicate EndsThere(edges: map<Id, Edge>, t: Id, up: seq<Id>) {
    var last := if up == [] then t else up[|up| - 1];
    last in edges ==> edges[last].parent in up
  }

  /** `ancestors_of`: terminates on any edge table; on a forest it returns exactly the strict ancestors. */
  method AncestorsOf(edges: map<Id, Edge>, t: Id, ghost g: Graph) returns (up: seq<Id>)
    ensures |up| <= 128 && Climbs(edges, t, up) && Distinct(up)
    ensures |up| < 128 ==> EndsThere(edges, t, up)
    ensures g.edges == edges && Forest(g) && t in g.tasks ==> up == Ancestors(g, t)
  {
    up := [];
    assert Climbs(edges, t, []) && Distinct([]);
    hide *;
    var cur := Some(t);
    ghost var sound := g.edges == edges && Forest(g) && t in g.tasks;
    if sound {
      AncestorsStep(g, t);
    }
    while cur.Some? && |up| < MAX_ANCESTORS
      invariant |up| <= MAX_ANCESTORS && Climbs(edges, t, up)
      invariant cur.Some? && cur.value == if up == [] then t else up[|up| - 1]
      invariant Distinct(up)
      invariant sound ==> cur.value in g.tasks && up + Ancestors(g, cur.value) == Ancestors(g, t)
      decreases MAX_ANCESTORS - |up|
    {
      var was := cur.value;
      if sound {
        AncestorsStep(g, was);
        Assoc(up, was, []);
      }
      cur := if was in edges then Some(edges[was].parent) else None;
      if cur.None? {
        ClimbEnds(edges, t, up, was);
        break;
      }
      if sound {
        NoRepeat(g, t, up, cur.value, Ancestors(g, cur.value));
        Assoc(up, cur.value, Ancestors(g, cur.value));
      }
      if cur.value in up {
        ClimbEnds(edges, t, up, was);
        break;
      }
      ClimbsOn(edges, t, up, cur.value);
      up := up + [cur.value];
    }
  }

  lemma ClimbEnds(edges: map<Id, Edge>, t: Id, up: seq<Id>, last: Id)
    requires last == if up == [] then t else up[|up| - 1]
    ensures EndsThere(edges, t, up) <==> last !in edges || edges[last].parent in up
  {
  }

  lemma ClimbsOn(edges: map<Id, Edge>, t: Id, up: seq<Id>, p: Id)
    requires Climbs(edges, t, up) && Distinct(up) && p !in up
    requires var c := if up == [] then t else up[|up| - 1];
      c in edges && edges[c].parent == p
    ensures Climbs(edges, t, up + [p]) && Distinct(up + [p])
  {
    assert (up + [p])[..|up|] == up;
  }

  datatype Verdict = Accepted | Cyclic | TooDeep

  /** The task `k` levels above `t`, if there is one. */
  ghost function Above(edges: map<Id, Edge>, t: Id, k: nat): Option<Id> {
    if k == 0 then Some(t)
    else
      var below := Above(edges, t, k - 1);
      if below.Some? && below.value in edges then Some(edges[below.value].parent) else None
  }

  /** `child` is `parent` or one of the 64 tasks above it. */
  ghost predicate WithinHops(edges: map<Id, Edge>, parent: Id, child: Id) {
    exists k: nat :: k <= MAX_HOPS && Above(edges, parent, k) == Some(child)
  }

  /**
   The insert trigger: climbs from the new parent, looking for the child, for at most 64 hops. On any edge table it
   reports a cycle exactly when the child is among what it climbs, and a chain too deep exactly when the climb does
   not end.
   */
  method EdgeTrigger(edges: map<Id, Edge>, child: Id, parent: Id) returns (v: Verdict)
    ensures v.Cyclic? <==> WithinHops(edges, parent, child)
    ensures v.TooDeep? <==> !WithinHops(edges, parent, child) && Above(edges, parent, MAX_HOPS).Some?
  {
    var cur, hops := Some(parent), 0;
    while cur.Some?
      invariant 0 <= hops <= MAX_HOPS && cur == Above(edges, parent, hops)
      invariant forall k: nat :: k < hops ==> Above(edges, parent, k) != Some(child)
      decreases MAX_HOPS - hops, cur.Some?
    {
      if cur.value == child {
        return Cyclic;
      }
      cur := if cur.value in edges then Some(edges[cur.value].parent) else None;
      hops := hops + 1;
      if hops > MAX_HOPS {
        return TooDeep;
      }
    }
    NothingAbove(edges, parent, hops, MAX_HOPS);
    v := Accepted;
  }

  lemma {:induction false} NothingAbove(edges: map<Id, Edge>, t: Id, k: nat, m: nat)
    requires k <= m && Above(edges, t, k).None?
    ensures forall i: nat :: k <= i <= m ==> Above(edges, t, i).None?
    decreases m
  {
    if k == m {
    } else {
      NothingAbove(edges, t, k, m - 1);
    }
  }

  lemma {:induction false} AboveIsAncestor(g: Graph, t: Id, k: nat)
    requires Forest(g) && t in g.tasks
    ensures Above(g.edges, t, k) == if k == 0 then Some(t)
      else if k <= |Ancestors(g, t)| then Some(Ancestors(g, t)[k - 1]) else None
    decreases k
  {
    if k == 0 {
    } else {
      AboveIsAncestor(g, t, k - 1);
      if k == 1 {
        AncestorsStep(g, t);
      } else if k - 1 <= |Ancestors(g, t)| {
        AncestorsChain(g, t, k - 2);
      }
    }
  }

  /** Each ancestor's parent is the next ancestor. */
  lemma {:induction false} AncestorsChain(g: Graph, t: Id, i: nat)
    requires Forest(g) && t in g.tasks && i < |Ancestors(g, t)|
    ensures var up := Ancestors(g, t);
      if i + 1 < |up| then up[i] in g.edges && g.edges[up[i]].parent == up[i + 1] else up[i] !in g.edges
    decreases i
  {
    AncestorsStep(g, t);
    AncestorsStep(g, g.edges[t].parent);
    if i == 0 {
    } else {
      AncestorsChain(g, g.edges[t].parent, i - 1);
    }
  }

  lemma AtMostHops(g: Graph, t: Id)
    requires Forest(g) && t in g.tasks
    ensures |Ancestors(g, t)| == g.tasks[t].depth <= MAX_HOPS
  {
    AncestorsShape(g, t);
    assert TaskSound(g, t);
  }

  lemma HopsSeeAncestors(g: Graph, child: Id, parent: Id)
    requires Forest(g) && parent in g.tasks
    ensures WithinHops(g.edges, parent, child) <==> child == parent || child in Ancestors(g, parent)
  {
    hide Above, Ancestors, Forest;
    var up := Ancestors(g, parent);
    AtMostHops(g, parent);
    if child == parent {
      AboveIsAncestor(g, parent, 0);
    } else if child in up {
      var i :| 0 <= i < |up| && up[i] == child;
      AboveIsAncestor(g, parent, i + 1);
    }
    if WithinHops(g.edges, parent, child) {
      var k: nat :| k <= MAX_HOPS && Above(g.edges, parent, k) == Some(child);
      AboveIsAncestor(g, parent, k);
    }
  }

  /** On a sound graph the trigger's climb sees every ancestor, and it is too deep exactly at 64 levels. */
  lemma TriggerOnForest(g: Graph, child: Id, parent: Id)
    requires Forest(g) && parent in g.tasks
    ensures WithinHops(g.edges, parent, child) <==> child == parent || child in Ancestors(g, parent)
    ensures Above(g.edges, parent, MAX_HOPS).Some? <==> g.tasks[parent].depth >= MAX_HOPS
  {
    hide Above, Ancestors, Forest, WithinHops;
    HopsSeeAncestors(g, child, parent);
    AtMostHops(g, parent);
    AboveIsAncestor(g, parent, MAX_HOPS);
  }

  // ---------------------------------------------------------------- creation

  function Children(g: Graph, p: Id): set<Id> {
    set c | c in g.edges && g.edges[c].parent == p
  }

  function ActiveChildren(g: Graph, p: Id): set<Id> {
    set c | c in g.edges && g.edges[c].parent == p && !(c in g.tasks && g.tasks[c].terminal)
  }

  /** What a creation runs into; a refused append and a replay are the event store's business. */
  datatype Request = Request(child: Id, parent: Id, limits: Limits, refused: bool)

  /** `create_task`: the store takes a new stream only. */
  function CreateTask(g: Graph, t: Id, refused: bool): Result<Graph, Error> {
    if t in g.tasks then Err(SEQUENCE_CONFLICT)
    else if refused then Err(EVENT_REFUSED)
    else Ok(g.(tasks := g.tasks[t := Task(Some(t), 0, false)]))
  }

  /** `create_subtask` on a sound graph: the conditions, without the walks. */
  ghost function CreateSubtask(g: Graph, r: Request): Result<Graph, Error>
    requires Forest(g)
  {
    if r.parent !in g.tasks then Err(TASK_NOT_FOUND)
    else
      var p := g.tasks[r.parent];
      if p.terminal then Err(TASK_TERMINAL)
      else if r.child == r.parent || r.child in Ancestors(g, r.parent) then Err(TASK_GRAPH_CYCLE)
      else if p.depth + 1 > r.limits.depth then Err(TASK_DEPTH_EXCEEDED)
      else if |Children(g, r.parent)| + 1 > r.limits.fanOut then Err(TASK_FANOUT_EXCEEDED)
      else if |ActiveChildren(g, r.parent)| + 1 > r.limits.concurrent then Err(TASK_CONCURRENCY_EXCEEDED)
      else if r.child in g.tasks then Err(SEQUENCE_CONFLICT)
      else if r.refused then Err(EVENT_REFUSED)
      else if p.depth >= MAX_HOPS then Err(TASK_GRAPH_CYCLE)
      else
        var root := if p.root.Some? then p.root.value else r.parent;
        Ok(Graph(g.tasks[r.child := Task(Some(root), p.depth + 1, false)],
                 g.edges[r.child := Edge(r.parent, root, p.depth + 1)]))
  }

  class Board {
    var tasks: map<Id, Task>
    var edges: map<Id, Edge>

    constructor ()
      ensures Value() == Graph(map[], map[]) && Forest(Value())
    {
      tasks, edges := map[], map[];
    }

    function Value(): Graph
      reads this
    {
      Graph(tasks, edges)
    }

    method CreateRoot(t: Id, refused: bool) returns (r: Result<(), Error>)
      modifies this
      ensures CreateTask(old(Value()), t, refused) == if r.Ok? then Ok(Value()) else Err(r.code)
      ensures r.Err? ==> Value() == old(Value())
    {
      if t in tasks {
        return Err(SEQUENCE_CONFLICT);
      }
      if refused {
        return Err(EVENT_REFUSED);
      }
      tasks := tasks[t := Task(Some(t), 0, false)];
      r := Ok(());
    }

    /** `create_subtask` with its graph checks, the append, and the edge insert behind the trigger. */
    method CreateChild(q: Request) returns (r: Result<(), Error>)
      requires Forest(Value())
      modifies this
      ensures CreateSubtask(old(Value()), q) == if r.Ok? then Ok(Value()) else Err(r.code)
      ensures r.Err? ==> Value() == old(Value())
    {
      hide Forest, Ancestors, Children, ActiveChildren;
      ghost var g := Value();
      if q.parent !in tasks {
        return Err(TASK_NOT_FOUND);
      }
      var p := tasks[q.parent];
      if p.terminal {
        return Err(TASK_TERMINAL);
      }
      if q.child == q.parent {
        return Err(TASK_GRAPH_CYCLE);
      }
      var up := AncestorsOf(edges, q.parent, g);
      if q.child in up {
        return Err(TASK_GRAPH_CYCLE);
      }
      if p.depth + 1 > q.limits.depth {
        return Err(TASK_DEPTH_EXCEEDED);
      }
      if |Children(Value(), q.parent)| + 1 > q.limits.fanOut {
        return Err(TASK_FANOUT_EXCEEDED);
      }
      if |ActiveChildren(Value(), q.parent)| + 1 > q.limits.concurrent {
        return Err(TASK_CONCURRENCY_EXCEEDED);
      }
      if q.child in tasks {
        return Err(SEQUENCE_CONFLICT);
      }
      if q.refused {
        return Err(EVENT_REFUSED);
      }
      var root, saved := if p.root.Some? then p.root.value else q.parent, tasks;
      tasks := tasks[q.child := Task(Some(root), p.depth + 1, false)];
      var v := EdgeTrigger(edges, q.child, q.parent);
      TriggerOnForest(g, q.child, q.parent);
      if !v.Accepted? {
        tasks := saved;
        return Err(TASK_GRAPH_CYCLE);
      }
      edges := edges[q.child := Edge(q.parent, root, p.depth + 1)];
      r := Ok(());
    }
  }

  // ---------------------------------------------------------------- runs

  /** A status change of a task touches neither its depth nor its root. */
  datatype Action = NewTask(id: Id, refused: bool) | NewSubtask(request: Request) | SetTerminal(id: Id, terminal: bool)

  ghost function Step(g: Graph, a: Action): Graph
    requires Forest(g)
  {
    match a
    case NewTask(id, refused) =>
      var r := CreateTask(g, id, refused);
      if r.Ok? then r.value else g
    case NewSubtask(request) =>
      var r := CreateSubtask(g, request);
      if r.Ok? then r.value else g
    case SetTerminal(id, terminal) =>
      if id in g.tasks then g.(tasks := g.tasks[id := g.tasks[id].(terminal := terminal)]) else g
  }

  /** An edge stays sound while its tasks keep depth and root. */
  lemma EdgeStaysSound(g: Graph, h: Graph, c: Id)
    requires c in g.edges && EdgeSound(g, c) && c in h.edges && h.edges[c] == g.edges[c]
    requires forall t :: t in g.tasks ==>
      t in h.tasks && h.tasks[t].depth == g.tasks[t].depth && h.tasks[t].root == g.tasks[t].root
    ensures EdgeSound(h, c)
  {
  }

  lemma ChildKeepsForest(g: Graph, child: Id, parent: Id)
    requires Forest(g) && parent in g.tasks && child !in g.tasks && g.tasks[parent].depth < MAX_HOPS
    ensures var p := g.tasks[parent];
      && p.root.Some?
      && Forest(Graph(g.tasks[child := Task(p.root, p.depth + 1, false)],
                      g.edges[child := Edge(parent, p.root.value, p.depth + 1)]))
  {
    var p := g.tasks[parent];
    assert TaskSound(g, parent);
    assert child !in g.edges by {
      assert child in g.edges ==> EdgeSound(g, child);
    }
    var h := Graph(g.tasks[child := Task(p.root, p.depth + 1, false)],
                   g.edges[child := Edge(parent, p.root.value, p.depth + 1)]);
    assert EdgeSound(h, child) && TaskSound(h, child);
    OthersStaySound(g, h, child);
  }

  lemma OthersStaySound(g: Graph, h: Graph, child: Id)
    requires Forest(g) && child !in g.tasks && child !in g.edges && child in h.tasks && child in h.edges
    requires h.tasks == g.tasks[child := h.tasks[child]] && h.edges == g.edges[child := h.edges[child]]
    requires EdgeSound(h, child) && TaskSound(h, child)
    ensures Forest(h)
  {
    forall c | c in h.edges ensures EdgeSound(h, c) {
      if c != child {
        EdgeStaysSound(g, h, c);
      }
    }
    forall t | t in h.tasks ensures TaskSound(h, t) {
      if t != child {
        assert TaskSound(g, t);
      }
    }
  }

  lemma RootKeepsForest(g: Graph, t: Id)
    requires Forest(g) && t !in g.tasks
    ensures Forest(g.(tasks := g.tasks[t := Task(Some(t), 0, false)]))
  {
    var h := g.(tasks := g.tasks[t := Task(Some(t), 0, false)]);
    forall c | c in h.edges ensures EdgeSound(h, c) {
      EdgeStaysSound(g, h, c);
    }
    forall u | u in h.tasks ensures TaskSound(h, u) {
      if u != t {
        assert TaskSound(g, u);
      } else if u in g.edges {
        assert EdgeSound(g, u);
      }
    }
  }

  lemma StatusKeepsForest(g: Graph, t: Id, terminal: bool)
    requires Forest(g) && t in g.tasks
    ensures Forest(g.(tasks := g.tasks[t := g.tasks[t].(terminal := terminal)]))
  {
    var h := g.(tasks := g.tasks[t := g.tasks[t].(terminal := terminal)]);
    forall c | c in h.edges ensures EdgeSound(h, c) {
      EdgeStaysSound(g, h, c);
    }
    forall u | u in h.tasks ensures TaskSound(h, u) {
      assert TaskSound(g, u);
    }
  }

  lemma StepKeepsForest(g: Graph, a: Action)
    requires Forest(g)
    ensures Forest(Step(g, a))
  {
    hide Ancestors, Children, ActiveChildren, Forest;
    match a
    case NewTask(id, refused) =>
      if id !in g.tasks {
        RootKeepsForest(g, id);
      }
    case NewSubtask(r) =>
      if CreateSubtask(g, r).Ok? {
        ChildKeepsForest(g, r.child, r.parent);
      }
    case SetTerminal(id, terminal) =>
      if id in g.tasks {
        StatusKeepsForest(g, id, terminal);
      }
  }

  ghost function Run(actions: seq<Action>): (g: Graph)
    ensures Forest(g)
  {
    if actions == [] then Graph(map[], map[])
    else
      var before := Run(actions[..|actions| - 1]);
      StepKeepsForest(before, actions[|actions| - 1]);
      Step(before, actions[|actions| - 1])
  }

  /**
   In every reachable graph: a child is one level below its parent and in the same tree, ancestor chains have the
   length of the depth, never repeat, never contain the task itself and end at its root.
   */
  lemma ReachableGraphIsForest(actions: seq<Action>, t: Id)
    requires t in Run(actions).tasks
    ensures var g := Run(actions);
      var up := Ancestors(g, t);
      && |up| == g.tasks[t].depth <= MAX_HOPS < MAX_ANCESTORS
      && t !in up && (forall i, j :: 0 <= i < j < |up| ==> up[i] != up[j])
      && g.tasks[t].root == Some(if up == [] then t else up[|up| - 1])
      && (t in g.edges <==> g.tasks[t].depth > 0)
      && (t in g.edges ==>
            && g.edges[t].parent in g.tasks && g.tasks[t].depth == g.tasks[g.edges[t].parent].depth + 1
            && g.tasks[t].root == g.tasks[g.edges[t].parent].root)
  {
    AncestorsShape(Run(actions), t);
    NoCycle(Run(actions), t);
  }

  /** A new sub-task is accepted exactly within the limits; neither cycle check ever stops a task that is new. */
  lemma CreationExactly(g: Graph, r: Request)
    requires Forest(g) && r.parent in g.tasks
    ensures CreateSubtask(g, r).Ok? <==>
      && r.child !in g.tasks && !g.tasks[r.parent].terminal && !r.refused
      && g.tasks[r.parent].depth < r.limits.depth && g.tasks[r.parent].depth < MAX_HOPS
      && |Children(g, r.parent)| < r.limits.fanOut && |ActiveChildren(g, r.parent)| < r.limits.concurrent
  {
    AncestorsShape(g, r.parent);
  }

  // ---------------------------------------------------------------- limits over runs

  ghost predicate WithinLimits(g: Graph, limits: Limits) {
    && (forall p :: p in g.tasks ==> |Children(g, p)| <= limits.fanOut)
    && forall t :: t in g.edges ==> t in g.tasks && g.tasks[t].depth <= limits.depth
  }

  ghost predicate UsesLimits(actions: seq<Action>, limits: Limits) {
    forall i :: 0 <= i < |actions| ==> actions[i].NewSubtask? ==> actions[i].request.limits == limits
  }

  lemma ChildAdded(g: Graph, child: Id, e: Edge, tasks: map<Id, Task>, p: Id)
    requires child !in g.edges
    ensures Children(Graph(tasks, g.edges[child := e]), p) == Children(g, p) + if p == e.parent then {child} else {}
  {
  }

  lemma Created(g: Graph, r: Request)
    requires Forest(g) && CreateSubtask(g, r).Ok?
    ensures var h := CreateSubtask(g, r).value;
      && r.child !in g.tasks && r.child !in g.edges && r.parent in g.tasks
      && g.tasks[r.parent].depth + 1 <= r.limits.depth && |Children(g, r.parent)| + 1 <= r.limits.fanOut
      && r.child in h.tasks && h.tasks == g.tasks[r.child := h.tasks[r.child]]
      && r.child in h.edges && h.edges == g.edges[r.child := h.edges[r.child]] && h.edges[r.child].parent == r.parent
      && h.tasks[r.child].depth == g.tasks[r.parent].depth + 1
  {
    hide Ancestors, Children, ActiveChildren;
    assert r.child in g.edges ==> EdgeSound(g, r.child);
  }

  lemma NoEdgeNoChild(g: Graph, p: Id)
    requires Forest(g) && p !in g.tasks
    ensures Children(g, p) == {}
  {
  }

  lemma FanOutAfter(g: Graph, r: Request, p: Id)
    requires Forest(g) && CreateSubtask(g, r).Ok? && p in CreateSubtask(g, r).value.tasks
    requires p in g.tasks ==> |Children(g, p)| <= r.limits.fanOut
    ensures |Children(CreateSubtask(g, r).value, p)| <= r.limits.fanOut
  {
    Created(g, r);
    hide Children, Forest, CreateSubtask;
    var h := CreateSubtask(g, r).value;
    ChildAdded(g, r.child, h.edges[r.child], h.tasks, p);
    if p == r.child {
      NoEdgeNoChild(g, p);
    }
  }

  lemma ChildWithinLimits(g: Graph, r: Request)
    requires Forest(g) && WithinLimits(g, r.limits) && CreateSubtask(g, r).Ok?
    ensures WithinLimits(CreateSubtask(g, r).value, r.limits)
  {
    hide Children, Forest, CreateSubtask;
    var h := CreateSubtask(g, r).value;
    forall p | p in h.tasks ensures |Children(h, p)| <= r.limits.fanOut {
      Created(g, r);
      FanOutAfter(g, r, p);
    }
    forall t | t in h.edges ensures t in h.tasks && h.tasks[t].depth <= r.limits.depth {
      Created(g, r);
    }
  }

  lemma SameEdgesWithinLimits(g: Graph, h: Graph, limits: Limits)
    requires Forest(g) && WithinLimits(g, limits) && h.edges == g.edges && g.tasks.Keys <= h.tasks.Keys
    requires forall t :: t in g.tasks ==> h.tasks[t].depth == g.tasks[t].depth
    ensures WithinLimits(h, limits)
  {
    forall p | p in h.tasks ensures |Children(h, p)| <= limits.fanOut {
      assert Children(h, p) == Children(g, p);
      if p !in g.tasks {
        NoEdgeNoChild(g, p);
      }
      hide Children;
    }
  }

  lemma StepWithinLimits(g: Graph, a: Action, limits: Limits)
    requires Forest(g) && WithinLimits(g, limits) && (a.NewSubtask? ==> a.request.limits == limits)
    ensures WithinLimits(Step(g, a), limits)
  {
    hide Ancestors, ActiveChildren, Children, Forest, WithinLimits;
    if a.NewSubtask? && CreateSubtask(g, a.request).Ok? {
      ChildWithinLimits(g, a.request);
    } else {
      SameEdgesWithinLimits(g, Step(g, a), limits);
    }
  }

  /** Under one channel policy no task gets more children, and no chain more levels, than it allows. */
  lemma {:induction false} LimitsHold(actions: seq<Action>, limits: Limits)
    requires UsesLimits(actions, limits)
    ensures WithinLimits(Run(actions), limits)
  {
    if actions == [] {
    } else {
      LimitsHold(actions[..|actions| - 1], limits);
      StepWithinLimits(Run(actions[..|actions| - 1]), actions[|actions| - 1], limits);
      hide WithinLimits, Step, Forest;
    }
  }

  // ---------------------------------------------------------------- what a creation is answered

  /** The children of a task that have not come to their end. */
  ghost function Running(g: Graph, p: Id): set<Id> {
    set c | c in g.edges && g.edges[c].parent == p && c in g.tasks && !g.tasks[c].terminal
  }

  lemma RunningIsActive(g: Graph, p: Id)
    requires Forest(g)
    ensures Running(g, p) == ActiveChildren(g, p)
  {
    forall c | c in g.edges ensures c in g.tasks {
      assert EdgeSound(g, c);
    }
  }

  /** `child` is the task itself or somewhere above it. */
  ghost predicate IsAbove(g: Graph, t: Id, child: Id) {
    exists k: nat :: Above(g.edges, t, k) == Some(child)
  }

  lemma AboveIsHops(g: Graph, t: Id, child: Id)
    requires Forest(g) && t in g.tasks
    ensures IsAbove(g, t, child) <==> child == t || child in Ancestors(g, t)
  {
    hide Above, Ancestors, Forest;
    HopsSeeAncestors(g, child, t);
    AtMostHops(g, t);
    if k: nat :| Above(g.edges, t, k) == Some(child) {
      AboveIsAncestor(g, t, k);
    }
  }

  /** What each error says is wrong with the creation of a sub-task. */
  ghost predicate Fault(g: Graph, r: Request, e: Error) {
    match e
    case TASK_NOT_FOUND => r.parent !in g.tasks
    case TASK_TERMINAL => r.parent in g.tasks && g.tasks[r.parent].terminal
    case TASK_GRAPH_CYCLE => IsAbove(g, r.parent, r.child)
    case TASK_DEPTH_EXCEEDED => r.parent in g.tasks && g.tasks[r.parent].depth >= r.limits.depth
    case TASK_FANOUT_EXCEEDED => |set c | c in g.edges && g.edges[c].parent == r.parent| >= r.limits.fanOut
    case TASK_CONCURRENCY_EXCEEDED => |Running(g, r.parent)| >= r.limits.concurrent
    case SEQUENCE_CONFLICT => r.child in g.tasks
    case EVENT_REFUSED => r.refused
    case TASK_EDGE_INVALID => false
  }

  /** The order in which the faults are looked for. */
  function Place(e: Error): nat {
    match e
    case TASK_NOT_FOUND => 0
    case TASK_TERMINAL => 1
    case TASK_GRAPH_CYCLE => 2
    case TASK_DEPTH_EXCEEDED => 3
    case TASK_FANOUT_EXCEEDED => 4
    case TASK_CONCURRENCY_EXCEEDED => 5
    case SEQUENCE_CONFLICT => 6
    case EVENT_REFUSED => 7
    case TASK_EDGE_INVALID => 8
  }

  ghost predicate FirstFault(g: Graph, r: Request, e: Error) {
    Fault(g, r, e) && forall d :: Place(d) < Place(e) ==> !Fault(g, r, d)
  }

  ghost predicate Faultless(g: Graph, r: Request) {
    forall e :: !Fault(g, r, e)
  }

  predicate TooHigh(g: Graph, r: Request) {
    r.parent in g.tasks && g.tasks[r.parent].depth >= 64
  }

  /**
   The creation of a sub-task fails for the first of its faults. Without any it fails only under a parent 64 levels
   deep, where the insert trigger stops it; otherwise it adds one task and one edge below the parent.
   */
  lemma CreationAnswer(g: Graph, r: Request)
    requires Forest(g)
    ensures match CreateSubtask(g, r)
      case Err(e) => FirstFault(g, r, e) || (Faultless(g, r) && TooHigh(g, r) && e == TASK_GRAPH_CYCLE)
      case Ok(h) => Faultless(g, r) && !TooHigh(g, r) && Below(g, r, h)
  {
    if r.parent in g.tasks {
      AboveIsHops(g, r.parent, r.child);
      RunningIsActive(g, r.parent);
    }
    hide IsAbove, Ancestors, ActiveChildren, Running;
  }

  /** `h` is `g` with the child one level below the parent, in the same tree, not at its end. */
  ghost predicate Below(g: Graph, r: Request, h: Graph) {
    && r.parent in g.tasks && r.child !in g.tasks && r.child in h.tasks && r.child in h.edges
    && h.tasks == g.tasks[r.child := h.tasks[r.child]] && h.edges == g.edges[r.child := h.edges[r.child]]
    && h.tasks[r.child].depth == h.edges[r.child].depth == g.tasks[r.parent].depth + 1
    && h.tasks[r.child].root == g.tasks[r.parent].root == Some(h.edges[r.child].root)
    && h.edges[r.child].parent == r.parent && !h.tasks[r.child].terminal
  }

  /** A root is accepted exactly where its id is new and the store takes it, and stands alone in its own tree. */
  lemma RootAnswer(g: Graph, t: Id, refused: bool)
    requires Forest(g)
    ensures match CreateTask(g, t, refused)
      case Err(e) => if t in g.tasks then e == SEQUENCE_CONFLICT else refused && e == EVENT_REFUSED
      case Ok(h) => t !in g.tasks && !refused && NewRoot(g, t, h)
  {
    assert t in g.edges ==> EdgeSound(g, t);
  }

  /** `h` is `g` with one more task, without a parent and in a tree of its own. */
  ghost predicate NewRoot(g: Graph, t: Id, h: Graph) {
    && h.edges == g.edges && t !in h.edges && t in h.tasks && h.tasks == g.tasks[t := h.tasks[t]]
    && h.tasks[t].depth == 0 && h.tasks[t].root == Some(t) && !h.tasks[t].terminal
  }

  // ---------------------------------------------------------------- running children over runs

  /** A task that has come to its end stays there. */
  ghost predicate EndsAreFinal(actions: seq<Action>) {
    forall i :: 0 <= i < |actions| ==> actions[i].SetTerminal? ==> actions[i].terminal
  }

  lemma RunningAfterChild(g: Graph, r: Request, h: Graph, p: Id)
    requires Forest(g) && Below(g, r, h)
    ensures Running(h, p) == Running(g, p) + if p == r.parent then {r.child} else {}
  {
    forall c | c in g.edges ensures c in g.tasks && c != r.child {
      assert EdgeSound(g, c);
    }
  }

  lemma RunningShrinks(g: Graph, a: Action, p: Id)
    requires Forest(g) && (a.NewTask? || (a.SetTerminal? && a.terminal))
    ensures Running(Step(g, a), p) <= Running(g, p)
  {
    hide Ancestors, Children, ActiveChildren;
    forall c | c in g.edges ensures c in g.tasks {
      assert EdgeSound(g, c);
    }
  }

  lemma Fewer(few: set<Id>, many: set<Id>)
    requires few <= many
    ensures |few| <= |many|
  {
    assert many == few + (many - few);
  }

  lemma StepKeepsRunning(g: Graph, a: Action, limits: Limits, p: Id)
    requires Forest(g) && (a.NewSubtask? ==> a.request.limits == limits) && (a.SetTerminal? ==> a.terminal)
    requires |Running(g, p)| <= limits.concurrent
    ensures |Running(Step(g, a), p)| <= limits.concurrent
  {
    hide Forest, Running, CreateSubtask, Below;
    if a.NewSubtask? {
      var r := a.request;
      CreationAnswer(g, r);
      if CreateSubtask(g, r).Ok? {
        RunningAfterChild(g, r, CreateSubtask(g, r).value, p);
        assert !Fault(g, r, TASK_CONCURRENCY_EXCEEDED);
      }
    } else {
      RunningShrinks(g, a, p);
      Fewer(Running(Step(g, a), p), Running(g, p));
    }
  }

  /** Under one channel policy no task ever has more running children than it allows. */
  lemma {:induction false} RunningBounded(actions: seq<Action>, limits: Limits, p: Id)
    requires UsesLimits(actions, limits) && EndsAreFinal(actions)
    ensures |Running(Run(actions), p)| <= limits.concurrent
  {
    if actions == [] {
    } else {
      RunningBounded(actions[..|actions| - 1], limits, p);
      hide Running, Step, Forest;
      StepKeepsRunning(Run(actions[..|actions| - 1]), actions[|actions| - 1], limits, p);
    }
  }
}
