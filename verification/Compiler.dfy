/** The workflow compiler's structural checks: node ids, edge ends, reachability and cycles. */
module Compiler {
  import opened Wrappers

  datatype GraphNode = GraphNode(id: string, hasExecutable: bool)

  datatype Edge = Edge(source: string, target: string)

  // ------------------------------------------------------------------ what the checks are about

  predicate Walk(edges: seq<Edge>, p: seq<string>) {
    p != [] && forall i :: 0 <= i < |p| - 1 ==> Edge(p[i], p[i + 1]) in edges
  }

  ghost predicate Cyclic(edges: seq<Edge>) {
    exists p :: Walk(edges, p) && |p| >= 2 && p[0] == p[|p| - 1]
  }

  predicate Joins(edges: seq<Edge>, p: seq<string>, a: string, b: string) {
    Walk(edges, p) && p[0] == a && p[|p| - 1] == b
  }

  ghost predicate Reaches(edges: seq<Edge>, a: string, b: string) {
    exists p :: Joins(edges, p, a, b)
  }

  /** The last node of the walk was on it before, so the stretch between is a cycle. */
  predicate ClosesCycle(edges: seq<Edge>, p: seq<string>) {
    Walk(edges, p) && |p| >= 2 && p[|p| - 1] in p[..|p| - 1]
  }

  /** Node `i` of the order is new, and its successors come before it. */
  predicate InPlace(edges: seq<Edge>, order: seq<string>, i: nat)
    requires i < |order|
  {
    order[i] !in order[..i] && forall e :: e in edges && e.source == order[i] ==> e.target in order[..i]
  }

  /** Nodes in the order a depth-first search leaves them. */
  predicate FinishOrder(edges: seq<Edge>, order: seq<string>) {
    forall i {:trigger InPlace(edges, order, i)} :: 0 <= i < |order| ==> InPlace(edges, order, i)
  }

  lemma CycleClosed(edges: seq<Edge>, p: seq<string>)
    requires ClosesCycle(edges, p)
    ensures Cyclic(edges)
  {
    var i :| 0 <= i < |p| - 1 && p[i] == p[|p| - 1];
    var q := p[i..];
    assert Walk(edges, q) && q[0] == q[|q| - 1];
  }

  /** Along a walk the position in the finish order falls. */
  lemma {:induction false} PositionFalls(edges: seq<Edge>, order: seq<string>, p: seq<string>, i: nat)
    requires FinishOrder(edges, order) && Walk(edges, p) && i < |order| && p[0] == order[i]
    ensures exists j :: 0 <= j <= i && order[j] == p[|p| - 1] && (|p| >= 2 ==> j < i)
    decreases |p|
  {
    if |p| >= 2 {
      assert Edge(p[0], p[1]) in edges && InPlace(edges, order, i);
      var j :| 0 <= j < i && order[..i][j] == p[1];
      assert Walk(edges, p[1..]);
      PositionFalls(edges, order, p[1..], j);
    }
  }

  /** A finish order that has every source rules cycles out. */
  lemma FinishOrderMeansAcyclic(edges: seq<Edge>, order: seq<string>)
    requires FinishOrder(edges, order) && forall e :: e in edges ==> e.source in order
    ensures !Cyclic(edges)
  {
    if Cyclic(edges) {
      var p :| Walk(edges, p) && |p| >= 2 && p[0] == p[|p| - 1];
      assert Edge(p[0], p[1]) in edges;
      var i :| 0 <= i < |order| && order[i] == p[0];
      assert InPlace(edges, order, i);
      PositionFalls(edges, order, p, i);
    }
  }

  lemma FinishAppends(edges: seq<Edge>, order: seq<string>, node: string)
    requires FinishOrder(edges, order) && node !in order
    requires forall e :: e in edges && e.source == node ==> e.target in order
    ensures FinishOrder(edges, order + [node])
  {
    var longer := order + [node];
    forall i | 0 <= i < |longer| ensures InPlace(edges, longer, i) {
      if i < |order| {
        assert InPlace(edges, order, i) && longer[..i] == order[..i];
      } else {
        assert longer[..i] == order;
      }
    }
  }

  lemma ReachesItself(edges: seq<Edge>, a: string)
    ensures Reaches(edges, a, a)
  {
    assert Joins(edges, [a], a, a);
  }

  lemma ReachesFurther(edges: seq<Edge>, a: string, e: Edge)
    requires Reaches(edges, a, e.source) && e in edges
    ensures Reaches(edges, a, e.target)
  {
    var p :| Joins(edges, p, a, e.source);
    assert Joins(edges, p + [e.target], a, e.target);
  }

  lemma {:induction false} ClosedSetHoldsWalk(edges: seq<Edge>, seen: set<string>, p: seq<string>)
    requires Walk(edges, p) && p[0] in seen
    requires forall e :: e in edges && e.source in seen ==> e.target in seen
    ensures p[|p| - 1] in seen
  {
    if |p| >= 2 {
      assert Edge(p[0], p[1]) in edges;
      assert Walk(edges, p[1..]);
      ClosedSetHoldsWalk(edges, seen, p[1..]);
    }
  }

  // ------------------------------------------------------------------ adjacency

  predicate Adjacent(adjacency: map<string, seq<string>>, a: string, b: string) {
    a in adjacency && b in adjacency[a]
  }

  ghost predicate Indexes(adjacency: map<string, seq<string>>, edges: seq<Edge>) {
    forall a, b :: Adjacent(adjacency, a, b) <==> Edge(a, b) in edges
  }

  /** The dictionary both searches build; `keys` is its insertion order. */
  method Adjacency(edges: seq<Edge>) returns (adjacency: map<string, seq<string>>, keys: seq<string>)
    ensures Indexes(adjacency, edges)
    ensures forall a :: a in keys <==> a in adjacency
    ensures forall a :: a in adjacency ==> adjacency[a] != []
  {
    adjacency, keys := map[], [];
    for n := 0 to |edges|
      invariant Indexes(adjacency, edges[..n])
      invariant forall a :: a in keys <==> a in adjacency
      invariant forall a :: a in adjacency ==> adjacency[a] != []
    {
      var e := edges[n];
      if e.source in adjacency {
        adjacency := adjacency[e.source := adjacency[e.source] + [e.target]];
      } else {
        adjacency, keys := adjacency[e.source := [e.target]], keys + [e.source];
      }
      assert edges[..n + 1] == edges[..n] + [e];
    }
    assert edges[..|edges|] == edges;
  }

  function Targets(adjacency: map<string, seq<string>>, node: string): seq<string> {
    if node in adjacency then adjacency[node] else []
  }

  // ------------------------------------------------------------------ the three-colour search

  datatype Colour = Grey | Black

  class Search {
    const edges: seq<Edge>
    const adjacency: map<string, seq<string>>
    ghost const universe: set<string>
    var colour: map<string, Colour>
    ghost var finished: seq<string>

    constructor (edges: seq<Edge>, adjacency: map<string, seq<string>>)
      requires Indexes(adjacency, edges)
      ensures this.edges == edges && this.adjacency == adjacency
      ensures Valid([]) && colour == map[] && finished == []
      ensures forall e :: e in edges ==> e.source in universe
    {
      this.edges, this.adjacency := edges, adjacency;
      this.universe := (set e | e in edges :: e.source) + (set e | e in edges :: e.target);
      colour, finished := map[], [];
    }

    /** The grey nodes are the nodes on the current path, the black ones those already left. */
    ghost predicate Valid(path: seq<string>)
      reads this
    {
      && Indexes(adjacency, edges)
      && (forall e :: e in edges ==> e.source in universe && e.target in universe)
      && colour.Keys <= universe
      && (forall n :: n in colour && colour[n] == Grey <==> n in path)
      && (forall n :: n in colour && colour[n] == Black <==> n in finished)
      && FinishOrder(edges, finished)
    }

    method Visit(node: string, path: seq<string>) returns (cycle: Option<seq<string>>)
      requires Valid(path) && node in universe && node !in colour && Walk(edges, path + [node])
      modifies this
      ensures cycle.Some? ==> ClosesCycle(edges, cycle.value) && path + [node] <= cycle.value
      ensures cycle.None? ==> Valid(path) && node in finished
      ensures cycle.None? ==> (forall n :: n in old(finished) ==> n in finished) && old(colour).Keys <= colour.Keys
      decreases universe - colour.Keys, 0
    {
      Paint(node, path);
      cycle := InspectAll(node, path + [node]);
      if cycle.None? { Leave(node, path); }
    }

    /** The successors of the last node of the path, in order. */
    method InspectAll(node: string, here: seq<string>) returns (cycle: Option<seq<string>>)
      requires Valid(here) && Walk(edges, here) && here[|here| - 1] == node
      modifies this
      ensures cycle.Some? ==> ClosesCycle(edges, cycle.value) && here <= cycle.value
      ensures cycle.None? ==> Valid(here) && forall t :: t in Targets(adjacency, node) ==> t in finished
      ensures cycle.None? ==> (forall n :: n in old(finished) ==> n in finished) && old(colour).Keys <= colour.Keys
      decreases universe - colour.Keys, 2
    {
      var targets := Targets(adjacency, node);
      for i := 0 to |targets|
        invariant Valid(here) && (forall n :: n in old(finished) ==> n in finished) && old(colour).Keys <= colour.Keys
        invariant forall k :: 0 <= k < i ==> targets[k] in finished
      {
        WalkOn(node, here, targets[i]);
        cycle := Inspect(targets[i], here);
        if cycle.Some? { return; }
      }
      cycle := None;
    }

    /** One successor of the last node of the path: grey closes a cycle, white is visited. */
    method Inspect(nxt: string, here: seq<string>) returns (cycle: Option<seq<string>>)
      requires Valid(here) && nxt in universe && Walk(edges, here + [nxt])
      modifies this
      ensures cycle.Some? ==> ClosesCycle(edges, cycle.value) && here <= cycle.value
      ensures cycle.None? ==> Valid(here) && nxt in finished
      ensures cycle.None? ==> (forall n :: n in old(finished) ==> n in finished) && old(colour).Keys <= colour.Keys
      decreases universe - colour.Keys, 1
    {
      cycle := None;
      if nxt !in colour {
        cycle := Visit(nxt, here);
      } else if colour[nxt] == Grey {
        assert (here + [nxt])[..|here|] == here;
        cycle := Some(here + [nxt]);
      }
    }

    lemma WalkOn(node: string, here: seq<string>, nxt: string)
      requires Indexes(adjacency, edges) && Walk(edges, here) && here[|here| - 1] == node
        && nxt in Targets(adjacency, node)
      ensures Walk(edges, here + [nxt]) && Edge(node, nxt) in edges
    {
      assert Adjacent(adjacency, node, nxt);
    }

    /** The node goes onto the path: grey. */
    method Paint(node: string, path: seq<string>)
      requires Valid(path) && node in universe && node !in colour
      modifies this`colour
      ensures Valid(path + [node]) && colour == old(colour)[node := Grey]
    {
      colour := colour[node := Grey];
      assert forall n :: n in path + [node] <==> n in path || n == node;
    }

    /** The node leaves the path: black. */
    method Leave(node: string, path: seq<string>)
      requires Valid(path + [node]) && node in universe && node !in path
      requires forall t :: t in Targets(adjacency, node) ==> t in finished
      modifies this
      ensures Valid(path) && finished == old(finished) + [node]
    {
      assert node in path + [node];
      assert forall n :: n in path + [node] <==> n in path || n == node;
      assert forall e :: e in edges && e.source == node ==> Adjacent(adjacency, node, e.target);
      FinishAppends(edges, finished, node);
      colour, finished := colour[node := Black], finished + [node];
    }
  }

  /** `_validate_acyclic`: the reported cycle, or `None`. `order` witnesses acceptance. */
  method ValidateAcyclic(edges: seq<Edge>) returns (cycle: Option<seq<string>>, ghost order: seq<string>)
    ensures cycle.None? <==> !Cyclic(edges)
    ensures cycle.Some? ==> ClosesCycle(edges, cycle.value)
    ensures cycle.None? ==> FinishOrder(edges, order) && forall e :: e in edges ==> e.source in order
  {
    var adjacency, keys := Adjacency(edges);
    var search := new Search(edges, adjacency);
    order := [];
    for i := 0 to |keys|
      invariant search.edges == edges && search.adjacency == adjacency && search.Valid([])
      invariant forall e :: e in edges ==> e.source in search.universe
      invariant forall k :: 0 <= k < i ==> keys[k] in search.finished
      invariant fresh(search)
    {
      if keys[i] !in search.colour {
        assert Adjacent(adjacency, keys[i], adjacency[keys[i]][0]);
        cycle := search.Visit(keys[i], []);
        if cycle.Some? {
          CycleClosed(edges, cycle.value);
          return;
        }
      }
    }
    order := search.finished;
    forall e | e in edges ensures e.source in order {
      assert Adjacent(adjacency, e.source, e.target);
    }
    FinishOrderMeansAcyclic(edges, order);
    cycle := None;
  }

  // ------------------------------------------------------------------ reachability

  /** `_validate_reachability`: the ids, in node order, that the first node does not reach. */
  method ValidateReachability(nodes: seq<GraphNode>, edges: seq<Edge>) returns (unreachable: seq<string>)
    requires nodes != []
    ensures forall id :: id in unreachable <==>
      exists k :: 0 <= k < |nodes| && nodes[k].id == id && !Reaches(edges, nodes[0].id, id)
  {
    ReachesItself(edges, nodes[0].id);
    if |nodes| == 1 { return []; }
    var seen := StackSearch(edges, nodes[0].id);
    unreachable := [];
    for n := 0 to |nodes|
      invariant forall id :: id in unreachable <==> exists k :: 0 <= k < n && nodes[k].id == id && id !in seen
    {
      if nodes[n].id !in seen { unreachable := unreachable + [nodes[n].id]; }
    }
  }

  /** The stack search: exactly the nodes that `start` reaches. */
  method StackSearch(edges: seq<Edge>, start: string) returns (seen: set<string>)
    ensures forall id :: id in seen <==> Reaches(edges, start, id)
  {
    var adjacency, _ := Adjacency(edges);
    ghost var universe := {start} + set e | e in edges :: e.target;
    seen := {start};
    var stack := [start];
    ReachesItself(edges, start);
    while stack != []
      invariant start in seen && seen <= universe
      invariant forall s :: s in stack ==> s in seen
      invariant forall s :: s in seen ==> Reaches(edges, start, s)
      invariant forall e :: e in edges && e.source in seen && e.source !in stack ==> e.target in seen
      decreases universe - seen, |stack|
    {
      var current := stack[|stack| - 1];
      stack := stack[..|stack| - 1];
      seen, stack := Expand(edges, adjacency, start, universe, current, seen, stack);
    }
    forall id | Reaches(edges, start, id) ensures id in seen {
      var p :| Joins(edges, p, start, id);
      ClosedSetHoldsWalk(edges, seen, p);
    }
  }

  /** The inner loop: push the unseen successors of `current`. */
  method Expand(edges: seq<Edge>, adjacency: map<string, seq<string>>, start: string, ghost universe: set<string>,
                current: string, seen0: set<string>, stack0: seq<string>)
    returns (seen: set<string>, stack: seq<string>)
    requires Indexes(adjacency, edges) && seen0 <= universe && current in seen0
    requires forall e :: e in edges ==> e.target in universe
    requires forall s :: s in stack0 ==> s in seen0
    requires forall s :: s in seen0 ==> Reaches(edges, start, s)
    ensures seen0 <= seen <= universe && stack0 <= stack && (seen == seen0 ==> stack == stack0)
    ensures forall s :: s in stack ==> s in seen
    ensures forall s :: s in seen && s !in seen0 ==> s in stack
    ensures forall s :: s in seen ==> Reaches(edges, start, s)
    ensures forall e :: e in edges && e.source == current ==> e.target in seen
  {
    seen, stack := seen0, stack0;
    var targets := Targets(adjacency, current);
    for i := 0 to |targets|
      invariant seen0 <= seen <= universe && stack0 <= stack && (seen == seen0 ==> stack == stack0)
      invariant forall s :: s in stack ==> s in seen
      invariant forall s :: s in seen && s !in seen0 ==> s in stack
      invariant forall s :: s in seen ==> Reaches(edges, start, s)
      invariant forall k :: 0 <= k < i ==> targets[k] in seen
    {
      var nxt := targets[i];
      assert Adjacent(adjacency, current, nxt);
      if nxt !in seen {
        ReachesFurther(edges, start, Edge(current, nxt));
        seen, stack := seen + {nxt}, stack + [nxt];
      }
    }
    forall e | e in edges && e.source == current ensures e.target in seen {
      assert Adjacent(adjacency, current, e.target);
    }
  }

  // ------------------------------------------------------------------ compile

  datatype CompilationError =
    | NoNodes
    | DuplicateId(id: string)
    | NoExecutable(id: string)
    | UnknownEnd(edge: Edge)
    | Unreachable(ids: seq<string>)
    | IllegalCycle(walk: seq<string>)

  predicate Distinct(nodes: seq<GraphNode>) {
    forall i, j :: 0 <= i < j < |nodes| ==> nodes[i].id != nodes[j].id
  }

  predicate Known(nodes: seq<GraphNode>, id: string) {
    exists i :: 0 <= i < |nodes| && nodes[i].id == id
  }

  predicate NodesFine(nodes: seq<GraphNode>) {
    nodes != [] && Distinct(nodes) && forall i :: 0 <= i < |nodes| ==> nodes[i].hasExecutable
  }

  predicate EdgesFine(nodes: seq<GraphNode>, edges: seq<Edge>) {
    forall e :: e in edges ==> Known(nodes, e.source) && Known(nodes, e.target)
  }

  ghost predicate AllReached(nodes: seq<GraphNode>, edges: seq<Edge>)
    requires nodes != []
  {
    forall i :: 0 <= i < |nodes| ==> Reaches(edges, nodes[0].id, nodes[i].id)
  }

  /** A graph the structural checks are meant to let through. */
  ghost predicate WellFormed(nodes: seq<GraphNode>, edges: seq<Edge>) {
    NodesFine(nodes) && EdgesFine(nodes, edges) && AllReached(nodes, edges) && !Cyclic(edges)
  }

  /** What an error says is true of the graph, and every earlier check has passed. */
  ghost predicate Justified(error: CompilationError, nodes: seq<GraphNode>, edges: seq<Edge>) {
    match error
    case NoNodes => nodes == []
    case DuplicateId(id) => exists i, j :: 0 <= i < j < |nodes| && nodes[i].id == id == nodes[j].id
    case NoExecutable(id) => exists i :: 0 <= i < |nodes| && nodes[i].id == id && !nodes[i].hasExecutable
    case UnknownEnd(e) => NodesFine(nodes) && e in edges && !(Known(nodes, e.source) && Known(nodes, e.target))
    case Unreachable(ids) =>
      && NodesFine(nodes) && EdgesFine(nodes, edges) && ids != []
      && forall id :: id in ids <==> Known(nodes, id) && !Reaches(edges, nodes[0].id, id)
    case IllegalCycle(walk) =>
      NodesFine(nodes) && EdgesFine(nodes, edges) && AllReached(nodes, edges) && ClosesCycle(edges, walk)
  }

  method ValidateNodes(nodes: seq<GraphNode>) returns (error: Option<CompilationError>)
    ensures error.None? <==> NodesFine(nodes)
    ensures error.Some? ==> Justified(error.value, nodes, [])
    ensures error.Some? ==> error.value.NoNodes? || error.value.DuplicateId? || error.value.NoExecutable?
  {
    if nodes == [] { return Some(NoNodes); }
    var seen: set<string> := {};
    for n := 0 to |nodes|
      invariant forall id :: id in seen <==> Known(nodes[..n], id)
      invariant Distinct(nodes[..n]) && forall i :: 0 <= i < n ==> nodes[i].hasExecutable
    {
      var id := nodes[n].id;
      if id in seen {
        var i :| 0 <= i < n && nodes[..n][i].id == id;
        assert nodes[i].id == id == nodes[n].id;
        return Some(DuplicateId(id));
      }
      assert forall i :: 0 <= i < n ==> nodes[..n][i].id != id;
      seen := seen + {id};
      if !nodes[n].hasExecutable { return Some(NoExecutable(id)); }
      assert nodes[..n + 1] == nodes[..n] + [nodes[n]];
      KnownExtends(nodes[..n], nodes[n]);
    }
    assert nodes[..|nodes|] == nodes;
    error := None;
  }

  lemma KnownExtends(nodes: seq<GraphNode>, node: GraphNode)
    ensures forall id :: Known(nodes + [node], id) <==> Known(nodes, id) || id == node.id
  {
    forall id | Known(nodes, id) ensures Known(nodes + [node], id) {
      var i :| 0 <= i < |nodes| && nodes[i].id == id;
      assert (nodes + [node])[i].id == id;
    }
    assert (nodes + [node])[|nodes|].id == node.id;
  }

  method ValidateEdges(nodes: seq<GraphNode>, edges: seq<Edge>) returns (error: Option<CompilationError>)
    requires NodesFine(nodes)
    ensures error.None? <==> EdgesFine(nodes, edges)
    ensures error.Some? ==> error.value.UnknownEnd? && Justified(error.value, nodes, edges)
  {
    for n := 0 to |edges|
      invariant EdgesFine(nodes, edges[..n])
    {
      if !(Known(nodes, edges[n].source) && Known(nodes, edges[n].target)) { return Some(UnknownEnd(edges[n])); }
    }
    error := None;
  }

  /** The structural part of `compile` accepts exactly the well-formed graphs, and every error it
      raises is a true statement about the graph. */
  method Compile(nodes: seq<GraphNode>, edges: seq<Edge>) returns (error: Option<CompilationError>)
    ensures error.None? <==> WellFormed(nodes, edges)
    ensures error.Some? ==> Justified(error.value, nodes, edges)
    ensures nodes == [] ==> error == Some(NoNodes)
  {
    error := ValidateNodes(nodes);
    if error.Some? { return; }
    error := ValidateEdges(nodes, edges);
    if error.Some? { return; }
    var unreachable := ValidateReachability(nodes, edges);
    if unreachable != [] {
      assert unreachable[0] in unreachable;
      return Some(Unreachable(unreachable));
    }
    forall i | 0 <= i < |nodes| ensures Reaches(edges, nodes[0].id, nodes[i].id) {
      assert nodes[i].id !in unreachable;
    }
    var cycle, _ := ValidateAcyclic(edges);
    error := if cycle.Some? then Some(IllegalCycle(cycle.value)) else None;
  }
}
