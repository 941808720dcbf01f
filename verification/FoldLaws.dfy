/** What the uninterrupted fold means, construct by construct, in terms of the inputs and outputs of its
    parts: the promises of `node.py`, `workflow.py` and `approval.py` about values. */
module FoldLaws {
  import opened Types
  import opened Wrappers
  import opened Workflows

  // ------------------------------------------------------------------ piping

  /** A part returned `x`; the next is given `y`: the same, or the node's own input if it returned null. */
  predicate Piped(x: Value, own: Value, y: Value) { if x == Null then y == own else y == x }

  /** Part `i` has an output, and the next part gets what is piped from it. */
  ghost predicate Feeds(o: Oracle, d: string -> Decision, parts: seq<Executable>, own: Value, ins: seq<Value>, i: nat)
    requires i + 1 < |ins| <= |parts|
  {
    var out := Plain(o, d, parts[i], ins[i]).out;
    out.Some? && Piped(out.value, own, ins[i + 1])
  }

  /** The parts that get to run, with their inputs: the first gets the node's own, and each feeds the next. */
  ghost predicate Pipeline(o: Oracle, d: string -> Decision, parts: seq<Executable>, own: Value, ins: seq<Value>) {
    0 < |ins| <= |parts| && ins[0] == own && forall i :: 0 <= i < |ins| - 1 ==> Feeds(o, d, parts, own, ins, i)
  }

  /** What the last part that runs returns, if it is not stuck. */
  function LastOut(o: Oracle, d: string -> Decision, parts: seq<Executable>, ins: seq<Value>): Option<Value>
    requires 0 < |ins| <= |parts|
  {
    Plain(o, d, parts[|ins| - 1], ins[|ins| - 1]).out
  }

  /** Nothing runs after the last of them: there is nothing left, or it is stuck. */
  predicate Ends(o: Oracle, d: string -> Decision, parts: seq<Executable>, ins: seq<Value>)
    requires 0 < |ins| <= |parts|
  {
    |ins| == |parts| || LastOut(o, d, parts, ins).None?
  }

  /** What the parts that run do. */
  function Doings(o: Oracle, d: string -> Decision, parts: seq<Executable>, ins: seq<Value>): seq<set<Fact>>
    requires |ins| <= |parts|
  {
    seq(|ins|, i requires 0 <= i < |ins| => Plain(o, d, parts[i], ins[i]).facts)
  }

  function Union(sets: seq<set<Fact>>): set<Fact> { if sets == [] then {} else sets[0] + Union(sets[1..]) }

  // ------------------------------------------------------------------ sequences

  lemma {:induction false} StepsFrom(o: Oracle, d: string -> Decision, e: Executable, own: Value, ins: seq<Value>,
                                     i: nat, current: Value)
    requires e.Sequence? && Pipeline(o, d, e.steps, own, ins) && Ends(o, d, e.steps, ins) && i < |ins|
    requires Give(current, own) == ins[i]
    ensures PlainSteps(o, d, e, i, own, current).out == LastOut(o, d, e.steps, ins)
    ensures PlainSteps(o, d, e, i, own, current).facts == Union(Doings(o, d, e.steps, ins)[i..])
    decreases |ins| - i
  {
    var (r, doings) := (Plain(o, d, e.steps[i], ins[i]), Doings(o, d, e.steps, ins));
    assert doings[i..][0] == r.facts && doings[i..][1..] == doings[i + 1..];
    if i + 1 < |ins| {
      assert Feeds(o, d, e.steps, own, ins, i);
      StepsFrom(o, d, e, own, ins, i + 1, r.out.value);
    } else {
      assert doings[i + 1..] == [];
      if r.out.Some? { assert PlainSteps(o, d, e, i + 1, own, r.out.value) == Evaluation(r.out, {}); }
    }
  }

  /** A sequence pipes its steps: it returns what the last that runs returns, and does what they do. */
  lemma {:induction false} SequenceLaw(o: Oracle, d: string -> Decision, steps: seq<Executable>, v: Value,
                                       ins: seq<Value>)
    requires Pipeline(o, d, steps, v, ins) && Ends(o, d, steps, ins)
    ensures Plain(o, d, Sequence(steps), v)
         == Evaluation(LastOut(o, d, steps, ins), Union(Doings(o, d, steps, ins)))
  {
    StepsFrom(o, d, Sequence(steps), v, ins, 0, v);
    assert Doings(o, d, steps, ins)[0..] == Doings(o, d, steps, ins);
  }

  /** There is always such a pipeline. */
  lemma {:induction false} PipelineExists(o: Oracle, d: string -> Decision, parts: seq<Executable>, own: Value,
                                          so: seq<Value>)
    returns (ins: seq<Value>)
    requires Pipeline(o, d, parts, own, so)
    ensures Pipeline(o, d, parts, own, ins) && Ends(o, d, parts, ins)
    decreases |parts| - |so|
  {
    var last := LastOut(o, d, parts, so);
    if |so| == |parts| || last.None? {
      ins := so;
    } else {
      var more := so + [if last.value == Null then own else last.value];
      forall i | 0 <= i < |more| - 1 ensures Feeds(o, d, parts, own, more, i) {
        if i + 1 < |so| { assert Feeds(o, d, parts, own, so, i); }
      }
      ins := PipelineExists(o, d, parts, own, more);
    }
  }

  /** Without steps the input is the output. */
  lemma EmptySequence(o: Oracle, d: string -> Decision, v: Value)
    ensures Plain(o, d, Sequence([]), v) == Evaluation(Some(v), {})
  {
  }

  // ------------------------------------------------------------------ workflows

  function Works(nodes: seq<Node>): (works: seq<Executable>)
    ensures |works| == |nodes| && forall i :: 0 <= i < |nodes| ==> works[i] == nodes[i].work
  {
    seq(|nodes|, i requires 0 <= i < |nodes| => nodes[i].work)
  }

  /** The nodes that run are entered, do what they do, and are settled with their outputs. */
  function NodeDoings(o: Oracle, d: string -> Decision, name: string, nodes: seq<Node>, ins: seq<Value>): seq<set<Fact>>
    requires |ins| <= |nodes|
  {
    seq(|ins|, i requires 0 <= i < |ins| =>
      var (r, key) := (Plain(o, d, nodes[i].work, ins[i]), Key(name, nodes[i].id));
      r.facts + {Entered(key), Settled(key, r.out)})
  }

  lemma {:induction false} NodesFrom(o: Oracle, d: string -> Decision, e: Executable, own: Value, ins: seq<Value>,
                                     i: nat, current: Value)
    requires e.Workflow? && Pipeline(o, d, Works(e.nodes), own, ins) && Ends(o, d, Works(e.nodes), ins) && i < |ins|
    requires Give(current, own) == ins[i]
    ensures PlainNodes(o, d, e, i, own, current).out == LastOut(o, d, Works(e.nodes), ins)
    ensures PlainNodes(o, d, e, i, own, current).facts == Union(NodeDoings(o, d, e.name, e.nodes, ins)[i..])
    decreases |ins| - i
  {
    var (r, doings) := (Plain(o, d, e.nodes[i].work, ins[i]), NodeDoings(o, d, e.name, e.nodes, ins));
    assert doings[i..][0] == doings[i] && doings[i..][1..] == doings[i + 1..];
    NodesStep(o, d, e, own, i, current);
    if i + 1 < |ins| {
      assert Feeds(o, d, Works(e.nodes), own, ins, i);
      NodesFrom(o, d, e, own, ins, i + 1, r.out.value);
    } else {
      assert doings[i + 1..] == [];
      if r.out.Some? { assert PlainNodes(o, d, e, i + 1, own, r.out.value) == Evaluation(r.out, {}); }
    }
  }

  /** One node, and then the others if it returns. */
  lemma NodesStep(o: Oracle, d: string -> Decision, e: Executable, own: Value, i: nat, current: Value)
    requires e.Workflow? && i < |e.nodes|
    ensures var (r, key) := (Plain(o, d, e.nodes[i].work, Give(current, own)), Key(e.name, e.nodes[i].id));
      var facts := r.facts + {Entered(key), Settled(key, r.out)};
      PlainNodes(o, d, e, i, own, current) ==
        if r.out.None? then Evaluation(None, facts)
        else
          var rest := PlainNodes(o, d, e, i + 1, own, r.out.value);
          Evaluation(rest.out, facts + rest.facts)
  {
  }

  /** A workflow that compiles pipes its nodes, and each that runs is entered and settled with its output. */
  lemma {:induction false} WorkflowLaw(o: Oracle, d: string -> Decision, name: string, nodes: seq<Node>, v: Value,
                                       ins: seq<Value>)
    requires Compiles(nodes) && Pipeline(o, d, Works(nodes), v, ins) && Ends(o, d, Works(nodes), ins)
    ensures var e := Workflow(name, nodes);
      Plain(o, d, e, v) == Evaluation(LastOut(o, d, Works(nodes), ins),
                                      Union(NodeDoings(o, d, name, nodes, ins)) + {Defined(name, Sign(e))})
  {
    NodesFrom(o, d, Workflow(name, nodes), v, ins, 0, v);
    assert NodeDoings(o, d, name, nodes, ins)[0..] == NodeDoings(o, d, name, nodes, ins);
  }

  /** Without nodes, or with an id used twice, it is stuck. */
  lemma BadWorkflow(o: Oracle, d: string -> Decision, name: string, nodes: seq<Node>, v: Value)
    requires nodes == [] || exists i, j :: 0 <= i < j < |nodes| && nodes[i].id == nodes[j].id
    ensures Plain(o, d, Workflow(name, nodes), v) == Evaluation(None, {})
  {
  }

  // ------------------------------------------------------------------ loops

  function Copies(body: Executable, n: nat): (r: seq<Executable>)
    ensures |r| == n && forall i :: 0 <= i < n ==> r[i] == body
  {
    seq(n, _ => body)
  }

  /** `until` is satisfied after turn `i`. */
  predicate Satisfied(o: Oracle, d: string -> Decision, name: string, body: Executable, x: Value) {
    var out := Plain(o, d, body, x).out;
    out.Some? && o.until(name, out.value)
  }

  /** The turns a loop takes: a pipeline of its body, until `until` says so, it is stuck, or there were `n`. */
  ghost predicate TurnsTaken(o: Oracle, d: string -> Decision, name: string, body: Executable, n: nat, own: Value,
                             ins: seq<Value>) {
    && Pipeline(o, d, Copies(body, n), own, ins)
    && (forall i :: 0 <= i < |ins| - 1 ==> !Satisfied(o, d, name, body, ins[i]))
    && (Ends(o, d, Copies(body, n), ins) || Satisfied(o, d, name, body, ins[|ins| - 1]))
  }

  lemma {:induction false} TurnsFrom(o: Oracle, d: string -> Decision, e: Executable, own: Value, ins: seq<Value>,
                                     i: nat, current: Value)
    requires e.Loop? && TurnsTaken(o, d, e.name, e.body, e.maxIterations, own, ins) && i < |ins|
    requires Give(current, own) == ins[i]
    ensures var bodies := Copies(e.body, e.maxIterations);
      PlainLoop(o, d, e, e.maxIterations - i, own, current)
      == Evaluation(LastOut(o, d, bodies, ins), Union(Doings(o, d, bodies, ins)[i..]))
    decreases |ins| - i
  {
    var bodies := Copies(e.body, e.maxIterations);
    var (r, doings) := (Plain(o, d, e.body, ins[i]), Doings(o, d, bodies, ins));
    assert doings[i..][0] == r.facts && doings[i..][1..] == doings[i + 1..];
    if i + 1 < |ins| {
      assert Feeds(o, d, bodies, own, ins, i) && !Satisfied(o, d, e.name, e.body, ins[i]);
      TurnsFrom(o, d, e, own, ins, i + 1, r.out.value);
    } else {
      assert doings[i + 1..] == [];
      if r.out.Some? && !o.until(e.name, r.out.value) {
        assert PlainLoop(o, d, e, 0, own, r.out.value) == Evaluation(r.out, {});
      }
    }
  }

  /** A loop returns what its last turn returns and does what its turns do. */
  lemma {:induction false} LoopLaw(o: Oracle, d: string -> Decision, name: string, body: Executable, n: nat, v: Value,
                                   ins: seq<Value>)
    requires TurnsTaken(o, d, name, body, n, v, ins)
    ensures Plain(o, d, Loop(name, body, n), v)
         == Evaluation(LastOut(o, d, Copies(body, n), ins), Union(Doings(o, d, Copies(body, n), ins)))
  {
    TurnsFrom(o, d, Loop(name, body, n), v, ins, 0, v);
    assert Doings(o, d, Copies(body, n), ins)[0..] == Doings(o, d, Copies(body, n), ins);
  }

  /** Any beginning goes on to such turns. */
  lemma {:induction false} TurnsExist(o: Oracle, d: string -> Decision, name: string, body: Executable, n: nat,
                                      own: Value, so: seq<Value>)
    returns (ins: seq<Value>)
    requires Pipeline(o, d, Copies(body, n), own, so)
    requires forall i :: 0 <= i < |so| - 1 ==> !Satisfied(o, d, name, body, so[i])
    ensures TurnsTaken(o, d, name, body, n, own, ins)
    decreases n - |so|
  {
    var bodies := Copies(body, n);
    var last := LastOut(o, d, bodies, so);
    if |so| == n || last.None? || Satisfied(o, d, name, body, so[|so| - 1]) {
      ins := so;
    } else {
      var more := so + [if last.value == Null then own else last.value];
      forall i | 0 <= i < |more| - 1 ensures Feeds(o, d, bodies, own, more, i) {
        if i + 1 < |so| { assert Feeds(o, d, bodies, own, so, i); }
      }
      ins := TurnsExist(o, d, name, body, n, own, more);
    }
  }

  /** Without turns the input is the output. */
  lemma EmptyLoop(o: Oracle, d: string -> Decision, name: string, body: Executable, v: Value)
    ensures Plain(o, d, Loop(name, body, 0), v) == Evaluation(Some(v), {})
  {
  }

  // ------------------------------------------------------------------ parallel nodes

  /** The outputs of branches on one input; null stands for a stuck one. */
  function Outputs(o: Oracle, d: string -> Decision, branches: seq<Executable>, v: Value): seq<Value> {
    seq(|branches|, k requires 0 <= k < |branches| => Plain(o, d, branches[k], v).out.GetOr(Null))
  }

  function BranchDoings(o: Oracle, d: string -> Decision, branches: seq<Executable>, v: Value): seq<set<Fact>> {
    seq(|branches|, k requires 0 <= k < |branches| => Plain(o, d, branches[k], v).facts)
  }

  predicate AllReturn(o: Oracle, d: string -> Decision, branches: seq<Executable>, v: Value) {
    forall k :: 0 <= k < |branches| ==> Plain(o, d, branches[k], v).out.Some?
  }

  lemma {:induction false} BranchesFrom(o: Oracle, d: string -> Decision, e: Executable, i: nat, v: Value,
                                        outs: seq<Value>)
    requires e.Parallel? && i <= |e.branches| && outs == Outputs(o, d, e.branches, v)[..i]
    ensures var r := PlainBranches(o, d, e, i, v, outs);
      && (r.out.Some? <==> AllReturn(o, d, e.branches[i..], v))
      && (r.out.Some? ==> r.out.value == o.merge(e.name, Outputs(o, d, e.branches, v)))
      && r.facts == Union(BranchDoings(o, d, e.branches, v)[i..])
    decreases |e.branches| - i
  {
    var (all, doings) := (Outputs(o, d, e.branches, v), BranchDoings(o, d, e.branches, v));
    if i == |e.branches| {
      assert all[..i] == all && doings[i..] == [];
    } else {
      var r := Plain(o, d, e.branches[i], v);
      assert outs + [r.out.GetOr(Null)] == all[..i + 1];
      BranchesFrom(o, d, e, i + 1, v, all[..i + 1]);
      assert doings[i..][0] == r.facts && doings[i..][1..] == doings[i + 1..];
      OneBranchMore(o, d, e.branches, v, i);
    }
  }

  lemma OneBranchMore(o: Oracle, d: string -> Decision, branches: seq<Executable>, v: Value, i: nat)
    requires i < |branches|
    ensures AllReturn(o, d, branches[i..], v)
       <==> Plain(o, d, branches[i], v).out.Some? && AllReturn(o, d, branches[i + 1..], v)
  {
    assert branches[i..] == [branches[i]] + branches[i + 1..];
  }

  /** A parallel node has an output exactly if every branch has one on the node's own input, and it is their
      merge; all branches do what they do. */
  lemma {:induction false} ParallelLaw(o: Oracle, d: string -> Decision, name: string, branches: seq<Executable>,
                                       v: Value)
    ensures var r := Plain(o, d, Parallel(name, branches), v);
      && r.out == (if AllReturn(o, d, branches, v) then Some(o.merge(name, Outputs(o, d, branches, v))) else None)
      && r.facts == Union(BranchDoings(o, d, branches, v))
  {
    assert Outputs(o, d, branches, v)[..0] == [] && branches[0..] == branches;
    BranchesFrom(o, d, Parallel(name, branches), 0, v, []);
    assert BranchDoings(o, d, branches, v)[0..] == BranchDoings(o, d, branches, v);
  }

  // ------------------------------------------------------------------ routers, gates, tasks

  lemma {:induction false} FirstRoute(routes: seq<Route>, default: Option<Executable>, key: string, i: nat)
    requires i < |routes| && routes[i].key == key && forall j :: 0 <= j < i ==> routes[j].key != key
    ensures Lookup(routes, default, key) == Some(routes[i].target)
  {
    if i > 0 { FirstRoute(routes[1..], default, key, i - 1); }
  }

  lemma {:induction false} NoRoute(routes: seq<Route>, default: Option<Executable>, key: string)
    requires forall i :: 0 <= i < |routes| ==> routes[i].key != key
    ensures Lookup(routes, default, key) == default
  {
    if routes != [] { NoRoute(routes[1..], default, key); }
  }

  /** A router whose condition gives the key of a route is that route's target, on the router's own input, in the
      fold and in an attempt that nothing disturbs. */
  lemma {:induction false} RouterTakesRoute(o: Oracle, d: string -> Decision, name: string, routes: seq<Route>,
                                            default: Option<Executable>, v: Value, w: World, i: nat)
    requires i < |routes| && routes[i].key == o.choose(name, v)
    requires forall j :: 0 <= j < i ==> routes[j].key != o.choose(name, v)
    ensures Plain(o, d, Router(name, routes, default), v) == Plain(o, d, routes[i].target, v)
    ensures w.fates == [] ==> Run(o, Router(name, routes, default), v, w) == Run(o, routes[i].target, v, w)
  {
    FirstRoute(routes, default, o.choose(name, v), i);
  }

  /** An unknown key leads to the default; without one the router is stuck, and an attempt fails. */
  lemma {:induction false} RouterDefaults(o: Oracle, d: string -> Decision, name: string, routes: seq<Route>,
                                          default: Option<Executable>, v: Value, w: World)
    requires forall j :: 0 <= j < |routes| ==> routes[j].key != o.choose(name, v)
    ensures default.Some? ==> Plain(o, d, Router(name, routes, default), v) == Plain(o, d, default.value, v)
    ensures default.None? ==> Plain(o, d, Router(name, routes, default), v) == Evaluation(None, {})
    ensures w.fates == [] && default.Some? ==>
      Run(o, Router(name, routes, default), v, w) == Run(o, default.value, v, w)
    ensures w.fates == [] && default.None? ==>
      Run(o, Router(name, routes, default), v, w) == (Errored(UnknownRoute), w)
  {
    NoRoute(routes, default, o.choose(name, v));
  }

  /** A gate lets its input through, or its action's output, exactly if it is approved, or rejected and told to
      skip; otherwise it is stuck and its action does nothing. */
  lemma {:induction false} GateLaw(o: Oracle, d: string -> Decision, name: string, id: string,
                                   action: Option<Executable>, onReject: OnReject, v: Value)
    ensures var r := Plain(o, d, Approval(name, id, action, onReject), v);
      && (d(id) == Approved && action.Some? ==>
            r.out == Plain(o, d, action.value, v).out && r.facts == Plain(o, d, action.value, v).facts + {Opened(id)})
      && (d(id) == Approved && action.None? ==> r == Evaluation(Some(v), {}))
      && (d(id) == Rejected ==> r == Evaluation(if onReject.Skip? then Some(v) else None, {}))
      && (d(id) == Pending ==> r == Evaluation(None, {}))
  {
  }

  /** A task returns its work on its input, and that is all it does. */
  lemma TaskLaw(o: Oracle, d: string -> Decision, name: string, v: Value)
    ensures Plain(o, d, Task(name), v) == Evaluation(Some(o.work(name, v)), {Performed(name, v)})
  {
  }
}
