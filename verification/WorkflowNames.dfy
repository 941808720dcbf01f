/** The condition on workflow names under which the name-based state keys are safe, and what goes
    wrong without it. */
module WorkflowNames {
  import opened Types
  import opened Wrappers
  import opened Workflows
  import opened DurableExecution
  import opened PlainEquivalence

  /** Every workflow name is used once, except on different routes, and never under a loop. */
  predicate Tidy(e: Executable) {
    match e
    case Task(_) => true
    case Sequence(steps) =>
      && (forall i :: 0 <= i < |steps| ==> Tidy(steps[i]))
      && (forall i, j :: 0 <= i < j < |steps| ==> Flows(steps[i]) !! Flows(steps[j]))
    case Parallel(_, branches) =>
      && (forall i :: 0 <= i < |branches| ==> Tidy(branches[i]))
      && (forall i, j :: 0 <= i < j < |branches| ==> Flows(branches[i]) !! Flows(branches[j]))
    case Router(_, routes, default) =>
      && (forall i :: 0 <= i < |routes| ==> Tidy(routes[i].target))
      && (default.Some? ==> Tidy(default.value))
    case Loop(_, body, _) => Flows(body) == {}
    case Approval(_, _, action, _) => action.Some? ==> Tidy(action.value)
    case Workflow(name, nodes) =>
      && (forall i :: 0 <= i < |nodes| ==> Tidy(nodes[i].work) && name !in Flows(nodes[i].work))
      && (forall i, j :: 0 <= i < j < |nodes| ==> Flows(nodes[i].work) !! Flows(nodes[j].work))
  }

  function FlowOf(f: Fact): Option<string> {
    match f
    case Entered(key) => Some(key.flow)
    case Settled(key, _) => Some(key.flow)
    case Defined(flow, _) => Some(flow)
    case _ => None
  }

  /** The fact names no workflow outside `flows`. */
  predicate Within(f: Fact, flows: set<string>) { FlowOf(f).Some? ==> FlowOf(f).value in flows }

  // ------------------------------------------------------------------ facts stay in their subtree

  lemma {:induction false} FactsWithin(o: Oracle, d: string -> Decision, e: Executable, v: Value, f: Fact)
    requires f in Plain(o, d, e, v).facts
    ensures Within(f, Flows(e))
    decreases e, 2, 0
  {
    match e
    case Task(_) =>
    case Sequence(steps) =>
      var j := StepsWithin(o, d, e, 0, v, v, f);
    case Parallel(_, _) =>
      var j := BranchesWithin(o, d, e, 0, v, [], f);
    case Router(name, routes, default) =>
      var target := Lookup(routes, default, o.choose(name, v));
      FactsWithin(o, d, target.value, v, f);
      assert Flows(target.value) <= Flows(e);
    case Loop(_, _, n) => LoopWithin(o, d, e, n, v, v, f);
    case Approval(_, id, action, _) =>
      if f != Opened(id) { FactsWithin(o, d, action.value, v, f); }
    case Workflow(name, nodes) =>
      if f != Defined(name, Sign(e)) { var j := NodesWithin(o, d, e, 0, v, v, f); }
  }

  lemma {:induction false} StepsWithin(o: Oracle, d: string -> Decision, e: Executable, i: nat, own: Value,
                                       current: Value, f: Fact)
    returns (j: nat)
    requires e.Sequence? && i <= |e.steps| && f in PlainSteps(o, d, e, i, own, current).facts
    ensures i <= j < |e.steps| && Within(f, Flows(e.steps[j]))
    decreases e, 1, |e.steps| - i
  {
    var r := Plain(o, d, e.steps[i], Give(current, own));
    if f in r.facts {
      FactsWithin(o, d, e.steps[i], Give(current, own), f);
      j := i;
    } else {
      j := StepsWithin(o, d, e, i + 1, own, r.out.value, f);
    }
  }

  lemma {:induction false} BranchesWithin(o: Oracle, d: string -> Decision, e: Executable, i: nat, own: Value,
                                          outs: seq<Value>, f: Fact)
    returns (j: nat)
    requires e.Parallel? && i <= |e.branches| && f in PlainBranches(o, d, e, i, own, outs).facts
    ensures i <= j < |e.branches| && Within(f, Flows(e.branches[j]))
    decreases e, 1, |e.branches| - i
  {
    var r := Plain(o, d, e.branches[i], own);
    if f in r.facts {
      FactsWithin(o, d, e.branches[i], own, f);
      j := i;
    } else {
      j := BranchesWithin(o, d, e, i + 1, own, outs + [r.out.GetOr(Null)], f);
    }
  }

  lemma {:induction false} LoopWithin(o: Oracle, d: string -> Decision, e: Executable, left: nat, own: Value,
                                      current: Value, f: Fact)
    requires e.Loop? && f in PlainLoop(o, d, e, left, own, current).facts
    ensures Within(f, Flows(e.body))
    decreases e, 1, left
  {
    var r := Plain(o, d, e.body, Give(current, own));
    if f in r.facts {
      FactsWithin(o, d, e.body, Give(current, own), f);
    } else {
      LoopWithin(o, d, e, left - 1, own, r.out.value, f);
    }
  }

  /** `f` is about node `j` of `e` itself, or inside its work. */
  predicate AboutNode(e: Executable, j: nat, f: Fact)
    requires e.Workflow? && j < |e.nodes|
  {
    || Within(f, Flows(e.nodes[j].work))
    || (f.Entered? && f.key == Key(e.name, e.nodes[j].id))
    || (f.Settled? && f.key == Key(e.name, e.nodes[j].id))
  }

  lemma {:induction false} NodesWithin(o: Oracle, d: string -> Decision, e: Executable, i: nat, own: Value,
                                       current: Value, f: Fact)
    returns (j: nat)
    requires e.Workflow? && i <= |e.nodes| && f in PlainNodes(o, d, e, i, own, current).facts
    ensures i <= j < |e.nodes| && AboutNode(e, j, f)
    decreases e, 1, |e.nodes| - i
  {
    var key := Key(e.name, e.nodes[i].id);
    var r := Plain(o, d, e.nodes[i].work, Give(current, own));
    if f in r.facts {
      FactsWithin(o, d, e.nodes[i].work, Give(current, own), f);
      j := i;
    } else if f == Entered(key) || f == Settled(key, r.out) {
      j := i;
    } else {
      j := NodesWithin(o, d, e, i + 1, own, r.out.value, f);
    }
  }

  // ------------------------------------------------------------------ tidy trees are consistent

  lemma ConsistentUnion(a: set<Fact>, b: set<Fact>)
    requires Consistent(a) && Consistent(b)
    requires forall x, y {:trigger Compatible(x, y)} :: x in a && y in b ==> Compatible(x, y)
    ensures Consistent(a + b)
  {
    forall x, y | x in a + b && y in a + b
      ensures Compatible(x, y)
    {
      if x in a && y in b { assert Compatible(x, y); }
      if x in b && y in a { assert Compatible(y, x); }
      if x in a && y in a { assert Compatible(x, y); }
      if x in b && y in b { assert Compatible(x, y); }
    }
  }

  lemma {:induction false} TidyConsistent(o: Oracle, d: string -> Decision, e: Executable, v: Value)
    requires Tidy(e)
    ensures Consistent(Plain(o, d, e, v).facts)
    decreases e, 2, 0
  {
    match e
    case Task(_) =>
    case Sequence(_) => TidySteps(o, d, e, 0, v, v);
    case Parallel(_, _) => TidyBranches(o, d, e, 0, v, []);
    case Router(name, routes, default) =>
      var target := Lookup(routes, default, o.choose(name, v));
      if target.Some? { TidyConsistent(o, d, target.value, v); }
    case Loop(_, _, n) =>
      forall x, y | x in PlainLoop(o, d, e, n, v, v).facts && y in PlainLoop(o, d, e, n, v, v).facts
        ensures Compatible(x, y)
      {
        LoopWithin(o, d, e, n, v, v, x);
      }
    case Approval(_, id, action, _) =>
      if d(id) == Approved && action.Some? {
        TidyConsistent(o, d, action.value, v);
        ConsistentUnion(Plain(o, d, action.value, v).facts, {Opened(id)});
      }
    case Workflow(name, nodes) =>
      if Compiles(nodes) {
        TidyNodes(o, d, e, 0, v, v);
        var facts := PlainNodes(o, d, e, 0, v, v).facts;
        forall x, y | x in facts && y in {Defined(name, Sign(e))}
          ensures Compatible(x, y)
        {
          var j := NodesWithin(o, d, e, 0, v, v, x);
        }
        ConsistentUnion(facts, {Defined(name, Sign(e))});
      }
  }

  lemma {:induction false} TidySteps(o: Oracle, d: string -> Decision, e: Executable, i: nat, own: Value,
                                     current: Value)
    requires e.Sequence? && Tidy(e) && i <= |e.steps|
    ensures Consistent(PlainSteps(o, d, e, i, own, current).facts)
    decreases e, 1, |e.steps| - i
  {
    if i < |e.steps| {
      var r := Plain(o, d, e.steps[i], Give(current, own));
      TidyConsistent(o, d, e.steps[i], Give(current, own));
      if r.out.Some? {
        TidySteps(o, d, e, i + 1, own, r.out.value);
        var rest := PlainSteps(o, d, e, i + 1, own, r.out.value).facts;
        forall x, y | x in r.facts && y in rest
          ensures Compatible(x, y)
        {
          FactsWithin(o, d, e.steps[i], Give(current, own), x);
          var j := StepsWithin(o, d, e, i + 1, own, r.out.value, y);
        }
        ConsistentUnion(r.facts, rest);
      }
    }
  }

  lemma {:induction false} TidyBranches(o: Oracle, d: string -> Decision, e: Executable, i: nat, own: Value,
                                        outs: seq<Value>)
    requires e.Parallel? && Tidy(e) && i <= |e.branches|
    ensures Consistent(PlainBranches(o, d, e, i, own, outs).facts)
    decreases e, 1, |e.branches| - i
  {
    if i < |e.branches| {
      var r := Plain(o, d, e.branches[i], own);
      var next := outs + [r.out.GetOr(Null)];
      TidyConsistent(o, d, e.branches[i], own);
      TidyBranches(o, d, e, i + 1, own, next);
      var rest := PlainBranches(o, d, e, i + 1, own, next).facts;
      forall x, y | x in r.facts && y in rest
        ensures Compatible(x, y)
      {
        FactsWithin(o, d, e.branches[i], own, x);
        var j := BranchesWithin(o, d, e, i + 1, own, next, y);
      }
      ConsistentUnion(r.facts, rest);
    }
  }

  lemma {:induction false} TidyNodes(o: Oracle, d: string -> Decision, e: Executable, i: nat, own: Value,
                                     current: Value)
    requires e.Workflow? && Tidy(e) && Compiles(e.nodes) && i <= |e.nodes|
    ensures Consistent(PlainNodes(o, d, e, i, own, current).facts)
    decreases e, 1, |e.nodes| - i
  {
    if i < |e.nodes| {
      var key := Key(e.name, e.nodes[i].id);
      var r := Plain(o, d, e.nodes[i].work, Give(current, own));
      var here := {Entered(key), Settled(key, r.out)};
      TidyConsistent(o, d, e.nodes[i].work, Give(current, own));
      forall x, y | x in r.facts && y in here
        ensures Compatible(x, y)
      {
        FactsWithin(o, d, e.nodes[i].work, Give(current, own), x);
      }
      ConsistentUnion(r.facts, here);
      if r.out.Some? {
        TidyNodes(o, d, e, i + 1, own, r.out.value);
        var rest := PlainNodes(o, d, e, i + 1, own, r.out.value).facts;
        forall x, y | x in r.facts + here && y in rest
          ensures Compatible(x, y)
        {
          var j := NodesWithin(o, d, e, i + 1, own, r.out.value, y);
          if x in r.facts { FactsWithin(o, d, e.nodes[i].work, Give(current, own), x); }
        }
        ConsistentUnion(r.facts + here, rest);
      }
    }
  }

  // ------------------------------------------------------------------ without the condition

  lemma NodeDone(o: Oracle, e: Executable, i: nat, own: Value, current: Value, w: World)
    requires e.Workflow? && i < |e.nodes| && RunNode(o, e, i, own, current, w).0.Done?
    ensures var (r, w1) := RunNode(o, e, i, own, current, w);
      var key := Key(e.name, e.nodes[i].id);
      key in w1.state.completed && w1.state.completed[key] == r.value
  {
    var key := Key(e.name, e.nodes[i].id);
    if key !in w.state.completed {
      var turn := RunFresh(o, e, i, Give(current, own), Tick(w));
      assert RunNode(o, e, i, own, current, w) == turn;
    }
  }

  lemma {:induction false} NodesDone(o: Oracle, e: Executable, i: nat, own: Value, current: Value, w: World)
    requires e.Workflow? && i < |e.nodes| && RunNodes(o, e, i, own, current, w).0.Done?
    ensures var (r, w1) := RunNodes(o, e, i, own, current, w);
      && (forall j :: i <= j < |e.nodes| ==> Key(e.name, e.nodes[j].id) in w1.state.completed)
      && w1.state.completed[Key(e.name, e.nodes[|e.nodes| - 1].id)] == r.value
    decreases |e.nodes| - i
  {
    var (r, w1) := RunNode(o, e, i, own, current, w);
    NodeDone(o, e, i, own, current, w);
    if i + 1 < |e.nodes| {
      NodesDone(o, e, i + 1, own, r.value, w1);
      RunNodesExtends(Flows(e), o, e, i + 1, own, r.value, w1);
    }
  }

  lemma {:induction false} NodesReplay(o: Oracle, e: Executable, i: nat, own: Value, current: Value, w: World)
    requires e.Workflow? && i <= |e.nodes| && w.fates == []
    requires forall j :: i <= j < |e.nodes| ==> Key(e.name, e.nodes[j].id) in w.state.completed
    ensures RunNodes(o, e, i, own, current, w)
         == (Done(if i == |e.nodes| then current else w.state.completed[Key(e.name, e.nodes[|e.nodes| - 1].id)]), w)
    decreases |e.nodes| - i
  {
    if i < |e.nodes| {
      NodesReplay(o, e, i + 1, own, w.state.completed[Key(e.name, e.nodes[i].id)], w);
    }
  }

  /** A workflow that has finished once answers every later execution over the same dictionary with
      its recorded output: it runs nothing and ignores its input. */
  lemma FinishedWorkflowReplays(o: Oracle, e: Executable, v: Value, w: World, v2: Value)
    requires e.Workflow? && Run(o, e, v, w).0.Done? && Run(o, e, v, w).1.fates == []
    ensures Run(o, e, v2, Run(o, e, v, w).1) == Run(o, e, v, w)
  {
    var w1 := Register(w, e.name, e);
    var (r, w2) := RunNodes(o, e, 0, v, Restored(w1.state, e.name, v), w1);
    NodesDone(o, e, 0, v, Restored(w1.state, e.name, v), w1);
    RunNodesExtends(Flows(e), o, e, 0, v, Restored(w1.state, e.name, v), w1);
    assert w2.state.hashes[e.name] == Sign(e) && Register(w2, e.name, e) == w2;
    NodesReplay(o, e, 0, v2, Restored(w2.state, e.name, v2), w2);
  }

  /** A workflow used twice in a row is not executed the second time. */
  lemma TwiceUsedReplays(o: Oracle, f: Executable, v: Value, w: World)
    requires f.Workflow? && w.fates == [] && Run(o, f, Give(v, v), w).0.Done? && Run(o, f, Give(v, v), w).1.fates == []
    ensures Run(o, Sequence([f, f]), v, w) == Run(o, f, Give(v, v), w)
  {
    var e := Sequence([f, f]);
    var (r, w1) := Run(o, f, Give(v, v), w);
    FinishedWorkflowReplays(o, f, Give(v, v), w, Give(r.value, v));
    assert RunSteps(o, e, 2, v, r.value, w1) == (r, w1);
    assert RunSteps(o, e, 1, v, r.value, w1) == RunSteps(o, e, 2, v, r.value, w1);
  }

  /** And another workflow of the same name is refused. */
  lemma SameNameRefused(o: Oracle, f: Executable, g: Executable, v: Value, w: World, v2: Value)
    requires f.Workflow? && g.Workflow? && f.name == g.name && Sign(f) != Sign(g) && Compiles(g.nodes)
    requires Run(o, f, v, w).0.Done?
    ensures Run(o, g, v2, Run(o, f, v, w).1).0 == Errored(Incompatible)
  {
    var w1 := Register(w, f.name, f);
    RunNodesExtends(Flows(f), o, f, 0, v, Restored(w1.state, f.name, v), w1);
  }

  /** So a loop around a workflow returns the first turn's output however often it turns, with no
      crash involved: the condition `Tidy` puts on loops cannot be dropped. */
  lemma {:induction false} LoopedWorkflowFreezes(o: Oracle, e: Executable, left: nat, own: Value, current: Value,
                                                 w: World)
    requires e.Loop? && e.body.Workflow? && left > 0 && w.fates == []
    requires var first := Run(o, e.body, Give(current, own), w); first.0.Done? && first.1.fates == []
    ensures RunLoop(o, e, left, own, current, w) == Run(o, e.body, Give(current, own), w)
    decreases left
  {
    var (r, w1) := Run(o, e.body, Give(current, own), w);
    if left > 1 && !o.until(e.name, r.value) {
      FinishedWorkflowReplays(o, e.body, Give(current, own), w, Give(r.value, own));
      LoopedWorkflowFreezes(o, e, left - 1, own, r.value, w1);
    }
  }

  /** The smallest instance: two turns over one task, where the fold would apply that twice. */
  lemma LoopedWorkflowDiffers(o: Oracle, d: string -> Decision, v: Value)
    requires v != Null && o.work("t", v) != Null && !o.until("l", o.work("t", v))
    ensures var e := Loop("l", Workflow("w", [Node("n", Task("t"))]), 2);
      && Plain(o, d, e, v).out == Some(o.work("t", o.work("t", v)))
      && Run(o, e, v, World(FRESH, [], [], [])).0 == Done(o.work("t", v))
  {
    var flow, w := Workflow("w", [Node("n", Task("t"))]), World(FRESH, [], [], []);
    var e, x := Loop("l", flow, 2), o.work("t", v);
    PlainOne(o, d, flow, v);
    PlainOne(o, d, flow, x);
    assert PlainLoop(o, d, e, 1, v, x).out == Some(o.work("t", x));
    OneTurn(o, flow, v, w);
    LoopedWorkflowFreezes(o, e, 2, v, v, w);
  }

  lemma PlainOne(o: Oracle, d: string -> Decision, flow: Executable, v: Value)
    requires flow == Workflow("w", [Node("n", Task("t"))]) && v != Null
    ensures Plain(o, d, flow, v).out == Some(o.work("t", v))
  {
    assert PlainNodes(o, d, flow, 1, v, o.work("t", v)).out == Some(o.work("t", v));
  }

  lemma OneTurn(o: Oracle, flow: Executable, v: Value, w: World)
    requires flow == Workflow("w", [Node("n", Task("t"))]) && v != Null && w == World(FRESH, [], [], [])
    ensures Run(o, flow, v, w).0 == Done(o.work("t", v)) && Run(o, flow, v, w).1.fates == []
  {
    var w1 := Register(w, "w", flow);
    assert Restored(w1.state, "w", v) == v;
    var (r, w2) := RunNode(o, flow, 0, v, v, w1);
    assert r == Done(o.work("t", v)) && w2.fates == [];
    assert RunNodes(o, flow, 1, v, r.value, w2) == (r, w2);
  }
}
