/** Gates under parallel nodes. A pending gate pauses its execution only if no parallel node stands
    between it and the root: through a parallel node its exception arrives in a group, and the execution
    fails, with nothing left to decide. */
module ParallelGates {
  import opened Types
  import opened Wrappers
  import opened Workflows
  import opened WorkflowNames
  import opened Runtime
  import opened RuntimeHistory

  // ------------------------------------------------------------------ where an attempt stops

  /** `x` is executed directly by `e`. */
  predicate ChildOf(x: Executable, e: Executable) {
    match e
    case Task(_) => false
    case Sequence(steps) => x in steps
    case Parallel(_, branches) => x in branches
    case Router(_, routes, default) => default == Some(x) || exists i :: 0 <= i < |routes| && routes[i].target == x
    case Loop(_, body, _) => x == body
    case Approval(_, _, action, _) => action == Some(x)
    case Workflow(_, nodes) => exists i :: 0 <= i < |nodes| && nodes[i].work == x
  }

  /** The executables an attempt is inside of when it stops, outermost first; none if it finishes. */
  function Path(o: Oracle, e: Executable, v: Value, w: World): seq<Executable>
    decreases e, 2, 0
  {
    if Run(o, e, v, w).0.Done? then []
    else
      [e] + (match e
             case Task(_) => []
             case Sequence(_) => StepsPath(o, e, 0, v, v, w)
             case Parallel(_, _) => BranchesPath(o, e, 0, v, [], Tick(w))
             case Router(name, routes, default) =>
               var target := Lookup(routes, default, o.choose(name, v));
               if target.None? then [] else Path(o, target.value, v, Tick(w))
             case Loop(_, _, n) => TurnsPath(o, e, n, v, v, w)
             case Approval(_, id, action, _) =>
               if Entry(w.state, id) == Approved && action.Some? then
                 Path(o, action.value, v, Emit(Tick(w), Acted(id, |w.log|)))
               else []
             case Workflow(name, nodes) =>
               if !Compiles(nodes) || (name in w.state.hashes && w.state.hashes[name] != Sign(e)) then []
               else
                 var w1 := Register(w, name, e);
                 NodesPath(o, e, 0, v, Restored(w1.state, name, v), w1))
  }

  function StepsPath(o: Oracle, e: Executable, i: nat, own: Value, current: Value, w: World): seq<Executable>
    requires e.Sequence? && i <= |e.steps|
    decreases e, 1, |e.steps| - i
  {
    if i == |e.steps| then []
    else
      var (r, w1) := Run(o, e.steps[i], Give(current, own), Tick(w));
      if !r.Done? then Path(o, e.steps[i], Give(current, own), Tick(w)) else StepsPath(o, e, i + 1, own, r.value, w1)
  }

  function BranchesPath(o: Oracle, e: Executable, i: nat, own: Value, outs: seq<Value>, w: World): seq<Executable>
    requires e.Parallel? && i <= |e.branches|
    decreases e, 1, |e.branches| - i
  {
    if i == |e.branches| then []
    else
      var (r, w1) := Run(o, e.branches[i], own, w);
      if !r.Done? then Path(o, e.branches[i], own, w) else BranchesPath(o, e, i + 1, own, outs + [r.value], w1)
  }

  function TurnsPath(o: Oracle, e: Executable, left: nat, own: Value, current: Value, w: World): seq<Executable>
    requires e.Loop?
    decreases e, 1, left
  {
    if left == 0 then []
    else
      var (r, w1) := Run(o, e.body, Give(current, own), Tick(w));
      if !r.Done? then Path(o, e.body, Give(current, own), Tick(w))
      else if o.until(e.name, r.value) then [] else TurnsPath(o, e, left - 1, own, r.value, w1)
  }

  function NodesPath(o: Oracle, e: Executable, i: nat, own: Value, current: Value, w: World): seq<Executable>
    requires e.Workflow? && i <= |e.nodes|
    decreases e, 1, |e.nodes| - i
  {
    if i == |e.nodes| then []
    else
      var (r, w1) := RunNode(o, e, i, own, current, w);
      if r.Done? then NodesPath(o, e, i + 1, own, r.value, w1)
      else Path(o, e.nodes[i].work, Give(current, own), Enter(Tick(w), Key(e.name, e.nodes[i].id)))
  }

  predicate Linked(p: seq<Executable>) { forall i :: 0 <= i < |p| - 1 ==> ChildOf(p[i + 1], p[i]) }

  predicate ThroughParallel(p: seq<Executable>) { exists i :: 0 <= i < |p| && p[i].Parallel? }

  /** What an attempt reports that stops at `e` itself, with the dictionary `s`. */
  predicate StopsAt(e: Executable, r: Outcome, s: State) {
    match e
    case Approval(_, id, _, onReject) =>
      (match Entry(s, id)
       case Pending => r == Paused(id)
       case Rejected => onReject == Fail && r == Errored(RejectedGate(id))
       case Approved => false)
    case Router(_, _, _) => r == Errored(UnknownRoute)
    case Workflow(_, _) => r == Errored(NotCompiled) || r == Errored(Incompatible)
    case _ => false
  }

  /** `p` is the way to where the attempt stopped, and explains its outcome `r`; `own` is what was raised
      there. */
  ghost predicate Explains(p: seq<Executable>, e: Executable, own: Outcome, r: Outcome, s: State) {
    && p != [] && p[0] == e && Linked(p) && StopsAt(p[|p| - 1], own, s)
    && r == if ThroughParallel(p) then Errored(BranchFailed) else own
  }

  function Wrapped(e: Executable, r: Outcome): Outcome { if e.Parallel? then Errored(BranchFailed) else r }

  /** The path of a child explains the outcome of its parent, which passes it on or, being parallel,
      wraps it. */
  lemma Outward(e: Executable, p: seq<Executable>, own: Outcome, r: Outcome, s: State)
    requires p != [] && ChildOf(p[0], e) && Explains(p, p[0], own, r, s)
    ensures Explains([e] + p, e, own, Wrapped(e, r), s)
  {
    var q := [e] + p;
    forall i | 0 <= i < |q| - 1 ensures ChildOf(q[i + 1], q[i]) {
      if i > 0 { assert ChildOf(p[i], p[i - 1]); }
    }
    if ThroughParallel(p) {
      var i :| 0 <= i < |p| && p[i].Parallel?;
      assert q[i + 1].Parallel?;
    }
    assert e.Parallel? ==> q[0].Parallel?;
    if i :| 0 <= i < |q| && q[i].Parallel? { assert i > 0 ==> p[i - 1].Parallel?; }
  }

  lemma Here(e: Executable, r: Outcome, s: State)
    requires !e.Parallel? && StopsAt(e, r, s)
    ensures Explains([e], e, r, r, s)
  {
  }

  // ------------------------------------------------------------------ every stop is explained

  /** An attempt that nothing disturbs stops only where its path says, for the reason found there. */
  lemma {:induction false} StopExplained(o: Oracle, e: Executable, v: Value, w: World) returns (own: Outcome)
    requires w.fates == []
    ensures Run(o, e, v, w).1.fates == []
    ensures !Run(o, e, v, w).0.Done? ==>
      Explains(Path(o, e, v, w), e, own, Run(o, e, v, w).0, Run(o, e, v, w).1.state)
    decreases e, 2, 0
  {
    var (r, w') := Run(o, e, v, w);
    own := r;
    match e
    case Task(_) =>
    case Sequence(_) =>
      own := StepStop(o, e, 0, v, v, w);
      if !r.Done? { Outward(e, StepsPath(o, e, 0, v, v, w), own, r, w'.state); }
    case Parallel(_, _) =>
      var inner;
      own, inner := BranchStop(o, e, 0, v, [], w);
      if !r.Done? { Outward(e, BranchesPath(o, e, 0, v, [], w), own, inner, w'.state); }
    case Router(name, routes, default) =>
      var target := Lookup(routes, default, o.choose(name, v));
      if target.None? {
        Here(e, r, w'.state);
      } else {
        own := StopExplained(o, target.value, v, w);
        if !r.Done? { Outward(e, Path(o, target.value, v, w), own, r, w'.state); }
      }
    case Loop(_, _, n) =>
      own := TurnStop(o, e, n, v, v, w);
      if !r.Done? { Outward(e, TurnsPath(o, e, n, v, v, w), own, r, w'.state); }
    case Approval(_, id, action, _) =>
      if Entry(w.state, id) == Approved && action.Some? {
        var w1 := Emit(w, Acted(id, |w.log|));
        own := StopExplained(o, action.value, v, w1);
        if !r.Done? { Outward(e, Path(o, action.value, v, w1), own, r, w'.state); }
      } else if !r.Done? {
        Here(e, r, w'.state);
      }
    case Workflow(name, nodes) =>
      if !Compiles(nodes) || (name in w.state.hashes && w.state.hashes[name] != Sign(e)) {
        Here(e, r, w'.state);
      } else {
        var w1 := Register(w, name, e);
        own := NodeStop(o, e, 0, v, Restored(w1.state, name, v), w1);
        if !r.Done? { Outward(e, NodesPath(o, e, 0, v, Restored(w1.state, name, v), w1), own, r, w'.state); }
      }
  }

  /** The path below `e` explains the outcome. */
  ghost predicate ChildExplains(p: seq<Executable>, e: Executable, own: Outcome, r: Outcome, s: State) {
    p != [] && ChildOf(p[0], e) && Explains(p, p[0], own, r, s)
  }

  lemma {:induction false} StepStop(o: Oracle, e: Executable, i: nat, own: Value, current: Value, w: World)
    returns (raised: Outcome)
    requires e.Sequence? && i <= |e.steps| && w.fates == []
    ensures var (r, w') := RunSteps(o, e, i, own, current, w);
      w'.fates == [] && (!r.Done? ==> ChildExplains(StepsPath(o, e, i, own, current, w), e, raised, r, w'.state))
    decreases e, 1, |e.steps| - i
  {
    raised := Crashed;
    if i < |e.steps| {
      raised := StopExplained(o, e.steps[i], Give(current, own), w);
      var (r, w1) := Run(o, e.steps[i], Give(current, own), w);
      if r.Done? { raised := StepStop(o, e, i + 1, own, r.value, w1); }
    }
  }

  /** `inner` is the outcome of the branch itself. */
  lemma {:induction false} BranchStop(o: Oracle, e: Executable, i: nat, own: Value, outs: seq<Value>, w: World)
    returns (raised: Outcome, inner: Outcome)
    requires e.Parallel? && i <= |e.branches| && w.fates == []
    ensures var (r, w') := RunBranches(o, e, i, own, outs, w);
      && w'.fates == []
      && (!r.Done? ==>
            r == Errored(BranchFailed)
            && ChildExplains(BranchesPath(o, e, i, own, outs, w), e, raised, inner, w'.state))
    decreases e, 1, |e.branches| - i
  {
    raised, inner := Crashed, Crashed;
    if i < |e.branches| {
      raised := StopExplained(o, e.branches[i], own, w);
      var (r, w1) := Run(o, e.branches[i], own, w);
      inner := r;
      if r.Done? { raised, inner := BranchStop(o, e, i + 1, own, outs + [r.value], w1); }
    }
  }

  lemma {:induction false} TurnStop(o: Oracle, e: Executable, left: nat, own: Value, current: Value, w: World)
    returns (raised: Outcome)
    requires e.Loop? && w.fates == []
    ensures var (r, w') := RunLoop(o, e, left, own, current, w);
      w'.fates == [] && (!r.Done? ==> ChildExplains(TurnsPath(o, e, left, own, current, w), e, raised, r, w'.state))
    decreases e, 1, left
  {
    raised := Crashed;
    if left > 0 {
      raised := StopExplained(o, e.body, Give(current, own), w);
      var (r, w1) := Run(o, e.body, Give(current, own), w);
      if r.Done? && !o.until(e.name, r.value) { raised := TurnStop(o, e, left - 1, own, r.value, w1); }
    }
  }

  lemma {:induction false} NodeStop(o: Oracle, e: Executable, i: nat, own: Value, current: Value, w: World)
    returns (raised: Outcome)
    requires e.Workflow? && i <= |e.nodes| && w.fates == []
    ensures var (r, w') := RunNodes(o, e, i, own, current, w);
      w'.fates == [] && (!r.Done? ==> ChildExplains(NodesPath(o, e, i, own, current, w), e, raised, r, w'.state))
    decreases e, 1, |e.nodes| - i
  {
    raised := Crashed;
    if i < |e.nodes| {
      raised := FreshStop(o, e, i, own, current, w);
      var (r, w1) := RunNode(o, e, i, own, current, w);
      if r.Done? { raised := NodeStop(o, e, i + 1, own, r.value, w1); }
    }
  }

  lemma {:induction false} FreshStop(o: Oracle, e: Executable, i: nat, own: Value, current: Value, w: World)
    returns (raised: Outcome)
    requires e.Workflow? && i < |e.nodes| && w.fates == []
    ensures var (r, w') := RunNode(o, e, i, own, current, w);
      && w'.fates == []
      && (!r.Done? ==> var inner := Enter(w, Key(e.name, e.nodes[i].id));
            ChildExplains(Path(o, e.nodes[i].work, Give(current, own), inner), e, raised, r, w'.state))
    decreases e, 0, 0
  {
    raised := Crashed;
    var key := Key(e.name, e.nodes[i].id);
    if key !in w.state.completed {
      raised := StopExplained(o, e.nodes[i].work, Give(current, own), Enter(w, key));
      assert ChildOf(e.nodes[i].work, e);
    }
  }

  // ------------------------------------------------------------------ what a pending gate does

  /** The attempt stops at a gate whose entry is pending. */
  ghost predicate AsksGate(o: Oracle, e: Executable, v: Value, w: World) {
    var p := Path(o, e, v, w);
    p != [] && p[|p| - 1].Approval? && Entry(Run(o, e, v, w).1.state, p[|p| - 1].approvalId) == Pending
  }

  /** A pending gate makes the execution wait exactly if no parallel node lies on the way to it. With one
      on the way the execution fails, and no entry can be decided. */
  lemma {:induction false} PendingGateWaitsIff(o: Oracle, e: Executable, input: Value, x: Execution, s: State)
    requires AsksGate(o, e, input, World(s, x.log, x.trace, []))
    ensures var (p, y) := (Path(o, e, input, World(s, x.log, x.trace, [])), Drive(o, e, input, x, s, []));
      && (y.status == WaitingForApproval <==> !ThroughParallel(p))
      && (y.status == Failed <==> ThroughParallel(p))
      && (ThroughParallel(p) ==> forall id, named :: !Decides(y, id, named))
  {
    var own := StopExplained(o, e, input, World(s, x.log, x.trace, []));
  }

  /** For instance, a gate as the first branch. */
  lemma {:induction false} GateInBranchFails(o: Oracle, name: string, gate: Executable, others: seq<Executable>,
                                             input: Value)
    requires gate.Approval?
    ensures var y := Drive(o, Parallel(name, [gate] + others), input, NEW, FRESH, []);
      y.status == Failed && forall id, named :: !Decides(y, id, named)
  {
    var e, w := Parallel(name, [gate] + others), World(FRESH, [], [], []);
    assert Entry(w.state, gate.approvalId) == Pending && Run(o, gate, input, w).0 == Paused(gate.approvalId);
    assert Path(o, gate, input, w) == [gate];
    assert Tick(w) == w && e.branches[0] == gate && BranchesPath(o, e, 0, input, [], w) == [gate];
    assert Run(o, e, input, w).0 == RunBranches(o, e, 0, input, [], w).0 == Errored(BranchFailed);
    assert Path(o, e, input, w) == [e] + [gate];
    assert ThroughParallel(Path(o, e, input, w)) by { assert ([e] + [gate])[0].Parallel?; }
    PendingGateWaitsIff(o, e, input, NEW, FRESH);
  }

  // ------------------------------------------------------------------ trees with all gates under parallel nodes

  /** Every gate is somewhere below a parallel node. */
  predicate Shielded(e: Executable) {
    match e
    case Task(_) => true
    case Sequence(steps) => forall i :: 0 <= i < |steps| ==> Shielded(steps[i])
    case Parallel(_, _) => true
    case Router(_, routes, default) =>
      && (forall i :: 0 <= i < |routes| ==> Shielded(routes[i].target))
      && (default.Some? ==> Shielded(default.value))
    case Loop(_, body, _) => Shielded(body)
    case Approval(_, _, _, _) => false
    case Workflow(_, nodes) => forall i :: 0 <= i < |nodes| ==> Shielded(nodes[i].work)
  }

  lemma {:induction false} ShieldedNeverPauses(o: Oracle, e: Executable, v: Value, w: World)
    requires Shielded(e)
    ensures !Run(o, e, v, w).0.Paused?
    decreases e, 2, 0
  {
    match e
    case Task(_) =>
    case Sequence(_) => StepsNeverPause(o, e, 0, v, v, w);
    case Parallel(_, _) => BranchesNeverPause(o, e, 0, v, [], Tick(w));
    case Router(name, routes, default) =>
      var target := Lookup(routes, default, o.choose(name, v));
      if target.Some? { ShieldedNeverPauses(o, target.value, v, Tick(w)); }
    case Loop(_, _, n) => TurnsNeverPause(o, e, n, v, v, w);
    case Approval(_, _, _, _) =>
    case Workflow(name, _) =>
      var w1 := Register(w, name, e);
      NodesNeverPause(o, e, 0, v, Restored(w1.state, name, v), w1);
  }

  lemma {:induction false} StepsNeverPause(o: Oracle, e: Executable, i: nat, own: Value, current: Value, w: World)
    requires e.Sequence? && Shielded(e) && i <= |e.steps|
    ensures !RunSteps(o, e, i, own, current, w).0.Paused?
    decreases e, 1, |e.steps| - i
  {
    if i < |e.steps| {
      ShieldedNeverPauses(o, e.steps[i], Give(current, own), Tick(w));
      var (r, w1) := Run(o, e.steps[i], Give(current, own), Tick(w));
      if r.Done? { StepsNeverPause(o, e, i + 1, own, r.value, w1); }
    }
  }

  lemma {:induction false} BranchesNeverPause(o: Oracle, e: Executable, i: nat, own: Value, outs: seq<Value>, w: World)
    requires e.Parallel? && i <= |e.branches|
    ensures !RunBranches(o, e, i, own, outs, w).0.Paused?
    decreases e, 1, |e.branches| - i
  {
    if i < |e.branches| {
      var (r, w1) := Run(o, e.branches[i], own, w);
      if r.Done? { BranchesNeverPause(o, e, i + 1, own, outs + [r.value], w1); }
    }
  }

  lemma {:induction false} TurnsNeverPause(o: Oracle, e: Executable, left: nat, own: Value, current: Value, w: World)
    requires e.Loop? && Shielded(e)
    ensures !RunLoop(o, e, left, own, current, w).0.Paused?
    decreases e, 1, left
  {
    if left > 0 {
      ShieldedNeverPauses(o, e.body, Give(current, own), Tick(w));
      var (r, w1) := Run(o, e.body, Give(current, own), Tick(w));
      if r.Done? { TurnsNeverPause(o, e, left - 1, own, r.value, w1); }
    }
  }

  lemma {:induction false} NodesNeverPause(o: Oracle, e: Executable, i: nat, own: Value, current: Value, w: World)
    requires e.Workflow? && Shielded(e) && i <= |e.nodes|
    ensures !RunNodes(o, e, i, own, current, w).0.Paused?
    decreases e, 1, |e.nodes| - i
  {
    if i < |e.nodes| {
      var (r, w1) := RunNode(o, e, i, own, current, w);
      ShieldedNeverPauses(o, e.nodes[i].work, Give(current, own), Enter(Tick(w), Key(e.name, e.nodes[i].id)));
      assert !RunFresh(o, e, i, Give(current, own), Tick(w)).0.Paused?;
      if r.Done? { NodesNeverPause(o, e, i + 1, own, r.value, w1); }
    }
  }

  const UNDECIDED: string -> Decision := _ => Pending

  /** Nothing in any history makes such a tree wait, so no decision ever takes effect. */
  lemma {:induction false} ShieldedNeverWaits(o: Oracle, root: Executable, input: Value, fates: seq<Fate>, ops: seq<Op>)
    requires Runnable(root) && Unambiguous(root, ops) && Shielded(root)
    ensures After(o, root, input, fates, ops).status != WaitingForApproval
    ensures DecidedAs(o, root, input, fates, ops, UNDECIDED)
  {
    if ops == [] {
      ShieldedNeverPauses(o, root, input, World(FRESH, [], [], fates));
    } else {
      var x := After(o, root, input, fates, ops[..|ops| - 1]);
      ShieldedNeverWaits(o, root, input, fates, ops[..|ops| - 1]);
      match ops[|ops| - 1]
      case ResumeWith(target, f) =>
        if Resumes(x, target) {
          StampKept(o, root, input, fates, ops[..|ops| - 1]);
          ShieldedNeverPauses(o, root, input, World(Latest(x), x.log, x.trace, f));
        }
      case DecideOn(_, _, _) =>
      case Cancel =>
    }
  }

  /** And if a gate stands in the way of the uninterrupted run, the execution never completes: whatever
      is resumed, decided or cancelled, nobody can ever approve. */
  lemma {:induction false} ShieldedGateNeverCompletes(o: Oracle, root: Executable, input: Value, fates: seq<Fate>,
                                                      ops: seq<Op>)
    requires Runnable(root) && Tidy(root) && Unambiguous(root, ops) && Shielded(root)
    requires Plain(o, UNDECIDED, root, input).out.None?
    ensures var x := After(o, root, input, fates, ops);
      x.status != Completed && x.status != WaitingForApproval && forall id, named :: !Decides(x, id, named)
  {
    ShieldedNeverWaits(o, root, input, fates, ops);
    ResumedEqualsUninterrupted(o, root, UNDECIDED, input, fates, ops);
  }
}
