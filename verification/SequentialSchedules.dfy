/** One branch after another is one of the interleavings: what an attempt with one permit does, some schedule does. */
module SequentialSchedules {
  import opened Types
  import opened Wrappers
  import opened Workflows
  import opened Interleaving
  import opened InterleavingEquivalence
  import opened InterleavingHistory
  import opened Disturbances
  import opened PausedBranches
  import opened Schedules

  /** How an attempt ends that stops with `r`. */
  function EndingOf(r: Outcome): Ending {
    match r
    case Paused(_) => Pausing
    case Errored(error) => Failing(error)
    case _ => Finished
  }

  /** Some schedule leads to a coroutine that has stopped with `r`, and leaves the world the same. */
  ghost predicate StopsWith(o: Oracle, c: Config, w: World, r: Outcome, w1: World) {
    exists c1 :: Leads(o, true, c, w, c1, w1) && Stops(c1, w1.state) == Some(EndingOf(r))
  }

  /** Some schedule returns what `r` returns, or stops as `r` stops. */
  ghost predicate Follows(o: Oracle, c: Config, w: World, r: Outcome, w1: World) {
    match r
    case Done(x) => Leads(o, true, c, w, Returned(x), w1)
    case Crashed => false
    case _ => StopsWith(o, c, w, r, w1)
  }

  lemma FollowsThen(o: Oracle, c: Config, w: World, c0: Config, w0: World, r: Outcome, w1: World)
    requires Leads(o, true, c, w, c0, w0) && Follows(o, c0, w0, r, w1)
    ensures Follows(o, c, w, r, w1)
  {
    if r.Done? {
      LeadsThen(o, true, c, w, c0, w0, Returned(r.value), w1);
    } else {
      var c1 :| Leads(o, true, c0, w0, c1, w1) && Stops(c1, w1.state) == Some(EndingOf(r));
      LeadsThen(o, true, c, w, c0, w0, c1, w1);
    }
  }

  /** One move, and then the rest. */
  lemma FollowsOn(o: Oracle, c: Config, w: World, r: Outcome, w1: World)
    requires Shaped(c) && !c.Returned?
    requires var (c0, w0) := Move(o, true, c, w, []); Follows(o, c0, w0, r, w1)
    ensures Follows(o, c, w, r, w1)
  {
    var (c0, w0) := Move(o, true, c, w, []);
    LeadsOne(o, true, c, w, []);
    FollowsThen(o, c, w, c0, w0, r, w1);
  }

  /** A frame stops as what runs in it. */
  lemma FollowsInner(o: Oracle, c: Config, w: World, r: Outcome, w1: World)
    requires Shaped(c) && Framed(c) && !r.Done? && Follows(o, c.inner, w, r, w1)
    ensures Follows(o, c, w, r, w1)
  {
    var x :| Leads(o, true, c.inner, w, x, w1) && Stops(x, w1.state) == Some(EndingOf(r));
    LeadsInner(o, true, c, w, x, w1);
    assert Stops(Refill(c, x), w1.state) == Stops(x, w1.state);
  }

  lemma NoFates(o: Oracle, e: Executable, v: Value, w: World)
    requires w.fates == []
    ensures Run(o, e, v, w).1.fates == []
  {
    RunPasses(o, e, v, w, false);
    var (r, w1) := Run(o, e, v, w);
    PassedInOrder(w.fates, r, w1.fates, false);
  }

  /** Every attempt that nothing disturbs, over every tree and from every dictionary, is an interleaving: some schedule
      returns its output or stops as it stops, with its dictionary, its checkpoints and its events. */
  lemma {:induction false} RunIsASchedule(o: Oracle, e: Executable, v: Value, w: World)
    requires w.fates == []
    ensures var (r, w1) := Run(o, e, v, w); Follows(o, Start(e, v), w, r, w1)
    decreases e, 2, 0
  {
    var (r, w1) := Run(o, e, v, w);
    match e
    case Task(name) =>
      TaskFollows(o, e, v, w);
    case Sequence(_) =>
      StepsFollow(o, e, 0, v, v, w);
      FollowsOn(o, Start(e, v), w, r, w1);
    case Parallel(_, _) =>
      BranchesFollow(o, e, 0, v, [], Fork(e, v).inners, w);
      FollowsOn(o, Start(e, v), w, r, w1);
    case Router(name, routes, default) =>
      var target := Lookup(routes, default, o.choose(name, v));
      if target.Some? { RunIsASchedule(o, target.value, v, w); } else { StaysPut(o, Halted(e, v), w, r); }
      FollowsOn(o, Start(e, v), w, r, w1);
    case Loop(_, _, n) =>
      TurnsFollow(o, e, n, v, v, w);
      FollowsOn(o, Start(e, v), w, r, w1);
    case Approval(_, _, _, _) =>
      GateFollows(o, e, v, w);
    case Workflow(name, nodes) =>
      if Compiles(nodes) && !(name in w.state.hashes && w.state.hashes[name] != Sign(e)) {
        var w2 := Register(w, name, e);
        NodesFollow(o, e, 0, v, Restored(w2.state, name, v), w2);
      } else {
        StaysPut(o, Halted(e, v), w, r);
      }
      FollowsOn(o, Start(e, v), w, r, w1);
  }

  /** A coroutine that has stopped. */
  lemma StaysPut(o: Oracle, c: Config, w: World, r: Outcome)
    requires Shaped(c) && !r.Done? && !r.Crashed? && Stops(c, w.state) == Some(EndingOf(r))
    ensures Follows(o, c, w, r, w)
  {
    LeadsNowhere(o, true, c, w);
  }

  lemma TaskFollows(o: Oracle, e: Executable, v: Value, w: World)
    requires w.fates == [] && e.Task?
    ensures var (r, w1) := Run(o, e, v, w); Follows(o, Start(e, v), w, r, w1)
  {
    var (r, w1) := Run(o, e, v, w);
    LeadsNowhere(o, true, Returned(r.value), w1);
    FollowsOn(o, Performing(e.name, v), w1, r, w1);
    FollowsOn(o, Start(e, v), w, r, w1);
  }

  lemma {:induction false} GateFollows(o: Oracle, e: Executable, v: Value, w: World)
    requires w.fates == [] && e.Approval?
    ensures var (r, w1) := Run(o, e, v, w); Follows(o, Start(e, v), w, r, w1)
    decreases e, 1, 0
  {
    var (r, w1) := Run(o, e, v, w);
    if Entry(w.state, e.approvalId) == Approved && e.action.Some? {
      RunIsASchedule(o, e.action.value, v, Emit(w, Acted(e.approvalId, |w.log|)));
    } else if r.Done? {
      LeadsNowhere(o, true, Returned(v), w1);
    } else {
      StaysPut(o, Halted(e, v), w1, r);
    }
    FollowsOn(o, Start(e, v), w, r, w1);
  }

  lemma {:induction false} StepsFollow(o: Oracle, e: Executable, i: nat, own: Value, current: Value, w: World)
    requires w.fates == [] && e.Sequence? && i <= |e.steps|
    ensures var (r, w1) := RunSteps(o, e, i, own, current, w); Follows(o, StepsFrom(e, i, own, current), w, r, w1)
    decreases e, 1, |e.steps| - i
  {
    var (c, (r, w1)) := (StepsFrom(e, i, own, current), RunSteps(o, e, i, own, current, w));
    if i == |e.steps| {
      LeadsNowhere(o, true, c, w);
    } else {
      var (x, w2) := Run(o, e.steps[i], Give(current, own), w);
      RunIsASchedule(o, e.steps[i], Give(current, own), w);
      NoFates(o, e.steps[i], Give(current, own), w);
      if x.Done? {
        LeadsInner(o, true, c, w, Returned(x.value), w2);
        StepsFollow(o, e, i + 1, own, x.value, w2);
        FollowsOn(o, Refill(c, Returned(x.value)), w2, r, w1);
        FollowsThen(o, c, w, Refill(c, Returned(x.value)), w2, r, w1);
      } else {
        FollowsInner(o, c, w, x, w2);
      }
    }
  }

  lemma {:induction false} TurnsFollow(o: Oracle, e: Executable, left: nat, own: Value, current: Value, w: World)
    requires w.fates == [] && e.Loop?
    ensures var (r, w1) := RunLoop(o, e, left, own, current, w); Follows(o, TurnsFrom(e, left, own, current), w, r, w1)
    decreases e, 1, left
  {
    var (c, (r, w1)) := (TurnsFrom(e, left, own, current), RunLoop(o, e, left, own, current, w));
    if left == 0 {
      LeadsNowhere(o, true, c, w);
    } else {
      var (x, w2) := Run(o, e.body, Give(current, own), w);
      RunIsASchedule(o, e.body, Give(current, own), w);
      NoFates(o, e.body, Give(current, own), w);
      if x.Done? {
        LeadsInner(o, true, c, w, Returned(x.value), w2);
        if !o.until(e.name, x.value) { TurnsFollow(o, e, left - 1, own, x.value, w2); }
        TurnOver(o, e, left - 1, own, x.value, w2, r, w1);
        FollowsThen(o, c, w, Refill(c, Returned(x.value)), w2, r, w1);
      } else {
        FollowsInner(o, c, w, x, w2);
      }
    }
  }

  /** The body has returned `x`. */
  lemma TurnOver(o: Oracle, e: Executable, left: nat, own: Value, x: Value, w: World, r: Outcome, w1: World)
    requires e.Loop?
    requires if o.until(e.name, x) then (r, w1) == (Done(x), w) else Follows(o, TurnsFrom(e, left, own, x), w, r, w1)
    ensures Follows(o, InTurns(e, left, own, Returned(x)), w, r, w1)
  {
    if o.until(e.name, x) { LeadsNowhere(o, true, Returned(x), w); }
    FollowsOn(o, InTurns(e, left, own, Returned(x)), w, r, w1);
  }

  /** The first `i` branches have returned `outs`, the others have not started. */
  predicate Forked(e: Executable, i: nat, own: Value, outs: seq<Value>, inners: seq<Config>)
    requires e.Parallel?
  {
    && i <= |e.branches| == |inners| && |outs| == i
    && (forall k :: 0 <= k < i ==> inners[k] == Returned(outs[k]))
    && forall k :: i <= k < |inners| ==> inners[k] == Start(e.branches[k], own)
  }

  lemma {:induction false} BranchesFollow(o: Oracle, e: Executable, i: nat, own: Value, outs: seq<Value>,
                                          inners: seq<Config>, w: World)
    requires w.fates == [] && e.Parallel? && Forked(e, i, own, outs, inners)
    ensures var (r, w1) := RunBranches(o, e, i, own, outs, w); Follows(o, InBranches(e, own, inners), w, r, w1)
    decreases e, 1, |e.branches| - i
  {
    var (c, (r, w1)) := (InBranches(e, own, inners), RunBranches(o, e, i, own, outs, w));
    if i == |e.branches| {
      assert Results(inners) == outs;
      LeadsNowhere(o, true, Returned(r.value), w);
      FollowsOn(o, c, w, r, w1);
    } else {
      var (x, w2) := Run(o, e.branches[i], own, w);
      RunIsASchedule(o, e.branches[i], own, w);
      NoFates(o, e.branches[i], own, w);
      if x.Done? {
        LeadsBranch(o, true, c, w, i, Returned(x.value), w2);
        BranchesFollow(o, e, i + 1, own, outs + [x.value], inners[i := Returned(x.value)], w2);
        FollowsThen(o, c, w, WithBranch(c, i, Returned(x.value)), w2, r, w1);
      } else {
        BranchStops(o, c, w, i, x, w2);
      }
    }
  }

  /** A branch that stops fails its parallel node. */
  lemma BranchStops(o: Oracle, c: Config, w: World, i: nat, x: Outcome, w1: World)
    requires Shaped(c) && c.InBranches? && i < |c.inners| && !x.Done? && Follows(o, c.inners[i], w, x, w1)
    ensures Follows(o, c, w, Errored(BranchFailed), w1)
  {
    var y :| Leads(o, true, c.inners[i], w, y, w1) && Stops(y, w1.state) == Some(EndingOf(x));
    LeadsBranch(o, true, c, w, i, y, w1);
    var stopped := WithBranch(c, i, y);
    assert stopped.inners[i] == y && Stops(stopped.inners[i], w1.state).Some?;
    assert Stops(stopped, w1.state) == Some(Failing(BranchFailed));
  }

  /** The node loop when nothing disturbs it. */
  lemma NodesUndisturbed(o: Oracle, e: Executable, i: nat, own: Value, current: Value, w: World)
    requires w.fates == [] && e.Workflow? && i < |e.nodes|
    ensures var key := KeyOf(e, i);
      RunNodes(o, e, i, own, current, w) ==
      if key in w.state.completed then RunNodes(o, e, i + 1, own, w.state.completed[key], w)
      else
        var (x, w2) := Run(o, e.nodes[i].work, Give(current, own), Enter(w, key));
        if x.Done? then RunNodes(o, e, i + 1, own, x.value, Save(Record(w2, key, x.value), AfterNode(key))) else (x, w2)
  {
    var key := KeyOf(e, i);
    if key !in w.state.completed {
      NoFates(o, e.nodes[i].work, Give(current, own), Enter(w, key));
      assert RunNode(o, e, i, own, current, w) == RunFresh(o, e, i, Give(current, own), w);
    }
  }

  lemma {:induction false} NodesFollow(o: Oracle, e: Executable, i: nat, own: Value, current: Value, w: World)
    requires w.fates == [] && e.Workflow? && i <= |e.nodes|
    ensures var (r, w1) := RunNodes(o, e, i, own, current, w); Follows(o, AtNode(e, i, own, current), w, r, w1)
    decreases e, 1, |e.nodes| - i
  {
    var (c, (r, w1)) := (AtNode(e, i, own, current), RunNodes(o, e, i, own, current, w));
    if i == |e.nodes| {
      LeadsNowhere(o, true, Returned(current), w);
      FollowsOn(o, c, w, r, w1);
      return;
    }
    NodesUndisturbed(o, e, i, own, current, w);
    if KeyOf(e, i) in w.state.completed {
      NodesFollow(o, e, i + 1, own, w.state.completed[KeyOf(e, i)], w);
      FollowsOn(o, c, w, r, w1);
    } else {
      var (x, w2) := Run(o, e.nodes[i].work, Give(current, own), Enter(w, KeyOf(e, i)));
      NodeFollows(o, e, i, own, current, w);
      NoFates(o, e.nodes[i].work, Give(current, own), Enter(w, KeyOf(e, i)));
      if x.Done? {
        var w3 := Save(Record(w2, KeyOf(e, i), x.value), AfterNode(KeyOf(e, i)));
        NodesFollow(o, e, i + 1, own, x.value, w3);
        FollowsThen(o, c, w, AtNode(e, i + 1, own, x.value), w3, r, w1);
      }
    }
  }

  /** Into a node, through its work, and out of it. */
  lemma {:induction false} NodeFollows(o: Oracle, e: Executable, i: nat, own: Value, current: Value, w: World)
    requires w.fates == [] && e.Workflow? && i < |e.nodes| && KeyOf(e, i) !in w.state.completed
    ensures var (key, c) := (KeyOf(e, i), AtNode(e, i, own, current));
      var (x, w2) := Run(o, e.nodes[i].work, Give(current, own), Enter(w, key));
      if x.Done?
      then Leads(o, true, c, w, AtNode(e, i + 1, own, x.value), Save(Record(w2, key, x.value), AfterNode(key)))
      else Follows(o, c, w, x, w2)
    decreases e, 0, 0
  {
    var (key, c) := (KeyOf(e, i), AtNode(e, i, own, current));
    var inside := InNode(e, i, own, Start(e.nodes[i].work, Give(current, own)));
    var (x, w2) := Run(o, e.nodes[i].work, Give(current, own), Enter(w, key));
    LeadsNowhere(o, true, c, w);
    LeadsOn(o, true, c, w, c, w, []);
    LeadsOn(o, true, c, w, Entering(e, i, own, current), Save(w, BeforeNode(key)), []);
    RunIsASchedule(o, e.nodes[i].work, Give(current, own), Enter(w, key));
    if x.Done? {
      LeadsInner(o, true, inside, Enter(w, key), Returned(x.value), w2);
      LeadsThen(o, true, c, w, inside, Enter(w, key), Refill(inside, Returned(x.value)), w2);
      LeadsOn(o, true, c, w, Refill(inside, Returned(x.value)), w2, []);
      LeadsOn(o, true, c, w, Recorded(e, i, own, x.value), Record(w2, key, x.value), []);
    } else {
      FollowsInner(o, inside, Enter(w, key), x, w2);
      FollowsThen(o, c, w, inside, Enter(w, key), x, w2);
    }
  }
}
