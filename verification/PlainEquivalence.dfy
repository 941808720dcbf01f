/** An attempt, however it is cut short and whatever it was restored from, does only what the
    uninterrupted fold does, and ends with the fold's own result when it ends. */
module PlainEquivalence {
  import opened Types
  import opened Wrappers
  import opened Workflows
  import opened DurableExecution

  /** Not two results of one node, nor two definitions of one workflow name. */
  predicate Compatible(x: Fact, y: Fact) {
    && (x.Settled? && y.Settled? && x.key == y.key ==> x == y)
    && (x.Defined? && y.Defined? && x.flow == y.flow ==> x == y)
  }

  ghost predicate Consistent(facts: set<Fact>) {
    forall x, y {:trigger Compatible(x, y)} :: x in facts && y in facts ==> Compatible(x, y)
  }

  /** The dictionary holds only results of the fold, and only decisions that `d` takes. The first
      node of a workflow is there as soon as any node is. */
  ghost predicate Sound(s: State, d: string -> Decision, facts: set<Fact>) {
    && (forall k :: k in s.completed ==> Settled(k, Some(s.completed[k])) in facts)
    && (forall f :: f in s.hashes ==>
          Defined(f, s.hashes[f]) in facts && s.hashes[f].WorkflowMark? && s.hashes[f].ids != [])
    && (forall k :: k in s.completed ==>
          k.flow in s.hashes && s.hashes[k.flow].WorkflowMark? && s.hashes[k.flow].ids != []
          && Key(k.flow, s.hashes[k.flow].ids[0]) in s.completed)
    && (forall id :: Entry(s, id) != Pending ==> Entry(s, id) == d(id))
  }

  predicate Foreseen(ev: Event, facts: set<Fact>) {
    match ev
    case Ran(task, input, _) => Performed(task, input) in facts
    case Began(key, _) => Entered(key) in facts
    case Acted(id, _) => Opened(id) in facts
  }

  ghost predicate SoundWorld(w: World, d: string -> Decision, facts: set<Fact>) {
    && Sound(w.state, d, facts)
    && (forall i :: 0 <= i < |w.log| ==> Sound(w.log[i].state, d, facts))
    && (forall m :: 0 <= m < |w.trace| ==> Foreseen(w.trace[m], facts))
  }

  /** The outcome of an attempt that started in `w` and ended in `w'`, against the fold's `out`. */
  ghost predicate Agrees(d: string -> Decision, r: Outcome, out: Option<Value>, w: World, w': World) {
    match r
    case Done(x) => out == Some(x)
    case Crashed => w.fates != []
    case Paused(id) => id in w'.state.ledger && Entry(w'.state, id) == Pending && (d(id) == Pending ==> out.None?)
    case Errored(error) =>
      match error
      case Fault(_) => w.fates != []
      case Incompatible => false
      case BranchFailed => w.fates != [] || out.None? || exists id :: Entry(w'.state, id) == Pending && d(id) != Pending
      case _ => out.None?
  }

  ghost predicate Faithful(d: string -> Decision, facts: set<Fact>, p: Evaluation, w: World, result: (Outcome, World)) {
    && SoundWorld(result.1, d, facts)
    && Agrees(d, result.0, p.out, w, result.1)
    && (w.fates == [] ==> result.1.fates == [])
  }

  lemma TickSound(w: World, d: string -> Decision, facts: set<Fact>)
    requires SoundWorld(w, d, facts)
    ensures SoundWorld(Tick(w), d, facts)
  {
  }

  lemma SaveSound(w: World, reason: Reason, d: string -> Decision, facts: set<Fact>)
    requires SoundWorld(w, d, facts)
    ensures SoundWorld(Save(w, reason), d, facts)
  {
  }

  lemma EmitSound(w: World, ev: Event, d: string -> Decision, facts: set<Fact>)
    requires SoundWorld(w, d, facts) && Foreseen(ev, facts)
    ensures SoundWorld(Emit(w, ev), d, facts)
  {
  }

  lemma RegisterSound(w: World, e: Executable, d: string -> Decision, facts: set<Fact>)
    requires SoundWorld(w, d, facts) && e.Workflow? && e.nodes != []
    requires Consistent(facts) && Defined(e.name, Sign(e)) in facts
    ensures SoundWorld(Register(w, e.name, e), d, facts)
    ensures e.name in w.state.hashes ==> w.state.hashes[e.name] == Sign(e)
  {
    if e.name in w.state.hashes {
      assert Compatible(Defined(e.name, w.state.hashes[e.name]), Defined(e.name, Sign(e)));
    }
  }

  lemma {:induction false} RunSound(o: Oracle, d: string -> Decision, facts: set<Fact>, e: Executable, v: Value,
                                    w: World)
    requires Consistent(facts) && SoundWorld(w, d, facts) && Plain(o, d, e, v).facts <= facts
    ensures Faithful(d, facts, Plain(o, d, e, v), w, Run(o, e, v, w))
    decreases e, 2, 0
  {
    match e
    case Task(name) =>
      TickSound(w, d, facts);
      EmitSound(Tick(w), Ran(name, v, |w.log|), d, facts);
      TickSound(Emit(Tick(w), Ran(name, v, |w.log|)), d, facts);
    case Sequence(_) => RunStepsSound(o, d, facts, e, 0, v, v, w);
    case Parallel(_, _) =>
      TickSound(w, d, facts);
      if Next(w) == Proceed { RunBranchesSound(o, d, facts, e, 0, v, [], Tick(w)); }
    case Router(name, routes, default) =>
      TickSound(w, d, facts);
      var target := Lookup(routes, default, o.choose(name, v));
      if target.Some? && Next(w) == Proceed {
        RunSound(o, d, facts, target.value, v, Tick(w));
      }
    case Loop(_, _, n) => RunLoopSound(o, d, facts, e, n, v, v, w);
    case Approval(_, _, _, _) => ApprovalSound(o, d, facts, e, v, w);
    case Workflow(name, nodes) =>
      if Compiles(nodes) {
        assert Defined(name, Sign(e)) in Plain(o, d, e, v).facts;
        RegisterSound(w, e, d, facts);
        var w1 := Register(w, name, e);
        RunNodesSound(o, d, facts, e, 0, v, Restored(w1.state, name, v), v, w1);
      }
  }

  lemma {:induction false} ApprovalSound(o: Oracle, d: string -> Decision, facts: set<Fact>, e: Executable, v: Value,
                                         w: World)
    requires e.Approval? && Consistent(facts) && SoundWorld(w, d, facts) && Plain(o, d, e, v).facts <= facts
    ensures Faithful(d, facts, Plain(o, d, e, v), w, Run(o, e, v, w))
    decreases e, 0
  {
    TickSound(w, d, facts);
    StateSound(Tick(w), Ask(Tick(w), e.approvalId).state, d, facts);
    if Next(w) == Proceed && Entry(w.state, e.approvalId) == Approved {
      assert d(e.approvalId) == Approved;
      if e.action.Some? {
        assert Opened(e.approvalId) in Plain(o, d, e, v).facts;
        EmitSound(Tick(w), Acted(e.approvalId, |w.log|), d, facts);
        RunSound(o, d, facts, e.action.value, v, Emit(Tick(w), Acted(e.approvalId, |w.log|)));
      }
    }
  }

  lemma {:induction false} RunStepsSound(o: Oracle, d: string -> Decision, facts: set<Fact>,
                                         e: Executable, i: nat, own: Value, current: Value, w: World)
    requires e.Sequence? && i <= |e.steps|
    requires Consistent(facts) && SoundWorld(w, d, facts) && PlainSteps(o, d, e, i, own, current).facts <= facts
    ensures Faithful(d, facts, PlainSteps(o, d, e, i, own, current), w, RunSteps(o, e, i, own, current, w))
    decreases e, 1, |e.steps| - i
  {
    TickSound(w, d, facts);
    if i < |e.steps| && Next(w) == Proceed {
      RunSound(o, d, facts, e.steps[i], Give(current, own), Tick(w));
      var (r, w1) := Run(o, e.steps[i], Give(current, own), Tick(w));
      if r.Done? {
        RunStepsSound(o, d, facts, e, i + 1, own, r.value, w1);
      }
    }
  }

  lemma {:induction false} RunBranchesSound(o: Oracle, d: string -> Decision, facts: set<Fact>,
                                            e: Executable, i: nat, own: Value, outs: seq<Value>, w: World)
    requires e.Parallel? && i <= |e.branches|
    requires Consistent(facts) && SoundWorld(w, d, facts) && PlainBranches(o, d, e, i, own, outs).facts <= facts
    ensures Faithful(d, facts, PlainBranches(o, d, e, i, own, outs), w, RunBranches(o, e, i, own, outs, w))
    decreases e, 1, |e.branches| - i
  {
    if i < |e.branches| {
      RunSound(o, d, facts, e.branches[i], own, w);
      var (r, w1) := Run(o, e.branches[i], own, w);
      if r.Done? {
        RunBranchesSound(o, d, facts, e, i + 1, own, outs + [r.value], w1);
      }
    }
  }

  lemma {:induction false} RunLoopSound(o: Oracle, d: string -> Decision, facts: set<Fact>,
                                        e: Executable, left: nat, own: Value, current: Value, w: World)
    requires e.Loop?
    requires Consistent(facts) && SoundWorld(w, d, facts) && PlainLoop(o, d, e, left, own, current).facts <= facts
    ensures Faithful(d, facts, PlainLoop(o, d, e, left, own, current), w, RunLoop(o, e, left, own, current, w))
    decreases e, 1, left
  {
    TickSound(w, d, facts);
    if left > 0 && Next(w) == Proceed {
      RunSound(o, d, facts, e.body, Give(current, own), Tick(w));
      var (r, w1) := Run(o, e.body, Give(current, own), Tick(w));
      if r.Done? && !o.until(e.name, r.value) {
        RunLoopSound(o, d, facts, e, left - 1, own, r.value, w1);
      }
    }
  }

  /** `w` is inside the node loop of workflow `e`, about to look at node `i`. */
  ghost predicate InLoop(e: Executable, i: nat, w: World) {
    && e.Workflow? && i <= |e.nodes| && e.nodes != []
    && e.name in w.state.hashes && w.state.hashes[e.name] == Sign(e)
    && (i > 0 ==> Key(e.name, e.nodes[0].id) in w.state.completed)
  }

  /** The running value differs from the fold's only when the first node is already completed, which
      is how `lastOutput` comes in; the skip then replaces it. */
  lemma {:induction false} RunNodesSound(o: Oracle, d: string -> Decision, facts: set<Fact>,
                                         e: Executable, i: nat, own: Value, current: Value, plain: Value, w: World)
    requires InLoop(e, i, w)
    requires current == plain || (i == 0 && Key(e.name, e.nodes[0].id) in w.state.completed)
    requires Consistent(facts) && SoundWorld(w, d, facts) && PlainNodes(o, d, e, i, own, plain).facts <= facts
    ensures Faithful(d, facts, PlainNodes(o, d, e, i, own, plain), w, RunNodes(o, e, i, own, current, w))
    decreases e, 1, |e.nodes| - i
  {
    TickSound(w, d, facts);
    if i < |e.nodes| {
      var (key, p) := (Key(e.name, e.nodes[i].id), Plain(o, d, e.nodes[i].work, Give(plain, own)));
      NodeFacts(o, d, e, i, own, plain);
      RunNodeSound(o, d, facts, p, e, i, own, current, w);
      var (r, w1) := RunNode(o, e, i, own, current, w);
      if r.Done? {
        RunNodesSound(o, d, facts, e, i + 1, own, r.value, r.value, w1);
      }
    }
  }

  lemma NodeFacts(o: Oracle, d: string -> Decision, e: Executable, i: nat, own: Value, plain: Value)
    requires e.Workflow? && i < |e.nodes|
    ensures var (key, p) := (Key(e.name, e.nodes[i].id), Plain(o, d, e.nodes[i].work, Give(plain, own)));
      {Entered(key), Settled(key, p.out)} + p.facts <= PlainNodes(o, d, e, i, own, plain).facts
  {
  }

  lemma {:induction false} RunNodeSound(o: Oracle, d: string -> Decision, facts: set<Fact>, p: Evaluation,
                                        e: Executable, i: nat, own: Value, current: Value, w: World)
    requires InLoop(e, i, w) && i < |e.nodes|
    requires var key := Key(e.name, e.nodes[i].id);
      && Entered(key) in facts && Settled(key, p.out) in facts && p.facts <= facts
      && (key !in w.state.completed ==> p == Plain(o, d, e.nodes[i].work, Give(current, own)))
    requires Consistent(facts) && SoundWorld(w, d, facts)
    ensures Faithful(d, facts, p, w, RunNode(o, e, i, own, current, w))
    ensures RunNode(o, e, i, own, current, w).0.Done? ==> InLoop(e, i + 1, RunNode(o, e, i, own, current, w).1)
    decreases e, 0, 1
  {
    var key, w1 := Key(e.name, e.nodes[i].id), Tick(w);
    TickSound(w, d, facts);
    if key in w.state.completed {
      assert Compatible(Settled(key, p.out), Settled(key, Some(w.state.completed[key])));
      assert InLoop(e, i + 1, w1);
    } else if Next(w) == Proceed {
      RunFreshSound(o, d, facts, p, e, i, Give(current, own), w1);
    }
  }

  lemma {:induction false} RunFreshSound(o: Oracle, d: string -> Decision, facts: set<Fact>, p: Evaluation,
                                         e: Executable, i: nat, input: Value, w: World)
    requires InLoop(e, i, w) && i < |e.nodes| && p == Plain(o, d, e.nodes[i].work, input)
    requires var key := Key(e.name, e.nodes[i].id);
      Entered(key) in facts && Settled(key, p.out) in facts && p.facts <= facts
    requires Consistent(facts) && SoundWorld(w, d, facts)
    ensures Faithful(d, facts, p, w, RunFresh(o, e, i, input, w))
    ensures RunFresh(o, e, i, input, w).0.Done? ==> InLoop(e, i + 1, RunFresh(o, e, i, input, w).1)
    decreases e, 0, 0
  {
    var key := Key(e.name, e.nodes[i].id);
    EnterSound(d, facts, e, i, w);
    RunSound(o, d, facts, e.nodes[i].work, input, Enter(w, key));
    StillInLoop(o, e, i, input, Enter(w, key));
    var (r, w1) := Run(o, e.nodes[i].work, input, Enter(w, key));
    if r.Done? { ConcludeSound(d, facts, e, i, w1, r.value); }
  }

  lemma EnterSound(d: string -> Decision, facts: set<Fact>, e: Executable, i: nat, w: World)
    requires InLoop(e, i, w) && i < |e.nodes| && SoundWorld(w, d, facts)
    requires Entered(Key(e.name, e.nodes[i].id)) in facts
    ensures SoundWorld(Enter(w, Key(e.name, e.nodes[i].id)), d, facts)
  {
    var key := Key(e.name, e.nodes[i].id);
    SaveSound(w, BeforeNode(key), d, facts);
    EmitSound(Save(w, BeforeNode(key)), Began(key, |w.log| + 1), d, facts);
  }

  lemma StillInLoop(o: Oracle, e: Executable, i: nat, input: Value, w: World)
    requires InLoop(e, i, w) && i < |e.nodes|
    ensures InLoop(e, i, Run(o, e.nodes[i].work, input, w).1)
  {
    RunExtends(Flows(e.nodes[i].work), o, e.nodes[i].work, input, w);
  }

  lemma ConcludeSound(d: string -> Decision, facts: set<Fact>, e: Executable, i: nat, w: World, x: Value)
    requires InLoop(e, i, w) && i < |e.nodes| && SoundWorld(w, d, facts)
    requires Settled(Key(e.name, e.nodes[i].id), Some(x)) in facts
    ensures var (r, w1) := Conclude(w, Key(e.name, e.nodes[i].id), x);
      && SoundWorld(w1, d, facts)
      && (r.Done? ==> r.value == x && InLoop(e, i + 1, w1))
  {
    var key := Key(e.name, e.nodes[i].id);
    var recorded := Record(w, key, x);
    RecordSound(d, facts, e, i, w.state, x);
    StateSound(w, recorded.state, d, facts);
    TickSound(recorded, d, facts);
    SaveSound(Tick(recorded), AfterNode(key), d, facts);
  }

  lemma StateSound(w: World, s: State, d: string -> Decision, facts: set<Fact>)
    requires SoundWorld(w, d, facts) && Sound(s, d, facts)
    ensures SoundWorld(w.(state := s), d, facts)
  {
  }

  lemma RecordSound(d: string -> Decision, facts: set<Fact>, e: Executable, i: nat, s: State, x: Value)
    requires InLoop(e, i, World(s, [], [], [])) && i < |e.nodes| && Sound(s, d, facts)
    requires Settled(Key(e.name, e.nodes[i].id), Some(x)) in facts
    ensures Sound(Record(World(s, [], [], []), Key(e.name, e.nodes[i].id), x).state, d, facts)
  {
    var key, t := Key(e.name, e.nodes[i].id), Record(World(s, [], [], []), Key(e.name, e.nodes[i].id), x).state;
    forall k | k in t.completed
      ensures k.flow in t.hashes && t.hashes[k.flow].WorkflowMark? && t.hashes[k.flow].ids != []
        && Key(k.flow, t.hashes[k.flow].ids[0]) in t.completed
    {
      if k != key { assert k in s.completed; }
    }
    forall id ensures Entry(t, id) == Entry(s, id) { }
  }
}
