/** What an attempt leaves behind for the next one: nothing is completed without having been announced, begun
    and stored with its output, and an attempt from nothing does everything the fold does. */
module Durability {
  import opened Types
  import opened Wrappers
  import opened Workflows
  import opened DurableExecution
  import opened PlainEquivalence
  import opened WorkflowNames

  // ------------------------------------------------------------------ every completed node is stored

  /** The node has an output that it did not have. */
  predicate Changed(w: World, w': World, key: Key) {
    key in w'.state.completed && (key !in w.state.completed || w.state.completed[key] != w'.state.completed[key])
  }

  /** Its `after_node` checkpoint is among the new ones, and holds the output. */
  ghost predicate Persisted(w: World, w': World, key: Key)
    requires key in w'.state.completed
  {
    exists i :: |w.log| <= i < |w'.log| && w'.log[i].reason == AfterNode(key)
      && key in w'.log[i].state.completed && w'.log[i].state.completed[key] == w'.state.completed[key]
  }

  /** It has begun. */
  ghost predicate Begun(w: World, w': World, key: Key) {
    exists m :: |w.trace| <= m < |w'.trace| && w'.trace[m].Began? && w'.trace[m].key == key
  }

  /** A node begins right after its `before_node` checkpoint. */
  predicate Announced(w: World, w': World, ev: Event) {
    ev.Began? ==> |w.log| < ev.at <= |w'.log| && w'.log[ev.at - 1].reason == BeforeNode(ev.key)
  }

  /** From `w` to `w'`, with outcome `r`: at most one node, in an attempt that is stopped, has its output in the
      dictionary alone. */
  ghost predicate Durable(w: World, r: Outcome, w': World) {
    && w.log <= w'.log && w.trace <= w'.trace
    && (forall m :: |w.trace| <= m < |w'.trace| ==> Announced(w, w', w'.trace[m]))
    && (forall key :: Changed(w, w', key) ==> Begun(w, w', key))
    && (exists lost: Option<Key> :: (r.Done? ==> lost.None?) && StoredBut(w, w', lost))
  }

  ghost predicate StoredBut(w: World, w': World, lost: Option<Key>) {
    forall key :: Changed(w, w', key) && lost != Some(key) ==> Persisted(w, w', key)
  }

  /** Nothing about nodes happens. */
  predicate Quiet(w: World, w': World) {
    && w'.log == w.log && w'.state.completed == w.state.completed && w.trace <= w'.trace
    && forall m :: |w.trace| <= m < |w'.trace| ==> !w'.trace[m].Began?
  }

  lemma QuietDurable(w: World, r: Outcome, w': World)
    requires Quiet(w, w')
    ensures Durable(w, r, w')
  {
    assert StoredBut(w, w', None);
  }

  lemma StoredThrough(a: World, b: World, c: World, lost: Option<Key>)
    requires a.log <= b.log <= c.log && StoredBut(a, b, None) && StoredBut(b, c, lost)
    requires forall key :: key in b.state.completed ==> key in c.state.completed
    ensures StoredBut(a, c, lost)
  {
    forall key | Changed(a, c, key) && lost != Some(key) ensures Persisted(a, c, key) {
      if Changed(b, c, key) {
        var i :| |b.log| <= i < |c.log| && c.log[i].reason == AfterNode(key)
          && key in c.log[i].state.completed && c.log[i].state.completed[key] == c.state.completed[key];
      } else {
        assert Changed(a, b, key);
        var i :| |a.log| <= i < |b.log| && b.log[i].reason == AfterNode(key)
          && key in b.log[i].state.completed && b.log[i].state.completed[key] == b.state.completed[key];
        assert c.log[i] == b.log[i];
      }
    }
  }

  lemma Through(a: World, b: World, r: Outcome, c: World)
    requires Durable(a, Done(Null), b) && Durable(b, r, c)
    requires forall key :: key in b.state.completed ==> key in c.state.completed
    ensures Durable(a, r, c)
  {
    var lost: Option<Key> :| (r.Done? ==> lost.None?) && StoredBut(b, c, lost);
    assert StoredBut(a, b, None) by { var none: Option<Key> :| none.None? && StoredBut(a, b, none); }
    StoredThrough(a, b, c, lost);
    forall m | |a.trace| <= m < |c.trace| ensures Announced(a, c, c.trace[m]) {
      if m < |b.trace| { assert Announced(a, b, b.trace[m]); } else { assert Announced(b, c, c.trace[m]); }
    }
    forall key | Changed(a, c, key) ensures Begun(a, c, key) {
      if Changed(b, c, key) {
        var m :| |b.trace| <= m < |c.trace| && c.trace[m].Began? && c.trace[m].key == key;
      } else {
        assert Changed(a, b, key);
        var m :| |a.trace| <= m < |b.trace| && b.trace[m].Began? && b.trace[m].key == key;
        assert c.trace[m] == b.trace[m];
      }
    }
  }

  /** The same when nothing about nodes happens first. */
  lemma QuietThrough(a: World, b: World, r: Outcome, c: World)
    requires Quiet(a, b) && Durable(b, r, c)
    requires forall key :: key in b.state.completed ==> key in c.state.completed
    ensures Durable(a, r, c)
  {
    QuietDurable(a, Done(Null), b);
    Through(a, b, r, c);
  }

  /** Completed nodes stay, as `RunExtends` says. */
  lemma RunKeeps(o: Oracle, e: Executable, v: Value, w: World)
    ensures forall key :: key in w.state.completed ==> key in Run(o, e, v, w).1.state.completed
  {
    RunExtends(Flows(e), o, e, v, w);
  }

  /** Every attempt over every tree, however it is stopped: each node that gets an output was announced by its
      `before_node` checkpoint, begun, and stored with that output, except at most the one it is stopped at. */
  lemma {:induction false} RunDurable(o: Oracle, e: Executable, v: Value, w: World)
    ensures var (r, w1) := Run(o, e, v, w); Durable(w, r, w1)
    decreases e, 2, 0
  {
    var (r, w1) := Run(o, e, v, w);
    match e
    case Task(_) => QuietDurable(w, r, w1);
    case Sequence(_) => StepsDurable(o, e, 0, v, v, w);
    case Parallel(_, _) =>
      if Next(w) == Proceed {
        BranchesDurable(o, e, 0, v, [], Tick(w));
        RunBranchesExtends(Flows(e), o, e, 0, v, [], Tick(w));
        QuietThrough(w, Tick(w), r, w1);
      } else {
        QuietDurable(w, r, w1);
      }
    case Router(name, routes, default) =>
      var target := Lookup(routes, default, o.choose(name, v));
      if target.Some? && Next(w) == Proceed {
        RunDurable(o, target.value, v, Tick(w));
        RunKeeps(o, target.value, v, Tick(w));
        QuietThrough(w, Tick(w), r, w1);
      } else {
        QuietDurable(w, r, w1);
      }
    case Loop(_, _, n) => TurnsDurable(o, e, n, v, v, w);
    case Approval(_, _, _, _) => GateDurable(o, e, v, w);
    case Workflow(name, nodes) =>
      if Compiles(nodes) && !(name in w.state.hashes && w.state.hashes[name] != Sign(e)) {
        var w2 := Register(w, name, e);
        NodesDurable(o, e, 0, v, Restored(w2.state, name, v), w2);
        RunNodesExtends(Flows(e), o, e, 0, v, Restored(w2.state, name, v), w2);
        QuietThrough(w, w2, r, w1);
      } else {
        QuietDurable(w, r, w1);
      }
  }

  lemma {:induction false} GateDurable(o: Oracle, e: Executable, v: Value, w: World)
    requires e.Approval?
    ensures var (r, w1) := Run(o, e, v, w); Durable(w, r, w1)
    decreases e, 1, 0
  {
    var (r, w1) := Run(o, e, v, w);
    if Next(w) == Proceed && Entry(w.state, e.approvalId) == Approved && e.action.Some? {
      var w2 := Emit(Tick(w), Acted(e.approvalId, |w.log|));
      RunDurable(o, e.action.value, v, w2);
      RunKeeps(o, e.action.value, v, w2);
      QuietThrough(w, w2, r, w1);
    } else {
      QuietDurable(w, r, w1);
    }
  }

  lemma {:induction false} StepsDurable(o: Oracle, e: Executable, i: nat, own: Value, current: Value, w: World)
    requires e.Sequence? && i <= |e.steps|
    ensures var (r, w1) := RunSteps(o, e, i, own, current, w); Durable(w, r, w1)
    decreases e, 1, |e.steps| - i
  {
    var (r, w1) := RunSteps(o, e, i, own, current, w);
    if i < |e.steps| && Next(w) == Proceed {
      var (x, w2) := Run(o, e.steps[i], Give(current, own), Tick(w));
      RunDurable(o, e.steps[i], Give(current, own), Tick(w));
      RunKeeps(o, e.steps[i], Give(current, own), Tick(w));
      QuietThrough(w, Tick(w), x, w2);
      if x.Done? {
        StepsDurable(o, e, i + 1, own, x.value, w2);
        RunStepsExtends(Flows(e), o, e, i + 1, own, x.value, w2);
        Through(w, w2, r, w1);
      }
    } else {
      QuietDurable(w, r, w1);
    }
  }

  lemma {:induction false} BranchesDurable(o: Oracle, e: Executable, i: nat, own: Value, outs: seq<Value>, w: World)
    requires e.Parallel? && i <= |e.branches|
    ensures var (r, w1) := RunBranches(o, e, i, own, outs, w); Durable(w, r, w1)
    decreases e, 1, |e.branches| - i
  {
    var (r, w1) := RunBranches(o, e, i, own, outs, w);
    if i == |e.branches| {
      QuietDurable(w, r, w1);
    } else {
      var (x, w2) := Run(o, e.branches[i], own, w);
      RunDurable(o, e.branches[i], own, w);
      if x.Done? {
        BranchesDurable(o, e, i + 1, own, outs + [x.value], w2);
        RunBranchesExtends(Flows(e), o, e, i + 1, own, outs + [x.value], w2);
        Through(w, w2, r, w1);
      }
    }
  }

  lemma {:induction false} TurnsDurable(o: Oracle, e: Executable, left: nat, own: Value, current: Value, w: World)
    requires e.Loop?
    ensures var (r, w1) := RunLoop(o, e, left, own, current, w); Durable(w, r, w1)
    decreases e, 1, left
  {
    var (r, w1) := RunLoop(o, e, left, own, current, w);
    if left > 0 && Next(w) == Proceed {
      var (x, w2) := Run(o, e.body, Give(current, own), Tick(w));
      RunDurable(o, e.body, Give(current, own), Tick(w));
      RunKeeps(o, e.body, Give(current, own), Tick(w));
      QuietThrough(w, Tick(w), x, w2);
      if x.Done? && !o.until(e.name, x.value) {
        TurnsDurable(o, e, left - 1, own, x.value, w2);
        RunLoopExtends(Flows(e), o, e, left - 1, own, x.value, w2);
        Through(w, w2, r, w1);
      }
    } else {
      QuietDurable(w, r, w1);
    }
  }

  lemma {:induction false} NodesDurable(o: Oracle, e: Executable, i: nat, own: Value, current: Value, w: World)
    requires e.Workflow? && i <= |e.nodes|
    ensures var (r, w1) := RunNodes(o, e, i, own, current, w); Durable(w, r, w1)
    decreases e, 1, |e.nodes| - i
  {
    var (r, w1) := RunNodes(o, e, i, own, current, w);
    if i == |e.nodes| {
      QuietDurable(w, r, w1);
    } else {
      var (x, w2) := RunNode(o, e, i, own, current, w);
      NodeDurable(o, e, i, own, current, w);
      if x.Done? {
        NodesDurable(o, e, i + 1, own, x.value, w2);
        RunNodesExtends(Flows(e), o, e, i + 1, own, x.value, w2);
        Through(w, w2, r, w1);
      }
    }
  }

  lemma {:induction false} NodeDurable(o: Oracle, e: Executable, i: nat, own: Value, current: Value, w: World)
    requires e.Workflow? && i < |e.nodes|
    ensures var (r, w1) := RunNode(o, e, i, own, current, w); Durable(w, r, w1)
    decreases e, 0, 1
  {
    var (r, w1) := RunNode(o, e, i, own, current, w);
    if Next(w) == Proceed && Key(e.name, e.nodes[i].id) !in w.state.completed {
      FreshDurable(o, e, i, Give(current, own), Tick(w));
      RunFreshExtends(Flows(e), o, e, i, Give(current, own), Tick(w));
      QuietThrough(w, Tick(w), r, w1);
    } else {
      QuietDurable(w, r, w1);
    }
  }

  /** Into a node, through its work, and out of it. */
  lemma {:induction false} FreshDurable(o: Oracle, e: Executable, i: nat, input: Value, w: World)
    requires e.Workflow? && i < |e.nodes| && Key(e.name, e.nodes[i].id) !in w.state.completed
    ensures var (r, w1) := RunFresh(o, e, i, input, w); Durable(w, r, w1)
    decreases e, 0, 0
  {
    var (r, w1) := RunFresh(o, e, i, input, w);
    var key := Key(e.name, e.nodes[i].id);
    var w2 := Enter(w, key);
    var (x, w3) := Run(o, e.nodes[i].work, input, w2);
    EnterDurable(w, key);
    RunDurable(o, e.nodes[i].work, input, w2);
    RunKeeps(o, e.nodes[i].work, input, w2);
    Through(w, w2, x, w3);
    assert Begun(w, w3, key) by {
      RunExtends(Flows(e), o, e.nodes[i].work, input, w2);
      assert w3.trace[|w.trace|] == w2.trace[|w.trace|] == Began(key, |w.log| + 1);
    }
    if x.Done? { ConcludeDurable(w, w3, key, x.value); }
  }

  lemma EnterDurable(w: World, key: Key)
    ensures Durable(w, Done(Null), Enter(w, key))
  {
    assert StoredBut(w, Enter(w, key), None);
  }

  lemma ConcludeDurable(w: World, w1: World, key: Key, x: Value)
    requires Durable(w, Done(x), w1) && Begun(w, w1, key)
    ensures var (r, w2) := Conclude(w1, key, x); Durable(w, r, w2)
  {
    var (r, w2) := Conclude(w1, key, x);
    assert StoredBut(w, w1, None) by { var none: Option<Key> :| none.None? && StoredBut(w, w1, none); }
    forall m | |w.trace| <= m < |w2.trace| ensures Announced(w, w2, w2.trace[m]) {
      assert Announced(w, w1, w1.trace[m]);
    }
    forall k | Changed(w, w2, k) ensures Begun(w, w2, k) {
      if k != key { assert Changed(w, w1, k); }
      var m :| |w.trace| <= m < |w1.trace| && w1.trace[m].Began? && w1.trace[m].key == k;
      assert w2.trace[m] == w1.trace[m];
    }
    forall k | Changed(w, w2, k) && k != key ensures Persisted(w, w2, k) {
      assert Changed(w, w1, k);
      var j :| |w.log| <= j < |w1.log| && w1.log[j].reason == AfterNode(k)
        && k in w1.log[j].state.completed && w1.log[j].state.completed[k] == w1.state.completed[k];
      assert w2.log[j] == w1.log[j];
    }
    if r.Done? {
      assert w2.log[|w1.log|].reason == AfterNode(key);
      assert StoredBut(w, w2, None);
    } else {
      assert StoredBut(w, w2, Some(key));
    }
  }

  /** A node that finishes leaves its output as the workflow's last, and a workflow starts its running value from there
      if any of its nodes is completed, else from its own input. */
  lemma {:induction false} LastOutputKept(o: Oracle, e: Executable, i: nat, v: Value, input: Value, w: World)
    requires e.Workflow? && i < |e.nodes| && Compiles(e.nodes)
    ensures var (r, w1) := RunFresh(o, e, i, input, w);
      r.Done? ==> e.name in w1.state.lastOutput && w1.state.lastOutput[e.name] == r.value
    ensures e.name in w.state.hashes && w.state.hashes[e.name] == Sign(e) && w.state.rootHash.Some? ==>
      && ((forall key :: key in w.state.completed ==> key.flow != e.name) ==>
            Run(o, e, v, w) == RunNodes(o, e, 0, v, v, w))
      && ((exists key :: key in w.state.completed && key.flow == e.name) && e.name in w.state.lastOutput ==>
            Run(o, e, v, w) == RunNodes(o, e, 0, v, w.state.lastOutput[e.name], w))
  {
    if e.name in w.state.hashes && w.state.hashes[e.name] == Sign(e) && w.state.rootHash.Some? {
      assert w.state.hashes[e.name := Sign(e)] == w.state.hashes;
      assert Register(w, e.name, e) == w;
    }
  }

  // ------------------------------------------------------------------ an attempt from nothing does everything

  /** The event that the fact is about is among those from `from` on. */
  ghost predicate Happened(f: Fact, trace: seq<Event>, from: nat) {
    match f
    case Performed(task, input) => exists m :: from <= m < |trace| && trace[m] == Ran(task, input, trace[m].at)
    case Entered(key) => exists m :: from <= m < |trace| && trace[m] == Began(key, trace[m].at)
    case Opened(id) => exists m :: from <= m < |trace| && trace[m] == Acted(id, trace[m].at)
    case _ => true
  }

  ghost predicate AllHappened(facts: set<Fact>, trace: seq<Event>, from: nat) {
    forall f :: f in facts ==> Happened(f, trace, from)
  }

  lemma HappenedOn(facts: set<Fact>, trace: seq<Event>, from: nat, trace': seq<Event>, from': nat)
    requires AllHappened(facts, trace, from) && trace <= trace' && from' <= from
    ensures AllHappened(facts, trace', from')
  {
    forall f | f in facts ensures Happened(f, trace', from') {
      match f
      case Performed(task, input) => var m :| from <= m < |trace| && trace[m] == Ran(task, input, trace[m].at);
        assert trace'[m] == trace[m];
      case Entered(key) => var m :| from <= m < |trace| && trace[m] == Began(key, trace[m].at);
        assert trace'[m] == trace[m];
      case Opened(id) => var m :| from <= m < |trace| && trace[m] == Acted(id, trace[m].at);
        assert trace'[m] == trace[m];
      case _ =>
    }
  }

  /** No node of these workflows is completed. */
  ghost predicate Untouched(s: State, fs: set<string>) { forall key :: key in s.completed ==> key.flow !in fs }

  /** Where an attempt stands that agrees with the fold. */
  ghost predicate OnCourse(d: string -> Decision, facts: set<Fact>, p: Evaluation, w: World) {
    Consistent(facts) && SoundWorld(w, d, facts) && p.facts <= facts
  }

  lemma UntouchedAfter(o: Oracle, e: Executable, v: Value, w: World, fs: set<string>)
    requires Untouched(w.state, fs) && fs !! Flows(e)
    ensures Untouched(Run(o, e, v, w).1.state, fs) && w.trace <= Run(o, e, v, w).1.trace
  {
    RunExtends(Flows(e), o, e, v, w);
  }

  /** An attempt that finishes, and found nothing of its workflows completed, has done all that the fold does. */
  lemma {:induction false} FreshDoesAll(o: Oracle, d: string -> Decision, facts: set<Fact>, e: Executable, v: Value,
                                        w: World)
    requires Tidy(e) && OnCourse(d, facts, Plain(o, d, e, v), w) && Untouched(w.state, Flows(e))
    requires Run(o, e, v, w).0.Done?
    ensures AllHappened(Plain(o, d, e, v).facts, Run(o, e, v, w).1.trace, |w.trace|)
    decreases e, 2, 0
  {
    match e
    case Task(name) =>
      var w1 := Run(o, e, v, w).1;
      assert w1.trace[|w.trace|] == Ran(name, v, |w.log|);
    case Sequence(steps) =>
      forall k | 0 <= k < |steps| ensures Untouched(w.state, Flows(steps[k])) { assert Flows(steps[k]) <= Flows(e); }
      StepsDoAll(o, d, facts, e, 0, v, v, w);
    case Parallel(_, branches) =>
      forall k | 0 <= k < |branches| ensures Untouched(w.state, Flows(branches[k])) {
        assert Flows(branches[k]) <= Flows(e);
      }
      TickSound(w, d, facts);
      BranchesDoAll(o, d, facts, e, 0, v, [], Tick(w));
    case Router(name, routes, default) =>
      var target := Lookup(routes, default, o.choose(name, v)).value;
      assert Flows(target) <= Flows(e);
      TickSound(w, d, facts);
      FreshDoesAll(o, d, facts, target, v, Tick(w));
    case Loop(_, _, n) => TurnsDoAll(o, d, facts, e, n, v, v, w);
    case Approval(_, _, _, _) => GateDoesAll(o, d, facts, e, v, w);
    case Workflow(_, _) => FlowDoesAll(o, d, facts, e, v, w);
  }

  lemma {:induction false} GateDoesAll(o: Oracle, d: string -> Decision, facts: set<Fact>, e: Executable, v: Value,
                                       w: World)
    requires e.Approval? && Tidy(e) && OnCourse(d, facts, Plain(o, d, e, v), w) && Untouched(w.state, Flows(e))
    requires Run(o, e, v, w).0.Done?
    ensures AllHappened(Plain(o, d, e, v).facts, Run(o, e, v, w).1.trace, |w.trace|)
    decreases e, 1, 0
  {
    var id := e.approvalId;
    TickSound(w, d, facts);
    assert d(id) == Entry(w.state, id);
    if Entry(w.state, id) == Approved && e.action.Some? {
      var w1 := Emit(Tick(w), Acted(id, |w.log|));
      EmitSound(Tick(w), Acted(id, |w.log|), d, facts);
      FreshDoesAll(o, d, facts, e.action.value, v, w1);
      UntouchedAfter(o, e.action.value, v, w1, {});
      var w2 := Run(o, e, v, w).1;
      HappenedOn(Plain(o, d, e.action.value, v).facts, w2.trace, |w1.trace|, w2.trace, |w.trace|);
      assert w2.trace[|w.trace|] == w1.trace[|w.trace|] == Acted(id, |w.log|);
    }
  }

  lemma {:induction false} FlowDoesAll(o: Oracle, d: string -> Decision, facts: set<Fact>, e: Executable, v: Value,
                                       w: World)
    requires e.Workflow? && Tidy(e) && OnCourse(d, facts, Plain(o, d, e, v), w) && Untouched(w.state, Flows(e))
    requires Run(o, e, v, w).0.Done?
    ensures AllHappened(Plain(o, d, e, v).facts, Run(o, e, v, w).1.trace, |w.trace|)
    decreases e, 1, |e.nodes| + 1
  {
    var w1 := Register(w, e.name, e);
    assert Defined(e.name, Sign(e)) in Plain(o, d, e, v).facts;
    RegisterSound(w, e, d, facts);
    assert Restored(w1.state, e.name, v) == v;
    forall k | 0 <= k < |e.nodes|
      ensures Key(e.name, e.nodes[k].id) !in w1.state.completed && Untouched(w1.state, Flows(e.nodes[k].work))
    {
      assert Key(e.name, e.nodes[k].id).flow in Flows(e) && Flows(e.nodes[k].work) <= Flows(e);
    }
    NodesDoAll(o, d, facts, e, 0, v, v, w1);
  }

  lemma {:induction false} StepsDoAll(o: Oracle, d: string -> Decision, facts: set<Fact>, e: Executable, i: nat,
                                      own: Value, current: Value, w: World)
    requires e.Sequence? && i <= |e.steps| && Tidy(e) && OnCourse(d, facts, PlainSteps(o, d, e, i, own, current), w)
    requires forall k :: i <= k < |e.steps| ==> Untouched(w.state, Flows(e.steps[k]))
    requires RunSteps(o, e, i, own, current, w).0.Done?
    ensures AllHappened(PlainSteps(o, d, e, i, own, current).facts, RunSteps(o, e, i, own, current, w).1.trace,
                        |w.trace|)
    decreases e, 1, |e.steps| - i
  {
    if i < |e.steps| {
      var (x, p) := (Give(current, own), Plain(o, d, e.steps[i], Give(current, own)));
      var (r, w1) := Run(o, e.steps[i], x, Tick(w));
      TickSound(w, d, facts);
      RunSound(o, d, facts, e.steps[i], x, Tick(w));
      FreshDoesAll(o, d, facts, e.steps[i], x, Tick(w));
      forall k | i < k < |e.steps| ensures Untouched(w1.state, Flows(e.steps[k])) {
        UntouchedAfter(o, e.steps[i], x, Tick(w), Flows(e.steps[k]));
      }
      StepsDoAll(o, d, facts, e, i + 1, own, r.value, w1);
      RunExtends(Flows(e.steps[i]), o, e.steps[i], x, Tick(w));
      RunStepsExtends(Flows(e), o, e, i + 1, own, r.value, w1);
      var w2 := RunSteps(o, e, i, own, current, w).1;
      HappenedOn(p.facts, w1.trace, |w.trace|, w2.trace, |w.trace|);
      HappenedOn(PlainSteps(o, d, e, i + 1, own, r.value).facts, w2.trace, |w1.trace|, w2.trace, |w.trace|);
    }
  }

  lemma {:induction false} BranchesDoAll(o: Oracle, d: string -> Decision, facts: set<Fact>, e: Executable, i: nat,
                                         own: Value, outs: seq<Value>, w: World)
    requires e.Parallel? && i <= |e.branches| && Tidy(e) && OnCourse(d, facts, PlainBranches(o, d, e, i, own, outs), w)
    requires forall k :: i <= k < |e.branches| ==> Untouched(w.state, Flows(e.branches[k]))
    requires RunBranches(o, e, i, own, outs, w).0.Done?
    ensures AllHappened(PlainBranches(o, d, e, i, own, outs).facts, RunBranches(o, e, i, own, outs, w).1.trace,
                        |w.trace|)
    decreases e, 1, |e.branches| - i
  {
    if i < |e.branches| {
      var p := Plain(o, d, e.branches[i], own);
      var (r, w1) := Run(o, e.branches[i], own, w);
      RunSound(o, d, facts, e.branches[i], own, w);
      FreshDoesAll(o, d, facts, e.branches[i], own, w);
      forall k | i < k < |e.branches| ensures Untouched(w1.state, Flows(e.branches[k])) {
        UntouchedAfter(o, e.branches[i], own, w, Flows(e.branches[k]));
      }
      BranchesDoAll(o, d, facts, e, i + 1, own, outs + [r.value], w1);
      RunExtends(Flows(e.branches[i]), o, e.branches[i], own, w);
      RunBranchesExtends(Flows(e), o, e, i + 1, own, outs + [r.value], w1);
      var w2 := RunBranches(o, e, i, own, outs, w).1;
      HappenedOn(p.facts, w1.trace, |w.trace|, w2.trace, |w.trace|);
      HappenedOn(PlainBranches(o, d, e, i + 1, own, outs + [r.value]).facts, w2.trace, |w1.trace|, w2.trace, |w.trace|);
    }
  }

  lemma {:induction false} TurnsDoAll(o: Oracle, d: string -> Decision, facts: set<Fact>, e: Executable, left: nat,
                                      own: Value, current: Value, w: World)
    requires e.Loop? && Tidy(e) && OnCourse(d, facts, PlainLoop(o, d, e, left, own, current), w)
    requires RunLoop(o, e, left, own, current, w).0.Done?
    ensures AllHappened(PlainLoop(o, d, e, left, own, current).facts, RunLoop(o, e, left, own, current, w).1.trace,
                        |w.trace|)
    decreases e, 1, left
  {
    if left > 0 {
      var (x, p) := (Give(current, own), Plain(o, d, e.body, Give(current, own)));
      var (r, w1) := Run(o, e.body, x, Tick(w));
      assert PlainLoop(o, d, e, left, own, current) == AfterTurn(o, d, e, left - 1, own, p) && p.facts <= facts;
      TickSound(w, d, facts);
      RunSound(o, d, facts, e.body, x, Tick(w));
      LoopBodyTidy(e);
      FreshDoesAll(o, d, facts, e.body, x, Tick(w));
      if !o.until(e.name, r.value) {
        TurnsDoAll(o, d, facts, e, left - 1, own, r.value, w1);
        RunExtends(Flows(e.body), o, e.body, x, Tick(w));
        RunLoopExtends(Flows(e), o, e, left - 1, own, r.value, w1);
        var w2 := RunLoop(o, e, left, own, current, w).1;
        HappenedOn(p.facts, w1.trace, |w.trace|, w2.trace, |w.trace|);
        HappenedOn(PlainLoop(o, d, e, left - 1, own, r.value).facts, w2.trace, |w1.trace|, w2.trace, |w.trace|);
      }
    }
  }

  /** A body without workflows is tidy. */
  lemma LoopBodyTidy(e: Executable)
    requires e.Loop? && Tidy(e)
    ensures Tidy(e.body)
  {
    NoFlowsTidy(e.body);
  }

  lemma {:induction false} NoFlowsTidy(e: Executable)
    requires Flows(e) == {}
    ensures Tidy(e)
  {
    match e
    case Task(_) =>
    case Sequence(steps) => forall i | 0 <= i < |steps| ensures Tidy(steps[i]) && Flows(steps[i]) == {} {
        assert Flows(steps[i]) <= Flows(e);
        NoFlowsTidy(steps[i]);
      }
    case Parallel(_, branches) => forall i | 0 <= i < |branches| ensures Tidy(branches[i]) && Flows(branches[i]) == {} {
        assert Flows(branches[i]) <= Flows(e);
        NoFlowsTidy(branches[i]);
      }
    case Router(_, routes, default) =>
      forall i | 0 <= i < |routes| ensures Tidy(routes[i].target) {
        assert Flows(routes[i].target) <= Flows(e);
        NoFlowsTidy(routes[i].target);
      }
      if default.Some? { NoFlowsTidy(default.value); }
    case Loop(_, _, _) =>
    case Approval(_, _, action, _) => if action.Some? { NoFlowsTidy(action.value); }
    case Workflow(_, _) => assert false;
  }

  lemma {:induction false} NodeDoesAll(o: Oracle, d: string -> Decision, facts: set<Fact>, e: Executable, i: nat,
                                       own: Value, current: Value, w: World)
    requires e.Workflow? && i < |e.nodes| && Tidy(e) && InLoop(e, i, w)
    requires OnCourse(d, facts, PlainNodes(o, d, e, i, own, current), w)
    requires Key(e.name, e.nodes[i].id) !in w.state.completed && Untouched(w.state, Flows(e.nodes[i].work))
    requires RunNode(o, e, i, own, current, w).0.Done?
    ensures var (key, p) := (Key(e.name, e.nodes[i].id), Plain(o, d, e.nodes[i].work, Give(current, own)));
      AllHappened(p.facts + {Entered(key), Settled(key, p.out)}, RunNode(o, e, i, own, current, w).1.trace, |w.trace|)
    decreases e, 0
  {
    var (key, x) := (Key(e.name, e.nodes[i].id), Give(current, own));
    NodeFacts(o, d, e, i, own, current);
    TickSound(w, d, facts);
    EnterSound(d, facts, e, i, Tick(w));
    var w1 := Enter(Tick(w), key);
    FreshDoesAll(o, d, facts, e.nodes[i].work, x, w1);
    WorkReported(o, e, i, own, current, w);
    var trace := Run(o, e.nodes[i].work, x, w1).1.trace;
    HappenedOn(Plain(o, d, e.nodes[i].work, x).facts, trace, |w1.trace|, trace, |w.trace|);
  }

  /** A node that finishes reports that it begins, and then what its work reports. */
  lemma WorkReported(o: Oracle, e: Executable, i: nat, own: Value, current: Value, w: World)
    requires e.Workflow? && i < |e.nodes| && Key(e.name, e.nodes[i].id) !in w.state.completed
    requires RunNode(o, e, i, own, current, w).0.Done?
    ensures var key := Key(e.name, e.nodes[i].id);
      var w1 := Run(o, e.nodes[i].work, Give(current, own), Enter(Tick(w), key)).1;
      && RunNode(o, e, i, own, current, w).1.trace == w1.trace
      && |w.trace| < |w1.trace| && w1.trace[|w.trace|] == Began(key, |w.log| + 1)
  {
    var entered := Enter(Tick(w), Key(e.name, e.nodes[i].id));
    RunExtends(Flows(e.nodes[i].work), o, e.nodes[i].work, Give(current, own), entered);
    assert entered.trace[|w.trace|] == Began(Key(e.name, e.nodes[i].id), |w.log| + 1);
  }

  /** What one node completes leaves the later ones as they were. */
  lemma StillUntouched(o: Oracle, e: Executable, i: nat, own: Value, current: Value, w: World)
    requires e.Workflow? && i < |e.nodes| && Tidy(e) && Compiles(e.nodes)
    requires forall k :: i <= k < |e.nodes| ==>
      Key(e.name, e.nodes[k].id) !in w.state.completed && Untouched(w.state, Flows(e.nodes[k].work))
    requires RunNode(o, e, i, own, current, w).0.Done?
    ensures var w1 := RunNode(o, e, i, own, current, w).1;
      forall k :: i < k < |e.nodes| ==>
        Key(e.name, e.nodes[k].id) !in w1.state.completed && Untouched(w1.state, Flows(e.nodes[k].work))
  {
    var (key, x, work) := (Key(e.name, e.nodes[i].id), Give(current, own), e.nodes[i].work);
    var w1 := Enter(Tick(w), key);
    RunExtends(Flows(work), o, work, x, w1);
    var w2 := Run(o, work, x, w1).1;
    forall k | i < k < |e.nodes|
      ensures Key(e.name, e.nodes[k].id) !in w2.state.completed && Untouched(w2.state, Flows(e.nodes[k].work))
      ensures e.nodes[k].id != e.nodes[i].id && e.name !in Flows(e.nodes[k].work)
    {
      assert Flows(work) !! Flows(e.nodes[k].work);
    }
    assert RunNode(o, e, i, own, current, w).1.state.completed.Keys <= w2.state.completed.Keys + {key};
  }

  lemma {:induction false} NodesDoAll(o: Oracle, d: string -> Decision, facts: set<Fact>, e: Executable, i: nat,
                                      own: Value, current: Value, w: World)
    requires e.Workflow? && i <= |e.nodes| && Tidy(e) && Compiles(e.nodes) && InLoop(e, i, w)
    requires OnCourse(d, facts, PlainNodes(o, d, e, i, own, current), w)
    requires forall k :: i <= k < |e.nodes| ==>
      Key(e.name, e.nodes[k].id) !in w.state.completed && Untouched(w.state, Flows(e.nodes[k].work))
    requires RunNodes(o, e, i, own, current, w).0.Done?
    ensures AllHappened(PlainNodes(o, d, e, i, own, current).facts, RunNodes(o, e, i, own, current, w).1.trace,
                        |w.trace|)
    decreases e, 1, |e.nodes| - i
  {
    if i < |e.nodes| {
      var key := Key(e.name, e.nodes[i].id);
      var (x, p) := (Give(current, own), Plain(o, d, e.nodes[i].work, Give(current, own)));
      NodeFacts(o, d, e, i, own, current);
      TickSound(w, d, facts);
      RunNodeSound(o, d, facts, p, e, i, own, current, w);
      var (r, w1) := RunNode(o, e, i, own, current, w);
      NodeDoesAll(o, d, facts, e, i, own, current, w);
      StillUntouched(o, e, i, own, current, w);
      NodesDoAll(o, d, facts, e, i + 1, own, r.value, w1);
      RunNodesExtends(Flows(e), o, e, i + 1, own, r.value, w1);
      RunNodeExtends(Flows(e), o, e, i, own, current, w);
      var w2 := RunNodes(o, e, i, own, current, w).1;
      HappenedOn(p.facts + {Entered(key), Settled(key, p.out)}, w1.trace, |w.trace|, w2.trace, |w.trace|);
      HappenedOn(PlainNodes(o, d, e, i + 1, own, r.value).facts, w2.trace, |w1.trace|, w2.trace, |w.trace|);
    }
  }
}
