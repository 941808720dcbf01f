/** What every attempt of a workflow keeps, and that it computes the uninterrupted fold. */
module DurableExecution {
  import opened Types
  import opened Wrappers
  import opened Workflows

  // ------------------------------------------------------------------ what an attempt keeps

  /** `b` still holds every completed node and workflow hash of `a`, and the same decisions; what it
      has completed beyond `a` belongs to the workflows `fs`. */
  ghost predicate Keeps(fs: set<string>, a: State, b: State) {
    && a.completed.Keys <= b.completed.Keys
    && (forall k :: k in b.completed && k !in a.completed ==> k.flow in fs)
    && (forall f :: f in a.hashes ==> f in b.hashes && b.hashes[f] == a.hashes[f])
    && (forall id :: Entry(a, id) == Entry(b, id))
    && (a.rootHash.Some? ==> b.rootHash == a.rootHash)
  }

  /** An event of the stretch from `w` to `w'`: a node begins only while neither the dictionary nor
      any checkpoint stored so far has it completed, and a gate's action starts only if approved. */
  ghost predicate Timely(fs: set<string>, w: World, w': World, ev: Event) {
    && |w.log| <= ev.at <= |w'.log|
    && (ev.Began? ==>
          && ev.key.flow in fs && ev.key !in w.state.completed
          && forall i :: |w.log| <= i < ev.at ==> ev.key !in w'.log[i].state.completed)
    && (ev.Acted? ==> Entry(w.state, ev.approvalId) == Approved)
  }

  ghost predicate Extends(fs: set<string>, w: World, w': World) {
    && w.log <= w'.log
    && w.trace <= w'.trace
    && Keeps(fs, w.state, w'.state)
    && (forall i :: |w.log| <= i < |w'.log| ==>
        Keeps(fs, w.state, w'.log[i].state) && Keeps(fs, w'.log[i].state, w'.state))
    && (forall i, j :: |w.log| <= i <= j < |w'.log| ==> Keeps(fs, w'.log[i].state, w'.log[j].state))
    && (forall i :: |w.log| <= i < |w'.log| && w'.log[i].reason.AfterNode? ==>
          w'.log[i].reason.key in w'.log[i].state.completed)
    && (forall m :: |w.trace| <= m < |w'.trace| ==> Timely(fs, w, w', w'.trace[m]))
  }

  lemma {:induction false} ExtendsTransitive(fs: set<string>, a: World, b: World, c: World)
    requires Extends(fs, a, b) && Extends(fs, b, c)
    ensures Extends(fs, a, c)
  {
    forall m | |a.trace| <= m < |c.trace|
      ensures Timely(fs, a, c, c.trace[m])
    {
      if m < |b.trace| {
        assert c.trace[m] == b.trace[m] && Timely(fs, a, b, b.trace[m]);
      }
    }
    forall i | |a.log| <= i < |c.log|
      ensures Keeps(fs, a.state, c.log[i].state) && Keeps(fs, c.log[i].state, c.state)
    {
      if i < |b.log| { assert c.log[i] == b.log[i]; }
    }
    forall i, j | |a.log| <= i <= j < |c.log|
      ensures Keeps(fs, c.log[i].state, c.log[j].state)
    {
      if i < |b.log| { assert c.log[i] == b.log[i]; }
      if j < |b.log| { assert c.log[j] == b.log[j]; }
    }
  }

  lemma TickExtends(fs: set<string>, w: World)
    ensures Extends(fs, w, Tick(w))
  {
  }

  lemma SaveExtends(fs: set<string>, w: World, reason: Reason)
    requires reason.AfterNode? ==> reason.key in w.state.completed
    ensures Extends(fs, w, Save(w, reason))
  {
  }

  lemma EmitExtends(fs: set<string>, w: World, ev: Event)
    requires Timely(fs, w, w, ev)
    ensures Extends(fs, w, Emit(w, ev))
  {
  }

  /** A change of the dictionary alone. */
  lemma StateExtends(fs: set<string>, w: World, s: State)
    requires Keeps(fs, w.state, s)
    ensures Extends(fs, w, w.(state := s))
  {
  }

  lemma EnterExtends(fs: set<string>, w: World, key: Key)
    requires key.flow in fs && key !in w.state.completed
    ensures Extends(fs, w, Enter(w, key))
  {
  }

  lemma {:induction false} RunExtends(fs: set<string>, o: Oracle, e: Executable, v: Value, w: World)
    requires Flows(e) <= fs
    ensures Extends(fs, w, Run(o, e, v, w).1)
    decreases e, 2, 0
  {
    match e
    case Task(name) => TaskExtends(fs, o, name, v, w);
    case Sequence(_) => RunStepsExtends(fs, o, e, 0, v, v, w);
    case Parallel(_, _) =>
      TickExtends(fs, w);
      if Next(w) == Proceed {
        RunBranchesExtends(fs, o, e, 0, v, [], Tick(w));
        ExtendsTransitive(fs, w, Tick(w), Run(o, e, v, w).1);
      }
    case Router(name, routes, default) =>
      TickExtends(fs, w);
      var target := Lookup(routes, default, o.choose(name, v));
      if target.Some? && Next(w) == Proceed {
        RunExtends(fs, o, target.value, v, Tick(w));
        ExtendsTransitive(fs, w, Tick(w), Run(o, e, v, w).1);
      }
    case Loop(_, _, n) => RunLoopExtends(fs, o, e, n, v, v, w);
    case Approval(_, _, _, _) => ApprovalExtends(fs, o, e, v, w);
    case Workflow(_, _) => WorkflowExtends(fs, o, e, v, w);
  }

  lemma TaskExtends(fs: set<string>, o: Oracle, name: string, v: Value, w: World)
    ensures Extends(fs, w, RunTask(o, name, v, w).1)
  {
    TickExtends(fs, w);
    if Next(w) == Proceed {
      var w1 := Tick(w);
      var w2 := Emit(w1, Ran(name, v, |w.log|));
      EmitExtends(fs, w1, Ran(name, v, |w.log|));
      ExtendsTransitive(fs, w, w1, w2);
      TickExtends(fs, w2);
      ExtendsTransitive(fs, w, w2, Tick(w2));
    }
  }

  lemma {:induction false} ApprovalExtends(fs: set<string>, o: Oracle, e: Executable, v: Value, w: World)
    requires e.Approval? && Flows(e) <= fs
    ensures Extends(fs, w, Run(o, e, v, w).1)
    decreases e, 0
  {
    var id, w1 := e.approvalId, Tick(w);
    TickExtends(fs, w);
    if Next(w) == Proceed {
      match Entry(w.state, id)
      case Pending =>
        StateExtends(fs, w1, Ask(w1, id).state);
        ExtendsTransitive(fs, w, w1, Ask(w1, id));
      case Rejected =>
      case Approved =>
        if e.action.Some? {
          var w2 := Emit(w1, Acted(id, |w.log|));
          EmitExtends(fs, w1, Acted(id, |w.log|));
          ExtendsTransitive(fs, w, w1, w2);
          RunExtends(fs, o, e.action.value, v, w2);
          ExtendsTransitive(fs, w, w2, Run(o, e, v, w).1);
        }
    }
  }

  lemma {:induction false} WorkflowExtends(fs: set<string>, o: Oracle, e: Executable, v: Value, w: World)
    requires e.Workflow? && Flows(e) <= fs
    ensures Extends(fs, w, Run(o, e, v, w).1)
    decreases e, 1, |e.nodes| + 1
  {
    if Compiles(e.nodes) && !(e.name in w.state.hashes && w.state.hashes[e.name] != Sign(e)) {
      var w1 := Register(w, e.name, e);
      StateExtends(fs, w, w1.state);
      RunNodesExtends(fs, o, e, 0, v, Restored(w1.state, e.name, v), w1);
      ExtendsTransitive(fs, w, w1, Run(o, e, v, w).1);
    } else {
      StateExtends(fs, w, w.state);
    }
  }

  lemma {:induction false} RunStepsExtends(fs: set<string>, o: Oracle, e: Executable, i: nat, own: Value,
                                           current: Value, w: World)
    requires e.Sequence? && i <= |e.steps| && Flows(e) <= fs
    ensures Extends(fs, w, RunSteps(o, e, i, own, current, w).1)
    decreases e, 1, |e.steps| - i
  {
    TickExtends(fs, w);
    if i < |e.steps| && Next(w) == Proceed {
      var (r, w1) := Run(o, e.steps[i], Give(current, own), Tick(w));
      RunExtends(fs, o, e.steps[i], Give(current, own), Tick(w));
      ExtendsTransitive(fs, w, Tick(w), w1);
      if r.Done? {
        RunStepsExtends(fs, o, e, i + 1, own, r.value, w1);
        ExtendsTransitive(fs, w, w1, RunSteps(o, e, i, own, current, w).1);
      }
    }
  }

  lemma {:induction false} RunBranchesExtends(fs: set<string>, o: Oracle, e: Executable, i: nat, own: Value,
                                              outs: seq<Value>, w: World)
    requires e.Parallel? && i <= |e.branches| && Flows(e) <= fs
    ensures Extends(fs, w, RunBranches(o, e, i, own, outs, w).1)
    decreases e, 1, |e.branches| - i
  {
    if i == |e.branches| {
      StateExtends(fs, w, w.state);
    } else {
      RunExtends(fs, o, e.branches[i], own, w);
      var (r, w1) := Run(o, e.branches[i], own, w);
      if r.Done? {
        RunBranchesExtends(fs, o, e, i + 1, own, outs + [r.value], w1);
        ExtendsTransitive(fs, w, w1, RunBranches(o, e, i, own, outs, w).1);
      }
    }
  }

  lemma {:induction false} RunLoopExtends(fs: set<string>, o: Oracle, e: Executable, left: nat, own: Value,
                                          current: Value, w: World)
    requires e.Loop? && Flows(e) <= fs
    ensures Extends(fs, w, RunLoop(o, e, left, own, current, w).1)
    decreases e, 1, left
  {
    TickExtends(fs, w);
    if left > 0 && Next(w) == Proceed {
      var (r, w1) := Run(o, e.body, Give(current, own), Tick(w));
      RunExtends(fs, o, e.body, Give(current, own), Tick(w));
      ExtendsTransitive(fs, w, Tick(w), w1);
      if r.Done? && !o.until(e.name, r.value) {
        RunLoopExtends(fs, o, e, left - 1, own, r.value, w1);
        ExtendsTransitive(fs, w, w1, RunLoop(o, e, left, own, current, w).1);
      }
    }
  }

  lemma {:induction false} RunNodesExtends(fs: set<string>, o: Oracle, e: Executable, i: nat, own: Value,
                                           current: Value, w: World)
    requires e.Workflow? && i <= |e.nodes| && Flows(e) <= fs
    ensures Extends(fs, w, RunNodes(o, e, i, own, current, w).1)
    decreases e, 1, |e.nodes| - i
  {
    if i == |e.nodes| {
      TickExtends(fs, w);
    } else {
      RunNodeExtends(fs, o, e, i, own, current, w);
      var (r, w1) := RunNode(o, e, i, own, current, w);
      if r.Done? {
        RunNodesExtends(fs, o, e, i + 1, own, r.value, w1);
        ExtendsTransitive(fs, w, w1, RunNodes(o, e, i, own, current, w).1);
      }
    }
  }

  lemma {:induction false} RunNodeExtends(fs: set<string>, o: Oracle, e: Executable, i: nat, own: Value,
                                          current: Value, w: World)
    requires e.Workflow? && i < |e.nodes| && Flows(e) <= fs
    ensures Extends(fs, w, RunNode(o, e, i, own, current, w).1)
    decreases e, 0, 1
  {
    TickExtends(fs, w);
    if Next(w) == Proceed && Key(e.name, e.nodes[i].id) !in w.state.completed {
      RunFreshExtends(fs, o, e, i, Give(current, own), Tick(w));
      ExtendsTransitive(fs, w, Tick(w), RunNode(o, e, i, own, current, w).1);
    }
  }

  lemma {:induction false} RunFreshExtends(fs: set<string>, o: Oracle, e: Executable, i: nat, input: Value, w: World)
    requires e.Workflow? && i < |e.nodes| && Flows(e) <= fs && Key(e.name, e.nodes[i].id) !in w.state.completed
    ensures Extends(fs, w, RunFresh(o, e, i, input, w).1)
    decreases e, 0, 0
  {
    var key := Key(e.name, e.nodes[i].id);
    EnterExtends(fs, w, key);
    RunExtends(fs, o, e.nodes[i].work, input, Enter(w, key));
    var (r, w1) := Run(o, e.nodes[i].work, input, Enter(w, key));
    ExtendsTransitive(fs, w, Enter(w, key), w1);
    if r.Done? {
      ConcludeExtends(fs, w1, key, r.value);
      ExtendsTransitive(fs, w, w1, Conclude(w1, key, r.value).1);
    }
  }

  lemma ConcludeExtends(fs: set<string>, w: World, key: Key, x: Value)
    requires key.flow in fs
    ensures Extends(fs, w, Conclude(w, key, x).1)
  {
    var recorded := Record(w, key, x);
    StateExtends(fs, w, recorded.state);
    TickExtends(fs, recorded);
    ExtendsTransitive(fs, w, recorded, Tick(recorded));
    SaveExtends(fs, Tick(recorded), AfterNode(key));
    ExtendsTransitive(fs, w, Tick(recorded), Save(Tick(recorded), AfterNode(key)));
  }
}
