/** Human approval: what a gate holds back over every history, and that a rejection stands. */
module ApprovalGates {
  import opened Types
  import opened Workflows
  import opened DurableExecution
  import opened Runtime
  import opened RuntimeHistory

  // ------------------------------------------------------------------ the guarded action

  ghost predicate NeverActed(trace: seq<Event>, id: string) {
    forall m :: 0 <= m < |trace| && trace[m].Acted? ==> trace[m].approvalId != id
  }

  ghost predicate NeverApproved(x: Execution, id: string) {
    && NeverActed(x.trace, id)
    && forall i :: 0 <= i < |x.log| ==> Entry(x.log[i].state, id) != Approved
  }

  lemma DriveUnapproved(o: Oracle, target: Executable, input: Value, x: Execution, s: State, fates: seq<Fate>,
                        id: string)
    requires NeverApproved(x, id) && Entry(s, id) != Approved
    ensures NeverApproved(Drive(o, target, input, x, s, fates), id)
  {
    var w := World(s, x.log, x.trace, fates);
    var (r, w') := Run(o, target, input, w);
    RunExtends(Flows(target), o, target, input, w);
    var reason := SettleStores(r, w', x.output);
    forall m | 0 <= m < |w'.trace| && w'.trace[m].Acted? ensures w'.trace[m].approvalId != id {
      if m < |w.trace| { assert w'.trace[m] == w.trace[m]; } else { assert Timely(Flows(target), w, w', w'.trace[m]); }
    }
    forall i | 0 <= i < |w'.log| ensures Entry(w'.log[i].state, id) != Approved {
      if i < |w.log| { assert w'.log[i] == w.log[i]; }
    }
  }

  /** The action behind a gate never starts unless somebody approved that entry, wherever the gate is
      in whatever tree, and whatever else happened. */
  lemma {:induction false} ActionNeedsApproval(o: Oracle, root: Executable, input: Value, fates: seq<Fate>,
                                               ops: seq<Op>, id: string)
    requires forall i :: 0 <= i < |ops| && ops[i].DecideOn? && ops[i].id == id ==> ops[i].verdict != Approved
    ensures NeverApproved(After(o, root, input, fates, ops), id)
  {
    if ops == [] {
      DriveUnapproved(o, root, input, NEW, FRESH, fates, id);
    } else {
      var x := After(o, root, input, fates, ops[..|ops| - 1]);
      ActionNeedsApproval(o, root, input, fates, ops[..|ops| - 1], id);
      match ops[|ops| - 1]
      case ResumeWith(target, f) =>
        if Resumes(x, target) { DriveUnapproved(o, target, input, x, Latest(x), f, id); }
      case DecideOn(other, named, verdict) =>
        if other != id && Decides(x, other, named) {
          assert Entry(Latest(x).(ledger := Latest(x).ledger[other := verdict]), id) == Entry(Latest(x), id);
        }
      case Cancel =>
    }
  }

  // ------------------------------------------------------------------ everything after the gate

  /** `e` is a workflow whose node `k` is a gate, with a name none of its nodes uses. */
  predicate Gated(e: Executable, k: nat) {
    && Runnable(e) && k < |e.nodes| && e.nodes[k].work.Approval?
    && forall i :: 0 <= i < |e.nodes| ==> e.name !in Flows(e.nodes[i].work)
  }

  predicate Passes(verdict: Decision, gate: Executable)
    requires gate.Approval?
  {
    verdict == Approved || (verdict == Rejected && gate.onReject == Skip)
  }

  /** Node `k` and what follows it are not completed, and the ledger does not let the gate pass. */
  ghost predicate Held(s: State, e: Executable, k: nat)
    requires Gated(e, k)
  {
    && !Passes(Entry(s, e.nodes[k].work.approvalId), e.nodes[k].work)
    && forall j :: k <= j < |e.nodes| ==> Key(e.name, e.nodes[j].id) !in s.completed
  }

  ghost predicate Reaches(ev: Event, e: Executable, k: nat)
    requires Gated(e, k)
  {
    ev.Began? && exists j :: k < j < |e.nodes| && ev.key == Key(e.name, e.nodes[j].id)
  }

  ghost predicate AllHeld(log: seq<Checkpoint>, trace: seq<Event>, e: Executable, k: nat)
    requires Gated(e, k)
  {
    && (forall i :: 0 <= i < |log| ==> Held(log[i].state, e, k))
    && (forall m :: 0 <= m < |trace| ==> !Reaches(trace[m], e, k))
  }

  /** Work of other workflows does not lift the barrier. */
  lemma ForeignHeld(fs: set<string>, e: Executable, k: nat, w: World, w': World)
    requires Gated(e, k) && e.name !in fs && Extends(fs, w, w')
    requires Held(w.state, e, k) && AllHeld(w.log, w.trace, e, k)
    ensures Held(w'.state, e, k) && AllHeld(w'.log, w'.trace, e, k)
  {
    forall i | 0 <= i < |w'.log| ensures Held(w'.log[i].state, e, k) {
      if i < |w.log| { assert w'.log[i] == w.log[i]; } else { assert Keeps(fs, w.state, w'.log[i].state); }
    }
    forall m | 0 <= m < |w'.trace| ensures !Reaches(w'.trace[m], e, k) {
      if m < |w.trace| { assert w'.trace[m] == w.trace[m]; } else { assert Timely(fs, w, w', w'.trace[m]); }
    }
  }

  lemma EnterHeld(e: Executable, k: nat, i: nat, w: World)
    requires Gated(e, k) && i <= k && Held(w.state, e, k) && AllHeld(w.log, w.trace, e, k)
    ensures var w' := Enter(w, Key(e.name, e.nodes[i].id)); Held(w'.state, e, k) && AllHeld(w'.log, w'.trace, e, k)
  {
    forall j | k < j < |e.nodes| ensures e.nodes[j].id != e.nodes[i].id { }
  }

  lemma ConcludeHeld(e: Executable, k: nat, i: nat, w: World, x: Value)
    requires Gated(e, k) && i < k && Held(w.state, e, k) && AllHeld(w.log, w.trace, e, k)
    ensures var w' := Conclude(w, Key(e.name, e.nodes[i].id), x).1;
      Held(w'.state, e, k) && AllHeld(w'.log, w'.trace, e, k)
  {
    forall j | k <= j < |e.nodes| ensures e.nodes[j].id != e.nodes[i].id { }
    assert Held(Record(w, Key(e.name, e.nodes[i].id), x).state, e, k);
  }

  lemma FreshHeld(o: Oracle, e: Executable, k: nat, i: nat, input: Value, w: World)
    requires Gated(e, k) && i <= k && Held(w.state, e, k) && AllHeld(w.log, w.trace, e, k)
    ensures var (r, w') := RunFresh(o, e, i, input, w);
      && Held(w'.state, e, k) && AllHeld(w'.log, w'.trace, e, k)
      && (i == k ==> !r.Done?)
  {
    var key, work := Key(e.name, e.nodes[i].id), e.nodes[i].work;
    EnterHeld(e, k, i, w);
    var (r, w1) := Run(o, work, input, Enter(w, key));
    RunExtends(Flows(work), o, work, input, Enter(w, key));
    ForeignHeld(Flows(work), e, k, Enter(w, key), w1);
    if r.Done? && i < k { ConcludeHeld(e, k, i, w1, r.value); }
  }

  lemma NodeHeld(o: Oracle, e: Executable, k: nat, i: nat, own: Value, current: Value, w: World)
    requires Gated(e, k) && i <= k && Held(w.state, e, k) && AllHeld(w.log, w.trace, e, k)
    ensures var (r, w') := RunNode(o, e, i, own, current, w);
      && Held(w'.state, e, k) && AllHeld(w'.log, w'.trace, e, k)
      && (i == k ==> !r.Done?)
  {
    if Next(w) == Proceed && Key(e.name, e.nodes[i].id) !in w.state.completed {
      FreshHeld(o, e, k, i, Give(current, own), Tick(w));
    }
  }

  lemma {:induction false} NodesHeld(o: Oracle, e: Executable, k: nat, i: nat, own: Value, current: Value, w: World)
    requires Gated(e, k) && i <= k && Held(w.state, e, k) && AllHeld(w.log, w.trace, e, k)
    ensures var (r, w') := RunNodes(o, e, i, own, current, w);
      !r.Done? && Held(w'.state, e, k) && AllHeld(w'.log, w'.trace, e, k)
    decreases k - i
  {
    NodeHeld(o, e, k, i, own, current, w);
    var (r, w1) := RunNode(o, e, i, own, current, w);
    if r.Done? { NodesHeld(o, e, k, i + 1, own, r.value, w1); }
  }

  lemma DriveHeld(o: Oracle, e: Executable, k: nat, input: Value, x: Execution, s: State, fates: seq<Fate>)
    requires Gated(e, k) && Held(s, e, k) && AllHeld(x.log, x.trace, e, k)
    ensures var y := Drive(o, e, input, x, s, fates); AllHeld(y.log, y.trace, e, k)
    ensures Drive(o, e, input, x, s, fates).status != Completed
  {
    var w := World(s, x.log, x.trace, fates);
    var (r, w') := Run(o, e, input, w);
    if !(e.name in s.hashes && s.hashes[e.name] != Sign(e)) {
      var w1 := Register(w, e.name, e);
      assert Held(w1.state, e, k);
      NodesHeld(o, e, k, 0, input, Restored(w1.state, e.name, input), w1);
    }
    var reason := SettleStores(r, w', x.output);
  }

  predicate Lifts(op: Op, gate: Executable)
    requires gate.Approval?
  {
    op.DecideOn? && op.id == gate.approvalId && Passes(op.verdict, gate)
  }

  /** No mix of resumes, crashes, failures, cancellations and decisions on other gates gets past a
      gate: nodes after it never begin and the workflow never completes until its entry is decided. */
  lemma {:induction false} GateHolds(o: Oracle, e: Executable, k: nat, input: Value, fates: seq<Fate>, ops: seq<Op>)
    requires Gated(e, k) && Unambiguous(e, ops)
    requires forall i :: 0 <= i < |ops| ==> !Lifts(ops[i], e.nodes[k].work)
    ensures var x := After(o, e, input, fates, ops); AllHeld(x.log, x.trace, e, k) && x.status != Completed
  {
    if ops == [] {
      assert Held(FRESH, e, k);
      DriveHeld(o, e, k, input, NEW, FRESH, fates);
    } else {
      var before := ops[..|ops| - 1];
      var x := After(o, e, input, fates, before);
      GateHolds(o, e, k, input, fates, before);
      match ops[|ops| - 1]
      case ResumeWith(target, f) =>
        StampKept(o, e, input, fates, before);
        if Resumes(x, target) { DriveHeld(o, e, k, input, x, Latest(x), f); }
      case DecideOn(id, named, verdict) =>
        if Decides(x, id, named) {
          assert !Lifts(ops[|ops| - 1], e.nodes[k].work);
          assert Held(Latest(x).(ledger := Latest(x).ledger[id := verdict]), e, k);
        }
      case Cancel =>
    }
  }

  // ------------------------------------------------------------------ a decision stands

  /** A decided entry keeps its decision through every call that does not name it. */
  lemma {:induction false} DecisionStands(o: Oracle, input: Value, x: Execution, ops: seq<Op>, id: string)
    requires x.log != [] && Entry(Latest(x), id) != Pending
    requires forall i :: 0 <= i < |ops| && ops[i].DecideOn? && ops[i].named ==> ops[i].id != id
    ensures var y := Continue(o, input, x, ops); y.log != [] && Entry(Latest(y), id) == Entry(Latest(x), id)
  {
    if ops != [] {
      var y := Continue(o, input, x, ops[..|ops| - 1]);
      DecisionStands(o, input, x, ops[..|ops| - 1], id);
      match ops[|ops| - 1]
      case ResumeWith(target, f) =>
        if Resumes(y, target) { DriveKeepsEntry(o, target, input, y, f, id); }
      case DecideOn(other, named, verdict) =>
        if Decides(y, other, named) {
          assert other != id;
          assert Entry(Latest(y).(ledger := Latest(y).ledger[other := verdict]), id) == Entry(Latest(y), id);
        }
      case Cancel =>
    }
  }

  lemma DriveKeepsEntry(o: Oracle, target: Executable, input: Value, x: Execution, fates: seq<Fate>, id: string)
    requires x.log != []
    ensures var y := Drive(o, target, input, x, Latest(x), fates);
      y.log != [] && Entry(Latest(y), id) == Entry(Latest(x), id)
  {
    var w := World(Latest(x), x.log, x.trace, fates);
    var (r, w') := Run(o, target, input, w);
    RunExtends(Flows(target), o, target, input, w);
    var reason := SettleStores(r, w', x.output);
    assert Entry(w'.log[|w'.log| - 1].state, id) == Entry(Latest(x), id) by {
      if |w'.log| == |w.log| {
        assert w'.log == w.log;
      } else {
        assert Keeps(Flows(target), w.state, w'.log[|w'.log| - 1].state);
      }
    }
  }
}
