/** Gates under any interleaving of branches, and under any number of processes: what `ApprovalGates`
    proves for one permit and one attempt after another. */
module InterleavedGates {
  import opened Types
  import opened Wrappers
  import opened Workflows
  import opened Runtime
  import opened RuntimeHistory
  import opened ApprovalGates
  import opened Interleaving
  import opened InterleavingHistory
  import opened SideBySide
  import opened SharedDriving

  // ------------------------------------------------------------------ what one move reports and stores

  predicate Permitted(ev: Event, w: World, fs: set<string>) {
    && (ev.Began? ==> ev.key.flow in fs)
    && (ev.Acted? ==> Entry(w.state, ev.approvalId) == Approved)
  }

  /** A move happens in its own workflows, acts only behind an approved entry, and decides nothing. */
  lemma {:induction false} MoveReports(o: Oracle, prompt: bool, c: Config, w: World, pick: seq<nat>, fs: set<string>)
    requires Shaped(c) && SideBySide.Inside(c, fs)
    ensures var r := Move(o, prompt, c, w, pick);
      || r.1.trace == w.trace
      || (|r.1.trace| == |w.trace| + 1 && r.1.trace == w.trace + [r.1.trace[|w.trace|]]
          && Permitted(r.1.trace[|w.trace|], w, fs))
    ensures forall id :: Entry(Move(o, prompt, c, w, pick).1.state, id) == Entry(w.state, id)
  {
    if c.InBranches? {
      if !AllReturned(c.inners) && pick != [] && pick[0] < |c.inners| {
        MoveReports(o, prompt, c.inners[pick[0]], w, pick[1..], fs);
      }
    } else if (c.InSteps? || c.InTurns? || c.InNode?) && !c.inner.Returned? {
      MoveReports(o, prompt, c.inner, w, pick, fs);
    } else if c.Entering? {
      assert KeyOf(c.e, c.i).flow in Flows(c.e);
    }
  }

  /** Everything stored, every copy that waits and the dictionary itself satisfy `p`. */
  ghost predicate Throughout(p: State -> bool, c: Config, w: World)
    requires Shaped(c)
  {
    && Loose(c, w.state) && p(w.state)
    && (forall i :: 0 <= i < |w.log| ==> p(w.log[i].state))
    && (forall s :: s in InterleavingHistory.Waiting(c) ==> p(s))
  }

  lemma MoveThroughout(p: State -> bool, o: Oracle, prompt: bool, c: Config, w: World, pick: seq<nat>)
    requires Shaped(c) && Throughout(p, c, w) && p(Move(o, prompt, c, w, pick).1.state)
    ensures var r := Move(o, prompt, c, w, pick); Throughout(p, r.0, r.1)
  {
    var r := Move(o, prompt, c, w, pick);
    MoveEffect(o, prompt, c, w, pick);
    if |r.1.log| == |w.log| + 1 {
      assert r.1.log[|w.log|].state in InterleavingHistory.Waiting(c) || r.1.log[|w.log|].state == r.1.state;
    }
  }

  // ------------------------------------------------------------------ the guarded action

  ghost predicate Unapproved(c: Config, w: World, id: string)
    requires Shaped(c)
  {
    NeverActed(w.trace, id) && Throughout(s => Entry(s, id) != Approved, c, w)
  }

  lemma {:induction false} MoveUnapproved(o: Oracle, prompt: bool, c: Config, w: World, pick: seq<nat>, id: string,
                                          fs: set<string>)
    requires Shaped(c) && Unapproved(c, w, id) && SideBySide.Inside(c, fs)
    ensures var r := Move(o, prompt, c, w, pick); Unapproved(r.0, r.1, id) && SideBySide.Inside(r.0, fs)
  {
    MoveReports(o, prompt, c, w, pick, fs);
    MoveInside(o, prompt, c, w, pick, fs);
    MoveThroughout(s => Entry(s, id) != Approved, o, prompt, c, w, pick);
  }

  lemma {:induction false} MovesUnapproved(o: Oracle, prompt: bool, c: Config, w: World, picks: seq<seq<nat>>,
                                           id: string, fs: set<string>)
    requires Shaped(c) && Unapproved(c, w, id) && SideBySide.Inside(c, fs)
    ensures var r := Moves(o, prompt, c, w, picks); Unapproved(r.0, r.1, id)
    decreases |picks|
  {
    if picks != [] {
      var r := Move(o, prompt, c, w, picks[0]);
      MoveUnapproved(o, prompt, c, w, picks[0], id, fs);
      MovesUnapproved(o, prompt, r.0, r.1, picks[1..], id, fs);
    }
  }

  lemma OtherEntry(s: State, id: string, other: string, verdict: Decision)
    requires Entry(s, id) != Approved && (other == id ==> verdict != Approved)
    ensures Entry(s.(ledger := s.ledger[other := verdict]), id) != Approved
  {
  }

  lemma DrivesUnapproved(o: Oracle, prompt: bool, root: Executable, input: Value, x: Execution,
                         picks: seq<seq<nat>>, ending: Ending, id: string)
    requires NeverApproved(x, id) && Launch(x, root).Some?
    ensures NeverApproved(Play(o, prompt, root, input, x, Drives(picks, ending)), id)
  {
    var w := World(Launch(x, root).value, x.log, x.trace, []);
    assert Entry(w.state, id) != Approved && InterleavingHistory.Waiting(Start(root, input)) == multiset{};
    MovesUnapproved(o, prompt, Start(root, input), w, picks, id, Flows(root));
    var r := Moves(o, prompt, Start(root, input), w, picks);
    CloseUnapproved(r.0, r.1, ending, x.output, id);
  }

  lemma CloseUnapproved(c: Config, w: World, ending: Ending, output: Option<Value>, id: string)
    requires Shaped(c) && Unapproved(c, w, id)
    ensures NeverApproved(InterleavingHistory.Close(c, w, ending, output), id)
  {
  }

  /** The action behind a gate never starts unless somebody approved that entry: however branches
      interleave, with any store. */
  lemma {:induction false} InterleavedActionNeedsApproval(o: Oracle, prompt: bool, root: Executable, input: Value,
                                                          acts: seq<Act>, id: string)
    requires forall i :: 0 <= i < |acts| && acts[i].Rules? && acts[i].id == id ==> acts[i].verdict != Approved
    ensures NeverApproved(Story(o, prompt, root, input, acts), id)
  {
    if acts != [] {
      var x := Story(o, prompt, root, input, acts[..|acts| - 1]);
      InterleavedActionNeedsApproval(o, prompt, root, input, acts[..|acts| - 1], id);
      match acts[|acts| - 1]
      case Drives(picks, ending) =>
        if Launch(x, root).Some? { DrivesUnapproved(o, prompt, root, input, x, picks, ending, id); }
      case Rules(other, named, verdict) =>
        if Decides(x, other, named) { OtherEntry(Latest(x), id, other, verdict); }
    }
  }

  /** A process has nothing approved. */
  ghost predicate DriverUnapproved(d: SharedDriving.Driver, w: Shared, id: string, fs: set<string>) {
    match d
    case HasRead(base) => Entry(base, id) != Approved
    case Driving(c, state, _) =>
      Shaped(c) && SideBySide.Inside(c, fs) && Unapproved(c, World(state, w.log, w.trace, []), id)
  }

  ghost predicate SharedUnapproved(s: Setup, w: Shared, id: string) {
    && NeverActed(w.trace, id)
    && (forall i :: 0 <= i < |w.log| ==> Entry(w.log[i].state, id) != Approved)
    && (forall owner :: owner in w.drivers ==> DriverUnapproved(w.drivers[owner], w, id, Flows(s.root)))
  }

  lemma UnapprovedBeside(d: SharedDriving.Driver, w: Shared, w': Shared, id: string, fs: set<string>)
    requires DriverUnapproved(d, w, id, fs) && NeverActed(w'.trace, id)
    requires forall i :: 0 <= i < |w'.log| ==> Entry(w'.log[i].state, id) != Approved
    ensures DriverUnapproved(d, w', id, fs)
  {
  }

  lemma AdvanceUnapproved(s: Setup, w: Shared, t: Turn, id: string)
    requires SharedUnapproved(s, w, id) && t.Advance? && Possible(w, t)
    ensures SharedUnapproved(s, Take(s, w, t), id)
  {
    var (d, w') := (w.drivers[t.owner], Take(s, w, t));
    MoveUnapproved(s.oracle, s.prompt, d.config, World(d.state, w.log, w.trace, []), t.pick, id, Flows(s.root));
    forall owner | owner in w'.drivers && owner != t.owner
      ensures DriverUnapproved(w'.drivers[owner], w', id, Flows(s.root))
    {
      UnapprovedBeside(w.drivers[owner], w, w', id, Flows(s.root));
    }
  }

  lemma TurnUnapproved(s: Setup, w: Shared, t: Turn, id: string)
    requires SharedUnapproved(s, w, id) && Possible(w, t) && (t.Rule? && t.id == id ==> t.verdict != Approved)
    ensures SharedUnapproved(s, Take(s, w, t), id)
  {
    if t.Advance? {
      AdvanceUnapproved(s, w, t, id);
    } else if t.Rule? {
      OtherEntry(Newest(w.log), id, t.id, t.verdict);
    }
  }

  /** And however many processes drive the execution at once. */
  lemma {:induction false} SharedActionNeedsApproval(s: Setup, first: string, ws: seq<Shared>, turns: seq<Turn>, n: nat,
                                                     id: string)
    requires SharedDriving.Run(s, first, ws, turns) && n < |ws|
    requires forall i :: 0 <= i < n && turns[i].Rule? && turns[i].id == id ==> turns[i].verdict != Approved
    ensures SharedUnapproved(s, ws[n], id)
  {
    if n > 0 {
      SharedActionNeedsApproval(s, first, ws, turns, n - 1, id);
      assert Possible(ws[n - 1], turns[n - 1]) && ws[n - 1 + 1] == Take(s, ws[n - 1], turns[n - 1]);
      TurnUnapproved(s, ws[n - 1], turns[n - 1], id);
    }
  }

  // ------------------------------------------------------------------ everything after the gate

  /** The attempt is not past node `k` of `e`, and what is inside an earlier node does not concern `e`. */
  ghost predicate Short(c: Config, e: Executable, k: nat)
    requires Gated(e, k)
  {
    match c
    case Start(f, _) => f == e
    case Halted(_, _) => true
    case AtNode(f, i, _, _) => f == e && i <= k
    case Entering(f, i, _, _) => f == e && i <= k
    case InNode(f, i, _, inner) =>
      f == e && i <= k && if i == k then AtGate(inner, e.nodes[k].work)
                          else SideBySide.Inside(inner, Flows(e.nodes[i].work))
    case Recorded(f, i, _, _) => f == e && i < k
    case Storing(_, next) => Short(next, e, k)
    case _ => false
  }

  predicate AtGate(inner: Config, gate: Executable) {
    match inner
    case Start(f, _) => f == gate
    case Halted(_, _) => true
    case _ => false
  }

  ghost predicate Holding(c: Config, w: World, e: Executable, k: nat)
    requires Gated(e, k) && Shaped(c)
  {
    && Short(c, e, k) && Throughout(s => Held(s, e, k), c, w)
    && forall m :: 0 <= m < |w.trace| ==> !Reaches(w.trace[m], e, k)
  }

  /** Work of other workflows completes none of its nodes. */
  lemma ForeignKeeps(e: Executable, k: nat, s: State, s': State, fs: set<string>)
    requires Gated(e, k) && Held(s, e, k) && e.name !in fs && Completes(s, s', fs)
    requires forall id :: Entry(s', id) == Entry(s, id)
    ensures Held(s', e, k)
  {
    forall j | k <= j < |e.nodes| ensures Key(e.name, e.nodes[j].id) !in s'.completed {
      assert Key(e.name, e.nodes[j].id).flow == e.name;
    }
  }

  lemma OpeningHolds(o: Oracle, prompt: bool, c: Config, w: World, e: Executable, k: nat)
    requires Gated(e, k) && c.Start? && Holding(c, w, e, k)
    ensures var r := Move(o, prompt, c, w, []); Holding(r.0, r.1, e, k)
  {
    MoveThroughout(s => Held(s, e, k), o, prompt, c, w, []);
  }

  lemma InnerHolds(o: Oracle, prompt: bool, c: Config, w: World, pick: seq<nat>, e: Executable, k: nat)
    requires Gated(e, k) && Shaped(c) && Holding(c, w, e, k) && c.InNode? && c.i < k && !c.inner.Returned?
    ensures var r := Move(o, prompt, c, w, pick); Holding(r.0, r.1, e, k)
  {
    var fs := Flows(e.nodes[c.i].work);
    MoveInside(o, prompt, c.inner, w, pick, fs);
    MoveReports(o, prompt, c.inner, w, pick, fs);
    ForeignKeeps(e, k, w.state, Move(o, prompt, c, w, pick).1.state, fs);
    MoveThroughout(s => Held(s, e, k), o, prompt, c, w, pick);
  }

  lemma HeldAtGate(o: Oracle, prompt: bool, c: Config, w: World, pick: seq<nat>, e: Executable, k: nat)
    requires Gated(e, k) && Shaped(c) && Holding(c, w, e, k) && c.InNode? && c.i == k
    ensures var r := Move(o, prompt, c, w, pick); Holding(r.0, r.1, e, k)
  {
    assert Held(Ask(w, e.nodes[k].work.approvalId).state, e, k);
    MoveThroughout(s => Held(s, e, k), o, prompt, c, w, pick);
  }

  lemma RecordHolds(o: Oracle, prompt: bool, c: Config, w: World, e: Executable, k: nat)
    requires Gated(e, k) && Shaped(c) && Holding(c, w, e, k) && c.InNode? && c.i < k && c.inner.Returned?
    ensures var r := Move(o, prompt, c, w, []); Holding(r.0, r.1, e, k)
  {
    forall j | k <= j < |e.nodes| ensures e.nodes[j].id != e.nodes[c.i].id { }
    assert Held(Record(w, KeyOf(e, c.i), c.inner.x).state, e, k);
    MoveThroughout(s => Held(s, e, k), o, prompt, c, w, []);
  }

  lemma EnteringHolds(o: Oracle, prompt: bool, c: Config, w: World, e: Executable, k: nat)
    requires Gated(e, k) && Shaped(c) && Holding(c, w, e, k) && c.Entering?
    ensures var r := Move(o, prompt, c, w, []); Holding(r.0, r.1, e, k)
  {
    forall j | k < j < |e.nodes| ensures e.nodes[j].id != e.nodes[c.i].id { }
    MoveThroughout(s => Held(s, e, k), o, prompt, c, w, []);
  }

  /** No move gets past the gate. */
  lemma MoveHolds(o: Oracle, prompt: bool, c: Config, w: World, pick: seq<nat>, e: Executable, k: nat)
    requires Gated(e, k) && Shaped(c) && Holding(c, w, e, k)
    ensures var r := Move(o, prompt, c, w, pick); Holding(r.0, r.1, e, k)
  {
    if c.Start? {
      OpeningHolds(o, prompt, c, w, e, k);
    } else if c.InNode? {
      if c.i == k {
        HeldAtGate(o, prompt, c, w, pick, e, k);
      } else if c.inner.Returned? {
        RecordHolds(o, prompt, c, w, e, k);
      } else {
        InnerHolds(o, prompt, c, w, pick, e, k);
      }
    } else if c.Entering? {
      EnteringHolds(o, prompt, c, w, e, k);
    } else {
      MoveThroughout(s => Held(s, e, k), o, prompt, c, w, pick);
    }
  }

  lemma {:induction false} MovesHold(o: Oracle, prompt: bool, c: Config, w: World, picks: seq<seq<nat>>,
                                     e: Executable, k: nat)
    requires Gated(e, k) && Shaped(c) && Holding(c, w, e, k)
    ensures var r := Moves(o, prompt, c, w, picks); Holding(r.0, r.1, e, k)
    decreases |picks|
  {
    if picks != [] {
      var r := Move(o, prompt, c, w, picks[0]);
      MoveHolds(o, prompt, c, w, picks[0], e, k);
      MovesHold(o, prompt, r.0, r.1, picks[1..], e, k);
    }
  }

  predicate Overrules(id: string, verdict: Decision, gate: Executable)
    requires gate.Approval?
  {
    id == gate.approvalId && Passes(verdict, gate)
  }

  lemma RuleHeld(s: State, id: string, verdict: Decision, e: Executable, k: nat)
    requires Gated(e, k) && Held(s, e, k) && !Overrules(id, verdict, e.nodes[k].work)
    ensures Held(s.(ledger := s.ledger[id := verdict]), e, k)
  {
  }

  lemma DrivesHold(o: Oracle, prompt: bool, e: Executable, k: nat, input: Value, x: Execution,
                   picks: seq<seq<nat>>, ending: Ending)
    requires Gated(e, k) && AllHeld(x.log, x.trace, e, k) && Launch(x, e).Some? && x.status != Completed
    ensures var y := Play(o, prompt, e, input, x, Drives(picks, ending));
      AllHeld(y.log, y.trace, e, k) && y.status != Completed
  {
    var w := World(Launch(x, e).value, x.log, x.trace, []);
    assert Held(FRESH, e, k) && InterleavingHistory.Waiting(Start(e, input)) == multiset{};
    assert Held(w.state, e, k);
    MovesHold(o, prompt, Start(e, input), w, picks, e, k);
    var r := Moves(o, prompt, Start(e, input), w, picks);
    CloseHolds(r.0, r.1, ending, x.output, e, k);
  }

  lemma CloseHolds(c: Config, w: World, ending: Ending, output: Option<Value>, e: Executable, k: nat)
    requires Gated(e, k) && Shaped(c) && Holding(c, w, e, k)
    ensures var x := InterleavingHistory.Close(c, w, ending, output);
      AllHeld(x.log, x.trace, e, k) && x.status != Completed
  {
  }

  /** However branches of other nodes interleave, with any store, and whatever else happens: until its
      entry is decided, no node after the gate begins and the workflow does not complete. */
  lemma {:induction false} InterleavedGateHolds(o: Oracle, prompt: bool, e: Executable, k: nat, input: Value,
                                                acts: seq<Act>)
    requires Gated(e, k)
    requires forall i :: 0 <= i < |acts| && acts[i].Rules? ==>
      !Overrules(acts[i].id, acts[i].verdict, e.nodes[k].work)
    ensures var x := Story(o, prompt, e, input, acts); AllHeld(x.log, x.trace, e, k) && x.status != Completed
  {
    if acts != [] {
      var x := Story(o, prompt, e, input, acts[..|acts| - 1]);
      InterleavedGateHolds(o, prompt, e, k, input, acts[..|acts| - 1]);
      match acts[|acts| - 1]
      case Drives(picks, ending) =>
        if Launch(x, e).Some? { DrivesHold(o, prompt, e, k, input, x, picks, ending); }
      case Rules(id, named, verdict) =>
        assert !Overrules(acts[|acts| - 1].id, acts[|acts| - 1].verdict, e.nodes[k].work);
        if Decides(x, id, named) { RuleHeld(Latest(x), id, verdict, e, k); }
    }
  }

  ghost predicate DriverHeld(d: SharedDriving.Driver, w: Shared, e: Executable, k: nat)
    requires Gated(e, k)
  {
    match d
    case HasRead(base) => Held(base, e, k)
    case Driving(c, state, _) => Shaped(c) && Holding(c, World(state, w.log, w.trace, []), e, k)
  }

  /** No process is past the gate. */
  ghost predicate SharedHeld(s: Setup, w: Shared, k: nat)
    requires Gated(s.root, k)
  {
    && AllHeld(w.log, w.trace, s.root, k)
    && forall owner :: owner in w.drivers ==> DriverHeld(w.drivers[owner], w, s.root, k)
  }

  /** What another process stores does not let this one past the gate. */
  lemma DriverBeside(d: SharedDriving.Driver, w: Shared, w': Shared, e: Executable, k: nat)
    requires Gated(e, k) && DriverHeld(d, w, e, k) && AllHeld(w'.log, w'.trace, e, k)
    ensures DriverHeld(d, w', e, k)
  {
  }

  lemma AdvanceHeld(s: Setup, w: Shared, t: Turn, k: nat)
    requires Gated(s.root, k) && SharedHeld(s, w, k) && t.Advance? && Possible(w, t)
    ensures SharedHeld(s, Take(s, w, t), k)
  {
    var d := w.drivers[t.owner];
    var v := World(d.state, w.log, w.trace, []);
    MoveHolds(s.oracle, s.prompt, d.config, v, t.pick, s.root, k);
    var w' := Take(s, w, t);
    assert AllHeld(w'.log, w'.trace, s.root, k);
    forall owner | owner in w'.drivers && owner != t.owner ensures DriverHeld(w'.drivers[owner], w', s.root, k) {
      DriverBeside(w.drivers[owner], w, w', s.root, k);
    }
  }

  lemma TurnHeld(s: Setup, w: Shared, t: Turn, k: nat)
    requires Gated(s.root, k) && SharedHeld(s, w, k) && Possible(w, t)
    requires t.Rule? ==> !Overrules(t.id, t.verdict, s.root.nodes[k].work)
    ensures SharedHeld(s, Take(s, w, t), k)
  {
    if t.Advance? {
      AdvanceHeld(s, w, t, k);
    } else if t.Rule? {
      RuleHeld(Newest(w.log), t.id, t.verdict, s.root, k);
    }
  }

  /** The same however many processes drive the execution at once, within their leases or not. */
  lemma {:induction false} SharedGateHolds(s: Setup, first: string, ws: seq<Shared>, turns: seq<Turn>, n: nat, k: nat)
    requires Gated(s.root, k) && SharedDriving.Run(s, first, ws, turns) && n < |ws|
    requires forall i :: 0 <= i < n && turns[i].Rule? ==>
      !Overrules(turns[i].id, turns[i].verdict, s.root.nodes[k].work)
    ensures SharedHeld(s, ws[n], k)
  {
    if n == 0 {
      assert Held(FRESH, s.root, k);
    } else {
      SharedGateHolds(s, first, ws, turns, n - 1, k);
      assert Possible(ws[n - 1], turns[n - 1]) && ws[n - 1 + 1] == Take(s, ws[n - 1], turns[n - 1]);
      TurnHeld(s, ws[n - 1], turns[n - 1], k);
    }
  }
}
