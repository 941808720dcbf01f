/** How an attempt stops when its branches interleave: what `ParallelGates` proves for one permit. */
module PausedBranches {
  import opened Types
  import opened Wrappers
  import opened Workflows
  import opened WorkflowNames
  import opened Runtime
  import opened RuntimeHistory
  import opened Interleaving
  import opened InterleavingHistory
  import opened ParallelGates

  // ------------------------------------------------------------------ how an exception travels

  /** What a coroutine raises that is halted at `e`. */
  function Raised(e: Executable, s: State): Ending {
    match e
    case Approval(_, id, _, _) => if Entry(s, id) == Pending then Pausing else Failing(RejectedGate(id))
    case Router(_, _, _) => Failing(UnknownRoute)
    case Workflow(_, nodes) => Failing(if Compiles(nodes) then Incompatible else NotCompiled)
    case _ => Failing(Fault(AsFailed))
  }

  /** How the attempt ends if somebody is halted: frames pass the exception on, and a task group wraps those of
      its branches. */
  function Stops(c: Config, s: State): Option<Ending> {
    match c
    case Halted(e, _) => Some(Raised(e, s))
    case InSteps(_, _, _, inner) => Stops(inner, s)
    case InTurns(_, _, _, inner) => Stops(inner, s)
    case InNode(_, _, _, inner) => Stops(inner, s)
    case InBranches(_, _, inners) =>
      if exists k :: 0 <= k < |inners| && Stops(inners[k], s).Some? then Some(Failing(BranchFailed)) else None
    case _ => None
  }

  /** The coroutine that `pick` picks is halted at `e`. */
  predicate HaltedAt(c: Config, pick: seq<nat>, e: Executable) {
    match c
    case Halted(f, _) => f == e
    case InSteps(_, _, _, inner) => HaltedAt(inner, pick, e)
    case InTurns(_, _, _, inner) => HaltedAt(inner, pick, e)
    case InNode(_, _, _, inner) => HaltedAt(inner, pick, e)
    case InBranches(_, _, inners) => pick != [] && pick[0] < |inners| && HaltedAt(inners[pick[0]], pick[1..], e)
    case _ => false
  }

  /** It is in a branch of a parallel node. */
  predicate InBranch(c: Config) {
    match c
    case InSteps(_, _, _, inner) => InBranch(inner)
    case InTurns(_, _, _, inner) => InBranch(inner)
    case InNode(_, _, _, inner) => InBranch(inner)
    case InBranches(_, _, _) => true
    case _ => false
  }

  lemma {:induction false} HaltedStops(c: Config, pick: seq<nat>, e: Executable, s: State)
    requires HaltedAt(c, pick, e)
    ensures Stops(c, s) == Some(if InBranch(c) then Failing(BranchFailed) else Raised(e, s))
  {
    match c
    case InSteps(_, _, _, inner) => HaltedStops(inner, pick, e, s);
    case InTurns(_, _, _, inner) => HaltedStops(inner, pick, e, s);
    case InNode(_, _, _, inner) => HaltedStops(inner, pick, e, s);
    case InBranches(_, _, inners) => HaltedStops(inners[pick[0]], pick[1..], e, s);
    case _ =>
  }

  /** Whatever the branches have done meanwhile: an attempt some coroutine of which is halted at a pending gate
      makes the execution wait exactly if that coroutine is in no branch; else the execution fails, and no
      entry can be decided. */
  lemma {:induction false} HaltedGateWaitsIff(c: Config, w: World, output: Option<Value>, pick: seq<nat>,
                                              gate: Executable)
    requires HaltedAt(c, pick, gate) && gate.Approval? && Entry(w.state, gate.approvalId) == Pending
    ensures Stops(c, w.state).Some?
    ensures var y := Close(c, w, Stops(c, w.state).value, output);
      && (y.status == WaitingForApproval <==> !InBranch(c))
      && (y.status == Failed <==> InBranch(c))
      && (InBranch(c) ==> forall id, named :: !Decides(y, id, named))
  {
    HaltedStops(c, pick, gate, w.state);
  }

  // ------------------------------------------------------------------ gates that are all in branches

  /** Outside branches there is no gate. */
  ghost predicate ShieldedNow(c: Config) {
    match c
    case Start(e, _) => Shielded(e)
    case Halted(e, _) => !e.Approval?
    case InSteps(e, _, _, inner) => Shielded(e) && ShieldedNow(inner)
    case InTurns(e, _, _, inner) => Shielded(e) && ShieldedNow(inner)
    case AtNode(e, _, _, _) => Shielded(e)
    case Entering(e, _, _, _) => Shielded(e)
    case InNode(e, _, _, inner) => Shielded(e) && ShieldedNow(inner)
    case Recorded(e, _, _, _) => Shielded(e)
    case Storing(_, next) => ShieldedNow(next)
    case _ => true
  }

  lemma {:induction false} ShieldedRoute(routes: seq<Route>, default: Option<Executable>, key: string)
    requires forall i :: 0 <= i < |routes| ==> Shielded(routes[i].target)
    requires default.Some? ==> Shielded(default.value)
    ensures Lookup(routes, default, key).Some? ==> Shielded(Lookup(routes, default, key).value)
  {
    if routes != [] { ShieldedRoute(routes[1..], default, key); }
  }

  lemma BeginShielded(o: Oracle, e: Executable, v: Value, w: World)
    requires Shielded(e)
    ensures ShieldedNow(Begin(o, e, v, w).0)
  {
    if e.Router? { ShieldedRoute(e.routes, e.default, o.choose(e.name, v)); }
  }

  lemma {:induction false} MoveShielded(o: Oracle, prompt: bool, c: Config, w: World, pick: seq<nat>)
    requires Shaped(c) && ShieldedNow(c)
    ensures ShieldedNow(Move(o, prompt, c, w, pick).0)
  {
    if c.Start? {
      BeginShielded(o, c.e, c.v, w);
    } else if (c.InSteps? || c.InTurns? || c.InNode?) && !c.inner.Returned? {
      MoveShielded(o, prompt, c.inner, w, pick);
    }
  }

  lemma {:induction false} MovesShielded(o: Oracle, prompt: bool, c: Config, w: World, picks: seq<seq<nat>>)
    requires Shaped(c) && ShieldedNow(c)
    ensures ShieldedNow(Moves(o, prompt, c, w, picks).0)
    decreases |picks|
  {
    if picks != [] {
      var (c1, w1) := Move(o, prompt, c, w, picks[0]);
      MoveShielded(o, prompt, c, w, picks[0]);
      MovesShielded(o, prompt, c1, w1, picks[1..]);
    }
  }

  lemma {:induction false} ShieldedStops(c: Config, s: State)
    requires ShieldedNow(c)
    ensures Stops(c, s) != Some(Pausing)
  {
    match c
    case InSteps(_, _, _, inner) => ShieldedStops(inner, s);
    case InTurns(_, _, _, inner) => ShieldedStops(inner, s);
    case InNode(_, _, _, inner) => ShieldedStops(inner, s);
    case _ =>
  }

  /** Where an attempt gets. */
  function Reached(o: Oracle, prompt: bool, root: Executable, input: Value, x: Execution,
                   picks: seq<seq<nat>>): (Config, World)
    requires Launch(x, root).Some?
  {
    Moves(o, prompt, Start(root, input), World(Launch(x, root).value, x.log, x.trace, []), picks)
  }

  /** Every attempt that pauses was stopped by a gate. */
  ghost predicate Genuine(o: Oracle, prompt: bool, root: Executable, input: Value, acts: seq<Act>) {
    acts == [] ||
    var (before, act) := (acts[..|acts| - 1], acts[|acts| - 1]);
    var x := Story(o, prompt, root, input, before);
    && Genuine(o, prompt, root, input, before)
    && (act.Drives? && act.ending.Pausing? && Launch(x, root).Some? ==>
          var (c, w) := Reached(o, prompt, root, input, x, act.picks);
          Stops(c, w.state) == Some(Pausing))
  }

  /** If every gate is in a branch, no interleaving ever makes the execution wait, and no decision takes
      effect. */
  lemma {:induction false} InterleavedNeverWaits(o: Oracle, prompt: bool, root: Executable, input: Value,
                                                 acts: seq<Act>)
    requires Shielded(root) && Genuine(o, prompt, root, input, acts)
    ensures Story(o, prompt, root, input, acts).status != WaitingForApproval
    ensures RuledAs(o, prompt, root, input, acts, UNDECIDED)
  {
    if acts != [] {
      var x := Story(o, prompt, root, input, acts[..|acts| - 1]);
      InterleavedNeverWaits(o, prompt, root, input, acts[..|acts| - 1]);
      match acts[|acts| - 1]
      case Drives(picks, ending) =>
        if Launch(x, root).Some? { DrivesNeverWait(o, prompt, root, input, x, picks, ending); }
      case Rules(_, _, _) =>
    }
  }

  lemma DrivesNeverWait(o: Oracle, prompt: bool, root: Executable, input: Value, x: Execution,
                        picks: seq<seq<nat>>, ending: Ending)
    requires Shielded(root) && Launch(x, root).Some?
    requires var (c, w) := Reached(o, prompt, root, input, x, picks);
      ending.Pausing? ==> Stops(c, w.state) == Some(Pausing)
    ensures Play(o, prompt, root, input, x, Drives(picks, ending)).status != WaitingForApproval
  {
    var w0 := World(Launch(x, root).value, x.log, x.trace, []);
    var (c, w) := Moves(o, prompt, Start(root, input), w0, picks);
    MovesShielded(o, prompt, Start(root, input), w0, picks);
    ShieldedStops(c, w.state);
  }

  /** And if such a gate stands in the way of the uninterrupted run, the execution never completes, however its
      branches interleave. */
  lemma {:induction false} InterleavedNeverCompletes(o: Oracle, prompt: bool, root: Executable, input: Value,
                                                     acts: seq<Act>)
    requires Tidy(root) && Shielded(root) && Genuine(o, prompt, root, input, acts)
    requires Plain(o, UNDECIDED, root, input).out.None?
    ensures var x := Story(o, prompt, root, input, acts);
      x.status != Completed && x.status != WaitingForApproval && forall id, named :: !Decides(x, id, named)
  {
    InterleavedNeverWaits(o, prompt, root, input, acts);
    InterleavedEqualsUninterrupted(o, prompt, root, UNDECIDED, input, acts);
  }
}
