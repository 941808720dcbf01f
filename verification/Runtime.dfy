/** The runtime around an attempt: `run`, `resume`, `approve` and `reject` over the stored record and
    the append-only checkpoint log. */
module Runtime {
  import opened Types
  import opened Wrappers
  import opened Workflows

  datatype Status = Created | Running | Waiting | WaitingForApproval | Retrying
                  | Completed | Failed | Cancelled | TimedOut

  const TERMINAL := {Completed, Failed, Cancelled, TimedOut}

  const RESUMABLE := {Created, Running, Waiting, WaitingForApproval, Retrying, Failed}

  function Successors(s: Status): set<Status> {
    match s
    case Created => {Running, Cancelled}
    case Running => {Waiting, WaitingForApproval, Retrying, Completed, Failed, Cancelled, TimedOut}
    case Waiting => {Running, Cancelled, TimedOut}
    case WaitingForApproval => {Running, Failed, Cancelled, TimedOut}
    case Retrying => {Running, Failed, Cancelled, TimedOut}
    case Failed => {Running}
    case _ => {}
  }

  /** `_transition` accepts `to`. */
  predicate MayBecome(from: Status, to: Status) { from == to || to in Successors(from) }

  /** `_status_for`. */
  function StatusFor(error: Error): Status {
    match error
    case Fault(AsCancelled) => Cancelled
    case Fault(AsTimedOut) => TimedOut
    case _ => Failed
  }

  /** What is stored about one execution; `trace` records what its attempts did. */
  datatype Execution = Execution(status: Status, output: Option<Value>, log: seq<Checkpoint>, trace: seq<Event>)

  const NEW := Execution(Created, None, [], [])

  /** The second half of `_drive`: an attempt that started from status Running has ended in `w`. The
      process may still die before, between or after the two writes. */
  function Settle(r: Outcome, w: World, output: Option<Value>): Execution {
    var cut := Execution(Running, output, w.log, w.trace);
    if r.Crashed? || Next(w) == Crash then cut
    else
      var w1 := Tick(w);
      match r
      case Done(v) =>
        Execution(Completed, Some(v), if Next(w1) == Crash then w.log else Save(w1, Final).log, w.trace)
      case Paused(_) =>
        cut.(log := Save(w1, AtApproval).log, status := if Next(w1) == Crash then Running else WaitingForApproval)
      case Errored(error) =>
        cut.(log := Save(w1, AtFailure).log, status := if Next(w1) == Crash then Running else StatusFor(error))
      case Crashed => cut
  }

  function Drive(o: Oracle, target: Executable, input: Value, x: Execution, state: State, fates: seq<Fate>): Execution {
    var (r, w) := Run(o, target, input, World(state, x.log, x.trace, fates));
    Settle(r, w, x.output)
  }

  function Latest(x: Execution): State
    requires x.log != []
  {
    x.log[|x.log| - 1].state
  }

  /** `resume` raises instead of driving: the status, a missing checkpoint, or another definition. */
  predicate Resumes(x: Execution, target: Executable) {
    && x.status in RESUMABLE
    && x.log != []
    && (Latest(x).rootHash.Some? && target.Workflow? ==> Latest(x).rootHash == Some(Sign(target)))
  }

  function Resume(o: Oracle, target: Executable, input: Value, x: Execution, fates: seq<Fate>): Execution {
    if Resumes(x, target) then Drive(o, target, input, x, Latest(x), fates) else x
  }

  /** `_decide` finds an entry: the named one, or for no name a pending one. */
  predicate Decides(x: Execution, id: string, named: bool) {
    && x.status == WaitingForApproval
    && x.log != []
    && id in Latest(x).ledger
    && (!named ==> Latest(x).ledger[id] == Pending)
  }

  function Decide(x: Execution, id: string, named: bool, verdict: Decision): Execution {
    if Decides(x, id, named) then
      var s := Latest(x);
      x.(log := x.log + [Checkpoint(Decided, s.(ledger := s.ledger[id := verdict]))])
    else x
  }

  /** `t` has the verdict on `id`, and is otherwise `s`. */
  ghost predicate OnlyDecided(s: State, t: State, id: string, verdict: Decision) {
    && id in t.ledger && t.ledger[id] == verdict
    && t.ledger.Keys == s.ledger.Keys + {id}
    && (forall other :: other in s.ledger && other != id ==> t.ledger[other] == s.ledger[other])
    && t.completed == s.completed && t.lastOutput == s.lastOutput && t.hashes == s.hashes && t.rootHash == s.rootHash
  }

  /** The runtime object of one execution, updated in place. */
  class Driver {
    const oracle: Oracle
    const input: Value
    var status: Status
    var output: Option<Value>
    var log: seq<Checkpoint>
    var trace: seq<Event>

    constructor (oracle: Oracle, input: Value)
      ensures this.oracle == oracle && this.input == input && Stored() == NEW
    {
      this.oracle, this.input := oracle, input;
      status, output, log, trace := Created, None, [], [];
    }

    function Stored(): Execution
      reads this
    {
      Execution(status, output, log, trace)
    }

    /** `_drive`: one attempt, then its effect on the record and the log. */
    method RunAttempt(target: Executable, state: State, fates: seq<Fate>)
      requires MayBecome(status, Running)
      modifies this
      ensures Stored() == Drive(oracle, target, input, old(Stored()), state, fates)
    {
      Become(Running);
      var attempt := new Attempt(oracle, state, log, trace, fates);
      var r := attempt.Execute(target, input);
      Finish(r, attempt);
    }

    /** `_complete`, `_pause_for_approval` and `_fail`. */
    method Finish(r: Outcome, attempt: Attempt)
      requires status == Running
      modifies this, attempt`fates
      ensures Stored() == Settle(r, old(attempt.Now()), old(output))
      ensures trace == attempt.trace
      ensures old(attempt.fates) == [] && !r.Crashed? ==>
        && |log| == |attempt.log| + 1 && attempt.log <= log && log[|attempt.log|].state == attempt.state
        && match r
           case Done(v) => status == Completed && output == Some(v) && log[|attempt.log|].reason == Final
           case Paused(_) =>
             status == WaitingForApproval && output == old(output) && log[|attempt.log|].reason == AtApproval
           case Errored(error) =>
             && output == old(output) && log[|attempt.log|].reason == AtFailure
             && (error == Fault(AsCancelled) ==> status == Cancelled)
             && (error == Fault(AsTimedOut) ==> status == TimedOut)
             && (error != Fault(AsCancelled) && error != Fault(AsTimedOut) ==> status == Failed)
    {
      log, trace := attempt.log, attempt.trace;
      if r.Crashed? { return; }
      var f := attempt.Await();
      if f == Crash { return; }
      f := attempt.Await();
      match r {
        case Done(v) =>
          Become(Completed);
          output := Some(v);
          if f != Crash { log := log + [Checkpoint(Final, attempt.state)]; }
        case Paused(_) =>
          log := log + [Checkpoint(AtApproval, attempt.state)];
          if f != Crash { Become(WaitingForApproval); }
        case Errored(error) =>
          log := log + [Checkpoint(AtFailure, attempt.state)];
          if f != Crash { Become(StatusFor(error)); }
      }
    }

    method Become(to: Status)
      requires MayBecome(status, to)
      modifies this`status
      ensures status == to
    {
      status := to;
    }

    method Start(target: Executable, fates: seq<Fate>)
      requires Stored() == NEW
      modifies this
      ensures Stored() == Drive(oracle, target, input, NEW, FRESH, fates)
    {
      RunAttempt(target, FRESH, fates);
    }

    method ResumeFrom(target: Executable, fates: seq<Fate>) returns (refused: bool)
      modifies this
      ensures refused == !Resumes(old(Stored()), target)
      ensures Stored() == Resume(oracle, target, input, old(Stored()), fates)
    {
      if status !in RESUMABLE || log == [] { return true; }
      var state := log[|log| - 1].state;
      if state.rootHash.Some? && target.Workflow? && state.rootHash != Some(Sign(target)) { return true; }
      RunAttempt(target, state, fates);
      refused := false;
    }

    /** `approve` and `reject` before they resume. `id` is the entry `_decide` picked. */
    method Record(id: string, named: bool, verdict: Decision) returns (refused: bool)
      modifies this
      ensures refused == !Decides(old(Stored()), id, named)
      ensures Stored() == Decide(old(Stored()), id, named, verdict)
      ensures refused <==>
        || old(status) != WaitingForApproval || old(log) == []
        || id !in old(log)[|old(log)| - 1].state.ledger
        || (!named && old(log)[|old(log)| - 1].state.ledger[id] != Pending)
      ensures status == old(status) && output == old(output) && trace == old(trace)
      ensures refused ==> log == old(log)
      ensures !refused ==>
        && |log| == |old(log)| + 1 && old(log) <= log
        && OnlyDecided(old(log)[|old(log)| - 1].state, log[|old(log)|].state, id, verdict)
    {
      if status != WaitingForApproval || log == [] { return true; }
      var state := log[|log| - 1].state;
      if id !in state.ledger || (!named && state.ledger[id] != Pending) { return true; }
      log := log + [Checkpoint(Decided, state.(ledger := state.ledger[id := verdict]))];
      refused := false;
    }
  }
}
