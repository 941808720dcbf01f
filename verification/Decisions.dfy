/** What a decision does: it is stored, and lets the execution that waits for it complete. */
module Decisions {
  import opened Types
  import opened Workflows
  import opened DurableExecution
  import opened PlainEquivalence
  import opened WorkflowNames
  import opened Runtime
  import opened RuntimeHistory

  /** A decision that is taken is in the latest checkpoint, which is otherwise as it was; one that is refused
      changes nothing. */
  lemma DecisionIsStored(x: Execution, id: string, named: bool, verdict: Decision)
    ensures var y := Decide(x, id, named, verdict);
      && y.status == x.status && y.output == x.output && y.trace == x.trace
      && (!Decides(x, id, named) ==> y == x)
      && (Decides(x, id, named) ==>
            && |y.log| == |x.log| + 1 && y.log[..|x.log|] == x.log
            && OnlyDecided(Latest(x), Latest(y), id, verdict))
  {
  }

  /** A decision is taken exactly if the execution waits and its latest checkpoint has the entry, still pending
      unless it was named. */
  lemma DecidesIff(x: Execution, id: string, named: bool)
    ensures Decides(x, id, named) <==>
      x.status == WaitingForApproval && x.log != [] &&
      var ledger := x.log[|x.log| - 1].state.ledger;
      id in ledger && (named || ledger[id] == Pending)
  {
  }

  /** An attempt that nothing disturbs and that a gate stops leaves the execution waiting, with that gate's entry
      pending in its latest checkpoint: it can be decided. */
  lemma {:induction false} PausedIsDecidable(o: Oracle, root: Executable, d: string -> Decision, input: Value,
                                             x: Execution, s: State, id: string, named: bool)
    requires var plain := Plain(o, d, root, input);
      Consistent(plain.facts) && Truthful(x, root, d, plain) && Sound(s, d, plain.facts)
    requires Run(o, root, input, World(s, x.log, x.trace, [])).0 == Paused(id)
    ensures var y := Drive(o, root, input, x, s, []);
      y.status == WaitingForApproval && Decides(y, id, named) && Entry(Latest(y), id) == Pending
  {
    RunSound(o, d, Plain(o, d, root, input).facts, root, input, World(s, x.log, x.trace, []));
  }

  /** An execution waits at its only undecided gate, somebody decides it, and nothing disturbs the resume that
      follows: it completes with the output of the uninterrupted run under that decision. */
  lemma {:induction false} DecidedResumeCompletes(o: Oracle, root: Executable, d: string -> Decision, input: Value,
                                                  fates: seq<Fate>, ops: seq<Op>, id: string, named: bool)
    requires Runnable(root) && Tidy(root) && DecidedAs(o, root, input, fates, ops, d) && Unambiguous(root, ops)
    requires Plain(o, d, root, input).out.Some?
    requires var x := After(o, root, input, fates, ops);
      Decides(x, id, named) && forall other :: other != id ==> Entry(Latest(x), other) == d(other)
    ensures var y := After(o, root, input, fates, ops + [DecideOn(id, named, d(id)), ResumeWith(root, [])]);
      y.status == Completed && y.output == Plain(o, d, root, input).out
  {
    var x := After(o, root, input, fates, ops);
    var decided := ops + [DecideOn(id, named, d(id))];
    AfterThen(o, root, input, fates, ops, DecideOn(id, named, d(id)));
    DecisionIsStored(x, id, named, d(id));
    var y := After(o, root, input, fates, decided);
    forall other ensures Entry(Latest(y), other) == d(other) {
      if other != id { assert Entry(Latest(y), other) == Entry(Latest(x), other); }
    }
    assert decided[..|decided| - 1] == ops;
    assert Unambiguous(root, decided);
    UndisturbedResumeCompletes(o, root, d, input, fates, decided);
    assert decided + [ResumeWith(root, [])] == ops + [DecideOn(id, named, d(id)), ResumeWith(root, [])];
  }

  /** From the beginning: a run that stops at its only gate is asked, decided and resumed, and completes. */
  lemma {:induction false} AskedDecidedCompleted(o: Oracle, root: Executable, d: string -> Decision, input: Value,
                                                 id: string)
    requires Runnable(root) && Tidy(root) && Plain(o, d, root, input).out.Some?
    requires forall other :: other != id ==> d(other) == Pending
    requires Run(o, root, input, World(FRESH, [], [], [])).0 == Paused(id)
    ensures var y := After(o, root, input, [], [DecideOn(id, true, d(id)), ResumeWith(root, [])]);
      y.status == Completed && y.output == Plain(o, d, root, input).out
  {
    TidyConsistent(o, d, root, input);
    var plain := Plain(o, d, root, input);
    assert Truthful(NEW, root, d, plain) && Sound(FRESH, d, plain.facts);
    PausedIsDecidable(o, root, d, input, NEW, FRESH, id, true);
    var x := After(o, root, input, [], []);
    var w := World(FRESH, [], [], []);
    RunExtends(Flows(root), o, root, input, w);
    forall other | other != id ensures Entry(Latest(x), other) == d(other) {
      assert Entry(Run(o, root, input, w).1.state, other) == Entry(FRESH, other);
    }
    DecidedResumeCompletes(o, root, d, input, [], [], id, true);
    assert [] + [DecideOn(id, true, d(id)), ResumeWith(root, [])] == [DecideOn(id, true, d(id)), ResumeWith(root, [])];
  }

  // ------------------------------------------------------------------ cancelling, and the state machine

  /** `cancel` of an execution that nobody drives: it is over unless it was, and nothing else changes. */
  lemma CancelEnds(o: Oracle, input: Value, x: Execution)
    ensures var y := Apply(o, input, x, Cancel);
      && y.output == x.output && y.log == x.log && y.trace == x.trace
      && (x.status in {Completed, Failed, Cancelled, TimedOut} ==> y.status == x.status)
      && (x.status !in {Completed, Failed, Cancelled, TimedOut} ==> y.status == Cancelled)
  {
  }

  /** A completed, cancelled or timed-out execution is never anything else again, whatever is called. */
  lemma {:induction false} OverIsOver(o: Oracle, input: Value, x: Execution, ops: seq<Op>)
    requires x.status in {Completed, Cancelled, TimedOut}
    ensures Continue(o, input, x, ops) == x
  {
    if ops != [] { OverIsOver(o, input, x, ops[..|ops| - 1]); }
  }

  /** An execution is completed, waiting or timed out only by being driven: no legal transition leads there except
      from running, and none leads out of completed, cancelled and timed out. */
  lemma LegalTransitions(from: Status, to: Status)
    requires MayBecome(from, to) && from != to
    ensures to in {Completed, WaitingForApproval, Waiting, Retrying} ==> from == Running
    ensures from !in {Completed, Cancelled, TimedOut} && to != Created
    ensures to == Failed ==> from in {Running, WaitingForApproval, Retrying}
    ensures from == Created ==> to in {Running, Cancelled}
    ensures from == Failed ==> to == Running
  {
  }

  /** And these are all: whatever is not over can be run, and what runs can end in every way. */
  lemma TransitionsExist(from: Status)
    ensures from !in {Completed, Cancelled, TimedOut} ==> MayBecome(from, Running)
    ensures from !in {Completed, Cancelled, TimedOut, Failed} ==> MayBecome(from, Cancelled)
    ensures forall to :: to in {Completed, WaitingForApproval, Failed, Cancelled, TimedOut} ==> MayBecome(Running, to)
  {
  }
}
