/** One model-requested tool call: the pipeline, its retries and the idempotency ledger. */
module ToolExecution {
  import opened Types
  import opened Wrappers
  import opened Retry

  /** `idempotency_key`, with the hash taken as injective. */
  datatype Key = Key(execution: string, node: string, call: string)

  datatype Tool = Tool(sideEffect: bool, idempotent: bool, retries: nat)

  /** The checks before execution: budget, then registry, permission, arguments and rate limit. */
  datatype Check = Passed | OverBudget | Refused

  /** `normalise` is `validate_output`; `None` is its `ValidationError`. */
  datatype Request = Request(key: Key, tool: Tool, check: Check, override: Option<Value>,
      normalise: Value -> Option<Value>)

  datatype Outcome = Result(output: Value, replayed: bool) | Failure | Propagates

  /** `entries` records every entry into a tool. */
  datatype State = State(ledger: map<Key, Value>, toolCalls: nat, entries: seq<Key>)

  type Oracle = nat -> Attempt<Value>

  /** `_retry_policy`. */
  function Retries(tool: Tool): nat { if tool.sideEffect && !tool.idempotent then 0 else tool.retries }

  function Recorded(ledger: map<Key, Value>, key: Key): Value { if key in ledger then ledger[key] else Null }

  function Counted(s: State): State { s.(toolCalls := s.toolCalls + 1) }

  /** `ToolExecutor.execute`. */
  function Call(o: Oracle, r: Request, s: State): (Outcome, State) {
    if r.check == OverBudget then (Propagates, s)
    else if r.check == Refused then (Failure, Counted(s))
    else if r.override.Some? then (Result(r.override.value, true), Counted(s))
    else if r.tool.sideEffect && Recorded(s.ledger, r.key) != Null
    then (Result(Recorded(s.ledger, r.key), true), Counted(s))
    else
      var (a, entries) := Attempts(o, r.key, Retries(r.tool), s.entries);
      var s1 := s.(entries := entries);
      match a
      case Raised(_, internal) => if internal then (Failure, Counted(s1)) else (Propagates, s1)
      case Returned(raw) =>
        var output := r.normalise(raw);
        if output.None? then (Failure, Counted(s1))
        else
          var s2 := if r.tool.sideEffect then s1.(ledger := s1.ledger[r.key := output.value]) else s1;
          (Result(output.value, false), Counted(s2))
  }

  // ------------------------------------------------------------------ the executor

  class ToolExecutor {
    const oracle: Oracle
    var ledger: map<Key, Value>
    var toolCalls: nat
    var entries: seq<Key>

    constructor (oracle: Oracle, s: State)
      ensures this.oracle == oracle && Now() == s
    {
      this.oracle, ledger, toolCalls, entries := oracle, s.ledger, s.toolCalls, s.entries;
    }

    function Now(): State
      reads this
    {
      State(ledger, toolCalls, entries)
    }

    method Execute(r: Request) returns (outcome: Outcome)
      modifies this
      ensures (outcome, Now()) == Call(oracle, r, old(Now()))
    {
      if r.check == OverBudget { return Propagates; }
      if r.check == Refused {
        toolCalls := toolCalls + 1;
        return Failure;
      }
      if r.override.Some? {
        toolCalls := toolCalls + 1;
        return Result(r.override.value, true);
      }
      if r.tool.sideEffect && r.key in ledger && ledger[r.key] != Null {
        toolCalls := toolCalls + 1;
        return Result(ledger[r.key], true);
      }
      var a;
      a, entries := RunWithRetry(oracle, r.key, Retries(r.tool), entries);
      if a.Raised? {
        if !a.internal { return Propagates; }
        toolCalls := toolCalls + 1;
        return Failure;
      }
      var output := r.normalise(a.output);
      if output.None? {
        toolCalls := toolCalls + 1;
        return Failure;
      }
      if r.tool.sideEffect { ledger := ledger[r.key := output.value]; }
      toolCalls := toolCalls + 1;
      outcome := Result(output.value, false);
    }
  }

  // ------------------------------------------------------------------ what a call answers

  /** Nothing stops the call before its tool: no check, no override, no recorded output. */
  predicate Enters(r: Request, s: State) {
    && r.check == Passed && r.override.None?
    && !(r.tool.sideEffect && r.key in s.ledger && s.ledger[r.key] != Null)
  }

  /** A call that does not enter its tool leaves ledger and tool alone; past its checks it is answered by the override
      or else by the recorded output. */
  lemma AnsweredWithoutTool(o: Oracle, r: Request, s: State)
    requires !Enters(r, s)
    ensures var (outcome, t) := Call(o, r, s);
      && t.entries == s.entries && t.ledger == s.ledger
      && (r.check == OverBudget ==> outcome == Propagates && t.toolCalls == s.toolCalls)
      && (r.check == Refused ==> outcome == Failure && t.toolCalls == s.toolCalls + 1)
      && (r.check == Passed ==> t.toolCalls == s.toolCalls + 1)
      && (r.check == Passed ==>
            outcome == Result(if r.override.Some? then r.override.value else s.ledger[r.key], true))
  {
  }

  /** A call that enters its tool does so for itself, at most once more than it may retry, and the last attempt
      decides: its normalised output is returned, and recorded exactly for a tool with side effects; an output that
      does not validate and a tool's own error fail the call, any other exception leaves it uncounted. */
  lemma AnsweredByLastAttempt(o: Oracle, r: Request, s: State)
    requires Enters(r, s)
    ensures var (outcome, t) := Call(o, r, s);
      var retries := if r.tool.sideEffect && !r.tool.idempotent then 0 else r.tool.retries;
      && |s.entries| < |t.entries| <= |s.entries| + retries + 1
      && s.entries <= t.entries && (forall i :: |s.entries| <= i < |t.entries| ==> t.entries[i] == r.key)
      && (forall i :: |s.entries| <= i < |t.entries| - 1 ==> o(i).Raised? && o(i).retryable)
      && var last := o(|t.entries| - 1);
         && (last.Raised? && last.retryable ==> |t.entries| == |s.entries| + retries + 1)
         && (last.Raised? ==> outcome == (if last.internal then Failure else Propagates) && t.ledger == s.ledger)
         && (last.Returned? && r.normalise(last.output).None? ==> outcome == Failure && t.ledger == s.ledger)
         && (last.Returned? && r.normalise(last.output).Some? ==>
               && outcome == Result(r.normalise(last.output).value, false)
               && t.ledger == if r.tool.sideEffect then s.ledger[r.key := outcome.output] else s.ledger)
         && t.toolCalls == s.toolCalls + (if last.Raised? && !last.internal then 0 else 1)
  {
    AttemptsBounded(o, r.key, Retries(r.tool), s.entries);
  }

  // ------------------------------------------------------------------ entering a tool

  /** Rule 8: one call enters a non-idempotent side-effect tool at most once, whatever it raises. */
  lemma SideEffectEnteredOnce(o: Oracle, r: Request, s: State)
    requires r.tool.sideEffect && !r.tool.idempotent
    ensures |s.entries| <= |Call(o, r, s).1.entries| <= |s.entries| + 1
  {
    AttemptsBounded(o, r.key, 0, s.entries);
  }

  // ------------------------------------------------------------------ the ledger along a lineage

  /** Calls, checkpoints of the ledger, and restores from them. */
  datatype Op = Do(request: Request) | Save | Restore(checkpoint: nat)

  datatype Lineage = Lineage(now: State, saved: seq<map<Key, Value>>)

  function Apply(o: Oracle, l: Lineage, op: Op): Lineage {
    match op
    case Do(r) => l.(now := Call(o, r, l.now).1)
    case Save => l.(saved := l.saved + [l.now.ledger])
    case Restore(c) => if c < |l.saved| then l.(now := l.now.(ledger := l.saved[c])) else l
  }

  function Through(o: Oracle, l: Lineage, ops: seq<Op>): Lineage {
    if ops == [] then l else Apply(o, Through(o, l, ops[..|ops| - 1]), ops[|ops| - 1])
  }

  /** `key` is recorded with output `v` now and in every checkpoint from number `from` on. */
  ghost predicate Holds(l: Lineage, key: Key, v: Value, from: nat) {
    && from <= |l.saved|
    && Recorded(l.now.ledger, key) == v
    && forall c :: from <= c < |l.saved| ==> Recorded(l.saved[c], key) == v
  }

  lemma CallKeepsRecord(o: Oracle, r: Request, s: State, key: Key)
    requires Recorded(s.ledger, key) != Null
    ensures Recorded(Call(o, r, s).1.ledger, key) == Recorded(s.ledger, key)
  {
    AttemptsBounded(o, r.key, Retries(r.tool), s.entries);
  }

  lemma {:induction false} RecordHolds(o: Oracle, l: Lineage, ops: seq<Op>, key: Key, v: Value)
    requires v != Null && Holds(l, key, v, |l.saved|)
    requires forall i :: 0 <= i < |ops| && ops[i].Restore? ==> ops[i].checkpoint >= |l.saved|
    ensures Holds(Through(o, l, ops), key, v, |l.saved|)
  {
    if ops != [] {
      RecordHolds(o, l, ops[..|ops| - 1], key, v);
      var before := Through(o, l, ops[..|ops| - 1]);
      match ops[|ops| - 1]
      case Do(r) => CallKeepsRecord(o, r, before.now, key);
      case Save =>
      case Restore(c) =>
    }
  }

  /** Once a side-effect call has recorded a non-null output, no later call with that key runs a
      side-effect tool again, through any calls, saves and restores from later checkpoints. */
  lemma RecordedCallNeverRunsAgain(o: Oracle, l: Lineage, r: Request, ops: seq<Op>, again: Request)
    requires r.tool.sideEffect && again.tool.sideEffect && again.key == r.key
    requires var (outcome, _) := Call(o, r, l.now); outcome.Result? && !outcome.replayed && outcome.output != Null
    requires forall i :: 0 <= i < |ops| && ops[i].Restore? ==> ops[i].checkpoint >= |l.saved|
    ensures var after := Through(o, Apply(o, l, Do(r)), ops);
      var (outcome, s) := Call(o, again, after.now);
      && s.entries == after.now.entries
      && (again.check == Passed && again.override.None? ==> outcome == Result(Call(o, r, l.now).0.output, true))
  {
    AttemptsBounded(o, r.key, Retries(r.tool), l.now.entries);
    var l1 := Apply(o, l, Do(r));
    RecordHolds(o, l1, ops, r.key, Call(o, r, l.now).0.output);
  }

  /** Exactly when a repeated side-effect call stays out of the tool: a check or an override stops it,
      or the ledger has a non-null output. In particular a null output, or one that failed
      `validate_output`, is run again. */
  lemma EntersIffNothingRecorded(o: Oracle, r: Request, s: State)
    requires r.tool.sideEffect
    ensures Call(o, r, s).1.entries != s.entries
       <==> r.check == Passed && r.override.None? && Recorded(s.ledger, r.key) == Null
  {
    AttemptsBounded(o, r.key, Retries(r.tool), s.entries);
  }

  /** A tool that returns null is entered on every repetition. */
  lemma NullOutputRunsAgain(o: Oracle, r: Request, s: State)
    requires r.tool.sideEffect && r.check == Passed && r.override.None? && Recorded(s.ledger, r.key) == Null
    requires Call(o, r, s).0 == Result(Null, false)
    ensures |Call(o, r, Call(o, r, s).1).1.entries| > |Call(o, r, s).1.entries|
  {
    AttemptsBounded(o, r.key, Retries(r.tool), s.entries);
    AttemptsBounded(o, r.key, Retries(r.tool), Call(o, r, s).1.entries);
  }
}
