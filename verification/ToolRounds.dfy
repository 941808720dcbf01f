/** A round of concurrent tool calls against one context: how far the calls in flight can carry the
    counter past its limit. */
module ToolRounds {
  import opened Numbers

  /** `entered` calls hold the semaphore and have not been checked, `inFlight` ones have passed
      `check_tool_budget` and not been counted yet. A failed check ends the round: the task group
      cancels the others. */
  datatype Round = Round(waiting: nat, entered: nat, inFlight: nat, toolCalls: int, aborted: bool)

  datatype Step = Enter | Check | Count | CancelInFlight

  predicate Possible(r: Round, s: Step, permits: nat) {
    match s
    case Enter => !r.aborted && r.waiting > 0 && r.entered + r.inFlight < permits
    case Check => !r.aborted && r.entered > 0
    case Count => r.inFlight > 0
    case CancelInFlight => r.aborted && r.inFlight > 0
  }

  function Take(r: Round, s: Step, limit: int): Round
    requires r.waiting > 0 || !s.Enter?
    requires r.entered > 0 || !s.Check?
    requires r.inFlight > 0 || (!s.Count? && !s.CancelInFlight?)
  {
    match s
    case Enter => r.(waiting := r.waiting - 1, entered := r.entered + 1)
    case Check =>
      if r.toolCalls >= limit then r.(entered := r.entered - 1, aborted := true)
      else r.(entered := r.entered - 1, inFlight := r.inFlight + 1)
    case Count => r.(inFlight := r.inFlight - 1, toolCalls := r.toolCalls + 1)
    case CancelInFlight => r.(inFlight := r.inFlight - 1)
  }

  ghost predicate Run(rs: seq<Round>, steps: seq<Step>, calls: nat, start: int, limit: int, permits: nat) {
    && |rs| == |steps| + 1 && rs[0] == Round(calls, 0, 0, start, false)
    && forall i :: 0 <= i < |steps| ==> Possible(rs[i], steps[i], permits) && rs[i + 1] == Take(rs[i], steps[i], limit)
  }

  /** At every interleaving of a round with `permits` concurrent calls. */
  lemma {:induction false} OvershootBounded(rs: seq<Round>, steps: seq<Step>, n: nat,
                                            calls: nat, start: int, limit: int, permits: nat)
    requires Run(rs, steps, calls, start, limit, permits) && n < |rs| && permits >= 1
    ensures rs[n].toolCalls + rs[n].inFlight <= Max(start, limit - 1 + permits)
    ensures rs[n].entered + rs[n].inFlight <= permits && start <= rs[n].toolCalls
    ensures rs[n].toolCalls + rs[n].inFlight + rs[n].entered + rs[n].waiting <= start + calls
    ensures start >= limit ==> rs[n].toolCalls == start && rs[n].inFlight == 0
    ensures !rs[n].aborted ==> rs[n].toolCalls + rs[n].inFlight + rs[n].entered + rs[n].waiting == start + calls
  {
    if n > 0 {
      OvershootBounded(rs, steps, n - 1, calls, start, limit, permits);
      assert rs[n - 1 + 1] == Take(rs[n - 1], steps[n - 1], limit);
    }
  }

  /** STRICT mode, or a single call, runs them one at a time: the limit itself holds. */
  lemma OneAtATimeWithinLimit(rs: seq<Round>, steps: seq<Step>, n: nat, calls: nat, start: int, limit: int)
    requires Run(rs, steps, calls, start, limit, 1) && n < |rs|
    ensures rs[n].toolCalls <= Max(start, limit)
  {
    OvershootBounded(rs, steps, n, calls, start, limit, 1);
  }

  /** The most a round can count, from below the limit. */
  function Peak(calls: nat, start: int, limit: int, permits: nat): int { Min(start + calls, limit - 1 + permits) }

  /** It is reached: call by call up to one below the limit, and then with as many calls as there are
      permits, all checked before any is counted. */
  lemma PeakReached(calls: nat, start: int, limit: int, permits: nat) returns (rs: seq<Round>, steps: seq<Step>)
    requires permits >= 1 && start < limit
    ensures Run(rs, steps, calls, start, limit, permits) && rs[|steps|].toolCalls == Peak(calls, start, limit, permits)
  {
    var alone := Min(calls, limit - 1 - start);
    rs, steps := OneByOne(calls, start, limit, permits, alone);
    var together := Min(calls - alone, permits);
    for i := 0 to together
      invariant Run(rs, steps, calls, start, limit, permits)
      invariant rs[|steps|] == Round(calls - alone - i, 0, i, start + alone, false)
    {
      var entered := Take(rs[|steps|], Enter, limit);
      rs, steps := rs + [entered], steps + [Enter];
      rs, steps := rs + [Take(entered, Check, limit)], steps + [Check];
    }
    for i := 0 to together
      invariant Run(rs, steps, calls, start, limit, permits)
      invariant rs[|steps|] == Round(calls - alone - together, 0, together - i, start + alone + i, false)
    {
      rs, steps := rs + [Take(rs[|steps|], Count, limit)], steps + [Count];
    }
  }

  lemma OneByOne(calls: nat, start: int, limit: int, permits: nat, alone: nat)
    returns (rs: seq<Round>, steps: seq<Step>)
    requires permits >= 1 && alone <= calls && start + alone < limit
    ensures Run(rs, steps, calls, start, limit, permits)
    ensures rs[|steps|] == Round(calls - alone, 0, 0, start + alone, false)
  {
    rs, steps := [Round(calls, 0, 0, start, false)], [];
    for i := 0 to alone
      invariant Run(rs, steps, calls, start, limit, permits)
      invariant rs[|steps|] == Round(calls - i, 0, 0, start + i, false)
    {
      var entered := Take(rs[|steps|], Enter, limit);
      var checked := Take(entered, Check, limit);
      rs, steps := rs + [entered], steps + [Enter];
      rs, steps := rs + [checked], steps + [Check];
      rs, steps := rs + [Take(checked, Count, limit)], steps + [Count];
    }
  }

  /** Some schedule counts beyond the limit. */
  ghost predicate CanPass(calls: nat, start: int, limit: int, permits: nat) {
    exists rs: seq<Round>, steps: seq<Step>, n: nat ::
      Run(rs, steps, calls, start, limit, permits) && n < |rs| && rs[n].toolCalls > limit
  }

  /** How many calls of a round run at once: in STRICT mode one after another. */
  function Permits(strict: bool, maxConcurrency: int): nat { if strict then 1 else AtLeastOne(maxConcurrency) }

  /** From below the limit, a round can pass it exactly if two calls may run at once, which STRICT mode does not
      allow, and there are more calls than the limit leaves room for. */
  lemma PassesLimitIff(calls: nat, start: int, limit: int, strict: bool, maxConcurrency: int)
    requires start < limit
    ensures CanPass(calls, start, limit, Permits(strict, maxConcurrency))
       <==> !strict && maxConcurrency >= 2 && calls > limit - start
  {
    var permits := Permits(strict, maxConcurrency);
    if CanPass(calls, start, limit, permits) {
      var rs: seq<Round>, steps: seq<Step>, n: nat :|
        Run(rs, steps, calls, start, limit, permits) && n < |rs| && rs[n].toolCalls > limit;
      OvershootBounded(rs, steps, n, calls, start, limit, permits);
    }
    if permits >= 2 && calls > limit - start {
      var rs, steps := PeakReached(calls, start, limit, permits);
      assert |steps| < |rs| && rs[|steps|].toolCalls > limit;
    }
  }
}
