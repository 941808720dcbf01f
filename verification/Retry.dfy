/** The retry loop that model calls and tool calls share. */
module Retry {
  /** What one attempt brings. `internal` errors are CoFlowAi's own or a tool's, which a tool call turns
      into a failed result; others (budget, cancellation) leave it. */
  datatype Attempt<V> = Returned(output: V) | Raised(retryable: bool, internal: bool)

  /** `entries` records every attempt of everybody; the world outside is asked by its number. */
  function Attempts<K, V>(o: nat -> Attempt<V>, key: K, left: nat, entries: seq<K>): (Attempt<V>, seq<K>)
    decreases left
  {
    var a := o(|entries|);
    if a.Raised? && a.retryable && left > 0 then Attempts(o, key, left - 1, entries + [key]) else (a, entries + [key])
  }

  /** `run_with_retry`. */
  method RunWithRetry<K, V>(o: nat -> Attempt<V>, key: K, attempts: nat, entries: seq<K>)
    returns (a: Attempt<V>, now: seq<K>)
    ensures (a, now) == Attempts(o, key, attempts, entries)
  {
    var attempt := 0;
    now := entries;
    while true
      invariant 0 <= attempt <= attempts
      invariant Attempts(o, key, attempts - attempt, now) == Attempts(o, key, attempts, entries)
      decreases attempts - attempt
    {
      a := o(|now|);
      now := now + [key];
      if a.Returned? || attempt >= attempts || !a.retryable { return; }
      attempt := attempt + 1;
    }
  }

  /** At most one attempt more than retries; each but the last failed in a way that may be retried, and
      the last one decides, failing transiently only when the retries are used up. */
  lemma {:induction false} AttemptsBounded<K, V>(o: nat -> Attempt<V>, key: K, left: nat, entries: seq<K>)
    ensures var (a, now) := Attempts(o, key, left, entries);
      && |entries| < |now| <= |entries| + left + 1
      && now[..|entries|] == entries
      && (forall i :: |entries| <= i < |now| ==> now[i] == key)
      && (forall i :: |entries| <= i < |now| - 1 ==> o(i).Raised? && o(i).retryable)
      && a == o(|now| - 1)
      && (a.Raised? && a.retryable ==> |now| == |entries| + left + 1)
    decreases left
  {
    var a, entries1 := o(|entries|), entries + [key];
    if a.Raised? && a.retryable && left > 0 {
      AttemptsBounded(o, key, left - 1, entries1);
      var now := Attempts(o, key, left, entries).1;
      assert now[..|entries|] == now[..|entries1|][..|entries|] == entries;
    }
  }
}
