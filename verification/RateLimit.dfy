/** The tool runtime's sliding-window rate limiter, for one tool name. */
module RateLimit {
  const SPAN: real := 60.0

  predicate Sorted(s: seq<real>) { forall i, j :: 0 <= i <= j < |s| ==> s[i] <= s[j] }

  /** How many of the times lie in the closed interval. */
  function Count(s: seq<real>, from: real, to: real): nat {
    if s == [] then 0 else (if from <= s[0] <= to then 1 else 0) + Count(s[1..], from, to)
  }

  lemma {:induction false} CountSplit(s: seq<real>, t: seq<real>, from: real, to: real)
    ensures Count(s + t, from, to) == Count(s, from, to) + Count(t, from, to)
  {
    if s == [] {
      assert s + t == t;
    } else {
      assert (s + t)[1..] == s[1..] + t;
      CountSplit(s[1..], t, from, to);
    }
  }

  lemma {:induction false} CountNone(s: seq<real>, from: real, to: real)
    requires forall i :: 0 <= i < |s| ==> !(from <= s[i] <= to)
    ensures Count(s, from, to) == 0
  {
    if s != [] { CountNone(s[1..], from, to); }
  }

  lemma {:induction false} CountAll(s: seq<real>, from: real, to: real)
    ensures Count(s, from, to) <= |s|
    ensures (forall i :: 0 <= i < |s| ==> from <= s[i] <= to) ==> Count(s, from, to) == |s|
  {
    if s != [] { CountAll(s[1..], from, to); }
  }

  /** Admissions that many places apart are more than a minute apart. */
  predicate Spread(s: seq<real>, limit: int) {
    limit <= 0 || forall i :: 0 <= i < |s| - limit ==> s[i + limit] - s[i] > SPAN
  }

  /** The window is the history from `dropped` on, and what was dropped is over a minute old. */
  ghost predicate Covers(admissions: seq<real>, dropped: nat, window: seq<real>, clock: real) {
    && dropped <= |admissions| && window == admissions[dropped..]
    && forall i :: 0 <= i < dropped ==> clock - admissions[i] > SPAN
  }

  class SlidingWindow {
    const limit: int
    var window: seq<real>
    ghost var admissions: seq<real>
    ghost var dropped: nat
    ghost var clock: real

    ghost predicate Valid()
      reads this
    {
      && Sorted(admissions)
      && Past(admissions, clock)
      && Covers(admissions, dropped, window, clock)
      && Spread(admissions, limit)
      && (limit <= 0 ==> admissions == [])
    }

    constructor (limit: int)
      ensures Valid() && admissions == [] && this.limit == limit && clock == 0.0
    {
      this.limit, window, admissions, dropped, clock := limit, [], [], 0, 0.0;
    }

    /** `_rate_limit` at time `now`; a limit of zero (or none) is no limit and records nothing. */
    method Admit(now: real) returns (admitted: bool)
      requires Valid() && clock <= now
      modifies this
      ensures Valid() && clock == now
      ensures limit == 0 ==> admitted && admissions == old(admissions)
      ensures limit != 0 ==> (admitted <==> Count(old(admissions), now - SPAN, now) < limit)
      ensures limit != 0 ==> admissions == if admitted then old(admissions) + [now] else old(admissions)
    {
      clock := now;
      if limit == 0 { return true; }
      Evict(now);
      WindowCounts(admissions, dropped, now);
      admitted := !(|window| >= limit);
      if admitted {
        HistoryAppend(admissions, dropped, window, limit, now);
        window, admissions := window + [now], admissions + [now];
      }
    }

    /** Drop what is over a minute old from the front. */
    method Evict(now: real)
      requires Covers(admissions, dropped, window, now)
      modifies this`window, this`dropped
      ensures Covers(admissions, dropped, window, now)
      ensures window != [] ==> now - window[0] <= SPAN
    {
      while window != [] && now - window[0] > SPAN
        invariant Covers(admissions, dropped, window, now)
        decreases |window|
      {
        window, dropped := window[1..], dropped + 1;
      }
    }
  }

  /** What is left of the history after dropping `k` stale times is what the last minute holds. */
  lemma WindowCounts(s: seq<real>, k: nat, now: real)
    requires Sorted(s) && Past(s, now) && k <= |s| && Covers(s, k, s[k..], now) && (k < |s| ==> now - s[k] <= SPAN)
    ensures Count(s, now - SPAN, now) == |s| - k
  {
    var (older, window) := (s[..k], s[k..]);
    assert s == older + window;
    CountSplit(older, window, now - SPAN, now);
    CountNone(older, now - SPAN, now);
    forall i | 0 <= i < |window| ensures now - SPAN <= window[i] <= now {
      assert window[i] == s[k + i] && s[k] <= s[k + i];
    }
    CountAll(window, now - SPAN, now);
  }

  predicate Past(s: seq<real>, clock: real) { forall i :: 0 <= i < |s| ==> s[i] <= clock }

  /** One more admission while the window has room. */
  lemma HistoryAppend(s: seq<real>, k: nat, window: seq<real>, limit: int, now: real)
    requires Sorted(s) && Past(s, now) && Covers(s, k, window, now) && Spread(s, limit) && |window| < limit
    ensures Sorted(s + [now]) && Past(s + [now], now) && Covers(s + [now], k, window + [now], now)
      && Spread(s + [now], limit)
  {
    var t := s + [now];
    assert t[k..] == window + [now];
    forall i | 0 <= i < |t| - limit ensures t[i + limit] - t[i] > SPAN {
      if i + limit == |s| { assert i < k; } else { assert s[i + limit] - s[i] > SPAN; }
    }
  }

  /** A spread history never has more than `limit` admissions in any closed minute, wherever it lies. */
  lemma SpreadBoundsEveryMinute(s: seq<real>, limit: int, from: real)
    requires Sorted(s) && Spread(s, limit) && limit > 0
    ensures Count(s, from, from + SPAN) <= limit
  {
    var k := Before(s, from);
    var (older, rest) := (s[..k], s[k..]);
    assert s == older + rest;
    CountSplit(older, rest, from, from + SPAN);
    CountNone(older, from, from + SPAN);
    if |rest| > limit {
      assert rest == rest[..limit] + rest[limit..];
      CountSplit(rest[..limit], rest[limit..], from, from + SPAN);
      Beyond(s, limit, from, k);
      CountNone(rest[limit..], from, from + SPAN);
      CountAll(rest[..limit], from, from + SPAN);
    } else {
      CountAll(rest, from, from + SPAN);
    }
  }

  lemma Beyond(s: seq<real>, limit: int, from: real, k: nat)
    requires Spread(s, limit) && limit > 0 && k + limit <= |s| && forall i :: k <= i < |s| ==> s[i] >= from
    ensures forall i :: 0 <= i < |s[k..][limit..]| ==> s[k..][limit..][i] > from + SPAN
  {
    forall i | 0 <= i < |s| - k - limit ensures s[k..][limit..][i] > from + SPAN {
      assert s[k..][limit..][i] == s[k + i + limit];
      assert s[k + i + limit] - s[k + i] > SPAN;
    }
  }

  lemma {:induction false} Before(s: seq<real>, from: real) returns (k: nat)
    requires Sorted(s)
    ensures k <= |s| && (forall i :: 0 <= i < k ==> s[i] < from) && (forall i :: k <= i < |s| ==> s[i] >= from)
  {
    k := 0;
    while k < |s| && s[k] < from
      invariant k <= |s| && forall i :: 0 <= i < k ==> s[i] < from
    {
      k := k + 1;
    }
  }
}
