/** Schedules put together: what one coroutine can do alone, it can do as part of a tree. */
module Schedules {
  import opened Workflows
  import opened Interleaving
  import opened InterleavingEquivalence

  /** The schedule leads from `c` to `c1`, and no move comes after the coroutine has returned. */
  predicate Goes(o: Oracle, prompt: bool, c: Config, w: World, picks: seq<seq<nat>>, c1: Config, w1: World)
    decreases |picks|
  {
    Shaped(c) &&
    if picks == [] then (c1, w1) == (c, w)
    else !c.Returned? && var (c0, w0) := Move(o, prompt, c, w, picks[0]); Goes(o, prompt, c0, w0, picks[1..], c1, w1)
  }

  /** Some schedule does. */
  ghost predicate Leads(o: Oracle, prompt: bool, c: Config, w: World, c1: Config, w1: World) {
    exists picks :: Goes(o, prompt, c, w, picks, c1, w1)
  }

  lemma {:induction false} GoesMoves(o: Oracle, prompt: bool, c: Config, w: World, picks: seq<seq<nat>>, c1: Config,
                                     w1: World)
    requires Goes(o, prompt, c, w, picks, c1, w1)
    ensures Shaped(c1) && Moves(o, prompt, c, w, picks) == (c1, w1)
    decreases |picks|
  {
    if picks != [] {
      var (c0, w0) := Move(o, prompt, c, w, picks[0]);
      GoesMoves(o, prompt, c0, w0, picks[1..], c1, w1);
    }
  }

  lemma LeadsNowhere(o: Oracle, prompt: bool, c: Config, w: World)
    requires Shaped(c)
    ensures Leads(o, prompt, c, w, c, w)
  {
    assert Goes(o, prompt, c, w, [], c, w);
  }

  lemma LeadsOne(o: Oracle, prompt: bool, c: Config, w: World, pick: seq<nat>)
    requires Shaped(c) && !c.Returned?
    ensures var (c1, w1) := Move(o, prompt, c, w, pick); Leads(o, prompt, c, w, c1, w1)
  {
    var (c1, w1) := Move(o, prompt, c, w, pick);
    assert Goes(o, prompt, c1, w1, [pick][1..], c1, w1);
    assert Goes(o, prompt, c, w, [pick], c1, w1);
  }

  lemma {:induction false} GoesThen(o: Oracle, prompt: bool, c: Config, w: World, p: seq<seq<nat>>, c1: Config,
                                    w1: World, q: seq<seq<nat>>, c2: Config, w2: World)
    requires Goes(o, prompt, c, w, p, c1, w1) && Goes(o, prompt, c1, w1, q, c2, w2)
    ensures Goes(o, prompt, c, w, p + q, c2, w2)
    decreases |p|
  {
    if p == [] {
      assert p + q == q;
    } else {
      var (c0, w0) := Move(o, prompt, c, w, p[0]);
      GoesThen(o, prompt, c0, w0, p[1..], c1, w1, q, c2, w2);
      assert (p + q)[1..] == p[1..] + q;
    }
  }

  lemma LeadsThen(o: Oracle, prompt: bool, c: Config, w: World, c1: Config, w1: World, c2: Config, w2: World)
    requires Leads(o, prompt, c, w, c1, w1) && Leads(o, prompt, c1, w1, c2, w2)
    ensures Leads(o, prompt, c, w, c2, w2)
  {
    var p :| Goes(o, prompt, c, w, p, c1, w1);
    var q :| Goes(o, prompt, c1, w1, q, c2, w2);
    GoesThen(o, prompt, c, w, p, c1, w1, q, c2, w2);
  }

  /** One more move. */
  lemma LeadsOn(o: Oracle, prompt: bool, c: Config, w: World, c1: Config, w1: World, pick: seq<nat>)
    requires Leads(o, prompt, c, w, c1, w1) && Shaped(c1) && !c1.Returned?
    ensures var (c2, w2) := Move(o, prompt, c1, w1, pick); Leads(o, prompt, c, w, c2, w2)
  {
    var (c2, w2) := Move(o, prompt, c1, w1, pick);
    LeadsOne(o, prompt, c1, w1, pick);
    LeadsThen(o, prompt, c, w, c1, w1, c2, w2);
  }

  predicate Framed(c: Config) { c.InSteps? || c.InTurns? || c.InNode? }

  lemma {:induction false} GoesInner(o: Oracle, prompt: bool, c: Config, w: World, picks: seq<seq<nat>>, x: Config,
                                     w1: World)
    requires Shaped(c) && Framed(c) && Goes(o, prompt, c.inner, w, picks, x, w1)
    ensures Goes(o, prompt, c, w, picks, Refill(c, x), w1)
    decreases |picks|
  {
    if picks != [] {
      var (y, w0) := Move(o, prompt, c.inner, w, picks[0]);
      GoesInner(o, prompt, Refill(c, y), w0, picks[1..], x, w1);
    }
  }

  lemma LeadsInner(o: Oracle, prompt: bool, c: Config, w: World, x: Config, w1: World)
    requires Shaped(c) && Framed(c) && Leads(o, prompt, c.inner, w, x, w1)
    ensures Leads(o, prompt, c, w, Refill(c, x), w1)
  {
    var picks :| Goes(o, prompt, c.inner, w, picks, x, w1);
    GoesInner(o, prompt, c, w, picks, x, w1);
  }

  function Prefixed(j: nat, picks: seq<seq<nat>>): seq<seq<nat>> {
    seq(|picks|, i requires 0 <= i < |picks| => [j] + picks[i])
  }

  function WithBranch(c: Config, j: nat, x: Config): Config
    requires c.InBranches? && j < |c.inners|
  {
    InBranches(c.e, c.own, c.inners[j := x])
  }

  lemma {:induction false} GoesBranch(o: Oracle, prompt: bool, c: Config, w: World, j: nat, picks: seq<seq<nat>>,
                                      x: Config, w1: World)
    requires Shaped(c) && c.InBranches? && j < |c.inners| && Goes(o, prompt, c.inners[j], w, picks, x, w1)
    ensures Goes(o, prompt, c, w, Prefixed(j, picks), WithBranch(c, j, x), w1)
    decreases |picks|
  {
    if picks == [] {
      assert c.inners[j := x] == c.inners;
    } else {
      var (y, w0) := Move(o, prompt, c.inners[j], w, picks[0]);
      assert Prefixed(j, picks)[0][1..] == picks[0] && !AllReturned(c.inners);
      assert Move(o, prompt, c, w, Prefixed(j, picks)[0]) == (WithBranch(c, j, y), w0);
      GoesBranch(o, prompt, WithBranch(c, j, y), w0, j, picks[1..], x, w1);
      assert Prefixed(j, picks)[1..] == Prefixed(j, picks[1..]);
      assert c.inners[j := y][j := x] == c.inners[j := x];
    }
  }

  lemma LeadsBranch(o: Oracle, prompt: bool, c: Config, w: World, j: nat, x: Config, w1: World)
    requires Shaped(c) && c.InBranches? && j < |c.inners| && Leads(o, prompt, c.inners[j], w, x, w1)
    ensures Leads(o, prompt, c, w, WithBranch(c, j, x), w1)
  {
    var picks :| Goes(o, prompt, c.inners[j], w, picks, x, w1);
    GoesBranch(o, prompt, c, w, j, picks, x, w1);
  }

  /** First branch `j`, then branch `k`. */
  lemma LeadsBoth(o: Oracle, prompt: bool, c: Config, w: World, j: nat, x: Config, w1: World, k: nat, y: Config,
                  w2: World)
    requires Shaped(c) && Shaped(x) && c.InBranches? && j < k < |c.inners|
    requires Leads(o, prompt, c.inners[j], w, x, w1) && Leads(o, prompt, c.inners[k], w1, y, w2)
    ensures Leads(o, prompt, c, w, WithBranch(WithBranch(c, j, x), k, y), w2)
  {
    var c1 := WithBranch(c, j, x);
    LeadsBranch(o, prompt, c, w, j, x, w1);
    LeadsBranch(o, prompt, c1, w1, k, y, w2);
    LeadsThen(o, prompt, c, w, c1, w1, WithBranch(c1, k, y), w2);
  }
}
