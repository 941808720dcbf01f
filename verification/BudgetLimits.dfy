/** The limits on tokens and cost: what they stop, and by how much they can be passed. */
module BudgetLimits {
  import opened Wrappers
  import opened Numbers
  import opened Accounting
  import opened BudgetBounds
  import opened BudgetHistory

  /** A limit other than that on model calls. */
  datatype Limit = Tokens | Cost

  function Amount(l: Limit, u: Usage): real {
    match l
    case Tokens => (u.inputTokens + u.outputTokens) as real
    case Cost => u.cost
  }

  function Ceiling(l: Limit, p: Policy): Option<real> {
    match l
    case Tokens => if p.maxTokens.None? then None else Some(p.maxTokens.value as real)
    case Cost => p.maxCost
  }

  /** The limit is set and reached. */
  predicate Reached(l: Limit, p: Policy, u: Usage) { Ceiling(l, p).Some? && Amount(l, u) >= Ceiling(l, p).value }

  /** A model call is refused exactly if the step limit is passed, the model calls are used up, or the tokens or the
      cost are. Else it is counted as one, with its tokens and its price. */
  lemma CallRefusedIff(p: Policy, charge: Charge, c: Counters)
    requires charge.ModelCall?
    ensures Pay(p, charge, c).None? <==>
      || c.step >= p.maxSteps || c.used.modelCalls >= p.maxModelCalls
      || Reached(Tokens, p, c.used) || Reached(Cost, p, c.used)
    ensures Pay(p, charge, c).Some? ==> var c1 := Pay(p, charge, c).value;
      && c1.step == c.step + 1 && c1.used.modelCalls == c.used.modelCalls + 1 && c1.used.toolCalls == c.used.toolCalls
      && c1.used.inputTokens == c.used.inputTokens + charge.input
      && c1.used.outputTokens == c.used.outputTokens + charge.output
      && c1.used.cachedTokens == c.used.cachedTokens + charge.cached && c1.used.cost == c.used.cost + charge.price
  {
    if p.maxTokens.Some? { Ordered(c.used.inputTokens + c.used.outputTokens, p.maxTokens.value); }
  }

  lemma Ordered(a: int, b: int)
    ensures a >= b <==> a as real >= b as real
  {
  }

  // ------------------------------------------------------------------ nothing is called past a limit

  lemma {:induction false} NoCharges(p: Policy, charges: seq<Charge>, c: Counters, l: Limit)
    requires Reached(l, p, c.used)
    ensures CallsOfCharges(p, charges, c) == 0
    ensures GoCharges(p, charges, c).Some? ==> Amount(l, GoCharges(p, charges, c).value.used) == Amount(l, c.used)
  {
    if charges != [] {
      if charges[0].ModelCall? { CallRefusedIff(p, charges[0], c); }
      if Pay(p, charges[0], c).Some? { NoCharges(p, charges[1..], Pay(p, charges[0], c).value, l); }
    }
  }

  /** An attempt over any tree that starts with its tokens or its cost used up makes no model call, whether it
      raises or not. */
  lemma {:induction false} NothingCalledPast(o: Oracle, p: Policy, w: Work, place: seq<nat>, c: Counters, l: Limit)
    requires Reached(l, p, c.used)
    ensures BudgetHistory.Calls(o, p, w, place, c) == 0
    ensures Go(o, p, w, place, c).Some? ==> Amount(l, Go(o, p, w, place, c).value.used) == Amount(l, c.used)
    decreases w, 1, 0
  {
    match w
    case Agent =>
      NoCharges(p, o.charges(place), c, l);
      if GoCharges(p, o.charges(place), c).Some? { MergedCharges(p, o.charges(place), c); }
    case Chain(_) => NoParts(o, p, w, place, 0, c, l);
    case Parallel(branches) => NoBranches(o, p, w, place, |branches|, c, l);
    case Router(targets) =>
      if targets != [] {
        var k := Taken(o, w, place);
        NothingCalledPast(o, p, targets[k], place + [k], c, l);
        if Go(o, p, targets[k], place + [k], c).Some? { MergedAmount(o, p, targets[k], place + [k], c, l); }
      }
    case Loop(_, _) => NoTurns(o, p, w, place, 0, c, l);
  }

  lemma {:induction false} NoParts(o: Oracle, p: Policy, w: Work, place: seq<nat>, i: nat, c: Counters, l: Limit)
    requires w.Chain? && i <= |w.parts| && Reached(l, p, c.used)
    ensures CallsOfParts(o, p, w, place, i, c) == 0
    ensures GoParts(o, p, w, place, i, c).Some? ==>
      Amount(l, GoParts(o, p, w, place, i, c).value.used) == Amount(l, c.used)
    decreases w, 0, |w.parts| - i
  {
    if i < |w.parts| {
      var r := Go(o, p, w.parts[i], place + [i], c);
      NothingCalledPast(o, p, w.parts[i], place + [i], c, l);
      if r.Some? {
        MergedAmount(o, p, w.parts[i], place + [i], c, l);
        NoParts(o, p, w, place, i + 1, Merge(c, r.value), l);
      }
    }
  }

  /** What a part leaves is what its parent has after merging. */
  lemma MergedAmount(o: Oracle, p: Policy, w: Work, place: seq<nat>, c: Counters, l: Limit)
    requires Go(o, p, w, place, c).Some?
    ensures var r := Go(o, p, w, place, c).value; Merge(c, r).used == r.used && c.used.AtMost(r.used)
  {
    UsageConserved(o, p, w, place, c);
    WorkNonNegative(o, w, place);
  }

  lemma {:induction false} NoTurns(o: Oracle, p: Policy, w: Work, place: seq<nat>, i: nat, c: Counters, l: Limit)
    requires w.Loop? && i <= Turns(o, w, place) && Reached(l, p, c.used)
    ensures CallsOfTurns(o, p, w, place, i, c) == 0
    ensures GoTurns(o, p, w, place, i, c).Some? ==>
      Amount(l, GoTurns(o, p, w, place, i, c).value.used) == Amount(l, c.used)
    decreases w, 0, Turns(o, w, place) - i
  {
    if i < Turns(o, w, place) {
      var r := Go(o, p, w.body, place + [i], c);
      NothingCalledPast(o, p, w.body, place + [i], c, l);
      if r.Some? {
        MergedAmount(o, p, w.body, place + [i], c, l);
        NoTurns(o, p, w, place, i + 1, Merge(c, r.value), l);
      }
    }
  }

  lemma {:induction false} NoBranches(o: Oracle, p: Policy, w: Work, place: seq<nat>, n: nat, c: Counters, l: Limit)
    requires w.Parallel? && n <= |w.branches| && Reached(l, p, c.used)
    ensures CallsOfBranches(o, p, w, place, n, c) == 0
    ensures GoBranches(o, p, w, place, n, c).Some? ==>
      Amount(l, Absorb(c, GoBranches(o, p, w, place, n, c).value, c).used) == Amount(l, c.used)
    decreases w, 0, n
  {
    if n > 0 {
      NoBranches(o, p, w, place, n - 1, c, l);
      NothingCalledPast(o, p, w.branches[n - 1], place + [n - 1], c, l);
      if GoBranches(o, p, w, place, n, c).Some? {
        var children := GoBranches(o, p, w, place, n, c).value;
        assert children[..|children| - 1] == GoBranches(o, p, w, place, n - 1, c).value;
      }
    }
  }

  // ------------------------------------------------------------------ how far past

  /** The call at `at` of the leaf at `q`: without it the limit would not have been reached. */
  predicate LastCall(o: Oracle, p: Policy, l: Limit, u: Usage, q: seq<nat>, at: nat) {
    && Ceiling(l, p).Some? && at < |o.charges(q)| && o.charges(q)[at].ModelCall?
    && Amount(l, u) - Amount(l, UsageOf(o.charges(q)[at])) < Ceiling(l, p).value
  }

  /** The limit is kept, nothing was called, or it is passed by no more than the last call. */
  ghost predicate PassedByOne(o: Oracle, p: Policy, l: Limit, before: Usage, after: Usage) {
    || Amount(l, after) == Amount(l, before)
    || exists q, at: nat :: LastCall(o, p, l, after, q, at)
  }

  lemma PassedThrough(o: Oracle, p: Policy, l: Limit, a: Usage, b: Usage, c: Usage)
    requires PassedByOne(o, p, l, a, b) && PassedByOne(o, p, l, b, c)
    ensures PassedByOne(o, p, l, a, c)
  {
    if Amount(l, c) == Amount(l, b) && Amount(l, b) != Amount(l, a) {
      var q, at: nat :| LastCall(o, p, l, b, q, at);
      assert LastCall(o, p, l, c, q, at);
    }
  }

  lemma {:induction false} ChargesPass(o: Oracle, p: Policy, l: Limit, q: seq<nat>, i: nat, c: Counters)
    requires Ceiling(l, p).Some? && i <= |o.charges(q)| && GoCharges(p, o.charges(q)[i..], c).Some?
    ensures PassedByOne(o, p, l, c.used, GoCharges(p, o.charges(q)[i..], c).value.used)
    decreases |o.charges(q)| - i
  {
    var charges := o.charges(q)[i..];
    if charges != [] {
      var c1 := Pay(p, charges[0], c).value;
      assert charges[1..] == o.charges(q)[i + 1..] && charges[0] == o.charges(q)[i];
      ChargesPass(o, p, l, q, i + 1, c1);
      var after := GoCharges(p, charges, c).value.used;
      if charges[0].ModelCall? {
        CallRefusedIff(p, charges[0], c);
        if Amount(l, after) == Amount(l, c1.used) { assert LastCall(o, p, l, after, q, i); }
      }
    }
  }

  /** In a tree without parallel nodes, tokens and cost pass their limits by at most those of the last call. */
  lemma {:induction false} SequentialPassesByOne(o: Oracle, p: Policy, w: Work, place: seq<nat>, c: Counters, l: Limit)
    requires Sequential(w) && Ceiling(l, p).Some? && Go(o, p, w, place, c).Some?
    ensures PassedByOne(o, p, l, c.used, Go(o, p, w, place, c).value.used)
    decreases w, 1, 0
  {
    match w
    case Agent =>
      assert o.charges(place)[0..] == o.charges(place);
      ChargesPass(o, p, l, place, 0, c);
      ChargesMerged(o, p, place, c);
    case Chain(_) => PartsPass(o, p, w, place, 0, c, l);
    case Router(targets) =>
      var k := Taken(o, w, place);
      SequentialPassesByOne(o, p, targets[k], place + [k], c, l);
      MergedAmount(o, p, targets[k], place + [k], c, l);
    case Loop(_, _) => TurnsPass(o, p, w, place, 0, c, l);
  }

  lemma ChargesMerged(o: Oracle, p: Policy, place: seq<nat>, c: Counters)
    requires GoCharges(p, o.charges(place), c).Some?
    ensures Go(o, p, Agent, place, c).value.used == GoCharges(p, o.charges(place), c).value.used
  {
    MergedCharges(p, o.charges(place), c);
  }

  lemma {:induction false} MergedCharges(p: Policy, charges: seq<Charge>, c: Counters)
    requires GoCharges(p, charges, c).Some?
    ensures c.used.AtMost(GoCharges(p, charges, c).value.used)
  {
    if charges != [] { MergedCharges(p, charges[1..], Pay(p, charges[0], c).value); }
  }

  lemma {:induction false} PartsPass(o: Oracle, p: Policy, w: Work, place: seq<nat>, i: nat, c: Counters, l: Limit)
    requires w.Chain? && Sequential(w) && i <= |w.parts| && Ceiling(l, p).Some? && GoParts(o, p, w, place, i, c).Some?
    ensures PassedByOne(o, p, l, c.used, GoParts(o, p, w, place, i, c).value.used)
    decreases w, 0, |w.parts| - i
  {
    if i < |w.parts| {
      SequentialPassesByOne(o, p, w.parts[i], place + [i], c, l);
      MergedAmount(o, p, w.parts[i], place + [i], c, l);
      var c1 := Merge(c, Go(o, p, w.parts[i], place + [i], c).value);
      PartsPass(o, p, w, place, i + 1, c1, l);
      PassedThrough(o, p, l, c.used, c1.used, GoParts(o, p, w, place, i, c).value.used);
    }
  }

  lemma {:induction false} TurnsPass(o: Oracle, p: Policy, w: Work, place: seq<nat>, i: nat, c: Counters, l: Limit)
    requires w.Loop? && Sequential(w) && i <= Turns(o, w, place) && Ceiling(l, p).Some?
    requires GoTurns(o, p, w, place, i, c).Some?
    ensures PassedByOne(o, p, l, c.used, GoTurns(o, p, w, place, i, c).value.used)
    decreases w, 0, Turns(o, w, place) - i
  {
    if i < Turns(o, w, place) {
      SequentialPassesByOne(o, p, w.body, place + [i], c, l);
      MergedAmount(o, p, w.body, place + [i], c, l);
      var c1 := Merge(c, Go(o, p, w.body, place + [i], c).value);
      TurnsPass(o, p, w, place, i + 1, c1, l);
      PassedThrough(o, p, l, c.used, c1.used, GoTurns(o, p, w, place, i, c).value.used);
    }
  }

  // ------------------------------------------------------------------ which way the outside leads

  /** A router goes where the outside says, if there is such a target, and a loop turns as often as the outside says,
      but at least once and at most as often as it may. */
  lemma OutsideLeads(o: Oracle, w: Work, place: seq<nat>)
    ensures w.Router? && o.route(place) < |w.targets| ==> Taken(o, w, place) == o.route(place)
    ensures w.Loop? && 1 <= o.turns(place) <= w.maxIterations ==> Turns(o, w, place) == o.turns(place)
    ensures w.Loop? && w.maxIterations > 0 ==> 1 <= Turns(o, w, place) <= w.maxIterations
  {
    if w.Router? && o.route(place) < |w.targets| { SmallRemainder(o.route(place), |w.targets|); }
  }

  // ------------------------------------------------------------------ steps

  /** The model calls along the longest way through the tree: parts follow one another, branches run side by side. */
  function Steps(o: Oracle, w: Work, place: seq<nat>): nat
    decreases w, 1, 0
  {
    match w
    case Agent => ModelCalls(o.charges(place))
    case Chain(parts) => StepsOfParts(o, w, place, |parts|)
    case Parallel(branches) => StepsOfBranches(o, w, place, |branches|)
    case Router(targets) =>
      if targets == [] then 0 else Steps(o, targets[Taken(o, w, place)], place + [Taken(o, w, place)])
    case Loop(_, _) => StepsOfTurns(o, w, place, Turns(o, w, place))
  }

  function ModelCalls(charges: seq<Charge>): nat {
    if charges == [] then 0 else (if charges[0].ModelCall? then 1 else 0) + ModelCalls(charges[1..])
  }

  function StepsOfParts(o: Oracle, w: Work, place: seq<nat>, n: nat): nat
    requires w.Chain? && n <= |w.parts|
    decreases w, 0, n
  {
    if n == 0 then 0 else StepsOfParts(o, w, place, n - 1) + Steps(o, w.parts[n - 1], place + [n - 1])
  }

  function StepsOfBranches(o: Oracle, w: Work, place: seq<nat>, n: nat): nat
    requires w.Parallel? && n <= |w.branches|
    decreases w, 0, n
  {
    if n == 0 then 0
    else
      var (before, last) := (StepsOfBranches(o, w, place, n - 1), Steps(o, w.branches[n - 1], place + [n - 1]));
      if before < last then last else before
  }

  function StepsOfTurns(o: Oracle, w: Work, place: seq<nat>, n: nat): nat
    requires w.Loop? && n <= Turns(o, w, place)
    decreases w, 0, n
  {
    if n == 0 then 0 else StepsOfTurns(o, w, place, n - 1) + Steps(o, w.body, place + [n - 1])
  }

  lemma {:induction false} ChargesStep(p: Policy, charges: seq<Charge>, c: Counters)
    requires GoCharges(p, charges, c).Some?
    ensures GoCharges(p, charges, c).value.step == c.step + ModelCalls(charges)
    ensures GoCharges(p, charges, c).value.step <= Max(c.step, p.maxSteps)
  {
    if charges != [] { ChargesStep(p, charges[1..], Pay(p, charges[0], c).value); }
  }

  /** What is counted as steps, and limited by `max_steps`, is the longest way through the tree. */
  lemma {:induction false} StepsCounted(o: Oracle, p: Policy, w: Work, place: seq<nat>, c: Counters)
    requires Go(o, p, w, place, c).Some?
    ensures Go(o, p, w, place, c).value.step == c.step + Steps(o, w, place) <= Max(c.step, p.maxSteps)
    decreases w, 1, 0
  {
    match w
    case Agent => ChargesStep(p, o.charges(place), c);
    case Chain(_) => PartsStep(o, p, w, place, 0, c);
    case Parallel(branches) => BranchesStep(o, p, w, place, |branches|, c);
    case Router(targets) => StepsCounted(o, p, targets[Taken(o, w, place)], place + [Taken(o, w, place)], c);
    case Loop(_, _) => TurnsStep(o, p, w, place, 0, c);
  }

  lemma {:induction false} PartsStep(o: Oracle, p: Policy, w: Work, place: seq<nat>, i: nat, c: Counters)
    requires w.Chain? && i <= |w.parts| && GoParts(o, p, w, place, i, c).Some?
    ensures GoParts(o, p, w, place, i, c).value.step + StepsOfParts(o, w, place, i) == c.step + Steps(o, w, place)
    ensures GoParts(o, p, w, place, i, c).value.step <= Max(c.step, p.maxSteps)
    decreases w, 0, |w.parts| - i
  {
    if i < |w.parts| {
      StepsCounted(o, p, w.parts[i], place + [i], c);
      PartsStep(o, p, w, place, i + 1, Merge(c, Go(o, p, w.parts[i], place + [i], c).value));
    }
  }

  lemma {:induction false} BranchesStep(o: Oracle, p: Policy, w: Work, place: seq<nat>, n: nat, c: Counters)
    requires w.Parallel? && n <= |w.branches| && GoBranches(o, p, w, place, n, c).Some?
    ensures Absorb(c, GoBranches(o, p, w, place, n, c).value, c).step
      == c.step + StepsOfBranches(o, w, place, n) <= Max(c.step, p.maxSteps)
    decreases w, 0, n
  {
    if n > 0 {
      BranchesStep(o, p, w, place, n - 1, c);
      StepsCounted(o, p, w.branches[n - 1], place + [n - 1], c);
      var children := GoBranches(o, p, w, place, n, c).value;
      assert children[..|children| - 1] == GoBranches(o, p, w, place, n - 1, c).value;
    }
  }

  lemma {:induction false} TurnsStep(o: Oracle, p: Policy, w: Work, place: seq<nat>, i: nat, c: Counters)
    requires w.Loop? && i <= Turns(o, w, place) && GoTurns(o, p, w, place, i, c).Some?
    ensures GoTurns(o, p, w, place, i, c).value.step + StepsOfTurns(o, w, place, i) == c.step + Steps(o, w, place)
    ensures GoTurns(o, p, w, place, i, c).value.step <= Max(c.step, p.maxSteps)
    decreases w, 0, Turns(o, w, place) - i
  {
    if i < Turns(o, w, place) {
      StepsCounted(o, p, w.body, place + [i], c);
      TurnsStep(o, p, w, place, i + 1, Merge(c, Go(o, p, w.body, place + [i], c).value));
    }
  }
}
