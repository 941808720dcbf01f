/** Exact conservation of usage over execution trees, and how far parallel branches can overshoot
    the limit on model calls. */
module BudgetBounds {
  import opened Wrappers
  import opened Numbers
  import opened Accounting

  // ------------------------------------------------------------------ conservation

  lemma {:induction false} ChargesConserve(p: Policy, charges: seq<Charge>, c: Counters)
    requires GoCharges(p, charges, c).Some?
    ensures GoCharges(p, charges, c).value.used == c.used.Plus(TotalOf(charges))
    ensures NOTHING.AtMost(TotalOf(charges))
  {
    if charges != [] {
      ChargesConserve(p, charges[1..], Pay(p, charges[0], c).value);
    }
  }

  lemma PlusAssociative(a: Usage, b: Usage, c: Usage)
    ensures a.Plus(b).Plus(c) == a.Plus(b.Plus(c))
  {
  }

  lemma UptoGrown(a: Usage, b: Usage)
    requires NOTHING.AtMost(b)
    ensures a.Upto(a.Plus(b)) == a.Plus(b)
  {
  }

  lemma AddDifference(a: Usage, base: Usage, b: Usage)
    ensures a.Plus(base.Plus(b).Minus(base)) == a.Plus(b)
  {
  }

  /** If no exception escapes, every counter grows by exactly the sum over all leaf calls, although
      chains fold with `max` and parallel nodes add differences. */
  lemma {:induction false} UsageConserved(o: Oracle, p: Policy, w: Work, place: seq<nat>, c: Counters)
    requires Go(o, p, w, place, c).Some?
    ensures Go(o, p, w, place, c).value.used == c.used.Plus(Spent(o, w, place))
    ensures NOTHING.AtMost(Spent(o, w, place))
    decreases w, 1, 0
  {
    match w
    case Agent => ChargesConserve(p, o.charges(place), c);
    case Chain(_) => PartsConserve(o, p, w, place, 0, c);
    case Parallel(branches) =>
      BranchesConserve(o, p, w, place, |branches|, c);
    case Router(targets) =>
      UsageConserved(o, p, targets[Taken(o, w, place)], place + [Taken(o, w, place)], c);
    case Loop(_, _) => TurnsConserve(o, p, w, place, 0, c);
  }

  lemma {:induction false} PartsConserve(o: Oracle, p: Policy, w: Work, place: seq<nat>, i: nat, c: Counters)
    requires w.Chain? && i <= |w.parts| && GoParts(o, p, w, place, i, c).Some?
    ensures GoParts(o, p, w, place, i, c).value.used == c.used.Plus(SpentFrom(o, w, w.parts, place, i))
    ensures NOTHING.AtMost(SpentFrom(o, w, w.parts, place, i))
    decreases w, 0, |w.parts| - i
  {
    if i < |w.parts| {
      var part := Spent(o, w.parts[i], place + [i]);
      UsageConserved(o, p, w.parts[i], place + [i], c);
      UptoGrown(c.used, part);
      PartsConserve(o, p, w, place, i + 1, Merge(c, Go(o, p, w.parts[i], place + [i], c).value));
      PlusAssociative(c.used, part, SpentFrom(o, w, w.parts, place, i + 1));
      SpentNonNegative(o, w, w.parts, place, i);
    }
  }

  /** After absorbing `n` branches, what is in plus what is still to come is the whole sum. */
  lemma {:induction false} BranchesConserve(o: Oracle, p: Policy, w: Work, place: seq<nat>, n: nat, c: Counters)
    requires w.Parallel? && n <= |w.branches| && GoBranches(o, p, w, place, |w.branches|, c).Some?
    ensures GoBranches(o, p, w, place, n, c).Some?
    ensures Absorb(c, GoBranches(o, p, w, place, n, c).value, c).used.Plus(SpentFrom(o, w, w.branches, place, n))
         == c.used.Plus(SpentFrom(o, w, w.branches, place, 0))
    ensures n == |w.branches| ==> NOTHING.AtMost(SpentFrom(o, w, w.branches, place, 0))
    decreases w, 0, n
  {
    EarlierBranches(o, p, w, place, n, |w.branches|, c);
    if n > 0 {
      EarlierBranches(o, p, w, place, n - 1, n, c);
      BranchesConserve(o, p, w, place, n - 1, c);
      UsageConserved(o, p, w.branches[n - 1], place + [n - 1], c);
      var (before, last) := (GoBranches(o, p, w, place, n - 1, c).value, Spent(o, w.branches[n - 1], place + [n - 1]));
      AbsorbOne(c, before, Go(o, p, w.branches[n - 1], place + [n - 1], c).value, last);
      PlusAssociative(Absorb(c, before, c).used, last, SpentFrom(o, w, w.branches, place, n));
    }
    if n == |w.branches| { SpentNonNegative(o, w, w.branches, place, 0); }
  }

  lemma AbsorbOne(c: Counters, children: seq<Counters>, child: Counters, spent: Usage)
    requires child.used == c.used.Plus(spent)
    ensures Absorb(c, children + [child], c).used == Absorb(c, children, c).used.Plus(spent)
  {
    assert (children + [child])[..|children|] == children;
    AddDifference(Absorb(c, children, c).used, c.used, spent);
  }

  lemma {:induction false} EarlierBranches(o: Oracle, p: Policy, w: Work, place: seq<nat>, n: nat, m: nat, c: Counters)
    requires w.Parallel? && n <= m <= |w.branches| && GoBranches(o, p, w, place, m, c).Some?
    ensures GoBranches(o, p, w, place, n, c).Some?
    decreases m - n
  {
    if n < m { EarlierBranches(o, p, w, place, n, m - 1, c); }
  }

  lemma {:induction false} TotalNonNegative(charges: seq<Charge>)
    ensures NOTHING.AtMost(TotalOf(charges))
  {
    if charges != [] { TotalNonNegative(charges[1..]); }
  }

  lemma {:induction false} SpentNonNegative(o: Oracle, w: Work, parts: seq<Work>, place: seq<nat>, i: nat)
    requires i <= |parts| && ((w.Chain? && w.parts == parts) || (w.Parallel? && w.branches == parts))
    ensures NOTHING.AtMost(SpentFrom(o, w, parts, place, i))
    decreases w, 0, |parts| - i
  {
    if i < |parts| {
      WorkNonNegative(o, parts[i], place + [i]);
      SpentNonNegative(o, w, parts, place, i + 1);
    }
  }

  lemma {:induction false} WorkNonNegative(o: Oracle, w: Work, place: seq<nat>)
    ensures NOTHING.AtMost(Spent(o, w, place))
    decreases w, 1, 0
  {
    match w
    case Agent => TotalNonNegative(o.charges(place));
    case Chain(parts) => SpentNonNegative(o, w, parts, place, 0);
    case Parallel(branches) => SpentNonNegative(o, w, branches, place, 0);
    case Router(targets) =>
      if targets != [] { WorkNonNegative(o, targets[Taken(o, w, place)], place + [Taken(o, w, place)]); }
    case Loop(_, _) => TurnsNonNegative(o, w, place, 0);
  }

  lemma {:induction false} TurnsNonNegative(o: Oracle, w: Work, place: seq<nat>, i: nat)
    requires w.Loop? && i <= Turns(o, w, place)
    ensures NOTHING.AtMost(SpentTurns(o, w, place, i))
    decreases w, 0, Turns(o, w, place) - i
  {
    if i < Turns(o, w, place) {
      WorkNonNegative(o, w.body, place + [i]);
      TurnsNonNegative(o, w, place, i + 1);
    }
  }

  lemma {:induction false} TurnsConserve(o: Oracle, p: Policy, w: Work, place: seq<nat>, i: nat, c: Counters)
    requires w.Loop? && i <= Turns(o, w, place) && GoTurns(o, p, w, place, i, c).Some?
    ensures GoTurns(o, p, w, place, i, c).value.used == c.used.Plus(SpentTurns(o, w, place, i))
    ensures NOTHING.AtMost(SpentTurns(o, w, place, i))
    decreases w, 0, Turns(o, w, place) - i
  {
    if i < Turns(o, w, place) {
      var turn := Spent(o, w.body, place + [i]);
      UsageConserved(o, p, w.body, place + [i], c);
      UptoGrown(c.used, turn);
      TurnsConserve(o, p, w, place, i + 1, Merge(c, Go(o, p, w.body, place + [i], c).value));
      PlusAssociative(c.used, turn, SpentTurns(o, w, place, i + 1));
      TurnsNonNegative(o, w, place, i);
    }
  }

  // ------------------------------------------------------------------ overshoot

  /** How many leaves can be spending at once. */
  function Width(w: Work): nat {
    match w
    case Agent => 1
    case Chain(parts) => Widest(w, parts, 0)
    case Parallel(branches) => Together(w, branches, |branches|)
    case Router(targets) => Widest(w, targets, 0)
    case Loop(body, _) => Width(body)
  }

  function Widest(w: Work, parts: seq<Work>, i: nat): (m: nat)
    requires i <= |parts| && (forall k :: 0 <= k < |parts| ==> parts[k] < w)
    ensures forall k :: i <= k < |parts| ==> Width(parts[k]) <= m
    decreases w, 0, |parts| - i
  {
    if i == |parts| then 0 else Max(Width(parts[i]), Widest(w, parts, i + 1))
  }

  function Together(w: Work, parts: seq<Work>, n: nat): nat
    requires n <= |parts| && (forall k :: 0 <= k < |parts| ==> parts[k] < w)
    decreases w, 0, n
  {
    if n == 0 then 0 else Together(w, parts, n - 1) + Width(parts[n - 1])
  }

  /** `after` model calls from `before` under limit `m` and width `width`; nothing once spent out. */
  predicate Bounded(before: int, after: int, m: int, width: int) {
    && before <= after
    && (before <= m ==> after <= before + width * (m - before))
    && (before >= m ==> after == before)
  }

  lemma BoundedInTurn(a: int, b: int, c: int, m: int, width: int)
    requires width >= 0 && Bounded(a, b, m, width) && Bounded(b, c, m, width)
    ensures Bounded(a, c, m, width)
  {
    if a <= b <= m {
      var x, y := m - b, b - a;
      assert width * (x + y) == width * x + width * y;
      if width >= 1 { assert width * y >= y; }
    }
  }

  lemma BoundedWider(a: int, b: int, m: int, width: int, wider: int)
    requires Bounded(a, b, m, width) && width <= wider
    ensures Bounded(a, b, m, wider)
  {
    if a <= m { assert (wider - width) * (m - a) >= 0; }
  }

  lemma {:induction false} ChargesBounded(p: Policy, charges: seq<Charge>, c: Counters)
    requires GoCharges(p, charges, c).Some?
    ensures Bounded(c.used.modelCalls, GoCharges(p, charges, c).value.used.modelCalls, p.maxModelCalls, 1)
  {
    if charges != [] {
      var c1 := Pay(p, charges[0], c).value;
      ChargesBounded(p, charges[1..], c1);
    }
  }

  /** A run that raises nothing makes at most `width * (limit - start)` model calls, and none at all
      from a start at or beyond the limit. */
  lemma {:induction false} ModelCallsBounded(o: Oracle, p: Policy, w: Work, place: seq<nat>, c: Counters)
    requires Go(o, p, w, place, c).Some?
    ensures Bounded(c.used.modelCalls, Go(o, p, w, place, c).value.used.modelCalls, p.maxModelCalls, Width(w))
    decreases w, 1, 0
  {
    var m := p.maxModelCalls;
    match w
    case Agent => ChargesBounded(p, o.charges(place), c);
    case Chain(_) => PartsBounded(o, p, w, place, 0, c);
    case Parallel(branches) => BranchesBounded(o, p, w, place, |branches|, c);
    case Router(targets) =>
      var k := Taken(o, w, place);
      ModelCallsBounded(o, p, targets[k], place + [k], c);
      BoundedWider(c.used.modelCalls, Go(o, p, targets[k], place + [k], c).value.used.modelCalls, m,
          Width(targets[k]), Width(w));
    case Loop(_, _) => TurnsBounded(o, p, w, place, 0, c);
  }

  lemma {:induction false} PartsBounded(o: Oracle, p: Policy, w: Work, place: seq<nat>, i: nat, c: Counters)
    requires w.Chain? && i <= |w.parts| && GoParts(o, p, w, place, i, c).Some?
    ensures Bounded(c.used.modelCalls, GoParts(o, p, w, place, i, c).value.used.modelCalls, p.maxModelCalls, Width(w))
    decreases w, 0, |w.parts| - i
  {
    if i < |w.parts| {
      var c1 := Go(o, p, w.parts[i], place + [i], c).value;
      ModelCallsBounded(o, p, w.parts[i], place + [i], c);
      BoundedWider(c.used.modelCalls, c1.used.modelCalls, p.maxModelCalls, Width(w.parts[i]), Width(w));
      PartsBounded(o, p, w, place, i + 1, Merge(c, c1));
      BoundedInTurn(c.used.modelCalls, c1.used.modelCalls, GoParts(o, p, w, place, i, c).value.used.modelCalls,
                    p.maxModelCalls, Width(w));
    }
  }

  lemma {:induction false} TurnsBounded(o: Oracle, p: Policy, w: Work, place: seq<nat>, i: nat, c: Counters)
    requires w.Loop? && i <= Turns(o, w, place) && GoTurns(o, p, w, place, i, c).Some?
    ensures Bounded(c.used.modelCalls, GoTurns(o, p, w, place, i, c).value.used.modelCalls, p.maxModelCalls, Width(w))
    decreases w, 0, Turns(o, w, place) - i
  {
    if i < Turns(o, w, place) {
      var c1 := Go(o, p, w.body, place + [i], c).value;
      ModelCallsBounded(o, p, w.body, place + [i], c);
      BoundedWider(c.used.modelCalls, c1.used.modelCalls, p.maxModelCalls, Width(w.body), Width(w));
      TurnsBounded(o, p, w, place, i + 1, Merge(c, c1));
      BoundedInTurn(c.used.modelCalls, c1.used.modelCalls, GoTurns(o, p, w, place, i, c).value.used.modelCalls,
                    p.maxModelCalls, Width(w));
    }
  }

  lemma {:induction false} BranchesBounded(o: Oracle, p: Policy, w: Work, place: seq<nat>, n: nat, c: Counters)
    requires w.Parallel? && n <= |w.branches| && GoBranches(o, p, w, place, n, c).Some?
    ensures Bounded(c.used.modelCalls, Absorb(c, GoBranches(o, p, w, place, n, c).value, c).used.modelCalls,
                    p.maxModelCalls, Together(w, w.branches, n))
    decreases w, 0, n
  {
    if n > 0 {
      BranchesBounded(o, p, w, place, n - 1, c);
      ModelCallsBounded(o, p, w.branches[n - 1], place + [n - 1], c);
      var children := GoBranches(o, p, w, place, n, c).value;
      assert children[..|children| - 1] == GoBranches(o, p, w, place, n - 1, c).value;
      var (m, b) := (p.maxModelCalls, c.used.modelCalls);
      assert (Together(w, w.branches, n - 1) + Width(w.branches[n - 1])) * (m - b)
          == Together(w, w.branches, n - 1) * (m - b) + Width(w.branches[n - 1]) * (m - b);
    }
  }

  // ------------------------------------------------------------------ the two ends of the bound

  predicate Sequential(w: Work) {
    match w
    case Agent => true
    case Chain(parts) => forall i :: 0 <= i < |parts| ==> Sequential(parts[i])
    case Parallel(_) => false
    case Router(targets) => forall i :: 0 <= i < |targets| ==> Sequential(targets[i])
    case Loop(body, _) => Sequential(body)
  }

  lemma {:induction false} SequentialWidth(w: Work)
    requires Sequential(w)
    ensures Width(w) <= 1
    decreases w, 1
  {
    match w
    case Agent =>
    case Chain(parts) => SequentialWidest(w, parts, 0);
    case Router(targets) => SequentialWidest(w, targets, 0);
    case Loop(body, _) => SequentialWidth(body);
  }

  lemma {:induction false} SequentialWidest(w: Work, parts: seq<Work>, i: nat)
    requires i <= |parts| && forall k :: 0 <= k < |parts| ==> parts[k] < w && Sequential(parts[k])
    ensures Widest(w, parts, i) <= 1
    decreases w, 0, |parts| - i
  {
    if i < |parts| {
      SequentialWidth(parts[i]);
      SequentialWidest(w, parts, i + 1);
    }
  }

  /** Without a parallel node the limit on model calls is never passed. */
  lemma SequentialWithinLimit(o: Oracle, p: Policy, w: Work, place: seq<nat>, c: Counters)
    requires Sequential(w) && Go(o, p, w, place, c).Some? && c.used.modelCalls <= p.maxModelCalls
    ensures Go(o, p, w, place, c).value.used.modelCalls <= p.maxModelCalls
  {
    SequentialWidth(w);
    NarrowWithinLimit(o, p, w, place, c);
  }

  function Repeated(n: nat): seq<Charge> { seq(n, _ => ModelCall(0, 0, 0, 0.0)) }

  lemma {:induction false} RepeatedPays(p: Policy, n: nat, c: Counters)
    requires p.maxTokens.None? && p.maxCost.None?
    requires c.step + n <= p.maxSteps && c.used.modelCalls + n <= p.maxModelCalls
    ensures GoCharges(p, Repeated(n), c) == Some(Counters(c.step + n, c.used.Plus(Usage(n, 0, 0, 0, 0, 0.0))))
  {
    if n > 0 {
      var c1 := Pay(p, Repeated(n)[0], c).value;
      assert Repeated(n)[1..] == Repeated(n - 1);
      RepeatedPays(p, n - 1, c1);
    }
  }

  // ------------------------------------------------------------------ the bound is exact

  /** What the constructors and the router guarantee: a route to take, and at least one turn. */
  predicate Proper(w: Work) {
    match w
    case Agent => true
    case Chain(parts) => forall i :: 0 <= i < |parts| ==> Proper(parts[i])
    case Parallel(branches) => forall i :: 0 <= i < |branches| ==> Proper(branches[i])
    case Router(targets) => targets != [] && forall i :: 0 <= i < |targets| ==> Proper(targets[i])
    case Loop(body, n) => n > 0 && Proper(body)
  }

  /** A part as wide as any. */
  function Best(w: Work, parts: seq<Work>): (k: nat)
    requires parts != [] && forall i :: 0 <= i < |parts| ==> parts[i] < w
    ensures k < |parts| && Width(parts[k]) == Widest(w, parts, 0)
  {
    BestFrom(w, parts, 0)
  }

  function BestFrom(w: Work, parts: seq<Work>, i: nat): (k: nat)
    requires i < |parts| && forall i :: 0 <= i < |parts| ==> parts[i] < w
    ensures i <= k < |parts| && Width(parts[k]) == Widest(w, parts, i)
    decreases |parts| - i
  {
    if i + 1 == |parts| then i
    else
      var k := BestFrom(w, parts, i + 1);
      if Width(parts[k]) <= Width(parts[i]) then i else k
  }

  /** The leaf at `path` lies on a widest way through `w`. */
  predicate OnWidest(w: Work, path: seq<nat>) {
    match w
    case Agent => path == []
    case Chain(parts) =>
      path != [] && path[0] < |parts| && path[0] == Best(w, parts) && OnWidest(parts[path[0]], path[1..])
    case Parallel(branches) => path != [] && path[0] < |branches| && OnWidest(branches[path[0]], path[1..])
    case Router(targets) =>
      path != [] && path[0] < |targets| && path[0] == Best(w, targets) && OnWidest(targets[path[0]], path[1..])
    case Loop(body, _) => path != [] && path[0] == 0 && OnWidest(body, path[1..])
  }

  /** The route a router at `path` takes to its widest target. */
  function WidestRoute(w: Work, path: seq<nat>): nat {
    match w
    case Agent => 0
    case Chain(parts) => if path != [] && path[0] < |parts| then WidestRoute(parts[path[0]], path[1..]) else 0
    case Parallel(branches) =>
      if path != [] && path[0] < |branches| then WidestRoute(branches[path[0]], path[1..]) else 0
    case Router(targets) =>
      if targets == [] then 0
      else if path == [] then Best(w, targets)
      else if path[0] < |targets| then WidestRoute(targets[path[0]], path[1..])
      else 0
    case Loop(body, _) => if path != [] then WidestRoute(body, path[1..]) else 0
  }

  /** Below `place` the outside takes the widest way through `w`, and its leaves, if wanted at all, each
      make `left` model calls. */
  ghost predicate Spends(o: Oracle, w: Work, place: seq<nat>, wanted: bool, left: nat) {
    forall path {:trigger o.charges(place + path)} {:trigger o.route(place + path)} {:trigger o.turns(place + path)} ::
      && o.charges(place + path) == (if wanted && OnWidest(w, path) then Repeated(left) else [])
      && o.route(place + path) == WidestRoute(w, path)
      && o.turns(place + path) == 1
  }

  function Below(place: seq<nat>, q: seq<nat>): Option<seq<nat>> {
    if |place| <= |q| && q[..|place|] == place then Some(q[|place|..]) else None
  }

  /** Such an outside, for every tree. */
  function Spender(w: Work, place: seq<nat>, left: nat): Oracle {
    Oracle(
      q => if Below(place, q).Some? && OnWidest(w, Below(place, q).value) then Repeated(left) else [],
      q => if Below(place, q).Some? then WidestRoute(w, Below(place, q).value) else 0,
      q => 1)
  }

  lemma SpenderSpends(w: Work, place: seq<nat>, left: nat)
    ensures Spends(Spender(w, place, left), w, place, true, left)
  {
    forall path: seq<nat> ensures Below(place, place + path) == Some(path) {
      assert (place + path)[..|place|] == place && (place + path)[|place|..] == path;
    }
  }

  /** Part `k` of a tree inherits the way it is spent in. */
  lemma PartSpends(o: Oracle, w: Work, place: seq<nat>, wanted: bool, left: nat, k: nat, part: Work, still: bool)
    requires Spends(o, w, place, wanted, left)
    requires forall path: seq<nat> :: OnWidest(w, [k] + path) == (still && OnWidest(part, path))
    requires forall path: seq<nat> :: WidestRoute(w, [k] + path) == WidestRoute(part, path)
    ensures Spends(o, part, place + [k], wanted && still, left)
  {
    forall path: seq<nat>
      ensures && o.charges(place + [k] + path)
              == (if wanted && still && OnWidest(part, path) then Repeated(left) else [])
              && o.route(place + [k] + path) == WidestRoute(part, path) && o.turns(place + [k] + path) == 1
    {
      assert place + [k] + path == place + ([k] + path);
    }
  }

  lemma TargetSpends(o: Oracle, w: Work, place: seq<nat>, wanted: bool, left: nat)
    requires w.Router? && w.targets != [] && Spends(o, w, place, wanted, left)
    ensures Taken(o, w, place) == Best(w, w.targets)
    ensures Spends(o, w.targets[Best(w, w.targets)], place + [Best(w, w.targets)], wanted, left)
  {
    var k := Best(w, w.targets);
    assert place + [] == place && o.route(place + []) == k;
    PartSpends(o, w, place, wanted, left, k, w.targets[k], true);
    SmallRemainder(k, |w.targets|);
  }

  lemma SmallRemainder(k: nat, n: nat)
    requires k < n
    ensures k % n == k
  {
  }

  lemma GoTarget(o: Oracle, p: Policy, w: Work, place: seq<nat>, c: Counters, k: nat)
    requires w.Router? && w.targets != [] && Taken(o, w, place) == k
    ensures var r := Go(o, p, w.targets[k], place + [k], c);
      Go(o, p, w, place, c) == if r.None? then None else Some(Merge(c, r.value))
  {
  }

  lemma BranchSpends(o: Oracle, w: Work, place: seq<nat>, wanted: bool, left: nat, k: nat)
    requires w.Parallel? && k < |w.branches| && Spends(o, w, place, wanted, left)
    ensures Spends(o, w.branches[k], place + [k], wanted, left)
  {
    PartSpends(o, w, place, wanted, left, k, w.branches[k], true);
  }

  /** `width * left`, kept out of arithmetic. */
  function Many(width: nat, left: nat): nat { if width == 0 then 0 else Many(width - 1, left) + left }

  lemma {:induction false} ManySum(a: nat, b: nat, left: nat)
    ensures Many(a + b, left) == Many(a, left) + Many(b, left)
  {
    if b > 0 {
      assert a + b - 1 == a + (b - 1);
      ManySum(a, b - 1, left);
    }
  }

  lemma {:induction false} ManyIsProduct(width: nat, left: nat)
    ensures Many(width, left) == width * left
  {
    if width > 0 {
      ManyIsProduct(width - 1, left);
      assert (width - 1) * left + left == width * left;
    }
  }

  function Calls(n: int): Usage { Usage(n, 0, 0, 0, 0, 0.0) }

  /** Nothing but the limit on model calls stands in the way of `left` more calls. */
  predicate Room(p: Policy, c: Counters, left: nat) {
    && p.maxTokens.None? && p.maxCost.None?
    && left == p.maxModelCalls - c.used.modelCalls
    && c.step + left <= p.maxSteps
  }

  /** `after` has `n` more model calls than `before`, and nothing else. */
  predicate Grown(before: Counters, after: Counters, n: int, left: nat) {
    after.used == before.used.Plus(Calls(n)) && before.step <= after.step <= before.step + left
  }

  lemma MergeGrown(c: Counters, child: Counters, n: int, left: nat)
    requires n >= 0 && Grown(c, child, n, left)
    ensures Grown(c, Merge(c, child), n, left)
  {
  }

  lemma AbsorbGrown(c: Counters, children: seq<Counters>, child: Counters, a: int, b: int, left: nat)
    requires Grown(c, Absorb(c, children, c), a, left) && Grown(c, child, b, left)
    ensures Grown(c, Absorb(c, children + [child], c), a + b, left)
  {
    assert (children + [child])[..|children|] == children;
  }

  lemma AbsorbUnchanged(c: Counters, children: seq<Counters>)
    requires Absorb(c, children, c) == c
    ensures Absorb(c, children + [c], c) == c
  {
    assert (children + [c])[..|children|] == children;
  }

  lemma GoBranch(o: Oracle, p: Policy, w: Work, place: seq<nat>, n: nat, c: Counters)
    requires w.Parallel? && 0 < n <= |w.branches| && GoBranches(o, p, w, place, n - 1, c).Some?
    requires Go(o, p, w.branches[n - 1], place + [n - 1], c).Some?
    ensures GoBranches(o, p, w, place, n, c)
         == Some(GoBranches(o, p, w, place, n - 1, c).value + [Go(o, p, w.branches[n - 1], place + [n - 1], c).value])
    ensures Together(w, w.branches, n) == Together(w, w.branches, n - 1) + Width(w.branches[n - 1])
  {
  }

  lemma AbsorbNext(c: Counters, before: seq<Counters>, last: Counters, a: nat, b: nat, wanted: bool, left: nat)
    requires if wanted then Grown(c, Absorb(c, before, c), Many(a, left), left) else Absorb(c, before, c) == c
    requires if wanted then Grown(c, last, Many(b, left), left) else last == c
    ensures var r := Absorb(c, before + [last], c);
      if wanted then Grown(c, r, Many(a + b, left), left) else r == c
  {
    if wanted {
      AbsorbGrown(c, before, last, Many(a, left), Many(b, left), left);
      ManySum(a, b, left);
    } else {
      AbsorbUnchanged(c, before);
    }
  }

  /** Spent in the widest way, a tree uses up its whole bound; unwanted, it does nothing. */
  lemma {:induction false} Attains(o: Oracle, p: Policy, w: Work, place: seq<nat>, wanted: bool, left: nat, c: Counters)
    requires Proper(w) && Spends(o, w, place, wanted, left) && (wanted ==> Room(p, c, left))
    ensures Go(o, p, w, place, c).Some?
    ensures if wanted then Grown(c, Go(o, p, w, place, c).value, Many(Width(w), left), left)
      else Go(o, p, w, place, c).value == c
    decreases w, 1, 0
  {
    assert place + [] == place;
    match w
    case Agent => if wanted { RepeatedPays(p, left, c); }
    case Chain(_) => AttainsParts(o, p, w, place, 0, wanted, left, c);
    case Parallel(branches) => AttainsBranches(o, p, w, place, |branches|, wanted, left, c);
    case Router(_) => AttainsTarget(o, p, w, place, wanted, left, c);
    case Loop(_, _) => AttainsTurn(o, p, w, place, wanted, left, c);
  }

  lemma {:induction false} AttainsTarget(o: Oracle, p: Policy, w: Work, place: seq<nat>, wanted: bool, left: nat,
                                         c: Counters)
    requires w.Router? && Proper(w) && Spends(o, w, place, wanted, left) && (wanted ==> Room(p, c, left))
    ensures Go(o, p, w, place, c).Some?
    ensures if wanted then Grown(c, Go(o, p, w, place, c).value, Many(Width(w), left), left)
      else Go(o, p, w, place, c).value == c
    decreases w, 0, 0
  {
    var k := Best(w, w.targets);
    TargetSpends(o, w, place, wanted, left);
    Attains(o, p, w.targets[k], place + [k], wanted, left, c);
    GoTarget(o, p, w, place, c, k);
    if wanted { MergeGrown(c, Go(o, p, w.targets[k], place + [k], c).value, Many(Width(w), left), left); }
  }

  lemma {:induction false} AttainsTurn(o: Oracle, p: Policy, w: Work, place: seq<nat>, wanted: bool, left: nat,
                                       c: Counters)
    requires w.Loop? && Proper(w) && Spends(o, w, place, wanted, left) && (wanted ==> Room(p, c, left))
    ensures Go(o, p, w, place, c).Some?
    ensures if wanted then Grown(c, Go(o, p, w, place, c).value, Many(Width(w), left), left)
      else Go(o, p, w, place, c).value == c
    decreases w, 0, 0
  {
    assert place + [] == place && o.turns(place + []) == 1;
    PartSpends(o, w, place, wanted, left, 0, w.body, true);
    Attains(o, p, w.body, place + [0], wanted, left, c);
    var r := Go(o, p, w.body, place + [0], c).value;
    if wanted { MergeGrown(c, r, Many(Width(w), left), left); }
    assert GoTurns(o, p, w, place, 1, Merge(c, r)) == Some(Merge(c, r));
  }

  lemma {:induction false} AttainsParts(o: Oracle, p: Policy, w: Work, place: seq<nat>, i: nat,
                                        wanted: bool, left: nat, c: Counters)
    requires w.Chain? && i <= |w.parts| && Proper(w) && Spends(o, w, place, wanted, left)
    requires wanted && w.parts != [] && i <= Best(w, w.parts) ==> Room(p, c, left)
    ensures GoParts(o, p, w, place, i, c).Some?
    ensures var r := GoParts(o, p, w, place, i, c).value;
      if wanted && w.parts != [] && i <= Best(w, w.parts) then Grown(c, r, Many(Width(w), left), left) else r == c
    decreases w, 0, |w.parts| - i
  {
    if i < |w.parts| {
      var still := i == Best(w, w.parts);
      PartSpends(o, w, place, wanted, left, i, w.parts[i], still);
      Attains(o, p, w.parts[i], place + [i], wanted && still, left, c);
      AttainsParts(o, p, w, place, i + 1, wanted, left, Merge(c, Go(o, p, w.parts[i], place + [i], c).value));
    }
  }

  lemma {:induction false} AttainsBranches(o: Oracle, p: Policy, w: Work, place: seq<nat>, n: nat,
                                           wanted: bool, left: nat, c: Counters)
    requires w.Parallel? && n <= |w.branches| && Proper(w) && Spends(o, w, place, wanted, left)
    requires wanted ==> Room(p, c, left)
    ensures GoBranches(o, p, w, place, n, c).Some?
    ensures var r := Absorb(c, GoBranches(o, p, w, place, n, c).value, c);
      if wanted then Grown(c, r, Many(Together(w, w.branches, n), left), left) else r == c
    decreases w, 0, n
  {
    if n > 0 {
      AttainsBranches(o, p, w, place, n - 1, wanted, left, c);
      BranchSpends(o, w, place, wanted, left, n - 1);
      Attains(o, p, w.branches[n - 1], place + [n - 1], wanted, left, c);
      GoBranch(o, p, w, place, n, c);
      AbsorbNext(c, GoBranches(o, p, w, place, n - 1, c).value, Go(o, p, w.branches[n - 1], place + [n - 1], c).value,
                 Together(w, w.branches, n - 1), Width(w.branches[n - 1]), wanted, left);
    }
  }

  /** For every tree there is an outside that reaches the bound: `width` times what is left. */
  lemma {:induction false} OvershootAttained(p: Policy, w: Work, place: seq<nat>, c: Counters, left: nat)
    returns (o: Oracle)
    requires Proper(w) && Room(p, c, left)
    ensures Go(o, p, w, place, c).Some?
    ensures Go(o, p, w, place, c).value.used.modelCalls == c.used.modelCalls + Width(w) * left
  {
    o := Spender(w, place, left);
    SpenderSpends(w, place, left);
    Attains(o, p, w, place, true, left, c);
    ManyIsProduct(Width(w), left);
  }

  /** No run of the tree that raises nothing passes the limit on model calls. */
  ghost predicate KeepsLimit(p: Policy, w: Work, place: seq<nat>, c: Counters) {
    forall o :: Go(o, p, w, place, c).Some? ==> Go(o, p, w, place, c).value.used.modelCalls <= p.maxModelCalls
  }

  /** A tree keeps the limit, whatever the outside does, exactly if no two of its leaves can spend at
      once or nothing is left to spend. */
  lemma {:induction false} KeepsLimitIff(p: Policy, w: Work, place: seq<nat>, c: Counters, left: nat)
    requires Proper(w) && Room(p, c, left)
    ensures KeepsLimit(p, w, place, c) <==> Width(w) <= 1 || left == 0
  {
    if Width(w) <= 1 || left == 0 {
      forall o | Go(o, p, w, place, c).Some?
        ensures Go(o, p, w, place, c).value.used.modelCalls <= p.maxModelCalls
      {
        NarrowWithinLimit(o, p, w, place, c);
      }
    } else {
      var o := OvershootAttained(p, w, place, c, left);
      WiderThanOne(Width(w), left);
    }
  }

  lemma WiderThanOne(width: nat, left: nat)
    requires width > 1 && left > 0
    ensures width * left > left
  {
  }

  lemma NarrowWithinLimit(o: Oracle, p: Policy, w: Work, place: seq<nat>, c: Counters)
    requires Go(o, p, w, place, c).Some? && c.used.modelCalls <= p.maxModelCalls
    requires Width(w) <= 1 || c.used.modelCalls == p.maxModelCalls
    ensures Go(o, p, w, place, c).value.used.modelCalls <= p.maxModelCalls
  {
    ModelCallsBounded(o, p, w, place, c);
    if Width(w) == 0 {} else if Width(w) == 1 {}
  }
}
