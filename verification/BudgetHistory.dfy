/** Model calls over a whole history of attempts. A checkpoint carries the counters, but the calls of what
    was under way when an attempt ended are in none: the next attempt does not know of them. */
module BudgetHistory {
  import opened Wrappers
  import opened Accounting
  import opened BudgetBounds

  // ------------------------------------------------------------------ the calls of one attempt

  function CallsOfCharges(p: Policy, charges: seq<Charge>, c: Counters): nat {
    if charges == [] || Pay(p, charges[0], c).None? then 0
    else (if charges[0].ModelCall? then 1 else 0) + CallsOfCharges(p, charges[1..], Pay(p, charges[0], c).value)
  }

  /** The model calls an attempt makes, whether an exception ends it or not. Next to a branch that raises
      the others go as far as they can. */
  function Calls(o: Oracle, p: Policy, w: Work, place: seq<nat>, c: Counters): nat
    decreases w, 1, 0
  {
    match w
    case Agent => CallsOfCharges(p, o.charges(place), c)
    case Chain(_) => CallsOfParts(o, p, w, place, 0, c)
    case Parallel(branches) => CallsOfBranches(o, p, w, place, |branches|, c)
    case Router(targets) =>
      if targets == [] then 0 else Calls(o, p, targets[Taken(o, w, place)], place + [Taken(o, w, place)], c)
    case Loop(_, _) => CallsOfTurns(o, p, w, place, 0, c)
  }

  function CallsOfParts(o: Oracle, p: Policy, w: Work, place: seq<nat>, i: nat, c: Counters): nat
    requires w.Chain? && i <= |w.parts|
    decreases w, 0, |w.parts| - i
  {
    if i == |w.parts| then 0
    else
      var r := Go(o, p, w.parts[i], place + [i], c);
      Calls(o, p, w.parts[i], place + [i], c)
      + if r.None? then 0 else CallsOfParts(o, p, w, place, i + 1, Merge(c, r.value))
  }

  function CallsOfBranches(o: Oracle, p: Policy, w: Work, place: seq<nat>, n: nat, c: Counters): nat
    requires w.Parallel? && n <= |w.branches|
    decreases w, 0, n
  {
    if n == 0 then 0
    else CallsOfBranches(o, p, w, place, n - 1, c) + Calls(o, p, w.branches[n - 1], place + [n - 1], c)
  }

  function CallsOfTurns(o: Oracle, p: Policy, w: Work, place: seq<nat>, i: nat, c: Counters): nat
    requires w.Loop? && i <= Turns(o, w, place)
    decreases w, 0, Turns(o, w, place) - i
  {
    if i == Turns(o, w, place) then 0
    else
      var r := Go(o, p, w.body, place + [i], c);
      Calls(o, p, w.body, place + [i], c)
      + if r.None? then 0 else CallsOfTurns(o, p, w, place, i + 1, Merge(c, r.value))
  }

  // ------------------------------------------------------------------ they are what the counters show

  lemma {:induction false} ChargesCounted(p: Policy, charges: seq<Charge>, c: Counters)
    requires GoCharges(p, charges, c).Some?
    ensures GoCharges(p, charges, c).value.used.modelCalls == c.used.modelCalls + CallsOfCharges(p, charges, c)
  {
    if charges != [] { ChargesCounted(p, charges[1..], Pay(p, charges[0], c).value); }
  }

  /** An attempt that raises nothing has counted every call it made. */
  lemma {:induction false} CallsCounted(o: Oracle, p: Policy, w: Work, place: seq<nat>, c: Counters)
    requires Go(o, p, w, place, c).Some?
    ensures Go(o, p, w, place, c).value.used.modelCalls == c.used.modelCalls + Calls(o, p, w, place, c)
    decreases w, 1, 0
  {
    match w
    case Agent => ChargesCounted(p, o.charges(place), c);
    case Chain(_) => PartsCounted(o, p, w, place, 0, c);
    case Parallel(branches) => BranchesCounted(o, p, w, place, |branches|, c);
    case Router(targets) => CallsCounted(o, p, targets[Taken(o, w, place)], place + [Taken(o, w, place)], c);
    case Loop(_, _) => TurnsCounted(o, p, w, place, 0, c);
  }

  lemma {:induction false} PartsCounted(o: Oracle, p: Policy, w: Work, place: seq<nat>, i: nat, c: Counters)
    requires w.Chain? && i <= |w.parts| && GoParts(o, p, w, place, i, c).Some?
    ensures GoParts(o, p, w, place, i, c).value.used.modelCalls
         == c.used.modelCalls + CallsOfParts(o, p, w, place, i, c)
    decreases w, 0, |w.parts| - i
  {
    if i < |w.parts| {
      CallsCounted(o, p, w.parts[i], place + [i], c);
      PartsCounted(o, p, w, place, i + 1, Merge(c, Go(o, p, w.parts[i], place + [i], c).value));
    }
  }

  lemma {:induction false} TurnsCounted(o: Oracle, p: Policy, w: Work, place: seq<nat>, i: nat, c: Counters)
    requires w.Loop? && i <= Turns(o, w, place) && GoTurns(o, p, w, place, i, c).Some?
    ensures GoTurns(o, p, w, place, i, c).value.used.modelCalls
         == c.used.modelCalls + CallsOfTurns(o, p, w, place, i, c)
    decreases w, 0, Turns(o, w, place) - i
  {
    if i < Turns(o, w, place) {
      CallsCounted(o, p, w.body, place + [i], c);
      TurnsCounted(o, p, w, place, i + 1, Merge(c, Go(o, p, w.body, place + [i], c).value));
    }
  }

  lemma {:induction false} BranchesCounted(o: Oracle, p: Policy, w: Work, place: seq<nat>, n: nat, c: Counters)
    requires w.Parallel? && n <= |w.branches| && GoBranches(o, p, w, place, n, c).Some?
    ensures Absorb(c, GoBranches(o, p, w, place, n, c).value, c).used.modelCalls
         == c.used.modelCalls + CallsOfBranches(o, p, w, place, n, c)
    decreases w, 0, n
  {
    if n > 0 {
      BranchesCounted(o, p, w, place, n - 1, c);
      CallsCounted(o, p, w.branches[n - 1], place + [n - 1], c);
      var children := GoBranches(o, p, w, place, n, c).value;
      assert children[..|children| - 1] == GoBranches(o, p, w, place, n - 1, c).value;
    }
  }

  // ------------------------------------------------------------------ a bound for every attempt

  /** What is left of the limit. */
  function LeftOver(p: Policy, c: Counters): nat {
    if c.used.modelCalls < p.maxModelCalls then p.maxModelCalls - c.used.modelCalls else 0
  }

  lemma {:induction false} ChargesWithin(p: Policy, charges: seq<Charge>, c: Counters)
    ensures CallsOfCharges(p, charges, c) <= LeftOver(p, c)
  {
    if charges != [] && Pay(p, charges[0], c).Some? { ChargesWithin(p, charges[1..], Pay(p, charges[0], c).value); }
  }

  /** Even an attempt that ends in an exception makes at most `width` times what is left in calls. */
  lemma {:induction false} CallsBounded(o: Oracle, p: Policy, w: Work, place: seq<nat>, c: Counters)
    ensures Calls(o, p, w, place, c) <= Width(w) * LeftOver(p, c)
    decreases w, 1, 0
  {
    match w
    case Agent => ChargesWithin(p, o.charges(place), c);
    case Chain(_) => PartsWithin(o, p, w, place, 0, c);
    case Parallel(branches) => BranchesWithin(o, p, w, place, |branches|, c);
    case Router(targets) =>
      if targets != [] {
        var k := Taken(o, w, place);
        CallsBounded(o, p, targets[k], place + [k], c);
        Wider(Width(targets[k]), Width(w), LeftOver(p, c));
      }
    case Loop(_, _) => TurnsWithin(o, p, w, place, 0, c);
  }

  lemma Wider(a: nat, b: nat, left: nat)
    requires a <= b
    ensures a * left <= b * left
  {
    assert b * left == a * left + (b - a) * left;
  }

  /** One part and then the rest, which knows what the part has used. */
  lemma InTurn(o: Oracle, p: Policy, part: Work, place: seq<nat>, c: Counters, width: nat, rest: nat)
    requires Calls(o, p, part, place, c) <= width * LeftOver(p, c)
    requires Go(o, p, part, place, c).Some?
    requires rest <= width * LeftOver(p, Merge(c, Go(o, p, part, place, c).value))
    ensures Calls(o, p, part, place, c) + rest <= width * LeftOver(p, c)
  {
    CallsCounted(o, p, part, place, c);
    var c1 := Merge(c, Go(o, p, part, place, c).value);
    assert c1.used.modelCalls == c.used.modelCalls + Calls(o, p, part, place, c);
    SpentThenRest(width, Calls(o, p, part, place, c), LeftOver(p, c), LeftOver(p, c1), rest);
  }

  lemma SpentThenRest(width: nat, made: nat, left: nat, after: nat, rest: nat)
    requires made <= width * left && rest <= width * after && after == if made <= left then left - made else 0
    ensures made + rest <= width * left
  {
    if width == 0 {
      Wider(0, 0, left);
    } else if made <= left {
      Distributes(width, left - made, made);
      Wider(1, width, made);
    }
  }

  lemma Distributes(a: nat, b: nat, c: nat)
    ensures a * (b + c) == a * b + a * c
  {
  }

  lemma {:induction false} PartsWithin(o: Oracle, p: Policy, w: Work, place: seq<nat>, i: nat, c: Counters)
    requires w.Chain? && i <= |w.parts|
    ensures CallsOfParts(o, p, w, place, i, c) <= Width(w) * LeftOver(p, c)
    decreases w, 0, |w.parts| - i
  {
    if i < |w.parts| {
      var r := Go(o, p, w.parts[i], place + [i], c);
      CallsBounded(o, p, w.parts[i], place + [i], c);
      Wider(Width(w.parts[i]), Width(w), LeftOver(p, c));
      if r.Some? {
        PartsWithin(o, p, w, place, i + 1, Merge(c, r.value));
        InTurn(o, p, w.parts[i], place + [i], c, Width(w), CallsOfParts(o, p, w, place, i + 1, Merge(c, r.value)));
      }
    }
  }

  lemma {:induction false} TurnsWithin(o: Oracle, p: Policy, w: Work, place: seq<nat>, i: nat, c: Counters)
    requires w.Loop? && i <= Turns(o, w, place)
    ensures CallsOfTurns(o, p, w, place, i, c) <= Width(w) * LeftOver(p, c)
    decreases w, 0, Turns(o, w, place) - i
  {
    if i < Turns(o, w, place) {
      var r := Go(o, p, w.body, place + [i], c);
      CallsBounded(o, p, w.body, place + [i], c);
      if r.Some? {
        TurnsWithin(o, p, w, place, i + 1, Merge(c, r.value));
        InTurn(o, p, w.body, place + [i], c, Width(w), CallsOfTurns(o, p, w, place, i + 1, Merge(c, r.value)));
      }
    }
  }

  lemma BothWithin(x: nat, y: nat, a: nat, b: nat, left: nat)
    requires x <= a * left && y <= b * left
    ensures x + y <= (a + b) * left
  {
  }

  lemma {:induction false} BranchesWithin(o: Oracle, p: Policy, w: Work, place: seq<nat>, n: nat, c: Counters)
    requires w.Parallel? && n <= |w.branches|
    ensures CallsOfBranches(o, p, w, place, n, c) <= Together(w, w.branches, n) * LeftOver(p, c)
    decreases w, 0, n
  {
    if n > 0 {
      BranchesWithin(o, p, w, place, n - 1, c);
      CallsBounded(o, p, w.branches[n - 1], place + [n - 1], c);
      BothWithin(CallsOfBranches(o, p, w, place, n - 1, c), Calls(o, p, w.branches[n - 1], place + [n - 1], c),
                 Together(w, w.branches, n - 1), Width(w.branches[n - 1]), LeftOver(p, c));
    }
  }

  // ------------------------------------------------------------------ the counters in its checkpoints

  /** The counters of the checkpoints an attempt stores, branch after branch: before and after every part of a
      chain. What a leaf is doing is in none of them. */
  function Marks(o: Oracle, p: Policy, w: Work, place: seq<nat>, c: Counters): seq<Counters>
    decreases w, 1, 0
  {
    match w
    case Agent => []
    case Chain(_) => MarksOfParts(o, p, w, place, 0, c)
    case Parallel(branches) => MarksOfBranches(o, p, w, place, |branches|, c)
    case Router(targets) =>
      if targets == [] then [] else Marks(o, p, targets[Taken(o, w, place)], place + [Taken(o, w, place)], c)
    case Loop(_, _) => MarksOfTurns(o, p, w, place, 0, c)
  }

  function MarksOfParts(o: Oracle, p: Policy, w: Work, place: seq<nat>, i: nat, c: Counters): seq<Counters>
    requires w.Chain? && i <= |w.parts|
    decreases w, 0, |w.parts| - i
  {
    if i == |w.parts| then [c]
    else
      var r := Go(o, p, w.parts[i], place + [i], c);
      [c] + Marks(o, p, w.parts[i], place + [i], c)
      + if r.None? then [] else MarksOfParts(o, p, w, place, i + 1, Merge(c, r.value))
  }

  function MarksOfBranches(o: Oracle, p: Policy, w: Work, place: seq<nat>, n: nat, c: Counters): seq<Counters>
    requires w.Parallel? && n <= |w.branches|
    decreases w, 0, n
  {
    if n == 0 then []
    else MarksOfBranches(o, p, w, place, n - 1, c) + Marks(o, p, w.branches[n - 1], place + [n - 1], c)
  }

  function MarksOfTurns(o: Oracle, p: Policy, w: Work, place: seq<nat>, i: nat, c: Counters): seq<Counters>
    requires w.Loop? && i <= Turns(o, w, place)
    decreases w, 0, Turns(o, w, place) - i
  {
    if i == Turns(o, w, place) then []
    else
      var r := Go(o, p, w.body, place + [i], c);
      Marks(o, p, w.body, place + [i], c)
      + if r.None? then [] else MarksOfTurns(o, p, w, place, i + 1, Merge(c, r.value))
  }

  ghost predicate NoneBelow(marks: seq<Counters>, c: Counters) {
    forall m :: m in marks ==> m.used.modelCalls >= c.used.modelCalls
  }

  /** No checkpoint forgets what the attempt started with. */
  lemma {:induction false} MarksGrow(o: Oracle, p: Policy, w: Work, place: seq<nat>, c: Counters)
    ensures NoneBelow(Marks(o, p, w, place, c), c)
    decreases w, 1, 0
  {
    match w
    case Agent =>
    case Chain(_) => PartsGrow(o, p, w, place, 0, c);
    case Parallel(branches) => BranchesGrow(o, p, w, place, |branches|, c);
    case Router(targets) =>
      if targets != [] { MarksGrow(o, p, targets[Taken(o, w, place)], place + [Taken(o, w, place)], c); }
    case Loop(_, _) => TurnsGrow(o, p, w, place, 0, c);
  }

  lemma {:induction false} PartsGrow(o: Oracle, p: Policy, w: Work, place: seq<nat>, i: nat, c: Counters)
    requires w.Chain? && i <= |w.parts|
    ensures NoneBelow(MarksOfParts(o, p, w, place, i, c), c)
    decreases w, 0, |w.parts| - i
  {
    if i < |w.parts| {
      var r := Go(o, p, w.parts[i], place + [i], c);
      MarksGrow(o, p, w.parts[i], place + [i], c);
      if r.Some? { PartsGrow(o, p, w, place, i + 1, Merge(c, r.value)); }
    }
  }

  lemma {:induction false} BranchesGrow(o: Oracle, p: Policy, w: Work, place: seq<nat>, n: nat, c: Counters)
    requires w.Parallel? && n <= |w.branches|
    ensures NoneBelow(MarksOfBranches(o, p, w, place, n, c), c)
    decreases w, 0, n
  {
    if n > 0 {
      BranchesGrow(o, p, w, place, n - 1, c);
      MarksGrow(o, p, w.branches[n - 1], place + [n - 1], c);
    }
  }

  lemma {:induction false} TurnsGrow(o: Oracle, p: Policy, w: Work, place: seq<nat>, i: nat, c: Counters)
    requires w.Loop? && i <= Turns(o, w, place)
    ensures NoneBelow(MarksOfTurns(o, p, w, place, i, c), c)
    decreases w, 0, Turns(o, w, place) - i
  {
    if i < Turns(o, w, place) {
      var r := Go(o, p, w.body, place + [i], c);
      MarksGrow(o, p, w.body, place + [i], c);
      if r.Some? { TurnsGrow(o, p, w, place, i + 1, Merge(c, r.value)); }
    }
  }

  // ------------------------------------------------------------------ whole histories

  /** An attempt: what the outside does in it, and the counters it starts from. */
  datatype Try = Try(outside: Oracle, start: Counters)

  /** The counters the attempt can leave to the next: those of its checkpoints, or its own if it stored none. */
  function LeftBehind(p: Policy, w: Work, t: Try): seq<Counters> {
    [t.start] + Marks(t.outside, p, w, [], t.start)
  }

  /** The first attempt starts from `c`, each later one from a checkpoint of the one before it. */
  ghost predicate History(p: Policy, w: Work, tries: seq<Try>, c: Counters) {
    && (tries != [] ==> tries[0].start == c)
    && forall i :: 0 <= i < |tries| - 1 ==> tries[i + 1].start in LeftBehind(p, w, tries[i])
  }

  /** All calls of all attempts, however they end. */
  function CallsOfAll(p: Policy, w: Work, tries: seq<Try>): nat {
    if tries == [] then 0
    else Calls(tries[0].outside, p, w, [], tries[0].start) + CallsOfAll(p, w, tries[1..])
  }

  lemma {:induction false} StartsGrow(p: Policy, w: Work, tries: seq<Try>, c: Counters, i: nat)
    requires History(p, w, tries, c) && i < |tries|
    ensures tries[i].start.used.modelCalls >= c.used.modelCalls
  {
    if i > 0 {
      StartsGrow(p, w, tries, c, i - 1);
      MarksGrow(tries[i - 1].outside, p, w, [], tries[i - 1].start);
      assert tries[i - 1 + 1].start in LeftBehind(p, w, tries[i - 1]);
    }
  }

  lemma OneMore(n: nat, x: nat)
    ensures (n + 1) * x == n * x + x
  {
  }

  lemma {:induction false} AllWithin(p: Policy, w: Work, tries: seq<Try>, most: nat)
    requires forall i :: 0 <= i < |tries| ==> Calls(tries[i].outside, p, w, [], tries[i].start) <= most
    ensures CallsOfAll(p, w, tries) <= |tries| * most
  {
    if tries != [] {
      AllWithin(p, w, tries[1..], most);
      OneMore(|tries| - 1, most);
    }
  }

  lemma MoreLeft(width: nat, a: nat, b: nat)
    requires a <= b
    ensures width * a <= width * b
  {
    Distributes(width, a, b - a);
  }

  /** Whatever the attempts do and wherever they end. */
  lemma {:induction false} HistoryBounded(p: Policy, w: Work, tries: seq<Try>, c: Counters)
    requires History(p, w, tries, c)
    ensures CallsOfAll(p, w, tries) <= |tries| * (Width(w) * LeftOver(p, c))
  {
    forall i | 0 <= i < |tries|
      ensures Calls(tries[i].outside, p, w, [], tries[i].start) <= Width(w) * LeftOver(p, c)
    {
      StartsGrow(p, w, tries, c, i);
      CallsBounded(tries[i].outside, p, w, [], tries[i].start);
      MoreLeft(Width(w), LeftOver(p, tries[i].start), LeftOver(p, c));
    }
    AllWithin(p, w, tries, Width(w) * LeftOver(p, c));
  }

  // ------------------------------------------------------------------ attempts that die before they are stored

  /** The same outside, but each leaf that does anything dies when it has done it. */
  function Dying(o: Oracle): Oracle {
    Oracle(q => if o.charges(q) == [] then [] else o.charges(q) + [Raises], o.route, o.turns)
  }

  lemma {:induction false} DiesPaid(p: Policy, n: nat, c: Counters)
    requires p.maxTokens.None? && p.maxCost.None? && c.step + n <= p.maxSteps
    requires c.used.modelCalls + n <= p.maxModelCalls
    ensures CallsOfCharges(p, Repeated(n) + [Raises], c) == n && GoCharges(p, Repeated(n) + [Raises], c).None?
  {
    var charges := Repeated(n) + [Raises];
    if n > 0 {
      assert charges[0] == ModelCall(0, 0, 0, 0.0) && charges[1..] == Repeated(n - 1) + [Raises];
      DiesPaid(p, n - 1, Pay(p, charges[0], c).value);
    }
  }

  ghost predicate AllAre(marks: seq<Counters>, c: Counters) { forall m :: m in marks ==> m == c }

  /** A dying attempt has made its calls, no checkpoint has counted one, and if it goes on, then unchanged. */
  ghost predicate Forgotten(o: Oracle, p: Policy, w: Work, place: seq<nat>, c: Counters, wanted: bool, left: nat) {
    && Calls(o, p, w, place, c) == (if wanted then Many(Width(w), left) else 0)
    && AllAre(Marks(o, p, w, place, c), c)
    && (Go(o, p, w, place, c) == Some(c) || (wanted && Go(o, p, w, place, c).None?))
  }

  lemma {:induction false} Forgets(o: Oracle, p: Policy, w: Work, place: seq<nat>, wanted: bool, left: nat, c: Counters)
    requires Proper(w) && Spends(o, w, place, wanted, left) && (wanted ==> Room(p, c, left))
    ensures Forgotten(Dying(o), p, w, place, c, wanted, left)
    decreases w, 1, 0
  {
    assert place + [] == place;
    match w
    case Agent => ForgetsLeaf(o, p, place, wanted, left, c);
    case Chain(_) => ForgetsParts(o, p, w, place, 0, wanted, left, c);
    case Parallel(_) => ForgetsAll(o, p, w, place, wanted, left, c);
    case Router(_) => ForgetsTarget(o, p, w, place, wanted, left, c);
    case Loop(_, _) => ForgetsTurn(o, p, w, place, wanted, left, c);
  }

  lemma ForgetsLeaf(o: Oracle, p: Policy, place: seq<nat>, wanted: bool, left: nat, c: Counters)
    requires Spends(o, Agent, place, wanted, left) && (wanted ==> Room(p, c, left))
    ensures Forgotten(Dying(o), p, Agent, place, c, wanted, left)
  {
    assert place + [] == place && o.charges(place + []) == if wanted then Repeated(left) else [];
    assert Many(1, left) == Many(0, left) + left;
    if wanted && left > 0 { DiesPaid(p, left, c); }
  }

  lemma {:induction false} ForgetsTarget(o: Oracle, p: Policy, w: Work, place: seq<nat>, wanted: bool, left: nat,
                                         c: Counters)
    requires w.Router? && Proper(w) && Spends(o, w, place, wanted, left) && (wanted ==> Room(p, c, left))
    ensures Forgotten(Dying(o), p, w, place, c, wanted, left)
    decreases w, 0, 0
  {
    var k := Best(w, w.targets);
    TargetSpends(o, w, place, wanted, left);
    assert Taken(Dying(o), w, place) == k;
    Forgets(o, p, w.targets[k], place + [k], wanted, left, c);
    GoTarget(Dying(o), p, w, place, c, k);
  }

  lemma {:induction false} ForgetsTurn(o: Oracle, p: Policy, w: Work, place: seq<nat>, wanted: bool, left: nat,
                                       c: Counters)
    requires w.Loop? && Proper(w) && Spends(o, w, place, wanted, left) && (wanted ==> Room(p, c, left))
    ensures Forgotten(Dying(o), p, w, place, c, wanted, left)
    decreases w, 0, 0
  {
    assert place + [] == place && o.turns(place + []) == 1;
    PartSpends(o, w, place, wanted, left, 0, w.body, true);
    Forgets(o, p, w.body, place + [0], wanted, left, c);
    var d := Dying(o);
    assert Turns(d, w, place) == 1;
    assert GoTurns(d, p, w, place, 1, c) == Some(c) && CallsOfTurns(d, p, w, place, 1, c) == 0;
    assert MarksOfTurns(d, p, w, place, 1, c) == [];
    assert Merge(c, c) == c;
  }

  lemma {:induction false} ForgetsParts(o: Oracle, p: Policy, w: Work, place: seq<nat>, i: nat,
                                        wanted: bool, left: nat, c: Counters)
    requires w.Chain? && i <= |w.parts| && Proper(w) && Spends(o, w, place, wanted, left)
    requires wanted ==> Room(p, c, left)
    ensures var (d, here) := (Dying(o), wanted && w.parts != [] && i <= Best(w, w.parts));
      && CallsOfParts(d, p, w, place, i, c) == (if here then Many(Width(w), left) else 0)
      && AllAre(MarksOfParts(d, p, w, place, i, c), c)
      && (GoParts(d, p, w, place, i, c) == Some(c) || (here && GoParts(d, p, w, place, i, c).None?))
    decreases w, 0, |w.parts| - i
  {
    if i < |w.parts| {
      var still := i == Best(w, w.parts);
      PartSpends(o, w, place, wanted, left, i, w.parts[i], still);
      Forgets(o, p, w.parts[i], place + [i], wanted && still, left, c);
      assert Merge(c, c) == c;
      ForgetsParts(o, p, w, place, i + 1, wanted, left, c);
    }
  }

  lemma {:induction false} ForgetsAll(o: Oracle, p: Policy, w: Work, place: seq<nat>, wanted: bool, left: nat,
                                      c: Counters)
    requires w.Parallel? && Proper(w) && Spends(o, w, place, wanted, left) && (wanted ==> Room(p, c, left))
    ensures Forgotten(Dying(o), p, w, place, c, wanted, left)
    decreases w, 0, |w.branches| + 1
  {
    ForgetsBranches(o, p, w, place, |w.branches|, wanted, left, c);
    var children := GoBranches(Dying(o), p, w, place, |w.branches|, c);
    if children.Some? { AbsorbsNothing(c, children.value); }
  }

  ghost predicate Unchanged(children: seq<Counters>, c: Counters) {
    forall k :: 0 <= k < |children| ==> children[k] == c
  }

  lemma {:induction false} AbsorbsNothing(c: Counters, children: seq<Counters>)
    requires Unchanged(children, c)
    ensures Absorb(c, children, c) == c
  {
    if children != [] { AbsorbsNothing(c, children[..|children| - 1]); }
  }

  lemma {:induction false} ForgetsBranches(o: Oracle, p: Policy, w: Work, place: seq<nat>, n: nat,
                                           wanted: bool, left: nat, c: Counters)
    requires w.Parallel? && n <= |w.branches| && Proper(w) && Spends(o, w, place, wanted, left)
    requires wanted ==> Room(p, c, left)
    ensures var d := Dying(o);
      && CallsOfBranches(d, p, w, place, n, c) == (if wanted then Many(Together(w, w.branches, n), left) else 0)
      && AllAre(MarksOfBranches(d, p, w, place, n, c), c)
      && (GoBranches(d, p, w, place, n, c).None? ==> wanted)
      && (GoBranches(d, p, w, place, n, c).Some? ==> Unchanged(GoBranches(d, p, w, place, n, c).value, c))
    decreases w, 0, n
  {
    if n > 0 {
      ForgetsBranches(o, p, w, place, n - 1, wanted, left, c);
      BranchSpends(o, w, place, wanted, left, n - 1);
      Forgets(o, p, w.branches[n - 1], place + [n - 1], wanted, left, c);
      ManySum(Together(w, w.branches, n - 1), Width(w.branches[n - 1]), left);
    }
  }

  // ------------------------------------------------------------------ the bound is reached

  /** As many attempts of the same kind from the same checkpoint. */
  function Again(t: Try, n: nat): (tries: seq<Try>)
    ensures |tries| == n && forall i :: 0 <= i < n ==> tries[i] == t
  {
    seq(n, _ => t)
  }

  lemma {:induction false} AgainCalls(p: Policy, w: Work, t: Try, n: nat, x: nat)
    requires x == Calls(t.outside, p, w, [], t.start)
    ensures CallsOfAll(p, w, Again(t, n)) == n * x
  {
    if n > 0 {
      assert Again(t, n)[1..] == Again(t, n - 1);
      AgainCalls(p, w, t, n - 1, x);
      OneMore(n - 1, x);
    }
  }

  /** Attempts that die before their calls are in a checkpoint each spend everything again: whatever any of
      them has stored, the next starts from `c`. */
  lemma {:induction false} HistoryAttained(p: Policy, w: Work, c: Counters, left: nat, n: nat) returns (tries: seq<Try>)
    requires Proper(w) && Room(p, c, left) && left == LeftOver(p, c)
    ensures |tries| == n && History(p, w, tries, c)
    ensures forall i :: 0 <= i < n ==> AllAre(LeftBehind(p, w, tries[i]), c)
    ensures CallsOfAll(p, w, tries) == n * (Width(w) * left)
  {
    var o := Spender(w, [], left);
    SpenderSpends(w, [], left);
    Forgets(o, p, w, [], true, left, c);
    ManyIsProduct(Width(w), left);
    tries := Again(Try(Dying(o), c), n);
    AgainCalls(p, w, Try(Dying(o), c), n, Width(w) * left);
  }

  /** No history of `n` attempts from `c` on makes more calls than `c` leaves. */
  ghost predicate HistoryKeepsLimit(p: Policy, w: Work, c: Counters, n: nat) {
    forall tries :: |tries| == n && History(p, w, tries, c) ==> CallsOfAll(p, w, tries) <= LeftOver(p, c)
  }

  lemma {:induction false} NarrowHistory(p: Policy, w: Work, tries: seq<Try>, c: Counters)
    requires History(p, w, tries, c) && (|tries| * Width(w) <= 1 || LeftOver(p, c) == 0)
    ensures CallsOfAll(p, w, tries) <= LeftOver(p, c)
  {
    HistoryBounded(p, w, tries, c);
    AtMostOnce(|tries|, Width(w), LeftOver(p, c));
  }

  lemma AtMostOnce(n: nat, width: nat, left: nat)
    requires n * width <= 1 || left == 0
    ensures n * (width * left) <= left
  {
    Regroup(n, width, left);
    if left != 0 { Wider(n * width, 1, left); }
  }

  /** The limit is one of a single attempt: a history keeps it, whatever the outside does, exactly if it is one
      attempt of a tree of width one, or less, or nothing is left. */
  lemma {:induction false} HistoryKeepsLimitIff(p: Policy, w: Work, c: Counters, left: nat, n: nat)
    requires Proper(w) && Room(p, c, left) && left == LeftOver(p, c)
    ensures HistoryKeepsLimit(p, w, c, n) <==> n * Width(w) <= 1 || left == 0
  {
    if n * Width(w) <= 1 || left == 0 {
      forall tries | |tries| == n && History(p, w, tries, c)
        ensures CallsOfAll(p, w, tries) <= left
      {
        NarrowHistory(p, w, tries, c);
      }
    } else {
      var tries := HistoryAttained(p, w, c, left, n);
      Regroup(n, Width(w), left);
      WiderThanOne(n * Width(w), left);
    }
  }

  lemma Regroup(n: nat, width: nat, left: nat)
    ensures n * (width * left) == (n * width) * left
  {
  }
}
