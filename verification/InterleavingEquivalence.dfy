/** However the branches interleave, every move keeps what the attempt will return, does only what the
    uninterrupted fold does, and keeps the dictionary and all checkpoints sound. */
module InterleavingEquivalence {
  import opened Types
  import opened Wrappers
  import opened Workflows
  import opened PlainEquivalence
  import opened Interleaving

  // ------------------------------------------------------------------ what is left to do, as a fold

  /** `first` and then, if it has an output, `rest`. */
  function Then(first: Evaluation, rest: Evaluation): Evaluation {
    if first.out.None? then first else Evaluation(rest.out, first.facts + rest.facts)
  }

  /** The uninterrupted evaluation of what is left. Before the first node of a workflow the running value
      is its own input, whatever `last_output` has put there. */
  function Meaning(o: Oracle, d: string -> Decision, c: Config): Evaluation
    requires Shaped(c)
    decreases c, 2, 0
  {
    match c
    case Start(e, v) => Plain(o, d, e, v)
    case Returned(x) => Evaluation(Some(x), {})
    case Halted(e, v) => Plain(o, d, e, v)
    case Performing(task, v) => Evaluation(Some(o.work(task, v)), {})
    case InSteps(e, i, own, inner) =>
      var r := Meaning(o, d, inner);
      Then(r, PlainSteps(o, d, e, i + 1, own, r.out.GetOr(Null)))
    case InTurns(e, left, own, inner) =>
      AfterTurn(o, d, e, left, own, Meaning(o, d, inner))
    case InBranches(_, _, _) => BranchesMeaning(o, d, c, 0, [])
    case AtNode(e, i, own, current) => PlainNodes(o, d, e, i, own, if i == 0 then own else current)
    case Entering(e, i, own, current) => PlainNodes(o, d, e, i, own, current)
    case InNode(e, i, own, inner) =>
      var r := Meaning(o, d, inner);
      Then(r.(facts := r.facts + {Settled(KeyOf(e, i), r.out)}), PlainNodes(o, d, e, i + 1, own, r.out.GetOr(Null)))
    case Recorded(e, i, own, x) => PlainNodes(o, d, e, i + 1, own, x)
    case Storing(_, next) => Meaning(o, d, next)
  }

  function BranchesMeaning(o: Oracle, d: string -> Decision, c: Config, k: nat, outs: seq<Value>): Evaluation
    requires Shaped(c) && c.InBranches? && k <= |c.inners|
    decreases c, 1, |c.inners| - k
  {
    if k == |c.inners| then Evaluation(Some(o.merge(c.e.name, outs)), {})
    else
      var r := Meaning(o, d, c.inners[k]);
      var rest := BranchesMeaning(o, d, c, k + 1, outs + [r.out.GetOr(Null)]);
      Evaluation(if r.out.None? then None else rest.out, r.facts + rest.facts)
  }

  // ------------------------------------------------------------------ the invariant

  /** Where a configuration stands agrees with the dictionary, and a copied checkpoint is sound. */
  ghost predicate Fits(c: Config, w: World, d: string -> Decision, facts: set<Fact>)
    requires Shaped(c)
  {
    match c
    case InSteps(_, _, _, inner) => Fits(inner, w, d, facts)
    case InTurns(_, _, _, inner) => Fits(inner, w, d, facts)
    case InBranches(_, _, inners) => forall k :: 0 <= k < |inners| ==> Fits(inners[k], w, d, facts)
    case AtNode(e, i, own, current) =>
      InLoop(e, i, w) && (i == 0 ==> current == own || Key(e.name, e.nodes[0].id) in w.state.completed)
    case Entering(e, i, _, _) => InLoop(e, i, w)
    case InNode(e, i, _, inner) => InLoop(e, i, w) && Fits(inner, w, d, facts)
    case Recorded(e, i, _, _) => InLoop(e, i + 1, w)
    case Storing(checkpoint, next) => Sound(checkpoint.state, d, facts) && Fits(next, w, d, facts)
    case _ => true
  }

  /** Completed nodes and registered workflows stay, and so does every decision. */
  ghost predicate Grows(a: State, b: State) {
    && a.completed.Keys <= b.completed.Keys
    && (forall f :: f in a.hashes ==> f in b.hashes && b.hashes[f] == a.hashes[f])
    && (forall id :: Entry(a, id) == Entry(b, id))
    && (a.rootHash.Some? ==> b.rootHash == a.rootHash)
  }

  ghost predicate Steady(o: Oracle, d: string -> Decision, facts: set<Fact>, out: Option<Value>, c: Config, w: World) {
    && Shaped(c) && Fits(c, w, d, facts) && SoundWorld(w, d, facts)
    && Meaning(o, d, c).facts <= facts && Meaning(o, d, c).out == out
  }

  /** The result of a move from `w`. */
  ghost predicate Stays(o: Oracle, d: string -> Decision, facts: set<Fact>, out: Option<Value>, w: World,
                        r: (Config, World)) {
    Steady(o, d, facts, out, r.0, r.1) && Grows(w.state, r.1.state)
  }

  /** Whoever else moves, a configuration still fits. */
  lemma {:induction false} FitsKept(c: Config, w: World, w': World, d: string -> Decision, facts: set<Fact>)
    requires Shaped(c) && Fits(c, w, d, facts) && Grows(w.state, w'.state)
    ensures Fits(c, w', d, facts)
  {
    match c
    case InSteps(_, _, _, inner) => FitsKept(inner, w, w', d, facts);
    case InTurns(_, _, _, inner) => FitsKept(inner, w, w', d, facts);
    case InBranches(_, _, inners) =>
      forall k | 0 <= k < |inners| ensures Fits(inners[k], w', d, facts) {
        FitsKept(inners[k], w, w', d, facts);
      }
    case InNode(_, _, _, inner) => FitsKept(inner, w, w', d, facts);
    case Storing(_, next) => FitsKept(next, w, w', d, facts);
    case _ =>
  }

  // ------------------------------------------------------------------ parallel branches

  lemma {:induction false} ForkMeaning(o: Oracle, d: string -> Decision, e: Executable, v: Value, k: nat,
                                       outs: seq<Value>)
    requires e.Parallel? && k <= |e.branches|
    ensures BranchesMeaning(o, d, Fork(e, v), k, outs) == PlainBranches(o, d, e, k, v, outs)
    decreases |e.branches| - k
  {
    if k < |e.branches| {
      ForkMeaning(o, d, e, v, k + 1, outs + [Plain(o, d, e.branches[k], v).out.GetOr(Null)]);
    }
  }

  lemma {:induction false} JoinMeaning(o: Oracle, d: string -> Decision, c: Config, k: nat)
    requires Shaped(c) && c.InBranches? && AllReturned(c.inners) && k <= |c.inners|
    ensures BranchesMeaning(o, d, c, k, Results(c.inners)[..k])
            == Evaluation(Some(o.merge(c.e.name, Results(c.inners))), {})
    decreases |c.inners| - k
  {
    var xs := Results(c.inners);
    if k < |c.inners| {
      JoinMeaning(o, d, c, k + 1);
      assert xs[..k] + [c.inners[k].x] == xs[..k + 1];
    } else {
      assert xs[..k] == xs;
    }
  }

  lemma {:induction false} BranchFacts(o: Oracle, d: string -> Decision, c: Config, k: nat, outs: seq<Value>, j: nat)
    requires Shaped(c) && c.InBranches? && k <= j < |c.inners|
    ensures Meaning(o, d, c.inners[j]).facts <= BranchesMeaning(o, d, c, k, outs).facts
    decreases |c.inners| - k
  {
    if k < j { BranchFacts(o, d, c, k + 1, outs + [Meaning(o, d, c.inners[k]).out.GetOr(Null)], j); }
  }

  /** A branch that keeps its own output keeps the output of all. */
  lemma {:induction false} BranchMoved(o: Oracle, d: string -> Decision, facts: set<Fact>,
                                       c: Config, j: nat, x: Config, k: nat, outs: seq<Value>)
    requires Shaped(c) && c.InBranches? && j < |c.inners| && k <= |c.inners| && Shaped(x)
    requires Meaning(o, d, x).out == Meaning(o, d, c.inners[j]).out && Meaning(o, d, x).facts <= facts
    requires BranchesMeaning(o, d, c, k, outs).facts <= facts
    ensures var c' := InBranches(c.e, c.own, c.inners[j := x]);
      && BranchesMeaning(o, d, c', k, outs).out == BranchesMeaning(o, d, c, k, outs).out
      && BranchesMeaning(o, d, c', k, outs).facts <= facts
    decreases |c.inners| - k
  {
    if k < |c.inners| {
      BranchMoved(o, d, facts, c, j, x, k + 1, outs + [Meaning(o, d, c.inners[k]).out.GetOr(Null)]);
    }
  }

  // ------------------------------------------------------------------ every move is steady

  lemma StepsMeaning(o: Oracle, d: string -> Decision, e: Executable, i: nat, own: Value, current: Value)
    requires e.Sequence? && i <= |e.steps|
    ensures Meaning(o, d, StepsFrom(e, i, own, current)) == PlainSteps(o, d, e, i, own, current)
  {
  }

  lemma TurnsMeaning(o: Oracle, d: string -> Decision, e: Executable, left: nat, own: Value, current: Value)
    requires e.Loop?
    ensures Meaning(o, d, TurnsFrom(e, left, own, current)) == PlainLoop(o, d, e, left, own, current)
  {
  }

  lemma AskSteady(o: Oracle, d: string -> Decision, facts: set<Fact>, e: Executable, v: Value, w: World)
    requires e.Approval? && Consistent(facts) && SoundWorld(w, d, facts) && Plain(o, d, e, v).facts <= facts
    ensures Stays(o, d, facts, Plain(o, d, e, v).out, w, Begin(o, e, v, w))
  {
    var id := e.approvalId;
    StateSound(w, Ask(w, id).state, d, facts);
    if Entry(w.state, id) == Approved && e.action.Some? {
      assert Opened(id) in Plain(o, d, e, v).facts;
      EmitSound(w, Acted(id, |w.log|), d, facts);
    }
  }

  lemma OpenSteady(o: Oracle, d: string -> Decision, facts: set<Fact>, e: Executable, v: Value, w: World)
    requires e.Workflow? && Consistent(facts) && SoundWorld(w, d, facts) && Plain(o, d, e, v).facts <= facts
    ensures Stays(o, d, facts, Plain(o, d, e, v).out, w, Begin(o, e, v, w))
  {
    if Compiles(e.nodes) {
      assert Defined(e.name, Sign(e)) in Plain(o, d, e, v).facts;
      RegisterSound(w, e, d, facts);
    }
  }

  lemma {:induction false} BeginSteady(o: Oracle, d: string -> Decision, facts: set<Fact>, e: Executable, v: Value,
                                       w: World)
    requires Consistent(facts) && SoundWorld(w, d, facts) && Plain(o, d, e, v).facts <= facts
    ensures Stays(o, d, facts, Plain(o, d, e, v).out, w, Begin(o, e, v, w))
  {
    match e
    case Task(name) => EmitSound(w, Ran(name, v, |w.log|), d, facts);
    case Sequence(_) => StepsMeaning(o, d, e, 0, v, v);
    case Parallel(_, _) => ForkMeaning(o, d, e, v, 0, []);
    case Router(_, _, _) =>
    case Loop(_, _, n) => TurnsMeaning(o, d, e, n, v, v);
    case Approval(_, _, _, _) => AskSteady(o, d, facts, e, v, w);
    case Workflow(_, _) => OpenSteady(o, d, facts, e, v, w);
  }

  lemma CopySteady(o: Oracle, d: string -> Decision, facts: set<Fact>, out: Option<Value>,
                   prompt: bool, reason: Reason, next: Config, w: World)
    requires Steady(o, d, facts, out, next, w)
    ensures Stays(o, d, facts, out, w, Copy(prompt, reason, next, w))
  {
    SaveSound(w, reason, d, facts);
    FitsKept(next, w, Save(w, reason), d, facts);
  }

  lemma StoreSteady(o: Oracle, d: string -> Decision, facts: set<Fact>, out: Option<Value>, c: Config, w: World)
    requires c.Storing? && Steady(o, d, facts, out, c, w)
    ensures Steady(o, d, facts, out, c.next, w.(log := w.log + [c.checkpoint]))
  {
    FitsKept(c.next, w, w.(log := w.log + [c.checkpoint]), d, facts);
  }

  lemma SkipSteady(o: Oracle, d: string -> Decision, facts: set<Fact>, out: Option<Value>, c: Config, w: World)
    requires c.AtNode? && Consistent(facts) && Steady(o, d, facts, out, c, w)
    requires c.i < |c.e.nodes| && KeyOf(c.e, c.i) in w.state.completed
    ensures Steady(o, d, facts, out, AtNode(c.e, c.i + 1, c.own, w.state.completed[KeyOf(c.e, c.i)]), w)
  {
    var key, plain := KeyOf(c.e, c.i), if c.i == 0 then c.own else c.current;
    NodeFacts(o, d, c.e, c.i, c.own, plain);
    var p := Plain(o, d, c.e.nodes[c.i].work, Give(plain, c.own));
    assert Compatible(Settled(key, p.out), Settled(key, Some(w.state.completed[key])));
  }

  lemma EnterSteady(o: Oracle, d: string -> Decision, facts: set<Fact>, out: Option<Value>, c: Config, w: World)
    requires c.Entering? && Steady(o, d, facts, out, c, w)
    ensures Stays(o, d, facts, out, w, Move(o, true, c, w, []))
  {
    EnterMeaning(o, d, c.e, c.i, c.own, c.current);
    EmitSound(w, Began(KeyOf(c.e, c.i), |w.log|), d, facts);
  }

  lemma EnterMeaning(o: Oracle, d: string -> Decision, e: Executable, i: nat, own: Value, current: Value)
    requires e.Workflow? && i < |e.nodes|
    ensures var (plain, left) := (PlainNodes(o, d, e, i, own, current),
                                  Meaning(o, d, InNode(e, i, own, Start(e.nodes[i].work, Give(current, own)))));
      left.out == plain.out && left.facts <= plain.facts && Entered(KeyOf(e, i)) in plain.facts
  {
    NodeFacts(o, d, e, i, own, current);
    var inner := Start(e.nodes[i].work, Give(current, own));
    assert Meaning(o, d, inner) == Plain(o, d, e.nodes[i].work, Give(current, own));
  }

  lemma AtNodeSteady(o: Oracle, d: string -> Decision, facts: set<Fact>, out: Option<Value>,
                     prompt: bool, c: Config, w: World)
    requires c.AtNode? && Consistent(facts) && Steady(o, d, facts, out, c, w)
    ensures Stays(o, d, facts, out, w, Move(o, prompt, c, w, []))
  {
    if c.i < |c.e.nodes| {
      var key := KeyOf(c.e, c.i);
      if key in w.state.completed {
        SkipSteady(o, d, facts, out, c, w);
      } else {
        var next := Entering(c.e, c.i, c.own, c.current);
        assert Meaning(o, d, next) == Meaning(o, d, c) && Fits(next, w, d, facts);
        CopySteady(o, d, facts, out, prompt, BeforeNode(key), next, w);
      }
    }
  }

  lemma RecordSteady(o: Oracle, d: string -> Decision, facts: set<Fact>, out: Option<Value>, c: Config, w: World)
    requires c.InNode? && c.inner.Returned? && Steady(o, d, facts, out, c, w)
    ensures var w1 := Record(w, KeyOf(c.e, c.i), c.inner.x);
      Steady(o, d, facts, out, Recorded(c.e, c.i, c.own, c.inner.x), w1) && Grows(w.state, w1.state)
  {
    RecordMeaning(o, d, c);
    RecordKeeps(d, facts, c.e, c.i, w, c.inner.x);
  }

  lemma RecordMeaning(o: Oracle, d: string -> Decision, c: Config)
    requires c.InNode? && c.inner.Returned? && Shaped(c)
    ensures var rest := Meaning(o, d, Recorded(c.e, c.i, c.own, c.inner.x));
      && Meaning(o, d, c).out == rest.out
      && rest.facts + {Settled(KeyOf(c.e, c.i), Some(c.inner.x))} <= Meaning(o, d, c).facts
  {
    assert Meaning(o, d, c.inner) == Evaluation(Some(c.inner.x), {});
  }

  lemma RecordKeeps(d: string -> Decision, facts: set<Fact>, e: Executable, i: nat, w: World, x: Value)
    requires InLoop(e, i, w) && i < |e.nodes| && SoundWorld(w, d, facts) && Settled(KeyOf(e, i), Some(x)) in facts
    ensures var w1 := Record(w, KeyOf(e, i), x);
      InLoop(e, i + 1, w1) && SoundWorld(w1, d, facts) && Grows(w.state, w1.state)
  {
    RecordSound(d, facts, e, i, w.state, x);
    StateSound(w, Record(w, KeyOf(e, i), x).state, d, facts);
  }

  /** `c` with another inner configuration. */
  function Refill(c: Config, x: Config): Config
    requires c.InSteps? || c.InTurns? || c.InNode?
  {
    match c
    case InSteps(e, i, own, _) => InSteps(e, i, own, x)
    case InTurns(e, left, own, _) => InTurns(e, left, own, x)
    case InNode(e, i, own, _) => InNode(e, i, own, x)
  }

  lemma RefillMeaning(o: Oracle, d: string -> Decision, facts: set<Fact>, c: Config, x: Config)
    requires (c.InSteps? || c.InTurns? || c.InNode?) && Shaped(c) && Shaped(x)
    requires Meaning(o, d, x).out == Meaning(o, d, c.inner).out
    requires Meaning(o, d, x).facts <= facts && Meaning(o, d, c).facts <= facts
    ensures Meaning(o, d, Refill(c, x)).out == Meaning(o, d, c).out
    ensures Meaning(o, d, Refill(c, x)).facts <= facts
  {
    var r, r' := Meaning(o, d, c.inner), Meaning(o, d, x);
    match c
    case InSteps(_, _, _, _) =>
    case InTurns(_, _, _, _) =>
    case InNode(e, i, own, _) =>
      assert Settled(KeyOf(e, i), r.out) in Meaning(o, d, c).facts;
  }

  lemma InnerFacts(o: Oracle, d: string -> Decision, c: Config)
    requires (c.InSteps? || c.InTurns? || c.InNode?) && Shaped(c)
    ensures Meaning(o, d, c.inner).facts <= Meaning(o, d, c).facts
  {
  }

  lemma RecordedSteady(o: Oracle, d: string -> Decision, facts: set<Fact>, out: Option<Value>,
                       prompt: bool, c: Config, w: World)
    requires c.Recorded? && Steady(o, d, facts, out, c, w)
    ensures Stays(o, d, facts, out, w, Move(o, prompt, c, w, []))
  {
    var next := AtNode(c.e, c.i + 1, c.own, c.x);
    assert Meaning(o, d, next) == Meaning(o, d, c);
    assert Fits(next, w, d, facts);
    CopySteady(o, d, facts, out, prompt, AfterNode(KeyOf(c.e, c.i)), next, w);
  }

  lemma LeafSteady(o: Oracle, d: string -> Decision, facts: set<Fact>, out: Option<Value>,
                   prompt: bool, c: Config, w: World)
    requires !c.InSteps? && !c.InTurns? && !c.InBranches? && !c.InNode? && !c.AtNode?
    requires Consistent(facts) && Steady(o, d, facts, out, c, w)
    ensures Stays(o, d, facts, out, w, Move(o, prompt, c, w, []))
  {
    if c.Start? {
      BeginSteady(o, d, facts, c.e, c.v, w);
    } else if c.Entering? {
      EnterSteady(o, d, facts, out, c, w);
    } else if c.Recorded? {
      RecordedSteady(o, d, facts, out, prompt, c, w);
    } else if c.Storing? {
      StoreSteady(o, d, facts, out, c, w);
    }
  }

  lemma {:induction false} MoveSteady(o: Oracle, d: string -> Decision, facts: set<Fact>, out: Option<Value>,
                                      prompt: bool, c: Config, w: World, pick: seq<nat>)
    requires Consistent(facts) && Steady(o, d, facts, out, c, w)
    ensures Stays(o, d, facts, out, w, Move(o, prompt, c, w, pick))
    decreases c, 2
  {
    if c.InBranches? {
      BranchSteady(o, d, facts, out, prompt, c, w, pick);
    } else if c.AtNode? {
      AtNodeSteady(o, d, facts, out, prompt, c, w);
    } else if c.InSteps? || c.InTurns? || c.InNode? {
      if c.inner.Returned? {
        InnerReturned(o, d, facts, out, prompt, c, w);
      } else {
        InnerSteady(o, d, facts, out, prompt, c, w, pick);
      }
    } else {
      LeafSteady(o, d, facts, out, prompt, c, w);
    }
  }

  lemma {:induction false} InnerSteady(o: Oracle, d: string -> Decision, facts: set<Fact>, out: Option<Value>,
                                       prompt: bool, c: Config, w: World, pick: seq<nat>)
    requires (c.InSteps? || c.InTurns? || c.InNode?) && !c.inner.Returned?
    requires Consistent(facts) && Steady(o, d, facts, out, c, w)
    ensures Stays(o, d, facts, out, w, Move(o, prompt, c, w, pick))
    decreases c, 1
  {
    InnerFacts(o, d, c);
    var (x, w1) := Move(o, prompt, c.inner, w, pick);
    MoveSteady(o, d, facts, Meaning(o, d, c.inner).out, prompt, c.inner, w, pick);
    RefillMeaning(o, d, facts, c, x);
    assert Move(o, prompt, c, w, pick) == (Refill(c, x), w1);
  }

  lemma InnerReturned(o: Oracle, d: string -> Decision, facts: set<Fact>, out: Option<Value>,
                      prompt: bool, c: Config, w: World)
    requires (c.InSteps? || c.InTurns? || c.InNode?) && c.inner.Returned? && Steady(o, d, facts, out, c, w)
    ensures Stays(o, d, facts, out, w, Move(o, prompt, c, w, []))
  {
    match c
    case InSteps(_, _, _, _) => StepReturned(o, d, c);
    case InTurns(_, _, _, _) => if !o.until(c.e.name, c.inner.x) { TurnReturned(o, d, c); }
    case InNode(_, _, _, _) => RecordSteady(o, d, facts, out, c, w);
  }

  lemma StepReturned(o: Oracle, d: string -> Decision, c: Config)
    requires c.InSteps? && c.inner.Returned? && Shaped(c)
    ensures var next := Meaning(o, d, StepsFrom(c.e, c.i + 1, c.own, c.inner.x));
      next.out == Meaning(o, d, c).out && next.facts <= Meaning(o, d, c).facts
  {
    assert Meaning(o, d, c.inner) == Evaluation(Some(c.inner.x), {});
    StepsMeaning(o, d, c.e, c.i + 1, c.own, c.inner.x);
  }

  lemma TurnReturned(o: Oracle, d: string -> Decision, c: Config)
    requires c.InTurns? && c.inner.Returned? && Shaped(c) && !o.until(c.e.name, c.inner.x)
    ensures var next := Meaning(o, d, TurnsFrom(c.e, c.left, c.own, c.inner.x));
      next.out == Meaning(o, d, c).out && next.facts <= Meaning(o, d, c).facts
  {
    assert Meaning(o, d, c.inner) == Evaluation(Some(c.inner.x), {});
    TurnsMeaning(o, d, c.e, c.left, c.own, c.inner.x);
  }

  lemma {:induction false} BranchSteady(o: Oracle, d: string -> Decision, facts: set<Fact>, out: Option<Value>,
                                        prompt: bool, c: Config, w: World, pick: seq<nat>)
    requires c.InBranches? && Consistent(facts) && Steady(o, d, facts, out, c, w)
    ensures Stays(o, d, facts, out, w, Move(o, prompt, c, w, pick))
    decreases c, 0
  {
    if AllReturned(c.inners) {
      JoinMeaning(o, d, c, 0);
    } else if pick != [] && pick[0] < |c.inners| {
      var j := pick[0];
      var (x, w1) := Move(o, prompt, c.inners[j], w, pick[1..]);
      BranchFacts(o, d, c, 0, [], j);
      MoveSteady(o, d, facts, Meaning(o, d, c.inners[j]).out, prompt, c.inners[j], w, pick[1..]);
      BranchMoved(o, d, facts, c, j, x, 0, []);
      forall k | 0 <= k < |c.inners| && k != j ensures Fits(c.inners[k], w1, d, facts) {
        FitsKept(c.inners[k], w, w1, d, facts);
      }
    }
  }

  lemma {:induction false} MovesSteady(o: Oracle, d: string -> Decision, facts: set<Fact>, out: Option<Value>,
                                       prompt: bool, c: Config, w: World, picks: seq<seq<nat>>)
    requires Consistent(facts) && Steady(o, d, facts, out, c, w)
    ensures Stays(o, d, facts, out, w, Moves(o, prompt, c, w, picks))
    decreases |picks|
  {
    if picks != [] {
      var (c1, w1) := Move(o, prompt, c, w, picks[0]);
      MoveSteady(o, d, facts, out, prompt, c, w, picks[0]);
      MovesSteady(o, d, facts, out, prompt, c1, w1, picks[1..]);
    }
  }
}
