/** No schedule runs forever, and none gets stuck before the end once the gates are decided. */
module InterleavingProgress {
  import opened Types
  import opened Wrappers
  import opened Workflows
  import opened PlainEquivalence
  import opened WorkflowNames
  import opened Runtime
  import opened RuntimeHistory
  import opened Interleaving
  import opened InterleavingEquivalence
  import opened InterleavingHistory

  // ------------------------------------------------------------------ how many moves are left at most

  function Effort(e: Executable): (n: nat)
    ensures n > 0
    decreases e, 1, 0
  {
    match e
    case Task(_) => 2
    case Sequence(_) => 1 + StepsEffort(e, 0)
    case Parallel(_, _) => 2 + BranchesEffort(e, 0)
    case Router(_, _, default) => 1 + RoutesEffort(e, 0) + (if default.Some? then Effort(default.value) else 0)
    case Loop(_, _, n) => 1 + TurnsEffort(e, n)
    case Approval(_, _, action, _) => 1 + (if action.Some? then Effort(action.value) else 0)
    case Workflow(_, _) => 1 + NodesEffort(e, 0)
  }

  function StepsEffort(e: Executable, i: nat): nat
    requires e.Sequence? && i <= |e.steps|
    decreases e, 0, |e.steps| - i
  {
    if i == |e.steps| then 0 else Effort(e.steps[i]) + 1 + StepsEffort(e, i + 1)
  }

  function BranchesEffort(e: Executable, i: nat): nat
    requires e.Parallel? && i <= |e.branches|
    decreases e, 0, |e.branches| - i
  {
    if i == |e.branches| then 0 else Effort(e.branches[i]) + BranchesEffort(e, i + 1)
  }

  function RoutesEffort(e: Executable, i: nat): nat
    requires e.Router? && i <= |e.routes|
    decreases e, 0, |e.routes| - i
  {
    if i == |e.routes| then 0 else Effort(e.routes[i].target) + RoutesEffort(e, i + 1)
  }

  function TurnsEffort(e: Executable, left: nat): nat
    requires e.Loop?
    decreases e, 0, left
  {
    if left == 0 then 0 else Effort(e.body) + 1 + TurnsEffort(e, left - 1)
  }

  function NodesEffort(e: Executable, i: nat): nat
    requires e.Workflow? && i <= |e.nodes|
    decreases e, 0, |e.nodes| - i
  {
    if i == |e.nodes| then 1 else Effort(e.nodes[i].work) + 6 + NodesEffort(e, i + 1)
  }

  function Weight(c: Config): nat
    requires Shaped(c)
    decreases c, 1, 0
  {
    match c
    case Start(e, _) => Effort(e)
    case Returned(_) => 0
    case Halted(_, _) => 0
    case Performing(_, _) => 1
    case InSteps(e, i, _, inner) => Weight(inner) + 1 + StepsEffort(e, i + 1)
    case InTurns(e, left, _, inner) => Weight(inner) + 1 + TurnsEffort(e, left)
    case InBranches(_, _, _) => 1 + BranchesWeight(c, 0)
    case AtNode(e, i, _, _) => NodesEffort(e, i)
    case Entering(e, i, _, _) => Effort(e.nodes[i].work) + 4 + NodesEffort(e, i + 1)
    case InNode(e, i, _, inner) => Weight(inner) + 3 + NodesEffort(e, i + 1)
    case Recorded(e, i, _, _) => 2 + NodesEffort(e, i + 1)
    case Storing(_, next) => 1 + Weight(next)
  }

  function BranchesWeight(c: Config, k: nat): nat
    requires Shaped(c) && c.InBranches? && k <= |c.inners|
    decreases c, 0, |c.inners| - k
  {
    if k == |c.inners| then 0 else Weight(c.inners[k]) + BranchesWeight(c, k + 1)
  }

  lemma {:induction false} RouteLighter(e: Executable, i: nat, key: string)
    requires e.Router? && i <= |e.routes| && Lookup(e.routes[i..], e.default, key).Some?
    ensures Effort(Lookup(e.routes[i..], e.default, key).value)
         <= RoutesEffort(e, i) + (if e.default.Some? then Effort(e.default.value) else 0)
    decreases |e.routes| - i
  {
    if i < |e.routes| && e.routes[i].key != key {
      assert e.routes[i..][1..] == e.routes[i + 1..];
      RouteLighter(e, i + 1, key);
    }
  }

  lemma {:induction false} ForkWeight(e: Executable, v: Value, k: nat)
    requires e.Parallel? && k <= |e.branches|
    ensures BranchesWeight(Fork(e, v), k) == BranchesEffort(e, k)
    decreases |e.branches| - k
  {
    if k < |e.branches| { ForkWeight(e, v, k + 1); }
  }

  lemma {:induction false} BranchLighter(c: Config, j: nat, x: Config, k: nat)
    requires Shaped(c) && c.InBranches? && j < |c.inners| && k <= |c.inners|
    requires Shaped(x) && Weight(x) < Weight(c.inners[j])
    ensures var c' := InBranches(c.e, c.own, c.inners[j := x]);
      if k <= j then BranchesWeight(c', k) < BranchesWeight(c, k) else BranchesWeight(c', k) == BranchesWeight(c, k)
    decreases |c.inners| - k
  {
    if k < |c.inners| { BranchLighter(c, j, x, k + 1); }
  }

  lemma BeginLightens(o: Oracle, e: Executable, v: Value, w: World)
    ensures Weight(Begin(o, e, v, w).0) < Effort(e)
  {
    match e
    case Router(name, routes, default) =>
      var key := o.choose(name, v);
      assert routes[0..] == routes;
      if Lookup(routes, default, key).Some? { RouteLighter(e, 0, key); }
    case Parallel(_, _) => ForkWeight(e, v, 0);
    case _ =>
  }

  lemma NodeLightens(o: Oracle, prompt: bool, c: Config, w: World)
    requires c.AtNode? && Shaped(c)
    ensures Weight(Move(o, prompt, c, w, []).0) < Weight(c)
  {
    if c.i < |c.e.nodes| && KeyOf(c.e, c.i) !in w.state.completed {
      var next := Entering(c.e, c.i, c.own, c.current);
      assert Weight(Storing(Checkpoint(BeforeNode(KeyOf(c.e, c.i)), w.state), next)) == 1 + Weight(next);
    }
  }

  /** A move changes nothing at all, or less is left. */
  lemma {:induction false} MoveLightens(o: Oracle, prompt: bool, c: Config, w: World, pick: seq<nat>)
    requires Shaped(c)
    ensures var (c1, w1) := Move(o, prompt, c, w, pick); (c1, w1) == (c, w) || Weight(c1) < Weight(c)
  {
    if c.Start? {
      BeginLightens(o, c.e, c.v, w);
    } else if c.InBranches? {
      if !AllReturned(c.inners) && pick != [] && pick[0] < |c.inners| {
        var x := Move(o, prompt, c.inners[pick[0]], w, pick[1..]).0;
        MoveLightens(o, prompt, c.inners[pick[0]], w, pick[1..]);
        if Weight(x) < Weight(c.inners[pick[0]]) {
          BranchLighter(c, pick[0], x, 0);
        } else {
          assert c.inners[pick[0] := x] == c.inners;
        }
      }
    } else if (c.InSteps? || c.InTurns? || c.InNode?) && !c.inner.Returned? {
      MoveLightens(o, prompt, c.inner, w, pick);
    } else if c.AtNode? {
      NodeLightens(o, prompt, c, w);
    }
  }

  /** Every move of the schedule changes the configuration. */
  predicate Busy(o: Oracle, prompt: bool, c: Config, w: World, picks: seq<seq<nat>>)
    requires Shaped(c)
    decreases |picks|
  {
    picks == [] ||
    var (c1, w1) := Move(o, prompt, c, w, picks[0]);
    c1 != c && Busy(o, prompt, c1, w1, picks[1..])
  }

  lemma {:induction false} SchedulesEnd(o: Oracle, prompt: bool, c: Config, w: World, picks: seq<seq<nat>>)
    requires Shaped(c) && Busy(o, prompt, c, w, picks)
    ensures |picks| <= Weight(c)
    decreases |picks|
  {
    if picks != [] {
      var (c1, w1) := Move(o, prompt, c, w, picks[0]);
      MoveLightens(o, prompt, c, w, picks[0]);
      SchedulesEnd(o, prompt, c1, w1, picks[1..]);
    }
  }

  // ------------------------------------------------------------------ something can always move

  predicate Unblocked(c: Config) {
    match c
    case Halted(_, _) => false
    case InSteps(_, _, _, inner) => Unblocked(inner)
    case InTurns(_, _, _, inner) => Unblocked(inner)
    case InBranches(_, _, inners) => forall k :: 0 <= k < |inners| ==> Unblocked(inners[k])
    case InNode(_, _, _, inner) => Unblocked(inner)
    case Storing(_, next) => Unblocked(next)
    case _ => true
  }

  /** Somebody who can move. */
  ghost function Somebody(c: Config): seq<nat>
    requires Shaped(c)
  {
    match c
    case InSteps(_, _, _, inner) => Somebody(inner)
    case InTurns(_, _, _, inner) => Somebody(inner)
    case InNode(_, _, _, inner) => Somebody(inner)
    case InBranches(_, _, inners) =>
      if AllReturned(inners) then []
      else
        var k :| 0 <= k < |inners| && !inners[k].Returned?;
        [k] + Somebody(inners[k])
    case _ => []
  }

  lemma {:induction false} SomebodyMoves(o: Oracle, prompt: bool, c: Config, w: World)
    requires Shaped(c) && Unblocked(c) && !c.Returned?
    ensures Weight(Move(o, prompt, c, w, Somebody(c)).0) < Weight(c)
  {
    if c.Start? {
      BeginLightens(o, c.e, c.v, w);
    } else if c.InBranches? {
      if !AllReturned(c.inners) {
        var k := Somebody(c)[0];
        assert Somebody(c)[1..] == Somebody(c.inners[k]);
        SomebodyMoves(o, prompt, c.inners[k], w);
        BranchLighter(c, k, Move(o, prompt, c.inners[k], w, Somebody(c.inners[k])).0, 0);
      }
    } else if (c.InSteps? || c.InTurns? || c.InNode?) && !c.inner.Returned? {
      SomebodyMoves(o, prompt, c.inner, w);
    } else if c.AtNode? {
      NodeLightens(o, prompt, c, w);
    }
  }

  ghost predicate AllDecided(s: State, d: string -> Decision) { forall id :: Entry(s, id) == d(id) }

  lemma BeginUnblocked(o: Oracle, d: string -> Decision, facts: set<Fact>, e: Executable, v: Value, w: World)
    requires Consistent(facts) && SoundWorld(w, d, facts) && Plain(o, d, e, v).facts <= facts
    requires AllDecided(w.state, d) && Plain(o, d, e, v).out.Some?
    ensures Unblocked(Begin(o, e, v, w).0)
  {
    if e.Workflow? && Compiles(e.nodes) {
      assert Defined(e.name, Sign(e)) in Plain(o, d, e, v).facts;
      RegisterSound(w, e, d, facts);
    }
  }

  lemma {:induction false} BranchesHaveOutputs(o: Oracle, d: string -> Decision, c: Config, k: nat, outs: seq<Value>,
                                               j: nat)
    requires Shaped(c) && c.InBranches? && k <= j < |c.inners|
    requires BranchesMeaning(o, d, c, k, outs).out.Some?
    ensures Meaning(o, d, c.inners[j]).out.Some?
    decreases |c.inners| - k
  {
    if k < j { BranchesHaveOutputs(o, d, c, k + 1, outs + [Meaning(o, d, c.inners[k]).out.GetOr(Null)], j); }
  }

  lemma {:induction false} MoveUnblocked(o: Oracle, d: string -> Decision, facts: set<Fact>, out: Option<Value>,
                                         prompt: bool, c: Config, w: World, pick: seq<nat>)
    requires Consistent(facts) && Steady(o, d, facts, out, c, w) && out.Some?
    requires AllDecided(w.state, d) && Unblocked(c)
    ensures Unblocked(Move(o, prompt, c, w, pick).0)
    decreases c, 1
  {
    if c.Start? {
      BeginUnblocked(o, d, facts, c.e, c.v, w);
    } else if c.InBranches? {
      if !AllReturned(c.inners) && pick != [] && pick[0] < |c.inners| {
        BranchUnblocked(o, d, facts, prompt, c, w, pick);
      }
    } else if (c.InSteps? || c.InTurns? || c.InNode?) && !c.inner.Returned? {
      InnerFacts(o, d, c);
      assert Meaning(o, d, c.inner).out.Some?;
      MoveUnblocked(o, d, facts, Meaning(o, d, c.inner).out, prompt, c.inner, w, pick);
    }
  }

  lemma {:induction false} BranchUnblocked(o: Oracle, d: string -> Decision, facts: set<Fact>,
                                           prompt: bool, c: Config, w: World, pick: seq<nat>)
    requires c.InBranches? && Shaped(c) && Consistent(facts) && Steady(o, d, facts, Meaning(o, d, c).out, c, w)
    requires Meaning(o, d, c).out.Some? && AllDecided(w.state, d) && Unblocked(c)
    requires pick != [] && pick[0] < |c.inners|
    ensures Unblocked(Move(o, prompt, c.inners[pick[0]], w, pick[1..]).0)
    decreases c, 0
  {
    var inner := c.inners[pick[0]];
    BranchFacts(o, d, c, 0, [], pick[0]);
    BranchesHaveOutputs(o, d, c, 0, [], pick[0]);
    MoveUnblocked(o, d, facts, Meaning(o, d, inner).out, prompt, inner, w, pick[1..]);
  }

  lemma {:induction false} MovesUnblocked(o: Oracle, d: string -> Decision, facts: set<Fact>, out: Option<Value>,
                                          prompt: bool, c: Config, w: World, picks: seq<seq<nat>>)
    requires Consistent(facts) && Steady(o, d, facts, out, c, w) && out.Some?
    requires AllDecided(w.state, d) && Unblocked(c)
    ensures Unblocked(Moves(o, prompt, c, w, picks).0)
    decreases |picks|
  {
    if picks != [] {
      var (c1, w1) := Move(o, prompt, c, w, picks[0]);
      MoveSteady(o, d, facts, out, prompt, c, w, picks[0]);
      MoveUnblocked(o, d, facts, out, prompt, c, w, picks[0]);
      MovesUnblocked(o, d, facts, out, prompt, c1, w1, picks[1..]);
    }
  }

  /** Nobody can move any more. */
  ghost predicate Still(o: Oracle, prompt: bool, c: Config, w: World)
    requires Shaped(c)
  {
    forall pick :: Move(o, prompt, c, w, pick) == (c, w)
  }

  lemma StillMeansReturned(o: Oracle, d: string -> Decision, facts: set<Fact>, out: Option<Value>,
                           prompt: bool, c: Config, w: World)
    requires Steady(o, d, facts, out, c, w) && Unblocked(c) && Still(o, prompt, c, w)
    ensures c.Returned? && Some(c.x) == out
  {
    if !c.Returned? { SomebodyMoves(o, prompt, c, w); }
  }

  /** Once the gates have their decisions, an attempt that is left alone makes at most `Effort(root)`
      moves, and wherever nobody can move any more it has completed with the uninterrupted output: no
      interleaving of branches deadlocks. */
  lemma {:induction false} UndisturbedInterleavingCompletes(o: Oracle, prompt: bool, root: Executable,
                                                            d: string -> Decision, input: Value,
                                         acts: seq<Act>, picks: seq<seq<nat>>)
    requires Tidy(root) && RuledAs(o, prompt, root, input, acts, d) && Plain(o, d, root, input).out.Some?
    requires var x := Story(o, prompt, root, input, acts);
      Launch(x, root).Some? && AllDecided(Launch(x, root).value, d)
    requires var x := Story(o, prompt, root, input, acts);
      var w := World(Launch(x, root).value, x.log, x.trace, []);
      var (c1, w1) := Moves(o, prompt, Start(root, input), w, picks);
      Busy(o, prompt, Start(root, input), w, picks) && Still(o, prompt, c1, w1)
    ensures |picks| <= Effort(root)
    ensures var x := Play(o, prompt, root, input, Story(o, prompt, root, input, acts), Drives(picks, Finished));
      x.status == Completed && x.output == Plain(o, d, root, input).out
  {
    var x, plain := Story(o, prompt, root, input, acts), Plain(o, d, root, input);
    var w := World(Launch(x, root).value, x.log, x.trace, []);
    TidyConsistent(o, d, root, input);
    StoryTruthful(o, prompt, root, d, input, acts);
    assert SoundWorld(w, d, plain.facts);
    MovesSteady(o, d, plain.facts, plain.out, prompt, Start(root, input), w, picks);
    MovesUnblocked(o, d, plain.facts, plain.out, prompt, Start(root, input), w, picks);
    var (c1, w1) := Moves(o, prompt, Start(root, input), w, picks);
    StillMeansReturned(o, d, plain.facts, plain.out, prompt, c1, w1);
    SchedulesEnd(o, prompt, Start(root, input), w, picks);
  }
}
