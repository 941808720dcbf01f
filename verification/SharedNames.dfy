/** What branches that share a workflow name do: both pass the test that its first node is not completed,
    one of them completes it and has it stored, and then the other begins it. No crash, no late store
    and no second process is needed. */
module SharedNames {
  import opened Types
  import opened Wrappers
  import opened Workflows
  import opened Runtime
  import opened Interleaving
  import opened InterleavingEquivalence
  import opened InterleavingHistory
  import opened InterleavingProgress
  import opened SideBySide
  import opened Schedules

  // ------------------------------------------------------------------ trees of which every part runs

  /** No gates and no routers, and names are used once, except in branches of one parallel node. */
  predicate Straight(e: Executable) {
    match e
    case Task(_) => true
    case Sequence(steps) =>
      && (forall i :: 0 <= i < |steps| ==> Straight(steps[i]))
      && (forall i, j :: 0 <= i < j < |steps| ==> Flows(steps[i]) !! Flows(steps[j]))
    case Parallel(_, branches) => forall i :: 0 <= i < |branches| ==> Straight(branches[i])
    case Router(_, _, _) => false
    case Loop(_, body, _) => Straight(body) && Flows(body) == {}
    case Approval(_, _, _, _) => false
    case Workflow(name, nodes) =>
      && Compiles(nodes)
      && (forall i :: 0 <= i < |nodes| ==> Straight(nodes[i].work) && name !in Flows(nodes[i].work))
      && (forall i, j :: 0 <= i < j < |nodes| ==> Flows(nodes[i].work) !! Flows(nodes[j].work))
  }

  /** A name always stands for the definition that `names` has. */
  predicate Agreed(e: Executable, names: map<string, Signature>) {
    match e
    case Task(_) => true
    case Sequence(steps) => forall i :: 0 <= i < |steps| ==> Agreed(steps[i], names)
    case Parallel(_, branches) => forall i :: 0 <= i < |branches| ==> Agreed(branches[i], names)
    case Router(_, routes, default) =>
      && (forall i :: 0 <= i < |routes| ==> Agreed(routes[i].target, names))
      && (default.Some? ==> Agreed(default.value, names))
    case Loop(_, body, _) => Agreed(body, names)
    case Approval(_, _, action, _) => action.Some? ==> Agreed(action.value, names)
    case Workflow(name, nodes) =>
      && name in names && names[name] == Sign(e)
      && forall i :: 0 <= i < |nodes| ==> Agreed(nodes[i].work, names)
  }

  predicate Sturdy(e: Executable, names: map<string, Signature>) { Straight(e) && Agreed(e, names) }

  ghost predicate Known(s: State, names: map<string, Signature>) {
    forall f :: f in s.hashes ==> f in names && names[f] == s.hashes[f]
  }

  /** Nothing of `fs` is completed. */
  ghost predicate Clear(s: State, fs: set<string>) { forall key :: key in s.completed ==> key.flow !in fs }

  // ------------------------------------------------------------------ everything can be finished

  ghost predicate Going(c: Config, names: map<string, Signature>) {
    match c
    case Start(e, _) => Sturdy(e, names)
    case Halted(_, _) => false
    case InSteps(e, _, _, inner) => Sturdy(e, names) && Going(inner, names)
    case InTurns(e, _, _, inner) => Sturdy(e, names) && Going(inner, names)
    case InBranches(e, _, inners) => Sturdy(e, names) && forall k :: 0 <= k < |inners| ==> Going(inners[k], names)
    case AtNode(e, _, _, _) => Sturdy(e, names)
    case Entering(e, _, _, _) => Sturdy(e, names)
    case InNode(e, _, _, inner) => Sturdy(e, names) && Going(inner, names)
    case Recorded(e, _, _, _) => Sturdy(e, names)
    case Storing(_, next) => Going(next, names)
    case _ => true
  }

  lemma {:induction false} GoingUnblocked(c: Config, names: map<string, Signature>)
    requires Going(c, names)
    ensures Unblocked(c)
  {
    match c
    case InSteps(_, _, _, inner) => GoingUnblocked(inner, names);
    case InTurns(_, _, _, inner) => GoingUnblocked(inner, names);
    case InNode(_, _, _, inner) => GoingUnblocked(inner, names);
    case InBranches(_, _, inners) =>
      forall k | 0 <= k < |inners| ensures Unblocked(inners[k]) { GoingUnblocked(inners[k], names); }
    case Storing(_, next) => GoingUnblocked(next, names);
    case _ =>
  }

  lemma BeginGoing(o: Oracle, e: Executable, v: Value, w: World, names: map<string, Signature>)
    requires Sturdy(e, names) && Known(w.state, names)
    ensures var r := Begin(o, e, v, w); Going(r.0, names) && Known(r.1.state, names)
  {
  }

  lemma {:induction false} BranchGoing(c: Config, j: nat, x: Config, names: map<string, Signature>)
    requires c.InBranches? && j < |c.inners| && Going(c, names) && Going(x, names)
    ensures Going(WithBranch(c, j, x), names)
  {
  }

  lemma {:induction false} MoveGoing(o: Oracle, c: Config, w: World, pick: seq<nat>, names: map<string, Signature>)
    requires Shaped(c) && Going(c, names) && Known(w.state, names)
    ensures var r := Move(o, true, c, w, pick); Going(r.0, names) && Known(r.1.state, names)
  {
    if c.Start? {
      BeginGoing(o, c.e, c.v, w, names);
    } else if c.InBranches? {
      if !AllReturned(c.inners) && pick != [] && pick[0] < |c.inners| {
        MoveGoing(o, c.inners[pick[0]], w, pick[1..], names);
        BranchGoing(c, pick[0], Move(o, true, c.inners[pick[0]], w, pick[1..]).0, names);
      }
    } else if Framed(c) && !c.inner.Returned? {
      MoveGoing(o, c.inner, w, pick, names);
    }
  }

  lemma {:induction false} GoesKeeps(o: Oracle, c: Config, w: World, picks: seq<seq<nat>>, c1: Config, w1: World,
                                     names: map<string, Signature>, fs: set<string>)
    requires Goes(o, true, c, w, picks, c1, w1) && Going(c, names) && Known(w.state, names) && SideBySide.Inside(c, fs)
    ensures Shaped(c1) && Going(c1, names) && Known(w1.state, names) && Completes(w.state, w1.state, fs)
    decreases |picks|
  {
    if picks != [] {
      var (c0, w0) := Move(o, true, c, w, picks[0]);
      MoveGoing(o, c, w, picks[0], names);
      MoveInside(o, true, c, w, picks[0], fs);
      GoesKeeps(o, c0, w0, picks[1..], c1, w1, names, fs);
    }
  }

  lemma LeadsKeeps(o: Oracle, c: Config, w: World, c1: Config, w1: World, names: map<string, Signature>,
                   fs: set<string>)
    requires Leads(o, true, c, w, c1, w1) && Going(c, names) && Known(w.state, names) && SideBySide.Inside(c, fs)
    ensures Shaped(c1) && Going(c1, names) && Known(w1.state, names) && Completes(w.state, w1.state, fs)
  {
    var picks :| Goes(o, true, c, w, picks, c1, w1);
    GoesKeeps(o, c, w, picks, c1, w1, names, fs);
  }

  lemma {:induction false} Finish(o: Oracle, c: Config, w: World, names: map<string, Signature>)
    returns (x: Value, w1: World)
    requires Shaped(c) && Going(c, names) && Known(w.state, names)
    ensures Leads(o, true, c, w, Returned(x), w1)
    decreases Weight(c)
  {
    if c.Returned? {
      LeadsNowhere(o, true, c, w);
      x, w1 := c.x, w;
    } else {
      var (c0, w0) := Move(o, true, c, w, Somebody(c));
      GoingUnblocked(c, names);
      SomebodyMoves(o, true, c, w);
      MoveGoing(o, c, w, Somebody(c), names);
      x, w1 := Finish(o, c0, w0, names);
      LeadsOne(o, true, c, w, Somebody(c));
      LeadsThen(o, true, c, w, c0, w0, Returned(x), w1);
    }
  }

  // ------------------------------------------------------------------ up to one part

  /** What is completed on the way to part `i` belongs to the parts before it. */
  ghost predicate Earlier(parts: seq<set<string>>, i: nat, s: State, s': State)
    requires i <= |parts|
  {
    forall key :: key in s'.completed && key !in s.completed ==> exists j :: 0 <= j < i && key.flow in parts[j]
  }

  function StepFlows(e: Executable): seq<set<string>>
    requires e.Sequence?
  {
    seq(|e.steps|, i requires 0 <= i < |e.steps| => Flows(e.steps[i]))
  }

  lemma {:induction false} ToStep(o: Oracle, e: Executable, i: nat, v: Value, w: World, names: map<string, Signature>)
    returns (x: Value, w1: World)
    requires e.Sequence? && i < |e.steps| && Sturdy(e, names) && Known(w.state, names)
    ensures Leads(o, true, Start(e, v), w, InSteps(e, i, v, Start(e.steps[i], x)), w1)
    ensures Known(w1.state, names) && Earlier(StepFlows(e), i, w.state, w1.state)
  {
    if i == 0 {
      LeadsOne(o, true, Start(e, v), w, []);
      x, w1 := Give(v, v), w;
    } else {
      var x0, w0 := ToStep(o, e, i - 1, v, w, names);
      var c := InSteps(e, i - 1, v, Start(e.steps[i - 1], x0));
      var y: Value;
      y, w1 := Finish(o, c.inner, w0, names);
      LeadsKeeps(o, c.inner, w0, Returned(y), w1, names, Flows(e.steps[i - 1]));
      LeadsInner(o, true, c, w0, Returned(y), w1);
      LeadsThen(o, true, Start(e, v), w, c, w0, Refill(c, Returned(y)), w1);
      LeadsOn(o, true, Start(e, v), w, Refill(c, Returned(y)), w1, []);
      x := Give(y, v);
      forall key | key in w1.state.completed && key !in w.state.completed
        ensures exists j :: 0 <= j < i && key.flow in StepFlows(e)[j]
      {
        if key !in w0.state.completed { assert key.flow in StepFlows(e)[i - 1]; }
      }
    }
  }

  function NodeFlows(e: Executable): seq<set<string>>
    requires e.Workflow?
  {
    seq(|e.nodes|, i requires 0 <= i < |e.nodes| => Flows(e.nodes[i].work))
  }

  /** Nothing of the workflow's nodes from `i` on is completed, and what is new belongs to the nodes
      before. */
  ghost predicate Before(e: Executable, i: nat, s: State, s': State)
    requires e.Workflow? && i <= |e.nodes|
  {
    && (forall j :: i <= j < |e.nodes| ==> KeyOf(e, j) !in s'.completed)
    && (forall key :: key in s'.completed && key !in s.completed ==>
          key.flow == e.name || exists j :: 0 <= j < i && key.flow in NodeFlows(e)[j])
  }

  /** From the test to the work. */
  lemma Enters(o: Oracle, e: Executable, i: nat, v: Value, current: Value, w: World)
    requires e.Workflow? && i < |e.nodes| && KeyOf(e, i) !in w.state.completed
    ensures Leads(o, true, AtNode(e, i, v, current), w,
                  InNode(e, i, v, Start(e.nodes[i].work, Give(current, v))), Begun(e, i, w))
  {
    LeadsOne(o, true, AtNode(e, i, v, current), w, []);
    LeadsOn(o, true, AtNode(e, i, v, current), w, Entering(e, i, v, current), Save(w, BeforeNode(KeyOf(e, i))), []);
  }

  function Begun(e: Executable, i: nat, w: World): World
    requires e.Workflow? && i < |e.nodes|
  {
    Emit(Save(w, BeforeNode(KeyOf(e, i))), Began(KeyOf(e, i), |w.log| + 1))
  }

  /** From the work to the next test. */
  lemma Leaves(o: Oracle, e: Executable, i: nat, v: Value, inner: Config, w: World, names: map<string, Signature>)
    returns (y: Value, w1: World)
    requires e.Workflow? && i < |e.nodes| && Shaped(inner) && Sturdy(e, names)
    requires Going(inner, names) && Known(w.state, names) && SideBySide.Inside(inner, Flows(e.nodes[i].work))
    ensures Leads(o, true, InNode(e, i, v, inner), w, AtNode(e, i + 1, v, y), w1) && Known(w1.state, names)
    ensures w1.log != [] && w1.log[|w1.log| - 1].reason == AfterNode(KeyOf(e, i))
    ensures forall key :: key in w1.state.completed && key !in w.state.completed ==>
      key == KeyOf(e, i) || key.flow in Flows(e.nodes[i].work)
  {
    var c, w0 := InNode(e, i, v, inner), w;
    y, w0 := Finish(o, inner, w, names);
    LeadsKeeps(o, inner, w, Returned(y), w0, names, Flows(e.nodes[i].work));
    LeadsInner(o, true, c, w, Returned(y), w0);
    Concludes(o, e, i, v, y, w0);
    w1 := Save(Record(w0, KeyOf(e, i), y), AfterNode(KeyOf(e, i)));
    LeadsThen(o, true, c, w, InNode(e, i, v, Returned(y)), w0, AtNode(e, i + 1, v, y), w1);
  }

  lemma Concludes(o: Oracle, e: Executable, i: nat, v: Value, y: Value, w: World)
    requires e.Workflow? && i < |e.nodes|
    ensures Leads(o, true, InNode(e, i, v, Returned(y)), w, AtNode(e, i + 1, v, y),
                  Save(Record(w, KeyOf(e, i), y), AfterNode(KeyOf(e, i))))
  {
    LeadsOne(o, true, InNode(e, i, v, Returned(y)), w, []);
    LeadsOn(o, true, InNode(e, i, v, Returned(y)), w, Recorded(e, i, v, y), Record(w, KeyOf(e, i), y), []);
  }

  lemma {:induction false} ToTest(o: Oracle, e: Executable, i: nat, v: Value, w: World, names: map<string, Signature>)
    returns (current: Value, w1: World)
    requires e.Workflow? && i < |e.nodes| && Sturdy(e, names) && Known(w.state, names) && Clear(w.state, Flows(e))
    ensures Leads(o, true, Start(e, v), w, AtNode(e, i, v, current), w1)
    ensures Known(w1.state, names) && Before(e, i, w.state, w1.state)
  {
    if i == 0 {
      LeadsOne(o, true, Start(e, v), w, []);
      w1 := Register(w, e.name, e);
      current := Restored(w1.state, e.name, v);
    } else {
      var x, w2 := ToTest(o, e, i - 1, v, w, names);
      Enters(o, e, i - 1, v, x, w2);
      var (inner, w3) := (Start(e.nodes[i - 1].work, Give(x, v)), Begun(e, i - 1, w2));
      current, w1 := Leaves(o, e, i - 1, v, inner, w3, names);
      LeadsThen(o, true, Start(e, v), w, AtNode(e, i - 1, v, x), w2, InNode(e, i - 1, v, inner), w3);
      LeadsThen(o, true, Start(e, v), w, InNode(e, i - 1, v, inner), w3, AtNode(e, i, v, current), w1);
      BeforeNext(e, i, w.state, w2.state, w1.state);
    }
  }

  lemma BeforeNext(e: Executable, i: nat, s: State, s0: State, s1: State)
    requires e.Workflow? && 0 < i < |e.nodes| && Straight(e) && Before(e, i - 1, s, s0)
    requires forall key :: key in s1.completed && key !in s0.completed ==>
      key == KeyOf(e, i - 1) || key.flow in Flows(e.nodes[i - 1].work)
    ensures Before(e, i, s, s1)
  {
    forall key | key in s1.completed && key !in s.completed
      ensures key.flow == e.name || exists j :: 0 <= j < i && key.flow in NodeFlows(e)[j]
    {
      if key !in s0.completed && key.flow != e.name { assert key.flow in NodeFlows(e)[i - 1]; }
    }
  }

  lemma ToWork(o: Oracle, e: Executable, i: nat, v: Value, w: World, names: map<string, Signature>)
    returns (x: Value, w1: World)
    requires e.Workflow? && i < |e.nodes| && Sturdy(e, names) && Known(w.state, names) && Clear(w.state, Flows(e))
    ensures Leads(o, true, Start(e, v), w, InNode(e, i, v, Start(e.nodes[i].work, x)), w1)
    ensures Known(w1.state, names) && Before(e, i, w.state, w1.state)
  {
    var current, w2 := ToTest(o, e, i, v, w, names);
    Enters(o, e, i, v, current, w2);
    x, w1 := Give(current, v), Begun(e, i, w2);
    LeadsThen(o, true, Start(e, v), w, AtNode(e, i, v, current), w2, InNode(e, i, v, Start(e.nodes[i].work, x)), w1);
  }

  // ------------------------------------------------------------------ in front of a shared workflow

  predicate Meet(fs: set<string>, gs: set<string>) { exists f :: f in fs && f in gs }

  /** The first part that has a name of `s`. */
  lemma {:induction false} FirstMeeting(parts: seq<set<string>>, s: set<string>) returns (i: nat)
    requires exists k :: 0 <= k < |parts| && Meet(parts[k], s)
    ensures i < |parts| && Meet(parts[i], s) && forall j :: 0 <= j < i ==> !Meet(parts[j], s)
  {
    if Meet(parts[0], s) {
      i := 0;
    } else {
      var k :| 0 <= k < |parts| && Meet(parts[k], s);
      assert parts[1..][k - 1] == parts[k];
      i := FirstMeeting(parts[1..], s);
      i := i + 1;
    }
  }

  /** The key of a workflow's first node. */
  function FirstKey(names: map<string, Signature>, f: string): Key {
    if f in names && names[f].WorkflowMark? && names[f].ids != [] then Key(f, names[f].ids[0]) else Key(f, "")
  }

  /** The coroutine that `pick` picks has passed the test and is about to begin node `key`. */
  predicate Poised(c: Config, pick: seq<nat>, key: Key)
    requires Shaped(c)
  {
    match c
    case Entering(e, i, _, _) => KeyOf(e, i) == key
    case InSteps(_, _, _, inner) => Poised(inner, pick, key)
    case InTurns(_, _, _, inner) => Poised(inner, pick, key)
    case InNode(_, _, _, inner) => Poised(inner, pick, key)
    case InBranches(_, _, inners) => pick != [] && pick[0] < |inners| && Poised(inners[pick[0]], pick[1..], key)
    case _ => false
  }

  /** Where `Reach` arrives: in front of the workflow `f` of `s`, with nothing of `s` completed. */
  ghost predicate Arrived(o: Oracle, e: Executable, v: Value, w: World, names: map<string, Signature>,
                          s: set<string>, c1: Config, w1: World, pick: seq<nat>, f: string) {
    && Leads(o, true, Start(e, v), w, c1, w1) && Shaped(c1) && Poised(c1, pick, FirstKey(names, f))
    && f in s && f in Flows(e) && Known(w1.state, names) && Clear(w1.state, s)
  }

  lemma {:induction false} Reach(o: Oracle, e: Executable, v: Value, w: World, names: map<string, Signature>,
                                 s: set<string>)
    returns (c1: Config, w1: World, pick: seq<nat>, f: string)
    requires Sturdy(e, names) && Known(w.state, names) && Clear(w.state, Flows(e)) && Clear(w.state, s)
    requires Meet(Flows(e), s)
    ensures Arrived(o, e, v, w, names, s, c1, w1, pick, f)
    decreases e, 1
  {
    match e
    case Sequence(_) => c1, w1, pick, f := ReachStep(o, e, v, w, names, s);
    case Parallel(_, _) => c1, w1, pick, f := ReachBranch(o, e, v, w, names, s);
    case Workflow(name, _) =>
      if name in s {
        c1, w1 := ReachFirst(o, e, v, w, names, s);
        pick, f := [], name;
      } else {
        c1, w1, pick, f := ReachNode(o, e, v, w, names, s);
      }
  }

  lemma ReachFirst(o: Oracle, e: Executable, v: Value, w: World, names: map<string, Signature>, s: set<string>)
    returns (c1: Config, w1: World)
    requires e.Workflow? && Sturdy(e, names) && Known(w.state, names) && Clear(w.state, Flows(e)) && Clear(w.state, s)
    requires e.name in s
    ensures Arrived(o, e, v, w, names, s, c1, w1, [], e.name)
  {
    var current := Restored(Register(w, e.name, e).state, e.name, v);
    var w2 := Register(w, e.name, e);
    LeadsOne(o, true, Start(e, v), w, []);
    assert Move(o, true, Start(e, v), w, []) == (AtNode(e, 0, v, current), w2);
    LeadsOn(o, true, Start(e, v), w, AtNode(e, 0, v, current), w2, []);
    c1, w1 := Entering(e, 0, v, current), Save(w2, BeforeNode(KeyOf(e, 0)));
    assert KeyOf(e, 0).flow in Flows(e);
  }

  lemma {:induction false} ReachBranch(o: Oracle, e: Executable, v: Value, w: World, names: map<string, Signature>,
                                       s: set<string>)
    returns (c1: Config, w1: World, pick: seq<nat>, f: string)
    requires e.Parallel? && Sturdy(e, names) && Known(w.state, names) && Clear(w.state, Flows(e)) && Clear(w.state, s)
    requires Meet(Flows(e), s)
    ensures Arrived(o, e, v, w, names, s, c1, w1, pick, f)
    decreases e, 0
  {
    var j :| 0 <= j < |e.branches| && Meet(Flows(e.branches[j]), s);
    assert Flows(e.branches[j]) <= Flows(e);
    c1, w1, pick, f := Reach(o, e.branches[j], v, w, names, s);
    LeadsOne(o, true, Start(e, v), w, []);
    LeadsBranch(o, true, Fork(e, v), w, j, c1, w1);
    LeadsThen(o, true, Start(e, v), w, Fork(e, v), w, WithBranch(Fork(e, v), j, c1), w1);
    c1, pick := WithBranch(Fork(e, v), j, c1), [j] + pick;
  }

  lemma {:induction false} ReachStep(o: Oracle, e: Executable, v: Value, w: World, names: map<string, Signature>,
                                     s: set<string>)
    returns (c1: Config, w1: World, pick: seq<nat>, f: string)
    requires e.Sequence? && Sturdy(e, names) && Known(w.state, names) && Clear(w.state, Flows(e)) && Clear(w.state, s)
    requires Meet(Flows(e), s)
    ensures Arrived(o, e, v, w, names, s, c1, w1, pick, f)
    decreases e, 0
  {
    var g :| g in Flows(e) && g in s;
    var k :| 0 <= k < |e.steps| && g in Flows(e.steps[k]);
    assert Meet(StepFlows(e)[k], s);
    var i := FirstMeeting(StepFlows(e), s);
    var x, w2 := ToStep(o, e, i, v, w, names);
    EarlierClear(StepFlows(e), i, w.state, w2.state, s);
    StepClear(e, i, w.state, w2.state);
    var c: Config;
    c, w1, pick, f := Reach(o, e.steps[i], x, w2, names, s);
    LeadsInner(o, true, InSteps(e, i, v, Start(e.steps[i], x)), w2, c, w1);
    c1 := InSteps(e, i, v, c);
    LeadsThen(o, true, Start(e, v), w, InSteps(e, i, v, Start(e.steps[i], x)), w2, c1, w1);
  }

  lemma FirstWork(e: Executable, s: set<string>) returns (i: nat)
    requires e.Workflow? && e.name !in s && Meet(Flows(e), s)
    ensures i < |e.nodes| && Meet(Flows(e.nodes[i].work), s) && forall j :: 0 <= j < i ==> !Meet(NodeFlows(e)[j], s)
  {
    var g :| g in Flows(e) && g in s;
    var k :| 0 <= k < |e.nodes| && g in Flows(e.nodes[k].work);
    assert Meet(NodeFlows(e)[k], s);
    i := FirstMeeting(NodeFlows(e), s);
  }

  lemma {:induction false} ReachNode(o: Oracle, e: Executable, v: Value, w: World, names: map<string, Signature>,
                                     s: set<string>)
    returns (c1: Config, w1: World, pick: seq<nat>, f: string)
    requires e.Workflow? && Sturdy(e, names) && Known(w.state, names) && Clear(w.state, Flows(e)) && Clear(w.state, s)
    requires e.name !in s && Meet(Flows(e), s)
    ensures Arrived(o, e, v, w, names, s, c1, w1, pick, f)
    decreases e, 0
  {
    var i := FirstWork(e, s);
    var x, w2 := ToWork(o, e, i, v, w, names);
    WorkClear(e, i, w.state, w2.state);
    BeforeClear(e, i, w.state, w2.state, s);
    var c: Config;
    c, w1, pick, f := Reach(o, e.nodes[i].work, x, w2, names, s);
    LeadsInner(o, true, InNode(e, i, v, Start(e.nodes[i].work, x)), w2, c, w1);
    c1 := InNode(e, i, v, c);
    LeadsThen(o, true, Start(e, v), w, InNode(e, i, v, Start(e.nodes[i].work, x)), w2, c1, w1);
  }

  lemma EarlierClear(parts: seq<set<string>>, i: nat, s: State, s': State, fs: set<string>)
    requires i <= |parts| && Earlier(parts, i, s, s') && Clear(s, fs)
    requires forall j :: 0 <= j < i ==> !Meet(parts[j], fs)
    ensures Clear(s', fs)
  {
  }

  lemma StepClear(e: Executable, i: nat, s: State, s': State)
    requires e.Sequence? && i < |e.steps| && Straight(e) && Clear(s, Flows(e)) && Earlier(StepFlows(e), i, s, s')
    ensures Clear(s', Flows(e.steps[i]))
  {
    assert Flows(e.steps[i]) <= Flows(e);
    forall j | 0 <= j < i ensures !Meet(StepFlows(e)[j], Flows(e.steps[i])) {
      assert Flows(e.steps[j]) !! Flows(e.steps[i]);
    }
    EarlierClear(StepFlows(e), i, s, s', Flows(e.steps[i]));
  }

  lemma BeforeClear(e: Executable, i: nat, s: State, s': State, fs: set<string>)
    requires e.Workflow? && i < |e.nodes| && Before(e, i, s, s') && Clear(s, fs) && e.name !in fs
    requires forall j :: 0 <= j < i ==> !Meet(NodeFlows(e)[j], fs)
    ensures Clear(s', fs)
  {
  }

  lemma WorkClear(e: Executable, i: nat, s: State, s': State)
    requires e.Workflow? && i < |e.nodes| && Straight(e) && Clear(s, Flows(e)) && Before(e, i, s, s')
    ensures Clear(s', Flows(e.nodes[i].work))
  {
    assert Flows(e.nodes[i].work) <= Flows(e);
    forall key | key in s'.completed ensures key.flow !in Flows(e.nodes[i].work) {
      if key !in s.completed && key.flow != e.name {
        var j :| 0 <= j < i && key.flow in NodeFlows(e)[j];
        assert Flows(e.nodes[j].work) !! Flows(e.nodes[i].work);
      }
    }
  }

  // ------------------------------------------------------------------ one goes on, then the other

  lemma FinishHere(o: Oracle, c: Config, w: World, names: map<string, Signature>) returns (c1: Config, w1: World)
    requires c.Entering? && Shaped(c) && Going(c, names) && Known(w.state, names)
    ensures Leads(o, true, c, w, c1, w1) && Shaped(c1)
    ensures w1.log != [] && w1.log[|w1.log| - 1].reason == AfterNode(KeyOf(c.e, c.i))
  {
    var inner := Start(c.e.nodes[c.i].work, Give(c.current, c.own));
    var w2 := Emit(w, Began(KeyOf(c.e, c.i), |w.log|));
    LeadsOne(o, true, c, w, []);
    var y;
    y, w1 := Leaves(o, c.e, c.i, c.own, inner, w2, names);
    c1 := AtNode(c.e, c.i + 1, c.own, y);
    LeadsThen(o, true, c, w, InNode(c.e, c.i, c.own, inner), w2, c1, w1);
  }

  /** The coroutine about to begin `key` works it off, until its `after_node` checkpoint is stored. */
  lemma {:induction false} FinishNode(o: Oracle, c: Config, w: World, names: map<string, Signature>, pick: seq<nat>,
                                      key: Key)
    returns (c1: Config, w1: World)
    requires Shaped(c) && Poised(c, pick, key) && Going(c, names) && Known(w.state, names)
    ensures Leads(o, true, c, w, c1, w1) && Shaped(c1)
    ensures w1.log != [] && w1.log[|w1.log| - 1].reason == AfterNode(key)
    decreases c
  {
    if c.Entering? {
      c1, w1 := FinishHere(o, c, w, names);
    } else if c.InBranches? {
      c1, w1 := FinishNode(o, c.inners[pick[0]], w, names, pick[1..], key);
      LeadsBranch(o, true, c, w, pick[0], c1, w1);
      c1 := WithBranch(c, pick[0], c1);
    } else {
      c1, w1 := FinishNode(o, c.inner, w, names, pick, key);
      LeadsInner(o, true, c, w, c1, w1);
      c1 := Refill(c, c1);
    }
  }

  lemma {:induction false} BeginsNext(o: Oracle, c: Config, w: World, pick: seq<nat>, key: Key)
    requires Shaped(c) && Poised(c, pick, key)
    ensures Move(o, true, c, w, pick).1 == Emit(w, Began(key, |w.log|))
  {
    if c.InBranches? {
      BeginsNext(o, c.inners[pick[0]], w, pick[1..], key);
    } else if Framed(c) {
      BeginsNext(o, c.inner, w, pick, key);
    }
  }

  /** The last event begins the node whose `after_node` checkpoint is the last one stored. */
  predicate RunsAgain(w: World) {
    w.log != [] && w.trace != [] &&
    var ev := w.trace[|w.trace| - 1];
    ev.Began? && ev.at == |w.log| && w.log[|w.log| - 1].reason == AfterNode(ev.key)
  }

  /** Both branches in front of the same node. */
  lemma {:induction false} BothPoised(o: Oracle, e: Executable, v: Value, w: World, names: map<string, Signature>,
                                      j: nat, k: nat)
    returns (c1: Config, w1: World, p: seq<nat>, q: seq<nat>, f: string)
    requires e.Parallel? && Sturdy(e, names) && Known(w.state, names) && Clear(w.state, Flows(e))
    requires j < k < |e.branches| && Meet(Flows(e.branches[j]), Flows(e.branches[k]))
    ensures Leads(o, true, Fork(e, v), w, c1, w1) && Shaped(c1) && c1.InBranches? && |c1.inners| == |e.branches|
    ensures Poised(c1.inners[j], p, FirstKey(names, f)) && Poised(c1.inners[k], q, FirstKey(names, f))
    ensures Known(w1.state, names)
  {
    assert Flows(e.branches[j]) <= Flows(e) && Flows(e.branches[k]) <= Flows(e);
    var x, y, w2, g;
    x, w2, p, f := Reach(o, e.branches[j], v, w, names, Flows(e.branches[k]));
    y, w1, q, g := ReachSame(o, e.branches[k], v, w2, names, f);
    LeadsBoth(o, true, Fork(e, v), w, j, x, w2, k, y, w1);
    c1 := WithBranch(WithBranch(Fork(e, v), j, x), k, y);
  }

  lemma ForkKeeps(o: Oracle, e: Executable, v: Value, w: World, names: map<string, Signature>, c1: Config, w1: World)
    requires e.Parallel? && Sturdy(e, names) && Known(w.state, names) && Leads(o, true, Fork(e, v), w, c1, w1)
    ensures Shaped(c1) && Going(c1, names)
  {
    BeginInside(o, e, v, w, Flows(e));
    LeadsKeeps(o, Fork(e, v), w, c1, w1, names, Flows(e));
  }

  /** Then branch `j` goes on, and after it branch `k`. */
  lemma {:induction false} OneThenOther(o: Oracle, c: Config, w: World, names: map<string, Signature>,
                                        j: nat, p: seq<nat>, k: nat, q: seq<nat>, key: Key)
    returns (c1: Config, w1: World)
    requires Shaped(c) && c.InBranches? && Going(c, names) && Known(w.state, names) && j < k < |c.inners|
    requires Poised(c.inners[j], p, key) && Poised(c.inners[k], q, key)
    ensures Leads(o, true, c, w, c1, w1) && RunsAgain(w1)
  {
    var x, w2 := FinishNode(o, c.inners[j], w, names, p, key);
    LeadsBranch(o, true, c, w, j, x, w2);
    var (c2, pick) := (WithBranch(c, j, x), [k] + q);
    assert c2.inners[k] == c.inners[k] && pick[1..] == q && Poised(c2, pick, key);
    LeadsOn(o, true, c, w, c2, w2, pick);
    BeginsNext(o, c2, w2, pick, key);
    c1, w1 := Move(o, true, c2, w2, pick).0, Move(o, true, c2, w2, pick).1;
  }

  lemma ReachSame(o: Oracle, e: Executable, v: Value, w: World, names: map<string, Signature>, f: string)
    returns (c1: Config, w1: World, pick: seq<nat>, g: string)
    requires Sturdy(e, names) && Known(w.state, names) && Clear(w.state, Flows(e)) && f in Flows(e)
    ensures Arrived(o, e, v, w, names, {f}, c1, w1, pick, g) && g == f
  {
    assert f in {f};
    c1, w1, pick, g := Reach(o, e, v, w, names, {f});
  }

  lemma {:induction false} Twins(o: Oracle, e: Executable, v: Value, w: World, names: map<string, Signature>, j: nat,
                                 k: nat)
    returns (c1: Config, w1: World)
    requires e.Parallel? && Sturdy(e, names) && Known(w.state, names) && Clear(w.state, Flows(e))
    requires j < k < |e.branches| && Meet(Flows(e.branches[j]), Flows(e.branches[k]))
    ensures Leads(o, true, Start(e, v), w, c1, w1) && RunsAgain(w1)
  {
    var c2, w2, p, q, f := BothPoised(o, e, v, w, names, j, k);
    ForkKeeps(o, e, v, w, names, c2, w2);
    c1, w1 := OneThenOther(o, c2, w2, names, j, p, k, q, FirstKey(names, f));
    LeadsOne(o, true, Start(e, v), w, []);
    LeadsThen(o, true, Start(e, v), w, Fork(e, v), w, c2, w2);
    LeadsThen(o, true, Start(e, v), w, c2, w2, c1, w1);
  }

  /** Wherever the two branches are in the tree. */
  lemma {:induction false} SharedRunsAgain(o: Oracle, e: Executable, v: Value, w: World,
                                           names: map<string, Signature>)
    returns (c1: Config, w1: World)
    requires Sturdy(e, names) && Known(w.state, names) && Clear(w.state, Flows(e)) && !Apart(e)
    ensures Leads(o, true, Start(e, v), w, c1, w1) && RunsAgain(w1)
    decreases e, 1
  {
    match e
    case Sequence(steps) =>
      var i :| 0 <= i < |steps| && !Apart(steps[i]);
      c1, w1 := SharedInStep(o, e, v, w, names, i);
    case Parallel(_, branches) =>
      if i, j :| 0 <= i < j < |branches| && !(Flows(branches[i]) !! Flows(branches[j])) {
        assert Meet(Flows(branches[i]), Flows(branches[j]));
        c1, w1 := Twins(o, e, v, w, names, i, j);
      } else {
        var i :| 0 <= i < |branches| && !Apart(branches[i]);
        c1, w1 := SharedInBranch(o, e, v, w, names, i);
      }
    case Loop(_, body, _) => NoFlowsApart(body);
    case Workflow(_, nodes) =>
      var i :| 0 <= i < |nodes| && !Apart(nodes[i].work);
      c1, w1 := SharedInNode(o, e, v, w, names, i);
  }

  lemma {:induction false} SharedInStep(o: Oracle, e: Executable, v: Value, w: World, names: map<string, Signature>,
                                        i: nat)
    returns (c1: Config, w1: World)
    requires e.Sequence? && i < |e.steps| && !Apart(e.steps[i])
    requires Sturdy(e, names) && Known(w.state, names) && Clear(w.state, Flows(e))
    ensures Leads(o, true, Start(e, v), w, c1, w1) && RunsAgain(w1)
    decreases e, 0
  {
    var x, w2 := ToStep(o, e, i, v, w, names);
    StepClear(e, i, w.state, w2.state);
    var c := InSteps(e, i, v, Start(e.steps[i], x));
    c1, w1 := SharedRunsAgain(o, e.steps[i], x, w2, names);
    LeadsInner(o, true, c, w2, c1, w1);
    c1 := Refill(c, c1);
    LeadsThen(o, true, Start(e, v), w, c, w2, c1, w1);
  }

  lemma {:induction false} SharedInBranch(o: Oracle, e: Executable, v: Value, w: World, names: map<string, Signature>,
                                          i: nat)
    returns (c1: Config, w1: World)
    requires e.Parallel? && i < |e.branches| && !Apart(e.branches[i])
    requires Sturdy(e, names) && Known(w.state, names) && Clear(w.state, Flows(e))
    ensures Leads(o, true, Start(e, v), w, c1, w1) && RunsAgain(w1)
    decreases e, 0
  {
    assert Flows(e.branches[i]) <= Flows(e);
    c1, w1 := SharedRunsAgain(o, e.branches[i], v, w, names);
    LeadsOne(o, true, Start(e, v), w, []);
    LeadsBranch(o, true, Fork(e, v), w, i, c1, w1);
    c1 := WithBranch(Fork(e, v), i, c1);
    LeadsThen(o, true, Start(e, v), w, Fork(e, v), w, c1, w1);
  }

  lemma {:induction false} SharedInNode(o: Oracle, e: Executable, v: Value, w: World, names: map<string, Signature>,
                                        i: nat)
    returns (c1: Config, w1: World)
    requires e.Workflow? && i < |e.nodes| && !Apart(e.nodes[i].work)
    requires Sturdy(e, names) && Known(w.state, names) && Clear(w.state, Flows(e))
    ensures Leads(o, true, Start(e, v), w, c1, w1) && RunsAgain(w1)
    decreases e, 0
  {
    var x, w2 := ToWork(o, e, i, v, w, names);
    WorkClear(e, i, w.state, w2.state);
    var c := InNode(e, i, v, Start(e.nodes[i].work, x));
    c1, w1 := SharedRunsAgain(o, e.nodes[i].work, x, w2, names);
    LeadsInner(o, true, c, w2, c1, w1);
    c1 := Refill(c, c1);
    LeadsThen(o, true, Start(e, v), w, c, w2, c1, w1);
  }

  // ------------------------------------------------------------------ exactly then

  /** A node begins after its `after_node` checkpoint was stored. */
  ghost predicate Repeats(x: Execution) { exists m: nat, i: nat :: BeginsAfter(x, m, i) && i < x.trace[m].at }

  /** In one attempt from the beginning, with a store that has each copy at once, a node whose `after_node`
      checkpoint is stored begins again. */
  lemma {:induction false} SharedNameRunsAgain(o: Oracle, root: Executable, input: Value,
                                               names: map<string, Signature>)
    returns (picks: seq<seq<nat>>)
    requires Sturdy(root, names) && !Apart(root)
    ensures Repeats(Story(o, true, root, input, [Drives(picks, Finished)]))
  {
    var w := World(FRESH, [], [], []);
    var c1, w1 := SharedRunsAgain(o, root, input, w, names);
    picks :| Goes(o, true, Start(root, input), w, picks, c1, w1);
    GoesMoves(o, true, Start(root, input), w, picks, c1, w1);
    var acts := [Drives(picks, Finished)];
    assert acts[..0] == [];
    assert Story(o, true, root, input, []) == NEW;
    assert BeginsAfter(Story(o, true, root, input, acts), |w1.trace| - 1, |w1.log| - 1);
  }

  /** No history whose store keeps the order of the copies does that. */
  ghost predicate NeverAgain(root: Executable) {
    forall o, prompt, input, acts :: OrderKept(o, prompt, root, input, acts) ==>
      !Repeats(Story(o, prompt, root, input, acts))
  }

  lemma NotRepeated(o: Oracle, prompt: bool, root: Executable, input: Value, acts: seq<Act>)
    requires Apart(root) && OrderKept(o, prompt, root, input, acts)
    ensures !Repeats(Story(o, prompt, root, input, acts))
  {
    forall m: nat, i: nat | BeginsAfter(Story(o, prompt, root, input, acts), m, i)
      ensures Story(o, prompt, root, input, acts).trace[m].at <= i
    {
      InterleavedNeverRunsAgain(o, prompt, root, input, acts, m, i);
    }
  }

  /** A tree in which every part runs, and every name has one definition, never begins a stored node again
      exactly if no two branches of a parallel node share a workflow name. */
  lemma {:induction false} NeverAgainIffApart(root: Executable, names: map<string, Signature>, o: Oracle, input: Value)
    requires Sturdy(root, names)
    ensures NeverAgain(root) <==> Apart(root)
  {
    if Apart(root) {
      forall o, prompt, input, acts | OrderKept(o, prompt, root, input, acts)
        ensures !Repeats(Story(o, prompt, root, input, acts))
      {
        NotRepeated(o, prompt, root, input, acts);
      }
    } else {
      var picks := SharedNameRunsAgain(o, root, input, names);
      PromptOrLinearKeepsOrder(o, true, root, input, [Drives(picks, Finished)]);
    }
  }

  /** The simplest such tree: a workflow side by side with itself. */
  lemma TwinsRunAgain(o: Oracle, f: Executable, name: string, input: Value)
    returns (picks: seq<seq<nat>>)
    requires f == Workflow("a", [Node("n", Task("t"))])
    ensures Repeats(Story(o, true, Parallel(name, [f, f]), input, [Drives(picks, Finished)]))
  {
    var e, names := Parallel(name, [f, f]), map["a" := Sign(f)];
    assert "a" in Flows(e.branches[0]) && "a" in Flows(e.branches[1]);
    picks := SharedNameRunsAgain(o, e, input, names);
  }
}
