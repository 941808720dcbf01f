/** Why a store must keep the order of the copies: a schedule in which a node whose `after_node`
    checkpoint is stored begins again. One branch copies the dictionary and waits for its store; another
    finishes a node and has it stored; then the older copy arrives and is the latest checkpoint. */
module LateStores {
  import opened Types
  import opened Wrappers
  import opened Workflows
  import opened Runtime
  import opened Interleaving
  import opened InterleavingHistory
  import opened Schedules

  /** A workflow `f` of one task, in one of two parallel branches. */
  function Flow(f: string): Executable { Workflow(f, [Node("n", Task("t"))]) }

  const PAIR := Parallel("p", [Flow("a"), Flow("b")])

  function First(f: string): Key { Key(f, "n") }

  /** `f` has copied the dictionary `s` before its node. */
  function Waits(f: string, v: Value, s: State): (c: Config)
    ensures Shaped(c)
  {
    assert Shaped(Entering(Flow(f), 0, v, v));
    Storing(Checkpoint(BeforeNode(First(f)), s), Entering(Flow(f), 0, v, v))
  }

  function Inside(f: string, v: Value, inner: Config): (c: Config)
    requires Shaped(inner)
    ensures Shaped(c)
  {
    InNode(Flow(f), 0, v, inner)
  }

  /** Into a workflow of which nothing is completed. */
  lemma FlowOpens(o: Oracle, f: string, v: Value, w: World)
    requires w.state.completed == map[] && f !in w.state.hashes
    ensures var w1 := Register(w, f, Flow(f)); Leads(o, false, Start(Flow(f), v), w, Waits(f, v, w1.state), w1)
  {
    var w1 := Register(w, f, Flow(f));
    assert Move(o, false, Start(Flow(f), v), w, []) == (AtNode(Flow(f), 0, v, v), w1);
    LeadsOne(o, false, Start(Flow(f), v), w, []);
    LeadsOn(o, false, Start(Flow(f), v), w, AtNode(Flow(f), 0, v, v), w1, []);
  }

  function OnceBegun(f: string, s: State, w: World): World {
    Emit(w.(log := w.log + [Checkpoint(BeforeNode(First(f)), s)]), Began(First(f), |w.log| + 1))
  }

  /** The copy is stored and the node begins. */
  lemma FlowEnters(o: Oracle, f: string, v: Value, s: State, w: World)
    ensures Leads(o, false, Waits(f, v, s), w, Inside(f, v, Start(Task("t"), Give(v, v))), OnceBegun(f, s, w))
  {
    var w1 := w.(log := w.log + [Checkpoint(BeforeNode(First(f)), s)]);
    LeadsOne(o, false, Waits(f, v, s), w, []);
    LeadsOn(o, false, Waits(f, v, s), w, Entering(Flow(f), 0, v, v), w1, []);
  }

  /** Its work is performed and recorded, and the dictionary copied and stored. */
  lemma FlowEnds(o: Oracle, f: string, v: Value, w: World) returns (c1: Config, w1: World)
    ensures Leads(o, false, Inside(f, v, Start(Task("t"), Give(v, v))), w, c1, w1)
    ensures Shaped(c1) && !c1.Returned?
    ensures |w1.log| == |w.log| + 1 && w1.log[..|w.log|] == w.log && w1.log[|w.log|].reason == AfterNode(First(f))
  {
    var (x, y) := (Give(v, v), o.work("t", Give(v, v)));
    var (c, w2) := (Inside(f, v, Start(Task("t"), x)), Emit(w, Ran("t", x, |w.log|)));
    LeadsOne(o, false, Start(Task("t"), x), w, []);
    LeadsOn(o, false, Start(Task("t"), x), w, Performing("t", x), w2, []);
    LeadsInner(o, false, c, w, Returned(y), w2);
    var w3 := Record(w2, First(f), y);
    LeadsOn(o, false, c, w, Inside(f, v, Returned(y)), w2, []);
    var copy := Checkpoint(AfterNode(First(f)), w3.state);
    assert Shaped(AtNode(Flow(f), 1, v, y));
    LeadsOn(o, false, c, w, Recorded(Flow(f), 0, v, y), w3, []);
    LeadsOn(o, false, c, w, Storing(copy, AtNode(Flow(f), 1, v, y)), w3, []);
    c1, w1 := AtNode(Flow(f), 1, v, y), w3.(log := w3.log + [copy]);
  }

  function Both(v: Value, x: Config, y: Config): (c: Config)
    requires Shaped(x) && Shaped(y)
    ensures Shaped(c)
  {
    InBranches(PAIR, v, [x, y])
  }

  lemma Left(o: Oracle, v: Value, x: Config, y: Config, w: World, x1: Config, w1: World)
    requires Shaped(x) && Shaped(y) && Shaped(x1) && Leads(o, false, x, w, x1, w1)
    ensures Leads(o, false, Both(v, x, y), w, Both(v, x1, y), w1)
  {
    LeadsBranch(o, false, Both(v, x, y), w, 0, x1, w1);
    assert [x, y][0 := x1] == [x1, y];
  }

  lemma Right(o: Oracle, v: Value, x: Config, y: Config, w: World, y1: Config, w1: World)
    requires Shaped(x) && Shaped(y) && Shaped(y1) && Leads(o, false, y, w, y1, w1)
    ensures Leads(o, false, Both(v, x, y), w, Both(v, x, y1), w1)
  {
    LeadsBranch(o, false, Both(v, x, y), w, 1, y1, w1);
    assert [x, y][1 := y1] == [x, y1];
  }

  lemma Forked(o: Oracle, v: Value, w: World)
    ensures Leads(o, false, Start(PAIR, v), w, Both(v, Start(Flow("a"), v), Start(Flow("b"), v)), w)
  {
    LeadsOne(o, false, Start(PAIR, v), w, []);
    assert Fork(PAIR, v).inners == [Start(Flow("a"), v), Start(Flow("b"), v)];
  }

  /** Branch `b` goes through its node while the copy of `a` waits. */
  lemma BranchOvertakes(o: Oracle, v: Value, x: Config, w: World) returns (y: Config, w1: World)
    requires Shaped(x) && w.state.completed == map[] && "b" !in w.state.hashes && w.log == []
    ensures Shaped(y) && Leads(o, false, Both(v, x, Start(Flow("b"), v)), w, Both(v, x, y), w1)
    ensures |w1.log| == 2 && w1.log[1].reason == AfterNode(First("b"))
  {
    var (b, w2) := (Start(Flow("b"), v), Register(w, "b", Flow("b")));
    var (copied, begun) := (Waits("b", v, w2.state), Inside("b", v, Start(Task("t"), Give(v, v))));
    var w3 := OnceBegun("b", w2.state, w2);
    FlowOpens(o, "b", v, w);
    FlowEnters(o, "b", v, w2.state, w2);
    LeadsThen(o, false, b, w, copied, w2, begun, w3);
    y, w1 := FlowEnds(o, "b", v, w3);
    LeadsThen(o, false, b, w, begun, w3, y, w1);
    Right(o, v, x, b, w, y, w1);
  }

  lemma PairOpens(o: Oracle, v: Value, w: World)
    requires w.state == FRESH
    ensures var w1 := Register(w, "a", Flow("a"));
      Leads(o, false, Start(PAIR, v), w, Both(v, Waits("a", v, w1.state), Start(Flow("b"), v)), w1)
  {
    var (a, b, w1) := (Start(Flow("a"), v), Start(Flow("b"), v), Register(w, "a", Flow("a")));
    Forked(o, v, w);
    FlowOpens(o, "a", v, w);
    Left(o, v, a, b, w, Waits("a", v, w1.state), w1);
    LeadsThen(o, false, Start(PAIR, v), w, Both(v, a, b), w, Both(v, Waits("a", v, w1.state), b), w1);
  }

  /** Branch `a` copies its dictionary, `b` overtakes it, and then the copy of `a` is stored. */
  lemma FirstAttempt(o: Oracle, v: Value) returns (c1: Config, w1: World)
    ensures Leads(o, false, Start(PAIR, v), World(FRESH, [], [], []), c1, w1)
    ensures |w1.log| == 3 && w1.log[1].reason == AfterNode(First("b"))
    ensures w1.log[2].state == Register(World(FRESH, [], [], []), "a", Flow("a")).state
  {
    var w := World(FRESH, [], [], []);
    var (b, w2) := (Start(Flow("b"), v), Register(w, "a", Flow("a")));
    var copied := Waits("a", v, w2.state);
    PairOpens(o, v, w);
    var y, w3 := BranchOvertakes(o, v, copied, w2);
    LeadsThen(o, false, Start(PAIR, v), w, Both(v, copied, b), w2, Both(v, copied, y), w3);
    LeadsOne(o, false, copied, w3, []);
    w1 := w3.(log := w3.log + [copied.checkpoint]);
    Left(o, v, copied, y, w3, copied.next, w1);
    c1 := Both(v, copied.next, y);
    LeadsThen(o, false, Start(PAIR, v), w, Both(v, copied, y), w3, c1, w1);
  }

  lemma SecondAttempt(o: Oracle, v: Value, w: World) returns (c1: Config, w1: World)
    requires w.state == Register(World(FRESH, [], [], []), "a", Flow("a")).state
    ensures Leads(o, false, Start(PAIR, v), w, c1, w1)
    ensures w.log <= w1.log && w1.trace == w.trace + [Began(First("b"), |w.log| + 1)]
  {
    var (a, b, w2) := (Start(Flow("a"), v), Start(Flow("b"), v), Register(w, "b", Flow("b")));
    Forked(o, v, w);
    FlowOpens(o, "b", v, w);
    FlowEnters(o, "b", v, w2.state, w2);
    var y := Inside("b", v, Start(Task("t"), Give(v, v)));
    c1, w1 := Both(v, a, y), OnceBegun("b", w2.state, w2);
    LeadsThen(o, false, b, w, Waits("b", v, w2.state), w2, y, w1);
    Right(o, v, a, b, w, y, w1);
    LeadsThen(o, false, Start(PAIR, v), w, Both(v, a, b), w, c1, w1);
  }

  lemma StoryThen(o: Oracle, v: Value, acts: seq<Act>, act: Act)
    ensures Story(o, false, PAIR, v, acts + [act]) == Play(o, false, PAIR, v, Story(o, false, PAIR, v, acts), act)
  {
    assert (acts + [act])[..|acts|] == acts;
  }

  /** The node of `b` has its `after_node` checkpoint at position 1, and a process that dies and is
      resumed begins it again after four checkpoints. */
  lemma {:induction false} LateStoreRunsAgain(o: Oracle, v: Value) returns (first: seq<seq<nat>>, second: seq<seq<nat>>)
    ensures var x := Story(o, false, PAIR, v, [Drives(first, Killed), Drives(second, Killed)]);
      && |x.log| > 1 && x.log[1].reason == AfterNode(First("b"))
      && x.trace != [] && x.trace[|x.trace| - 1] == Began(First("b"), 4)
  {
    var w := World(FRESH, [], [], []);
    var c1, w1 := FirstAttempt(o, v);
    first :| Goes(o, false, Start(PAIR, v), w, first, c1, w1);
    GoesMoves(o, false, Start(PAIR, v), w, first, c1, w1);
    StoryThen(o, v, [], Drives(first, Killed));
    var x := Story(o, false, PAIR, v, [Drives(first, Killed)]);
    assert [] + [Drives(first, Killed)] == [Drives(first, Killed)];
    assert x == Execution(Running, None, w1.log, w1.trace) && Resumes(x, PAIR);
    var c2, w2 := SecondAttempt(o, v, World(Latest(x), x.log, x.trace, []));
    second :| Goes(o, false, Start(PAIR, v), World(Latest(x), x.log, x.trace, []), second, c2, w2);
    GoesMoves(o, false, Start(PAIR, v), World(Latest(x), x.log, x.trace, []), second, c2, w2);
    StoryThen(o, v, [Drives(first, Killed)], Drives(second, Killed));
    assert [Drives(first, Killed)] + [Drives(second, Killed)] == [Drives(first, Killed), Drives(second, Killed)];
  }
}
