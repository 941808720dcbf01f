/** Whole histories of one execution: any number of attempts, each cut short anywhere, mixed with
    decisions, refused calls and cancellations. */
module RuntimeHistory {
  import opened Types
  import opened Wrappers
  import opened Workflows
  import opened DurableExecution
  import opened PlainEquivalence
  import opened WorkflowNames
  import opened Runtime

  datatype Op =
    | ResumeWith(target: Executable, fates: seq<Fate>)
    | DecideOn(id: string, named: bool, verdict: Decision)
    | Cancel

  function Apply(o: Oracle, input: Value, x: Execution, op: Op): Execution {
    match op
    case ResumeWith(target, fates) => Resume(o, target, input, x, fates)
    case DecideOn(id, named, verdict) => Decide(x, id, named, verdict)
    case Cancel => if x.status in TERMINAL then x else x.(status := Cancelled)
  }

  function Continue(o: Oracle, input: Value, x: Execution, ops: seq<Op>): Execution {
    if ops == [] then x else Apply(o, input, Continue(o, input, x, ops[..|ops| - 1]), ops[|ops| - 1])
  }

  /** `run` with the given fates, then the calls in `ops`. */
  function After(o: Oracle, root: Executable, input: Value, fates: seq<Fate>, ops: seq<Op>): Execution {
    Continue(o, input, Drive(o, root, input, NEW, FRESH, fates), ops)
  }

  lemma AfterThen(o: Oracle, root: Executable, input: Value, fates: seq<Fate>, ops: seq<Op>, op: Op)
    ensures After(o, root, input, fates, ops + [op]) == Apply(o, input, After(o, root, input, fates, ops), op)
  {
    assert (ops + [op])[..|ops|] == ops;
  }

  // ------------------------------------------------------------------ nothing runs twice

  /** Completed nodes only accumulate along the log, and no event begins a node that a checkpoint
      stored before it has completed. */
  ghost predicate Lineage(log: seq<Checkpoint>, trace: seq<Event>) {
    && (forall i, j :: 0 <= i <= j < |log| ==> log[i].state.completed.Keys <= log[j].state.completed.Keys)
    && (forall i :: 0 <= i < |log| && log[i].reason.AfterNode? ==> log[i].reason.key in log[i].state.completed)
    && (forall m :: 0 <= m < |trace| ==> trace[m].at <= |log|)
    && (forall m, i :: 0 <= m < |trace| && trace[m].Began? && 0 <= i < trace[m].at ==>
          trace[m].key !in log[i].state.completed)
  }

  ghost predicate Holds(s: State, log: seq<Checkpoint>) {
    forall i :: 0 <= i < |log| ==> log[i].state.completed.Keys <= s.completed.Keys
  }

  lemma AttemptLineage(fs: set<string>, w: World, w': World)
    requires Lineage(w.log, w.trace) && Holds(w.state, w.log) && Extends(fs, w, w')
    ensures Lineage(w'.log, w'.trace) && Holds(w'.state, w'.log)
  {
    forall i | 0 <= i < |w.log| ensures w'.log[i] == w.log[i] { }
    forall m | 0 <= m < |w.trace| ensures w'.trace[m] == w.trace[m] { }
    forall m | |w.trace| <= m < |w'.trace| ensures Timely(fs, w, w', w'.trace[m]) { }
  }

  lemma StoreLineage(log: seq<Checkpoint>, trace: seq<Event>, c: Checkpoint)
    requires Lineage(log, trace) && !c.reason.AfterNode? && Holds(c.state, log)
    ensures Lineage(log + [c], trace)
  {
  }

  /** Settling stores at most one checkpoint, of the attempt's last state. */
  lemma SettleStores(r: Outcome, w: World, output: Option<Value>) returns (reason: Reason)
    ensures !reason.AfterNode?
    ensures var x := Settle(r, w, output);
      x.trace == w.trace && (x.log == w.log || x.log == w.log + [Checkpoint(reason, w.state)])
  {
    reason := match r case Done(_) => Final case Paused(_) => AtApproval case _ => AtFailure;
  }

  lemma DriveLineage(o: Oracle, target: Executable, input: Value, x: Execution, s: State, fates: seq<Fate>)
    requires Lineage(x.log, x.trace) && Holds(s, x.log)
    ensures Lineage(Drive(o, target, input, x, s, fates).log, Drive(o, target, input, x, s, fates).trace)
  {
    var w := World(s, x.log, x.trace, fates);
    var (r, w') := Run(o, target, input, w);
    RunExtends(Flows(target), o, target, input, w);
    AttemptLineage(Flows(target), w, w');
    var reason := SettleStores(r, w', x.output);
    StoreLineage(w'.log, w'.trace, Checkpoint(reason, w'.state));
  }

  lemma {:induction false} LineageKept(o: Oracle, root: Executable, input: Value, fates: seq<Fate>, ops: seq<Op>)
    ensures var x := After(o, root, input, fates, ops); Lineage(x.log, x.trace)
  {
    if ops == [] {
      DriveLineage(o, root, input, NEW, FRESH, fates);
    } else {
      var x := After(o, root, input, fates, ops[..|ops| - 1]);
      LineageKept(o, root, input, fates, ops[..|ops| - 1]);
      match ops[|ops| - 1]
      case ResumeWith(target, f) =>
        if Resumes(x, target) { DriveLineage(o, target, input, x, Latest(x), f); }
      case DecideOn(id, named, verdict) =>
        if Decides(x, id, named) {
          StoreLineage(x.log, x.trace, Checkpoint(Decided, Latest(x).(ledger := Latest(x).ledger[id := verdict])));
        }
      case Cancel =>
    }
  }

  /** No history, over any tree, begins a node again once its `after_node` checkpoint is stored. */
  lemma NeverRunsAgain(o: Oracle, root: Executable, input: Value, fates: seq<Fate>, ops: seq<Op>, m: nat, i: nat)
    requires var x := After(o, root, input, fates, ops); m < |x.trace| && x.trace[m].Began? && i < |x.log|
    requires After(o, root, input, fates, ops).log[i].reason
          == AfterNode(After(o, root, input, fates, ops).trace[m].key)
    ensures After(o, root, input, fates, ops).trace[m].at <= i
  {
    LineageKept(o, root, input, fates, ops);
  }

  // ------------------------------------------------------------------ the output is the fold's output

  /** Every decision that took effect is the one `d` takes. */
  predicate DecidedAs(o: Oracle, root: Executable, input: Value, fates: seq<Fate>, ops: seq<Op>,
                      d: string -> Decision) {
    ops == [] ||
    var (before, op) := (ops[..|ops| - 1], ops[|ops| - 1]);
    && DecidedAs(o, root, input, fates, before, d)
    && (op.DecideOn? && Decides(After(o, root, input, fates, before), op.id, op.named) ==> op.verdict == d(op.id))
  }

  /** The execution of a workflow `root`: what is stored agrees with the fold. */
  ghost predicate Truthful(x: Execution, root: Executable, d: string -> Decision, plain: Evaluation) {
    && (forall i :: 0 <= i < |x.log| ==> Sound(x.log[i].state, d, plain.facts))
    && (forall m :: 0 <= m < |x.trace| ==> Foreseen(x.trace[m], plain.facts))
    && (x.output.Some? ==> plain.out == x.output)
    && (x.status == Completed ==> x.output.Some?)
  }

  predicate Runnable(root: Executable) { root.Workflow? && Compiles(root.nodes) }

  ghost predicate Stamped(log: seq<Checkpoint>, root: Executable) {
    forall i :: 0 <= i < |log| ==> log[i].state.rootHash == Some(Sign(root))
  }

  predicate OnlyWorkflows(ops: seq<Op>) { forall i :: 0 <= i < |ops| && ops[i].ResumeWith? ==> ops[i].target.Workflow? }

  /** No call resumes with a workflow that bears the signature of `root` and is another. */
  predicate Unambiguous(root: Executable, ops: seq<Op>) {
    && OnlyWorkflows(ops)
    && forall i :: 0 <= i < |ops| && ops[i].ResumeWith? && Sign(ops[i].target) == Sign(root) ==> ops[i].target == root
  }

  lemma SameSignatureRunnable(root: Executable, target: Executable)
    requires Runnable(root) && target.Workflow? && Sign(target) == Sign(root)
    ensures Runnable(target) && target.name == root.name
  {
    var ids := Sign(root).ids;
    assert |target.nodes| == |ids| == |root.nodes|;
    forall i | 0 <= i < |ids| ensures target.nodes[i].id == root.nodes[i].id {
      assert Sign(target).ids[i] == ids[i];
    }
  }

  lemma RunStamped(o: Oracle, root: Executable, input: Value, w: World)
    requires Runnable(root) && Stamped(w.log, root)
    requires w.state == FRESH || w.state.rootHash == Some(Sign(root))
    ensures var w' := Run(o, root, input, w).1; Stamped(w'.log, root) && w'.state.rootHash == Some(Sign(root))
  {
    var s := w.state;
    if !(root.name in s.hashes && s.hashes[root.name] != Sign(root)) {
      var w1 := Register(w, root.name, root);
      var current := Restored(w1.state, root.name, input);
      RunNodesExtends(Flows(root), o, root, 0, input, current, w1);
      var w' := RunNodes(o, root, 0, input, current, w1).1;
      forall i | 0 <= i < |w'.log| ensures w'.log[i].state.rootHash == Some(Sign(root)) {
        if i < |w.log| { assert w'.log[i] == w.log[i]; }
      }
    }
  }

  lemma DriveStamped(o: Oracle, root: Executable, target: Executable, input: Value, x: Execution, s: State,
                     fates: seq<Fate>)
    requires Runnable(root) && target.Workflow? && Sign(target) == Sign(root) && Stamped(x.log, root)
    requires s == FRESH || s.rootHash == Some(Sign(root))
    ensures Stamped(Drive(o, target, input, x, s, fates).log, root)
  {
    SameSignatureRunnable(root, target);
    var w := World(s, x.log, x.trace, fates);
    RunStamped(o, target, input, w);
    var (r, w') := Run(o, target, input, w);
    var reason := SettleStores(r, w', x.output);
  }

  /** Every checkpoint of a history carries the signature of what was started, so no other gets to run. */
  lemma {:induction false} StampKept(o: Oracle, root: Executable, input: Value, fates: seq<Fate>, ops: seq<Op>)
    requires Runnable(root) && OnlyWorkflows(ops)
    ensures Stamped(After(o, root, input, fates, ops).log, root)
  {
    if ops == [] {
      DriveStamped(o, root, root, input, NEW, FRESH, fates);
    } else {
      var x := After(o, root, input, fates, ops[..|ops| - 1]);
      StampKept(o, root, input, fates, ops[..|ops| - 1]);
      match ops[|ops| - 1]
      case ResumeWith(target, f) =>
        if Resumes(x, target) { DriveStamped(o, root, target, input, x, Latest(x), f); }
      case DecideOn(id, named, verdict) =>
      case Cancel =>
    }
  }

  lemma DriveTruthful(o: Oracle, root: Executable, d: string -> Decision, input: Value, x: Execution, s: State,
                      fates: seq<Fate>)
    requires Runnable(root) && Consistent(Plain(o, d, root, input).facts)
    requires Truthful(x, root, d, Plain(o, d, root, input)) && Sound(s, d, Plain(o, d, root, input).facts)
    ensures Truthful(Drive(o, root, input, x, s, fates), root, d, Plain(o, d, root, input))
  {
    var plain, w := Plain(o, d, root, input), World(s, x.log, x.trace, fates);
    RunSound(o, d, plain.facts, root, input, w);
    var (r, w') := Run(o, root, input, w);
    var reason := SettleStores(r, w', x.output);
    SaveSound(w', reason, d, plain.facts);
  }

  lemma DecideSound(s: State, d: string -> Decision, facts: set<Fact>, id: string)
    requires Sound(s, d, facts)
    ensures Sound(s.(ledger := s.ledger[id := d(id)]), d, facts)
  {
    var t := s.(ledger := s.ledger[id := d(id)]);
    forall k | Entry(t, k) != Pending ensures Entry(t, k) == d(k) {
      if k != id { assert Entry(t, k) == Entry(s, k); }
    }
  }

  lemma {:induction false} TruthKept(o: Oracle, root: Executable, d: string -> Decision, input: Value,
                                     fates: seq<Fate>, ops: seq<Op>)
    requires Runnable(root) && Consistent(Plain(o, d, root, input).facts)
    requires DecidedAs(o, root, input, fates, ops, d)
    requires Unambiguous(root, ops)
    ensures Truthful(After(o, root, input, fates, ops), root, d, Plain(o, d, root, input))
  {
    var plain := Plain(o, d, root, input);
    if ops == [] {
      DriveTruthful(o, root, d, input, NEW, FRESH, fates);
    } else {
      var before := ops[..|ops| - 1];
      var x := After(o, root, input, fates, before);
      TruthKept(o, root, d, input, fates, before);
      match ops[|ops| - 1]
      case ResumeWith(target, f) =>
        if Resumes(x, target) {
          StampKept(o, root, input, fates, before);
          assert target == root;
          DriveTruthful(o, root, d, input, x, Latest(x), f);
        }
      case DecideOn(id, named, verdict) =>
        if Decides(x, id, named) { DecideSound(Latest(x), d, plain.facts, id); }
      case Cancel =>
    }
  }

  /** What was performed and stored belongs to the fold, and a completed execution has its output. */
  ghost predicate AsUninterrupted(x: Execution, plain: Evaluation) {
    && (x.status == Completed ==> x.output == plain.out && plain.out.Some?)
    && (forall m :: 0 <= m < |x.trace| ==> Foreseen(x.trace[m], plain.facts))
    && (forall i, k :: 0 <= i < |x.log| && k in x.log[i].state.completed ==>
          Settled(k, Some(x.log[i].state.completed[k])) in plain.facts)
  }

  /** Whatever crashes, failures, resumes, refusals and decisions a tidy workflow goes through, it
      performs only what one uninterrupted run performs, on the same inputs, every stored result is
      that run's result, and if it completes it has that run's output. */
  lemma {:induction false} ResumedEqualsUninterrupted(o: Oracle, root: Executable, d: string -> Decision,
                                                      input: Value, fates: seq<Fate>, ops: seq<Op>)
    requires Runnable(root) && Tidy(root) && DecidedAs(o, root, input, fates, ops, d)
    requires Unambiguous(root, ops)
    ensures AsUninterrupted(After(o, root, input, fates, ops), Plain(o, d, root, input))
  {
    TidyConsistent(o, d, root, input);
    TruthKept(o, root, d, input, fates, ops);
  }

  /** And it does complete: once the gates have their decisions, a resume that nothing disturbs ends
      in COMPLETED with the uninterrupted output. */
  lemma {:induction false} UndisturbedResumeCompletes(o: Oracle, root: Executable, d: string -> Decision,
                                                      input: Value, fates: seq<Fate>, ops: seq<Op>)
    requires Runnable(root) && Tidy(root) && DecidedAs(o, root, input, fates, ops, d)
    requires Unambiguous(root, ops)
    requires Plain(o, d, root, input).out.Some?
    requires var x := After(o, root, input, fates, ops);
      x.status in RESUMABLE && x.log != [] && forall id :: Entry(Latest(x), id) == d(id)
    ensures var y := After(o, root, input, fates, ops + [ResumeWith(root, [])]);
      y.status == Completed && y.output == Plain(o, d, root, input).out
  {
    var x := After(o, root, input, fates, ops);
    TidyConsistent(o, d, root, input);
    TruthKept(o, root, d, input, fates, ops);
    StampKept(o, root, input, fates, ops);
    AfterThen(o, root, input, fates, ops, ResumeWith(root, []));
    UndisturbedDrive(o, root, d, input, x);
  }

  lemma UndisturbedDrive(o: Oracle, root: Executable, d: string -> Decision, input: Value, x: Execution)
    requires var plain := Plain(o, d, root, input);
      Consistent(plain.facts) && Truthful(x, root, d, plain) && plain.out.Some?
    requires x.log != [] && forall id :: Entry(Latest(x), id) == d(id)
    ensures var y := Drive(o, root, input, x, Latest(x), []);
      y.status == Completed && y.output == Plain(o, d, root, input).out
  {
    UndisturbedAttempt(o, root, d, input, World(Latest(x), x.log, x.trace, []));
  }

  lemma UndisturbedAttempt(o: Oracle, root: Executable, d: string -> Decision, input: Value, w: World)
    requires var plain := Plain(o, d, root, input);
      Consistent(plain.facts) && SoundWorld(w, d, plain.facts) && plain.out.Some?
    requires w.fates == [] && forall id :: Entry(w.state, id) == d(id)
    ensures Run(o, root, input, w).0 == Done(Plain(o, d, root, input).out.value) && Run(o, root, input, w).1.fates == []
  {
    var plain := Plain(o, d, root, input);
    RunSound(o, d, plain.facts, root, input, w);
    RunExtends(Flows(root), o, root, input, w);
  }

  // ------------------------------------------------------------------ what counts as the same workflow

  /** At every point of every history, a workflow gets past `resume` exactly if it bears the signature
      of the one that was started; any other changes nothing. */
  lemma ChangedWorkflowRefused(o: Oracle, root: Executable, input: Value, fates: seq<Fate>, ops: seq<Op>,
                               target: Executable, more: seq<Fate>)
    requires Runnable(root) && OnlyWorkflows(ops) && target.Workflow?
    ensures var x := After(o, root, input, fates, ops);
      && (Resumes(x, target) <==> x.status in RESUMABLE && x.log != [] && Sign(target) == Sign(root))
      && (Sign(target) != Sign(root) ==> After(o, root, input, fates, ops + [ResumeWith(target, more)]) == x)
  {
    StampKept(o, root, input, fates, ops);
    AfterThen(o, root, input, fates, ops, ResumeWith(target, more));
  }

  /** One router with one route, to task `t`. */
  function Routed(t: string): Executable { Workflow("w", [Node("r", Router("x", [Route("k", Task(t))], None))]) }

  /** The signature of a router leaves out its targets, so a changed route is resumed silently, and the
      execution completes with what the started workflow would never have returned. */
  lemma ChangedRouteAccepted(o: Oracle, d: string -> Decision, v: Value)
    requires v != Null && o.choose("x", v) == "k" && o.work("a", v) != o.work("b", v)
    ensures var x := After(o, Routed("a"), v, [Proceed, Crash], [ResumeWith(Routed("b"), [])]);
      x.status == Completed && x.output == Some(o.work("b", v)) && x.output != Plain(o, d, Routed("a"), v).out
  {
    RoutedSignature();
    PlainRouted(o, d, v);
    var ops := [ResumeWith(Routed("b"), [])];
    assert ops[..0] == [];
    RoutedCrash(o, v);
    var x := After(o, Routed("a"), v, [Proceed, Crash], []);
    RoutedResume(o, v, World(Latest(x), x.log, x.trace, []));
  }

  lemma RoutedSignature()
    ensures Sign(Routed("a")) == Sign(Routed("b"))
  {
    var (r, s) := (Routed("a").nodes[0].work, Routed("b").nodes[0].work);
    assert r.routes[0].key == "k" && s.routes[0].key == "k";
    assert Sign(r).keys == Sign(s).keys;
    assert Sign(Routed("a")).works == [Sign(r)] && Sign(Routed("b")).works == [Sign(s)];
    assert Sign(Routed("a")).ids == ["r"] == Sign(Routed("b")).ids;
  }

  lemma PlainRouted(o: Oracle, d: string -> Decision, v: Value)
    requires o.choose("x", v) == "k"
    ensures Plain(o, d, Routed("a"), v).out == Some(o.work("a", v))
  {
    var e := Routed("a");
    assert Plain(o, d, e.nodes[0].work, v).out == Some(o.work("a", v));
    assert PlainNodes(o, d, e, 1, v, o.work("a", v)).out == Some(o.work("a", v));
  }

  lemma RoutedCrash(o: Oracle, v: Value)
    requires v != Null
    ensures var x := After(o, Routed("a"), v, [Proceed, Crash], []);
      && x.status == Running && x.output == None && |x.log| == 1
      && x.log[0].state == Register(World(FRESH, [], [], []), "w", Routed("a")).state
  {
    var e, w := Routed("a"), World(FRESH, [], [], [Proceed, Crash]);
    var w1 := Register(w, "w", e);
    var w2 := Enter(Tick(w1), Key("w", "r"));
    assert Run(o, e.nodes[0].work, v, w2) == (Crashed, Tick(w2));
    assert RunNode(o, e, 0, v, v, w1) == (Crashed, Tick(w2));
    assert Run(o, e, v, w) == (Crashed, Tick(w2));
  }

  lemma RoutedResume(o: Oracle, v: Value, w: World)
    requires v != Null && o.choose("x", v) == "k" && w.fates == []
    requires Sign(Routed("a")) == Sign(Routed("b"))
    requires w.state == Register(World(FRESH, [], [], []), "w", Routed("a")).state
    ensures var (r, w') := Run(o, Routed("b"), v, w); r == Done(o.work("b", v)) && w'.fates == []
  {
    var e, w1 := Routed("b"), Register(w, "w", Routed("b"));
    var (r, w2) := RunNode(o, e, 0, v, v, w1);
    assert Run(o, e.nodes[0].work, v, Enter(w1, Key("w", "r"))).0 == Done(o.work("b", v));
    assert r == Done(o.work("b", v)) && w2.fates == [];
    assert RunNodes(o, e, 1, v, r.value, w2) == (r, w2);
  }
}
