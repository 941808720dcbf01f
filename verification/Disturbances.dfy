/** What disturbs an attempt: the first await point that brings a crash or an exception is where it stops, and decides
    how. */
module Disturbances {
  import opened Types
  import opened Wrappers
  import opened Workflows
  import opened Runtime

  /** No parallel node, which would wrap an exception in a group, is in the tree. */
  predicate Unwrapped(e: Executable) {
    match e
    case Task(_) => true
    case Sequence(steps) => forall i :: 0 <= i < |steps| ==> Unwrapped(steps[i])
    case Parallel(_, _) => false
    case Router(_, routes, default) =>
      (forall i :: 0 <= i < |routes| ==> Unwrapped(routes[i].target)) && (default.Some? ==> Unwrapped(default.value))
    case Loop(_, body, _) => Unwrapped(body)
    case Approval(_, _, action, _) => action.Some? ==> Unwrapped(action.value)
    case Workflow(_, nodes) => forall i :: 0 <= i < |nodes| ==> Unwrapped(nodes[i].work)
  }

  /** How an attempt ends whose last await point brought `f`. */
  predicate EndsBy(f: Fate, r: Outcome, unwrapped: bool) {
    match f
    case Crash => r == Crashed
    case Raise(failure) => r == Errored(Fault(failure)) || (!unwrapped && r == Errored(BranchFailed))
    case Proceed => r != Crashed && !(r.Errored? && r.error.Fault?) && (unwrapped ==> r != Errored(BranchFailed))
  }

  /** Some await points pass, none of them disturbed but perhaps the last, which decides; `rest` are to come. */
  predicate Passes(fates: seq<Fate>, r: Outcome, rest: seq<Fate>, unwrapped: bool)
    decreases |fates|
  {
    || (rest == fates && EndsBy(Proceed, r, unwrapped))
    || (fates != [] && fates[0] == Proceed && Passes(fates[1..], r, rest, unwrapped))
    || (fates != [] && fates[0] != Proceed && rest == fates[1..] && EndsBy(fates[0], r, unwrapped))
  }

  predicate Passed(w: World, r: Outcome, w': World, unwrapped: bool) { Passes(w.fates, r, w'.fates, unwrapped) }

  lemma {:induction false} PassesThrough(a: seq<Fate>, x: Outcome, b: seq<Fate>, r: Outcome, c: seq<Fate>,
                                         unwrapped: bool)
    requires Passes(a, x, b, unwrapped) && x.Done? && Passes(b, r, c, unwrapped)
    ensures Passes(a, r, c, unwrapped)
    decreases |a|
  {
    if a != b { PassesThrough(a[1..], x, b, r, c, unwrapped); }
  }

  lemma PassedThrough(a: World, x: Outcome, b: World, r: Outcome, c: World, unwrapped: bool)
    requires Passed(a, x, b, unwrapped) && x.Done? && Passed(b, r, c, unwrapped)
    ensures Passed(a, r, c, unwrapped)
  {
    PassesThrough(a.fates, x, b.fates, r, c.fates, unwrapped);
  }

  /** One await point that brings nothing, and then the rest. */
  lemma AfterTick(w: World, r: Outcome, w': World, unwrapped: bool)
    requires Next(w) == Proceed && Passed(Tick(w), r, w', unwrapped)
    ensures Passed(w, r, w', unwrapped)
  {
  }

  /** So many await points have passed: in order, nothing disturbed all but the last, and that decided. */
  lemma {:induction false} PassedInOrder(fates: seq<Fate>, r: Outcome, rest: seq<Fate>, unwrapped: bool)
    requires Passes(fates, r, rest, unwrapped)
    ensures |rest| <= |fates| && rest == fates[|fates| - |rest|..]
    ensures var n := |fates| - |rest|;
      && (forall i :: 0 <= i < n - 1 ==> fates[i] == Proceed)
      && EndsBy(if n == 0 then Proceed else fates[n - 1], r, unwrapped)
    decreases |fates|
  {
    if fates != [] && fates[0] == Proceed && Passes(fates[1..], r, rest, unwrapped) {
      PassedInOrder(fates[1..], r, rest, unwrapped);
      var n := |fates| - |rest|;
      assert fates[1..][n - 1..] == fates[n..];
      forall i | 0 < i < n ensures fates[i] == fates[1..][i - 1] { }
    }
  }

  /** What stops a branch stops its parallel node, as a failed branch unless it is a crash. */
  lemma {:induction false} PassesWrapped(fates: seq<Fate>, x: Outcome, rest: seq<Fate>)
    requires Passes(fates, x, rest, false) && !x.Done?
    ensures Passes(fates, if x.Crashed? then Crashed else Errored(BranchFailed), rest, false)
    decreases |fates|
  {
    if fates != [] && fates[0] == Proceed && Passes(fates[1..], x, rest, false) { PassesWrapped(fates[1..], x, rest); }
  }

  /** Every attempt over every tree passes its await points in order; the first disturbed one stops it: a crash there
      and then, an exception as that error, or as a failed branch if a parallel node lies above. */
  lemma {:induction false} RunPasses(o: Oracle, e: Executable, v: Value, w: World, unwrapped: bool)
    requires unwrapped ==> Unwrapped(e)
    ensures var (r, w1) := Run(o, e, v, w); Passed(w, r, w1, unwrapped)
    decreases e, 2, 0
  {
    var (r, w1) := Run(o, e, v, w);
    match e
    case Task(name) =>
      if Next(w) == Proceed {
        assert Passed(Tick(w), r, w1, unwrapped);
        AfterTick(w, r, w1, unwrapped);
      }
    case Sequence(_) => StepsPass(o, e, 0, v, v, w, unwrapped);
    case Parallel(_, _) =>
      if Next(w) == Proceed {
        BranchesPass(o, e, 0, v, [], Tick(w));
        AfterTick(w, r, w1, false);
      }
    case Router(name, routes, default) =>
      var target := Lookup(routes, default, o.choose(name, v));
      if target.Some? && Next(w) == Proceed {
        RunPasses(o, target.value, v, Tick(w), unwrapped);
        AfterTick(w, r, w1, unwrapped);
      }
    case Loop(_, _, n) => TurnsPass(o, e, n, v, v, w, unwrapped);
    case Approval(_, id, action, _) =>
      if Next(w) == Proceed && Entry(w.state, id) == Approved && action.Some? {
        var w2 := Emit(Tick(w), Acted(id, |w.log|));
        RunPasses(o, action.value, v, w2, unwrapped);
        assert Passed(Tick(w), r, w1, unwrapped);
        AfterTick(w, r, w1, unwrapped);
      }
    case Workflow(name, nodes) =>
      if Compiles(nodes) && !(name in w.state.hashes && w.state.hashes[name] != Sign(e)) {
        var w2 := Register(w, name, e);
        NodesPass(o, e, 0, v, Restored(w2.state, name, v), w2, unwrapped);
      }
  }

  lemma {:induction false} StepsPass(o: Oracle, e: Executable, i: nat, own: Value, current: Value, w: World,
                                     unwrapped: bool)
    requires e.Sequence? && i <= |e.steps| && (unwrapped ==> Unwrapped(e))
    ensures var (r, w1) := RunSteps(o, e, i, own, current, w); Passed(w, r, w1, unwrapped)
    decreases e, 1, |e.steps| - i
  {
    var (r, w1) := RunSteps(o, e, i, own, current, w);
    if i < |e.steps| && Next(w) == Proceed {
      var (x, w2) := Run(o, e.steps[i], Give(current, own), Tick(w));
      RunPasses(o, e.steps[i], Give(current, own), Tick(w), unwrapped);
      AfterTick(w, x, w2, unwrapped);
      if x.Done? {
        StepsPass(o, e, i + 1, own, x.value, w2, unwrapped);
        PassedThrough(w, x, w2, r, w1, unwrapped);
      }
    }
  }

  lemma {:induction false} BranchesPass(o: Oracle, e: Executable, i: nat, own: Value, outs: seq<Value>, w: World)
    requires e.Parallel? && i <= |e.branches|
    ensures var (r, w1) := RunBranches(o, e, i, own, outs, w); Passed(w, r, w1, false)
    decreases e, 1, |e.branches| - i
  {
    var (r, w1) := RunBranches(o, e, i, own, outs, w);
    if i < |e.branches| {
      var (x, w2) := Run(o, e.branches[i], own, w);
      RunPasses(o, e.branches[i], own, w, false);
      if x.Done? {
        BranchesPass(o, e, i + 1, own, outs + [x.value], w2);
        PassedThrough(w, x, w2, r, w1, false);
      } else {
        PassesWrapped(w.fates, x, w2.fates);
      }
    }
  }

  lemma {:induction false} TurnsPass(o: Oracle, e: Executable, left: nat, own: Value, current: Value, w: World,
                                     unwrapped: bool)
    requires e.Loop? && (unwrapped ==> Unwrapped(e))
    ensures var (r, w1) := RunLoop(o, e, left, own, current, w); Passed(w, r, w1, unwrapped)
    decreases e, 1, left
  {
    var (r, w1) := RunLoop(o, e, left, own, current, w);
    if left > 0 && Next(w) == Proceed {
      var (x, w2) := Run(o, e.body, Give(current, own), Tick(w));
      RunPasses(o, e.body, Give(current, own), Tick(w), unwrapped);
      AfterTick(w, x, w2, unwrapped);
      if x.Done? && !o.until(e.name, x.value) {
        TurnsPass(o, e, left - 1, own, x.value, w2, unwrapped);
        PassedThrough(w, x, w2, r, w1, unwrapped);
      }
    }
  }

  lemma {:induction false} NodesPass(o: Oracle, e: Executable, i: nat, own: Value, current: Value, w: World,
                                     unwrapped: bool)
    requires e.Workflow? && i <= |e.nodes| && (unwrapped ==> Unwrapped(e))
    ensures var (r, w1) := RunNodes(o, e, i, own, current, w); Passed(w, r, w1, unwrapped)
    decreases e, 1, |e.nodes| - i
  {
    var (r, w1) := RunNodes(o, e, i, own, current, w);
    if i < |e.nodes| {
      var (x, w2) := RunNode(o, e, i, own, current, w);
      NodePasses(o, e, i, own, current, w, unwrapped);
      if x.Done? {
        NodesPass(o, e, i + 1, own, x.value, w2, unwrapped);
        PassedThrough(w, x, w2, r, w1, unwrapped);
      }
    }
  }

  lemma ConcludePasses(w: World, key: Key, x: Value, unwrapped: bool)
    ensures var (r, w1) := Conclude(w, key, x); Passed(w, r, w1, unwrapped)
  {
    var (r, w1) := Conclude(w, key, x);
    if Next(w) == Proceed { AfterTick(w, r, w1, unwrapped); }
  }

  lemma {:induction false} NodePasses(o: Oracle, e: Executable, i: nat, own: Value, current: Value, w: World,
                                      unwrapped: bool)
    requires e.Workflow? && i < |e.nodes| && (unwrapped ==> Unwrapped(e))
    ensures var (r, w1) := RunNode(o, e, i, own, current, w); Passed(w, r, w1, unwrapped)
    decreases e, 0, 1
  {
    var (r, w1) := RunNode(o, e, i, own, current, w);
    if Next(w) == Proceed && Key(e.name, e.nodes[i].id) !in w.state.completed {
      FreshPasses(o, e, i, Give(current, own), Tick(w), unwrapped);
      AfterTick(w, r, w1, unwrapped);
    }
  }

  lemma {:induction false} FreshPasses(o: Oracle, e: Executable, i: nat, input: Value, w: World, unwrapped: bool)
    requires e.Workflow? && i < |e.nodes| && (unwrapped ==> Unwrapped(e))
    ensures var (r, w1) := RunFresh(o, e, i, input, w); Passed(w, r, w1, unwrapped)
    decreases e, 0, 0
  {
    var key := Key(e.name, e.nodes[i].id);
    var (r, w1) := RunFresh(o, e, i, input, w);
    var (x, w2) := Run(o, e.nodes[i].work, input, Enter(w, key));
    RunPasses(o, e.nodes[i].work, input, Enter(w, key), unwrapped);
    if x.Done? {
      ConcludePasses(w2, key, x.value, unwrapped);
      PassedThrough(w, x, w2, r, w1, unwrapped);
    }
  }

  // ------------------------------------------------------------------ what is recorded of it

  /** If no await point brings a crash, the record never stays RUNNING: what stops the attempt is stored. */
  lemma {:induction false} NeverLeftRunning(o: Oracle, target: Executable, input: Value, x: Execution, state: State,
                                            fates: seq<Fate>)
    requires Crash !in fates
    ensures Drive(o, target, input, x, state, fates).status in
      {Completed, WaitingForApproval, Failed, Status.Cancelled, TimedOut}
  {
    var w := World(state, x.log, x.trace, fates);
    var (r, w1) := Run(o, target, input, w);
    RunPasses(o, target, input, w, false);
    PassedInOrder(fates, r, w1.fates, false);
  }

  /** An exception at the await point where the attempt stops, outside parallel nodes, is recorded as what it is: a
      cancellation, a timeout or a failure. */
  lemma {:induction false} RaisedIsRecorded(o: Oracle, target: Executable, input: Value, x: Execution, state: State,
                                            failure: Failure, fates: seq<Fate>)
    requires Unwrapped(target) && Crash !in fates
    requires var n := |fates| - |Run(o, target, input, World(state, x.log, x.trace, fates)).1.fates|;
      0 < n <= |fates| && fates[n - 1] == Raise(failure)
    ensures var status := Drive(o, target, input, x, state, fates).status;
      match failure
      case AsFailed => status == Failed
      case AsCancelled => status == Status.Cancelled
      case AsTimedOut => status == TimedOut
  {
    var w := World(state, x.log, x.trace, fates);
    var (r, w1) := Run(o, target, input, w);
    RunPasses(o, target, input, w, true);
    PassedInOrder(fates, r, w1.fates, true);
  }

  /** What a process leaves that dies while it finishes: before the first write nothing but the log, a RUNNING record
      and the same output; between the two writes a completed record without its checkpoint, or the checkpoint of a
      pause or a failure under a record that still says RUNNING. */
  lemma DiesWhileFinishing(r: Outcome, w: World, output: Option<Value>)
    requires w.fates != [] && !r.Crashed?
    ensures w.fates[0] == Crash ==> Settle(r, w, output) == Execution(Running, output, w.log, w.trace)
    ensures w.fates[0] != Crash && |w.fates| >= 2 && w.fates[1] == Crash ==>
      var x := Settle(r, w, output);
      && x.trace == w.trace
      && (r.Done? ==> x.status == Completed && x.output == Some(r.value) && x.log == w.log)
      && (!r.Done? ==> x.status == Running && x.output == output)
      && (!r.Done? ==> |x.log| == |w.log| + 1 && x.log[..|w.log|] == w.log && x.log[|w.log|].state == w.state)
  {
  }
}
