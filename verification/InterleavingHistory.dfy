/** Whole histories in which every attempt interleaves its parallel branches: any number of attempts,
    each abandoned anywhere, mixed with decisions. */
module InterleavingHistory {
  import opened Types
  import opened Wrappers
  import opened Workflows
  import opened PlainEquivalence
  import opened WorkflowNames
  import opened Runtime
  import opened RuntimeHistory
  import opened Interleaving
  import opened InterleavingEquivalence
  import opened SideBySide

  /** How an attempt ends. Failing, pausing and dying are possible at any moment. */
  datatype Ending = Finished | Killed | Pausing | Failing(error: Error)

  datatype Act =
    | Drives(picks: seq<seq<nat>>, ending: Ending)
    | Rules(id: string, named: bool, verdict: Decision)

  function Close(c: Config, w: World, ending: Ending, output: Option<Value>): Execution {
    var cut := Execution(Running, output, w.log, w.trace);
    match ending
    case Finished => if c.Returned? then Execution(Completed, Some(c.x), Save(w, Final).log, w.trace) else cut
    case Killed => cut
    case Pausing => Execution(WaitingForApproval, output, Save(w, AtApproval).log, w.trace)
    case Failing(error) => Execution(StatusFor(error), output, Save(w, AtFailure).log, w.trace)
  }

  /** `run` starts on an empty dictionary, `resume` on the latest checkpoint. */
  function Launch(x: Execution, root: Executable): Option<State> {
    if x == NEW then Some(FRESH) else if Resumes(x, root) then Some(Latest(x)) else None
  }

  function Play(o: Oracle, prompt: bool, root: Executable, input: Value, x: Execution, act: Act): Execution {
    match act
    case Drives(picks, ending) =>
      var s := Launch(x, root);
      if s.None? then x
      else
        var (c, w) := Moves(o, prompt, Start(root, input), World(s.value, x.log, x.trace, []), picks);
        Close(c, w, ending, x.output)
    case Rules(id, named, verdict) => Decide(x, id, named, verdict)
  }

  function Story(o: Oracle, prompt: bool, root: Executable, input: Value, acts: seq<Act>): Execution {
    if acts == [] then NEW
    else Play(o, prompt, root, input, Story(o, prompt, root, input, acts[..|acts| - 1]), acts[|acts| - 1])
  }

  // ------------------------------------------------------------------ the output is the fold's output

  /** Every decision that took effect is the one `d` takes. */
  predicate RuledAs(o: Oracle, prompt: bool, root: Executable, input: Value, acts: seq<Act>, d: string -> Decision) {
    acts == [] ||
    var (before, act) := (acts[..|acts| - 1], acts[|acts| - 1]);
    && RuledAs(o, prompt, root, input, before, d)
    && (act.Rules? && Decides(Story(o, prompt, root, input, before), act.id, act.named) ==> act.verdict == d(act.id))
  }

  lemma CloseTruthful(o: Oracle, d: string -> Decision, root: Executable, plain: Evaluation,
                      c: Config, w: World, ending: Ending, output: Option<Value>)
    requires Steady(o, d, plain.facts, plain.out, c, w) && (output.Some? ==> output == plain.out)
    ensures Truthful(Close(c, w, ending, output), root, d, plain)
  {
    SaveSound(w, Final, d, plain.facts);
    SaveSound(w, AtApproval, d, plain.facts);
    SaveSound(w, AtFailure, d, plain.facts);
  }

  lemma DrivesTruthful(o: Oracle, prompt: bool, root: Executable, d: string -> Decision, input: Value,
                       x: Execution, picks: seq<seq<nat>>, ending: Ending)
    requires Consistent(Plain(o, d, root, input).facts) && Launch(x, root).Some?
    requires Truthful(x, root, d, Plain(o, d, root, input))
    ensures Truthful(Play(o, prompt, root, input, x, Drives(picks, ending)), root, d, Plain(o, d, root, input))
  {
    var plain, w := Plain(o, d, root, input), World(Launch(x, root).value, x.log, x.trace, []);
    assert SoundWorld(w, d, plain.facts);
    MovesSteady(o, d, plain.facts, plain.out, prompt, Start(root, input), w, picks);
    var (c1, w1) := Moves(o, prompt, Start(root, input), w, picks);
    CloseTruthful(o, d, root, plain, c1, w1, ending, x.output);
  }

  lemma {:induction false} StoryTruthful(o: Oracle, prompt: bool, root: Executable, d: string -> Decision,
                                         input: Value, acts: seq<Act>)
    requires Consistent(Plain(o, d, root, input).facts) && RuledAs(o, prompt, root, input, acts, d)
    ensures Truthful(Story(o, prompt, root, input, acts), root, d, Plain(o, d, root, input))
  {
    if acts != [] {
      var x := Story(o, prompt, root, input, acts[..|acts| - 1]);
      StoryTruthful(o, prompt, root, d, input, acts[..|acts| - 1]);
      match acts[|acts| - 1]
      case Drives(picks, ending) =>
        if Launch(x, root).Some? { DrivesTruthful(o, prompt, root, d, input, x, picks, ending); }
      case Rules(id, named, verdict) =>
        if Decides(x, id, named) { DecideSound(Latest(x), d, Plain(o, d, root, input).facts, id); }
    }
  }

  /** Whatever the branches' interleavings, and wherever the attempts were cut, paused or failed: a tidy
      tree performs only what one uninterrupted run performs, on the same inputs, every stored result is
      that run's, and if it completes it has that run's output. Late stores do not matter. */
  lemma {:induction false} InterleavedEqualsUninterrupted(o: Oracle, prompt: bool, root: Executable,
                                                          d: string -> Decision, input: Value, acts: seq<Act>)
    requires Tidy(root) && RuledAs(o, prompt, root, input, acts, d)
    ensures AsUninterrupted(Story(o, prompt, root, input, acts), Plain(o, d, root, input))
  {
    TidyConsistent(o, d, root, input);
    StoryTruthful(o, prompt, root, d, input, acts);
  }

  /** What every way to end leaves: the dictionary once more in the log, unless the process died, and the status. */
  lemma EndingStored(c: Config, w: World, ending: Ending, output: Option<Value>)
    ensures var x := Close(c, w, ending, output);
      && x.trace == w.trace && w.log <= x.log
      && (ending == Killed || (ending == Finished && !c.Returned?) ==>
            x.log == w.log && x.status == Running && x.output == output)
      && (ending == Finished && c.Returned? ==> x.status == Completed && x.output == Some(c.x))
      && (ending == Pausing ==> x.status == WaitingForApproval && x.output == output)
      && (ending.Failing? ==> x.status in {Failed, Status.Cancelled, TimedOut} && x.output == output)
      && (x.status != Running ==> |x.log| == |w.log| + 1 && x.log[|w.log|].state == w.state)
  {
  }

  // ------------------------------------------------------------------ what one move does

  /** The dictionaries whose copies wait for the store. */
  ghost function Waiting(c: Config): multiset<State>
    decreases c, 1, 0
  {
    match c
    case InSteps(_, _, _, inner) => Waiting(inner)
    case InTurns(_, _, _, inner) => Waiting(inner)
    case InBranches(_, _, _) => WaitingFrom(c, 0)
    case InNode(_, _, _, inner) => Waiting(inner)
    case Storing(checkpoint, next) => Waiting(next) + multiset{checkpoint.state}
    case _ => multiset{}
  }

  ghost function WaitingFrom(c: Config, k: nat): multiset<State>
    requires c.InBranches? && k <= |c.inners|
    decreases c, 0, |c.inners| - k
  {
    if k == |c.inners| then multiset{} else Waiting(c.inners[k]) + WaitingFrom(c, k + 1)
  }

  lemma {:induction false} NoneWaits(c: Config, k: nat)
    requires c.InBranches? && k <= |c.inners| && forall i :: k <= i < |c.inners| ==> Waiting(c.inners[i]) == multiset{}
    ensures WaitingFrom(c, k) == multiset{}
    decreases |c.inners| - k
  {
    if k < |c.inners| { NoneWaits(c, k + 1); }
  }

  lemma Shifted(here: multiset<State>, a: multiset<State>, b: multiset<State>, x: multiset<State>, y: multiset<State>)
    requires b + x == a + y
    ensures (here + b) + x == (here + a) + y
  {
    assert (here + b) + x == here + (b + x) && (here + a) + y == here + (a + y);
  }

  lemma Swapped(here: multiset<State>, rest: multiset<State>, x: multiset<State>)
    ensures (x + rest) + here == (here + rest) + x
  {
  }

  lemma {:induction false} BranchWaits(c: Config, j: nat, x: Config, k: nat)
    requires c.InBranches? && j < |c.inners| && k <= |c.inners|
    ensures var c' := InBranches(c.e, c.own, c.inners[j := x]);
      if k <= j then WaitingFrom(c', k) + Waiting(c.inners[j]) == WaitingFrom(c, k) + Waiting(x)
      else WaitingFrom(c', k) == WaitingFrom(c, k)
    decreases |c.inners| - k
  {
    if k < |c.inners| {
      var c' := InBranches(c.e, c.own, c.inners[j := x]);
      BranchWaits(c, j, x, k + 1);
      var (here, rest, rest') := (Waiting(c.inners[k]), WaitingFrom(c, k + 1), WaitingFrom(c', k + 1));
      if k < j {
        Shifted(here, rest, rest', Waiting(c.inners[j]), Waiting(x));
      } else if k == j {
        Swapped(here, rest, Waiting(x));
      }
    }
  }

  /** A recorded node is in the dictionary, and copies that wait are older than it and hold the node they
      are about. */
  ghost predicate Loose(c: Config, s: State)
    requires Shaped(c)
  {
    match c
    case InSteps(_, _, _, inner) => Loose(inner, s)
    case InTurns(_, _, _, inner) => Loose(inner, s)
    case InBranches(_, _, inners) => forall k :: 0 <= k < |inners| ==> Loose(inners[k], s)
    case InNode(_, _, _, inner) => Loose(inner, s)
    case Recorded(e, i, _, _) => KeyOf(e, i) in s.completed
    case Storing(checkpoint, next) =>
      Loose(next, s) && checkpoint.state.completed.Keys <= s.completed.Keys && Sensible(checkpoint)
    case _ => true
  }

  predicate Sensible(c: Checkpoint) { c.reason.AfterNode? ==> c.reason.key in c.state.completed }

  lemma {:induction false} LooseKept(c: Config, s: State, s': State)
    requires Shaped(c) && Loose(c, s) && s.completed.Keys <= s'.completed.Keys
    ensures Loose(c, s')
  {
    match c
    case InSteps(_, _, _, inner) => LooseKept(inner, s, s');
    case InTurns(_, _, _, inner) => LooseKept(inner, s, s');
    case InNode(_, _, _, inner) => LooseKept(inner, s, s');
    case InBranches(_, _, inners) =>
      forall k | 0 <= k < |inners| ensures Loose(inners[k], s') { LooseKept(inners[k], s, s'); }
    case Storing(_, next) => LooseKept(next, s, s');
    case _ =>
  }

  /** A node begins while the dictionary does not have it completed. */
  predicate Due(ev: Event, w: World) { ev.at == |w.log| && (ev.Began? ==> ev.key !in w.state.completed) }

  /** At most one checkpoint is stored, the dictionary as it is or a copy that waited; at most one copy is
      made, of the dictionary as it is. */
  ghost predicate Stores(prompt: bool, before: multiset<State>, w: World, after: multiset<State>, w1: World) {
    || (w1.log == w.log && after == before)
    || (w1.log == w.log && !prompt && after == before + multiset{w1.state})
    || (|w1.log| == |w.log| + 1 && w1.log == w.log + [w1.log[|w.log|]] && Sensible(w1.log[|w.log|])
        && var s := w1.log[|w.log|].state;
           && s.completed.Keys <= w1.state.completed.Keys
           && ((prompt && s == w1.state && after == before) || before == after + multiset{s}))
  }

  ghost predicate Effect(prompt: bool, c: Config, w: World, r: (Config, World))
    requires Shaped(c) && Shaped(r.0)
  {
    && Loose(r.0, r.1.state)
    && w.state.completed.Keys <= r.1.state.completed.Keys
    && (r.1.trace == w.trace
        || (|r.1.trace| == |w.trace| + 1 && r.1.trace == w.trace + [r.1.trace[|w.trace|]]
            && r.1.trace[|w.trace|].at == |w.log| && (Untouched(c, w.state) ==> Due(r.1.trace[|w.trace|], w))))
    && Stores(prompt, Waiting(c), w, Waiting(r.0), r.1)
  }

  lemma BeginEffect(o: Oracle, prompt: bool, e: Executable, v: Value, w: World)
    ensures Effect(prompt, Start(e, v), w, Begin(o, e, v, w))
  {
    if e.Parallel? { NoneWaits(Fork(e, v), 0); }
  }

  lemma NodeEffect(o: Oracle, prompt: bool, c: Config, w: World)
    requires Shaped(c) && c.AtNode?
    ensures Effect(prompt, c, w, Move(o, prompt, c, w, []))
  {
    if c.i < |c.e.nodes| && KeyOf(c.e, c.i) !in w.state.completed {
      CopyEffect(prompt, BeforeNode(KeyOf(c.e, c.i)), Entering(c.e, c.i, c.own, c.current), w);
    }
  }

  lemma {:induction false} MoveEffect(o: Oracle, prompt: bool, c: Config, w: World, pick: seq<nat>)
    requires Shaped(c) && Loose(c, w.state)
    ensures Effect(prompt, c, w, Move(o, prompt, c, w, pick))
    decreases c, 1
  {
    if c.Start? {
      BeginEffect(o, prompt, c.e, c.v, w);
    } else if c.AtNode? {
      NodeEffect(o, prompt, c, w);
    } else if c.InBranches? {
      BranchEffect(o, prompt, c, w, pick);
    } else if (c.InSteps? || c.InTurns? || c.InNode?) && !c.inner.Returned? {
      MoveEffect(o, prompt, c.inner, w, pick);
      assert Move(o, prompt, c, w, pick).1 == Move(o, prompt, c.inner, w, pick).1;
    } else {
      RestEffect(o, prompt, c, w);
    }
  }

  lemma RestEffect(o: Oracle, prompt: bool, c: Config, w: World)
    requires Shaped(c) && Loose(c, w.state) && !c.Start? && !c.AtNode? && !c.InBranches?
    requires c.InSteps? || c.InTurns? || c.InNode? ==> c.inner.Returned?
    ensures Effect(prompt, c, w, Move(o, prompt, c, w, []))
  {
    if c.Recorded? {
      CopyEffect(prompt, AfterNode(KeyOf(c.e, c.i)), AtNode(c.e, c.i + 1, c.own, c.x), w);
    } else if c.Storing? {
      StoreEffect(o, prompt, c, w);
    } else if c.InNode? {
      RecordEffect(o, prompt, c, w);
    }
  }

  lemma CopyEffect(prompt: bool, reason: Reason, next: Config, w: World)
    requires Shaped(next) && Loose(next, w.state) && (reason.AfterNode? ==> reason.key in w.state.completed)
    ensures Effect(prompt, next, w, Copy(prompt, reason, next, w))
  {
  }

  lemma StoreEffect(o: Oracle, prompt: bool, c: Config, w: World)
    requires Shaped(c) && Loose(c, w.state) && c.Storing?
    ensures Effect(prompt, c, w, Move(o, prompt, c, w, []))
  {
  }

  lemma RecordEffect(o: Oracle, prompt: bool, c: Config, w: World)
    requires Shaped(c) && c.InNode? && c.inner.Returned?
    ensures Effect(prompt, c, w, Move(o, prompt, c, w, []))
  {
  }

  /** What a branch stores, the whole stores. */
  lemma StoresAround(prompt: bool, a: multiset<State>, w: World, b: multiset<State>, w1: World,
                     all: multiset<State>, all1: multiset<State>)
    requires Stores(prompt, a, w, b, w1) && all1 + a == all + b
    ensures Stores(prompt, all, w, all1, w1)
  {
    if b == a {
      Cancelled(all1, all, a);
    } else if !prompt && w1.log == w.log {
      assert all + (a + multiset{w1.state}) == (all + multiset{w1.state}) + a;
      Cancelled(all1, all + multiset{w1.state}, a);
    } else {
      var s := w1.log[|w.log|].state;
      assert all1 + (b + multiset{s}) == (all1 + multiset{s}) + b;
      Cancelled(all1 + multiset{s}, all, b);
    }
  }

  lemma Cancelled(x: multiset<State>, y: multiset<State>, z: multiset<State>)
    requires x + z == y + z
    ensures x == y
  {
    assert x == (x + z) - z && y == (y + z) - z;
  }

  lemma {:induction false} BranchEffect(o: Oracle, prompt: bool, c: Config, w: World, pick: seq<nat>)
    requires Shaped(c) && c.InBranches? && Loose(c, w.state)
    ensures Effect(prompt, c, w, Move(o, prompt, c, w, pick))
    decreases c, 0
  {
    if AllReturned(c.inners) {
      NoneWaits(c, 0);
    } else if pick != [] && pick[0] < |c.inners| {
      var j := pick[0];
      MoveEffect(o, prompt, c.inners[j], w, pick[1..]);
      Around(prompt, c, w, j, Move(o, prompt, c.inners[j], w, pick[1..]));
    }
  }

  /** The effect of a move of branch `j` is the effect on the whole. */
  lemma Around(prompt: bool, c: Config, w: World, j: nat, r: (Config, World))
    requires Shaped(c) && c.InBranches? && Loose(c, w.state) && j < |c.inners|
    requires Shaped(r.0) && Effect(prompt, c.inners[j], w, r)
    ensures Effect(prompt, c, w, (InBranches(c.e, c.own, c.inners[j := r.0]), r.1))
  {
    var c' := InBranches(c.e, c.own, c.inners[j := r.0]);
    BranchWaits(c, j, r.0, 0);
    StoresAround(prompt, Waiting(c.inners[j]), w, Waiting(r.0), r.1, Waiting(c), Waiting(c'));
    forall k | 0 <= k < |c.inners| ensures Loose(c'.inners[k], r.1.state) {
      if k != j { LooseKept(c.inners[k], w.state, r.1.state); }
    }
  }

  // ------------------------------------------------------------------ stores that keep the order of copies

  /** The copies that wait, in the order they were made, after a move. */
  ghost function Requeued(queue: seq<State>, c: Config, r: (Config, World)): seq<State> {
    if |Waiting(r.0)| > |Waiting(c)| then queue + [r.1.state]
    else if |Waiting(r.0)| < |Waiting(c)| && queue != [] then queue[1..]
    else queue
  }

  /** If the move stores a waiting copy, it is the oldest. */
  ghost predicate OldestFirst(queue: seq<State>, c: Config, w: World, r: (Config, World)) {
    |Waiting(r.0)| < |Waiting(c)| && |r.1.log| > |w.log| ==> queue != [] && queue[0] == r.1.log[|w.log|].state
  }

  /** Throughout the schedule the store serves copies in the order they were made. */
  ghost predicate Served(o: Oracle, prompt: bool, c: Config, w: World, queue: seq<State>, picks: seq<seq<nat>>)
    requires Shaped(c)
    decreases |picks|
  {
    picks == [] ||
    var r := Move(o, prompt, c, w, picks[0]);
    OldestFirst(queue, c, w, r) && Served(o, prompt, r.0, r.1, Requeued(queue, c, r), picks[1..])
  }

  ghost predicate Older(a: State, b: State) { a.completed.Keys <= b.completed.Keys }

  /** Everything stored is older than every copy that waits, those are queued by age, and all are older
      than the dictionary; no node about to be started is completed. */
  ghost predicate InOrder(c: Config, w: World, queue: seq<State>) {
    && Shaped(c) && Loose(c, w.state) && Exclusive(c, w.state) && Lineage(w.log, w.trace) && Holds(w.state, w.log)
    && multiset(queue) == Waiting(c)
    && (forall i, j :: 0 <= i < |w.log| && 0 <= j < |queue| ==> Older(w.log[i].state, queue[j]))
    && (forall i, j :: 0 <= i <= j < |queue| ==> Older(queue[i], queue[j]))
    && (forall j :: 0 <= j < |queue| ==> Older(queue[j], w.state))
  }

  lemma StoreInOrder(log: seq<Checkpoint>, trace: seq<Event>, c: Checkpoint)
    requires Lineage(log, trace) && Sensible(c) && Holds(c.state, log)
    ensures Lineage(log + [c], trace)
  {
  }

  lemma EventInOrder(w: World, ev: Event)
    requires Lineage(w.log, w.trace) && Holds(w.state, w.log) && Due(ev, w)
    ensures Lineage(w.log, w.trace + [ev])
  {
  }

  /** A move that stores nothing. */
  lemma QuietMove(prompt: bool, c: Config, w: World, queue: seq<State>, r: (Config, World))
    requires InOrder(c, w, queue) && Shaped(r.0) && Effect(prompt, c, w, r) && r.1.log == w.log
    requires Exclusive(r.0, r.1.state)
    ensures InOrder(r.0, r.1, Requeued(queue, c, r))
  {
    if r.1.trace != w.trace { EventInOrder(w, r.1.trace[|w.trace|]); }
    if Waiting(r.0) != Waiting(c) { CopyQueued(c, w, queue, r); }
  }

  lemma CopyQueued(c: Config, w: World, queue: seq<State>, r: (Config, World))
    requires InOrder(c, w, queue) && Waiting(r.0) == Waiting(c) + multiset{r.1.state}
    requires w.state.completed.Keys <= r.1.state.completed.Keys
    ensures var queue1 := Requeued(queue, c, r);
      && multiset(queue1) == Waiting(r.0)
      && (forall i, j :: 0 <= i < |w.log| && 0 <= j < |queue1| ==> Older(w.log[i].state, queue1[j]))
      && (forall i, j :: 0 <= i <= j < |queue1| ==> Older(queue1[i], queue1[j]))
      && (forall j :: 0 <= j < |queue1| ==> Older(queue1[j], r.1.state))
  {
    assert |Waiting(r.0)| == |Waiting(c)| + 1 && Requeued(queue, c, r) == queue + [r.1.state];
  }

  /** A move that stores the dictionary as it is, with nothing waiting. */
  lemma PromptMove(c: Config, w: World, r: (Config, World))
    requires InOrder(c, w, []) && Shaped(r.0) && Effect(true, c, w, r) && |r.1.log| == |w.log| + 1
    requires Exclusive(r.0, r.1.state)
    requires Waiting(r.0) == Waiting(c) && r.1.log[|w.log|].state == r.1.state
    ensures InOrder(r.0, r.1, [])
  {
    if r.1.trace != w.trace { EventInOrder(w, r.1.trace[|w.trace|]); }
    StoreInOrder(w.log, r.1.trace, r.1.log[|w.log|]);
  }

  /** A move that stores the oldest of the waiting copies. */
  lemma ServingMove(prompt: bool, c: Config, w: World, queue: seq<State>, r: (Config, World))
    requires InOrder(c, w, queue) && Shaped(r.0) && Effect(prompt, c, w, r) && |r.1.log| == |w.log| + 1
    requires Exclusive(r.0, r.1.state)
    requires queue != [] && queue[0] == r.1.log[|w.log|].state && Waiting(c) == Waiting(r.0) + multiset{queue[0]}
    ensures InOrder(r.0, r.1, queue[1..])
  {
    if r.1.trace != w.trace { EventInOrder(w, r.1.trace[|w.trace|]); }
    StoreInOrder(w.log, r.1.trace, r.1.log[|w.log|]);
    Dequeued(w.log, r.1.log, queue, Waiting(r.0));
  }

  lemma Dequeued(log: seq<Checkpoint>, log1: seq<Checkpoint>, queue: seq<State>, rest: multiset<State>)
    requires queue != [] && |log1| == |log| + 1 && log1 == log + [log1[|log|]] && log1[|log|].state == queue[0]
    requires multiset(queue) == rest + multiset{queue[0]}
    requires forall i, j :: 0 <= i < |log| && 0 <= j < |queue| ==> Older(log[i].state, queue[j])
    requires forall i, j :: 0 <= i <= j < |queue| ==> Older(queue[i], queue[j])
    ensures multiset(queue[1..]) == rest
    ensures forall i, j :: 0 <= i < |log1| && 0 <= j < |queue[1..]| ==> Older(log1[i].state, queue[1..][j])
    ensures forall i, j :: 0 <= i <= j < |queue[1..]| ==> Older(queue[1..][i], queue[1..][j])
  {
    assert queue == [queue[0]] + queue[1..];
    Cancelled(multiset(queue[1..]), rest, multiset{queue[0]});
  }

  lemma MoveInOrder(o: Oracle, prompt: bool, c: Config, w: World, queue: seq<State>, pick: seq<nat>)
    requires InOrder(c, w, queue) && (prompt ==> queue == [])
    requires OldestFirst(queue, c, w, Move(o, prompt, c, w, pick))
    ensures var r := Move(o, prompt, c, w, pick); InOrder(r.0, r.1, Requeued(queue, c, r))
    ensures prompt ==> Requeued(queue, c, Move(o, prompt, c, w, pick)) == []
  {
    var r := Move(o, prompt, c, w, pick);
    MoveEffect(o, prompt, c, w, pick);
    MoveExclusive(o, prompt, c, w, pick);
    if r.1.log == w.log {
      QuietMove(prompt, c, w, queue, r);
    } else if Waiting(r.0) == Waiting(c) {
      PromptMove(c, w, r);
    } else {
      ServingMove(prompt, c, w, queue, r);
    }
  }

  lemma {:induction false} MovesInOrder(o: Oracle, prompt: bool, c: Config, w: World, queue: seq<State>,
                                        picks: seq<seq<nat>>)
    requires InOrder(c, w, queue) && (prompt ==> queue == []) && Served(o, prompt, c, w, queue, picks)
    ensures var w1 := Moves(o, prompt, c, w, picks).1; Lineage(w1.log, w1.trace) && Holds(w1.state, w1.log)
    decreases |picks|
  {
    if picks != [] {
      var r := Move(o, prompt, c, w, picks[0]);
      MoveInOrder(o, prompt, c, w, queue, picks[0]);
      MovesInOrder(o, prompt, r.0, r.1, Requeued(queue, c, r), picks[1..]);
    }
  }

  /** In every attempt of the history the store keeps the order of the copies. What waits when a process
      dies is lost. */
  ghost predicate OrderKept(o: Oracle, prompt: bool, root: Executable, input: Value, acts: seq<Act>) {
    acts == [] ||
    var (before, act) := (acts[..|acts| - 1], acts[|acts| - 1]);
    var x := Story(o, prompt, root, input, before);
    && OrderKept(o, prompt, root, input, before)
    && (act.Drives? && Launch(x, root).Some? ==>
          Served(o, prompt, Start(root, input), World(Launch(x, root).value, x.log, x.trace, []), [], act.picks))
  }

  lemma CloseLineage(c: Config, w: World, ending: Ending, output: Option<Value>)
    requires Lineage(w.log, w.trace) && Holds(w.state, w.log)
    ensures var x := Close(c, w, ending, output); Lineage(x.log, x.trace)
  {
    var reason := match ending case Pausing => AtApproval case Failing(_) => AtFailure case _ => Final;
    StoreLineage(w.log, w.trace, Checkpoint(reason, w.state));
  }

  lemma DrivesLineage(o: Oracle, prompt: bool, root: Executable, input: Value, x: Execution, picks: seq<seq<nat>>,
                      ending: Ending)
    requires Apart(root) && Lineage(x.log, x.trace) && Launch(x, root).Some?
    requires Served(o, prompt, Start(root, input), World(Launch(x, root).value, x.log, x.trace, []), [], picks)
    ensures var y := Play(o, prompt, root, input, x, Drives(picks, ending)); Lineage(y.log, y.trace)
  {
    var w := World(Launch(x, root).value, x.log, x.trace, []);
    MovesInOrder(o, prompt, Start(root, input), w, [], picks);
    var (c1, w1) := Moves(o, prompt, Start(root, input), w, picks);
    CloseLineage(c1, w1, ending, x.output);
  }

  lemma {:induction false} StoryLineage(o: Oracle, prompt: bool, root: Executable, input: Value, acts: seq<Act>)
    requires Apart(root) && OrderKept(o, prompt, root, input, acts)
    ensures var x := Story(o, prompt, root, input, acts); Lineage(x.log, x.trace)
  {
    if acts != [] {
      var x := Story(o, prompt, root, input, acts[..|acts| - 1]);
      StoryLineage(o, prompt, root, input, acts[..|acts| - 1]);
      match acts[|acts| - 1]
      case Drives(picks, ending) =>
        if Launch(x, root).Some? { DrivesLineage(o, prompt, root, input, x, picks, ending); }
      case Rules(id, named, verdict) =>
        if Decides(x, id, named) {
          StoreLineage(x.log, x.trace, Checkpoint(Decided, Latest(x).(ledger := Latest(x).ledger[id := verdict])));
        }
    }
  }

  /** Event `m` begins the node whose `after_node` checkpoint is stored at position `i`. */
  predicate BeginsAfter(x: Execution, m: nat, i: nat) {
    && m < |x.trace| && i < |x.log| && x.trace[m].Began? && x.log[i].reason == AfterNode(x.trace[m].key)
  }

  /** As long as the store keeps the order of the copies, no history of a tree whose branches share no
      workflow name begins a node again once its `after_node` checkpoint is stored, however branches
      interleave. */
  lemma {:induction false} InterleavedNeverRunsAgain(o: Oracle, prompt: bool, root: Executable, input: Value,
                                                     acts: seq<Act>, m: nat, i: nat)
    requires Apart(root) && OrderKept(o, prompt, root, input, acts)
    requires BeginsAfter(Story(o, prompt, root, input, acts), m, i)
    ensures Story(o, prompt, root, input, acts).trace[m].at <= i
  {
    StoryLineage(o, prompt, root, input, acts);
  }

  // ------------------------------------------------------------------ when the order is kept by itself

  /** No parallel node anywhere. */
  predicate Linear(e: Executable) {
    match e
    case Task(_) => true
    case Sequence(steps) => forall i :: 0 <= i < |steps| ==> Linear(steps[i])
    case Parallel(_, _) => false
    case Router(_, routes, default) =>
      (forall i :: 0 <= i < |routes| ==> Linear(routes[i].target)) && (default.Some? ==> Linear(default.value))
    case Loop(_, body, _) => Linear(body)
    case Approval(_, _, action, _) => action.Some? ==> Linear(action.value)
    case Workflow(_, nodes) => forall i :: 0 <= i < |nodes| ==> Linear(nodes[i].work)
  }

  /** One coroutine, with at most one copy waiting: its own. */
  ghost predicate Alone(c: Config) {
    match c
    case Start(e, _) => Linear(e)
    case InSteps(e, _, _, inner) => Linear(e) && Alone(inner)
    case InTurns(e, _, _, inner) => Linear(e) && Alone(inner)
    case InBranches(_, _, _) => false
    case AtNode(e, _, _, _) => Linear(e)
    case Entering(e, _, _, _) => Linear(e)
    case InNode(e, _, _, inner) => Linear(e) && Alone(inner)
    case Recorded(e, _, _, _) => Linear(e)
    case Storing(_, next) => Alone(next) && Waiting(next) == multiset{}
    case _ => true
  }

  lemma {:induction false} AloneWaits(c: Config)
    requires Alone(c)
    ensures |Waiting(c)| <= 1
  {
    if c.InSteps? || c.InTurns? || c.InNode? { AloneWaits(c.inner); }
  }

  lemma {:induction false} MoveAlone(o: Oracle, c: Config, w: World, pick: seq<nat>)
    requires Shaped(c) && Alone(c)
    ensures Alone(Move(o, false, c, w, pick).0)
  {
    if (c.InSteps? || c.InTurns? || c.InNode?) && !c.inner.Returned? {
      MoveAlone(o, c.inner, w, pick);
    } else if c.Start? && c.e.Router? {
      var target := Lookup(c.e.routes, c.e.default, o.choose(c.e.name, c.v));
    } else if c.AtNode? && c.i < |c.e.nodes| {
      var next := Entering(c.e, c.i, c.own, c.current);
      assert Waiting(next) == multiset{} && Alone(next);
    }
  }

  lemma {:induction false} LinearServed(o: Oracle, c: Config, w: World, queue: seq<State>, picks: seq<seq<nat>>)
    requires Shaped(c) && Loose(c, w.state) && Alone(c) && multiset(queue) == Waiting(c)
    ensures Served(o, false, c, w, queue, picks)
    decreases |picks|
  {
    if picks != [] {
      var r := Move(o, false, c, w, picks[0]);
      MoveEffect(o, false, c, w, picks[0]);
      MoveAlone(o, c, w, picks[0]);
      AloneWaits(c);
      OnlyOneWaits(c, w, queue, r);
      LinearServed(o, r.0, r.1, Requeued(queue, c, r), picks[1..]);
    }
  }

  lemma OnlyOneWaits(c: Config, w: World, queue: seq<State>, r: (Config, World))
    requires multiset(queue) == Waiting(c) && |Waiting(c)| <= 1 && Stores(false, Waiting(c), w, Waiting(r.0), r.1)
    ensures OldestFirst(queue, c, w, r) && multiset(Requeued(queue, c, r)) == Waiting(r.0)
  {
    assert |multiset(queue)| == |queue|;
    if |Waiting(r.0)| < |Waiting(c)| {
      var s := r.1.log[|w.log|].state;
      assert Waiting(r.0) == multiset{};
      assert queue == [queue[0]] && s in multiset(queue);
    }
  }

  lemma {:induction false} PromptServed(o: Oracle, c: Config, w: World, picks: seq<seq<nat>>)
    requires Shaped(c) && Loose(c, w.state) && Waiting(c) == multiset{}
    ensures Served(o, true, c, w, [], picks)
    decreases |picks|
  {
    if picks != [] {
      var r := Move(o, true, c, w, picks[0]);
      MoveEffect(o, true, c, w, picks[0]);
      assert Waiting(r.0) == multiset{};
      PromptServed(o, r.0, r.1, picks[1..]);
    }
  }

  /** A store that has the copy at once keeps the order, and so does any store for a tree without
      parallel nodes. */
  lemma {:induction false} PromptOrLinearKeepsOrder(o: Oracle, prompt: bool, root: Executable, input: Value,
                                                    acts: seq<Act>)
    requires prompt || Linear(root)
    ensures OrderKept(o, prompt, root, input, acts)
  {
    if acts != [] {
      var (before, act) := (acts[..|acts| - 1], acts[|acts| - 1]);
      PromptOrLinearKeepsOrder(o, prompt, root, input, before);
      var x := Story(o, prompt, root, input, before);
      if act.Drives? && Launch(x, root).Some? {
        var w := World(Launch(x, root).value, x.log, x.trace, []);
        if prompt {
          PromptServed(o, Start(root, input), w, act.picks);
        } else {
          LinearServed(o, Start(root, input), w, [], act.picks);
        }
      }
    }
  }

  // ------------------------------------------------------------------ with any store

  /** No checkpoint from position `b` on that was stored before the event has its node completed. */
  ghost predicate From(ev: Event, log: seq<Checkpoint>, b: nat)
    requires ev.Began? && ev.at <= |log|
  {
    (b == 0 || b < ev.at) && forall j :: b <= j < ev.at ==> ev.key !in log[j].state.completed
  }

  ghost predicate Explained(log: seq<Checkpoint>, trace: seq<Event>) {
    && (forall i :: 0 <= i < |log| ==> Sensible(log[i]))
    && (forall m :: 0 <= m < |trace| ==> trace[m].at <= |log|)
    && (forall m :: 0 <= m < |trace| && trace[m].Began? ==> exists b: nat :: From(trace[m], log, b))
  }

  /** In an attempt that started from the checkpoint at `b`, or from nothing. */
  ghost predicate Onward(c: Config, w: World, b: nat) {
    && Shaped(c) && Loose(c, w.state) && Exclusive(c, w.state) && Explained(w.log, w.trace)
    && (b == 0 || b < |w.log|)
    && forall j :: b <= j < |w.log| ==> w.log[j].state.completed.Keys <= w.state.completed.Keys
  }

  lemma ExplainedStore(log: seq<Checkpoint>, trace: seq<Event>, c: Checkpoint)
    requires Explained(log, trace) && Sensible(c)
    ensures Explained(log + [c], trace)
  {
    forall m | 0 <= m < |trace| && trace[m].Began? ensures exists b: nat :: From(trace[m], log + [c], b) {
      var b: nat :| From(trace[m], log, b);
      assert From(trace[m], log + [c], b);
    }
  }

  lemma ExplainedEvent(log: seq<Checkpoint>, trace: seq<Event>, ev: Event, b: nat)
    requires Explained(log, trace) && ev.at <= |log| && (ev.Began? ==> From(ev, log, b))
    ensures Explained(log, trace + [ev])
  {
  }

  lemma MoveOnward(o: Oracle, prompt: bool, c: Config, w: World, pick: seq<nat>, b: nat)
    requires Onward(c, w, b)
    ensures var r := Move(o, prompt, c, w, pick); Onward(r.0, r.1, b)
  {
    var r := Move(o, prompt, c, w, pick);
    MoveEffect(o, prompt, c, w, pick);
    MoveExclusive(o, prompt, c, w, pick);
    if r.1.trace != w.trace { ExplainedEvent(w.log, w.trace, r.1.trace[|w.trace|], b); }
    if r.1.log != w.log { ExplainedStore(w.log, r.1.trace, r.1.log[|w.log|]); }
  }

  lemma {:induction false} MovesOnward(o: Oracle, prompt: bool, c: Config, w: World, picks: seq<seq<nat>>, b: nat)
    requires Onward(c, w, b)
    ensures var (c1, w1) := Moves(o, prompt, c, w, picks); Onward(c1, w1, b)
    decreases |picks|
  {
    if picks != [] {
      MoveOnward(o, prompt, c, w, picks[0], b);
      var (c1, w1) := Move(o, prompt, c, w, picks[0]);
      MovesOnward(o, prompt, c1, w1, picks[1..], b);
    }
  }

  lemma CloseExplained(c: Config, w: World, ending: Ending, output: Option<Value>)
    requires Explained(w.log, w.trace)
    ensures var x := Close(c, w, ending, output); Explained(x.log, x.trace)
  {
    var reason := match ending case Pausing => AtApproval case Failing(_) => AtFailure case _ => Final;
    ExplainedStore(w.log, w.trace, Checkpoint(reason, w.state));
  }

  lemma DrivesExplained(o: Oracle, prompt: bool, root: Executable, input: Value, x: Execution, picks: seq<seq<nat>>,
                        ending: Ending)
    requires Apart(root) && Explained(x.log, x.trace) && Launch(x, root).Some?
    ensures var y := Play(o, prompt, root, input, x, Drives(picks, ending)); Explained(y.log, y.trace)
  {
    var w := World(Launch(x, root).value, x.log, x.trace, []);
    MovesOnward(o, prompt, Start(root, input), w, picks, if x.log == [] then 0 else |x.log| - 1);
    var (c1, w1) := Moves(o, prompt, Start(root, input), w, picks);
    CloseExplained(c1, w1, ending, x.output);
  }

  lemma {:induction false} StoryExplained(o: Oracle, prompt: bool, root: Executable, input: Value, acts: seq<Act>)
    requires Apart(root)
    ensures var x := Story(o, prompt, root, input, acts); Explained(x.log, x.trace)
  {
    if acts != [] {
      var x := Story(o, prompt, root, input, acts[..|acts| - 1]);
      StoryExplained(o, prompt, root, input, acts[..|acts| - 1]);
      match acts[|acts| - 1]
      case Drives(picks, ending) =>
        if Launch(x, root).Some? { DrivesExplained(o, prompt, root, input, x, picks, ending); }
      case Rules(id, named, verdict) =>
        if Decides(x, id, named) {
          ExplainedStore(x.log, x.trace, Checkpoint(Decided, Latest(x).(ledger := Latest(x).ledger[id := verdict])));
        }
    }
  }

  /** With any store, in a tree whose branches share no workflow name: a node begins after its
      `after_node` checkpoint was stored only if a checkpoint without the node was stored in between, an
      older copy that came late. A store that keeps the order of the copies rules that out. */
  lemma RunsAgainOnlyIfOvertaken(o: Oracle, prompt: bool, root: Executable, input: Value, acts: seq<Act>, m: nat,
                                 i: nat)
    returns (j: nat)
    requires Apart(root) && BeginsAfter(Story(o, prompt, root, input, acts), m, i)
    requires i < Story(o, prompt, root, input, acts).trace[m].at
    ensures var x := Story(o, prompt, root, input, acts);
      i < j < x.trace[m].at <= |x.log| && x.trace[m].key !in x.log[j].state.completed
  {
    var x := Story(o, prompt, root, input, acts);
    StoryExplained(o, prompt, root, input, acts);
    j :| From(x.trace[m], x.log, j);
  }
}
