/** Durable workflow execution.

    `Run` is one attempt of `Executable.execute`: it threads the shared state dictionary, the
    checkpoint log and the events through a tree of executables, and may be stopped at every
    await point by the next entry of `fates`. `Plain` is the same tree evaluated as an ordinary
    function, with no dictionary, no checkpoints and no way to stop. */
module Workflows {
  import opened Types
  import opened Wrappers

  datatype OnReject = Fail | Skip

  datatype Decision = Pending | Approved | Rejected

  datatype Executable =
    | Task(name: string)
    | Sequence(steps: seq<Executable>)
    | Parallel(name: string, branches: seq<Executable>)
    | Router(name: string, routes: seq<Route>, default: Option<Executable>)
    | Loop(name: string, body: Executable, maxIterations: nat)
    | Approval(name: string, approvalId: string, action: Option<Executable>, onReject: OnReject)
    | Workflow(name: string, nodes: seq<Node>)

  datatype Node = Node(id: string, work: Executable)

  datatype Route = Route(key: string, target: Executable)

  /** The work CoFlowAi calls out to: tasks are deterministic in their input. */
  datatype Oracle = Oracle(
    work: (string, Value) -> Value,
    choose: (string, Value) -> string,
    until: (string, Value) -> bool,
    merge: (string, seq<Value>) -> Value)

  /** `context.child(input=x)`: a null input falls back to the parent's own input. */
  function Give(current: Value, own: Value): Value {
    if current == Null then own else current
  }

  function Lookup(routes: seq<Route>, default: Option<Executable>, key: string): (target: Option<Executable>)
    ensures target.Some? ==> target == default || exists i :: 0 <= i < |routes| && routes[i].target == target.value
  {
    if routes == [] then default
    else if routes[0].key == key then Some(routes[0].target)
    else Lookup(routes[1..], default, key)
  }

  /** The names of all workflows in a tree. */
  function Flows(e: Executable): set<string> {
    match e
    case Task(_) => {}
    case Sequence(steps) => set i, f | 0 <= i < |steps| && f in Flows(steps[i]) :: f
    case Parallel(_, branches) => set i, f | 0 <= i < |branches| && f in Flows(branches[i]) :: f
    case Router(_, routes, default) =>
      (set i, f | 0 <= i < |routes| && f in Flows(routes[i].target) :: f)
      + (if default.Some? then Flows(default.value) else {})
    case Loop(_, body, _) => Flows(body)
    case Approval(_, _, action, _) => if action.Some? then Flows(action.value) else {}
    case Workflow(name, nodes) => {name} + set i, f | 0 <= i < |nodes| && f in Flows(nodes[i].work) :: f
  }

  /** What `stable_hash` is applied to, the hash itself being injective. */
  datatype Signature =
    | TaskMark(name: string)
    | SequenceMark(steps: seq<Signature>)
    | ParallelMark(name: string, branches: multiset<Signature>)
    | RouterMark(name: string, keys: set<string>)
    | LoopMark(name: string, body: Signature, maxIterations: nat)
    | ApprovalMark(name: string, action: Option<Signature>)
    | WorkflowMark(name: string, ids: seq<string>, works: seq<Signature>)

  /** A router's targets, the order of branches, and a gate's id and policy leave no mark. */
  function Sign(e: Executable): Signature {
    match e
    case Task(name) => TaskMark(name)
    case Sequence(steps) => SequenceMark(seq(|steps|, i requires 0 <= i < |steps| => Sign(steps[i])))
    case Parallel(name, branches) =>
      ParallelMark(name, multiset(seq(|branches|, i requires 0 <= i < |branches| => Sign(branches[i]))))
    case Router(name, routes, _) => RouterMark(name, set i | 0 <= i < |routes| :: routes[i].key)
    case Loop(name, body, n) => LoopMark(name, Sign(body), n)
    case Approval(name, _, action, _) =>
      ApprovalMark(name, if action.None? then None else Some(Sign(action.value)))
    case Workflow(name, nodes) =>
      WorkflowMark(name, seq(|nodes|, i requires 0 <= i < |nodes| => nodes[i].id),
                   seq(|nodes|, i requires 0 <= i < |nodes| => Sign(nodes[i].work)))
  }

  /** The part of `compile` that a fluently built workflow can fail: no nodes, or a repeated id. */
  predicate Compiles(nodes: seq<Node>) {
    nodes != [] && forall i, j :: 0 <= i < j < |nodes| ==> nodes[i].id != nodes[j].id
  }

  // ------------------------------------------------------------------ the uninterrupted fold

  datatype Key = Key(flow: string, node: string)

  /** What happens in the uninterrupted evaluation. */
  datatype Fact =
    | Performed(task: string, input: Value)
    | Opened(approvalId: string)
    | Entered(key: Key)
    | Settled(key: Key, out: Option<Value>)
    | Defined(flow: string, signature: Signature)

  /** `out` is `None` when evaluation cannot get past a gate, a route or a compile error. */
  datatype Evaluation = Evaluation(out: Option<Value>, facts: set<Fact>)

  const STUCK := Evaluation(None, {})

  function Plain(o: Oracle, d: string -> Decision, e: Executable, v: Value): Evaluation
    decreases e, 2, 0
  {
    match e
    case Task(name) => Evaluation(Some(o.work(name, v)), {Performed(name, v)})
    case Sequence(_) => PlainSteps(o, d, e, 0, v, v)
    case Parallel(_, _) => PlainBranches(o, d, e, 0, v, [])
    case Router(name, routes, default) =>
      var target := Lookup(routes, default, o.choose(name, v));
      if target.None? then STUCK else Plain(o, d, target.value, v)
    case Loop(_, _, n) => PlainLoop(o, d, e, n, v, v)
    case Approval(_, id, action, onReject) =>
      if d(id) == Approved then
        if action.None? then Evaluation(Some(v), {})
        else
          var r := Plain(o, d, action.value, v);
          r.(facts := r.facts + {Opened(id)})
      else if d(id) == Rejected && onReject == Skip then Evaluation(Some(v), {})
      else STUCK
    case Workflow(name, nodes) =>
      if Compiles(nodes) then
        var r := PlainNodes(o, d, e, 0, v, v);
        r.(facts := r.facts + {Defined(name, Sign(e))})
      else STUCK
  }

  function PlainSteps(o: Oracle, d: string -> Decision, e: Executable, i: nat, own: Value, current: Value): Evaluation
    requires e.Sequence? && i <= |e.steps|
    decreases e, 1, |e.steps| - i
  {
    if i == |e.steps| then Evaluation(Some(current), {})
    else
      var r := Plain(o, d, e.steps[i], Give(current, own));
      if r.out.None? then r
      else
        var rest := PlainSteps(o, d, e, i + 1, own, r.out.value);
        Evaluation(rest.out, r.facts + rest.facts)
  }

  /** A branch that gets stuck does not keep the others from happening. */
  function PlainBranches(o: Oracle, d: string -> Decision, e: Executable, i: nat, own: Value,
                         outs: seq<Value>): Evaluation
    requires e.Parallel? && i <= |e.branches|
    decreases e, 1, |e.branches| - i
  {
    if i == |e.branches| then Evaluation(Some(o.merge(e.name, outs)), {})
    else
      var r := Plain(o, d, e.branches[i], own);
      var rest := PlainBranches(o, d, e, i + 1, own, outs + [r.out.GetOr(Null)]);
      Evaluation(if r.out.None? then None else rest.out, r.facts + rest.facts)
  }

  function PlainLoop(o: Oracle, d: string -> Decision, e: Executable, left: nat, own: Value, current: Value): Evaluation
    requires e.Loop?
    decreases e, 1, left, 0
  {
    if left == 0 then Evaluation(Some(current), {})
    else AfterTurn(o, d, e, left - 1, own, Plain(o, d, e.body, Give(current, own)))
  }

  /** A turn that has evaluated to `r`, and the turns after it. */
  function AfterTurn(o: Oracle, d: string -> Decision, e: Executable, left: nat, own: Value, r: Evaluation): Evaluation
    requires e.Loop?
    decreases e, 1, left, 1
  {
    if r.out.None? || o.until(e.name, r.out.value) then r
    else
      var rest := PlainLoop(o, d, e, left, own, r.out.value);
      Evaluation(rest.out, r.facts + rest.facts)
  }

  function PlainNodes(o: Oracle, d: string -> Decision, e: Executable, i: nat, own: Value, current: Value): Evaluation
    requires e.Workflow? && i <= |e.nodes|
    decreases e, 1, |e.nodes| - i
  {
    if i == |e.nodes| then Evaluation(Some(current), {})
    else
      var key := Key(e.name, e.nodes[i].id);
      var r := Plain(o, d, e.nodes[i].work, Give(current, own));
      var facts := r.facts + {Entered(key), Settled(key, r.out)};
      if r.out.None? then Evaluation(None, facts)
      else
        var rest := PlainNodes(o, d, e, i + 1, own, r.out.value);
        Evaluation(rest.out, facts + rest.facts)
  }

  // ------------------------------------------------------------------ one durable attempt

  /** The shared dictionary `context.state`. `completed` flattens the per-workflow dictionaries. */
  datatype State = State(
    rootHash: Option<Signature>,
    hashes: map<string, Signature>,
    completed: map<Key, Value>,
    lastOutput: map<string, Value>,
    ledger: map<string, Decision>)

  const FRESH := State(None, map[], map[], map[], map[])

  datatype Reason = BeforeNode(key: Key) | AfterNode(key: Key) | AtApproval | AtFailure | Final | Decided

  datatype Checkpoint = Checkpoint(reason: Reason, state: State)

  /** Every event carries the number of checkpoints already stored when it happened. */
  datatype Event =
    | Ran(task: string, input: Value, at: nat)
    | Began(key: Key, at: nat)
    | Acted(approvalId: string, at: nat)

  datatype Failure = AsFailed | AsCancelled | AsTimedOut

  /** What the next await point brings: nothing, the death of the process, or an exception. */
  datatype Fate = Proceed | Crash | Raise(failure: Failure)

  datatype Error =
    | Fault(failure: Failure)
    | RejectedGate(approvalId: string)
    | UnknownRoute
    | BranchFailed
    | Incompatible
    | NotCompiled

  datatype Outcome = Done(value: Value) | Crashed | Paused(approvalId: string) | Errored(error: Error)

  datatype World = World(state: State, log: seq<Checkpoint>, trace: seq<Event>, fates: seq<Fate>)

  function Next(w: World): Fate { if w.fates == [] then Proceed else w.fates[0] }

  function Tick(w: World): World { if w.fates == [] then w else w.(fates := w.fates[1..]) }

  function Halt(f: Fate): Outcome
    requires f != Proceed
  {
    match f
    case Crash => Crashed
    case Raise(failure) => Errored(Fault(failure))
  }

  function Save(w: World, reason: Reason): World { w.(log := w.log + [Checkpoint(reason, w.state)]) }

  function Emit(w: World, event: Event): World { w.(trace := w.trace + [event]) }

  /** `record.status` of the ledger entry, with a missing entry read as `Pending`. */
  function Entry(s: State, id: string): Decision { if id in s.ledger then s.ledger[id] else Pending }

  function Run(o: Oracle, e: Executable, v: Value, w0: World): (Outcome, World)
    decreases e, 2, 0
  {
    match e
    case Task(name) => RunTask(o, name, v, w0)
    case Sequence(_) => RunSteps(o, e, 0, v, v, w0)
    case Parallel(_, _) =>
      if Next(w0) != Proceed then (Halt(Next(w0)), Tick(w0)) else RunBranches(o, e, 0, v, [], Tick(w0))
    case Router(name, routes, default) =>
      var w := Tick(w0);
      if Next(w0) != Proceed then (Halt(Next(w0)), w)
      else
        var target := Lookup(routes, default, o.choose(name, v));
        if target.None? then (Errored(UnknownRoute), w) else Run(o, target.value, v, w)
    case Loop(_, _, n) => RunLoop(o, e, n, v, v, w0)
    case Approval(_, id, action, onReject) =>
      var w := Tick(w0);
      if Next(w0) != Proceed then (Halt(Next(w0)), w)
      else (match Entry(w.state, id)
            case Pending => (Paused(id), Ask(w, id))
            case Rejected => (if onReject == Skip then Done(v) else Errored(RejectedGate(id)), w)
            case Approved =>
              if action.None? then (Done(v), w) else Run(o, action.value, v, Emit(w, Acted(id, |w.log|))))
    case Workflow(name, nodes) =>
      if !Compiles(nodes) then (Errored(NotCompiled), w0)
      else if name in w0.state.hashes && w0.state.hashes[name] != Sign(e) then (Errored(Incompatible), w0)
      else
        var w := Register(w0, name, e);
        RunNodes(o, e, 0, v, Restored(w.state, name, v), w)
  }

  function RunTask(o: Oracle, name: string, v: Value, w0: World): (Outcome, World) {
    if Next(w0) != Proceed then (Halt(Next(w0)), Tick(w0))
    else
      var w := Emit(Tick(w0), Ran(name, v, |w0.log|));
      (if Next(w) != Proceed then Halt(Next(w)) else Done(o.work(name, v)), Tick(w))
  }

  /** `HumanApproval` writes a pending entry the first time and never touches an existing one. */
  function Ask(w: World, id: string): World {
    if id in w.state.ledger then w else w.(state := w.state.(ledger := w.state.ledger[id := Pending]))
  }

  function Register(w: World, name: string, e: Executable): World {
    var s := w.state;
    w.(state := s.(hashes := s.hashes[name := Sign(e)],
                   rootHash := if s.rootHash.None? then Some(Sign(e)) else s.rootHash))
  }

  predicate AnyDone(s: State, name: string) { exists k :: k in s.completed && k.flow == name }

  /** Where `Workflow.execute` starts its running value from. */
  function Restored(s: State, name: string, v: Value): Value {
    if AnyDone(s, name) && name in s.lastOutput then s.lastOutput[name] else v
  }

  function Record(w: World, key: Key, x: Value): World {
    var s := w.state;
    w.(state := s.(completed := s.completed[key := x], lastOutput := s.lastOutput[key.flow := x]))
  }

  function RunSteps(o: Oracle, e: Executable, i: nat, own: Value, current: Value, w0: World): (Outcome, World)
    requires e.Sequence? && i <= |e.steps|
    decreases e, 1, |e.steps| - i
  {
    if i == |e.steps| then (Done(current), w0)
    else if Next(w0) != Proceed then (Halt(Next(w0)), Tick(w0))
    else
      var (r, w) := Run(o, e.steps[i], Give(current, own), Tick(w0));
      if !r.Done? then (r, w) else RunSteps(o, e, i + 1, own, r.value, w)
  }

  /** One permit: branch after branch. `Interleaving` has any number. An exception of a branch reaches
      the caller inside a group. */
  function RunBranches(o: Oracle, e: Executable, i: nat, own: Value, outs: seq<Value>, w0: World): (Outcome, World)
    requires e.Parallel? && i <= |e.branches|
    decreases e, 1, |e.branches| - i
  {
    if i == |e.branches| then (Done(o.merge(e.name, outs)), w0)
    else
      var (r, w) := Run(o, e.branches[i], own, w0);
      if r.Done? then RunBranches(o, e, i + 1, own, outs + [r.value], w)
      else (if r.Crashed? then Crashed else Errored(BranchFailed), w)
  }

  function RunLoop(o: Oracle, e: Executable, left: nat, own: Value, current: Value, w0: World): (Outcome, World)
    requires e.Loop?
    decreases e, 1, left
  {
    if left == 0 then (Done(current), w0)
    else if Next(w0) != Proceed then (Halt(Next(w0)), Tick(w0))
    else
      var (r, w) := Run(o, e.body, Give(current, own), Tick(w0));
      if !r.Done? || o.until(e.name, r.value) then (r, w) else RunLoop(o, e, left - 1, own, r.value, w)
  }

  /** The node loop, and the events after it. */
  function RunNodes(o: Oracle, e: Executable, i: nat, own: Value, current: Value, w0: World): (Outcome, World)
    requires e.Workflow? && i <= |e.nodes|
    decreases e, 1, |e.nodes| - i
  {
    if i == |e.nodes| then (if Next(w0) != Proceed then Halt(Next(w0)) else Done(current), Tick(w0))
    else
      var (r, w) := RunNode(o, e, i, own, current, w0);
      if !r.Done? then (r, w) else RunNodes(o, e, i + 1, own, r.value, w)
  }

  /** One turn of the node loop: a completed node is skipped. */
  function RunNode(o: Oracle, e: Executable, i: nat, own: Value, current: Value, w0: World): (Outcome, World)
    requires e.Workflow? && i < |e.nodes|
    decreases e, 0, 1
  {
    var key := Key(e.name, e.nodes[i].id);
    if Next(w0) != Proceed then (Halt(Next(w0)), Tick(w0))
    else if key in w0.state.completed then (Done(w0.state.completed[key]), Tick(w0))
    else RunFresh(o, e, i, Give(current, own), Tick(w0))
  }

  /** Checkpoint, run, record and checkpoint. */
  function RunFresh(o: Oracle, e: Executable, i: nat, input: Value, w: World): (Outcome, World)
    requires e.Workflow? && i < |e.nodes|
    decreases e, 0, 0
  {
    var key := Key(e.name, e.nodes[i].id);
    var (r, w1) := Run(o, e.nodes[i].work, input, Enter(w, key));
    if !r.Done? then (r, w1) else Conclude(w1, key, r.value)
  }

  function Conclude(w: World, key: Key, x: Value): (Outcome, World) {
    var recorded := Record(w, key, x);
    if Next(w) != Proceed then (Halt(Next(w)), Tick(recorded)) else (Done(x), Save(Tick(recorded), AfterNode(key)))
  }

  function Enter(w: World, key: Key): World {
    var saved := Save(w, BeforeNode(key));
    Emit(saved, Began(key, |saved.log|))
  }

  // ------------------------------------------------------------------ the code that updates in place

  /** One attempt as the source runs it: the context's dictionary, the stored checkpoints and the
      remaining await points are fields that the nested `execute` methods update. */
  class Attempt {
    const oracle: Oracle
    var state: State
    var log: seq<Checkpoint>
    var trace: seq<Event>
    var fates: seq<Fate>

    constructor (oracle: Oracle, state: State, log: seq<Checkpoint>, trace: seq<Event>, fates: seq<Fate>)
      ensures this.oracle == oracle && Now() == World(state, log, trace, fates)
    {
      this.oracle, this.state, this.log, this.trace, this.fates := oracle, state, log, trace, fates;
    }

    function Now(): World
      reads this
    {
      World(state, log, trace, fates)
    }

    method Await() returns (f: Fate)
      modifies this`fates
      ensures f == Next(old(Now())) && Now() == Tick(old(Now()))
    {
      f := Proceed;
      if fates != [] {
        f, fates := fates[0], fates[1..];
      }
    }

    method Execute(e: Executable, input: Value) returns (r: Outcome)
      modifies this
      ensures (r, Now()) == Run(oracle, e, input, old(Now()))
      decreases e, 1
    {
      match e {
        case Task(name) =>
          r := ExecuteTask(name, input);
        case Sequence(_) =>
          r := ExecuteSequence(e, input);
        case Parallel(_, _) =>
          r := ExecuteParallel(e, input);
        case Router(name, routes, default) =>
          var f := Await();
          if f != Proceed { return Halt(f); }
          var target := Lookup(routes, default, oracle.choose(name, input));
          if target.None? { return Errored(UnknownRoute); }
          r := Execute(target.value, input);
        case Loop(_, _, _) =>
          r := ExecuteLoop(e, input);
        case Approval(_, _, _, _) =>
          r := ExecuteApproval(e, input);
        case Workflow(_, _) =>
          r := ExecuteWorkflow(e, input);
      }
    }

    method ExecuteTask(name: string, input: Value) returns (r: Outcome)
      modifies this
      ensures (r, Now()) == RunTask(oracle, name, input, old(Now()))
    {
      var f := Await();
      if f != Proceed { return Halt(f); }
      trace := trace + [Ran(name, input, |log|)];
      f := Await();
      if f != Proceed { return Halt(f); }
      r := Done(oracle.work(name, input));
    }

    method ExecuteSequence(e: Executable, input: Value) returns (r: Outcome)
      requires e.Sequence?
      modifies this
      ensures (r, Now()) == Run(oracle, e, input, old(Now()))
      decreases e, 0
    {
      var current, i := input, 0;
      while i < |e.steps|
        invariant 0 <= i <= |e.steps|
        invariant RunSteps(oracle, e, i, input, current, Now()) == Run(oracle, e, input, old(Now()))
      {
        var f := Await();
        if f != Proceed { return Halt(f); }
        r := Execute(e.steps[i], Give(current, input));
        if !r.Done? { return r; }
        current, i := r.value, i + 1;
      }
      r := Done(current);
    }

    method ExecuteParallel(e: Executable, input: Value) returns (r: Outcome)
      requires e.Parallel?
      modifies this
      ensures (r, Now()) == Run(oracle, e, input, old(Now()))
      decreases e, 0
    {
      var f := Await();
      if f != Proceed { return Halt(f); }
      var outs: seq<Value>, i := [], 0;
      while i < |e.branches|
        invariant 0 <= i <= |e.branches|
        invariant RunBranches(oracle, e, i, input, outs, Now()) == Run(oracle, e, input, old(Now()))
      {
        r := Execute(e.branches[i], input);
        if !r.Done? { return if r.Crashed? then Crashed else Errored(BranchFailed); }
        outs, i := outs + [r.value], i + 1;
      }
      r := Done(oracle.merge(e.name, outs));
    }

    method ExecuteLoop(e: Executable, input: Value) returns (r: Outcome)
      requires e.Loop?
      modifies this
      ensures (r, Now()) == Run(oracle, e, input, old(Now()))
      decreases e, 0
    {
      var current, iteration := input, 1;
      while iteration <= e.maxIterations
        invariant 1 <= iteration <= e.maxIterations + 1
        invariant RunLoop(oracle, e, e.maxIterations + 1 - iteration, input, current, Now())
               == Run(oracle, e, input, old(Now()))
      {
        var f := Await();
        if f != Proceed { return Halt(f); }
        r := Execute(e.body, Give(current, input));
        if !r.Done? { return r; }
        current := r.value;
        if oracle.until(e.name, current) { return Done(current); }
        iteration := iteration + 1;
      }
      r := Done(current);
    }

    method ExecuteApproval(e: Executable, input: Value) returns (r: Outcome)
      requires e.Approval?
      modifies this
      ensures (r, Now()) == Run(oracle, e, input, old(Now()))
      decreases e, 0
    {
      var f := Await();
      if f != Proceed { return Halt(f); }
      var id := e.approvalId;
      if id !in state.ledger || state.ledger[id] == Pending {
        if id !in state.ledger {
          state := state.(ledger := state.ledger[id := Pending]);
        }
        return Paused(id);
      }
      if state.ledger[id] == Rejected {
        return if e.onReject == Skip then Done(input) else Errored(RejectedGate(id));
      }
      if e.action.None? { return Done(input); }
      trace := trace + [Acted(id, |log|)];
      r := Execute(e.action.value, input);
    }

    method ExecuteWorkflow(e: Executable, input: Value) returns (r: Outcome)
      requires e.Workflow?
      modifies this
      ensures (r, Now()) == Run(oracle, e, input, old(Now()))
      decreases e, 0, 1
    {
      if !Compiles(e.nodes) { return Errored(NotCompiled); }
      if e.name in state.hashes && state.hashes[e.name] != Sign(e) { return Errored(Incompatible); }
      state := state.(hashes := state.hashes[e.name := Sign(e)],
                      rootHash := if state.rootHash.None? then Some(Sign(e)) else state.rootHash);
      var current, i := Restored(state, e.name, input), 0;
      while i < |e.nodes|
        invariant 0 <= i <= |e.nodes|
        invariant RunNodes(oracle, e, i, input, current, Now()) == Run(oracle, e, input, old(Now()))
      {
        r := ExecuteNode(e, i, input, current);
        if !r.Done? { return r; }
        current, i := r.value, i + 1;
      }
      var f := Await();
      if f != Proceed { return Halt(f); }
      r := Done(current);
    }

    method ExecuteNode(e: Executable, i: nat, input: Value, current: Value) returns (r: Outcome)
      requires e.Workflow? && i < |e.nodes|
      modifies this
      ensures (r, Now()) == RunNode(oracle, e, i, input, current, old(Now()))
      decreases e, 0, 0
    {
      var f := Await();
      if f != Proceed { return Halt(f); }
      var key := Key(e.name, e.nodes[i].id);
      if key in state.completed { return Done(state.completed[key]); }
      log := log + [Checkpoint(BeforeNode(key), state)];
      trace := trace + [Began(key, |log|)];
      r := Execute(e.nodes[i].work, Give(current, input));
      if !r.Done? { return r; }
      state := state.(completed := state.completed[key := r.value],
                      lastOutput := state.lastOutput[e.name := r.value]);
      f := Await();
      if f != Proceed { return Halt(f); }
      log := log + [Checkpoint(AfterNode(key), state)];
    }
  }
}
