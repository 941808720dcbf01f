/** One attempt at the grain of single await points: the branches of a parallel node interleave in any
    order on the one dictionary they share, and a checkpoint is copied before it is stored.

    `Move` lets one coroutine go on. A raised exception or a pending gate leaves its coroutine `Halted`;
    what its siblings still do before they are cancelled is part of the schedule. */
module Interleaving {
  import opened Types
  import opened Wrappers
  import opened Workflows

  /** What is left to do. */
  datatype Config =
    | Start(e: Executable, v: Value)
    | Returned(x: Value)
    | Halted(e: Executable, v: Value)
    | Performing(task: string, v: Value)
    | InSteps(e: Executable, i: nat, own: Value, inner: Config)
    | InTurns(e: Executable, left: nat, own: Value, inner: Config)
    | InBranches(e: Executable, own: Value, inners: seq<Config>)
    | AtNode(e: Executable, i: nat, own: Value, current: Value)
    | Entering(e: Executable, i: nat, own: Value, current: Value)
    | InNode(e: Executable, i: nat, own: Value, inner: Config)
    | Recorded(e: Executable, i: nat, own: Value, x: Value)
    | Storing(checkpoint: Checkpoint, next: Config)

  predicate Shaped(c: Config) {
    match c
    case InSteps(e, i, _, inner) => e.Sequence? && i < |e.steps| && Shaped(inner)
    case InTurns(e, _, _, inner) => e.Loop? && Shaped(inner)
    case InBranches(e, _, inners) =>
      e.Parallel? && |inners| == |e.branches| && forall k :: 0 <= k < |inners| ==> Shaped(inners[k])
    case AtNode(e, i, _, _) => e.Workflow? && i <= |e.nodes|
    case Entering(e, i, _, _) => e.Workflow? && i < |e.nodes|
    case InNode(e, i, _, inner) => e.Workflow? && i < |e.nodes| && Shaped(inner)
    case Recorded(e, i, _, _) => e.Workflow? && i < |e.nodes|
    case Storing(_, next) => Shaped(next)
    case _ => true
  }

  function KeyOf(e: Executable, i: nat): Key
    requires e.Workflow? && i < |e.nodes|
  {
    Key(e.name, e.nodes[i].id)
  }

  function StepsFrom(e: Executable, i: nat, own: Value, current: Value): (c: Config)
    requires e.Sequence? && i <= |e.steps|
    ensures Shaped(c)
  {
    if i == |e.steps| then Returned(current) else InSteps(e, i, own, Start(e.steps[i], Give(current, own)))
  }

  function TurnsFrom(e: Executable, left: nat, own: Value, current: Value): (c: Config)
    requires e.Loop?
    ensures Shaped(c)
  {
    if left == 0 then Returned(current) else InTurns(e, left - 1, own, Start(e.body, Give(current, own)))
  }

  /** `asyncio.TaskGroup` starts every branch on the node's own input. */
  function Fork(e: Executable, v: Value): (c: Config)
    requires e.Parallel?
    ensures Shaped(c)
  {
    InBranches(e, v, seq(|e.branches|, k requires 0 <= k < |e.branches| => Start(e.branches[k], v)))
  }

  predicate AllReturned(inners: seq<Config>) { forall k :: 0 <= k < |inners| ==> inners[k].Returned? }

  function Results(inners: seq<Config>): seq<Value>
    requires AllReturned(inners)
  {
    seq(|inners|, k requires 0 <= k < |inners| => inners[k].x)
  }

  function Begin(o: Oracle, e: Executable, v: Value, w: World): (r: (Config, World))
    ensures Shaped(r.0)
  {
    match e
    case Task(name) => (Performing(name, v), Emit(w, Ran(name, v, |w.log|)))
    case Sequence(_) => (StepsFrom(e, 0, v, v), w)
    case Parallel(_, _) => (Fork(e, v), w)
    case Router(name, routes, default) =>
      var target := Lookup(routes, default, o.choose(name, v));
      (if target.None? then Halted(e, v) else Start(target.value, v), w)
    case Loop(_, _, n) => (TurnsFrom(e, n, v, v), w)
    case Approval(_, id, action, onReject) =>
      (match Entry(w.state, id)
       case Pending => (Halted(e, v), Ask(w, id))
       case Rejected => (if onReject == Skip then Returned(v) else Halted(e, v), w)
       case Approved =>
         if action.None? then (Returned(v), w) else (Start(action.value, v), Emit(w, Acted(id, |w.log|))))
    case Workflow(name, nodes) =>
      if !Compiles(nodes) || (name in w.state.hashes && w.state.hashes[name] != Sign(e)) then (Halted(e, v), w)
      else
        var w1 := Register(w, name, e);
        (AtNode(e, 0, v, Restored(w1.state, name, v)), w1)
  }

  /** `create_checkpoint` copies the dictionary and then awaits the store. A `prompt` store, like the one
      in memory, has the copy before anybody else moves. */
  function Copy(prompt: bool, reason: Reason, next: Config, w: World): (Config, World) {
    if prompt then (next, Save(w, reason)) else (Storing(Checkpoint(reason, w.state), next), w)
  }

  /** `pick` says which branch moves, at every parallel node on the way down. */
  function Move(o: Oracle, prompt: bool, c: Config, w: World, pick: seq<nat>): (r: (Config, World))
    requires Shaped(c)
    ensures Shaped(r.0)
    decreases c
  {
    match c
    case Start(e, v) => Begin(o, e, v, w)
    case Returned(_) => (c, w)
    case Halted(_, _) => (c, w)
    case Performing(task, v) => (Returned(o.work(task, v)), w)
    case InSteps(e, i, own, inner) =>
      if inner.Returned? then (StepsFrom(e, i + 1, own, inner.x), w)
      else
        var (x, w1) := Move(o, prompt, inner, w, pick);
        (InSteps(e, i, own, x), w1)
    case InTurns(e, left, own, inner) =>
      if inner.Returned? then
        (if o.until(e.name, inner.x) then inner else TurnsFrom(e, left, own, inner.x), w)
      else
        var (x, w1) := Move(o, prompt, inner, w, pick);
        (InTurns(e, left, own, x), w1)
    case InBranches(e, own, inners) =>
      if AllReturned(inners) then (Returned(o.merge(e.name, Results(inners))), w)
      else if pick == [] || pick[0] >= |inners| then (c, w)
      else
        var (x, w1) := Move(o, prompt, inners[pick[0]], w, pick[1..]);
        (InBranches(e, own, inners[pick[0] := x]), w1)
    case AtNode(e, i, own, current) =>
      if i == |e.nodes| then (Returned(current), w)
      else if KeyOf(e, i) in w.state.completed then (AtNode(e, i + 1, own, w.state.completed[KeyOf(e, i)]), w)
      else Copy(prompt, BeforeNode(KeyOf(e, i)), Entering(e, i, own, current), w)
    case Entering(e, i, own, current) =>
      (InNode(e, i, own, Start(e.nodes[i].work, Give(current, own))), Emit(w, Began(KeyOf(e, i), |w.log|)))
    case InNode(e, i, own, inner) =>
      if inner.Returned? then (Recorded(e, i, own, inner.x), Record(w, KeyOf(e, i), inner.x))
      else
        var (x, w1) := Move(o, prompt, inner, w, pick);
        (InNode(e, i, own, x), w1)
    case Recorded(e, i, own, x) => Copy(prompt, AfterNode(KeyOf(e, i)), AtNode(e, i + 1, own, x), w)
    case Storing(checkpoint, next) => (next, w.(log := w.log + [checkpoint]))
  }

  function Moves(o: Oracle, prompt: bool, c: Config, w: World, picks: seq<seq<nat>>): (r: (Config, World))
    requires Shaped(c)
    ensures Shaped(r.0)
    decreases |picks|
  {
    if picks == [] then (c, w)
    else
      var (c1, w1) := Move(o, prompt, c, w, picks[0]);
      Moves(o, prompt, c1, w1, picks[1..])
  }
}
