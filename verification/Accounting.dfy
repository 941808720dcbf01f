/** Budget and usage accounting over execution trees: counters are copied into child contexts and
    folded back by `max` along sequences and by summed differences across parallel branches. */
module Accounting {
  import opened Wrappers
  import opened Numbers

  type Price = r: real | r >= 0.0 witness 0.0

  datatype Usage = Usage(modelCalls: int, toolCalls: int, inputTokens: int, outputTokens: int, cachedTokens: int,
      cost: real) {
    function Plus(u: Usage): Usage {
      Usage(modelCalls + u.modelCalls, toolCalls + u.toolCalls, inputTokens + u.inputTokens,
            outputTokens + u.outputTokens, cachedTokens + u.cachedTokens, cost + u.cost)
    }

    function Minus(u: Usage): Usage {
      Usage(modelCalls - u.modelCalls, toolCalls - u.toolCalls, inputTokens - u.inputTokens,
            outputTokens - u.outputTokens, cachedTokens - u.cachedTokens, cost - u.cost)
    }

    function Upto(u: Usage): Usage {
      Usage(Max(modelCalls, u.modelCalls), Max(toolCalls, u.toolCalls), Max(inputTokens, u.inputTokens),
            Max(outputTokens, u.outputTokens), Max(cachedTokens, u.cachedTokens),
            if cost < u.cost then u.cost else cost)
    }

    predicate AtMost(u: Usage) {
      modelCalls <= u.modelCalls && toolCalls <= u.toolCalls && inputTokens <= u.inputTokens
      && outputTokens <= u.outputTokens && cachedTokens <= u.cachedTokens && cost <= u.cost
    }
  }

  const NOTHING := Usage(0, 0, 0, 0, 0, 0.0)

  datatype Policy = Policy(maxSteps: int, maxModelCalls: int, maxToolCalls: int, maxTokens: Option<int>,
      maxCost: Option<real>)

  /** `check_model_call` passes. */
  predicate AllowsModelCall(p: Policy, u: Usage) {
    && u.modelCalls < p.maxModelCalls
    && (p.maxTokens.Some? ==> u.inputTokens + u.outputTokens < p.maxTokens.value)
    && (p.maxCost.Some? ==> u.cost < p.maxCost.value)
  }

  /** One of the three limits on model calls is reached. */
  predicate Exhausted(p: Policy, u: Usage) {
    || u.modelCalls >= p.maxModelCalls
    || (p.maxTokens.Some? && u.inputTokens + u.outputTokens >= p.maxTokens.value)
    || (p.maxCost.Some? && u.cost >= p.maxCost.value)
  }

  // ------------------------------------------------------------------ execution trees

  /** `Chain` is a sequence or a workflow: both run their parts in order and merge after each. */
  datatype Work =
    | Agent
    | Chain(parts: seq<Work>)
    | Parallel(branches: seq<Work>)
    | Router(targets: seq<Work>)
    | Loop(body: Work, maxIterations: nat)

  /** One thing an agent does: a reasoning step with its model call, a round of tool calls, or an
      exception of any other origin. `raised` says the round itself ended in an exception. */
  datatype Charge =
    | ModelCall(input: nat, output: nat, cached: nat, price: Price)
    | ToolRound(calls: nat, raised: bool)
    | Raises

  /** What the outside decides, by position in the tree. */
  datatype Oracle = Oracle(charges: seq<nat> -> seq<Charge>, route: seq<nat> -> nat, turns: seq<nat> -> nat)

  function UsageOf(c: Charge): Usage {
    match c
    case ModelCall(i, o, k, price) => Usage(1, 0, i, o, k, price)
    case ToolRound(calls, _) => Usage(0, calls, 0, 0, 0, 0.0)
    case Raises => NOTHING
  }

  function TotalOf(charges: seq<Charge>): Usage {
    if charges == [] then NOTHING else UsageOf(charges[0]).Plus(TotalOf(charges[1..]))
  }

  function Taken(o: Oracle, w: Work, place: seq<nat>): nat
    requires w.Router? && w.targets != []
  {
    o.route(place) % |w.targets|
  }

  /** How often a loop turns: at least once, at most `maxIterations` (0 turns if that is 0). */
  function Turns(o: Oracle, w: Work, place: seq<nat>): nat
    requires w.Loop?
  {
    if o.turns(place) < w.maxIterations then (if o.turns(place) == 0 && w.maxIterations > 0 then 1 else o.turns(place))
    else w.maxIterations
  }

  /** The sum over all leaf calls of the run, with no contexts in sight. */
  function Spent(o: Oracle, w: Work, place: seq<nat>): Usage
    decreases w, 1, 0
  {
    match w
    case Agent => TotalOf(o.charges(place))
    case Chain(parts) => SpentFrom(o, w, parts, place, 0)
    case Parallel(branches) => SpentFrom(o, w, branches, place, 0)
    case Router(targets) =>
      if targets == [] then NOTHING else Spent(o, targets[Taken(o, w, place)], place + [Taken(o, w, place)])
    case Loop(body, _) => SpentTurns(o, w, place, 0)
  }

  function SpentFrom(o: Oracle, w: Work, parts: seq<Work>, place: seq<nat>, i: nat): Usage
    requires i <= |parts| && ((w.Chain? && w.parts == parts) || (w.Parallel? && w.branches == parts))
    decreases w, 0, |parts| - i
  {
    if i == |parts| then NOTHING else Spent(o, parts[i], place + [i]).Plus(SpentFrom(o, w, parts, place, i + 1))
  }

  function SpentTurns(o: Oracle, w: Work, place: seq<nat>, i: nat): Usage
    requires w.Loop? && i <= Turns(o, w, place)
    decreases w, 0, Turns(o, w, place) - i
  {
    if i == Turns(o, w, place) then NOTHING else Spent(o, w.body, place + [i]).Plus(SpentTurns(o, w, place, i + 1))
  }

  // ------------------------------------------------------------------ counters

  datatype Counters = Counters(step: int, used: Usage)

  /** `merge_from`. */
  function Merge(c: Counters, child: Counters): Counters {
    Counters(Max(c.step, child.step), c.used.Upto(child.used))
  }

  /** `absorb_parallel`. */
  function Absorb(c: Counters, children: seq<Counters>, baseline: Counters): Counters {
    if children == [] then c
    else
      var rest := Absorb(c, children[..|children| - 1], baseline);
      var last := children[|children| - 1];
      Counters(Max(rest.step, last.step), rest.used.Plus(last.used.Minus(baseline.used)))
  }

  /** The counters after `w`, or `None` if an exception escapes. */
  function Go(o: Oracle, p: Policy, w: Work, place: seq<nat>, c: Counters): Option<Counters>
    decreases w, 1, 0
  {
    match w
    case Agent =>
      var r := GoCharges(p, o.charges(place), c);
      if r.None? then None else Some(Merge(c, r.value))
    case Chain(_) => GoParts(o, p, w, place, 0, c)
    case Parallel(branches) =>
      var children := GoBranches(o, p, w, place, |branches|, c);
      if children.None? then None else Some(Absorb(c, children.value, c))
    case Router(targets) =>
      if targets == [] then None
      else
        var r := Go(o, p, targets[Taken(o, w, place)], place + [Taken(o, w, place)], c);
        if r.None? then None else Some(Merge(c, r.value))
    case Loop(_, _) => GoTurns(o, p, w, place, 0, c)
  }

  /** One charge against an agent's own context. */
  function Pay(p: Policy, charge: Charge, c: Counters): Option<Counters> {
    match charge
    case ModelCall(_, _, _, _) =>
      if c.step + 1 <= p.maxSteps && AllowsModelCall(p, c.used)
      then Some(Counters(c.step + 1, c.used.Plus(UsageOf(charge)))) else None
    case ToolRound(_, raised) => if raised then None else Some(c.(used := c.used.Plus(UsageOf(charge))))
    case Raises => None
  }

  function GoCharges(p: Policy, charges: seq<Charge>, c: Counters): Option<Counters> {
    if charges == [] then Some(c)
    else
      var r := Pay(p, charges[0], c);
      if r.None? then None else GoCharges(p, charges[1..], r.value)
  }

  function GoParts(o: Oracle, p: Policy, w: Work, place: seq<nat>, i: nat, c: Counters): Option<Counters>
    requires w.Chain? && i <= |w.parts|
    decreases w, 0, |w.parts| - i
  {
    if i == |w.parts| then Some(c)
    else
      var r := Go(o, p, w.parts[i], place + [i], c);
      if r.None? then None else GoParts(o, p, w, place, i + 1, Merge(c, r.value))
  }

  /** Each branch starts from its own copy of the same counters. */
  function GoBranches(o: Oracle, p: Policy, w: Work, place: seq<nat>, n: nat, c: Counters): (r: Option<seq<Counters>>)
    requires w.Parallel? && n <= |w.branches|
    ensures r.Some? ==> |r.value| == n
    decreases w, 0, n
  {
    if n == 0 then Some([])
    else
      var before := GoBranches(o, p, w, place, n - 1, c);
      var r := Go(o, p, w.branches[n - 1], place + [n - 1], c);
      if before.None? || r.None? then None else Some(before.value + [r.value])
  }

  function GoTurns(o: Oracle, p: Policy, w: Work, place: seq<nat>, i: nat, c: Counters): Option<Counters>
    requires w.Loop? && i <= Turns(o, w, place)
    decreases w, 0, Turns(o, w, place) - i
  {
    if i == Turns(o, w, place) then Some(c)
    else
      var r := Go(o, p, w.body, place + [i], c);
      if r.None? then None else GoTurns(o, p, w, place, i + 1, Merge(c, r.value))
  }

  // ------------------------------------------------------------------ the contexts themselves

  class ExecutionContext {
    const policy: Policy
    var step: int
    var used: Usage

    constructor (policy: Policy, step: int, used: Usage)
      ensures this.policy == policy && Now() == Counters(step, used)
    {
      this.policy, this.step, this.used := policy, step, used;
    }

    function Now(): Counters
      reads this
    {
      Counters(step, used)
    }

    method Child() returns (child: ExecutionContext)
      ensures fresh(child) && child.policy == policy && child.Now() == Now()
    {
      child := new ExecutionContext(policy, step, used);
    }

    method MergeFrom(child: ExecutionContext)
      modifies this
      ensures Now() == Merge(old(Now()), old(child.Now()))
    {
      step, used := Max(step, child.step), used.Upto(child.used);
    }

    method AbsorbParallel(children: seq<ExecutionContext>, baseline: ExecutionContext)
      requires this !in children && this != baseline
      modifies this
      ensures Now() == Absorb(old(Now()),
          seq(|children|, i requires 0 <= i < |children| reads children => children[i].Now()), baseline.Now())
    {
      ghost var was := Now();
      ghost var all := seq(|children|, i requires 0 <= i < |children| reads children => children[i].Now());
      for i := 0 to |children|
        invariant Now() == Absorb(was, all[..i], baseline.Now())
        invariant all == seq(|children|, i requires 0 <= i < |children| reads children => children[i].Now())
      {
        assert all[..i + 1][..i] == all[..i];
        step, used := Max(step, children[i].step), used.Plus(children[i].used.Minus(baseline.used));
      }
      assert all[..|children|] == all;
    }

    /** `next_step`, `check_model_budget` and `_account`; or a round of tool calls. */
    method Charge(c: Charge) returns (raised: bool)
      modifies this
      ensures raised == Pay(policy, c, old(Now())).None?
      ensures !raised ==> Now() == Pay(policy, c, old(Now())).value
      ensures c.ModelCall? ==>
        step == old(step) + 1 && (raised <==> step > policy.maxSteps || Exhausted(policy, old(used)))
      ensures c.ModelCall? && !raised ==>
        && used.modelCalls == old(used).modelCalls + 1 && used.toolCalls == old(used).toolCalls
        && used.inputTokens == old(used).inputTokens + c.input
        && used.outputTokens == old(used).outputTokens + c.output
        && used.cachedTokens == old(used).cachedTokens + c.cached
        && used.cost == old(used).cost + c.price
      ensures c.ModelCall? && raised ==> used == old(used)
      ensures c.ToolRound? ==>
        && step == old(step) && (raised <==> c.raised)
        && used == old(used).(toolCalls := old(used).toolCalls + c.calls)
      ensures c.Raises? ==> raised && Now() == old(Now())
    {
      match c {
        case ModelCall(_, _, _, _) =>
          step := step + 1;
          raised := step > policy.maxSteps || !AllowsModelCall(policy, used);
          if !raised { used := used.Plus(UsageOf(c)); }
        case ToolRound(_, r) =>
          raised := r;
          used := used.Plus(UsageOf(c));
        case Raises =>
          raised := true;
      }
    }

    /** The `execute` methods, as far as counters go. */
    method Execute(o: Oracle, w: Work, place: seq<nat>) returns (raised: bool)
      modifies this
      ensures raised == Go(o, policy, w, place, old(Now())).None?
      ensures !raised ==> Now() == Go(o, policy, w, place, old(Now())).value
      decreases w, 1
    {
      match w {
        case Agent =>
          raised := ExecuteAgent(o.charges(place));
        case Chain(parts) =>
          for i := 0 to |parts|
            invariant Go(o, policy, w, place, old(Now())) == GoParts(o, policy, w, place, i, Now())
          {
            var child := Child();
            raised := child.Execute(o, parts[i], place + [i]);
            if raised { return; }
            MergeFrom(child);
          }
          raised := false;
        case Parallel(_) =>
          raised := ExecuteParallel(o, w, place);
        case Router(targets) =>
          if targets == [] { return true; }
          var child := Child();
          raised := child.Execute(o, targets[Taken(o, w, place)], place + [Taken(o, w, place)]);
          if !raised { MergeFrom(child); }
        case Loop(body, _) =>
          for i := 0 to Turns(o, w, place)
            invariant Go(o, policy, w, place, old(Now())) == GoTurns(o, policy, w, place, i, Now())
          {
            var child := Child();
            raised := child.Execute(o, body, place + [i]);
            if raised { return; }
            MergeFrom(child);
          }
          raised := false;
      }
    }

    method ExecuteAgent(charges: seq<Charge>) returns (raised: bool)
      modifies this
      ensures raised == GoCharges(policy, charges, old(Now())).None?
      ensures !raised ==> Now() == Merge(old(Now()), GoCharges(policy, charges, old(Now())).value)
    {
      var ctx := Child();
      for i := 0 to |charges|
        invariant fresh(ctx) && ctx.policy == policy && Now() == old(Now())
        invariant GoCharges(policy, charges, old(Now())) == GoCharges(policy, charges[i..], ctx.Now())
      {
        raised := ctx.Charge(charges[i]);
        if raised { return; }
        assert charges[i..][1..] == charges[i + 1..];
      }
      MergeFrom(ctx);
      raised := false;
    }

    method ExecuteParallel(o: Oracle, w: Work, place: seq<nat>) returns (raised: bool)
      requires w.Parallel?
      modifies this
      ensures raised == Go(o, policy, w, place, old(Now())).None?
      ensures !raised ==> Now() == Go(o, policy, w, place, old(Now())).value
      decreases w, 0
    {
      var baseline := Child();
      var children: seq<ExecutionContext> := [];
      raised := false;
      for i := 0 to |w.branches|
        invariant |children| == i && Now() == old(Now()) == baseline.Now() && fresh(baseline)
        invariant forall k :: 0 <= k < i ==> fresh(children[k]) && children[k] != baseline
        invariant raised == GoBranches(o, policy, w, place, i, old(Now())).None?
        invariant !raised ==> forall k :: 0 <= k < i ==>
          children[k].Now() == GoBranches(o, policy, w, place, i, old(Now())).value[k]
      {
        var child := Child();
        ghost var others := children;
        var failed := child.Execute(o, w.branches[i], place + [i]);
        children, raised := children + [child], raised || failed;
      }
      if raised { return; }
      AbsorbParallel(children, baseline);
      assert seq(|children|, i requires 0 <= i < |children| reads children => children[i].Now())
          == GoBranches(o, policy, w, place, |w.branches|, old(Now())).value;
    }
  }
}
