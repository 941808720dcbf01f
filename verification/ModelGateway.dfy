/** The model gateway: budget check, override, and failover along a chain of models. */
module ModelGateway {
  import opened Wrappers
  import opened Numbers
  import opened Accounting
  import opened Retry

  /** A provider's response; without a cost of its own it is priced by its model. */
  datatype Response = Response(input: nat, output: nat, cached: nat, cost: Option<Price>)

  /** What is outside: the providers, the price lists, and which models are registered. */
  datatype Outside = Outside(
    provider: nat -> Attempt<Response>,
    price: (string, Response) -> Price,
    registered: set<string>)

  datatype Outcome = Responded(model: string, response: Response) | Overridden | OverBudget | Failed

  /** `entries` records every call of a provider. */
  datatype State = State(used: Usage, entries: seq<string>)

  /** The fallbacks that are registered, in order. */
  function Known(names: seq<string>, registered: set<string>): seq<string> {
    if names == [] then []
    else (if names[0] in registered then [names[0]] else []) + Known(names[1..], registered)
  }

  function Cost(o: Outside, model: string, r: Response): Price {
    if r.cost.Some? then r.cost.value else o.price(model, r)
  }

  function UsageFor(o: Outside, model: string, r: Response): Usage {
    UsageOf(ModelCall(r.input, r.output, r.cached, Cost(o, model, r)))
  }

  /** From candidate `i` on. The loop ends at whatever is the last model of the chain. */
  function Failover(o: Outside, retries: nat, chain: seq<string>, i: nat, s: State): (Outcome, State)
    requires i < |chain|
    decreases |chain| - i
  {
    var (a, entries) := Attempts(o.provider, chain[i], retries, s.entries);
    match a
    case Returned(r) => (Responded(chain[i], r), State(s.used.Plus(UsageFor(o, chain[i], r)), entries))
    case Raised(retryable, _) =>
      if !retryable || chain[i] == chain[|chain| - 1] then (Failed, s.(entries := entries))
      else Failover(o, retries, chain, i + 1, s.(entries := entries))
  }

  function Call(o: Outside, p: Policy, retries: nat, model: string, fallbacks: seq<string>, overridden: bool, s: State)
    : (Outcome, State)
  {
    if !AllowsModelCall(p, s.used) then (OverBudget, s)
    else if overridden then (Overridden, s.(used := s.used.Plus(UsageOf(ModelCall(0, 0, 0, 0.0)))))
    else Failover(o, retries, [model] + Known(fallbacks, o.registered), 0, s)
  }

  class Gateway {
    const outside: Outside
    const policy: Policy
    const retries: nat
    var used: Usage
    var entries: seq<string>

    constructor (outside: Outside, policy: Policy, retries: nat, s: State)
      ensures this.outside == outside && this.policy == policy && this.retries == retries && Now() == s
    {
      this.outside, this.policy, this.retries, used, entries := outside, policy, retries, s.used, s.entries;
    }

    function Now(): State
      reads this
    {
      State(used, entries)
    }

    /** `ModelGateway.call` for a resolved model. */
    method Generate(model: string, fallbacks: seq<string>, overridden: bool) returns (r: Outcome)
      modifies this
      ensures (r, Now()) == Call(outside, policy, retries, model, fallbacks, overridden, old(Now()))
      ensures r.OverBudget? <==> Exhausted(policy, old(used))
      ensures r.OverBudget? ==> Now() == old(Now())
    {
      if !AllowsModelCall(policy, used) { return OverBudget; }
      RefusedIffExhausted(outside, policy, retries, model, fallbacks, overridden, Now());
      if overridden {
        used := used.(modelCalls := used.modelCalls + 1);
        return Overridden;
      }
      var chain, i := [model] + Known(fallbacks, outside.registered), 0;
      while true
        invariant 0 <= i < |chain|
        invariant Failover(outside, retries, chain, i, Now()) == Failover(outside, retries, chain, 0, old(Now()))
        decreases |chain| - i
      {
        var a;
        a, entries := RunWithRetry(outside.provider, chain[i], retries, entries);
        if a.Returned? {
          used := used.Plus(UsageFor(outside, chain[i], a.output));
          return Responded(chain[i], a.output);
        }
        if !a.retryable || chain[i] == chain[|chain| - 1] { return Failed; }
        i := i + 1;
      }
    }
  }

  // ------------------------------------------------------------------ what a call does

  /** A call is refused, before any provider is entered and with nothing counted, exactly if one of the limits on
      calls, tokens and cost is reached. */
  lemma RefusedIffExhausted(o: Outside, p: Policy, retries: nat, model: string, fallbacks: seq<string>,
                            overridden: bool, s: State)
    ensures var (r, t) := Call(o, p, retries, model, fallbacks, overridden, s);
      (r.OverBudget? <==> Exhausted(p, s.used)) && (r.OverBudget? ==> t == s)
  {
    if AllowsModelCall(p, s.used) && !overridden {
      var k := FailoverExact(o, retries, [model] + Known(fallbacks, o.registered), 0, s);
    }
  }

  /** Of the named fallbacks exactly the registered ones are kept, in their order: name by name. */
  lemma {:induction false} KnownInOrder(names: seq<string>, more: seq<string>, x: string, registered: set<string>)
    ensures Known([], registered) == []
    ensures Known([x], registered) == if x in registered then [x] else []
    ensures Known(names + more, registered) == Known(names, registered) + Known(more, registered)
    decreases |names|
  {
    assert [x][1..] == [];
    if names == [] {
      assert names + more == more;
    } else {
      assert (names + more)[1..] == names[1..] + more;
      KnownInOrder(names[1..], more, x, registered);
    }
  }

  /** An answered call is counted with the tokens of its response, and at the response's own cost or else the
      price list of the model that answered. */
  lemma CountedAs(o: Outside, p: Policy, retries: nat, model: string, fallbacks: seq<string>, s: State)
    ensures var (r, t) := Call(o, p, retries, model, fallbacks, false, s);
      r.Responded? ==>
        && t.used.inputTokens == s.used.inputTokens + r.response.input
        && t.used.outputTokens == s.used.outputTokens + r.response.output
        && t.used.cachedTokens == s.used.cachedTokens + r.response.cached
        && t.used.toolCalls == s.used.toolCalls
        && t.used.cost - s.used.cost == if r.response.cost.Some? then r.response.cost.value
                                        else o.price(r.model, r.response)
  {
    CountedOnce(o, p, retries, model, fallbacks, false, s);
  }

  /** The run of provider calls from candidate `i` on: candidate after candidate, all but the last call
      failing transiently, and the last one deciding. Failing ends at a permanent error or at the last
      model with its retries used up. */
  lemma {:induction false} FailoverExact(o: Outside, retries: nat, chain: seq<string>, i: nat, s: State)
    returns (k: nat)
    requires i < |chain|
    ensures i <= k < |chain|
    ensures var (r, t) := Failover(o, retries, chain, i, s);
      && |s.entries| + (k - i) < |t.entries| <= |s.entries| + (k - i + 1) * (retries + 1)
      && t.entries[..|s.entries|] == s.entries && t.entries[|t.entries| - 1] == chain[k]
      && (forall m :: |s.entries| <= m < |t.entries| - 1 ==> o.provider(m).Raised? && o.provider(m).retryable)
      && var last := o.provider(|t.entries| - 1);
         && (last.Returned? ==> r == Responded(chain[k], last.output)
                                && t.used == s.used.Plus(UsageFor(o, chain[k], last.output)))
         && (last.Raised? ==> r == Failed && t.used == s.used && (!last.retryable || chain[k] == chain[|chain| - 1]))
    decreases |chain| - i
  {
    AttemptsBounded(o.provider, chain[i], retries, s.entries);
    var (a, entries) := Attempts(o.provider, chain[i], retries, s.entries);
    if a.Raised? && a.retryable && chain[i] != chain[|chain| - 1] {
      k := FailoverExact(o, retries, chain, i + 1, s.(entries := entries));
      var t := Failover(o, retries, chain, i, s).1;
      assert t.entries[..|s.entries|] == t.entries[..|entries|][..|s.entries|] == s.entries;
      assert (k - i + 1) * (retries + 1) == (k - i) * (retries + 1) + (retries + 1);
    } else {
      k := i;
    }
  }

  /** Whatever providers do, a call that answers is counted as one model call with the usage of the
      response it returns, however many providers were tried; a call that raises is not counted; and
      the limit on model calls is not passed. */
  lemma CountedOnce(o: Outside, p: Policy, retries: nat, model: string, fallbacks: seq<string>, overridden: bool,
                    s: State)
    ensures var (r, t) := Call(o, p, retries, model, fallbacks, overridden, s);
      && (r.Responded? ==> t.used == s.used.Plus(UsageFor(o, r.model, r.response)))
      && (r.OverBudget? || r.Failed? ==> t.used == s.used)
      && t.used.modelCalls == s.used.modelCalls + (if r.Responded? || r.Overridden? then 1 else 0)
      && t.used.modelCalls <= Max(s.used.modelCalls, p.maxModelCalls)
      && (r.Overridden? ==> t.used.cost == s.used.cost && t.entries == s.entries)
  {
    if AllowsModelCall(p, s.used) && !overridden {
      var k := FailoverExact(o, retries, [model] + Known(fallbacks, o.registered), 0, s);
    }
  }

  // ------------------------------------------------------------------ where the chain ends

  /** A chain ends at the first occurrence of its last model: whatever stands between that and the end
      is never tried. */
  lemma {:induction false} ChainCutAtLast(o: Outside, retries: nat, chain: seq<string>, j: nat, i: nat, s: State)
    requires i <= j < |chain| && chain[j] == chain[|chain| - 1]
    ensures Failover(o, retries, chain, i, s) == Failover(o, retries, chain[..j + 1], i, s)
    decreases j - i
  {
    var (a, entries) := Attempts(o.provider, chain[i], retries, s.entries);
    assert chain[..j + 1][j] == chain[|chain| - 1];
    if a.Raised? && a.retryable && chain[i] != chain[|chain| - 1] {
      ChainCutAtLast(o, retries, chain, j, i + 1, s.(entries := entries));
    }
  }

  /** If every provider fails transiently, the candidates from `i` to the first occurrence `j` of the last
      model are tried, each as often as allowed. */
  lemma {:induction false} TriedUpToLast(o: Outside, retries: nat, chain: seq<string>, i: nat, j: nat, s: State)
    requires i <= j < |chain| && chain[j] == chain[|chain| - 1]
    requires forall k :: i <= k < j ==> chain[k] != chain[|chain| - 1]
    requires forall n: nat :: o.provider(n).Raised? && o.provider(n).retryable
    ensures |Failover(o, retries, chain, i, s).1.entries| == |s.entries| + (j - i + 1) * (retries + 1)
    decreases j - i
  {
    AttemptsBounded(o.provider, chain[i], retries, s.entries);
    if i < j {
      var entries := Attempts(o.provider, chain[i], retries, s.entries).1;
      TriedUpToLast(o, retries, chain, i + 1, j, s.(entries := entries));
      assert (j - i + 1) * (retries + 1) == (j - i) * (retries + 1) + (retries + 1);
    }
  }

  /** Every candidate of a chain gets its turn when all fail transiently, exactly if the last model stands
      nowhere earlier in the chain. */
  lemma AllTriedIff(o: Outside, retries: nat, chain: seq<string>, s: State)
    requires chain != [] && forall n: nat :: o.provider(n).Raised? && o.provider(n).retryable
    ensures |Failover(o, retries, chain, 0, s).1.entries| == |s.entries| + |chain| * (retries + 1)
       <==> forall i :: 0 <= i < |chain| - 1 ==> chain[i] != chain[|chain| - 1]
  {
    var j := FirstOf(chain, chain[|chain| - 1]);
    TriedUpToLast(o, retries, chain, 0, j, s);
    if j < |chain| - 1 { FewerTimes(j + 1, |chain|, retries + 1); }
  }

  lemma FewerTimes(a: nat, b: nat, n: nat)
    requires a < b && n > 0
    ensures a * n < b * n
  {
  }

  lemma {:induction false} FirstOf(chain: seq<string>, model: string) returns (j: nat)
    requires model in chain
    ensures j < |chain| && chain[j] == model && forall k :: 0 <= k < j ==> chain[k] != model
  {
    if chain[0] == model {
      j := 0;
    } else {
      j := FirstOf(chain[1..], model);
      j := j + 1;
      forall k | 0 <= k < j ensures chain[k] != model { if k > 0 { assert chain[1..][k - 1] == chain[k]; } }
    }
  }

  lemma {:induction false} KnownLast(names: seq<string>, registered: set<string>)
    requires names != [] && names[|names| - 1] in registered
    ensures Known(names, registered) != []
    ensures Known(names, registered)[|Known(names, registered)| - 1] == names[|names| - 1]
  {
    if |names| > 1 { KnownLast(names[1..], registered); }
  }

  /** So a model that names itself as its last fallback has no fallbacks. */
  lemma SelfFallbackCutsChain(o: Outside, p: Policy, retries: nat, model: string, fallbacks: seq<string>, s: State)
    requires fallbacks != [] && fallbacks[|fallbacks| - 1] == model && model in o.registered
    ensures Call(o, p, retries, model, fallbacks, false, s) == Call(o, p, retries, model, [], false, s)
  {
    if AllowsModelCall(p, s.used) {
      KnownLast(fallbacks, o.registered);
      var chain := [model] + Known(fallbacks, o.registered);
      ChainCutAtLast(o, retries, chain, 0, 0, s);
      assert chain[..1] == [model] + Known([], o.registered);
    }
  }
}
