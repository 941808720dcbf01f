/** The agent's reasoning loop: what it sends to the model, and how often. */
module AgentLoop {
  import opened ContextBuilder
  import opened Types
  import opened Wrappers
  import opened Numbers

  // ------------------------------------------------------------------ conversations

  function UserMessage(text: string): Message { Message(User, Some(text), [], None, None) }

  function AssistantMessage(text: Option<string>, calls: seq<ToolCall>): Message {
    Message(Assistant, text, calls, None, None)
  }

  function ToolMessage(id: string, name: string, text: string): Message {
    Message(Tool, Some(text), [], Some(id), Some(name))
  }

  predicate Asks(m: Message) { m.role == Assistant && m.toolCalls != [] }

  predicate Answers(m: Message, call: ToolCall) {
    m.role == Tool && m.toolCallId == Some(call.id) && m.name == Some(call.name)
  }

  /** Every assistant message with tool calls is followed at once by one tool message per call, in
      call order, and there are no other tool messages. */
  predicate Shaped(c: seq<Message>)
    decreases |c|
  {
    if c == [] then true
    else if Asks(c[0]) then
      var n := |c[0].toolCalls|;
      |c| > n && (forall k :: 0 <= k < n ==> Answers(c[k + 1], c[0].toolCalls[k])) && Shaped(c[n + 1..])
    else c[0].role != Tool && Shaped(c[1..])
  }

  lemma {:induction false} ShapedAppend(a: seq<Message>, b: seq<Message>)
    requires Shaped(a) && Shaped(b)
    ensures Shaped(a + b)
    decreases |a|
  {
    if a == [] {
      assert a + b == b;
    } else {
      var n := if Asks(a[0]) then |a[0].toolCalls| else 0;
      assert (a + b)[n + 1..] == a[n + 1..] + b;
      ShapedAppend(a[n + 1..], b);
    }
  }

  /** A conversation that breaks off after a request for tools is not well shaped. */
  lemma {:induction false} UnansweredNotShaped(a: seq<Message>, m: Message)
    requires Shaped(a) && Asks(m)
    ensures !Shaped(a + [m])
    decreases |a|
  {
    if a != [] {
      var n := if Asks(a[0]) then |a[0].toolCalls| else 0;
      assert (a + [m])[n + 1..] == a[n + 1..] + [m];
      UnansweredNotShaped(a[n + 1..], m);
    }
  }

  // ------------------------------------------------------------------ the loop

  datatype Mode = Strict | Standard | Exploratory

  datatype Policy = Policy(maxSteps: int, mode: Mode, repairAttempts: int, budget: Budget)

  /** `iteration_allowance`; a missing or zero request asks for the ceiling. */
  function Allowance(p: Policy, requested: Option<int>): nat {
    var wanted := if requested.GetOr(0) == 0 then p.maxSteps else requested.value;
    var n := match p.mode
      case Exploratory => p.maxSteps
      case Strict => Min(Min(p.maxSteps, wanted), 5)
      case Standard => Min(p.maxSteps, wanted);
    AtLeastOne(n)
  }

  datatype Reply = Reply(text: Option<string>, calls: seq<ToolCall>)

  /** The outside: the sections other than the conversation that go with the n-th model call, the n-th
      model call (`None` raises), the n-th tool run (`None` raises), whether an output validates, and the
      repair prompt. */
  datatype Oracle = Oracle(
    context: nat -> seq<Section>,
    model: nat -> Option<Reply>,
    tool: (nat, ToolCall) -> Option<string>,
    valid: Option<string> -> bool,
    repairPrompt: Option<string> -> string)

  datatype Outcome = Finished(text: Option<string>) | OutOfSteps | ModelRaised | ToolsRaised | Invalid | NotConverged

  /** `saves` are the conversations the state dictionary has held, the last of them now: what a checkpoint
      taken at any moment can have copied. `given` is the conversation at each model call, around which its
      prompt is built. */
  datatype State = State(conversation: seq<Message>, saves: seq<seq<Message>>, step: int, repairsLeft: int,
                         given: seq<seq<Message>>, toolRuns: nat)

  /** The conversation is kept longest and rendered last. */
  function Conversation(c: seq<Message>): Section { Section("conversation", c, 10, 90, 1.0) }

  /** `_build_context`. */
  function ModelPrompt(o: Oracle, p: Policy, n: nat, c: seq<Message>): Option<seq<Message>> {
    Prompt(o.context(n) + [Conversation(c)], p.budget, 0.0)
  }

  /** There is always the conversation, so building never raises. */
  lemma PromptBuilt(o: Oracle, p: Policy, n: nat, c: seq<Message>)
    ensures ModelPrompt(o, p, n, c).Some?
  {
    SelectAppend(o.context(n), Conversation(c), 0.0);
    PromptTrimmed(o.context(n) + [Conversation(c)], p.budget, 0.0);
  }

  function Say(s: State, more: seq<Message>): State {
    s.(conversation := s.conversation + more, saves := s.saves + [s.conversation + more])
  }

  /** One tool message per call, in call order; `None` if any call raises. `n` is the first run's number. */
  function ToolMessages(o: Oracle, calls: seq<ToolCall>, n: nat): Option<seq<Message>> {
    if calls == [] then Some([])
    else
      var (text, rest) := (o.tool(n, calls[0]), ToolMessages(o, calls[1..], n + 1));
      if text.None? || rest.None? then None
        else Some([ToolMessage(calls[0].id, calls[0].name, text.value)] + rest.value)
  }

  /** One iteration; `None` means go on. */
  function Turn(o: Oracle, p: Policy, s: State): (Option<Outcome>, State) {
    var s0 := s.(step := s.step + 1);
    if s0.step > p.maxSteps then (Some(OutOfSteps), s0)
    else
      var reply := o.model(|s.given|);
      var s1 := s0.(given := s.given + [s.conversation]);
      if reply.None? then (Some(ModelRaised), s1)
      else
        var s2 := Say(s1, [AssistantMessage(reply.value.text, reply.value.calls)]);
        if reply.value.calls != [] then Consult(o, reply.value.calls, s2) else Conclude(o, reply.value.text, s2)
  }

  function Consult(o: Oracle, calls: seq<ToolCall>, s: State): (Option<Outcome>, State) {
    var answers := ToolMessages(o, calls, s.toolRuns);
    if answers.None? then (Some(ToolsRaised), s) else (None, Say(s, answers.value).(toolRuns := s.toolRuns + |calls|))
  }

  function Conclude(o: Oracle, text: Option<string>, s: State): (Option<Outcome>, State) {
    if o.valid(text) then (Some(Finished(text)), s)
    else if s.repairsLeft <= 0 then (Some(Invalid), s)
    else (None, Say(s.(repairsLeft := s.repairsLeft - 1), [UserMessage(o.repairPrompt(text))]))
  }

  /** The remaining `left` iterations. */
  function Loop(o: Oracle, p: Policy, left: nat, s: State): (Outcome, State) {
    if left == 0 then (NotConverged, s)
    else
      var (r, t) := Turn(o, p, s);
      if r.Some? then (r.value, t) else Loop(o, p, left - 1, t)
  }

  /** `_load_conversation`: the stored one if there is any. */
  function Opening(stored: seq<Message>, input: string): seq<Message> {
    if stored != [] then stored else [UserMessage(input)]
  }

  function Begin(p: Policy, stored: seq<Message>, input: string, step: int): State {
    State(Opening(stored, input), [stored], step, p.repairAttempts, [], 0)
  }

  /** `Agent.execute`. */
  function Run(o: Oracle, p: Policy, requested: Option<int>, stored: seq<Message>, input: string,
               step: int): (Outcome, State) {
    Loop(o, p, Allowance(p, requested), Begin(p, stored, input, step))
  }

  /** One message per call, in call order, with the text that the call returned, under its id and name. */
  ghost predicate Carries(o: Oracle, calls: seq<ToolCall>, first: nat, messages: seq<Message>) {
    && |messages| == |calls|
    && forall k :: 0 <= k < |calls| ==>
         && o.tool(first + k, calls[k]).Some?
         && messages[k] == Message(Tool, o.tool(first + k, calls[k]), [], Some(calls[k].id), Some(calls[k].name))
  }

  /** A round of tools raises exactly if one of its calls does; else every call's own text is carried back. */
  lemma {:induction false} ToolsCarried(o: Oracle, calls: seq<ToolCall>, first: nat)
    ensures ToolMessages(o, calls, first).None? <==> exists k :: 0 <= k < |calls| && o.tool(first + k, calls[k]).None?
    ensures ToolMessages(o, calls, first).Some? ==> Carries(o, calls, first, ToolMessages(o, calls, first).value)
  {
    if calls != [] {
      ToolsCarried(o, calls[1..], first + 1);
      forall k | 0 < k < |calls| ensures o.tool(first + k, calls[k]) == o.tool(first + 1 + (k - 1), calls[1..][k - 1]) {
      }
      if k :| 0 <= k < |calls[1..]| && o.tool(first + 1 + k, calls[1..][k]).None? {
        assert o.tool(first + (k + 1), calls[k + 1]).None?;
      }
    }
  }

  predicate Permutation(order: seq<nat>, n: nat) {
    |order| == n && (forall i :: 0 <= i < n ==> order[i] < n) && (forall i :: 0 <= i < n ==> i in order)
  }

  /** `_run_tools`: calls finish in any order, results are read off by call. */
  method RunTools(o: Oracle, calls: seq<ToolCall>, first: nat, order: seq<nat>) returns (messages: Option<seq<Message>>)
    requires Permutation(order, |calls|)
    ensures messages == ToolMessages(o, calls, first)
    ensures messages.None? <==> exists k :: 0 <= k < |calls| && o.tool(first + k, calls[k]).None?
    ensures messages.Some? ==> Carries(o, calls, first, messages.value)
  {
    var results: map<nat, Option<string>> := map[];
    for k := 0 to |order|
      invariant forall i :: i in results <==> i in order[..k]
      invariant forall i :: i in results ==> i < |calls| && results[i] == o.tool(first + i, calls[i])
    {
      results := results[order[k] := o.tool(first + order[k], calls[order[k]])];
    }
    assert order[..|order|] == order;
    var collected: seq<Message>, i := [], |calls|;
    assert calls[..|calls|] == calls;
    while i > 0
      invariant 0 <= i <= |calls| && ToolMessages(o, calls[i..], first + i) == Some(collected)
    {
      i := i - 1;
      assert calls[i..][1..] == calls[i + 1..];
      if results[i].None? {
        RaisesThroughout(o, calls, first, i);
        ToolsCarried(o, calls, first);
        return None;
      }
      collected := [ToolMessage(calls[i].id, calls[i].name, results[i].value)] + collected;
    }
    messages := Some(collected);
    ToolsCarried(o, calls, first);
  }

  lemma {:induction false} RaisesThroughout(o: Oracle, calls: seq<ToolCall>, first: nat, i: nat)
    requires i < |calls| && o.tool(first + i, calls[i]).None?
    ensures ToolMessages(o, calls, first).None?
  {
    if i > 0 { RaisesThroughout(o, calls[1..], first + 1, i - 1); }
  }

  /** What the n-th model call is sent. */
  method BuildContext(o: Oracle, p: Policy, n: nat, c: seq<Message>) returns (messages: seq<Message>)
    ensures ModelPrompt(o, p, n, c) == Some(messages)
  {
    PromptBuilt(o, p, n, c);
    var built := Build(o.context(n) + [Conversation(c)], p.budget, 0.0);
    messages := built.value;
  }

  class Agent {
    const oracle: Oracle
    const policy: Policy
    var now: State

    constructor (oracle: Oracle, policy: Policy, stored: seq<Message>, input: string, step: int)
      ensures this.oracle == oracle && this.policy == policy && now == Begin(policy, stored, input, step)
    {
      this.oracle, this.policy, now := oracle, policy, Begin(policy, stored, input, step);
    }

    method Append(more: seq<Message>)
      modifies this
      ensures now == Say(old(now), more)
    {
      now := now.(conversation := now.conversation + more);
      now := now.(saves := now.saves + [now.conversation]);
    }

    /** The iteration loop; `orders` says how each round's tool calls happen to finish. */
    method Execute(requested: Option<int>, orders: (nat, nat) -> seq<nat>) returns (outcome: Outcome)
      requires forall round, n :: Permutation(orders(round, n), n)
      modifies this
      ensures (outcome, now) == Loop(oracle, policy, Allowance(policy, requested), old(now))
    {
      var limit := Allowance(policy, requested);
      for iteration := 1 to limit + 1
        invariant Loop(oracle, policy, limit + 1 - iteration, now) == Loop(oracle, policy, limit, old(now))
      {
        var r := Iterate(n requires true => orders(iteration, n));
        if r.Some? { return r.value; }
      }
      outcome := NotConverged;
    }

    method Iterate(order: nat -> seq<nat>) returns (r: Option<Outcome>)
      requires forall n :: Permutation(order(n), n)
      modifies this
      ensures (r, now) == Turn(oracle, policy, old(now))
    {
      now := now.(step := now.step + 1);
      if now.step > policy.maxSteps { return Some(OutOfSteps); }
      var messages := BuildContext(oracle, policy, |now.given|, now.conversation);
      var reply := oracle.model(|now.given|);
      now := now.(given := now.given + [now.conversation]);
      if reply.None? { return Some(ModelRaised); }
      Append([AssistantMessage(reply.value.text, reply.value.calls)]);
      if reply.value.calls != [] {
        var answers := RunTools(oracle, reply.value.calls, now.toolRuns, order(|reply.value.calls|));
        if answers.None? { return Some(ToolsRaised); }
        Append(answers.value);
        now := now.(toolRuns := now.toolRuns + |reply.value.calls|);
        return None;
      }
      if oracle.valid(reply.value.text) { return Some(Finished(reply.value.text)); }
      if now.repairsLeft <= 0 { return Some(Invalid); }
      now := now.(repairsLeft := now.repairsLeft - 1);
      Append([UserMessage(oracle.repairPrompt(reply.value.text))]);
      r := None;
    }
  }

  // ------------------------------------------------------------------ what every run keeps

  lemma {:induction false} AnswersMatch(o: Oracle, calls: seq<ToolCall>, n: nat)
    requires ToolMessages(o, calls, n).Some?
    ensures var ms := ToolMessages(o, calls, n).value;
      |ms| == |calls| && forall k :: 0 <= k < |calls| ==> Answers(ms[k], calls[k])
  {
    if calls != [] { AnswersMatch(o, calls[1..], n + 1); }
  }

  lemma AnsweredShaped(c0: seq<Message>, m: Message, answers: seq<Message>)
    requires Shaped(c0) && Asks(m) && |answers| == |m.toolCalls|
    requires forall k :: 0 <= k < |answers| ==> Answers(answers[k], m.toolCalls[k])
    ensures Shaped(c0 + [m] + answers)
  {
    ExchangeAlone(m, answers);
    ShapedAppend(c0, [m] + answers);
    Regrouped(c0, [m], answers);
  }

  lemma ExchangeAlone(m: Message, answers: seq<Message>)
    requires Asks(m) && |answers| == |m.toolCalls|
    requires forall k :: 0 <= k < |answers| ==> Answers(answers[k], m.toolCalls[k])
    ensures Shaped([m] + answers)
  {
    var c, n := [m] + answers, |m.toolCalls|;
    assert c[n + 1..] == [];
    forall k | 0 <= k < n ensures Answers(c[k + 1], m.toolCalls[k]) { assert c[k + 1] == answers[k]; }
  }

  lemma ExchangeShaped(o: Oracle, c: seq<Message>, text: Option<string>, calls: seq<ToolCall>, n: nat)
    requires Shaped(c) && calls != [] && ToolMessages(o, calls, n).Some?
    ensures Shaped(c + [AssistantMessage(text, calls)] + ToolMessages(o, calls, n).value)
  {
    AnswersMatch(o, calls, n);
    AnsweredShaped(c, AssistantMessage(text, calls), ToolMessages(o, calls, n).value);
  }

  lemma TurnShaped(c: seq<Message>, m: Message)
    requires Shaped(c) && !Asks(m) && m.role != Tool
    ensures Shaped(c + [m])
  {
    assert [m][1..] == [];
    ShapedAppend(c, [m]);
  }

  /** One iteration from a well-shaped conversation. */
  lemma IterationKeeps(o: Oracle, p: Policy, s: State)
    requires Shaped(s.conversation)
    ensures var (r, t) := Turn(o, p, s);
      && t.step == s.step + 1
      && t.given == (if t.step <= p.maxSteps then s.given + [s.conversation] else s.given)
      && (t.repairsLeft == s.repairsLeft || (t.repairsLeft == s.repairsLeft - 1 >= 0))
      && (r == Some(ToolsRaised) <==> !Shaped(t.conversation))
  {
    var s1 := s.(step := s.step + 1, given := s.given + [s.conversation]);
    if s1.step <= p.maxSteps && o.model(|s.given|).Some? {
      var (text, calls) := (o.model(|s.given|).value.text, o.model(|s.given|).value.calls);
      var s2 := Say(s1, [AssistantMessage(text, calls)]);
      if calls == [] {
        TurnShaped(s.conversation, AssistantMessage(text, calls));
        TurnShaped(s2.conversation, UserMessage(o.repairPrompt(text)));
      } else if ToolMessages(o, calls, s.toolRuns).None? {
        UnansweredNotShaped(s.conversation, AssistantMessage(text, calls));
      } else {
        ExchangeShaped(o, s.conversation, text, calls, s.toolRuns);
      }
    }
  }

  /** From a well-shaped conversation: everything given is well shaped, calls and repairs are bounded,
      and what is left at the end is well shaped unless a round of tools raised. */
  lemma {:induction false} LoopKeeps(o: Oracle, p: Policy, left: nat, s: State)
    requires Shaped(s.conversation) && forall c :: c in s.given ==> Shaped(c)
    ensures var (r, t) := Loop(o, p, left, s);
      && (forall c :: c in t.given ==> Shaped(c))
      && |s.given| <= |t.given| <= |s.given| + left
      && (t.given != s.given ==> s.step + |t.given| - |s.given| <= p.maxSteps)
      && t.repairsLeft <= s.repairsLeft && (t.repairsLeft < s.repairsLeft ==> t.repairsLeft >= 0)
      && (r.ToolsRaised? <==> !Shaped(t.conversation))
    decreases left
  {
    if left > 0 {
      IterationKeeps(o, p, s);
      var (r, t) := Turn(o, p, s);
      if r.None? { LoopKeeps(o, p, left - 1, t); }
    }
  }

  /** A fresh run. */
  lemma FreshRunShaped(o: Oracle, p: Policy, requested: Option<int>, input: string, step: int)
    ensures var (r, t) := Run(o, p, requested, [], input, step);
      && (forall c :: c in t.given ==> Shaped(c))
      && |t.given| <= Allowance(p, requested)
      && (t.given != [] ==> |t.given| <= p.maxSteps - step)
      && (p.repairAttempts >= 0 ==> 0 <= p.repairAttempts - t.repairsLeft <= p.repairAttempts)
  {
    TurnShaped([], UserMessage(input));
    assert [] + [UserMessage(input)] == [UserMessage(input)];
    LoopKeeps(o, p, Allowance(p, requested), Begin(p, [], input, step));
  }

  // ------------------------------------------------------------------ resuming from a saved conversation

  /** The conversation breaks off after a request for tools. */
  predicate Unanswered(c: seq<Message>) { c != [] && Asks(c[|c| - 1]) }

  /** `later` goes on with the answers to the request that ends `c`. */
  predicate Answered(c: seq<Message>, later: seq<Message>)
    requires Unanswered(c)
  {
    var calls := c[|c| - 1].toolCalls;
    && c <= later && |later| == |c| + |calls|
    && forall k :: 0 <= k < |calls| ==> Answers(later[|c| + k], calls[k])
  }

  lemma {:induction false} ShapedIsAnswered(c: seq<Message>)
    requires Shaped(c)
    ensures !Unanswered(c)
    decreases |c|
  {
    if c != [] {
      var n := if Asks(c[0]) then |c[0].toolCalls| else 0;
      ShapedIsAnswered(c[n + 1..]);
      if |c| == n + 1 && n > 0 { assert Answers(c[n], c[0].toolCalls[n - 1]); }
    }
  }

  /** Everything that was saved is well shaped, or breaks off after a request whose answers, if any, were
      saved next. */
  ghost predicate Orderly(s: State) {
    && s.saves != []
    && (forall k :: 0 <= k < |s.saves| ==> (Shaped(s.saves[k]) <==> !Unanswered(s.saves[k])))
    && (forall k :: 0 <= k < |s.saves| - 1 && Unanswered(s.saves[k]) ==> Answered(s.saves[k], s.saves[k + 1]))
    && (Unanswered(s.saves[|s.saves| - 1]) ==> s.conversation == s.saves[|s.saves| - 1])
  }

  /** Saving a well-shaped conversation, after another or after the request it answers. */
  lemma SayOrderly(s: State, more: seq<Message>)
    requires Orderly(s)
    requires var c := s.conversation + more;
      (Shaped(c) || (Unanswered(c) && !Shaped(c)))
      && (Unanswered(s.saves[|s.saves| - 1]) ==> Answered(s.conversation, c))
    ensures Orderly(Say(s, more))
  {
    if Shaped(s.conversation + more) { ShapedIsAnswered(s.conversation + more); }
    var t := Say(s, more);
    forall k | 0 <= k < |t.saves| - 1 && Unanswered(t.saves[k]) ensures Answered(t.saves[k], t.saves[k + 1]) {
      assert t.saves[k] == s.saves[k];
    }
  }

  ghost predicate Ready(s: State) { Shaped(s.conversation) && Orderly(s) && !Unanswered(s.saves[|s.saves| - 1]) }

  /** What holds after an outcome, or when there is none yet. */
  ghost predicate Saved(r: Option<Outcome>, t: State) {
    && Orderly(t) && (r == Some(ToolsRaised) <==> Unanswered(t.saves[|t.saves| - 1]))
    && (r.None? ==> Ready(t))
  }

  lemma {:induction false} ReplySaved(s: State, text: Option<string>, calls: seq<ToolCall>)
    requires Ready(s)
    ensures var t := Say(s, [AssistantMessage(text, calls)]);
      Orderly(t) && t.saves[|t.saves| - 1] == t.conversation && (calls == [] ==> Ready(t))
  {
    var reply := AssistantMessage(text, calls);
    if calls == [] {
      TurnShaped(s.conversation, reply);
      ShapedIsAnswered(s.conversation + [reply]);
    } else {
      UnansweredNotShaped(s.conversation, reply);
    }
    SayOrderly(s, [reply]);
  }

  /** The reply, and what follows it. */
  lemma {:induction false} ReplySaves(o: Oracle, text: Option<string>, calls: seq<ToolCall>, s: State)
    requires Ready(s)
    ensures var t := Say(s, [AssistantMessage(text, calls)]);
      var (r, u) := if calls != [] then Consult(o, calls, t) else Conclude(o, text, t);
      Saved(r, u)
  {
    var t := Say(s, [AssistantMessage(text, calls)]);
    ReplySaved(s, text, calls);
    if calls == [] { ConcludeSaves(o, text, t); } else { ConsultSaves(o, s.conversation, text, calls, t); }
  }

  /** One iteration, again. */
  lemma {:induction false} IterationSaves(o: Oracle, p: Policy, s: State)
    requires Ready(s)
    ensures var (r, t) := Turn(o, p, s); Saved(r, t)
  {
    var s1 := s.(step := s.step + 1, given := s.given + [s.conversation]);
    assert Ready(s1) && Ready(s.(step := s.step + 1));
    if s1.step <= p.maxSteps && o.model(|s.given|).Some? {
      ReplySaves(o, o.model(|s.given|).value.text, o.model(|s.given|).value.calls, s1);
    }
  }

  lemma {:induction false} ConcludeSaves(o: Oracle, text: Option<string>, s: State)
    requires Ready(s)
    ensures var (r, t) := Conclude(o, text, s); Saved(r, t)
  {
    var again := UserMessage(o.repairPrompt(text));
    TurnShaped(s.conversation, again);
    ShapedIsAnswered(s.conversation + [again]);
    SayOrderly(s.(repairsLeft := s.repairsLeft - 1), [again]);
  }

  lemma {:induction false} ConsultSaves(o: Oracle, c: seq<Message>, text: Option<string>, calls: seq<ToolCall>,
                                        s: State)
    requires Shaped(c) && Orderly(s) && calls != [] && s.conversation == c + [AssistantMessage(text, calls)]
    requires s.saves[|s.saves| - 1] == s.conversation
    ensures var (r, t) := Consult(o, calls, s); Saved(r, t)
  {
    var answers := ToolMessages(o, calls, s.toolRuns);
    if answers.Some? {
      AnswersMatch(o, calls, s.toolRuns);
      ExchangeShaped(o, c, text, calls, s.toolRuns);
      ShapedIsAnswered(s.conversation + answers.value);
      SayOrderly(s, answers.value);
    }
  }

  lemma {:induction false} LoopSaves(o: Oracle, p: Policy, left: nat, s: State)
    requires Ready(s)
    ensures var (r, t) := Loop(o, p, left, s); Saved(Some(r), t)
    decreases left
  {
    if left > 0 {
      var (r, t) := Turn(o, p, s);
      IterationSaves(o, p, s);
      if r.None? { LoopSaves(o, p, left - 1, t); }
    }
  }

  /** The log of what was given only grows. */
  lemma {:induction false} LoopGives(o: Oracle, p: Policy, left: nat, s: State)
    ensures s.given <= Loop(o, p, left, s).1.given
    decreases left
  {
    if left > 0 {
      var (r, t) := Turn(o, p, s);
      if r.None? { LoopGives(o, p, left - 1, t); }
    }
  }

  lemma FirstGiven(o: Oracle, p: Policy, left: nat, s: State)
    requires left > 0 && s.step < p.maxSteps && s.given == []
    ensures var t := Loop(o, p, left, s).1; t.given != [] && t.given[0] == s.conversation
  {
    var (r, t) := Turn(o, p, s);
    assert t.given == [s.conversation];
    if r.None? { LoopGives(o, p, left - 1, t); }
  }

  lemma OpeningShaped(stored: seq<Message>, input: string)
    requires Shaped(stored)
    ensures Shaped(Opening(stored, input)) && !Unanswered(stored)
  {
    TurnShaped([], UserMessage(input));
    assert [] + [UserMessage(input)] == [UserMessage(input)];
    ShapedIsAnswered(stored);
  }

  /** A copy of the dictionary taken at any moment of a run, by a checkpoint of its own node or of a sibling,
      has one of the conversations it has held. A resumed run first goes on from the copy, and that is badly
      shaped exactly if the copy was taken after a request was saved and before its answers were: what the
      run saved next, if anything, are the answers. */
  lemma ResumeFromCopy(o: Oracle, p: Policy, requested: Option<int>, stored: seq<Message>, input: string, step: int,
                       k: nat, o2: Oracle, p2: Policy, step2: int)
    requires Shaped(stored) && step2 < p2.maxSteps
    requires k < |Run(o, p, requested, stored, input, step).1.saves|
    ensures var saves := Run(o, p, requested, stored, input, step).1.saves;
      var t2 := Run(o2, p2, requested, saves[k], input, step2).1;
      && t2.given != [] && t2.given[0] == Opening(saves[k], input)
      && (Shaped(t2.given[0]) <==> !Unanswered(saves[k]))
      && (Unanswered(saves[k]) && k + 1 < |saves| ==> Answered(saves[k], saves[k + 1]))
  {
    OpeningShaped(stored, input);
    var t := Run(o, p, requested, stored, input, step).1;
    LoopSaves(o, p, Allowance(p, requested), Begin(p, stored, input, step));
    FirstGiven(o2, p2, Allowance(p2, requested), Begin(p2, t.saves[k], input, step2));
    if t.saves[k] == [] { OpeningShaped([], input); }
  }

  /** So at the end of a run it is a raising round of tools that leaves a request unanswered, and nothing
      else. */
  lemma ResumeAfterToolsRaised(o: Oracle, p: Policy, requested: Option<int>, stored: seq<Message>, input: string,
                               step: int, o2: Oracle, p2: Policy, step2: int)
    requires Shaped(stored) && step2 < p2.maxSteps
    ensures var (r, t) := Run(o, p, requested, stored, input, step);
      t.saves != [] &&
      var t2 := Run(o2, p2, requested, t.saves[|t.saves| - 1], input, step2).1;
      t2.given != [] && (Shaped(t2.given[0]) <==> !r.ToolsRaised?)
  {
    OpeningShaped(stored, input);
    var t := Run(o, p, requested, stored, input, step).1;
    LoopSaves(o, p, Allowance(p, requested), Begin(p, stored, input, step));
    ResumeFromCopy(o, p, requested, stored, input, step, |t.saves| - 1, o2, p2, step2);
  }

  /** While the tools of a request run, that request is what the dictionary holds: a sibling's checkpoint
      copies it, although no round of tools has raised or ever does. */
  lemma CopyDuringTools(o: Oracle, p: Policy, requested: Option<int>, input: string, step: int)
    requires step < p.maxSteps && o.model(0).Some? && o.model(0).value.calls != []
    ensures var saves := Run(o, p, requested, [], input, step).1.saves; |saves| > 1 && Unanswered(saves[1])
  {
    var s := Begin(p, [], input, step);
    var (r, t) := Turn(o, p, s);
    var request := AssistantMessage(o.model(0).value.text, o.model(0).value.calls);
    assert t.saves[1] == [UserMessage(input)] + [request];
    if r.None? { LoopKeepsSaves(o, p, Allowance(p, requested) - 1, t); }
  }

  lemma {:induction false} LoopKeepsSaves(o: Oracle, p: Policy, left: nat, s: State)
    ensures s.saves <= Loop(o, p, left, s).1.saves
    decreases left
  {
    if left > 0 {
      var (r, t) := Turn(o, p, s);
      if r.None? { LoopKeepsSaves(o, p, left - 1, t); }
    }
  }
}
