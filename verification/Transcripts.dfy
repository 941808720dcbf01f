/** The transcript of an agent's run: what each conversation adds to the one before, and why the run ended. */
module Transcripts {
  import opened AgentLoop
  import opened Types
  import opened Wrappers

  /** After the model's reply `r` the conversation goes on with the reply, and then with the answers of the tools it
      asked for, which are runs `n`, `n + 1` and so on; or, if it asked for none, with a repair prompt. */
  ghost predicate Follows(o: Oracle, r: Reply, n: nat, c: seq<Message>, c': seq<Message>) {
    && |c'| == |c| + 1 + (if r.calls == [] then 1 else |r.calls|) && c <= c'
    && c'[|c|] == Message(Assistant, r.text, r.calls, None, None)
    && (r.calls != [] ==> Carries(o, r.calls, n, c'[|c| + 1..]))
    && (r.calls == [] ==>
          !o.valid(r.text) && c'[|c| + 1] == Message(User, Some(o.repairPrompt(r.text)), [], None, None))
  }

  /** The tools run before model call `k`. */
  function RunsBefore(o: Oracle, k: nat): nat {
    if k == 0 then 0 else RunsBefore(o, k - 1) + if o.model(k - 1).None? then 0 else |o.model(k - 1).value.calls|
  }

  /** Model call `k` was given `c`, and its reply leads on to `c'`. */
  ghost predicate Linked(o: Oracle, k: nat, c: seq<Message>, c': seq<Message>) {
    o.model(k).Some? && Follows(o, o.model(k).value, RunsBefore(o, k), c, c')
  }

  /** Each conversation follows from the one before by the reply between them, and the next will from the last. */
  ghost predicate Transcript(o: Oracle, s: State) {
    && (forall k: nat :: k < |s.given| ==>
          Linked(o, k, s.given[k], Next(s, k)))
    && s.toolRuns == RunsBefore(o, |s.given|)
  }

  function Next(s: State, k: nat): seq<Message>
    requires k < |s.given|
  {
    if k + 1 < |s.given| then s.given[k + 1] else s.conversation
  }

  /** Up to the last model call of a run that is over. */
  ghost predicate Recorded(o: Oracle, given: seq<seq<Message>>) {
    forall k: nat :: k + 1 < |given| ==> Linked(o, k, given[k], given[k + 1])
  }

  /** Why a run that made `|t.given|` model calls ended as it did. */
  ghost predicate Explains(o: Oracle, p: Policy, r: Outcome, t: State, left: nat, repairs: int) {
    var last := |t.given| - 1;
    match r
    case Finished(text) => last >= 0 && o.model(last) == Some(Reply(text, [])) && o.valid(text)
    case ModelRaised => last >= 0 && o.model(last).None?
    case ToolsRaised =>
      && last >= 0 && o.model(last).Some?
      && var calls := o.model(last).value.calls;
         exists k :: 0 <= k < |calls| && o.tool(t.toolRuns + k, calls[k]).None?
    case Invalid =>
      && last >= 0 && o.model(last).Some? && o.model(last).value.calls == [] && !o.valid(o.model(last).value.text)
      && repairs <= 0
    case OutOfSteps => t.step > p.maxSteps
    case NotConverged => left == 0
  }

  /** What one iteration gives the model. */
  lemma TurnGives(o: Oracle, p: Policy, s: State)
    ensures var (r, t) := Turn(o, p, s);
      && t.step == s.step + 1
      && t.given == (if t.step <= p.maxSteps then s.given + [s.conversation] else s.given)
      && (r.None? ==> t.step <= p.maxSteps)
      && (r.Some? ==> r.value != NotConverged)
  {
  }

  lemma {:induction false} TurnExplains(o: Oracle, p: Policy, s: State)
    requires Turn(o, p, s).0.Some?
    ensures var (r, t) := Turn(o, p, s); Explains(o, p, r.value, t, 0, t.repairsLeft)
  {
    if s.step + 1 <= p.maxSteps && o.model(|s.given|).Some? {
      ToolsCarried(o, o.model(|s.given|).value.calls, s.toolRuns);
    }
  }

  /** What one iteration that goes on adds. */
  lemma {:induction false} TurnFollows(o: Oracle, p: Policy, s: State)
    requires Turn(o, p, s).0.None?
    ensures var (k, t) := (|s.given|, Turn(o, p, s).1);
      && o.model(k).Some? && Follows(o, o.model(k).value, s.toolRuns, s.conversation, t.conversation)
      && t.toolRuns == s.toolRuns + |o.model(k).value.calls|
  {
    var (reply, t) := (o.model(|s.given|).value, Turn(o, p, s).1);
    if reply.calls == [] {
      assert t.conversation
          == s.conversation + [AssistantMessage(reply.text, [])] + [UserMessage(o.repairPrompt(reply.text))];
    } else {
      AnswersFollow(o, reply, s.toolRuns, s.conversation);
    }
  }

  lemma AnswersFollow(o: Oracle, reply: Reply, n: nat, c: seq<Message>)
    requires reply.calls != [] && ToolMessages(o, reply.calls, n).Some?
    ensures var asked := c + [AssistantMessage(reply.text, reply.calls)];
      Follows(o, reply, n, c, asked + ToolMessages(o, reply.calls, n).value)
  {
    ToolsCarried(o, reply.calls, n);
    var (asked, answers) := (c + [AssistantMessage(reply.text, reply.calls)], ToolMessages(o, reply.calls, n).value);
    assert (asked + answers)[..|asked|] == asked && (asked + answers)[|asked|..] == answers;
  }

  lemma TranscriptRecorded(o: Oracle, s: State)
    requires Transcript(o, s)
    ensures Recorded(o, s.given) && Recorded(o, s.given + [s.conversation])
  {
    var given := s.given + [s.conversation];
    forall j: nat | j + 1 < |given|
      ensures Linked(o, j, given[j], given[j + 1])
      ensures j + 1 < |s.given| ==> Linked(o, j, s.given[j], s.given[j + 1])
    {
      assert Linked(o, j, s.given[j], Next(s, j));
      assert given[j] == s.given[j] && given[j + 1] == Next(s, j);
    }
  }

  lemma TranscriptOn(o: Oracle, s: State, t: State)
    requires Transcript(o, s) && t.given == s.given + [s.conversation] && o.model(|s.given|).Some?
    requires Follows(o, o.model(|s.given|).value, s.toolRuns, s.conversation, t.conversation)
    requires t.toolRuns == s.toolRuns + |o.model(|s.given|).value.calls|
    ensures Transcript(o, t)
  {
    assert Linked(o, |s.given|, s.conversation, t.conversation);
    forall j: nat | j < |t.given| ensures Linked(o, j, t.given[j], Next(t, j)) {
      if j < |s.given| { assert t.given[j] == s.given[j] && Next(t, j) == Next(s, j); }
    }
  }

  lemma {:induction false} LoopRecorded(o: Oracle, p: Policy, left: nat, s: State)
    requires Transcript(o, s)
    ensures Recorded(o, Loop(o, p, left, s).1.given)
    decreases left
  {
    TranscriptRecorded(o, s);
    if left > 0 {
      var (r, t) := Turn(o, p, s);
      TurnGives(o, p, s);
      if r.None? {
        TurnFollows(o, p, s);
        TranscriptOn(o, s, t);
        LoopRecorded(o, p, left - 1, t);
      }
    }
  }

  lemma {:induction false} LoopExplained(o: Oracle, p: Policy, left: nat, s: State)
    ensures var (r, t) := Loop(o, p, left, s);
      && s.given <= t.given
      && (|t.given| > |s.given| ==> t.given[|s.given|] == s.conversation)
      && (r == NotConverged ==> |t.given| == |s.given| + left)
      && (r != NotConverged ==> Explains(o, p, r, t, 0, t.repairsLeft))
    decreases left
  {
    if left > 0 {
      var (r, t) := Turn(o, p, s);
      TurnGives(o, p, s);
      if r.None? { LoopExplained(o, p, left - 1, t); } else { TurnExplains(o, p, s); }
    }
  }

  /** A run starts from what is stored, or else from the user's input alone; each model call is given the conversation
      before, the reply to it, and the texts of that reply's own tool runs in order, or a repair prompt; and it
      ends as its last reply says: with a valid text, an exception, no repairs left, or out of steps. */
  lemma {:induction false} RunTranscript(o: Oracle, p: Policy, requested: Option<int>, stored: seq<Message>,
                                         input: string, step: int)
    ensures var (r, t) := Run(o, p, requested, stored, input, step);
      && (t.given != [] ==>
            t.given[0] == if stored == [] then [Message(User, Some(input), [], None, None)] else stored)
      && Recorded(o, t.given)
      && (r == NotConverged ==> |t.given| == Allowance(p, requested))
      && (r != NotConverged ==> Explains(o, p, r, t, 0, t.repairsLeft))
  {
    LoopRecorded(o, p, Allowance(p, requested), Begin(p, stored, input, step));
    LoopExplained(o, p, Allowance(p, requested), Begin(p, stored, input, step));
  }

  /** How many iterations an agent has: in exploration as many as there are steps, else what it asked for, if anything,
      within the steps, and within five in STRICT mode; always at least one. */
  lemma AllowanceByMode(p: Policy, requested: Option<int>)
    ensures var n := Allowance(p, requested);
      && n >= 1 && (n > 1 ==> n <= p.maxSteps)
      && (p.mode.Exploratory? && p.maxSteps >= 1 ==> n == p.maxSteps)
      && (p.mode.Strict? ==> n <= 5)
      && (!p.mode.Exploratory? && requested.Some? && requested.value >= 1 ==> n <= requested.value)
      && (!p.mode.Exploratory? && requested.None? && 1 <= p.maxSteps <= 5 ==> n == p.maxSteps)
      && (!p.mode.Exploratory? && requested.Some? && 1 <= requested.value <= p.maxSteps && requested.value <= 5 ==>
            n == requested.value)
      && (p.mode.Standard? && requested.Some? && 1 <= requested.value <= p.maxSteps ==> n == requested.value)
  {
  }
}
