/** The context builder with a summariser, which is the default: of a conversation that does not fit, the newest
    messages stay, and a summary stands for the others. */
module SummarisedContext {
  import opened Types
  import opened Wrappers
  import opened Numbers
  import opened ContextBuilder
  import opened ContextLaws
  import opened AgentLoop
  import opened AgentPrompts

  /** `text` is what the summariser makes of the old messages within a number of tokens. `recent` and `share` are
      the parts of a cap for the newest messages, 0.7, and for the summary, 0.3, as floating point has them. */
  datatype Summariser = Summariser(text: (seq<Message>, nat) -> string, recent: nat -> nat, share: nat -> nat)

  ghost predicate Sensible(sum: Summariser) { forall cap :: sum.recent(cap) <= cap }

  // ------------------------------------------------------------------ one conversation

  /** Where the newest messages begin: after the last one that does not fit beside those behind it. */
  function KeptFrom(messages: seq<Message>, room: nat): (i: nat)
    ensures i <= |messages|
  {
    if messages == [] then 0
    else
      var (last, earlier) := (messages[|messages| - 1], messages[..|messages| - 1]);
      if MessageTokens(last) > room then |messages| else KeptFrom(earlier, room - MessageTokens(last))
  }

  function Note(sum: Summariser, earlier: seq<Message>, cap: nat): Message {
    Message(System, Some("[summary] " + sum.text(earlier, sum.share(cap))), [], None, None)
  }

  /** From `i` on the messages fit, from one earlier on they do not. */
  predicate StartsAt(messages: seq<Message>, room: nat, i: nat) {
    i <= |messages| && Tokens(messages[i..]) <= room && (i > 0 ==> Tokens(messages[i - 1..]) > room)
  }

  lemma StartExtends(earlier: seq<Message>, last: Message, room: nat, i: nat)
    requires MessageTokens(last) <= room && StartsAt(earlier, room - MessageTokens(last), i)
    ensures StartsAt(earlier + [last], room, i) && (earlier + [last])[i..] == earlier[i..] + [last]
  {
    assert (earlier + [last])[i..] == earlier[i..] + [last];
    TokensAppend(earlier[i..], last);
    if i > 0 {
      assert (earlier + [last])[i - 1..] == earlier[i - 1..] + [last];
      TokensAppend(earlier[i - 1..], last);
    }
  }

  /** The newest messages are the longest end that fits. */
  lemma {:induction false} KeptFromStarts(messages: seq<Message>, room: nat)
    ensures StartsAt(messages, room, KeptFrom(messages, room))
  {
    if messages != [] {
      var (last, earlier) := (messages[|messages| - 1], messages[..|messages| - 1]);
      if MessageTokens(last) > room {
        assert messages[|messages| - 1..] == [] + [last];
        TokensAppend([], last);
      } else {
        KeptFromStarts(earlier, room - MessageTokens(last));
        StartExtends(earlier, last, room, KeptFrom(earlier, room - MessageTokens(last)));
        assert messages == earlier + [last];
      }
    }
  }

  lemma {:induction false} LongerCostsMore(messages: seq<Message>, i: nat, j: nat)
    requires i <= j <= |messages|
    ensures Tokens(messages[i..]) >= Tokens(messages[j..])
    decreases |messages|
  {
    if messages != [] && j < |messages| {
      var n := |messages| - 1;
      LongerCostsMore(messages[..n], i, j);
      assert messages[i..][..|messages[i..]| - 1] == messages[..n][i..];
      assert messages[j..][..|messages[j..]| - 1] == messages[..n][j..];
    }
  }

  /** There is only one such place. */
  lemma KeptFromIs(messages: seq<Message>, room: nat, i: nat)
    requires StartsAt(messages, room, i)
    ensures KeptFrom(messages, room) == i
  {
    var j := KeptFrom(messages, room);
    KeptFromStarts(messages, room);
    if j < i { LongerCostsMore(messages, j, i - 1); }
    if i < j { LongerCostsMore(messages, i, j - 1); }
  }

  /** The summarising branch of `_shrink`. */
  function Condensed(sum: Summariser, messages: seq<Message>, cap: nat): seq<Message> {
    var i := KeptFrom(messages, sum.recent(cap));
    if i == 0 then messages else [Note(sum, messages[..i], cap)] + messages[i..]
  }

  /** With its loop from the last message backwards, which stops at the first that does not fit. */
  method Condense(sum: Summariser, messages: seq<Message>, cap: nat) returns (out: seq<Message>)
    ensures out == Condensed(sum, messages, cap)
  {
    var kept: seq<Message>, tokens, i := [], 0, |messages|;
    var room := sum.recent(cap);
    assert messages[..|messages|] == messages;
    while i > 0
      invariant 0 <= i <= |messages| && 0 <= tokens <= room && kept == messages[i..]
      invariant KeptFrom(messages, room) == KeptFrom(messages[..i], room - tokens)
    {
      var cost := MessageTokens(messages[i - 1]);
      assert messages[..i][..i - 1] == messages[..i - 1];
      if tokens + cost > room { break; }
      kept, tokens, i := [messages[i - 1]] + kept, tokens + cost, i - 1;
    }
    assert i == KeptFrom(messages, room);
    var earlier := messages[..|messages| - |kept|];
    out := if earlier == [] then kept else [Note(sum, earlier, cap)] + kept;
  }

  /** What a cap makes of a conversation: all of it if it fits its part, else a summary and the longest end that
      does; and that fits the cap exactly if the summary fits beside the end. */
  lemma CondensedLaw(sum: Summariser, messages: seq<Message>, cap: nat) returns (i: nat)
    requires Sensible(sum)
    ensures StartsAt(messages, sum.recent(cap), i)
    ensures i == 0 ==> Condensed(sum, messages, cap) == messages
    ensures i > 0 ==>
      var summary := "[summary] " + sum.text(messages[..i], sum.share(cap));
      Condensed(sum, messages, cap) == [Message(System, Some(summary), [], None, None)] + messages[i..]
    ensures Tokens(Condensed(sum, messages, cap)) <= cap
       <==> i == 0 || MessageTokens(Note(sum, messages[..i], cap)) <= cap - Tokens(messages[i..])
  {
    i := KeptFrom(messages, sum.recent(cap));
    KeptFromStarts(messages, sum.recent(cap));
    assert messages[0..] == messages;
    if i > 0 { FirstCosts(Note(sum, messages[..i], cap), messages[i..]); }
  }

  lemma {:induction false} FirstCosts(m: Message, rest: seq<Message>)
    ensures Tokens([m] + rest) == MessageTokens(m) + Tokens(rest)
  {
    if rest == [] {
      assert [m] + rest == [m] && [m][..0] == [];
    } else {
      FirstCosts(m, rest[..|rest| - 1]);
      assert ([m] + rest)[..|rest|] == [m] + rest[..|rest| - 1];
    }
  }

  // ------------------------------------------------------------------ the global loop

  /** `_shrink` of any section. */
  function ShrunkWith(sum: Summariser, s: Section, cap: int): seq<Message> {
    if cap > 0 && s.name == "conversation" then Condensed(sum, s.messages, cap) else Shrunk(s, cap)
  }

  /** The loop goes on. */
  predicate Over(sections: seq<Section>, overall: int) {
    Excessive(sections, overall) && sections[Top(sections)].priority != 0
  }

  /** Section `v` is cut to `target`, and goes if nothing is left of it. */
  function CutAt(sum: Summariser, sections: seq<Section>, v: nat, target: int): seq<Section>
    requires v < |sections|
  {
    var kept := ShrunkWith(sum, sections[v], target);
    if Tokens(kept) == 0 then TakenOut(sections, v) else sections[v := sections[v].(messages := kept)]
  }

  function Round(sum: Summariser, sections: seq<Section>, overall: int): seq<Section>
    requires Over(sections, overall)
  {
    CutAt(sum, sections, Top(sections), Target(sections, overall))
  }

  method CutTopWith(sum: Summariser, sections: seq<Section>, overall: int) returns (rest: seq<Section>)
    requires Over(sections, overall)
    ensures rest == Round(sum, sections, overall)
  {
    var v := Top(sections);
    var (s, target) := (sections[v], Target(sections, overall));
    var kept;
    if target > 0 && s.name == "conversation" {
      kept := Condense(sum, s.messages, target);
    } else {
      kept := Shrink(s, target);
    }
    rest := sections[v := s.(messages := kept)];
    if Tokens(kept) == 0 { rest := TakenOut(sections, v); }
  }

  /** The sections after `n` rounds, or fewer if the loop stops before. */
  function After(sum: Summariser, sections: seq<Section>, overall: int, n: nat): seq<Section>
    decreases n
  {
    if n == 0 || !Over(sections, overall) then sections else After(sum, Round(sum, sections, overall), overall, n - 1)
  }

  /** The loop stops within `n` rounds. */
  predicate EndsBy(sum: Summariser, sections: seq<Section>, overall: int, n: nat)
    decreases n
  {
    !Over(sections, overall) || (n > 0 && EndsBy(sum, Round(sum, sections, overall), overall, n - 1))
  }

  ghost predicate Ends(sum: Summariser, sections: seq<Section>, overall: int) {
    exists n: nat :: EndsBy(sum, sections, overall, n)
  }

  lemma EndsStep(sum: Summariser, sections: seq<Section>, overall: int)
    requires Over(sections, overall)
    ensures Ends(sum, sections, overall) <==> Ends(sum, Round(sum, sections, overall), overall)
  {
    var rest := Round(sum, sections, overall);
    if n: nat :| EndsBy(sum, sections, overall, n) {
      assert n > 0;
      assert EndsBy(sum, rest, overall, n - 1);
    }
    if n: nat :| EndsBy(sum, rest, overall, n) {
      assert EndsBy(sum, sections, overall, n + 1);
    }
  }

  lemma EndsWhen(sum: Summariser, sections: seq<Section>, overall: int) returns (n: nat)
    requires Ends(sum, sections, overall)
    ensures EndsBy(sum, sections, overall, n)
  {
    n :| EndsBy(sum, sections, overall, n);
  }

  lemma EndsAt(sum: Summariser, sections: seq<Section>, overall: int, n: nat)
    requires EndsBy(sum, sections, overall, n)
    ensures Ends(sum, sections, overall)
  {
  }

  lemma EndsNow(sum: Summariser, sections: seq<Section>, overall: int)
    requires !Over(sections, overall)
    ensures Ends(sum, sections, overall)
  {
    assert EndsBy(sum, sections, overall, 0);
  }

  /** A round in which the conversation is not the victim is one without a summariser. */
  lemma RoundElsewhere(sum: Summariser, sections: seq<Section>, overall: int)
    requires Over(sections, overall) && sections[Top(sections)].name != "conversation"
    ensures Round(sum, sections, overall) == CutDown(sections, overall)
    ensures Total(Round(sum, sections, overall)) < Total(sections)
  {
    CutDownFalls(sections, overall);
  }

  ghost predicate NoConversation(sections: seq<Section>) { forall x :: x in sections ==> x.name != "conversation" }

  lemma {:induction false} OthersEnd(sum: Summariser, others: seq<Section>, overall: int)
    requires NoConversation(others)
    ensures Ends(sum, others, overall)
    decreases Total(others)
  {
    if Over(others, overall) {
      RoundElsewhere(sum, others, overall);
      var rest := Round(sum, others, overall);
      assert forall x :: x in rest ==> x in others || x.name == others[Top(others)].name;
      OthersEnd(sum, rest, overall);
      EndsStep(sum, others, overall);
    } else {
      EndsNow(sum, others, overall);
    }
  }

  // ------------------------------------------------------------------ when it ends

  /** Sections that have to stay longer than the conversation. */
  predicate StayLonger(others: seq<Section>) { forall x :: x in others ==> x.priority < 10 }

  function Beside(others: seq<Section>, m: seq<Message>): (sections: seq<Section>)
    ensures sections != []
  {
    others + [Conversation(m)]
  }

  /** Beside such sections, the conversation is the victim of every round. */
  lemma ConversationOnTop(others: seq<Section>, m: seq<Message>)
    requires StayLonger(others)
    ensures Top(Beside(others, m)) == |others|
  {
    var sections := Beside(others, m);
    assert sections[|others|] == Conversation(m);
    assert forall i :: 0 <= i < |others| ==> sections[i] == others[i] && others[i] in others;
  }

  lemma TotalWith(others: seq<Section>, m: seq<Message>)
    ensures Total(Beside(others, m)) == Total(others) + Tokens(m)
  {
    TotalAppend(others, [Conversation(m)]);
    assert [Conversation(m)][1..] == [];
  }

  lemma OverWith(others: seq<Section>, m: seq<Message>, overall: int)
    requires StayLonger(others)
    ensures Over(Beside(others, m), overall) <==> m != [] && Total(others) + Tokens(m) > overall
    ensures Over(Beside(others, m), overall) ==>
      Target(Beside(others, m), overall) == Max(0, overall - Total(others))
  {
    ConversationOnTop(others, m);
    TotalWith(others, m);
  }

  /** Without room the conversation goes. */
  lemma ConversationGoes(sum: Summariser, others: seq<Section>, m: seq<Message>)
    ensures CutAt(sum, Beside(others, m), |others|, 0) == others
  {
    assert Beside(others, m)[|others|] == Conversation(m) && TakenOut(Beside(others, m), |others|) == others;
  }

  /** With room it is condensed. */
  lemma ConversationCut(sum: Summariser, others: seq<Section>, m: seq<Message>, cap: nat)
    requires cap > 0 && m != []
    ensures CutAt(sum, Beside(others, m), |others|, cap) == Beside(others, Condensed(sum, m, cap))
  {
    var (sections, kept) := (Beside(others, m), Condensed(sum, m, cap));
    assert sections[|others|] == Conversation(m) && sections[|others| := Conversation(kept)] == Beside(others, kept);
    SomeTokens(kept);
  }

  /** The conversation is the victim, and may keep what the other sections leave. */
  lemma VictimIs(others: seq<Section>, m: seq<Message>, overall: int)
    requires StayLonger(others) && Over(Beside(others, m), overall)
    ensures Top(Beside(others, m)) == |others| && m != []
    ensures Target(Beside(others, m), overall) == Max(0, overall - Total(others))
  {
    OverWith(others, m, overall);
    ConversationOnTop(others, m);
  }

  lemma RoundTo(sum: Summariser, sections: seq<Section>, overall: int, v: nat, target: nat, rest: seq<Section>)
    requires Over(sections, overall) && v == Top(sections) && target == Target(sections, overall)
    requires rest == CutAt(sum, sections, v, target)
    ensures Round(sum, sections, overall) == rest
  {
  }

  lemma RoundWithout(sum: Summariser, others: seq<Section>, m: seq<Message>, overall: int)
    requires StayLonger(others) && Over(Beside(others, m), overall) && overall <= Total(others)
    ensures Round(sum, Beside(others, m), overall) == others
  {
    VictimIs(others, m, overall);
    ConversationGoes(sum, others, m);
    RoundTo(sum, Beside(others, m), overall, |others|, 0, others);
  }

  lemma RoundWith(sum: Summariser, others: seq<Section>, m: seq<Message>, cap: nat)
    requires StayLonger(others) && cap > 0 && Over(Beside(others, m), Total(others) + cap)
    ensures Round(sum, Beside(others, m), Total(others) + cap) == Beside(others, Condensed(sum, m, cap))
  {
    VictimIs(others, m, Total(others) + cap);
    ConversationCut(sum, others, m, cap);
    RoundTo(sum, Beside(others, m), Total(others) + cap, |others|, cap, Beside(others, Condensed(sum, m, cap)));
  }

  /** The conversation, cut to `cap` again and again, fits after at most `n` times. */
  predicate Settles(sum: Summariser, m: seq<Message>, cap: nat, n: nat)
    decreases n
  {
    Tokens(m) <= cap || (n > 0 && Settles(sum, Condensed(sum, m, cap), cap, n - 1))
  }

  lemma OverIff(others: seq<Section>, m: seq<Message>, cap: nat)
    requires StayLonger(others) && cap > 0
    ensures Over(Beside(others, m), Total(others) + cap) <==> Tokens(m) > cap
  {
    OverWith(others, m, Total(others) + cap);
  }

  lemma {:induction false} EndsAsItSettles(sum: Summariser, others: seq<Section>, m: seq<Message>, cap: nat, n: nat)
    requires StayLonger(others) && cap > 0
    ensures EndsBy(sum, Beside(others, m), Total(others) + cap, n) <==> Settles(sum, m, cap, n)
    decreases n
  {
    OverIff(others, m, cap);
    if Tokens(m) > cap && n > 0 {
      RoundWith(sum, others, m, cap);
      EndsAsItSettles(sum, others, Condensed(sum, m, cap), cap, n - 1);
    }
  }

  // ------------------------------------------------------------------ summaries of summaries

  /** The summary of the earlier messages, or after `k` more rounds of the summary before. */
  function Digest(sum: Summariser, earlier: seq<Message>, cap: nat, k: nat): Message {
    Note(sum, if k == 0 then earlier else [Digest(sum, earlier, cap, k - 1)], cap)
  }

  /** A summary before an end that fits: with the next round it is summarised itself. */
  lemma CondensedAgain(sum: Summariser, note: Message, kept: seq<Message>, cap: nat)
    requires Sensible(sum) && Tokens(kept) <= sum.recent(cap) && MessageTokens(note) + Tokens(kept) > cap
    ensures Condensed(sum, [note] + kept, cap) == [Note(sum, [note], cap)] + kept
  {
    var m := [note] + kept;
    FirstCosts(note, kept);
    assert m[1..] == kept && m[0..] == m && m[..1] == [note];
    KeptFromIs(m, sum.recent(cap), 1);
  }

  /** The summary of round `k` fits beside the end that is kept. */
  predicate DigestFits(sum: Summariser, earlier: seq<Message>, kept: seq<Message>, cap: nat, k: nat) {
    MessageTokens(Digest(sum, earlier, cap, k)) + Tokens(kept) <= cap
  }

  lemma DigestStep(sum: Summariser, earlier: seq<Message>, kept: seq<Message>, cap: nat, k: nat, n: nat)
    requires Sensible(sum) && Tokens(kept) <= sum.recent(cap)
    ensures Settles(sum, [Digest(sum, earlier, cap, k)] + kept, cap, n) <==>
      || DigestFits(sum, earlier, kept, cap, k)
      || (n > 0 && Settles(sum, [Digest(sum, earlier, cap, k + 1)] + kept, cap, n - 1))
  {
    var note := Digest(sum, earlier, cap, k);
    FirstCosts(note, kept);
    if !DigestFits(sum, earlier, kept, cap, k) {
      CondensedAgain(sum, note, kept, cap);
      assert Digest(sum, earlier, cap, k + 1) == Note(sum, [note], cap);
    }
  }

  /** One of the summaries of the rounds from `k` to `k + n` does. */
  ghost predicate FitsWithin(sum: Summariser, earlier: seq<Message>, kept: seq<Message>, cap: nat, k: nat, n: nat) {
    exists j :: k <= j <= k + n && DigestFits(sum, earlier, kept, cap, j)
  }

  lemma FitsWithinStep(sum: Summariser, earlier: seq<Message>, kept: seq<Message>, cap: nat, k: nat, n: nat)
    ensures FitsWithin(sum, earlier, kept, cap, k, n) <==>
      DigestFits(sum, earlier, kept, cap, k) || (n > 0 && FitsWithin(sum, earlier, kept, cap, k + 1, n - 1))
  {
  }

  lemma {:induction false} DigestSettles(sum: Summariser, earlier: seq<Message>, kept: seq<Message>, cap: nat, k: nat,
                                         n: nat)
    requires Sensible(sum) && Tokens(kept) <= sum.recent(cap)
    ensures Settles(sum, [Digest(sum, earlier, cap, k)] + kept, cap, n) <==> FitsWithin(sum, earlier, kept, cap, k, n)
    decreases n
  {
    DigestStep(sum, earlier, kept, cap, k, n);
    FitsWithinStep(sum, earlier, kept, cap, k, n);
    if n > 0 { DigestSettles(sum, earlier, kept, cap, k + 1, n - 1); }
  }

  ghost predicate SomeDigestFits(sum: Summariser, earlier: seq<Message>, kept: seq<Message>, cap: nat) {
    exists k: nat :: DigestFits(sum, earlier, kept, cap, k)
  }

  lemma SettlesIfFits(sum: Summariser, m: seq<Message>, cap: nat, i: nat, n: nat)
    requires Sensible(sum) && StartsAt(m, sum.recent(cap), i) && Tokens(m) > cap && Settles(sum, m, cap, n)
    ensures SomeDigestFits(sum, m[..i], m[i..], cap)
  {
    TooLong(sum, m, cap, i);
    assert Settles(sum, Condensed(sum, m, cap), cap, n - 1);
    DigestSettles(sum, m[..i], m[i..], cap, 0, n - 1);
  }

  lemma FitsIfSettles(sum: Summariser, m: seq<Message>, cap: nat, i: nat, k: nat)
    requires Sensible(sum) && StartsAt(m, sum.recent(cap), i) && Tokens(m) > cap
    requires DigestFits(sum, m[..i], m[i..], cap, k)
    ensures Settles(sum, m, cap, k + 1)
  {
    TooLong(sum, m, cap, i);
    DigestSettles(sum, m[..i], m[i..], cap, 0, k);
  }

  lemma TooLong(sum: Summariser, m: seq<Message>, cap: nat, i: nat)
    requires Sensible(sum) && StartsAt(m, sum.recent(cap), i) && Tokens(m) > cap
    ensures Condensed(sum, m, cap) == [Digest(sum, m[..i], cap, 0)] + m[i..]
  {
    KeptFromIs(m, sum.recent(cap), i);
    assert m[0..] == m;
  }

  // ------------------------------------------------------------------ when `build` returns

  /** One of the summaries made on the way fits beside the newest messages. */
  ghost predicate SummaryFits(sum: Summariser, m: seq<Message>, cap: nat) {
    var i := KeptFrom(m, sum.recent(cap));
    SomeDigestFits(sum, m[..i], m[i..], cap)
  }

  /** It fits some time. */
  ghost predicate SettlesAtLast(sum: Summariser, m: seq<Message>, cap: nat) {
    exists n: nat :: Settles(sum, m, cap, n)
  }

  /** A conversation that is cut to `cap` again and again until it fits: it ever does exactly if it fits, or one of the
      summaries made on the way fits beside the end that is kept. */
  lemma SettlesIff(sum: Summariser, m: seq<Message>, cap: nat)
    requires Sensible(sum)
    ensures SettlesAtLast(sum, m, cap) <==> Tokens(m) <= cap || SummaryFits(sum, m, cap)
  {
    var i := KeptFrom(m, sum.recent(cap));
    KeptFromStarts(m, sum.recent(cap));
    if Tokens(m) <= cap {
      assert Settles(sum, m, cap, 0);
    } else {
      if n: nat :| Settles(sum, m, cap, n) { SettlesIfFits(sum, m, cap, i, n); }
      if k: nat :| DigestFits(sum, m[..i], m[i..], cap, k) { FitsIfSettles(sum, m, cap, i, k); }
    }
  }

  lemma EndsIffSettles(sum: Summariser, others: seq<Section>, m: seq<Message>, cap: nat)
    requires StayLonger(others) && cap > 0
    ensures Ends(sum, Beside(others, m), Total(others) + cap) <==> SettlesAtLast(sum, m, cap)
  {
    if Ends(sum, Beside(others, m), Total(others) + cap) {
      var n := EndsWhen(sum, Beside(others, m), Total(others) + cap);
      EndsAsItSettles(sum, others, m, cap, n);
    } else if SettlesAtLast(sum, m, cap) {
      var n: nat :| Settles(sum, m, cap, n);
      EndsAsItSettles(sum, others, m, cap, n);
      EndsAt(sum, Beside(others, m), Total(others) + cap, n);
    }
  }

  /** Where only the conversation may be cut, to the tokens that the other sections leave: the loop ends exactly if
      the conversation fits, or one of the summaries made on the way fits beside the end that is kept. */
  lemma LastLoopEndsIff(sum: Summariser, others: seq<Section>, m: seq<Message>, cap: nat)
    requires Sensible(sum) && StayLonger(others) && cap > 0
    ensures Ends(sum, Beside(others, m), Total(others) + cap) <==> Tokens(m) <= cap || SummaryFits(sum, m, cap)
  {
    SettlesIff(sum, m, cap);
    EndsIffSettles(sum, others, m, cap);
  }

  /** Sections besides the conversation, none of its name or priority. */
  ghost predicate Besides(others: seq<Section>) {
    forall x :: x in others ==> x.name != "conversation" && x.priority != 10
  }

  lemma OthersStay(others: seq<Section>, m: seq<Message>)
    requires Besides(others) && Top(Beside(others, m)) == |others|
    ensures StayLonger(others)
  {
    var sections := Beside(others, m);
    assert sections[|others|] == Conversation(m);
    forall x | x in others ensures x.priority < 10 {
      var i :| 0 <= i < |others| && others[i] == x;
      assert Above(sections[|others|], sections[i]);
    }
  }

  /** The conversation is the victim and is left nothing. */
  lemma VictimGoes(sum: Summariser, others: seq<Section>, m: seq<Message>, overall: int)
    requires Besides(others) && StayLonger(others) && Over(Beside(others, m), overall) && overall <= Total(others)
    ensures Ends(sum, Beside(others, m), overall)
  {
    RoundWithout(sum, others, m, overall);
    OthersEnd(sum, others, overall);
    EndsStep(sum, Beside(others, m), overall);
  }

  /** The conversation is the victim: then it is to the end. */
  lemma VictimEndsIff(sum: Summariser, others: seq<Section>, m: seq<Message>, overall: int)
    requires Sensible(sum) && Besides(others) && Over(Beside(others, m), overall)
    requires Top(Beside(others, m)) == |others|
    ensures var target := Target(Beside(others, m), overall);
      Ends(sum, Beside(others, m), overall) <==> target == 0 || SummaryFits(sum, m, target)
  {
    OthersStay(others, m);
    var target := VictimTarget(others, m, overall);
    if target == 0 {
      VictimGoes(sum, others, m, overall);
    } else {
      LastLoopEndsIff(sum, others, m, target);
    }
  }

  lemma VictimTarget(others: seq<Section>, m: seq<Message>, overall: int) returns (target: nat)
    requires StayLonger(others) && Over(Beside(others, m), overall)
    ensures target == Target(Beside(others, m), overall) < Tokens(m)
    ensures if target == 0 then overall <= Total(others) else overall == Total(others) + target
  {
    VictimIs(others, m, overall);
    TotalWith(others, m);
    target := Target(Beside(others, m), overall);
    SomeTokens(m);
  }

  /** Another section is the victim: as without a summariser. */
  lemma OtherRound(sum: Summariser, others: seq<Section>, m: seq<Message>, overall: int) returns (rest: seq<Section>)
    requires Besides(others) && Over(Beside(others, m), overall) && Top(Beside(others, m)) < |others|
    ensures Besides(rest) && Round(sum, Beside(others, m), overall) == CutDown(Beside(others, m), overall)
    ensures Round(sum, Beside(others, m), overall) == Beside(rest, m)
    ensures Total(Beside(rest, m)) < Total(Beside(others, m))
  {
    var sections := Beside(others, m);
    var v := Top(sections);
    assert sections[v] == others[v] && others[v] in others;
    RoundElsewhere(sum, sections, overall);
    var s := Cut(others[v], Target(sections, overall));
    CutOtherLeft(others, [Conversation(m)], v, s);
    rest := if Tokens(s.messages) == 0 then others[..v] + others[v + 1..] else others[v := s];
  }

  /** Under any overall budget, the loop over these sections ends exactly if it never comes to the conversation, leaves
      it nothing, or one of the summaries made on the way fits into what it leaves. */
  lemma {:induction false} LoopEndsIff(sum: Summariser, others: seq<Section>, m: seq<Message>, overall: int)
    requires Sensible(sum) && Besides(others)
    ensures var room := LastTarget(Beside(others, m), overall);
      Ends(sum, Beside(others, m), overall) <==>
        room.None? || room.value == 0 || SummaryFits(sum, m, room.value)
    decreases Total(Beside(others, m))
  {
    var sections := Beside(others, m);
    if !Over(sections, overall) {
      EndsNow(sum, sections, overall);
    } else if Top(sections) == |others| {
      VictimEndsIff(sum, others, m, overall);
    } else {
      var rest := OtherRound(sum, others, m, overall);
      LoopEndsIff(sum, rest, m, overall);
      EndsStep(sum, sections, overall);
    }
  }

  /** Summaries of so many tokens at most fit beside any end. */
  lemma ShortSummariesFit(sum: Summariser, m: seq<Message>, cap: nat)
    requires Sensible(sum)
    requires forall earlier :: MessageTokens(Note(sum, earlier, cap)) <= cap - sum.recent(cap)
    ensures SummaryFits(sum, m, cap)
  {
    var i := KeptFrom(m, sum.recent(cap));
    KeptFromStarts(m, sum.recent(cap));
    assert DigestFits(sum, m[..i], m[i..], cap, 0);
  }

  /** The default summary is never shorter than `1 earlier messages omitted.`, which makes a message of fourteen
      tokens: with less room than that the loop never ends, and `build` does not return. */
  lemma TooLittleRoomNeverEnds(sum: Summariser, others: seq<Section>, m: seq<Message>, overall: int)
    requires Sensible(sum) && Besides(others)
    requires forall earlier, tokens :: |sum.text(earlier, tokens)| >= |"1 earlier messages omitted."|
    requires var room := LastTarget(Beside(others, m), overall); room.Some? && 0 < room.value < 14
    ensures !Ends(sum, Beside(others, m), overall)
  {
    var room := LastTarget(Beside(others, m), overall).value;
    var i := KeptFrom(m, sum.recent(room));
    LoopEndsIff(sum, others, m, overall);
    forall k: nat ensures !DigestFits(sum, m[..i], m[i..], room, k) {
      var note := Digest(sum, m[..i], room, k);
      assert |note.content.value| >= 37;
    }
  }

  // ------------------------------------------------------------------ the agent's prompts

  /** The sections `_build_context` adds before the conversation, cut to their caps. */
  function CappedOthers(o: Oracle, p: Policy, n: nat): seq<Section> {
    CappedAll(Select(o.context(n), 0.0), p.budget.caps)
  }

  /** The conversation cut to its cap. */
  function CappedConversation(sum: Summariser, p: Policy, c: seq<Message>): seq<Message> {
    var cap := p.budget.caps("conversation");
    if Tokens(c) > cap then ShrunkWith(sum, Conversation(c), cap) else c
  }

  /** The sections after `k` rounds of the global loop. */
  function LiveAfter(sum: Summariser, o: Oracle, p: Policy, n: nat, c: seq<Message>, k: nat): seq<Section> {
    After(sum, Beside(CappedOthers(o, p, n), CappedConversation(sum, p, c)), Overall(p.budget), k)
  }

  /** When the agent's prompt is built at all; the conversation it starts from is whole if that fits its cap. */
  lemma {:induction false} BuildReturnsIff(sum: Summariser, o: Oracle, p: Policy, n: nat, c: seq<Message>)
    requires Sensible(sum) && Besides(o.context(n))
    ensures var cap := p.budget.caps("conversation");
      CappedConversation(sum, p, c) ==
        if Tokens(c) <= cap then c else if cap <= 0 then [] else Condensed(sum, c, cap)
    ensures var (others, m) := (CappedOthers(o, p, n), CappedConversation(sum, p, c));
      var room := LastTarget(Beside(others, m), Overall(p.budget));
      Ends(sum, Beside(others, m), Overall(p.budget)) <==>
        room.None? || room.value == 0 || SummaryFits(sum, m, room.value)
  {
    var others := CappedOthers(o, p, n);
    SelectedFrom(o.context(n), 0.0);
    forall x | x in others ensures x.name != "conversation" && x.priority != 10 {
      var i :| 0 <= i < |others| && others[i] == x;
    }
    LoopEndsIff(sum, others, CappedConversation(sum, p, c), Overall(p.budget));
  }

  /** An end of the conversation, after a summary or alone. */
  predicate EndOf(m: seq<Message>, c: seq<Message>, i: nat) {
    i <= |c| && (m == c[i..] || (m != [] && m[0].role == System && m[1..] == c[i..]))
  }

  ghost predicate SomeEnd(m: seq<Message>, c: seq<Message>) { exists i :: 0 <= i <= |c| && EndOf(m, c, i) }

  lemma EndAfter(note: Message, rest: seq<Message>, c: seq<Message>, k: nat)
    requires note.role == System && k <= |c| && rest == c[k..]
    ensures SomeEnd([note] + rest, c)
  {
    assert ([note] + rest)[1..] == rest;
    assert EndOf([note] + rest, c, k);
  }

  lemma CondensedEnd(sum: Summariser, m: seq<Message>, c: seq<Message>, cap: nat)
    requires SomeEnd(m, c)
    ensures SomeEnd(Condensed(sum, m, cap), c)
  {
    var i :| 0 <= i <= |c| && EndOf(m, c, i);
    var j := KeptFrom(m, sum.recent(cap));
    if j > 0 {
      var k := if m == c[i..] then i + j else i + j - 1;
      assert m[j..] == c[k..] by { if m != c[i..] { assert m[j..] == m[1..][j - 1..]; } }
      EndAfter(Note(sum, m[..j], cap), m[j..], c, k);
    }
  }

  lemma WithEnd(sum: Summariser, m: seq<Message>, c: seq<Message>, cap: int)
    requires SomeEnd(m, c)
    ensures SomeEnd(ShrunkWith(sum, Conversation(m), cap), c)
  {
    if cap > 0 {
      CondensedEnd(sum, m, c, cap);
    } else {
      assert EndOf([], c, |c|);
    }
  }

  /** System text of other names, and perhaps a section with an end of the conversation. */
  ghost predicate MadeOf(sections: seq<Section>, others: seq<Section>, m: seq<Message>, c: seq<Message>) {
    && BeforeConversation(others) && NoConversation(others) && SomeEnd(m, c)
    && (sections == Beside(others, m) || sections == others)
  }

  ghost predicate Keeps(sections: seq<Section>, c: seq<Message>) { exists others, m :: MadeOf(sections, others, m, c) }

  lemma OtherCutKeeps(others: seq<Section>, m: seq<Message>, c: seq<Message>, v: nat, cap: int)
    requires BeforeConversation(others) && NoConversation(others) && SomeEnd(m, c) && v < |others|
    ensures var s := Cut(others[v], cap);
      && Keeps(others[v := s], c) && Keeps(others[..v] + others[v + 1..], c)
      && Keeps(Beside(others, m)[v := s], c) && Keeps(TakenOut(Beside(others, m), v), c)
  {
    var s := Cut(others[v], cap);
    CutOther(others, v, cap);
    CutOtherLeft(others, [Conversation(m)], v, s);
    var (shorter, fewer) := (others[v := s], others[..v] + others[v + 1..]);
    assert MadeOf(shorter, shorter, m, c) && MadeOf(fewer, fewer, m, c);
    assert MadeOf(Beside(shorter, m), shorter, m, c) && MadeOf(Beside(fewer, m), fewer, m, c);
  }

  lemma RoundKeeps(sum: Summariser, sections: seq<Section>, c: seq<Message>, overall: int)
    requires Keeps(sections, c) && Over(sections, overall)
    ensures Keeps(Round(sum, sections, overall), c)
  {
    var others, m :| MadeOf(sections, others, m, c);
    var (v, target) := (Top(sections), Target(sections, overall));
    if v < |others| {
      assert sections[v] == others[v] && others[v] in others;
      OtherCutKeeps(others, m, c, v, target);
    } else {
      assert v == |others| && sections == Beside(others, m) && sections[v] == Conversation(m);
      ConversationCutKeeps(sum, others, m, c, target);
    }
  }

  lemma ConversationCutKeeps(sum: Summariser, others: seq<Section>, m: seq<Message>, c: seq<Message>, cap: int)
    requires BeforeConversation(others) && NoConversation(others) && SomeEnd(m, c)
    ensures var kept := ShrunkWith(sum, Conversation(m), cap);
      && Keeps(Beside(others, m)[|others| := Conversation(kept)], c) && Keeps(TakenOut(Beside(others, m), |others|), c)
  {
    var kept := ShrunkWith(sum, Conversation(m), cap);
    WithEnd(sum, m, c, cap);
    assert Beside(others, m)[|others| := Conversation(kept)] == Beside(others, kept);
    assert TakenOut(Beside(others, m), |others|) == others;
    assert MadeOf(Beside(others, kept), others, kept, c) && MadeOf(others, others, kept, c);
  }

  lemma {:induction false} AfterKeeps(sum: Summariser, sections: seq<Section>, c: seq<Message>, overall: int, k: nat)
    requires Keeps(sections, c)
    ensures Keeps(After(sum, sections, overall, k), c)
    decreases k
  {
    if k > 0 && Over(sections, overall) {
      RoundKeeps(sum, sections, c, overall);
      AfterKeeps(sum, Round(sum, sections, overall), c, overall, k - 1);
    }
  }

  lemma KeepsAtFirst(sum: Summariser, o: Oracle, p: Policy, n: nat, c: seq<Message>)
    requires BeforeConversation(o.context(n)) && Besides(o.context(n))
    ensures Keeps(Beside(CappedOthers(o, p, n), CappedConversation(sum, p, c)), c)
  {
    var (others, m) := (CappedOthers(o, p, n), CappedConversation(sum, p, c));
    SelectedFrom(o.context(n), 0.0);
    CappedBefore(Select(o.context(n), 0.0), p.budget.caps);
    forall x | x in others ensures x.name != "conversation" {
      var i :| 0 <= i < |others| && others[i] == x;
    }
    assert EndOf(c, c, 0);
    WithEnd(sum, c, c, p.budget.caps("conversation"));
    assert MadeOf(Beside(others, m), others, m, c);
  }

  lemma JoinedBeside(others: seq<Section>, m: seq<Message>)
    requires BeforeConversation(others)
    ensures Joined(Arranged(Beside(others, m))) == Joined(Arranged(others)) + m
    ensures forall x :: x in Joined(Arranged(others)) ==> x.role == System
  {
    var sorted := Arranged(others);
    forall x | x in sorted ensures x in others { assert x in multiset(sorted); }
    JoinedSystem(sorted);
    ArrangedLast(others, Conversation(m));
    JoinedAppend(sorted, [Conversation(m)]);
    assert Joined([Conversation(m)]) == m + Joined([Conversation(m)][1..]) == m;
  }

  lemma EndSplit(m: seq<Message>, c: seq<Message>) returns (note: seq<Message>, i: nat)
    requires SomeEnd(m, c)
    ensures i <= |c| && m == note + c[i..] && forall x :: x in note ==> x.role == System
  {
    i :| 0 <= i <= |c| && EndOf(m, c, i);
    note := if m == c[i..] then [] else [m[0]];
    assert m == note + c[i..];
  }

  /** In prompt order: system text, a summary among it, and then an end of the conversation. */
  lemma JoinedKeeps(live: seq<Section>, c: seq<Message>) returns (system: seq<Message>, i: nat)
    requires Keeps(live, c)
    ensures i <= |c| && Joined(Arranged(live)) == system + c[i..] && forall m :: m in system ==> m.role == System
  {
    var others, m :| MadeOf(live, others, m, c);
    var first := Joined(Arranged(others));
    JoinedBeside(others, m);
    if live == others {
      system, i := first, |c|;
    } else {
      var note;
      note, i := EndSplit(m, c);
      system := first + note;
      Regrouped(first, note, c[i..]);
    }
  }

  /** An end of a well-shaped conversation is well shaped exactly if it does not start among the answers of a
      request. */
  lemma {:induction false} EndShapedIff(c: seq<Message>, i: nat)
    requires Shaped(c) && i <= |c|
    ensures Shaped(c[i..]) <==> i == |c| || c[i].role != Tool
    decreases |c|
  {
    if 0 < i < |c| {
      var n := if Asks(c[0]) then |c[0].toolCalls| else 0;
      if i <= n {
        assert Answers(c[i - 1 + 1], c[0].toolCalls[i - 1]);
      } else {
        assert c[n + 1..][i - n - 1..] == c[i..];
        EndShapedIff(c[n + 1..], i - n - 1);
      }
    } else if i == 0 {
      assert c[0..] == c;
    }
  }

  /** After any number of rounds, so also when the loop ends: the prompt is system text, with the summary last, and then
      an end of the conversation; it is well shaped exactly if that does not start among the answers of a request. */
  lemma {:induction false} SummarisedPromptShapedIff(sum: Summariser, o: Oracle, p: Policy, n: nat, c: seq<Message>,
                                                     k: nat)
    returns (system: seq<Message>, i: nat)
    requires BeforeConversation(o.context(n)) && Besides(o.context(n)) && Shaped(c)
    ensures i <= |c| && Joined(Arranged(LiveAfter(sum, o, p, n, c, k))) == system + c[i..]
    ensures forall m :: m in system ==> m.role == System
    ensures Shaped(system + c[i..]) <==> i == |c| || c[i].role != Tool
  {
    KeepsAtFirst(sum, o, p, n, c);
    AfterKeeps(sum, Beside(CappedOthers(o, p, n), CappedConversation(sum, p, c)), c, Overall(p.budget), k);
    system, i := JoinedKeeps(LiveAfter(sum, o, p, n, c, k), c);
    SystemPrefix(system, c[i..]);
    EndShapedIff(c, i);
  }
}
