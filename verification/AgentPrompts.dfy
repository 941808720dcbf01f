/** Conversations through the context builder: which prompts are well shaped. */
module AgentPrompts {
  import opened AgentLoop
  import opened ContextBuilder
  import opened Types
  import opened Wrappers

  // ------------------------------------------------------------------ the sections of a prompt

  predicate SystemText(s: Section) { forall m :: m in s.messages ==> m.role == System }

  lemma {:induction false} InsertBefore(x: Section, sorted: seq<Section>, s: Section)
    requires InOrder(x, s)
    ensures Insert(x, sorted + [s]) == Insert(x, sorted) + [s]
  {
    if sorted != [] && !InOrder(x, sorted[0]) {
      assert (sorted + [s])[1..] == sorted[1..] + [s];
      InsertBefore(x, sorted[1..], s);
    }
  }

  lemma {:induction false} ArrangedLast(others: seq<Section>, s: Section)
    requires forall x :: x in others ==> InOrder(x, s)
    ensures Arranged(others + [s]) == Arranged(others) + [s]
  {
    if others == [] {
      assert others + [s] == [s];
    } else {
      assert (others + [s])[1..] == others[1..] + [s];
      ArrangedLast(others[1..], s);
      InsertBefore(others[0], Arranged(others[1..]), s);
    }
  }

  lemma {:induction false} SystemShaped(ms: seq<Message>)
    requires forall m :: m in ms ==> m.role == System
    ensures Shaped(ms)
  {
    if ms != [] { SystemShaped(ms[1..]); }
  }

  lemma {:induction false} JoinedAppend(a: seq<Section>, b: seq<Section>)
    ensures Joined(a + b) == Joined(a) + Joined(b)
  {
    if a == [] {
      assert a + b == b;
    } else {
      assert (a + b)[1..] == a[1..] + b;
      JoinedAppend(a[1..], b);
      assert a[0].messages + (Joined(a[1..]) + Joined(b)) == (a[0].messages + Joined(a[1..])) + Joined(b);
    }
  }

  lemma {:induction false} JoinedSystem(a: seq<Section>)
    requires forall s :: s in a ==> SystemText(s)
    ensures forall m :: m in Joined(a) ==> m.role == System
  {
    if a != [] {
      assert SystemText(a[0]);
      JoinedSystem(a[1..]);
    }
  }

  // ------------------------------------------------------------------ messages kept and dropped

  /** The messages marked `true`. */
  function Pick<T>(c: seq<T>, keep: seq<bool>): seq<T>
    requires |keep| == |c|
  {
    if c == [] then [] else (if keep[0] then [c[0]] else []) + Pick(c[1..], keep[1..])
  }

  /** The first message of a well-shaped conversation with its answers: how many messages. */
  function Exchange(c: seq<Message>): nat
    requires c != []
  {
    if Asks(c[0]) then |c[0].toolCalls| + 1 else 1
  }

  predicate Uniform(keep: seq<bool>) {
    (forall i :: 0 <= i < |keep| ==> keep[i]) || (forall i :: 0 <= i < |keep| ==> !keep[i])
  }

  /** Every exchange is kept whole or dropped whole. */
  predicate Whole(c: seq<Message>, keep: seq<bool>)
    requires Shaped(c) && |keep| == |c|
  {
    c == [] || (Uniform(keep[..Exchange(c)]) && Whole(c[Exchange(c)..], keep[Exchange(c)..]))
  }

  /** The ids of all tool calls of a conversation. */
  function CallIds(c: seq<Message>): seq<string> {
    if c == [] then [] else IdsOf(c[0].toolCalls) + CallIds(c[1..])
  }

  function IdsOf(calls: seq<ToolCall>): seq<string> { seq(|calls|, i requires 0 <= i < |calls| => calls[i].id) }

  predicate DistinctCalls(c: seq<Message>) {
    forall i, j :: 0 <= i < j < |CallIds(c)| ==> CallIds(c)[i] != CallIds(c)[j]
  }

  lemma FirstIds(m: Message, c: seq<Message>)
    ensures CallIds([m] + c) == IdsOf(m.toolCalls) + CallIds(c)
  {
    assert ([m] + c)[1..] == c;
  }

  lemma {:induction false} CallIdsSplit(a: seq<Message>, b: seq<Message>)
    ensures CallIds(a + b) == CallIds(a) + CallIds(b)
  {
    if a == [] {
      assert a + b == b;
    } else {
      var (first, rest) := (a[0], a[1..]);
      CallIdsSplit(rest, b);
      assert a == [first] + rest && a + b == [first] + (rest + b);
      FirstIds(first, rest + b);
      FirstIds(first, rest);
      Regrouped(IdsOf(first.toolCalls), CallIds(rest), CallIds(b));
    }
  }

  /** A tool message of a well-shaped conversation answers one of its calls. */
  lemma {:induction false} ToolMessageKnown(c: seq<Message>, m: Message)
    requires Shaped(c) && m in c && m.role == Tool
    ensures m.toolCallId.Some? && m.toolCallId.value in CallIds(c)
    decreases |c|
  {
    var n := Exchange(c);
    assert c == c[..n] + c[n..];
    CallIdsSplit(c[..n], c[n..]);
    if m in c[n..] {
      ToolMessageKnown(c[n..], m);
    } else {
      var k :| 0 <= k < n && c[k] == m;
      assert Asks(c[0]) && k > 0 && Answers(c[k - 1 + 1], c[0].toolCalls[k - 1]);
      assert IdsOf(c[0].toolCalls)[k - 1] == c[0].toolCalls[k - 1].id;
      assert c[..n][0] == c[0] && CallIds(c[..n]) == IdsOf(c[0].toolCalls) + CallIds(c[..n][1..]);
    }
  }

  lemma {:induction false} PickedFrom(c: seq<Message>, keep: seq<bool>)
    requires |keep| == |c|
    ensures forall m :: m in Pick(c, keep) ==> m in c
  {
    if c != [] { PickedFrom(c[1..], keep[1..]); }
  }

  lemma {:induction false} PickSplit<T>(a: seq<T>, b: seq<T>, x: seq<bool>, y: seq<bool>)
    requires |x| == |a| && |y| == |b|
    ensures Pick(a + b, x + y) == Pick(a, x) + Pick(b, y)
  {
    if a == [] {
      assert a + b == b && x + y == y;
    } else {
      assert (a + b)[0] == a[0] && (a + b)[1..] == a[1..] + b;
      assert (x + y)[0] == x[0] && (x + y)[1..] == x[1..] + y;
      PickSplit(a[1..], b, x[1..], y);
      Regrouped(if x[0] then [a[0]] else [], Pick(a[1..], x[1..]), Pick(b, y));
    }
  }

  lemma {:induction false} PickAll(c: seq<Message>, keep: seq<bool>)
    requires |keep| == |c|
    ensures |Pick(c, keep)| <= |c|
    ensures (forall i :: 0 <= i < |keep| ==> keep[i]) ==> Pick(c, keep) == c
    ensures (forall i :: 0 <= i < |keep| ==> !keep[i]) ==> Pick(c, keep) == []
    ensures (exists i :: 0 <= i < |keep| && !keep[i]) ==> |Pick(c, keep)| < |c|
    ensures (exists i :: 0 <= i < |keep| && keep[i]) ==> Pick(c, keep) != []
  {
    if c != [] {
      PickAll(c[1..], keep[1..]);
      if i :| 0 <= i < |keep| && !keep[i] { if i > 0 { assert !keep[1..][i - 1]; } }
      if i :| 0 <= i < |keep| && keep[i] { if i > 0 { assert keep[1..][i - 1]; } }
    }
  }

  // ------------------------------------------------------------------ when what is left is well shaped

  /** A whole exchange before `p` does not matter. */
  lemma WholeExchange(c: seq<Message>, p: seq<Message>)
    requires c != [] && Shaped(c)
    ensures Shaped(c[..Exchange(c)] + p) <==> Shaped(p)
  {
    var (n, q) := (Exchange(c), c[..Exchange(c)] + p);
    assert q[0] == c[0] && q[n..] == p;
    if Asks(c[0]) {
      forall k | 0 <= k < n - 1 ensures Answers(q[k + 1], c[0].toolCalls[k]) { assert q[k + 1] == c[k + 1]; }
    }
  }

  /** The first exchange without its request but with some of its answers. */
  lemma RequestDropped(c: seq<Message>, x: seq<bool>, p: seq<Message>)
    requires c != [] && Shaped(c) && |x| == Exchange(c) && !x[0] && exists i :: 0 <= i < |x| && x[i]
    ensures !Shaped(Pick(c[..Exchange(c)], x) + p)
  {
    var (n, rest) := (Exchange(c), c[1..Exchange(c)]);
    assert c[..n][1..] == rest && Pick(c[..n], x) == Pick(rest, x[1..]);
    var i :| 0 <= i < |x| && x[i];
    assert x[1..][i - 1];
    PickAll(rest, x[1..]);
    PickedFrom(rest, x[1..]);
    var m := Pick(rest, x[1..])[0];
    assert m in rest;
    var k :| 0 <= k < |rest| && rest[k] == m;
    assert Answers(c[k + 1], c[0].toolCalls[k]);
    assert (Pick(c[..n], x) + p)[0] == m;
  }

  /** The first exchange with its request but without some of its answers, before messages of later
      exchanges, whose ids are others. */
  lemma AnswerDropped(c: seq<Message>, x: seq<bool>, p: seq<Message>)
    requires c != [] && Shaped(c) && DistinctCalls(c)
    requires |x| == Exchange(c) && x[0] && exists i :: 0 <= i < |x| && !x[i]
    requires forall m :: m in p ==> m in c[Exchange(c)..]
    ensures !Shaped(Pick(c[..Exchange(c)], x) + p)
  {
    var (n, rest) := (Exchange(c), c[1..Exchange(c)]);
    var answers := Pick(rest, x[1..]);
    var q := Pick(c[..n], x) + p;
    assert c[..n][1..] == rest && q == [c[0]] + answers + p;
    var i :| 0 <= i < |x| && !x[i];
    assert !x[1..][i - 1];
    PickAll(rest, x[1..]);
    var k := |answers|;
    if Shaped(q) {
      assert Answers(q[k + 1], c[0].toolCalls[k]);
      assert q[k + 1] == p[0] && p[0] in p;
      ForeignId(c, p[0], k);
    }
  }

  /** What answers a later exchange does not answer the first. */
  lemma ForeignId(c: seq<Message>, m: Message, k: nat)
    requires c != [] && Shaped(c) && DistinctCalls(c) && Asks(c[0]) && k < |c[0].toolCalls|
    requires m in c[Exchange(c)..] && m.role == Tool
    ensures m.toolCallId != Some(c[0].toolCalls[k].id)
  {
    var n := Exchange(c);
    ToolMessageKnown(c[n..], m);
    assert c == c[..n] + c[n..];
    CallIdsSplit(c[..n], c[n..]);
    assert c[..n][0] == c[0] && CallIds(c[..n]) == IdsOf(c[0].toolCalls) + CallIds(c[..n][1..]);
    assert CallIds(c)[k] == c[0].toolCalls[k].id;
    var j :| 0 <= j < |CallIds(c[n..])| && CallIds(c[n..])[j] == m.toolCallId.value;
    assert CallIds(c)[|CallIds(c[..n])| + j] == m.toolCallId.value;
  }

  lemma LaterCallsDistinct(c: seq<Message>, n: nat)
    requires DistinctCalls(c) && n <= |c|
    ensures DistinctCalls(c[n..])
  {
    assert c == c[..n] + c[n..];
    CallIdsSplit(c[..n], c[n..]);
    var (skip, ids) := (|CallIds(c[..n])|, CallIds(c[n..]));
    forall i, j | 0 <= i < j < |ids| ensures ids[i] != ids[j] {
      assert CallIds(c)[skip + i] == ids[i] && CallIds(c)[skip + j] == ids[j];
    }
  }

  /** Whatever is dropped from a well-shaped conversation with distinct call ids, what is left is well
      shaped exactly if every exchange is kept whole or dropped whole. */
  lemma {:induction false} PickShapedIff(c: seq<Message>, keep: seq<bool>)
    requires Shaped(c) && DistinctCalls(c) && |keep| == |c|
    ensures Shaped(Pick(c, keep)) <==> Whole(c, keep)
    decreases |c|
  {
    if c != [] {
      var n := Exchange(c);
      var (x, y, p) := (keep[..n], keep[n..], Pick(c[n..], keep[n..]));
      assert c == c[..n] + c[n..] && keep == x + y;
      PickSplit(c[..n], c[n..], x, y);
      PickAll(c[..n], x);
      LaterCallsDistinct(c, n);
      PickShapedIff(c[n..], y);
      if forall i :: 0 <= i < |x| ==> x[i] {
        WholeExchange(c, p);
      } else if forall i :: 0 <= i < |x| ==> !x[i] {
        assert [] + p == p;
      } else if x[0] {
        PickedFrom(c[n..], y);
        AnswerDropped(c, x, p);
      } else {
        RequestDropped(c, x, p);
      }
    }
  }

  // ------------------------------------------------------------------ the most recent messages that fit

  function CostOf<T>(cost: T -> nat, c: seq<T>): nat {
    if c == [] then 0 else CostOf(cost, c[..|c| - 1]) + cost(c[|c| - 1])
  }

  /** What `KeepRecent` keeps, for any cost. */
  function Fitting<T>(cost: T -> nat, c: seq<T>, cap: nat): (keep: seq<bool>)
    ensures |keep| == |c|
  {
    if c == [] then []
    else
      var (last, earlier) := (c[|c| - 1], c[..|c| - 1]);
      if cost(last) > cap then Fitting(cost, earlier, cap) + [false]
        else Fitting(cost, earlier, cap - cost(last)) + [true]
  }

  /** What it leaves of the cap. */
  function Room<T>(cost: T -> nat, c: seq<T>, cap: nat): nat {
    if c == [] then cap
    else
      var (last, earlier) := (c[|c| - 1], c[..|c| - 1]);
      Room(cost, earlier, if cost(last) > cap then cap else cap - cost(last))
  }

  lemma {:induction false} FittingSplit<T>(cost: T -> nat, a: seq<T>, b: seq<T>, cap: nat)
    ensures Fitting(cost, a + b, cap) == Fitting(cost, a, Room(cost, b, cap)) + Fitting(cost, b, cap)
    decreases |b|
  {
    if b == [] {
      assert a + b == a;
    } else {
      var (last, earlier) := (b[|b| - 1], b[..|b| - 1]);
      assert (a + b)[|a + b| - 1] == last && (a + b)[..|a + b| - 1] == a + earlier;
      FittingSplit(cost, a, earlier, if cost(last) > cap then cap else cap - cost(last));
    }
  }

  lemma {:induction false} AllFit<T>(cost: T -> nat, c: seq<T>, cap: nat)
    ensures (forall i :: 0 <= i < |c| ==> Fitting(cost, c, cap)[i]) <==> CostOf(cost, c) <= cap
    ensures (forall i :: 0 <= i < |c| ==> !Fitting(cost, c, cap)[i]) <==> forall m :: m in c ==> cost(m) > cap
  {
    if c != [] {
      var (last, earlier) := (c[|c| - 1], c[..|c| - 1]);
      var room := if cost(last) > cap then cap else cap - cost(last);
      assert c == earlier + [last];
      AllFit(cost, earlier, room);
      assert Fitting(cost, c, cap)[|c| - 1] == (cost(last) <= cap);
      assert Fitting(cost, c, cap)[..|c| - 1] == Fitting(cost, earlier, room);
    }
  }

  /** All of it fits, or none of its messages does. */
  predicate FitsOrNone<T(==)>(cost: T -> nat, c: seq<T>, room: nat) {
    CostOf(cost, c) <= room || forall m :: m in c ==> cost(m) > room
  }

  lemma PartFits<T>(cost: T -> nat, a: seq<T>, b: seq<T>, cap: nat)
    ensures var keep := Fitting(cost, a + b, cap);
      && keep[|a|..] == Fitting(cost, b, cap)
      && (Uniform(keep[..|a|]) <==> FitsOrNone(cost, a, Room(cost, b, cap)))
  {
    FittingSplit(cost, a, b, cap);
    AllFit(cost, a, Room(cost, b, cap));
    assert Fitting(cost, a + b, cap)[..|a|] == Fitting(cost, a, Room(cost, b, cap));
  }

  /** `KeepRecent`, for any cost. */
  function Recent<T>(cost: T -> nat, c: seq<T>, cap: nat): seq<T> {
    if c == [] then []
    else
      var (last, earlier) := (c[|c| - 1], c[..|c| - 1]);
      if cost(last) > cap then Recent(cost, earlier, cap) else Recent(cost, earlier, cap - cost(last)) + [last]
  }

  lemma {:induction false} RecentFitting<T>(cost: T -> nat, c: seq<T>, cap: nat)
    ensures Recent(cost, c, cap) == Pick(c, Fitting(cost, c, cap))
  {
    if c != [] {
      var (last, earlier) := (c[|c| - 1], c[..|c| - 1]);
      var (kept, room) := if cost(last) > cap then (false, cap) else (true, cap - cost(last));
      RecentFitting(cost, earlier, room);
      assert c == earlier + [last];
      PickSplit(earlier, [last], Fitting(cost, earlier, room), [kept]);
      assert Pick([last], [kept]) == if kept then [last] else [];
    }
  }

  lemma {:induction false} KeepRecentIsRecent(c: seq<Message>, cap: nat)
    ensures KeepRecent(c, cap) == Recent(MessageTokens, c, cap)
  {
    if c != [] {
      var (last, earlier) := (c[|c| - 1], c[..|c| - 1]);
      KeepRecentIsRecent(earlier, if MessageTokens(last) > cap then cap else cap - MessageTokens(last));
    }
  }

  lemma KeepsFitting(c: seq<Message>, cap: nat)
    ensures KeepRecent(c, cap) == Pick(c, Fitting(MessageTokens, c, cap))
  {
    KeepRecentIsRecent(c, cap);
    RecentFitting(MessageTokens, c, cap);
  }

  lemma {:induction false} TokensAreCosts(c: seq<Message>)
    ensures CostOf(MessageTokens, c) == Tokens(c)
  {
    if c != [] { TokensAreCosts(c[..|c| - 1]); }
  }

  /** In the room that the messages after it leave, every exchange fits whole, or none of its messages
      fits. */
  predicate FitsByExchange(c: seq<Message>, cap: nat)
    requires Shaped(c)
    decreases |c|
  {
    c == [] ||
    var (exchange, later) := (c[..Exchange(c)], c[Exchange(c)..]);
    FitsOrNone(MessageTokens, exchange, Room(MessageTokens, later, cap)) && FitsByExchange(later, cap)
  }

  lemma {:induction false} FitsIffWhole(c: seq<Message>, cap: nat)
    requires Shaped(c)
    ensures FitsByExchange(c, cap) <==> Whole(c, Fitting(MessageTokens, c, cap))
    decreases |c|
  {
    if c != [] {
      assert c == c[..Exchange(c)] + c[Exchange(c)..];
      PartFits(MessageTokens, c[..Exchange(c)], c[Exchange(c)..], cap);
      FitsIffWhole(c[Exchange(c)..], cap);
    }
  }

  /** Cut to the most recent messages that fit, a well-shaped conversation with distinct call ids stays
      well shaped exactly if, exchange by exchange from the end, each fits whole into what is left of the
      cap or none of its messages does. */
  lemma {:induction false} KeepRecentShapedIff(c: seq<Message>, cap: nat)
    requires Shaped(c) && DistinctCalls(c)
    ensures Shaped(KeepRecent(c, cap)) <==> FitsByExchange(c, cap)
  {
    KeepsFitting(c, cap);
    PickShapedIff(c, Fitting(MessageTokens, c, cap));
    FitsIffWhole(c, cap);
  }

  /** The same for the conversation's section; without any cap left it is dropped whole. */
  lemma {:induction false} ShrunkShapedIff(c: seq<Message>, cap: int)
    requires Shaped(c) && DistinctCalls(c)
    ensures Shaped(Shrunk(Conversation(c), cap)) <==> cap <= 0 || FitsByExchange(c, cap)
  {
    if cap > 0 { KeepRecentShapedIff(c, cap); }
  }

  /** For instance, the builder may keep an answer and drop the request before it: any exchange whose
      request does not fit but whose last answer does is cut to that answer. */
  lemma TightPromptNotShaped(request: Message, answer: Message, call: ToolCall, cap: nat)
    requires Asks(request) && request.toolCalls == [call] && Answers(answer, call)
    requires MessageTokens(answer) <= cap < MessageTokens(request) + MessageTokens(answer)
    ensures Shaped([request, answer]) && !Shaped(KeepRecent([request, answer], cap))
  {
    assert [request, answer][2..] == [];
    KeepLastOfTwo(request, answer, cap);
  }

  lemma KeepLastOfTwo(a: Message, b: Message, cap: nat)
    requires MessageTokens(b) <= cap < MessageTokens(a) + MessageTokens(b)
    ensures KeepRecent([a, b], cap) == [b]
  {
    var room := cap - MessageTokens(b);
    KeepRecentStep([a, b], 1, cap);
    KeepRecentStep([a, b], 0, room);
    assert [a, b][..2] == [a, b] && [a, b][..0] == [];
  }

  // ------------------------------------------------------------------ every prompt, under any budget

  /** The sections `_build_context` adds before the conversation: system text, rendered before it. */
  predicate BeforeConversation(others: seq<Section>) { forall x :: x in others ==> x.order < 90 && SystemText(x) }

  /** What is left of the sections: some system text, and of the conversation what `keep` marks. */
  ghost predicate Left(sections: seq<Section>, c: seq<Message>, keep: seq<bool>) {
    && |keep| == |c|
    && exists others :: BeforeConversation(others) && LeftOf(sections, others, Pick(c, keep))
  }

  predicate LeftOf(sections: seq<Section>, others: seq<Section>, kept: seq<Message>) {
    sections == others + [Conversation(kept)] || (sections == others && kept == [])
  }

  lemma {:induction false} DerivedRoles(out: seq<Message>, inp: seq<Message>, lossy: bool)
    requires Derived(out, inp, lossy) && forall m :: m in inp ==> m.role == System
    ensures forall m :: m in out ==> m.role == System
    decreases |inp|
  {
    if inp != [] && out != [] {
      var earlier := inp[..|inp| - 1];
      if Derived(out, earlier, lossy) {
        DerivedRoles(out, earlier, lossy);
      } else {
        DerivedRoles(out[..|out| - 1], earlier, lossy);
        assert out == out[..|out| - 1] + [out[|out| - 1]];
      }
    }
  }

  lemma CutSystem(s: Section, cap: int)
    requires SystemText(s)
    ensures SystemText(Cut(s, cap))
  {
    ShrunkDerived(s, cap);
    DerivedRoles(Shrunk(s, cap), s.messages, s.name == "tool_results");
  }

  lemma CutOther(others: seq<Section>, v: nat, cap: int)
    requires BeforeConversation(others) && v < |others|
    ensures BeforeConversation(others[v := Cut(others[v], cap)]) && BeforeConversation(others[..v] + others[v + 1..])
  {
    CutSystem(others[v], cap);
  }

  lemma CutOtherLeft(others: seq<Section>, last: seq<Section>, v: nat, s: Section)
    requires v < |others|
    ensures (others + last)[v := s] == others[v := s] + last
    ensures (others + last)[..v] + (others + last)[v + 1..] == (others[..v] + others[v + 1..]) + last
  {
  }

  lemma CappedBefore(others: seq<Section>, caps: string -> int)
    requires BeforeConversation(others)
    ensures BeforeConversation(CappedAll(others, caps))
  {
    var capped := CappedAll(others, caps);
    forall x | x in capped ensures x.order < 90 && SystemText(x) {
      var i :| 0 <= i < |capped| && capped[i] == x;
      CutSystem(others[i], caps(others[i].name));
    }
  }

  lemma {:induction false} SelectedFrom(a: seq<Section>, minRelevance: real)
    ensures forall x :: x in Select(a, minRelevance) ==> x in a
  {
    if a != [] { SelectedFrom(a[1..], minRelevance); }
  }

  /** System text in front does not matter. */
  lemma {:induction false} SystemPrefix(system: seq<Message>, c: seq<Message>)
    requires forall m :: m in system ==> m.role == System
    ensures Shaped(system + c) <==> Shaped(c)
  {
    if system == [] {
      assert system + c == c;
    } else {
      assert (system + c)[0] == system[0] && (system + c)[1..] == system[1..] + c;
      SystemPrefix(system[1..], c);
    }
  }

  /** The sections in prompt order: system text, then what is left of the conversation. */
  lemma {:induction false} JoinedLeft(live: seq<Section>, c: seq<Message>, keep: seq<bool>)
    returns (system: seq<Message>)
    requires Left(live, c, keep)
    ensures Joined(Arranged(live)) == system + Pick(c, keep) && forall m :: m in system ==> m.role == System
  {
    var (kept, last) := (Pick(c, keep), Conversation(Pick(c, keep)));
    var others :| BeforeConversation(others) && LeftOf(live, others, kept);
    var sorted := Arranged(others);
    forall x | x in sorted ensures x in others { assert x in multiset(sorted); }
    JoinedSystem(sorted);
    system := Joined(sorted);
    if live == others + [last] {
      ArrangedLast(others, last);
      JoinedAppend(sorted, [last]);
      assert Joined([last]) == kept + Joined([last][1..]) == kept;
    } else {
      assert system + kept == system;
    }
  }

  // ------------------------------------------------------------------ how the budget cuts a conversation

  /** What is kept of `c` when it is cut to `a` and then to `b`. */
  function Twice<T>(cost: T -> nat, c: seq<T>, a: nat, b: nat): (keep: seq<bool>)
    ensures |keep| == |c|
  {
    if c == [] then []
    else
      var (last, earlier) := (c[|c| - 1], c[..|c| - 1]);
      if cost(last) > a then Twice(cost, earlier, a, b) + [false]
      else if cost(last) > b then Twice(cost, earlier, a - cost(last), b) + [false]
      else Twice(cost, earlier, a - cost(last), b - cost(last)) + [true]
  }

  lemma RecentLast<T>(cost: T -> nat, c: seq<T>, m: T, cap: nat)
    ensures Recent(cost, c + [m], cap)
         == if cost(m) > cap then Recent(cost, c, cap) else Recent(cost, c, cap - cost(m)) + [m]
  {
    assert (c + [m])[..|c|] == c && (c + [m])[|c|] == m;
  }

  lemma {:induction false} RecentTwice<T>(cost: T -> nat, c: seq<T>, a: nat, b: nat)
    ensures Recent(cost, Recent(cost, c, a), b) == Pick(c, Twice(cost, c, a, b))
  {
    if c != [] {
      var (last, earlier) := (c[|c| - 1], c[..|c| - 1]);
      var x := cost(last);
      var (room, left) := (if x > a then a else a - x, if x > a || x > b then b else b - x);
      var kept := x <= a && x <= b;
      RecentTwice(cost, earlier, room, left);
      RecentLast(cost, Recent(cost, earlier, room), last, b);
      PickSplit(earlier, [last], Twice(cost, earlier, room, left), [kept]);
      assert c == earlier + [last] && Pick([last], [kept]) == if kept then [last] else [];
    }
  }

  /** The first cut: the cap of the section. */
  function FirstRoom(p: Policy): nat {
    var cap := p.budget.caps("conversation");
    if cap < 0 then 0 else cap
  }

  /** The target to which the global loop cuts the last section, if it does. */
  function LastTarget(sections: seq<Section>, overall: int): Option<nat>
    decreases Total(sections)
  {
    if !Excessive(sections, overall) || sections[Top(sections)].priority == 0 then None
    else if Top(sections) == |sections| - 1 then Some(Target(sections, overall))
    else
      CutDownFalls(sections, overall);
      LastTarget(CutDown(sections, overall), overall)
  }

  /** The second cut: what the more dispensable sections leave of the overall budget. */
  function SecondRoom(o: Oracle, p: Policy, n: nat, c: seq<Message>): nat {
    LastTarget(CappedAll(Select(o.context(n) + [Conversation(c)], 0.0), p.budget.caps), Overall(p.budget))
      .GetOr(Tokens(c))
  }

  lemma {:induction false} NothingFits(c: seq<Message>)
    ensures KeepRecent(c, 0) == []
  {
    if c != [] { NothingFits(c[..|c| - 1]); }
  }

  lemma CutToRoom(c: seq<Message>, cap: int)
    ensures Shrunk(Conversation(c), cap) == KeepRecent(c, if cap < 0 then 0 else cap)
  {
    NothingFits(c);
  }

  lemma CappedToRoom(p: Policy, c: seq<Message>)
    ensures Capped(Conversation(c), p.budget.caps) == Conversation(KeepRecent(c, FirstRoom(p)))
  {
    CutToRoom(c, p.budget.caps("conversation"));
    KeepRecentFits(c, FirstRoom(p));
  }

  /** Some system text, and of the conversation `kept`. */
  ghost predicate Remains(sections: seq<Section>, kept: seq<Message>) {
    exists others :: BeforeConversation(others) && LeftOf(sections, others, kept)
  }

  lemma {:induction false} SqueezedWithout(others: seq<Section>, overall: int)
    requires BeforeConversation(others) && Squeezed(others, overall).Some?
    ensures BeforeConversation(Squeezed(others, overall).value)
    decreases Total(others)
  {
    if Excessive(others, overall) && others[Top(others)].priority != 0 {
      CutOther(others, Top(others), Target(others, overall));
      CutDownFalls(others, overall);
      var rest := CutDown(others, overall);
      if rest != [] { SqueezedWithout(rest, overall); }
    }
  }

  /** The conversation itself is the victim. If something is left of it, everything fits. */
  lemma LastCutDown(others: seq<Section>, kept: seq<Message>, overall: int)
    requires var sections := others + [Conversation(kept)];
      Excessive(sections, overall) && Top(sections) == |others|
    ensures var sections := others + [Conversation(kept)];
      var left := KeepRecent(kept, Target(sections, overall));
      var rest := others + [Conversation(left)];
      CutDown(sections, overall) == (if left == [] then others else rest) && (left != [] ==> Total(rest) <= overall)
  {
    var sections := others + [Conversation(kept)];
    var target := Target(sections, overall);
    var left := KeepRecent(kept, target);
    CutToRoom(kept, target);
    KeepRecentFits(kept, target);
    TotalUpdate(sections, |others|, Conversation(left));
    assert sections[|others| := Conversation(left)] == others + [Conversation(left)];
    assert sections[..|others|] + sections[|others| + 1..] == others;
    if left != [] { SomeTokens(left); }
  }

  /** After that the loop does not touch it again. */
  lemma {:induction false} LastCut(others: seq<Section>, kept: seq<Message>, overall: int)
    requires BeforeConversation(others)
    requires var sections := others + [Conversation(kept)];
      Excessive(sections, overall) && sections[Top(sections)].priority != 0 && Top(sections) == |others|
    ensures var sections := others + [Conversation(kept)];
      Squeezed(sections, overall).Some? ==>
      Remains(Squeezed(sections, overall).value, KeepRecent(kept, Target(sections, overall)))
  {
    var sections := others + [Conversation(kept)];
    var left := KeepRecent(kept, Target(sections, overall));
    LastCutDown(others, kept, overall);
    var rest := CutDown(sections, overall);
    assert Squeezed(sections, overall) == if rest == [] then Some([]) else Squeezed(rest, overall);
    if left != [] {
      assert Squeezed(rest, overall) == Some(rest);
      assert LeftOf(others + [Conversation(left)], others, left);
    } else if others == [] {
      assert LeftOf([], others, []);
    } else if Squeezed(others, overall).Some? {
      SqueezedWithout(others, overall);
      assert LeftOf(Squeezed(others, overall).value, Squeezed(others, overall).value, []);
    }
  }

  lemma {:induction false} SqueezedExactly(others: seq<Section>, kept: seq<Message>, overall: int)
    requires BeforeConversation(others) && Squeezed(others + [Conversation(kept)], overall).Some?
    ensures var sections := others + [Conversation(kept)];
      var target := LastTarget(sections, overall);
      Remains(Squeezed(sections, overall).value, if target.None? then kept else KeepRecent(kept, target.value))
    decreases Total(others + [Conversation(kept)])
  {
    var sections := others + [Conversation(kept)];
    if !Excessive(sections, overall) || sections[Top(sections)].priority == 0 {
      assert LeftOf(sections, others, kept);
    } else if Top(sections) == |others| {
      LastCut(others, kept, overall);
    } else {
      CutDownFalls(sections, overall);
      var (v, target) := (Top(sections), Target(sections, overall));
      CutOther(others, v, target);
      CutOtherLeft(others, [Conversation(kept)], v, Cut(others[v], target));
      if Tokens(Cut(others[v], target).messages) == 0 {
        SqueezedExactly(others[..v] + others[v + 1..], kept, overall);
      } else {
        SqueezedExactly(others[v := Cut(others[v], target)], kept, overall);
      }
    }
  }

  lemma PromptRemains(o: Oracle, p: Policy, n: nat, c: seq<Message>) returns (others: seq<Section>)
    requires BeforeConversation(o.context(n))
    ensures ModelPrompt(o, p, n, c).Some? && BeforeConversation(others)
    ensures LeftOf(Surviving(o.context(n) + [Conversation(c)], p.budget, 0.0).value, others,
                   KeepRecent(KeepRecent(c, FirstRoom(p)), SecondRoom(o, p, n, c)))
  {
    var (chosen, kept) := (Select(o.context(n), 0.0), KeepRecent(c, FirstRoom(p)));
    SelectedFrom(o.context(n), 0.0);
    SelectAppend(o.context(n), Conversation(c), 0.0);
    PromptBuilt(o, p, n, c);
    CappedBefore(chosen, p.budget.caps);
    CappedToRoom(p, c);
    assert CappedAll(chosen + [Conversation(c)], p.budget.caps)
        == CappedAll(chosen, p.budget.caps) + [Conversation(kept)];
    SqueezedExactly(CappedAll(chosen, p.budget.caps), kept, Overall(p.budget));
    KeptIsShorter(c, FirstRoom(p));
    KeepRecentFits(kept, Tokens(c));
    others :| BeforeConversation(others) &&
      LeftOf(Surviving(o.context(n) + [Conversation(c)], p.budget, 0.0).value, others,
             KeepRecent(kept, SecondRoom(o, p, n, c)));
  }

  lemma {:induction false} KeptIsShorter(c: seq<Message>, cap: nat)
    ensures Tokens(KeepRecent(c, cap)) <= Tokens(c)
  {
    if c != [] {
      var (last, earlier) := (c[|c| - 1], c[..|c| - 1]);
      if MessageTokens(last) > cap {
        KeptIsShorter(earlier, cap);
      } else {
        KeptIsShorter(earlier, cap - MessageTokens(last));
        TokensAppend(KeepRecent(earlier, cap - MessageTokens(last)), last);
      }
    }
  }

  /** What a prompt keeps of a conversation, by the token counts of its messages and the two rooms that the
      budget leaves it. */
  function Kept(o: Oracle, p: Policy, n: nat, c: seq<Message>): (keep: seq<bool>)
    ensures |keep| == |c|
  {
    Twice(MessageTokens, c, FirstRoom(p), SecondRoom(o, p, n, c))
  }

  /** Under any budget a prompt is system text and then the part of the conversation that fits both rooms, and
      it is well shaped exactly if every exchange fits them whole or not at all. */
  lemma {:induction false} PromptShapedIff(o: Oracle, p: Policy, n: nat, c: seq<Message>)
    returns (system: seq<Message>)
    requires BeforeConversation(o.context(n)) && Shaped(c) && DistinctCalls(c)
    ensures ModelPrompt(o, p, n, c) == Some(system + Pick(c, Kept(o, p, n, c)))
    ensures forall m :: m in system ==> m.role == System
    ensures Shaped(system + Pick(c, Kept(o, p, n, c))) <==> Whole(c, Kept(o, p, n, c))
  {
    var others := PromptRemains(o, p, n, c);
    var kept := KeepRecent(c, FirstRoom(p));
    KeepRecentIsRecent(c, FirstRoom(p));
    KeepRecentIsRecent(kept, SecondRoom(o, p, n, c));
    RecentTwice(MessageTokens, c, FirstRoom(p), SecondRoom(o, p, n, c));
    assert Left(Surviving(o.context(n) + [Conversation(c)], p.budget, 0.0).value, c, Kept(o, p, n, c));
    system := JoinedLeft(Surviving(o.context(n) + [Conversation(c)], p.budget, 0.0).value, c, Kept(o, p, n, c));
    SystemPrefix(system, Pick(c, Kept(o, p, n, c)));
    PickShapedIff(c, Kept(o, p, n, c));
  }

  // ------------------------------------------------------------------ with room

  /** Everything that belongs into the prompt fits its own cap and the overall budget. */
  predicate RoomFor(o: Oracle, p: Policy, n: nat, c: seq<Message>) {
    Roomy(Select(o.context(n) + [Conversation(c)], 0.0), p.budget)
  }

  lemma WholeLeft(others: seq<Section>, c: seq<Message>, all: seq<bool>)
    requires BeforeConversation(others) && |all| == |c| && forall i :: 0 <= i < |all| ==> all[i]
    ensures Left(others + [Conversation(c)], c, all) && Pick(c, all) == c
  {
    PickAll(c, all);
    assert LeftOf(others + [Conversation(c)], others, Pick(c, all));
  }

  /** Then the prompt is system text and the whole conversation. */
  lemma {:induction false} RoomyPromptShaped(o: Oracle, p: Policy, n: nat, c: seq<Message>)
    returns (system: seq<Message>)
    requires BeforeConversation(o.context(n)) && RoomFor(o, p, n, c) && Shaped(c)
    ensures ModelPrompt(o, p, n, c) == Some(system + c) && forall m :: m in system ==> m.role == System
    ensures Shaped(system + c)
  {
    var (others, all) := (Select(o.context(n), 0.0), seq(|c|, _ => true));
    SelectedFrom(o.context(n), 0.0);
    SelectAppend(o.context(n), Conversation(c), 0.0);
    RoomyPrompt(o.context(n) + [Conversation(c)], p.budget, 0.0);
    WholeLeft(others, c, all);
    system := JoinedLeft(others + [Conversation(c)], c, all);
    SystemPrefix(system, c);
  }

  /** End to end: in a fresh run, every model call for which the budget has room gets a prompt in which
      each request for tools is answered at once, in order, and that holds the whole conversation. */
  lemma {:induction false} FreshRunPromptsShaped(o: Oracle, p: Policy, requested: Option<int>, input: string,
                                                 step: int, k: nat)
    requires forall n :: BeforeConversation(o.context(n))
    requires k < |Run(o, p, requested, [], input, step).1.given|
    requires RoomFor(o, p, k, Run(o, p, requested, [], input, step).1.given[k])
    ensures var c := Run(o, p, requested, [], input, step).1.given[k];
      exists system :: ModelPrompt(o, p, k, c) == Some(system + c) && Shaped(system + c)
  {
    var c := Run(o, p, requested, [], input, step).1.given[k];
    FreshRunShaped(o, p, requested, input, step);
    var system := RoomyPromptShaped(o, p, k, c);
  }
}
