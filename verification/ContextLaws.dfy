/** What the context builder keeps, drops and shortens, message by message and section by section. */
module ContextLaws {
  import opened Types
  import opened Wrappers
  import opened Numbers
  import opened ContextBuilder
  import opened AgentPrompts

  // ------------------------------------------------------------------ token estimates

  /** A text of `n` estimated tokens has more than `4 * (n - 1)` and at most `4 * n` characters. */
  lemma EstimateBounds(text: string)
    ensures var n := EstimateTokens(text); 4 * n - 4 < |text| <= 4 * n
  {
  }

  /** A message costs four tokens, those of its text, and those of name and arguments of each of its calls. */
  lemma {:induction false} MessageCost(m: Message, calls: seq<ToolCall>, call: ToolCall)
    ensures m.toolCalls == [] ==> MessageTokens(m) == 4 + EstimateTokens(m.content.GetOr(""))
    ensures MessageTokens(m.(toolCalls := calls + [call])) == MessageTokens(m.(toolCalls := calls))
      + EstimateTokens(call.name) + EstimateTokens(call.arguments)
  {
    CallTokensAppend(calls, call);
  }

  lemma {:induction false} CallTokensAppend(calls: seq<ToolCall>, call: ToolCall)
    ensures CallTokens(calls + [call])
      == CallTokens(calls) + EstimateTokens(call.name) + EstimateTokens(call.arguments)
  {
    if calls == [] {
      assert calls + [call] == [call] && [call][1..] == [];
    } else {
      assert (calls + [call])[1..] == calls[1..] + [call];
      CallTokensAppend(calls[1..], call);
    }
  }

  // ------------------------------------------------------------------ one section

  /** What is kept of the messages after the one at `i`. */
  function KeptAfter(messages: seq<Message>, keep: seq<bool>, i: nat): seq<Message>
    requires i < |messages| == |keep|
  {
    Pick(messages[i + 1..], keep[i + 1..])
  }

  /** Message by message: it is kept exactly if it fits beside what is kept of the later ones. */
  predicate Greedy(messages: seq<Message>, cap: nat, keep: seq<bool>)
    requires |keep| == |messages|
  {
    forall i :: 0 <= i < |messages| ==>
      (keep[i] <==> MessageTokens(messages[i]) + Tokens(KeptAfter(messages, keep, i)) <= cap)
  }

  lemma PickLast(messages: seq<Message>, keep: seq<bool>, last: Message, kept: bool)
    requires |keep| == |messages|
    ensures Pick(messages + [last], keep + [kept]) == Pick(messages, keep) + (if kept then [last] else [])
  {
    PickSplit(messages, [last], keep, [kept]);
    assert [last][1..] == [] && [kept][1..] == [];
  }

  lemma KeptAfterExtends(messages: seq<Message>, keep: seq<bool>, last: Message, kept: bool, i: nat)
    requires i < |messages| == |keep|
    ensures KeptAfter(messages + [last], keep + [kept], i)
      == KeptAfter(messages, keep, i) + (if kept then [last] else [])
  {
    assert (messages + [last])[i + 1..] == messages[i + 1..] + [last];
    assert (keep + [kept])[i + 1..] == keep[i + 1..] + [kept];
    PickLast(messages[i + 1..], keep[i + 1..], last, kept);
  }

  /** The room for the message at `i` when one message more stands at the end. */
  lemma RoomBefore(earlier: seq<Message>, before: seq<bool>, last: Message, kept: bool, i: nat)
    requires i < |earlier| == |before|
    ensures Tokens(KeptAfter(earlier + [last], before + [kept], i))
      == Tokens(KeptAfter(earlier, before, i)) + (if kept then MessageTokens(last) else 0)
  {
    KeptAfterExtends(earlier, before, last, kept, i);
    var later := KeptAfter(earlier, before, i);
    if kept { TokensAppend(later, last); } else { assert later + [] == later; }
  }

  /** One message more at the end, which leaves less room for the others if it fits. */
  lemma GreedyExtends(earlier: seq<Message>, before: seq<bool>, last: Message, cap: nat)
    requires |before| == |earlier|
    requires Greedy(earlier, if MessageTokens(last) <= cap then cap - MessageTokens(last) else cap, before)
    ensures Greedy(earlier + [last], cap, before + [MessageTokens(last) <= cap])
  {
    var kept := MessageTokens(last) <= cap;
    var messages, keep := earlier + [last], before + [kept];
    assert messages[|earlier|] == last && keep[|earlier|] == kept && KeptAfter(messages, keep, |earlier|) == [];
    forall i | 0 <= i < |earlier|
      ensures keep[i] <==> MessageTokens(messages[i]) + Tokens(KeptAfter(messages, keep, i)) <= cap
    {
      RoomBefore(earlier, before, last, kept, i);
      assert messages[i] == earlier[i] && keep[i] == before[i];
    }
  }

  /** The recent messages that fit are kept greedily, from the last one back. */
  lemma {:induction false} KeepRecentGreedy(messages: seq<Message>, cap: nat) returns (keep: seq<bool>)
    ensures |keep| == |messages| && KeepRecent(messages, cap) == Pick(messages, keep) && Greedy(messages, cap, keep)
  {
    if messages == [] {
      keep := [];
    } else {
      var (last, earlier) := (messages[|messages| - 1], messages[..|messages| - 1]);
      var kept := MessageTokens(last) <= cap;
      var before := KeepRecentGreedy(earlier, if kept then cap - MessageTokens(last) else cap);
      keep := before + [kept];
      assert messages == earlier + [last];
      PickLast(earlier, before, last, kept);
      GreedyExtends(earlier, before, last, cap);
    }
  }

  /** A payload within its share is left alone; a longer one keeps that much and says how much it has lost. */
  predicate Payload(m: Message, from: Message, share: nat) {
    if from.content.None? || |from.content.value| <= share then m == from
    else
      var (text, lost) := (from.content.value, |from.content.value| - share);
      m == Message(from.role, Some(text[..share] + "... [" + Decimal(lost) + " chars omitted]"), [], from.toolCallId,
                   from.name)
  }

  function Power(d: nat): nat { if d == 0 then 1 else 10 * Power(d - 1) }

  lemma {:induction false} DigitsBounded(n: nat, d: nat)
    requires d >= 1 && n < Power(d)
    ensures |Decimal(n)| <= d
    decreases d
  {
    if n >= 10 {
      assert d >= 2;
      DigitsBounded(n / 10, d - 1);
    }
  }

  lemma CompressedFits(m: Message, share: nat)
    requires m.toolCalls == [] && |m.content.GetOr("")| < Power(9)
    ensures Payload(Compress(m, share), m, share)
    ensures MessageTokens(Compress(m, share)) <= (share + 32) / 4 + 4
  {
    if m.content.Some? && |m.content.value| > share { DigitsBounded(|m.content.value| - share, 9); }
  }

  lemma {:induction false} TokensBounded(messages: seq<Message>, each: nat)
    requires forall i :: 0 <= i < |messages| ==> MessageTokens(messages[i]) <= each
    ensures Tokens(messages) <= |messages| * each
  {
    if messages != [] {
      TokensBounded(messages[..|messages| - 1], each);
      assert |messages| * each == (|messages| - 1) * each + each;
    }
  }

  /** Tool payloads are compressed before any is dropped: with at least forty tokens per result, every result
      stays, and of each payload its share of the room less eighty characters. */
  lemma PayloadsCompressed(s: Section, cap: nat, share: nat)
    requires s.name == "tool_results" && s.messages != [] && share >= 80
    requires |s.messages| * (share + 80) <= 4 * cap < |s.messages| * (share + 81)
    requires forall m :: m in s.messages ==> m.toolCalls == [] && |m.content.GetOr("")| < 1_000_000_000
    ensures |Shrunk(s, cap)| == |s.messages|
    ensures forall i :: 0 <= i < |s.messages| ==> Payload(Shrunk(s, cap)[i], s.messages[i], share)
  {
    var n := |s.messages|;
    var each := (share + 80) / 4;
    Shares(cap, n, share);
    var compressed := CompressAll(s.messages, share);
    assert Power(9) == 1_000_000_000;
    forall i | 0 <= i < n
      ensures MessageTokens(compressed[i]) <= each && Payload(compressed[i], s.messages[i], share)
    {
      assert s.messages[i] in s.messages;
      CompressedFits(s.messages[i], share);
    }
    TokensBounded(compressed, each);
    KeepRecentFits(compressed, cap);
  }

  lemma Monotone(n: nat, a: nat, b: nat)
    requires a <= b
    ensures n * a <= n * b
  {
  }

  lemma Quotient(x: nat, n: nat, q: nat)
    requires n * q <= x < n * (q + 1)
    ensures x / n == q
  {
    var d := x / n;
    assert n * d <= x < n * (d + 1);
    if d < q { Monotone(n, d + 1, q); }
    if q < d { Monotone(n, q + 1, d); }
  }

  lemma Shares(cap: nat, n: nat, share: nat)
    requires n >= 1 && share >= 80 && n * (share + 80) <= 4 * cap < n * (share + 81)
    ensures cap > 0 && PerMessage(n, cap) == share && n * ((share + 80) / 4) <= cap
  {
    Quotient(4 * cap, n, share + 80);
    assert cap * 4 == 4 * cap;
    assert 4 * ((share + 80) / 4) <= share + 80;
    assert n * (4 * ((share + 80) / 4)) <= n * (share + 80);
  }

  // ------------------------------------------------------------------ choosing sections

  /** Of the added sections exactly those relevant enough, or of priority at most ten, are chosen, in order. */
  lemma {:induction false} SelectFilters(a: seq<Section>, s: Section, minRelevance: real)
    ensures Select([], minRelevance) == []
    ensures Select(a + [s], minRelevance)
      == Select(a, minRelevance) + (if s.relevance >= minRelevance || s.priority <= 10 then [s] else [])
  {
    SelectAppend(a, s, minRelevance);
  }

  /** Sections over their cap are cut to it; the others are left alone. */
  lemma CapsCut(chosen: seq<Section>, caps: string -> int, i: nat)
    requires i < |chosen|
    ensures var s := CappedAll(chosen, caps)[i];
      && |CappedAll(chosen, caps)| == |chosen| && s == chosen[i].(messages := s.messages)
      && (Tokens(chosen[i].messages) <= caps(chosen[i].name) ==> s == chosen[i])
      && Tokens(s.messages) <= Max(caps(chosen[i].name), 0)
  {
    ShrunkFits(chosen[i], caps(chosen[i].name));
    if Tokens(chosen[i].messages) <= caps(chosen[i].name) { assert CappedAll(chosen, caps)[i] == chosen[i]; }
  }

  /** `a` has a higher priority number than `b`, or the same and more tokens. */
  predicate MoreDispensable(a: Section, b: Section) {
    a.priority > b.priority || (a.priority == b.priority && Tokens(a.messages) > Tokens(b.messages))
  }

  /** The victim is the first of the most dispensable sections. */
  lemma {:induction false} TopIsFirst(sections: seq<Section>)
    requires sections != []
    ensures forall j :: 0 <= j < |sections| ==> !MoreDispensable(sections[j], sections[Top(sections)])
    ensures forall j :: 0 <= j < Top(sections) ==> MoreDispensable(sections[Top(sections)], sections[j])
  {
    if |sections| > 1 {
      TopIsFirst(sections[1..]);
      forall j | 0 <= j < Top(sections) ensures MoreDispensable(sections[Top(sections)], sections[j]) {
        if j > 0 { assert sections[j] == sections[1..][j - 1]; }
      }
    }
  }

  // ------------------------------------------------------------------ the global cap

  function TakenOut<T>(s: seq<T>, v: nat): seq<T>
    requires v < |s|
  {
    s[..v] + s[v + 1..]
  }

  function PutIn<T>(s: seq<T>, v: nat, x: T): seq<T>
    requires v <= |s|
  {
    s[..v] + [x] + s[v..]
  }

  lemma PickSkips<T>(x: T, b: seq<T>, d: seq<bool>)
    requires |d| == |b|
    ensures Pick([x] + b, [false] + d) == Pick(b, d)
  {
    assert ([x] + b)[1..] == b && ([false] + d)[1..] == d;
  }

  lemma PickInserted<T>(a: seq<T>, x: T, b: seq<T>, c: seq<bool>, d: seq<bool>)
    requires |c| == |a| && |d| == |b|
    ensures Pick(a + ([x] + b), c + ([false] + d)) == Pick(a + b, c + d)
  {
    var (xb, fd) := ([x] + b, [false] + d);
    PickSkips(x, b, d);
    PickSplit(a, xb, c, fd);
    PickSplit(a, b, c, d);
  }

  lemma PickWithout<T>(s: seq<T>, v: nat, keep: seq<bool>)
    requires v < |s| && |keep| == |s| - 1
    ensures Pick(s, PutIn(keep, v, false)) == Pick(TakenOut(s, v), keep)
  {
    PickInserted(s[..v], s[v], s[v + 1..], keep[..v], keep[v..]);
    assert s == s[..v] + ([s[v]] + s[v + 1..]);
    assert PutIn(keep, v, false) == keep[..v] + ([false] + keep[v..]);
    assert keep == keep[..v] + keep[v..];
  }

  /** Sections that go are at least as dispensable as those that stay, and never of priority 0. */
  predicate DropsFirst(sections: seq<Section>, keep: seq<bool>)
    requires |keep| == |sections|
  {
    && (forall i :: 0 <= i < |keep| && !keep[i] ==> sections[i].priority != 0 && sections[i].messages != [])
    && (forall i, j :: 0 <= i < |keep| && 0 <= j < |keep| && !keep[i] && keep[j] ==>
          !MoreDispensable(sections[j], sections[i]))
  }

  /** No section that stays is more dispensable than the one at `cut`. */
  predicate MostDispensable(sections: seq<Section>, keep: seq<bool>, cut: nat)
    requires cut < |sections| == |keep|
  {
    && keep[cut] && sections[cut].priority != 0
    && forall j :: 0 <= j < |keep| && keep[j] ==> !MoreDispensable(sections[j], sections[cut])
  }

  /** What the others that stay leave the section at `cut`. */
  function RoomLeft(sections: seq<Section>, overall: int, keep: seq<bool>, cut: nat): int
    requires cut < |sections| == |keep|
  {
    overall - (Total(Pick(sections, keep)) - Tokens(sections[cut].messages))
  }

  /** The section takes less than it has, but not nothing. */
  predicate Shortens(s: Section, room: int) { 0 < room < Tokens(s.messages) && Shrunk(s, room) != [] }

  /** The section at `cut` is shortened to that. */
  predicate Shortened(sections: seq<Section>, overall: int, live: seq<Section>, keep: seq<bool>, cut: nat)
    requires cut < |sections| == |keep|
  {
    var room := RoomLeft(sections, overall, keep, cut);
    Shortens(sections[cut], room) && live == Pick(sections[cut := Cut(sections[cut], room)], keep)
  }

  /** What the global cap makes of the sections: those marked stay, and at most one of them, at `cut`, is shortened. */
  predicate Thinned(sections: seq<Section>, overall: int, live: seq<Section>, keep: seq<bool>, cut: nat)
    requires |keep| == |sections|
  {
    && DropsFirst(sections, keep)
    && if cut >= |sections| then live == Pick(sections, keep)
       else MostDispensable(sections, keep, cut) && Shortened(sections, overall, live, keep, cut)
  }

  lemma {:induction false} PickWhole<T>(s: seq<T>, keep: seq<bool>)
    requires |keep| == |s| && forall i :: 0 <= i < |keep| ==> keep[i]
    ensures Pick(s, keep) == s
  {
    if s != [] { PickWhole(s[1..], keep[1..]); }
  }

  /** Where position `i` of `TakenOut(s, v)` is in `s`. */
  function Back(v: nat, i: nat): nat { if i < v then i else i + 1 }

  /** Where position `i` of `s` is in `TakenOut(s, v)`. */
  lemma Elsewhere<T>(s: seq<T>, v: nat, keep: seq<bool>, i: nat) returns (k: nat)
    requires v < |s| && |keep| == |s| - 1 && i < |s| && i != v
    ensures k < |keep| && i == Back(v, k) && TakenOut(s, v)[k] == s[i] && PutIn(keep, v, false)[i] == keep[k]
  {
    k := if i < v then i else i - 1;
  }

  lemma DropsOthersFirst(sections: seq<Section>, keep: seq<bool>)
    requires sections != [] && |keep| == |sections| - 1
    requires sections[Top(sections)].priority != 0 && sections[Top(sections)].messages != []
    requires DropsFirst(TakenOut(sections, Top(sections)), keep)
    ensures DropsFirst(sections, PutIn(keep, Top(sections), false))
  {
    var v := Top(sections);
    var kept := PutIn(keep, v, false);
    TopIsFirst(sections);
    forall i | 0 <= i < |kept| && !kept[i] ensures sections[i].priority != 0 && sections[i].messages != [] {
      if i != v { var a := Elsewhere(sections, v, keep, i); }
    }
    forall i, j | 0 <= i < |kept| && 0 <= j < |kept| && !kept[i] && kept[j]
      ensures !MoreDispensable(sections[j], sections[i])
    {
      assert kept[v] == false;
      if i != v {
        var a := Elsewhere(sections, v, keep, i);
        var b := Elsewhere(sections, v, keep, j);
      }
    }
  }

  lemma MostOfOthers(sections: seq<Section>, v: nat, keep: seq<bool>, cut: nat)
    requires v < |sections| && |keep| == |sections| - 1 && cut < |keep|
    requires MostDispensable(TakenOut(sections, v), keep, cut)
    ensures MostDispensable(sections, PutIn(keep, v, false), Back(v, cut))
  {
    var (at, kept) := (Back(v, cut), PutIn(keep, v, false));
    var c := Elsewhere(sections, v, keep, at);
    forall j | 0 <= j < |kept| && kept[j] ensures !MoreDispensable(sections[j], sections[at]) {
      assert kept[v] == false;
      var b := Elsewhere(sections, v, keep, j);
    }
  }

  lemma TakenOutUpdate<T>(s: seq<T>, v: nat, cut: nat, x: T)
    requires v < |s| && cut < |s| - 1
    ensures TakenOut(s[Back(v, cut) := x], v) == TakenOut(s, v)[cut := x]
  {
  }

  lemma ShortenedOthers(sections: seq<Section>, overall: int, live: seq<Section>, v: nat, keep: seq<bool>, cut: nat)
    requires v < |sections| && |keep| == |sections| - 1 && cut < |keep|
    requires Shortened(TakenOut(sections, v), overall, live, keep, cut)
    ensures Shortened(sections, overall, live, PutIn(keep, v, false), Back(v, cut))
  {
    var (at, rest, kept) := (Back(v, cut), TakenOut(sections, v), PutIn(keep, v, false));
    assert rest[cut] == sections[at] by { var c := Elsewhere(sections, v, keep, at); }
    assert RoomLeft(sections, overall, kept, at) == RoomLeft(rest, overall, keep, cut) by {
      PickWithout(sections, v, keep);
    }
    PickUpdated(sections, v, keep, cut, Cut(rest[cut], RoomLeft(rest, overall, keep, cut)));
  }

  lemma PickUpdated<T>(s: seq<T>, v: nat, keep: seq<bool>, cut: nat, x: T)
    requires v < |s| && |keep| == |s| - 1 && cut < |keep|
    ensures Pick(s[Back(v, cut) := x], PutIn(keep, v, false)) == Pick(TakenOut(s, v)[cut := x], keep)
  {
    PickWithout(s[Back(v, cut) := x], v, keep);
    TakenOutUpdate(s, v, cut, x);
  }

  /** The most dispensable section has gone; what the cap makes of the others. */
  lemma ThinnedOthers(sections: seq<Section>, overall: int, live: seq<Section>, keep: seq<bool>, cut: nat)
    requires sections != [] && |keep| == |sections| - 1
    requires sections[Top(sections)].priority != 0 && sections[Top(sections)].messages != []
    requires Thinned(TakenOut(sections, Top(sections)), overall, live, keep, cut)
    ensures Thinned(sections, overall, live, PutIn(keep, Top(sections), false), Back(Top(sections), cut))
  {
    DropsOthersFirst(sections, keep);
    if cut < |keep| {
      MostOfOthers(sections, Top(sections), keep, cut);
      ShortenedOthers(sections, overall, live, Top(sections), keep, cut);
    } else {
      PickWithout(sections, Top(sections), keep);
    }
  }

  /** A round that leaves something of its section is the last. */
  lemma ShortenedFits(sections: seq<Section>, overall: int)
    requires Excessive(sections, overall) && Shrunk(sections[Top(sections)], Target(sections, overall)) != []
    ensures var (v, target) := (Top(sections), Target(sections, overall));
      && CutDown(sections, overall) == sections[v := Cut(sections[v], target)]
      && Total(CutDown(sections, overall)) <= overall
      && 0 < target == overall - (Total(sections) - Tokens(sections[v].messages)) < Tokens(sections[v].messages)
  {
    var (v, target) := (Top(sections), Target(sections, overall));
    SomeTokens(Shrunk(sections[v], target));
    ShrunkFits(sections[v], target);
    TotalUpdate(sections, v, Cut(sections[v], target));
  }

  function Everywhere(n: nat): (keep: seq<bool>)
    ensures |keep| == n && forall i :: 0 <= i < n ==> keep[i]
  {
    seq(n, _ => true)
  }

  lemma NoRound(sections: seq<Section>, overall: int, live: seq<Section>)
    requires Squeezed(sections, overall) == Some(live)
    requires !Excessive(sections, overall) || sections[Top(sections)].priority == 0
    ensures Thinned(sections, overall, live, Everywhere(|sections|), |sections|)
  {
    PickWhole(sections, Everywhere(|sections|));
  }

  lemma LastRound(sections: seq<Section>, overall: int, live: seq<Section>)
    requires Squeezed(sections, overall) == Some(live)
    requires Excessive(sections, overall) && sections[Top(sections)].priority != 0
    requires Shrunk(sections[Top(sections)], Target(sections, overall)) != []
    ensures Thinned(sections, overall, live, Everywhere(|sections|), Top(sections))
  {
    LiveAfterLast(sections, overall, live);
    ShortenedFits(sections, overall);
    TopIsFirst(sections);
    PickWhole(sections, Everywhere(|sections|));
    PickWhole(live, Everywhere(|sections|));
  }

  lemma LiveAfterLast(sections: seq<Section>, overall: int, live: seq<Section>)
    requires Squeezed(sections, overall) == Some(live)
    requires Excessive(sections, overall) && sections[Top(sections)].priority != 0
    requires Shrunk(sections[Top(sections)], Target(sections, overall)) != []
    ensures live == CutDown(sections, overall)
  {
    ShortenedFits(sections, overall);
    CutDownFalls(sections, overall);
  }

  lemma AnotherRound(sections: seq<Section>, overall: int, live: seq<Section>)
    requires Squeezed(sections, overall) == Some(live)
    requires Excessive(sections, overall) && sections[Top(sections)].priority != 0
    requires Shrunk(sections[Top(sections)], Target(sections, overall)) == []
    ensures var rest := TakenOut(sections, Top(sections));
      if rest == [] then live == [] else Squeezed(rest, overall) == Some(live)
  {
    assert Tokens([]) == 0;
    assert CutDown(sections, overall) == TakenOut(sections, Top(sections));
    CutDownFalls(sections, overall);
  }

  /** The global cap drops sections whole, the most dispensable first, and shortens at most one. */
  lemma {:induction false} SqueezedThins(sections: seq<Section>, overall: int, live: seq<Section>)
    returns (keep: seq<bool>, cut: nat)
    requires Squeezed(sections, overall) == Some(live)
    ensures |keep| == |sections| && Thinned(sections, overall, live, keep, cut)
    decreases |sections|
  {
    if !Excessive(sections, overall) || sections[Top(sections)].priority == 0 {
      keep, cut := Everywhere(|sections|), |sections|;
      NoRound(sections, overall, live);
    } else if Shrunk(sections[Top(sections)], Target(sections, overall)) != [] {
      keep, cut := Everywhere(|sections|), Top(sections);
      LastRound(sections, overall, live);
    } else {
      AnotherRound(sections, overall, live);
      keep, cut := OthersThin(sections, overall, live);
    }
  }

  lemma {:induction false} OthersThin(sections: seq<Section>, overall: int, live: seq<Section>)
    returns (keep: seq<bool>, cut: nat)
    requires sections != [] && sections[Top(sections)].priority != 0 && sections[Top(sections)].messages != []
    requires var rest := TakenOut(sections, Top(sections));
      if rest == [] then live == [] else Squeezed(rest, overall) == Some(live)
    ensures |keep| == |sections| && Thinned(sections, overall, live, keep, cut)
    decreases |sections|, 0
  {
    var v := Top(sections);
    var rest := TakenOut(sections, v);
    var others, at := [], 0;
    if rest != [] { others, at := SqueezedThins(rest, overall, live); }
    keep, cut := PutIn(others, v, false), Back(v, at);
    ThinnedOthers(sections, overall, live, others, at);
  }

  // ------------------------------------------------------------------ the order of the prompt

  predicate HasKey(s: Section, order: int, priority: int) { s.order == order && s.priority == priority }

  /** The sections with this order and priority. */
  function Alike(sections: seq<Section>, order: int, priority: int): seq<Section> {
    if sections == [] then []
    else if HasKey(sections[0], order, priority) then [sections[0]] + Alike(sections[1..], order, priority)
    else Alike(sections[1..], order, priority)
  }

  lemma AlikeFirst(s: Section, rest: seq<Section>, order: int, priority: int)
    ensures Alike([s] + rest, order, priority)
      == if HasKey(s, order, priority) then [s] + Alike(rest, order, priority) else Alike(rest, order, priority)
  {
    assert ([s] + rest)[1..] == rest;
  }

  lemma {:induction false} InsertedFirst(s: Section, sorted: seq<Section>, order: int, priority: int)
    ensures Alike(Insert(s, sorted), order, priority) == Alike([s] + sorted, order, priority)
  {
    if sorted != [] && !InOrder(s, sorted[0]) {
      var (x, rest) := (sorted[0], sorted[1..]);
      assert sorted == [x] + rest && Insert(s, sorted) == [x] + Insert(s, rest);
      InsertedFirst(s, rest, order, priority);
      AlikeFirst(x, Insert(s, rest), order, priority);
      AlikeFirst(s, rest, order, priority);
      AlikeFirst(x, rest, order, priority);
      AlikeFirst(s, sorted, order, priority);
    }
  }

  /** Sections of one order and priority stay in the order in which they were added: the sort is stable. */
  lemma {:induction false} ArrangedStable(sections: seq<Section>, order: int, priority: int)
    ensures Alike(Arranged(sections), order, priority) == Alike(sections, order, priority)
  {
    if sections != [] {
      ArrangedStable(sections[1..], order, priority);
      InsertedFirst(sections[0], Arranged(sections[1..]), order, priority);
      AlikeFirst(sections[0], Arranged(sections[1..]), order, priority);
    }
  }

  /** Every prompt: what is chosen is cut to its caps, thinned to what the budget has beside the output, and put in
      order. */
  lemma {:induction false} PromptThins(added: seq<Section>, budget: Budget, minRelevance: real)
    returns (live: seq<Section>, keep: seq<bool>, cut: nat)
    requires Prompt(added, budget, minRelevance).Some?
    ensures var capped := CappedAll(Select(added, minRelevance), budget.caps);
      && |keep| == |capped| && Thinned(capped, budget.maxTokens - budget.reserveOutput, live, keep, cut)
      && Prompt(added, budget, minRelevance) == Some(Joined(Arranged(live)))
      && Ascending(Arranged(live)) && multiset(Arranged(live)) == multiset(live)
  {
    live := Surviving(added, budget, minRelevance).value;
    keep, cut := SqueezedThins(CappedAll(Select(added, minRelevance), budget.caps), Overall(budget), live);
    ArrangedAscends(live);
  }
}
