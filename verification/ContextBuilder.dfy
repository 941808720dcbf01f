/** The budgeted context builder, with `summariser=False`. */
module ContextBuilder {
  import opened Types
  import opened Wrappers
  import opened Numbers

  datatype Section = Section(name: string, messages: seq<Message>, priority: int, order: int, relevance: real)

  /** `caps` is `limit_for`. */
  datatype Budget = Budget(maxTokens: int, reserveOutput: int, caps: string -> int)

  // ------------------------------------------------------------------ token estimates

  function EstimateTokens(text: string): nat {
    if text == "" then 0 else if (|text| + 3) / 4 < 1 then 1 else (|text| + 3) / 4
  }

  function CallTokens(calls: seq<ToolCall>): nat {
    if calls == [] then 0
    else EstimateTokens(calls[0].name) + EstimateTokens(calls[0].arguments) + CallTokens(calls[1..])
  }

  function MessageTokens(m: Message): (n: nat)
    ensures n >= 4
  {
    EstimateTokens(m.content.GetOr("")) + 4 + CallTokens(m.toolCalls)
  }

  function Tokens(messages: seq<Message>): nat {
    if messages == [] then 0 else Tokens(messages[..|messages| - 1]) + MessageTokens(messages[|messages| - 1])
  }

  function Total(sections: seq<Section>): nat {
    if sections == [] then 0 else Tokens(sections[0].messages) + Total(sections[1..])
  }

  // ------------------------------------------------------------------ shrinking one section

  function Compress(m: Message, limit: nat): Message {
    if m.content.Some? && |m.content.value| > limit then
      Message(m.role, Some(m.content.value[..limit] + "... [" + Decimal(|m.content.value| - limit) + " chars omitted]"),
              [], m.toolCallId, m.name)
    else m
  }

  function CompressAll(messages: seq<Message>, limit: nat): (r: seq<Message>)
    ensures |r| == |messages| && forall i :: 0 <= i < |r| ==> r[i] == Compress(messages[i], limit)
  {
    if messages == [] then [] else [Compress(messages[0], limit)] + CompressAll(messages[1..], limit)
  }

  function PerMessage(count: nat, cap: nat): nat {
    var chars := (cap * 4) / (if count < 1 then 1 else count) - 80;
    if chars < 80 then 80 else chars
  }

  /** The most recent messages that fit, a message that does not fit being passed over. */
  function KeepRecent(messages: seq<Message>, cap: nat): seq<Message> {
    if messages == [] then []
    else
      var (last, earlier) := (messages[|messages| - 1], messages[..|messages| - 1]);
      if MessageTokens(last) > cap then KeepRecent(earlier, cap)
      else KeepRecent(earlier, cap - MessageTokens(last)) + [last]
  }

  /** `_shrink`. */
  function Shrunk(s: Section, cap: int): seq<Message> {
    if cap <= 0 then []
    else if s.name == "tool_results" then KeepRecent(CompressAll(s.messages, PerMessage(|s.messages|, cap)), cap)
    else KeepRecent(s.messages, cap)
  }

  method Shrink(s: Section, cap: int) returns (kept: seq<Message>)
    ensures kept == Shrunk(s, cap)
  {
    if cap <= 0 { return []; }
    var messages := s.messages;
    if s.name == "tool_results" { messages := CompressAll(messages, PerMessage(|messages|, cap)); }
    kept := KeepFromEnd(messages, cap);
  }

  /** The accumulator loop, from the last message backwards. */
  method KeepFromEnd(messages: seq<Message>, cap: nat) returns (kept: seq<Message>)
    ensures kept == KeepRecent(messages, cap)
  {
    kept := [];
    var tokens, i := 0, |messages|;
    assert messages[..|messages|] == messages;
    while i > 0
      invariant 0 <= i <= |messages| && 0 <= tokens <= cap
      invariant KeepRecent(messages, cap) == KeepRecent(messages[..i], cap - tokens) + kept
    {
      KeepRecentStep(messages, i - 1, cap - tokens);
      i := i - 1;
      var cost := MessageTokens(messages[i]);
      if tokens + cost <= cap {
        kept := [messages[i]] + kept;
        tokens := tokens + cost;
      }
    }
  }

  lemma KeepRecentStep(messages: seq<Message>, i: nat, room: nat)
    requires i < |messages|
    ensures KeepRecent(messages[..i + 1], room) ==
      if MessageTokens(messages[i]) > room then KeepRecent(messages[..i], room)
      else KeepRecent(messages[..i], room - MessageTokens(messages[i])) + [messages[i]]
  {
    assert messages[..i + 1][..i] == messages[..i];
  }

  lemma TokensAppend(messages: seq<Message>, m: Message)
    ensures Tokens(messages + [m]) == Tokens(messages) + MessageTokens(m)
  {
    assert (messages + [m])[..|messages|] == messages;
  }

  lemma {:induction false} KeepRecentFits(messages: seq<Message>, cap: nat)
    ensures Tokens(KeepRecent(messages, cap)) <= cap
    ensures Tokens(messages) <= cap ==> KeepRecent(messages, cap) == messages
  {
    if messages != [] {
      var (last, earlier) := (messages[|messages| - 1], messages[..|messages| - 1]);
      assert messages == earlier + [last];
      if MessageTokens(last) > cap {
        KeepRecentFits(earlier, cap);
      } else {
        KeepRecentFits(earlier, cap - MessageTokens(last));
        TokensAppend(KeepRecent(earlier, cap - MessageTokens(last)), last);
      }
    }
  }

  lemma ShrunkFits(s: Section, cap: int)
    ensures Tokens(Shrunk(s, cap)) <= if cap < 0 then 0 else cap
  {
    if cap > 0 {
      KeepRecentFits(CompressAll(s.messages, PerMessage(|s.messages|, cap)), cap);
      KeepRecentFits(s.messages, cap);
    }
  }

  // ------------------------------------------------------------------ what survives

  /** The message itself, or a compressed copy: same role, ids and first 80 characters. */
  predicate Stems(m: Message, from: Message, lossy: bool) {
    || m == from
    || (lossy && m.role == from.role && m.toolCallId == from.toolCallId && m.name == from.name
        && m.content.Some? && from.content.Some? && |m.content.value| >= 80 && |from.content.value| >= 80
        && m.content.value[..80] == from.content.value[..80])
  }

  /** `out` is a subsequence of `inp`, up to `Stems`. */
  predicate Derived(out: seq<Message>, inp: seq<Message>, lossy: bool) {
    if inp == [] then out == []
    else
      || Derived(out, inp[..|inp| - 1], lossy)
      || (out != [] && Stems(out[|out| - 1], inp[|inp| - 1], lossy)
        && Derived(out[..|out| - 1], inp[..|inp| - 1], lossy))
  }

  lemma {:induction false} DerivedSelf(m: seq<Message>, lossy: bool)
    ensures Derived(m, m, lossy) && Derived([], m, lossy)
  {
    if m != [] { DerivedSelf(m[..|m| - 1], lossy); }
  }

  lemma {:induction false} DerivedTransitive(a: seq<Message>, b: seq<Message>, c: seq<Message>, lossy: bool)
    requires Derived(a, b, lossy) && Derived(b, c, lossy)
    ensures Derived(a, c, lossy)
    decreases |c|, |b|
  {
    if c == [] {
    } else if Derived(b, c[..|c| - 1], lossy) {
      DerivedTransitive(a, b, c[..|c| - 1], lossy);
    } else if Derived(a, b[..|b| - 1], lossy) {
      DerivedTransitive(a, b[..|b| - 1], c[..|c| - 1], lossy);
    } else {
      DerivedTransitive(a[..|a| - 1], b[..|b| - 1], c[..|c| - 1], lossy);
    }
  }

  lemma {:induction false} KeepRecentDerived(messages: seq<Message>, cap: nat, lossy: bool)
    ensures Derived(KeepRecent(messages, cap), messages, lossy)
  {
    if messages != [] {
      var (last, earlier) := (messages[|messages| - 1], messages[..|messages| - 1]);
      if MessageTokens(last) > cap {
        KeepRecentDerived(earlier, cap, lossy);
      } else {
        KeepRecentDerived(earlier, cap - MessageTokens(last), lossy);
        var kept := KeepRecent(messages, cap);
        assert kept[..|kept| - 1] == KeepRecent(earlier, cap - MessageTokens(last));
      }
    }
  }

  lemma CompressStems(m: Message, limit: nat)
    requires limit >= 80
    ensures Stems(Compress(m, limit), m, true)
  {
  }

  lemma {:induction false} CompressDerived(messages: seq<Message>, limit: nat)
    requires limit >= 80
    ensures Derived(CompressAll(messages, limit), messages, true)
  {
    if messages != [] {
      var (n, out) := (|messages| - 1, CompressAll(messages, limit));
      CompressDerived(messages[..n], limit);
      assert out[..n] == CompressAll(messages[..n], limit);
      CompressStems(messages[n], limit);
    }
  }

  lemma ShrunkDerived(s: Section, cap: int)
    ensures Derived(Shrunk(s, cap), s.messages, s.name == "tool_results")
  {
    if cap <= 0 {
      DerivedSelf(s.messages, s.name == "tool_results");
    } else if s.name == "tool_results" {
      var squeezed := CompressAll(s.messages, PerMessage(|s.messages|, cap));
      CompressDerived(s.messages, PerMessage(|s.messages|, cap));
      KeepRecentDerived(squeezed, cap, true);
      DerivedTransitive(KeepRecent(squeezed, cap), squeezed, s.messages, true);
    } else {
      KeepRecentDerived(s.messages, cap, false);
    }
  }

  // ------------------------------------------------------------------ building

  /** `a` is at least as dispensable as `b`: the key of the builder's `max`. */
  predicate Above(a: Section, b: Section) {
    a.priority > b.priority || (a.priority == b.priority && Tokens(a.messages) >= Tokens(b.messages))
  }

  function Top(sections: seq<Section>): (t: nat)
    requires sections != []
    ensures t < |sections| && forall j :: 0 <= j < |sections| ==> Above(sections[t], sections[j])
  {
    if |sections| == 1 then 0
    else
      var t := Top(sections[1..]) + 1;
      assert forall j :: 1 <= j < |sections| ==> sections[j] == sections[1..][j - 1];
      if Above(sections[0], sections[t]) then 0 else t
  }

  predicate Selected(s: Section, minRelevance: real) { s.relevance >= minRelevance || s.priority <= 10 }

  function Select(sections: seq<Section>, minRelevance: real): seq<Section> {
    if sections == [] then []
    else (if Selected(sections[0], minRelevance) then [sections[0]] else []) + Select(sections[1..], minRelevance)
  }

  lemma {:induction false} SelectAppend(a: seq<Section>, s: Section, minRelevance: real)
    ensures Select(a + [s], minRelevance) == Select(a, minRelevance) + (if Selected(s, minRelevance) then [s] else [])
  {
    if a == [] {
      assert a + [s] == [s] && [s][1..] == [];
    } else {
      assert (a + [s])[0] == a[0] && (a + [s])[1..] == a[1..] + [s];
      SelectAppend(a[1..], s, minRelevance);
      Regrouped(if Selected(a[0], minRelevance) then [a[0]] else [], Select(a[1..], minRelevance),
                if Selected(s, minRelevance) then [s] else []);
    }
  }

  lemma Regrouped<T>(a: seq<T>, b: seq<T>, c: seq<T>)
    ensures a + b + c == a + (b + c)
  {
  }

  /** A section of the output and where it comes from. */
  predicate Trimmed(s: Section, from: Section) {
    s == from.(messages := s.messages) && Derived(s.messages, from.messages, from.name == "tool_results")
  }

  ghost predicate ComesFrom(s: Section, from: seq<Section>) { exists j :: 0 <= j < |from| && Trimmed(s, from[j]) }

  ghost predicate AllTrimmed(sections: seq<Section>, from: seq<Section>) {
    forall s :: s in sections ==> ComesFrom(s, from)
  }

  lemma TrimmedSelf(sections: seq<Section>)
    ensures AllTrimmed(sections, sections)
  {
    forall s | s in sections ensures ComesFrom(s, sections) {
      var i :| 0 <= i < |sections| && sections[i] == s;
      DerivedSelf(s.messages, s.name == "tool_results");
      assert Trimmed(s, sections[i]);
    }
  }

  lemma TrimmedTransitive(a: seq<Section>, b: seq<Section>, c: seq<Section>)
    requires AllTrimmed(a, b) && AllTrimmed(b, c)
    ensures AllTrimmed(a, c)
  {
    forall s | s in a ensures ComesFrom(s, c) {
      var j :| 0 <= j < |b| && Trimmed(s, b[j]);
      assert b[j] in b && ComesFrom(b[j], c);
      var k :| 0 <= k < |c| && Trimmed(b[j], c[k]);
      DerivedTransitive(s.messages, b[j].messages, c[k].messages, c[k].name == "tool_results");
      assert Trimmed(s, c[k]);
    }
  }

  lemma {:induction false} TotalAppend(a: seq<Section>, b: seq<Section>)
    ensures Total(a + b) == Total(a) + Total(b)
  {
    if a == [] {
      assert a + b == b;
    } else {
      assert (a + b)[1..] == a[1..] + b;
      TotalAppend(a[1..], b);
    }
  }

  /** The total with section `i` taken out, and with it put back. */
  lemma TotalSplit(sections: seq<Section>, i: nat)
    requires i < |sections|
    ensures Total(sections) == Total(sections[..i]) + Tokens(sections[i].messages) + Total(sections[i + 1..])
    ensures Total(sections[..i] + sections[i + 1..]) == Total(sections) - Tokens(sections[i].messages)
  {
    var (before, rest) := (sections[..i], sections[i..]);
    assert sections == before + rest && rest[1..] == sections[i + 1..];
    TotalAppend(before, rest);
    TotalAppend(before, sections[i + 1..]);
  }

  lemma TotalUpdate(sections: seq<Section>, i: nat, s: Section)
    requires i < |sections|
    ensures Total(sections[i := s]) == Total(sections) - Tokens(sections[i].messages) + Tokens(s.messages)
  {
    var updated := sections[i := s];
    TotalSplit(sections, i);
    TotalSplit(updated, i);
    assert updated[..i] == sections[..i] && updated[i + 1..] == sections[i + 1..];
  }

  function Cut(s: Section, cap: int): Section { s.(messages := Shrunk(s, cap)) }

  lemma CutTrims(sections: seq<Section>, i: nat, cap: int)
    requires i < |sections|
    ensures AllTrimmed(sections[i := Cut(sections[i], cap)], sections)
  {
    TrimmedSelf(sections);
    var cut := sections[i := Cut(sections[i], cap)];
    forall s | s in cut ensures ComesFrom(s, sections) {
      if s == cut[i] {
        ShrunkDerived(sections[i], cap);
        assert Trimmed(s, sections[i]);
      } else {
        assert s in sections;
      }
    }
  }

  function Capped(s: Section, caps: string -> int): Section {
    if Tokens(s.messages) > caps(s.name) then Cut(s, caps(s.name)) else s
  }

  function CappedAll(chosen: seq<Section>, caps: string -> int): seq<Section> {
    seq(|chosen|, i requires 0 <= i < |chosen| => Capped(chosen[i], caps))
  }

  /** The per-section caps. */
  method ApplyCaps(chosen: seq<Section>, caps: string -> int) returns (sections: seq<Section>)
    ensures sections == CappedAll(chosen, caps)
  {
    sections := chosen;
    for i := 0 to |chosen|
      invariant |sections| == |chosen|
      invariant forall k :: i <= k < |chosen| ==> sections[k] == chosen[k]
      invariant forall k :: 0 <= k < i ==> sections[k] == Capped(chosen[k], caps)
    {
      var cap := caps(sections[i].name);
      if Tokens(sections[i].messages) > cap {
        var kept := Shrink(sections[i], cap);
        sections := sections[i := sections[i].(messages := kept)];
      }
    }
  }

  lemma CapsTrim(chosen: seq<Section>, caps: string -> int, sections: seq<Section>)
    requires |sections| == |chosen| && forall i :: 0 <= i < |chosen| ==> sections[i] == Capped(chosen[i], caps)
    ensures AllTrimmed(sections, chosen)
  {
    forall s | s in sections ensures ComesFrom(s, chosen) {
      var i :| 0 <= i < |sections| && sections[i] == s;
      DerivedSelf(chosen[i].messages, chosen[i].name == "tool_results");
      ShrunkDerived(chosen[i], caps(chosen[i].name));
      assert Trimmed(s, chosen[i]);
    }
  }

  /** Why the global loop stops: it all fits, nothing is left, or the most dispensable section is
      empty or must stay. */
  predicate Settled(sections: seq<Section>, overall: int) {
    || Total(sections) <= overall
    || sections == []
    || sections[Top(sections)].messages == []
    || sections[Top(sections)].priority == 0
  }

  predicate Excessive(sections: seq<Section>, overall: int) {
    sections != [] && Total(sections) > overall && sections[Top(sections)].messages != []
  }

  /** What the most dispensable section may keep. */
  function Target(sections: seq<Section>, overall: int): nat
    requires Excessive(sections, overall)
  {
    var left := Tokens(sections[Top(sections)].messages) - (Total(sections) - overall);
    if left < 0 then 0 else left
  }

  /** The sections after one round. */
  function CutDown(sections: seq<Section>, overall: int): seq<Section>
    requires Excessive(sections, overall)
  {
    var v := Top(sections);
    var s := Cut(sections[v], Target(sections, overall));
    if Tokens(s.messages) == 0 then sections[..v] + sections[v + 1..] else sections[v := s]
  }

  /** One round of the global loop: the most dispensable section gives up the excess, so the total
      falls; if it has nothing left it goes. */
  lemma CutDownFalls(sections: seq<Section>, overall: int)
    requires Excessive(sections, overall)
    ensures AllTrimmed(CutDown(sections, overall), sections) && Total(CutDown(sections, overall)) < Total(sections)
  {
    var (v, target) := (Top(sections), Target(sections, overall));
    var cut := sections[v := Cut(sections[v], target)];
    TopCutFalls(sections, overall);
    CutTrims(sections, v, target);
    if Tokens(cut[v].messages) == 0 {
      assert sections[..v] == cut[..v] && sections[v + 1..] == cut[v + 1..];
      WithoutTrimmed(cut, v, sections);
    }
  }

  lemma WithoutTrimmed(cut: seq<Section>, v: nat, from: seq<Section>)
    requires v < |cut| && AllTrimmed(cut, from)
    ensures AllTrimmed(cut[..v] + cut[v + 1..], from) && Total(cut[..v] + cut[v + 1..]) <= Total(cut)
  {
    TotalSplit(cut, v);
    forall s | s in cut[..v] + cut[v + 1..] ensures s in cut { }
  }

  lemma TopCutFalls(sections: seq<Section>, overall: int)
    requires Excessive(sections, overall)
    ensures var v := Top(sections);
      Total(sections[v := Cut(sections[v], Target(sections, overall))]) < Total(sections)
  {
    var (v, target) := (Top(sections), Target(sections, overall));
    ShrunkFits(sections[v], target);
    TotalUpdate(sections, v, Cut(sections[v], target));
    SomeTokens(sections[v].messages);
  }

  lemma SomeTokens(messages: seq<Message>)
    requires messages != []
    ensures Tokens(messages) >= 4
  {
  }

  method CutTop(sections: seq<Section>, overall: int) returns (rest: seq<Section>)
    requires Excessive(sections, overall)
    ensures rest == CutDown(sections, overall)
  {
    var v := Top(sections);
    var kept := Shrink(sections[v], Target(sections, overall));
    rest := sections[v := sections[v].(messages := kept)];
    if Tokens(kept) == 0 { rest := sections[..v] + sections[v + 1..]; }
  }

  /** What the global cap leaves. `None` is the `ValueError` of `max` over no sections at all. */
  function Squeezed(sections: seq<Section>, overall: int): Option<seq<Section>>
    decreases Total(sections)
  {
    if Total(sections) <= overall then Some(sections)
    else if sections == [] then None
    else if sections[Top(sections)].messages == [] || sections[Top(sections)].priority == 0 then Some(sections)
    else
      CutDownFalls(sections, overall);
      var rest := CutDown(sections, overall);
      if rest == [] then Some([]) else Squeezed(rest, overall)
  }

  /** The global loop ends; then all fits, or nothing is left, or the top section is empty or must stay. */
  lemma {:induction false} SqueezedSettles(capped: seq<Section>, overall: int)
    ensures Squeezed(capped, overall).None? <==> capped == [] && overall < 0
    ensures Squeezed(capped, overall).Some? ==>
      var live := Squeezed(capped, overall).value;
      Settled(live, overall) && AllTrimmed(live, capped) && Total(live) <= Total(capped)
    decreases Total(capped)
  {
    TrimmedSelf(capped);
    if Total(capped) > overall && capped != [] && capped[Top(capped)].messages != []
      && capped[Top(capped)].priority != 0 {
      var rest := CutDown(capped, overall);
      CutDownFalls(capped, overall);
      if rest != [] {
        SqueezedSettles(rest, overall);
        TrimmedTransitive(Squeezed(rest, overall).value, rest, capped);
      }
    }
  }

  /** The loop itself. */
  method ApplyOverall(capped: seq<Section>, overall: int) returns (r: Option<seq<Section>>)
    ensures r == Squeezed(capped, overall)
  {
    var sections := capped;
    while Total(sections) > overall
      invariant Squeezed(sections, overall) == Squeezed(capped, overall)
      decreases Total(sections)
    {
      if sections == [] { return None; }
      var v := Top(sections);
      if sections[v].messages == [] || sections[v].priority == 0 { break; }
      CutDownFalls(sections, overall);
      sections := CutTop(sections, overall);
      if sections == [] { return Some([]); }
    }
    r := Some(sections);
  }

  predicate InOrder(a: Section, b: Section) { a.order < b.order || (a.order == b.order && a.priority <= b.priority) }

  function Insert(s: Section, sorted: seq<Section>): (r: seq<Section>)
    ensures multiset(r) == multiset(sorted) + multiset{s}
  {
    if sorted == [] then [s]
    else if InOrder(s, sorted[0]) then [s] + sorted
    else
      assert sorted == [sorted[0]] + sorted[1..];
      [sorted[0]] + Insert(s, sorted[1..])
  }

  /** Python's stable `sorted` by (order, priority). */
  function Arranged(sections: seq<Section>): (r: seq<Section>)
    ensures multiset(r) == multiset(sections)
  {
    if sections == [] then []
    else
      assert sections == [sections[0]] + sections[1..];
      Insert(sections[0], Arranged(sections[1..]))
  }

  predicate Ascending(sections: seq<Section>) {
    forall i, j :: 0 <= i < j < |sections| ==> InOrder(sections[i], sections[j])
  }

  lemma {:induction false} InsertAscends(s: Section, sorted: seq<Section>)
    requires Ascending(sorted)
    ensures Ascending(Insert(s, sorted))
  {
    if sorted != [] && !InOrder(s, sorted[0]) {
      InsertAscends(s, sorted[1..]);
      var rest := Insert(s, sorted[1..]);
      forall x | x in rest ensures InOrder(sorted[0], x) {
        assert x in multiset(rest);
        if x != s { assert x in multiset(sorted[1..]); }
      }
    }
  }

  lemma {:induction false} ArrangedAscends(sections: seq<Section>)
    ensures Ascending(Arranged(sections))
  {
    if sections != [] {
      ArrangedAscends(sections[1..]);
      InsertAscends(sections[0], Arranged(sections[1..]));
    }
  }

  function Joined(sections: seq<Section>): seq<Message> {
    if sections == [] then [] else sections[0].messages + Joined(sections[1..])
  }

  /** The sections that survive, in the order they were added. */
  function Surviving(added: seq<Section>, budget: Budget, minRelevance: real): Option<seq<Section>> {
    Squeezed(CappedAll(Select(added, minRelevance), budget.caps), Overall(budget))
  }

  /** The prompt; `None` is an escaping `ValueError`. */
  function Prompt(added: seq<Section>, budget: Budget, minRelevance: real): Option<seq<Message>> {
    var live := Surviving(added, budget, minRelevance);
    if live.None? then None else Some(Joined(Arranged(live.value)))
  }

  /** `build`. */
  method Build(added: seq<Section>, budget: Budget, minRelevance: real) returns (messages: Option<seq<Message>>)
    ensures messages == Prompt(added, budget, minRelevance)
  {
    var chosen := Select(added, minRelevance);
    var capped := ApplyCaps(chosen, budget.caps);
    var live := ApplyOverall(capped, Overall(budget));
    if live.None? { return None; }
    messages := Some(Joined(Arranged(live.value)));
  }

  /** What every prompt is: sections in order, each trimmed from what was added, and settled; only no
      sections and a negative budget raise. */
  lemma {:induction false} PromptTrimmed(added: seq<Section>, budget: Budget, minRelevance: real)
    ensures Prompt(added, budget, minRelevance).None?
       <==> Select(added, minRelevance) == [] && budget.maxTokens < budget.reserveOutput
    ensures Prompt(added, budget, minRelevance).Some? ==>
      var live := Surviving(added, budget, minRelevance).value;
      && Prompt(added, budget, minRelevance).value == Joined(Arranged(live)) && Ascending(Arranged(live))
      && Settled(live, Overall(budget)) && AllTrimmed(live, Select(added, minRelevance))
  {
    var chosen := Select(added, minRelevance);
    var capped := CappedAll(chosen, budget.caps);
    CapsTrim(chosen, budget.caps, capped);
    SqueezedSettles(capped, Overall(budget));
    if Squeezed(capped, Overall(budget)).Some? {
      TrimmedTransitive(Squeezed(capped, Overall(budget)).value, capped, chosen);
      ArrangedAscends(Squeezed(capped, Overall(budget)).value);
    }
  }

  /** With room for everything, everything is there, in order. */
  lemma {:induction false} RoomyPrompt(added: seq<Section>, budget: Budget, minRelevance: real)
    requires Roomy(Select(added, minRelevance), budget)
    ensures Prompt(added, budget, minRelevance) == Some(Joined(Arranged(Select(added, minRelevance))))
  {
    assert CappedAll(Select(added, minRelevance), budget.caps) == Select(added, minRelevance);
  }

  function Overall(budget: Budget): int { budget.maxTokens - budget.reserveOutput }

  /** Everything fits its own cap and the overall budget. */
  predicate Roomy(chosen: seq<Section>, budget: Budget) {
    && (forall i :: 0 <= i < |chosen| ==> Tokens(chosen[i].messages) <= budget.caps(chosen[i].name))
    && Total(chosen) <= Overall(budget)
  }
}
