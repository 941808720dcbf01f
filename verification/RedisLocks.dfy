/** Redis locks: one server, any number of store instances, a token per acquisition. */
module RedisLocks {
  import opened Wrappers

  /** A server key with its value and the time it expires. */
  datatype Entry = Entry(token: string, deadline: real)

  type Keys = map<string, Entry>

  type Tokens = map<string, string>

  /** What `GET` sees. */
  function Holder(keys: Keys, id: string, now: real): Option<string> {
    if id in keys && now < keys[id].deadline then Some(keys[id].token) else None
  }

  // ------------------------------------------------------------------ the commands

  /** `SET id token NX PX ttl`. */
  function SetIfFree(keys: Keys, id: string, token: string, ttl: real, now: real): Keys {
    if Holder(keys, id, now).Some? then keys else keys[id := Entry(token, now + ttl)]
  }

  /** The release script: delete only if the value is still `token`. */
  function DeleteIfMine(keys: Keys, id: string, token: string, now: real): Keys {
    if Holder(keys, id, now) == Some(token) then keys - {id} else keys
  }

  /** `PEXPIRE`: whoever holds the key now gets the new deadline. */
  function Expire(keys: Keys, id: string, ttl: real, now: real): Keys {
    if Holder(keys, id, now).Some? then keys[id := keys[id].(deadline := now + ttl)] else keys
  }

  // ------------------------------------------------------------------ the store's methods

  class Server {
    var keys: Keys
    var now: real

    constructor ()
      ensures keys == map[] && now == 0.0
    {
      keys, now := map[], 0.0;
    }
  }

  class RedisStateStore {
    const server: Server
    var tokens: Tokens

    constructor (server: Server)
      ensures this.server == server && tokens == map[]
    {
      this.server, tokens := server, map[];
    }

    method AcquireLock(id: string, token: string, ttl: real) returns (acquired: bool)
      modifies this`tokens, server`keys
      ensures acquired == Holder(old(server.keys), id, server.now).None?
      ensures server.keys == SetIfFree(old(server.keys), id, token, ttl, server.now)
      ensures tokens == if acquired then old(tokens)[id := token] else old(tokens)
    {
      acquired := Holder(server.keys, id, server.now).None?;
      server.keys := SetIfFree(server.keys, id, token, ttl, server.now);
      if acquired { tokens := tokens[id := token]; }
    }

    method ReleaseLock(id: string)
      modifies this`tokens, server`keys
      ensures tokens == old(tokens) - {id}
      ensures server.keys == if id in old(tokens) then DeleteIfMine(old(server.keys), id, old(tokens)[id], server.now)
                             else old(server.keys)
    {
      if id in tokens {
        var token := tokens[id];
        tokens := tokens - {id};
        server.keys := DeleteIfMine(server.keys, id, token, server.now);
      }
      assert id !in old(tokens) ==> old(tokens) - {id} == old(tokens);
    }

    /** The first half of `extend_lock`: is the token on the server still ours? */
    method ExtendCheck(id: string) returns (mine: bool)
      ensures mine == (id in tokens && Holder(server.keys, id, server.now) == Some(tokens[id]))
    {
      mine := id in tokens && Holder(server.keys, id, server.now) == Some(tokens[id]);
    }

    /** The second half, some time later. */
    method ExtendApply(id: string, ttl: real)
      modifies server`keys
      ensures server.keys == Expire(old(server.keys), id, ttl, server.now)
    {
      server.keys := Expire(server.keys, id, ttl, server.now);
    }
  }

  // ------------------------------------------------------------------ all stores together

  /** `issued` remembers which store drew which token; `extending` holds the checks that passed and
      have not been applied yet. */
  datatype World = World(
    keys: Keys,
    now: real,
    tokens: map<string, Tokens>,
    issued: map<string, string>,
    extending: set<(string, string)>)

  const START := World(map[], 0.0, map[], map[], {})

  datatype Step =
    | Acquire(store: string, id: string, token: string, ttl: real)
    | Release(store: string, id: string)
    | ExtendCheck(store: string, id: string)
    | ExtendApply(store: string, id: string, ttl: real)
    | Wait(until: real)

  function TokensOf(w: World, store: string): Tokens { if store in w.tokens then w.tokens[store] else map[] }

  /** Tokens are fresh, extensions are applied only after their check, and time moves forward. */
  predicate Possible(w: World, s: Step) {
    match s
    case Acquire(_, _, token, ttl) => token !in w.issued && ttl > 0.0
    case ExtendApply(store, id, _) => (store, id) in w.extending
    case Wait(until) => w.now <= until
    case _ => true
  }

  function Take(w: World, s: Step): World
    requires Possible(w, s)
  {
    match s
    case Acquire(store, id, token, ttl) =>
      var w1 := w.(keys := SetIfFree(w.keys, id, token, ttl, w.now), issued := w.issued[token := store]);
      if Holder(w.keys, id, w.now).None? then w1.(tokens := w.tokens[store := TokensOf(w, store)[id := token]]) else w1
    case Release(store, id) =>
      var mine := TokensOf(w, store);
      if id in mine then
        w.(keys := DeleteIfMine(w.keys, id, mine[id], w.now), tokens := w.tokens[store := mine - {id}])
      else w
    case ExtendCheck(store, id) =>
      var mine := TokensOf(w, store);
      if id in mine && Holder(w.keys, id, w.now) == Some(mine[id])
      then w.(extending := w.extending + {(store, id)}) else w
    case ExtendApply(store, id, ttl) =>
      w.(keys := Expire(w.keys, id, ttl, w.now), extending := w.extending - {(store, id)})
    case Wait(until) => w.(now := until)
  }

  ghost predicate Run(ws: seq<World>, steps: seq<Step>) {
    && |ws| == |steps| + 1 && ws[0] == START
    && forall i :: 0 <= i < |steps| ==> Possible(ws[i], steps[i]) && ws[i + 1] == Take(ws[i], steps[i])
  }

  /** Every token in use was drawn by the store that uses it. */
  ghost predicate Owned(w: World) {
    && (forall id :: id in w.keys ==> w.keys[id].token in w.issued)
    && (forall s, id :: s in w.tokens && id in w.tokens[s] ==>
        w.tokens[s][id] in w.issued && w.issued[w.tokens[s][id]] == s)
  }

  lemma {:induction false} AlwaysOwned(ws: seq<World>, steps: seq<Step>, n: nat)
    requires Run(ws, steps) && n < |ws|
    ensures Owned(ws[n])
  {
    if n > 0 {
      AlwaysOwned(ws, steps, n - 1);
      assert ws[n - 1 + 1] == Take(ws[n - 1], steps[n - 1]);
    }
  }

  /** Step `s` ends the hold of `token` on `id`: its own store releases it, or its time is up. */
  predicate Ends(w: World, s: Step, id: string, token: string) {
    || (s.Release? && s.id == id && token in w.issued && w.issued[token] == s.store)
    || (s.Wait? && id in w.keys && w.keys[id].deadline <= s.until)
    || (s.ExtendApply? && s.id == id && s.ttl <= 0.0)
  }

  /** One step: a hold ends only as `Ends` says, and a new holder only comes where there was none. */
  lemma HolderChange(w: World, s: Step, id: string)
    requires Owned(w) && Possible(w, s)
    ensures var (before, after) := (Holder(w.keys, id, w.now), Holder(Take(w, s).keys, id, Take(w, s).now));
      && (before.Some? && after != before ==> after.None? && Ends(w, s, id, before.value))
      && (after.Some? && after != before ==> before.None? && s.Acquire? && s.id == id && after.value == s.token)
  {
  }

  /** A store remembers the tokens with which it holds locks. */
  ghost predicate Remembers(w: World) {
    forall id :: id in w.keys && w.now < w.keys[id].deadline ==>
      var token := w.keys[id].token;
      token in w.issued && w.issued[token] in w.tokens && id in w.tokens[w.issued[token]]
      && w.tokens[w.issued[token]][id] == token
  }

  lemma StepRemembers(w: World, s: Step)
    requires Owned(w) && Remembers(w) && Possible(w, s)
    ensures Remembers(Take(w, s))
  {
  }

  lemma {:induction false} AlwaysRemembers(ws: seq<World>, steps: seq<Step>, n: nat)
    requires Run(ws, steps) && n < |ws|
    ensures Remembers(ws[n])
  {
    if n > 0 {
      AlwaysRemembers(ws, steps, n - 1);
      AlwaysOwned(ws, steps, n - 1);
      assert ws[n - 1 + 1] == Take(ws[n - 1], steps[n - 1]);
      StepRemembers(ws[n - 1], steps[n - 1]);
    }
  }

  /** One step, exactly: a hold ends as `Ends` says, an acquire of a free lock makes a holder, until its time, and an
      extension gives whoever holds the lock its own time. */
  lemma HolderStep(w: World, s: Step, id: string)
    requires Owned(w) && Remembers(w) && Possible(w, s)
    ensures var (before, w') := (Holder(w.keys, id, w.now), Take(w, s));
      var after := Holder(w'.keys, id, w'.now);
      && after == (if before.Some? then (if Ends(w, s, id, before.value) then None else before)
                   else if s.Acquire? && s.id == id then Some(s.token) else None)
      && (after.Some? && before.None? ==> w'.keys[id].deadline == w.now + s.ttl)
      && (after.Some? && s.ExtendApply? && s.id == id ==> w'.keys[id].deadline == w.now + s.ttl)
      && (after.Some? && before.Some? && !(s.ExtendApply? && s.id == id) ==>
            w'.keys[id].deadline == w.keys[id].deadline)
  {
  }

  /** One step of a run. */
  lemma RunStep(ws: seq<World>, steps: seq<Step>, n: nat, id: string)
    requires Run(ws, steps) && n < |steps|
    ensures var (before, after) := (Holder(ws[n].keys, id, ws[n].now), Holder(ws[n + 1].keys, id, ws[n + 1].now));
      after == (if before.Some? then (if Ends(ws[n], steps[n], id, before.value) then None else before)
                else if steps[n].Acquire? && steps[n].id == id then Some(steps[n].token) else None)
  {
    AlwaysOwned(ws, steps, n);
    AlwaysRemembers(ws, steps, n);
    HolderStep(ws[n], steps[n], id);
  }

  /** Token `token` got the lock at step `i`, and no step since has ended its hold. */
  ghost predicate GotAndKept(ws: seq<World>, steps: seq<Step>, i: nat, n: nat, id: string, token: string)
    requires Run(ws, steps) && i < n < |ws|
  {
    && steps[i].Acquire? && steps[i].id == id && steps[i].token == token && Holder(ws[i].keys, id, ws[i].now).None?
    && forall k :: i < k < n ==> !Ends(ws[k], steps[k], id, token)
  }

  lemma {:induction false} HolderGot(ws: seq<World>, steps: seq<Step>, n: nat, id: string) returns (i: nat)
    requires Run(ws, steps) && n < |ws| && Holder(ws[n].keys, id, ws[n].now).Some?
    ensures i < n && GotAndKept(ws, steps, i, n, id, Holder(ws[n].keys, id, ws[n].now).value)
  {
    RunStep(ws, steps, n - 1, id);
    if Holder(ws[n - 1].keys, id, ws[n - 1].now).None? {
      i := n - 1;
    } else {
      i := HolderGot(ws, steps, n - 1, id);
    }
  }

  lemma {:induction false} GotStillHolds(ws: seq<World>, steps: seq<Step>, i: nat, n: nat, id: string, token: string)
    requires Run(ws, steps) && i < n < |ws| && GotAndKept(ws, steps, i, n, id, token)
    ensures Holder(ws[n].keys, id, ws[n].now) == Some(token)
  {
    RunStep(ws, steps, n - 1, id);
    if n > i + 1 { GotStillHolds(ws, steps, i, n - 1, id, token); }
  }

  /** At every moment of every run, a token holds an execution exactly if its acquire found the lock free and nothing
      has ended that hold since; so the lock is granted exactly if no earlier hold lasts. */
  lemma HoldsIff(ws: seq<World>, steps: seq<Step>, n: nat, id: string, token: string)
    requires Run(ws, steps) && n < |ws|
    ensures Holder(ws[n].keys, id, ws[n].now) == Some(token)
       <==> exists i :: 0 <= i < n && GotAndKept(ws, steps, i, n, id, token)
  {
    if Holder(ws[n].keys, id, ws[n].now) == Some(token) {
      var i := HolderGot(ws, steps, n, id);
    }
    if i :| 0 <= i < n && GotAndKept(ws, steps, i, n, id, token) {
      GotStillHolds(ws, steps, i, n, id, token);
    }
  }

  /** Whoever holds an execution at `i` still holds it at `j`, unless in between its own store released
      it or its lease ran out: no other store, however late, takes it away. */
  lemma {:induction false} HoldEndsOnlyByOwner(ws: seq<World>, steps: seq<Step>, i: nat, j: nat, id: string)
    requires Run(ws, steps) && i <= j < |ws| && Holder(ws[i].keys, id, ws[i].now).Some?
    ensures Holder(ws[j].keys, id, ws[j].now) == Holder(ws[i].keys, id, ws[i].now)
         || exists k :: i <= k < j && Ends(ws[k], steps[k], id, Holder(ws[i].keys, id, ws[i].now).value)
  {
    if i < j {
      HoldEndsOnlyByOwner(ws, steps, i, j - 1, id);
      AlwaysOwned(ws, steps, j - 1);
      assert ws[j - 1 + 1] == Take(ws[j - 1], steps[j - 1]);
      HolderChange(ws[j - 1], steps[j - 1], id);
    }
  }

  /** A token that has lost an execution never holds it again. */
  lemma {:induction false} LostForGood(ws: seq<World>, steps: seq<Step>, i: nat, j: nat, id: string, token: string)
    requires Run(ws, steps) && i <= j < |ws| && token in ws[i].issued
      && Holder(ws[i].keys, id, ws[i].now) != Some(token)
    ensures token in ws[j].issued && Holder(ws[j].keys, id, ws[j].now) != Some(token)
  {
    if i < j {
      LostForGood(ws, steps, i, j - 1, id, token);
      AlwaysOwned(ws, steps, j - 1);
      assert ws[j - 1 + 1] == Take(ws[j - 1], steps[j - 1]);
      LostStep(ws[j - 1], steps[j - 1], id, token);
    }
  }

  lemma LostStep(w: World, s: Step, id: string, token: string)
    requires Owned(w) && Possible(w, s) && token in w.issued && Holder(w.keys, id, w.now) != Some(token)
    ensures token in Take(w, s).issued && Holder(Take(w, s).keys, id, Take(w, s).now) != Some(token)
  {
    HolderChange(w, s, id);
  }

  /** Extending never changes who holds the lock... */
  lemma ExtendKeepsHolder(w: World, s: Step, id: string)
    requires Possible(w, s) && (s.ExtendCheck? || (s.ExtendApply? && s.ttl > 0.0))
    ensures Holder(Take(w, s).keys, id, Take(w, s).now) == Holder(w.keys, id, w.now)
  {
  }

  /** Step `k` moves the deadline of a lock that some other store holds. */
  ghost predicate MovesForeignDeadline(ws: seq<World>, steps: seq<Step>, k: nat, id: string)
    requires Run(ws, steps) && k < |steps|
  {
    && steps[k].ExtendApply? && id in ws[k].keys && id in ws[k + 1].keys
    && ws[k + 1].keys[id].deadline != ws[k].keys[id].deadline
    && ws[k].keys[id].token in ws[k].issued && ws[k].issued[ws[k].keys[id].token] != steps[k].store
  }

  /** At step `k` the lock is held by a store other than the one that extends. */
  ghost predicate HeldByAnother(ws: seq<World>, steps: seq<Step>, k: nat, id: string)
    requires Run(ws, steps) && k < |steps| && steps[k].ExtendApply?
  {
    var holder := Holder(ws[k].keys, id, ws[k].now);
    holder.Some? && holder.value in ws[k].issued && ws[k].issued[holder.value] != steps[k].store
  }

  /** An extension moves a foreign deadline exactly if another store holds the lock at that step and the
      new deadline is not the old one. */
  lemma MovesForeignDeadlineIff(ws: seq<World>, steps: seq<Step>, k: nat, id: string)
    requires Run(ws, steps) && k < |steps| && steps[k].ExtendApply? && steps[k].id == id
    ensures MovesForeignDeadline(ws, steps, k, id)
       <==> HeldByAnother(ws, steps, k, id) && ws[k].keys[id].deadline != ws[k].now + steps[k].ttl
  {
    assert ws[k + 1] == Take(ws[k], steps[k]);
    AlwaysOwned(ws, steps, k);
  }

  /** Behind every pending extension stands a check that saw the store's own token. */
  lemma {:induction false} CheckedBefore(ws: seq<World>, steps: seq<Step>, k: nat, store: string, id: string)
    returns (i: nat)
    requires Run(ws, steps) && k < |ws| && (store, id) in ws[k].extending
    ensures i < k && steps[i] == ExtendCheck(store, id)
    ensures id in TokensOf(ws[i], store) && Holder(ws[i].keys, id, ws[i].now) == Some(TokensOf(ws[i], store)[id])
  {
    assert ws[k - 1 + 1] == Take(ws[k - 1], steps[k - 1]);
    if steps[k - 1] == ExtendCheck(store, id) && id in TokensOf(ws[k - 1], store)
       && Holder(ws[k - 1].keys, id, ws[k - 1].now) == Some(TokensOf(ws[k - 1], store)[id]) {
      i := k - 1;
    } else {
      i := CheckedBefore(ws, steps, k - 1, store, id);
    }
  }

  /** So an extension touches another store's lock only if the hold that its own check saw has ended
      since, by its own release or because its lease ran out. */
  lemma ForeignOnlyAfterOwnHoldEnded(ws: seq<World>, steps: seq<Step>, k: nat, id: string) returns (i: nat, j: nat)
    requires Run(ws, steps) && k < |steps| && steps[k].ExtendApply? && steps[k].id == id
    requires HeldByAnother(ws, steps, k, id)
    ensures i <= j < k && steps[i] == ExtendCheck(steps[k].store, id)
    ensures var token := Holder(ws[i].keys, id, ws[i].now);
      token.Some? && token.value in ws[i].issued && ws[i].issued[token.value] == steps[k].store
      && Ends(ws[j], steps[j], id, token.value)
  {
    assert Possible(ws[k], steps[k]);
    i := CheckedBefore(ws, steps, k, steps[k].store, id);
    AlwaysOwned(ws, steps, i);
    AlwaysOwned(ws, steps, k);
    HoldEndsOnlyByOwner(ws, steps, i, k, id);
    var token := Holder(ws[i].keys, id, ws[i].now).value;
    if Holder(ws[k].keys, id, ws[k].now) == Some(token) {
      IssuedForGood(ws, steps, i, k, token);
    }
    j :| i <= j < k && Ends(ws[j], steps[j], id, token);
  }

  lemma {:induction false} IssuedForGood(ws: seq<World>, steps: seq<Step>, i: nat, k: nat, token: string)
    requires Run(ws, steps) && i <= k < |ws| && token in ws[i].issued
    ensures token in ws[k].issued && ws[k].issued[token] == ws[i].issued[token]
  {
    if i < k {
      IssuedForGood(ws, steps, i, k - 1, token);
      assert ws[k - 1 + 1] == Take(ws[k - 1], steps[k - 1]);
    }
  }

  /** ...but the store that extends need not be the holder: if its lease runs out between its check
      and its `PEXPIRE`, it moves its successor's deadline. */
  lemma ExtendMayMoveSuccessorsDeadline() returns (ws: seq<World>, steps: seq<Step>)
    ensures Run(ws, steps) && |steps| == 5 && MovesForeignDeadline(ws, steps, 4, "x")
  {
    steps := [Acquire("a", "x", "t1", 1.0), ExtendCheck("a", "x"), Wait(2.0), Acquire("b", "x", "t2", 1.0),
              ExtendApply("a", "x", 9.0)];
    var w1 := Take(START, steps[0]);
    var w2 := Take(w1, steps[1]);
    var w3 := Take(w2, steps[2]);
    var w4 := Take(w3, steps[3]);
    var w5 := Take(w4, steps[4]);
    ws := [START, w1, w2, w3, w4, w5];
  }
}
