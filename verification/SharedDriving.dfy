/** Several processes and one execution. `resume` reads the latest checkpoint, then takes the lease, drives
    the execution on its own copy of the dictionary, and releases the lease, on time or late; nobody extends
    a lease, and an attempt that outlives it is not stopped. `run` does the same from nothing. */
module SharedDriving {
  import opened Types
  import opened Wrappers
  import opened Workflows
  import opened PlainEquivalence
  import opened WorkflowNames
  import opened RuntimeHistory
  import opened Interleaving
  import opened InterleavingEquivalence
  import opened InterleavingHistory
  import opened Leases
  import opened SideBySide
  import RedisLocks
  import Runtime

  /** Where the lease is: a row of a table, a key of a Redis server, or the set of a store in memory, which
      knows no time. */
  datatype Lock = Table(engine: Engine) | RedisKey | InMemory

  /** The lock, whether the store has each copy at once, the time of a lease, the owner that the store of each
      process writes into its row (the store itself, if it keeps Redis tokens), and what is executed. */
  datatype Setup = Setup(lock: Lock, prompt: bool, ttl: real, ownerOf: string -> string, oracle: Oracle,
                         root: Executable, input: Value)

  const LOCK := "execution"

  /** A process that has read a checkpoint, or drives the execution since it got the lease. */
  datatype Driver =
    | HasRead(base: State)
    | Driving(config: Config, state: State, since: real)

  /** `rows` is the table, `keys` the server with the token that each store remembers, `held` the set; the
      setup says which of them is used. A token is the name of the process that drew it. */
  datatype Place = Place(rows: Rows, keys: RedisLocks.Keys, tokens: RedisLocks.Tokens, held: bool)

  datatype Shared = Shared(place: Place, now: real, log: seq<Checkpoint>, trace: seq<Event>,
                           drivers: map<string, Driver>)

  /** The process that calls `run`. */
  function Fresh(first: string): Shared {
    Shared(Place(map[], map[], map[], false), 0.0, [], [], map[first := HasRead(FRESH)])
  }

  datatype Turn =
    | Read(owner: string)
    | RunAgain(owner: string)
    | TakeLease(owner: string)
    | Advance(owner: string, pick: seq<nat>)
    | Close(owner: string, reason: Reason)
    | GiveLease(owner: string)
    | Die(owner: string)
    | Rule(id: string, verdict: Decision)
    | Wait(until: real)

  function Newest(log: seq<Checkpoint>): State { if log == [] then FRESH else log[|log| - 1].state }

  predicate Drives(w: Shared, owner: string) { owner in w.drivers && w.drivers[owner].Driving? }

  predicate Possible(w: Shared, t: Turn) {
    match t
    case Read(owner) => owner !in w.drivers && w.log != []
    case RunAgain(owner) => owner !in w.drivers
    case TakeLease(owner) => owner in w.drivers && w.drivers[owner].HasRead?
    case Advance(owner, _) => Drives(w, owner) && Shaped(w.drivers[owner].config)
    case Close(owner, reason) => Drives(w, owner) && !reason.AfterNode?
    case GiveLease(owner) => Drives(w, owner)
    case Die(owner) => owner in w.drivers
    case Rule(_, _) => w.log != []
    case Wait(until) => w.now <= until
  }

  /** A lease is asked for: is it granted, and what the lock is then. */
  function Asked(s: Setup, p: Place, now: real, owner: string): (bool, Place) {
    match s.lock
    case Table(engine) =>
      var (granted, rows) := AfterAcquire(engine, p.rows, LOCK, s.ownerOf(owner), s.ttl, now);
      (granted, p.(rows := rows))
    case RedisKey =>
      var granted := RedisLocks.Holder(p.keys, LOCK, now).None?;
      (granted, p.(keys := RedisLocks.SetIfFree(p.keys, LOCK, owner, s.ttl, now),
                   tokens := if granted then p.tokens[s.ownerOf(owner) := owner] else p.tokens))
    case InMemory => (!p.held, p.(held := true))
  }

  /** `release_lock`: a table deletes the row of the owner, a Redis store the key with the token it remembers. */
  function GivenBack(s: Setup, p: Place, now: real, owner: string): Place {
    match s.lock
    case Table(_) => p.(rows := AfterRelease(p.rows, LOCK, s.ownerOf(owner)))
    case RedisKey =>
      if s.ownerOf(owner) !in p.tokens then p
      else p.(keys := RedisLocks.DeleteIfMine(p.keys, LOCK, p.tokens[s.ownerOf(owner)], now),
              tokens := p.tokens - {s.ownerOf(owner)})
    case InMemory => p.(held := false)
  }

  /** The lease of `owner` from `since` on is in place. */
  predicate InPlace(s: Setup, p: Place, owner: string, since: real) {
    match s.lock
    case Table(_) => LOCK in p.rows && p.rows[LOCK] == Lease(s.ownerOf(owner), since + s.ttl)
    case RedisKey => LOCK in p.keys && p.keys[LOCK] == RedisLocks.Entry(owner, since + s.ttl)
    case InMemory => p.held
  }

  /** What a store remembers is the token of one of its processes. */
  ghost predicate Remembers(s: Setup, p: Place) {
    forall store :: store in p.tokens ==> s.ownerOf(p.tokens[store]) == store
  }

  /** Nobody gets a lease beside one that lasts. */
  lemma AskedBeside(s: Setup, p: Place, now: real, owner: string, holder: string, since: real)
    requires InPlace(s, p, holder, since) && Covers(s.lock, s.ttl, now - since)
    ensures var (granted, p1) := Asked(s, p, now, owner); !granted && InPlace(s, p1, holder, since)
  {
  }

  lemma AskedGets(s: Setup, p: Place, now: real, owner: string)
    ensures var (granted, p1) := Asked(s, p, now, owner);
      && (granted ==> InPlace(s, p1, owner, now))
      && (Remembers(s, p) ==> Remembers(s, p1))
  {
  }

  /** Giving back under one's own owner leaves the leases of others in place. */
  lemma GivenBeside(s: Setup, p: Place, now: real, owner: string, holder: string, since: real)
    requires InPlace(s, p, holder, since) && Remembers(s, p) && !s.lock.InMemory?
    requires s.ownerOf(owner) != s.ownerOf(holder)
    ensures InPlace(s, GivenBack(s, p, now, owner), holder, since)
  {
  }

  /** An attempt of this length ends within its lease. A row is still valid at its deadline, a key is not. */
  predicate Covers(lock: Lock, ttl: real, length: real) {
    match lock
    case Table(_) => length <= ttl
    case RedisKey => length < ttl
    case InMemory => true
  }

  function Take(s: Setup, w: Shared, t: Turn): Shared
    requires Possible(w, t)
  {
    match t
    case Read(owner) => w.(drivers := w.drivers[owner := HasRead(Newest(w.log))])
    case RunAgain(owner) => w.(drivers := w.drivers[owner := HasRead(FRESH)])
    case TakeLease(owner) =>
      var (granted, place) := Asked(s, w.place, w.now, owner);
      w.(place := place, drivers :=
        if granted then w.drivers[owner := Driving(Start(s.root, s.input), w.drivers[owner].base, w.now)]
        else w.drivers - {owner})
    case Advance(owner, pick) =>
      var d := w.drivers[owner];
      var (c, w1) := Move(s.oracle, s.prompt, d.config, World(d.state, w.log, w.trace, []), pick);
      w.(log := w1.log, trace := w1.trace, drivers := w.drivers[owner := Driving(c, w1.state, d.since)])
    case Close(owner, reason) => w.(log := w.log + [Checkpoint(reason, w.drivers[owner].state)])
    case GiveLease(owner) =>
      w.(place := GivenBack(s, w.place, w.now, owner), drivers := w.drivers - {owner})
    case Die(owner) => w.(drivers := w.drivers - {owner})
    case Rule(id, verdict) =>
      var base := Newest(w.log);
      w.(log := w.log + [Checkpoint(Decided, base.(ledger := base.ledger[id := verdict]))])
    case Wait(until) => w.(now := until)
  }

  ghost predicate Run(s: Setup, first: string, ws: seq<Shared>, turns: seq<Turn>) {
    && |ws| == |turns| + 1 && ws[0] == Fresh(first)
    && forall i :: 0 <= i < |turns| ==> Possible(ws[i], turns[i]) && ws[i + 1] == Take(s, ws[i], turns[i])
  }

  /** A decision is what the next process reads, and all that it changes; whoever drives goes on without it. */
  lemma RuleIsRead(s: Setup, w: Shared, t: Turn, reader: string)
    requires t.Rule? && Possible(w, t) && reader !in w.drivers
    ensures var w1 := Take(s, w, t);
      && Possible(w1, Read(reader)) && Take(s, w1, Read(reader)).drivers[reader].HasRead?
      && Runtime.OnlyDecided(Newest(w.log), Take(s, w1, Read(reader)).drivers[reader].base, t.id, t.verdict)
      && w1.log[..|w.log|] == w.log && w1.drivers == w.drivers && w1.place == w.place
  {
  }

  /** What an attempt stores as it ends is what the next process reads, whether the one before dies or gives its lease
      back; `run` reads nothing. */
  lemma ClosedIsRead(s: Setup, w: Shared, owner: string, reason: Reason, reader: string)
    requires Possible(w, Close(owner, reason)) && reader !in w.drivers
    ensures var w1 := Take(s, w, Close(owner, reason));
      && |w1.log| == |w.log| + 1 && w1.log[..|w.log|] == w.log && w1.log[|w.log|].reason == reason
      && w1.drivers == w.drivers && w1.place == w.place && w1.trace == w.trace
      && forall t :: t == Die(owner) || t == GiveLease(owner) ==>
           var w2 := Take(s, w1, t);
           && owner !in w2.drivers && w2.log == w1.log && (t == Die(owner) ==> w2.place == w.place)
           && Possible(w2, Read(reader)) && Possible(w2, RunAgain(owner))
           && Take(s, w2, Read(reader)).drivers[reader] == HasRead(w.drivers[owner].state)
           && Take(s, w2, RunAgain(owner)).drivers[owner] == HasRead(FRESH)
  {
  }

  // ------------------------------------------------------------------ conditions on attempts

  /** The process may still act: no more than `length` has passed since it got the lease. */
  predicate Live(w: Shared, owner: string, length: real) {
    Drives(w, owner) && w.now <= w.drivers[owner].since + length
  }

  /** No attempt does anything later than `length` after it got the lease. */
  ghost predicate Punctual(ws: seq<Shared>, turns: seq<Turn>, length: real)
    requires |ws| == |turns| + 1
  {
    forall i :: 0 <= i < |turns| && (turns[i].Advance? || turns[i].Close?) ==> Live(ws[i], turns[i].owner, length)
  }

  /** Whoever gets the lease has read a checkpoint that holds every node completed until now. */
  ghost predicate ReadsUnderLease(s: Setup, ws: seq<Shared>, turns: seq<Turn>)
    requires |ws| == |turns| + 1
  {
    forall i :: 0 <= i < |turns| && turns[i].TakeLease? && Possible(ws[i], turns[i]) ==>
      Drives(ws[i + 1], turns[i].owner) ==> Holds(ws[i].drivers[turns[i].owner].base, ws[i].log)
  }

  /** The process drives, and no more time has passed than its lease covers. */
  predicate InLease(s: Setup, w: Shared, owner: string) {
    Drives(w, owner) && Covers(s.lock, s.ttl, w.now - w.drivers[owner].since)
  }

  /** Every lease is given back while it lasts. */
  ghost predicate GivesOnTime(s: Setup, ws: seq<Shared>, turns: seq<Turn>)
    requires |ws| == |turns| + 1
  {
    forall i :: 0 <= i < |turns| && turns[i].GiveLease? ==> InLease(s, ws[i], turns[i].owner)
  }

  /** No two processes have one owner. */
  ghost predicate Unshared(ownerOf: string -> string) {
    forall a, b :: ownerOf(a) == ownerOf(b) ==> a == b
  }

  /** Nobody gives back the lease of another. */
  ghost predicate OwnGivesOnly(s: Setup, ws: seq<Shared>, turns: seq<Turn>)
    requires |ws| == |turns| + 1
  {
    Unshared(s.ownerOf) || GivesOnTime(s, ws, turns)
  }

  /** No event begins a node whose `after_node` checkpoint was stored before. */
  ghost predicate NothingTwice(w: Shared) {
    forall m, i :: 0 <= m < |w.trace| && 0 <= i < |w.log| && w.trace[m].Began? ==>
      w.log[i].reason == AfterNode(w.trace[m].key) ==> w.trace[m].at <= i
  }

  // ------------------------------------------------------------------ one at a time

  /** At most one process is within its lease, which is in place. */
  ghost predicate Leased(s: Setup, w: Shared) {
    && (forall owner :: InLease(s, w, owner) ==> InPlace(s, w.place, owner, w.drivers[owner].since))
    && (forall a, b :: InLease(s, w, a) && InLease(s, w, b) ==> a == b)
    && Remembers(s, w.place)
  }

  lemma TakeLeaseLeased(s: Setup, w: Shared, t: Turn)
    requires Leased(s, w) && Possible(w, t) && t.TakeLease?
    ensures Leased(s, Take(s, w, t))
  {
    var w' := Take(s, w, t);
    AskedGets(s, w.place, w.now, t.owner);
    forall owner | InLease(s, w', owner) && owner != t.owner
      ensures InLease(s, w, owner) && InPlace(s, w'.place, owner, w.drivers[owner].since) && !Drives(w', t.owner)
    {
      assert InLease(s, w, owner);
      AskedBeside(s, w.place, w.now, t.owner, owner, w.drivers[owner].since);
    }
  }

  lemma GiveLeaseLeased(s: Setup, w: Shared, t: Turn)
    requires Leased(s, w) && Possible(w, t) && t.GiveLease?
    requires Unshared(s.ownerOf) || InLease(s, w, t.owner)
    ensures Leased(s, Take(s, w, t))
  {
    var w' := Take(s, w, t);
    forall owner | InLease(s, w', owner)
      ensures InLease(s, w, owner) && InPlace(s, w'.place, owner, w.drivers[owner].since)
    {
      assert InLease(s, w, owner) && owner != t.owner;
      assert !InLease(s, w, t.owner) && s.ownerOf(owner) != s.ownerOf(t.owner);
      GivenBeside(s, w.place, w.now, t.owner, owner, w.drivers[owner].since);
    }
  }

  lemma TurnLeased(s: Setup, w: Shared, t: Turn)
    requires Leased(s, w) && Possible(w, t)
    requires t.GiveLease? ==> Unshared(s.ownerOf) || InLease(s, w, t.owner)
    ensures Leased(s, Take(s, w, t))
  {
    if t.TakeLease? {
      TakeLeaseLeased(s, w, t);
    } else if t.GiveLease? {
      GiveLeaseLeased(s, w, t);
    } else {
      var w' := Take(s, w, t);
      assert w'.place == w.place;
      forall owner | InLease(s, w', owner)
        ensures InLease(s, w, owner) && w'.drivers[owner].since == w.drivers[owner].since
      {
        assert Drives(w, owner) && w'.drivers[owner].since == w.drivers[owner].since;
        Sooner(s, w.now - w.drivers[owner].since, w'.now - w.drivers[owner].since);
      }
    }
  }

  lemma Sooner(s: Setup, a: real, b: real)
    requires a <= b && Covers(s.lock, s.ttl, b)
    ensures Covers(s.lock, s.ttl, a)
  {
  }

  lemma {:induction false} AlwaysLeased(s: Setup, first: string, ws: seq<Shared>, turns: seq<Turn>, n: nat)
    requires Run(s, first, ws, turns) && n < |ws| && OwnGivesOnly(s, ws, turns)
    ensures Leased(s, ws[n])
  {
    if n > 0 {
      AlwaysLeased(s, first, ws, turns, n - 1);
      assert Possible(ws[n - 1], turns[n - 1]) && ws[n - 1 + 1] == Take(s, ws[n - 1], turns[n - 1]);
      TurnLeased(s, ws[n - 1], turns[n - 1]);
    }
  }

  /** If no owner is shared, or leases are given back on time, two processes are never both within their
      lease. */
  lemma {:induction false} AttemptsDoNotOverlap(s: Setup, first: string, ws: seq<Shared>, turns: seq<Turn>, n: nat,
                                                a: string, b: string)
    requires Run(s, first, ws, turns) && n < |ws| && OwnGivesOnly(s, ws, turns)
    requires InLease(s, ws[n], a) && InLease(s, ws[n], b)
    ensures a == b
  {
    AlwaysLeased(s, first, ws, turns, n);
  }

  // ------------------------------------------------------------------ nothing runs twice

  ghost predicate InStep(w: Shared, length: real) {
    && Lineage(w.log, w.trace)
    && forall owner :: Live(w, owner, length) ==>
         InOrder(w.drivers[owner].config, World(w.drivers[owner].state, w.log, w.trace, []), [])
  }

  lemma NewestHolds(log: seq<Checkpoint>, trace: seq<Event>)
    requires Lineage(log, trace)
    ensures Holds(Newest(log), log)
  {
  }

  lemma AdvanceInStep(s: Setup, w: Shared, t: Turn, length: real)
    requires s.prompt && Covers(s.lock, s.ttl, length) && InStep(w, length) && Leased(s, w)
    requires t.Advance? && Possible(w, t) && Live(w, t.owner, length)
    ensures InStep(Take(s, w, t), length)
  {
    var d := w.drivers[t.owner];
    var v := World(d.state, w.log, w.trace, []);
    assert OldestFirst([], d.config, v, Move(s.oracle, s.prompt, d.config, v, t.pick));
    MoveInOrder(s.oracle, s.prompt, d.config, v, [], t.pick);
    var w' := Take(s, w, t);
    forall owner | Live(w', owner, length) ensures owner == t.owner {
      assert InLease(s, w, owner) && InLease(s, w, t.owner);
    }
  }

  lemma CloseInStep(s: Setup, w: Shared, t: Turn, length: real)
    requires s.prompt && Covers(s.lock, s.ttl, length) && InStep(w, length) && Leased(s, w)
    requires t.Close? && Possible(w, t) && Live(w, t.owner, length)
    ensures InStep(Take(s, w, t), length)
  {
    var d := w.drivers[t.owner];
    assert InOrder(d.config, World(d.state, w.log, w.trace, []), []);
    StoreLineage(w.log, w.trace, Checkpoint(t.reason, d.state));
    var w' := Take(s, w, t);
    forall owner | Live(w', owner, length) ensures owner == t.owner {
      assert Live(w, owner, length) && InLease(s, w, owner) && InLease(s, w, t.owner);
    }
  }

  lemma StartInOrder(root: Executable, input: Value, w: World)
    requires Apart(root) && Lineage(w.log, w.trace) && Holds(w.state, w.log)
    ensures InOrder(Start(root, input), w, [])
  {
  }

  lemma TakeLeaseInStep(s: Setup, w: Shared, t: Turn, length: real)
    requires Apart(s.root) && InStep(w, length) && t.TakeLease? && Possible(w, t)
    requires Drives(Take(s, w, t), t.owner) ==> Holds(w.drivers[t.owner].base, w.log)
    ensures InStep(Take(s, w, t), length)
  {
    var w' := Take(s, w, t);
    forall owner | Live(w', owner, length)
      ensures InOrder(w'.drivers[owner].config, World(w'.drivers[owner].state, w'.log, w'.trace, []), [])
    {
      if owner == t.owner {
        StartInOrder(s.root, s.input, World(w.drivers[owner].base, w.log, w.trace, []));
      } else {
        assert Live(w, owner, length) && w'.drivers[owner] == w.drivers[owner];
      }
    }
  }

  lemma RuleInStep(s: Setup, w: Shared, t: Turn, length: real)
    requires InStep(w, length) && t.Rule? && Possible(w, t)
    ensures InStep(Take(s, w, t), length)
  {
    var w' := Take(s, w, t);
    NewestHolds(w.log, w.trace);
    StoreLineage(w.log, w.trace, w'.log[|w.log|]);
    forall owner | Live(w', owner, length)
      ensures InOrder(w'.drivers[owner].config, World(w'.drivers[owner].state, w'.log, w'.trace, []), [])
    {
      assert Live(w, owner, length);
    }
  }

  lemma OtherInStep(s: Setup, w: Shared, t: Turn, length: real)
    requires InStep(w, length) && Possible(w, t) && (t.Read? || t.RunAgain? || t.GiveLease? || t.Die? || t.Wait?)
    ensures InStep(Take(s, w, t), length)
  {
    var w' := Take(s, w, t);
    forall owner | Live(w', owner, length) ensures w'.drivers[owner] == w.drivers[owner] && Live(w, owner, length) { }
  }

  lemma {:induction false} AlwaysInStep(s: Setup, first: string, ws: seq<Shared>, turns: seq<Turn>, n: nat,
                                        length: real)
    requires Run(s, first, ws, turns) && n < |ws| && s.prompt && Apart(s.root)
    requires Covers(s.lock, s.ttl, length) && Punctual(ws, turns, length)
    requires OwnGivesOnly(s, ws, turns) && ReadsUnderLease(s, ws, turns)
    ensures InStep(ws[n], length)
  {
    if n > 0 {
      var (w, t) := (ws[n - 1], turns[n - 1]);
      AlwaysInStep(s, first, ws, turns, n - 1, length);
      AlwaysLeased(s, first, ws, turns, n - 1);
      assert Possible(w, t) && ws[n - 1 + 1] == Take(s, w, t);
      if t.Advance? {
        AdvanceInStep(s, w, t, length);
      } else if t.Close? {
        CloseInStep(s, w, t, length);
      } else if t.TakeLease? {
        TakeLeaseInStep(s, w, t, length);
      } else if t.Rule? {
        RuleInStep(s, w, t, length);
      } else {
        OtherInStep(s, w, t, length);
      }
    }
  }

  /** If every attempt ends within its lease, gives back no lease of another, and has read a checkpoint that
      holds what is completed when it gets its own, then no node begins again whose `after_node` checkpoint
      is stored, however many processes resume the execution. */
  lemma {:induction false} LeasedAttemptsNeverRepeat(s: Setup, first: string, ws: seq<Shared>, turns: seq<Turn>,
                                                     n: nat, length: real)
    requires Run(s, first, ws, turns) && n < |ws| && s.prompt && Apart(s.root)
    requires Covers(s.lock, s.ttl, length) && Punctual(ws, turns, length)
    requires OwnGivesOnly(s, ws, turns) && ReadsUnderLease(s, ws, turns)
    ensures NothingTwice(ws[n])
  {
    AlwaysInStep(s, first, ws, turns, n, length);
  }

  // ------------------------------------------------------------------ from a base that lacks a node

  ghost predicate Reported(key: Key, trace: seq<Event>, from: nat) {
    exists m :: from <= m < |trace| && trace[m].Began? && trace[m].key == key
  }

  /** Every node that is being worked on has begun since `from`. */
  ghost predicate Told(c: Config, trace: seq<Event>, from: nat)
    requires Shaped(c)
  {
    match c
    case InSteps(_, _, _, inner) => Told(inner, trace, from)
    case InTurns(_, _, _, inner) => Told(inner, trace, from)
    case InBranches(_, _, inners) => forall k :: 0 <= k < |inners| ==> Told(inners[k], trace, from)
    case InNode(e, i, _, inner) => Reported(KeyOf(e, i), trace, from) && Told(inner, trace, from)
    case Storing(_, next) => Told(next, trace, from)
    case _ => true
  }

  ghost predicate AllReported(s: State, base: State, trace: seq<Event>, from: nat) {
    forall key :: key in s.completed && key !in base.completed ==> Reported(key, trace, from)
  }

  lemma {:induction false} ToldOn(c: Config, trace: seq<Event>, trace': seq<Event>, from: nat)
    requires Shaped(c) && Told(c, trace, from) && trace <= trace'
    ensures Told(c, trace', from)
  {
    match c
    case InSteps(_, _, _, inner) => ToldOn(inner, trace, trace', from);
    case InTurns(_, _, _, inner) => ToldOn(inner, trace, trace', from);
    case InNode(_, _, _, inner) => ToldOn(inner, trace, trace', from);
    case InBranches(_, _, inners) =>
      forall k | 0 <= k < |inners| ensures Told(inners[k], trace', from) { ToldOn(inners[k], trace, trace', from); }
    case Storing(_, next) => ToldOn(next, trace, trace', from);
    case _ =>
  }

  lemma {:induction false} MoveTold(o: Oracle, prompt: bool, c: Config, w: World, pick: seq<nat>, base: State,
                                    from: nat)
    requires Shaped(c) && Told(c, w.trace, from) && AllReported(w.state, base, w.trace, from) && from <= |w.trace|
    ensures var (c1, w1) := Move(o, prompt, c, w, pick);
      w.trace <= w1.trace && Told(c1, w1.trace, from) && AllReported(w1.state, base, w1.trace, from)
  {
    var (c1, w1) := Move(o, prompt, c, w, pick);
    if c.InBranches? {
      if !AllReturned(c.inners) && pick != [] && pick[0] < |c.inners| {
        MoveTold(o, prompt, c.inners[pick[0]], w, pick[1..], base, from);
        forall k | 0 <= k < |c.inners| && k != pick[0] ensures Told(c.inners[k], w1.trace, from) {
          ToldOn(c.inners[k], w.trace, w1.trace, from);
        }
      }
    } else if (c.InSteps? || c.InTurns? || c.InNode?) && !c.inner.Returned? {
      MoveTold(o, prompt, c.inner, w, pick, base, from);
    } else if c.Entering? {
      assert w1.trace[|w.trace|] == Began(KeyOf(c.e, c.i), |w.log|);
    }
  }

  /** Checkpoints and events are only added, and a new event knows how many were stored. */
  lemma {:induction false} MoveAdds(o: Oracle, prompt: bool, c: Config, w: World, pick: seq<nat>)
    requires Shaped(c)
    ensures var w1 := Move(o, prompt, c, w, pick).1;
      w.log <= w1.log && w.trace <= w1.trace && forall m :: |w.trace| <= m < |w1.trace| ==> w1.trace[m].at == |w.log|
  {
    if c.InBranches? {
      if !AllReturned(c.inners) && pick != [] && pick[0] < |c.inners| {
        MoveAdds(o, prompt, c.inners[pick[0]], w, pick[1..]);
      }
    } else if (c.InSteps? || c.InTurns? || c.InNode?) && !c.inner.Returned? {
      MoveAdds(o, prompt, c.inner, w, pick);
    }
  }

  /** What holds of the attempt of `owner` since it started from `base`, when there were `from` events. */
  ghost predicate Recalls(w: Shared, owner: string, base: State, from: nat) {
    && Drives(w, owner) && Shaped(w.drivers[owner].config) && from <= |w.trace|
    && Told(w.drivers[owner].config, w.trace, from)
    && AllReported(w.drivers[owner].state, base, w.trace, from)
  }

  lemma TurnRecalls(s: Setup, w: Shared, t: Turn, owner: string, base: State, from: nat)
    requires Recalls(w, owner, base, from) && Possible(w, t) && Drives(Take(s, w, t), owner)
    ensures Recalls(Take(s, w, t), owner, base, from) && w.trace <= Take(s, w, t).trace
    ensures w.log <= Take(s, w, t).log
  {
    var w' := Take(s, w, t);
    if t.Advance? {
      var d := w.drivers[t.owner];
      var v := World(d.state, w.log, w.trace, []);
      MoveAdds(s.oracle, s.prompt, d.config, v, t.pick);
      if t.owner == owner {
        MoveTold(s.oracle, s.prompt, d.config, v, t.pick, base, from);
      } else {
        ToldOn(w.drivers[owner].config, w.trace, w'.trace, from);
      }
    }
  }

  lemma StartRecalls(s: Setup, w: Shared, owner: string)
    requires Possible(w, TakeLease(owner)) && Drives(Take(s, w, TakeLease(owner)), owner)
    ensures var w1 := Take(s, w, TakeLease(owner));
      Recalls(w1, owner, w.drivers[owner].base, |w.trace|) && w1.log == w.log
  {
  }

  lemma {:induction false} AttemptRecalls(s: Setup, first: string, ws: seq<Shared>, turns: seq<Turn>, n: nat, m: nat,
                                          owner: string)
    requires Run(s, first, ws, turns) && n < m < |ws| && turns[n] == TakeLease(owner)
    requires forall j :: n < j <= m ==> Drives(ws[j], owner)
    ensures owner in ws[n].drivers && ws[n].drivers[owner].HasRead?
    ensures Recalls(ws[m], owner, ws[n].drivers[owner].base, |ws[n].trace|)
    ensures ws[n].log <= ws[m].log
    decreases m
  {
    assert Possible(ws[n], turns[n]) && ws[n + 1] == Take(s, ws[n], turns[n]);
    if m == n + 1 {
      StartRecalls(s, ws[n], owner);
    } else {
      AttemptRecalls(s, first, ws, turns, n, m - 1, owner);
      assert Possible(ws[m - 1], turns[m - 1]) && ws[m - 1 + 1] == Take(s, ws[m - 1], turns[m - 1]);
      TurnRecalls(s, ws[m - 1], turns[m - 1], owner, ws[n].drivers[owner].base, |ws[n].trace|);
    }
  }

  /** Every event that happened after `from` knows of the checkpoints stored until then. */
  ghost predicate Dated(w: Shared, from: nat, at: nat) {
    forall m :: from <= m < |w.trace| ==> w.trace[m].at >= at
  }

  /** An attempt that starts from a checkpoint without a node whose `after_node` checkpoint is stored, and
      gets so far as to complete that node, has begun it again. */
  lemma LackingNodeRepeats(s: Setup, first: string, ws: seq<Shared>, turns: seq<Turn>, n: nat, m: nat, owner: string,
                           key: Key, i: nat)
    requires Run(s, first, ws, turns) && n < m < |ws| && turns[n] == TakeLease(owner)
    requires forall j :: n < j <= m ==> Drives(ws[j], owner)
    requires i < |ws[n].log| && ws[n].log[i].reason == AfterNode(key)
    requires owner in ws[n].drivers && ws[n].drivers[owner].HasRead?
    requires Drives(ws[m], owner)
    requires key !in ws[n].drivers[owner].base.completed && key in ws[m].drivers[owner].state.completed
    ensures !NothingTwice(ws[m])
  {
    AttemptRecalls(s, first, ws, turns, n, m, owner);
    AlwaysDated(s, first, ws, turns, n, m);
    var k :| |ws[n].trace| <= k < |ws[m].trace| && ws[m].trace[k].Began? && ws[m].trace[k].key == key;
    assert ws[m].log[i] == ws[n].log[i];
  }

  lemma {:induction false} AlwaysDated(s: Setup, first: string, ws: seq<Shared>, turns: seq<Turn>, n: nat, m: nat)
    requires Run(s, first, ws, turns) && n <= m < |ws|
    ensures Dated(ws[m], |ws[n].trace|, |ws[n].log|) && |ws[n].log| <= |ws[m].log|
    decreases m
  {
    if m > n {
      AlwaysDated(s, first, ws, turns, n, m - 1);
      var (w, t) := (ws[m - 1], turns[m - 1]);
      assert Possible(w, t) && ws[m - 1 + 1] == Take(s, w, t);
      if t.Advance? {
        var d := w.drivers[t.owner];
        MoveAdds(s.oracle, s.prompt, d.config, World(d.state, w.log, w.trace, []), t.pick);
      }
    }
  }

  // ------------------------------------------------------------------ what even overlapping attempts keep

  ghost predicate AllSteady(s: Setup, d: string -> Decision, plain: Evaluation, w: Shared) {
    && (forall i :: 0 <= i < |w.log| ==> Sound(w.log[i].state, d, plain.facts))
    && (forall m :: 0 <= m < |w.trace| ==> Foreseen(w.trace[m], plain.facts))
    && (forall owner :: owner in w.drivers ==>
          match w.drivers[owner]
          case HasRead(base) => Sound(base, d, plain.facts)
          case Driving(c, state, _) =>
            Steady(s.oracle, d, plain.facts, plain.out, c, World(state, w.log, w.trace, [])))
  }

  /** What others store does not disturb an attempt on its own dictionary. */
  lemma SteadyBeside(o: Oracle, d: string -> Decision, plain: Evaluation, c: Config, w: World, w': World)
    requires Steady(o, d, plain.facts, plain.out, c, w) && SoundWorld(w', d, plain.facts) && w'.state == w.state
    ensures Steady(o, d, plain.facts, plain.out, c, w')
  {
    FitsKept(c, w, w', d, plain.facts);
  }

  ghost predicate SoundLog(log: seq<Checkpoint>, trace: seq<Event>, d: string -> Decision, facts: set<Fact>) {
    && (forall i :: 0 <= i < |log| ==> Sound(log[i].state, d, facts))
    && (forall m :: 0 <= m < |trace| ==> Foreseen(trace[m], facts))
  }

  lemma AllBeside(s: Setup, d: string -> Decision, plain: Evaluation, w: Shared, log: seq<Checkpoint>,
                  trace: seq<Event>)
    requires AllSteady(s, d, plain, w) && SoundLog(log, trace, d, plain.facts)
    ensures AllSteady(s, d, plain, w.(log := log, trace := trace))
  {
    forall owner | owner in w.drivers && w.drivers[owner].Driving?
      ensures var x := w.drivers[owner];
        Steady(s.oracle, d, plain.facts, plain.out, x.config, World(x.state, log, trace, []))
    {
      var x := w.drivers[owner];
      SteadyBeside(s.oracle, d, plain, x.config, World(x.state, w.log, w.trace, []), World(x.state, log, trace, []));
    }
  }

  lemma Moved(s: Setup, d: string -> Decision, plain: Evaluation, w: Shared, owner: string, x: Driver)
    requires AllSteady(s, d, plain, w) && x.Driving?
    requires Steady(s.oracle, d, plain.facts, plain.out, x.config, World(x.state, w.log, w.trace, []))
    ensures AllSteady(s, d, plain, w.(drivers := w.drivers[owner := x]))
  {
  }

  lemma AdvanceSteady(s: Setup, d: string -> Decision, plain: Evaluation, w: Shared, t: Turn)
    requires Consistent(plain.facts) && AllSteady(s, d, plain, w) && t.Advance? && Possible(w, t)
    ensures AllSteady(s, d, plain, Take(s, w, t))
  {
    var x := w.drivers[t.owner];
    var v := World(x.state, w.log, w.trace, []);
    MoveSteady(s.oracle, d, plain.facts, plain.out, s.prompt, x.config, v, t.pick);
    var (c, v1) := Move(s.oracle, s.prompt, x.config, v, t.pick);
    AllBeside(s, d, plain, w, v1.log, v1.trace);
    assert World(v1.state, v1.log, v1.trace, []) == v1 by { MoveKeepsFates(s.oracle, s.prompt, x.config, v, t.pick); }
    Moved(s, d, plain, w.(log := v1.log, trace := v1.trace), t.owner, Driving(c, v1.state, x.since));
  }

  lemma {:induction false} MoveKeepsFates(o: Oracle, prompt: bool, c: Config, w: World, pick: seq<nat>)
    requires Shaped(c)
    ensures Move(o, prompt, c, w, pick).1.fates == w.fates
  {
    if c.InBranches? {
      if !AllReturned(c.inners) && pick != [] && pick[0] < |c.inners| {
        MoveKeepsFates(o, prompt, c.inners[pick[0]], w, pick[1..]);
      }
    } else if (c.InSteps? || c.InTurns? || c.InNode?) && !c.inner.Returned? {
      MoveKeepsFates(o, prompt, c.inner, w, pick);
    }
  }

  lemma CloseSteady(s: Setup, d: string -> Decision, plain: Evaluation, w: Shared, t: Turn)
    requires AllSteady(s, d, plain, w) && t.Close? && Possible(w, t)
    ensures AllSteady(s, d, plain, Take(s, w, t))
  {
    AllBeside(s, d, plain, w, w.log + [Checkpoint(t.reason, w.drivers[t.owner].state)], w.trace);
  }

  /** Every decision is the one `d` takes. */
  predicate RuledBy(turns: seq<Turn>, d: string -> Decision) {
    forall i :: 0 <= i < |turns| && turns[i].Rule? ==> turns[i].verdict == d(turns[i].id)
  }

  lemma RuleSteady(s: Setup, d: string -> Decision, plain: Evaluation, w: Shared, t: Turn)
    requires AllSteady(s, d, plain, w) && t.Rule? && Possible(w, t) && t.verdict == d(t.id)
    ensures AllSteady(s, d, plain, Take(s, w, t))
  {
    DecideSound(Newest(w.log), d, plain.facts, t.id);
    AllBeside(s, d, plain, w, Take(s, w, t).log, w.trace);
  }

  lemma {:induction false} AlwaysSteady(s: Setup, d: string -> Decision, first: string, ws: seq<Shared>,
                                        turns: seq<Turn>, n: nat)
    requires Run(s, first, ws, turns) && n < |ws| && RuledBy(turns, d)
    requires Consistent(Plain(s.oracle, d, s.root, s.input).facts)
    ensures AllSteady(s, d, Plain(s.oracle, d, s.root, s.input), ws[n])
  {
    if n > 0 {
      AlwaysSteady(s, d, first, ws, turns, n - 1);
      assert Possible(ws[n - 1], turns[n - 1]) && ws[n - 1 + 1] == Take(s, ws[n - 1], turns[n - 1]);
      TurnSteady(s, d, Plain(s.oracle, d, s.root, s.input), ws[n - 1], turns[n - 1]);
    }
  }

  lemma TurnSteady(s: Setup, d: string -> Decision, plain: Evaluation, w: Shared, t: Turn)
    requires plain == Plain(s.oracle, d, s.root, s.input) && Consistent(plain.facts) && AllSteady(s, d, plain, w)
    requires Possible(w, t) && (t.Rule? ==> t.verdict == d(t.id))
    ensures AllSteady(s, d, plain, Take(s, w, t))
  {
    if t.Advance? {
      AdvanceSteady(s, d, plain, w, t);
    } else if t.Close? {
      CloseSteady(s, d, plain, w, t);
    } else if t.Rule? {
      RuleSteady(s, d, plain, w, t);
    }
  }

  /** Whatever the leases do, overlapping attempts of a tidy tree perform and store only what one
      uninterrupted run does, and each that returns, returns its output. */
  lemma {:induction false} OverlapKeepsOutput(s: Setup, d: string -> Decision, first: string, ws: seq<Shared>,
                                              turns: seq<Turn>, n: nat, owner: string)
    requires Run(s, first, ws, turns) && n < |ws| && RuledBy(turns, d) && Tidy(s.root)
    ensures var plain := Plain(s.oracle, d, s.root, s.input);
      && (forall m :: 0 <= m < |ws[n].trace| ==> Foreseen(ws[n].trace[m], plain.facts))
      && (forall i :: 0 <= i < |ws[n].log| ==> Sound(ws[n].log[i].state, d, plain.facts))
      && (Drives(ws[n], owner) && ws[n].drivers[owner].config.Returned? ==>
            plain.out == Some(ws[n].drivers[owner].config.x))
  {
    TidyConsistent(s.oracle, d, s.root, s.input);
    AlwaysSteady(s, d, first, ws, turns, n);
  }

  // ------------------------------------------------------------------ and what they do not

  /** A workflow of one node, whose work is over at once. */
  const ONE_NODE := Workflow("w", [Node("n", Sequence([]))])

  const NODE := Key("w", "n")

  /** How long attempts may take, whether they read under their lease, and whether they may give it back
      late. */
  datatype Terms = Terms(length: real, strict: bool, late: bool)

  ghost predicate Fine(s: Setup, ws: seq<Shared>, turns: seq<Turn>, terms: Terms) {
    && s.prompt && (exists first :: Run(s, first, ws, turns)) && Punctual(ws, turns, terms.length)
    && (terms.strict ==> ReadsUnderLease(s, ws, turns))
    && (!terms.late ==> GivesOnTime(s, ws, turns))
  }

  lemma RunOn(s: Setup, ws: seq<Shared>, turns: seq<Turn>, t: Turn)
    requires (exists first :: Run(s, first, ws, turns)) && Possible(ws[|turns|], t)
    ensures exists first :: Run(s, first, ws + [Take(s, ws[|turns|], t)], turns + [t])
  {
    var first :| Run(s, first, ws, turns);
    assert Run(s, first, ws + [Take(s, ws[|turns|], t)], turns + [t]);
  }

  /** One turn more. */
  lemma Onwards(s: Setup, ws: seq<Shared>, turns: seq<Turn>, t: Turn, terms: Terms)
    requires Fine(s, ws, turns, terms) && Possible(ws[|turns|], t)
    requires t.Advance? ==> Live(ws[|turns|], t.owner, terms.length)
    requires t.Close? ==> Live(ws[|turns|], t.owner, terms.length)
    requires terms.strict && t.TakeLease? ==> Holds(ws[|turns|].drivers[t.owner].base, ws[|turns|].log)
    requires !terms.late && t.GiveLease? ==> InLease(s, ws[|turns|], t.owner)
    ensures Fine(s, ws + [Take(s, ws[|turns|], t)], turns + [t], terms)
  {
    var ws', turns' := ws + [Take(s, ws[|turns|], t)], turns + [t];
    RunOn(s, ws, turns, t);
    forall i | 0 <= i < |turns'| && turns'[i].TakeLease? && Possible(ws'[i], turns'[i]) && terms.strict
      ensures Drives(ws'[i + 1], turns'[i].owner) ==> Holds(ws'[i].drivers[turns'[i].owner].base, ws'[i].log)
    {
      if i < |turns| { assert ws'[i] == ws[i] && turns'[i] == turns[i] && ws'[i + 1] == ws[i + 1]; }
    }
  }

  lemma Continued(s: Setup, ws: seq<Shared>, turns: seq<Turn>, t: Turn, terms: Terms)
    returns (ws': seq<Shared>, turns': seq<Turn>)
    requires Fine(s, ws, turns, terms) && Possible(ws[|turns|], t)
    requires t.Advance? ==> Live(ws[|turns|], t.owner, terms.length)
    requires t.Close? ==> Live(ws[|turns|], t.owner, terms.length)
    requires terms.strict && t.TakeLease? ==> Holds(ws[|turns|].drivers[t.owner].base, ws[|turns|].log)
    requires !terms.late && t.GiveLease? ==> InLease(s, ws[|turns|], t.owner)
    ensures Fine(s, ws', turns', terms) && ws'[|turns'|] == Take(s, ws[|turns|], t)
  {
    Onwards(s, ws, turns, t, terms);
    ws', turns' := ws + [Take(s, ws[|turns|], t)], turns + [t];
  }

  /** `owner` takes one step, from `c` to `c1`. */
  lemma Steps(s: Setup, ws: seq<Shared>, turns: seq<Turn>, owner: string, c1: Config, v1: World, 
              terms: Terms)
    returns (ws': seq<Shared>, turns': seq<Turn>)
    requires Fine(s, ws, turns, terms) && Live(ws[|turns|], owner, terms.length)
    requires var (w, d) := (ws[|turns|], ws[|turns|].drivers[owner]);
      Shaped(d.config) && Move(s.oracle, s.prompt, d.config, World(d.state, w.log, w.trace, []), []) == (c1, v1)
    ensures Fine(s, ws', turns', terms)
    ensures var w := ws[|turns|];
      ws'[|turns'|] == w.(log := v1.log, trace := v1.trace,
                          drivers := w.drivers[owner := Driving(c1, v1.state, w.drivers[owner].since)])
  {
    ws', turns' := Continued(s, ws, turns, Advance(owner, []), terms);
  }

  /** The dictionary when `ONE_NODE` has just been opened. */
  function OpenState(): State { Register(World(FRESH, [], [], []), "w", ONE_NODE).state }

  function AtFirst(v: Value): (c: Config)
    ensures Shaped(c)
  {
    AtNode(ONE_NODE, 0, v, v)
  }

  function AtWork(v: Value): (c: Config)
    ensures Shaped(c)
  {
    var work := Start(Sequence([]), Give(v, v));
    assert Shaped(work);
    InNode(ONE_NODE, 0, v, work)
  }

  /** Three steps into the node, from a dictionary that does not have it. */
  lemma EntersNode(s: Setup, ws: seq<Shared>, turns: seq<Turn>, owner: string, terms: Terms)
    returns (ws': seq<Shared>, turns': seq<Turn>)
    requires Fine(s, ws, turns, terms) && Live(ws[|turns|], owner, terms.length)
    requires var d := ws[|turns|].drivers[owner];
      d.config == Start(ONE_NODE, s.input) && (d.state == FRESH || d.state == OpenState())
    ensures Fine(s, ws', turns', terms)
    ensures var w := ws[|turns|];
      ws'[|turns'|] == w.(log := w.log + [Checkpoint(BeforeNode(NODE), OpenState())],
                          trace := w.trace + [Began(NODE, |w.log| + 1)],
                          drivers := w.drivers[owner := Driving(AtWork(s.input), OpenState(), w.drivers[owner].since)])
  {
    var (w, d) := (ws[|turns|], ws[|turns|].drivers[owner]);
    var v := World(OpenState(), w.log, w.trace, []);
    assert Register(World(d.state, w.log, w.trace, []), "w", ONE_NODE).state == OpenState();
    assert Move(s.oracle, s.prompt, d.config, World(d.state, w.log, w.trace, []), []) == (AtFirst(s.input), v);
    ws', turns' := Steps(s, ws, turns, owner, AtFirst(s.input), v, terms);
    ws', turns' := BeginsNode(s, ws', turns', owner, terms);
    assert ws'[|turns'|].drivers == w.drivers[owner := Driving(AtWork(s.input), OpenState(), d.since)];
  }

  lemma BeginsNode(s: Setup, ws: seq<Shared>, turns: seq<Turn>, owner: string, terms: Terms)
    returns (ws': seq<Shared>, turns': seq<Turn>)
    requires Fine(s, ws, turns, terms) && Live(ws[|turns|], owner, terms.length)
    requires var d := ws[|turns|].drivers[owner]; d.config == AtFirst(s.input) && d.state == OpenState()
    ensures Fine(s, ws', turns', terms)
    ensures var w := ws[|turns|];
      ws'[|turns'|] == w.(log := w.log + [Checkpoint(BeforeNode(NODE), OpenState())],
                          trace := w.trace + [Began(NODE, |w.log| + 1)],
                          drivers := w.drivers[owner := Driving(AtWork(s.input), OpenState(), w.drivers[owner].since)])
  {
    var (w, d) := (ws[|turns|], ws[|turns|].drivers[owner]);
    var v := World(OpenState(), w.log, w.trace, []);
    var (c1, v1) := (Entering(ONE_NODE, 0, s.input, s.input), Save(v, BeforeNode(NODE)));
    assert Shaped(c1) && Move(s.oracle, s.prompt, AtFirst(s.input), v, []) == (c1, v1);
    ws', turns' := Steps(s, ws, turns, owner, c1, v1, terms);
    var v2 := Emit(v1, Began(NODE, |v1.log|));
    assert Move(s.oracle, s.prompt, c1, v1, []) == (AtWork(s.input), v2);
    ws', turns' := Steps(s, ws', turns', owner, AtWork(s.input), v2, terms);
    assert ws'[|turns'|].drivers == w.drivers[owner := Driving(AtWork(s.input), OpenState(), d.since)];
  }

  /** Three more, until its `after_node` checkpoint is stored. */
  lemma LeavesNode(s: Setup, ws: seq<Shared>, turns: seq<Turn>, owner: string, terms: Terms)
    returns (ws': seq<Shared>, turns': seq<Turn>)
    requires Fine(s, ws, turns, terms) && Live(ws[|turns|], owner, terms.length)
    requires ws[|turns|].drivers[owner].config == AtWork(s.input)
    ensures Fine(s, ws', turns', terms)
    ensures var (w, w') := (ws[|turns|], ws'[|turns'|]);
      && |w'.log| == |w.log| + 1 && w'.log[|w.log|].reason == AfterNode(NODE) && w'.log[..|w.log|] == w.log
      && w'.trace == w.trace && w'.place == w.place && w'.now == w.now
      && w'.drivers.Keys == w.drivers.Keys && w'.drivers[owner].Driving?
      && w'.drivers[owner].since == w.drivers[owner].since
      && (forall p :: p in w.drivers && p != owner ==> w'.drivers[p] == w.drivers[p])
  {
    var (w, d, x) := (ws[|turns|], ws[|turns|].drivers[owner], Give(s.input, s.input));
    var v := World(d.state, w.log, w.trace, []);
    var (c1, c2, c3) := (InNode(ONE_NODE, 0, s.input, Returned(x)), Recorded(ONE_NODE, 0, s.input, x),
                         AtNode(ONE_NODE, 1, s.input, x));
    assert Move(s.oracle, s.prompt, Start(Sequence([]), x), v, []) == (Returned(x), v);
    assert Move(s.oracle, s.prompt, AtWork(s.input), v, []) == (c1, v);
    ws', turns' := Steps(s, ws, turns, owner, c1, v, terms);
    assert Shaped(c1) && Move(s.oracle, s.prompt, c1, v, []) == (c2, Record(v, NODE, x));
    ws', turns' := Steps(s, ws', turns', owner, c2, Record(v, NODE, x), terms);
    assert Shaped(c2)
      && Move(s.oracle, s.prompt, c2, Record(v, NODE, x), []) == (c3, Save(Record(v, NODE, x), AfterNode(NODE)));
    ws', turns' := Steps(s, ws', turns', owner, c3, Save(Record(v, NODE, x), AfterNode(NODE)), terms);
  }

  /** The lease of `owner` is in place, and its store knows of it. */
  predicate Owns(s: Setup, p: Place, owner: string, since: real) {
    && InPlace(s, p, owner, since)
    && (s.lock.RedisKey? ==> s.ownerOf(owner) in p.tokens && p.tokens[s.ownerOf(owner)] == owner)
  }

  /** The first attempt, of `a`, has begun the node. */
  lemma FirstEnters(s: Setup, a: string, terms: Terms) returns (ws: seq<Shared>, turns: seq<Turn>)
    requires s.root == ONE_NODE && s.prompt && terms.length >= 0.0
    ensures Fine(s, ws, turns, terms)
    ensures var w := ws[|turns|];
      && Owns(s, w.place, a, 0.0) && w.now == 0.0
      && w.log == [Checkpoint(BeforeNode(NODE), OpenState())] && w.trace == [Began(NODE, 1)]
      && w.drivers == map[a := Driving(AtWork(s.input), OpenState(), 0.0)]
  {
    ws, turns := [Fresh(a)], [];
    assert Run(s, a, ws, turns);
    ws, turns := Continued(s, ws, turns, TakeLease(a), terms);
    var w := ws[|turns|];
    assert Owns(s, w.place, a, 0.0);
    assert w.drivers == map[a := Driving(Start(ONE_NODE, s.input), FRESH, 0.0)];
    ws, turns := EntersNode(s, ws, turns, a, terms);
    assert ws[|turns|].drivers == map[a := Driving(AtWork(s.input), OpenState(), 0.0)];
  }

  /** `b` starts on the node that was stored last. */
  lemma SecondRepeats(s: Setup, ws: seq<Shared>, turns: seq<Turn>, b: string, terms: Terms)
    returns (ws': seq<Shared>, turns': seq<Turn>)
    requires Fine(s, ws, turns, terms) && Live(ws[|turns|], b, terms.length)
    requires var d := ws[|turns|].drivers[b];
      d.config == Start(ONE_NODE, s.input) && (d.state == FRESH || d.state == OpenState())
    requires var log := ws[|turns|].log; log != [] && log[|log| - 1].reason == AfterNode(NODE)
    ensures Fine(s, ws', turns', terms) && !NothingTwice(ws'[|turns'|])
  {
    var i := |ws[|turns|].log| - 1;
    ws', turns' := EntersNode(s, ws, turns, b, terms);
    var w := ws'[|turns'|];
    assert w.trace[|w.trace| - 1] == Began(NODE, i + 2) && w.log[i].reason == AfterNode(NODE);
  }

  /** If attempts may last longer than their lease, there is a run in which a second process resumes while
      the first still works, and a node whose `after_node` checkpoint is stored begins again. */
  lemma {:induction false} OutlivedLeaseRepeats(s: Setup, length: real, a: string, b: string)
    returns (ws: seq<Shared>, turns: seq<Turn>)
    requires s.root == ONE_NODE && s.prompt && a != b
    requires 0.0 <= s.ttl && 0.0 <= length && !Covers(s.lock, s.ttl, length)
    ensures Fine(s, ws, turns, Terms(length, true, false)) && !NothingTwice(ws[|turns|])
  {
    var terms := Terms(length, true, false);
    ws, turns := FirstEnters(s, a, terms);
    ws, turns := Continued(s, ws, turns, Wait(length), terms);
    ws, turns := Continued(s, ws, turns, Read(b), terms);
    ws, turns := Takes(s, ws, turns, b, terms);
    ws, turns := LeavesNode(s, ws, turns, a, terms);
    ws, turns := SecondRepeats(s, ws, turns, b, terms);
  }

  /** When `a` gives back a lease that is its own, or its owner's, `b` gets one. */
  lemma FreeAgain(s: Setup, p: Place, now: real, since: real, a: string, holder: string, b: string)
    requires Owns(s, p, holder, since) && s.ownerOf(a) == s.ownerOf(holder)
    ensures Asked(s, GivenBack(s, p, now, a), now, b).0
  {
  }

  /** `a` gives back its lease, or that of its owner, and then `b` can have one. */
  lemma Gives(s: Setup, ws: seq<Shared>, turns: seq<Turn>, a: string, holder: string, since: real, b: string,
              terms: Terms)
    returns (ws': seq<Shared>, turns': seq<Turn>)
    requires Fine(s, ws, turns, terms) && Drives(ws[|turns|], a)
    requires Owns(s, ws[|turns|].place, holder, since) && s.ownerOf(a) == s.ownerOf(holder)
    requires !terms.late ==> InLease(s, ws[|turns|], a)
    ensures Fine(s, ws', turns', terms)
    ensures var (w, w') := (ws[|turns|], ws'[|turns'|]);
      && w' == w.(place := w'.place, drivers := w.drivers - {a})
      && Asked(s, w'.place, w'.now, b).0
  {
    var w := ws[|turns|];
    ws', turns' := Continued(s, ws, turns, GiveLease(a), terms);
    FreeAgain(s, w.place, w.now, since, a, holder, b);
  }

  /** `b` has read, and gets the lease. */
  lemma Takes(s: Setup, ws: seq<Shared>, turns: seq<Turn>, b: string, terms: Terms)
    returns (ws': seq<Shared>, turns': seq<Turn>)
    requires Fine(s, ws, turns, terms) && s.root == ONE_NODE
    requires var w := ws[|turns|];
      && b in w.drivers && w.drivers[b].HasRead? && Asked(s, w.place, w.now, b).0
      && (terms.strict ==> Holds(w.drivers[b].base, w.log))
    ensures Fine(s, ws', turns', terms)
    ensures var (w, w') := (ws[|turns|], ws'[|turns'|]);
      && w' == w.(place := w'.place,
                  drivers := w.drivers[b := Driving(Start(ONE_NODE, s.input), w.drivers[b].base, w.now)])
      && Owns(s, w'.place, b, w.now)
  {
    ws', turns' := Continued(s, ws, turns, TakeLease(b), terms);
  }

  /** `b` has read what lacks the node that was stored last, and can have the lease: it starts on that node. */
  lemma TakesAndRepeats(s: Setup, ws: seq<Shared>, turns: seq<Turn>, b: string, terms: Terms)
    returns (ws': seq<Shared>, turns': seq<Turn>)
    requires Fine(s, ws, turns, terms) && s.root == ONE_NODE && terms.length >= 0.0 && !terms.strict
    requires var w := ws[|turns|];
      && b in w.drivers && (w.drivers[b] == HasRead(FRESH) || w.drivers[b] == HasRead(OpenState()))
      && Asked(s, w.place, w.now, b).0
      && w.log != [] && w.log[|w.log| - 1].reason == AfterNode(NODE)
    ensures Fine(s, ws', turns', terms) && !NothingTwice(ws'[|turns'|])
  {
    ws', turns' := Takes(s, ws, turns, b, terms);
    ws', turns' := SecondRepeats(s, ws', turns', b, terms);
  }

  /** And even with attempts that end within their lease: `resume` reads its checkpoint before it takes
      the lease, so what the process before it stored in between is done again. */
  lemma {:induction false} StaleReadRepeats(s: Setup, length: real, a: string, b: string)
    returns (ws: seq<Shared>, turns: seq<Turn>)
    requires s.root == ONE_NODE && s.prompt && a != b && 0.0 <= length
    ensures Fine(s, ws, turns, Terms(length, false, true)) && !NothingTwice(ws[|turns|])
    ensures s.ttl > 0.0 ==> GivesOnTime(s, ws, turns)
  {
    var terms := Terms(length, false, s.ttl <= 0.0);
    ws, turns := FirstEnters(s, a, terms);
    ws, turns := Continued(s, ws, turns, Read(b), terms);
    ws, turns := LeavesNode(s, ws, turns, a, terms);
    ws, turns := Gives(s, ws, turns, a, a, 0.0, b, terms);
    ws, turns := TakesAndRepeats(s, ws, turns, b, terms);
  }

  /** A `run` job that is delivered again calls `run` again, and that starts from nothing, one attempt after
      the other. */
  lemma {:induction false} RunAgainRepeats(s: Setup, length: real, a: string, b: string)
    returns (ws: seq<Shared>, turns: seq<Turn>)
    requires s.root == ONE_NODE && s.prompt && a != b && 0.0 <= length
    ensures Fine(s, ws, turns, Terms(length, false, true)) && !NothingTwice(ws[|turns|])
    ensures s.ttl > 0.0 ==> GivesOnTime(s, ws, turns)
  {
    var terms := Terms(length, false, s.ttl <= 0.0);
    ws, turns := FirstEnters(s, a, terms);
    ws, turns := LeavesNode(s, ws, turns, a, terms);
    ws, turns := Gives(s, ws, turns, a, a, 0.0, b, terms);
    ws, turns := Continued(s, ws, turns, RunAgain(b), terms);
    ws, turns := TakesAndRepeats(s, ws, turns, b, terms);
  }

  /** `a` has outlived its lease and `b` has one; then `a` gives back the lease of its owner, which is that of
      `b`, and takes one itself. */
  lemma LateGive(s: Setup, a: string, b: string, terms: Terms) returns (ws: seq<Shared>, turns: seq<Turn>)
    requires s.root == ONE_NODE && s.prompt && a != b && !s.lock.InMemory? && s.ownerOf(a) == s.ownerOf(b)
    requires 0.0 <= s.ttl && 0.0 <= terms.length && terms.late
    ensures Fine(s, ws, turns, terms)
    ensures var w := ws[|turns|];
      && |w.log| == 1 && a in w.drivers && b in w.drivers
      && w.drivers[a] == w.drivers[b] == Driving(Start(ONE_NODE, s.input), OpenState(), w.now)
  {
    ws, turns := FirstEnters(s, a, terms);
    ws, turns := Continued(s, ws, turns, Wait(s.ttl + 1.0), terms);
    ws, turns := Continued(s, ws, turns, Read(b), terms);
    ws, turns := Takes(s, ws, turns, b, terms);
    ws, turns := Gives(s, ws, turns, a, b, s.ttl + 1.0, a, terms);
    ws, turns := Continued(s, ws, turns, Read(a), terms);
    ws, turns := Takes(s, ws, turns, a, terms);
  }

  /** Two processes whose stores write one owner, as they do by default, and a lease given back late: then two
      are within their lease, and a stored node begins again, although every attempt that does anything is
      as short as we like and has read what is completed. */
  lemma {:induction false} SharedOwnerRepeats(s: Setup, length: real, a: string, b: string)
    returns (ws: seq<Shared>, turns: seq<Turn>)
    requires s.root == ONE_NODE && s.prompt && a != b && !s.lock.InMemory? && s.ownerOf(a) == s.ownerOf(b)
    requires 0.0 <= s.ttl && 0.0 <= length
    ensures Fine(s, ws, turns, Terms(length, true, true)) && !NothingTwice(ws[|turns|])
  {
    var terms := Terms(length, true, true);
    ws, turns := LateGive(s, a, b, terms);
    ws, turns := EntersNode(s, ws, turns, b, terms);
    ws, turns := LeavesNode(s, ws, turns, b, terms);
    ws, turns := SecondRepeats(s, ws, turns, a, terms);
  }

  /** In every run over every tree whose branches share no name, whose attempts read under their lease and
      last at most `length`, and give it back on time unless `late`, nothing is done twice. */
  ghost predicate LengthIsSafe(lock: Lock, ttl: real, length: real, ownerOf: string -> string, late: bool) {
    forall o, root, input, first, ws, turns ::
      (var s := Setup(lock, true, ttl, ownerOf, o, root, input);
       && Apart(root) && Run(s, first, ws, turns) && Punctual(ws, turns, length) && ReadsUnderLease(s, ws, turns)
       && (!late ==> GivesOnTime(s, ws, turns))) ==>
        NothingTwice(ws[|turns|])
  }

  /** An attempt length is safe exactly if the lease covers it, which is up to its time for a row and less than
      that for a Redis key, and no two processes share an owner or none gives a lease back late; in
      memory every length is. */
  lemma {:induction false} LengthIsSafeIff(lock: Lock, ttl: real, length: real, ownerOf: string -> string, late: bool,
                                           o: Oracle, input: Value)
    requires ttl >= 0.0 && length >= 0.0
    ensures LengthIsSafe(lock, ttl, length, ownerOf, late)
       <==> lock.InMemory? || (Covers(lock, ttl, length) && (Unshared(ownerOf) || !late))
  {
    if lock.InMemory? || (Covers(lock, ttl, length) && (Unshared(ownerOf) || !late)) {
      forall o, root, input, first, ws, turns |
        var s := Setup(lock, true, ttl, ownerOf, o, root, input);
        && Apart(root) && Run(s, first, ws, turns) && Punctual(ws, turns, length) && ReadsUnderLease(s, ws, turns)
        && (!late ==> GivesOnTime(s, ws, turns))
        ensures NothingTwice(ws[|turns|])
      {
        var s := Setup(lock, true, ttl, ownerOf, o, root, input);
        if lock.InMemory? { InMemoryOnTime(s, first, ws, turns); }
        LeasedAttemptsNeverRepeat(s, first, ws, turns, |turns|, length);
      }
    } else if !Covers(lock, ttl, length) {
      var ws, turns := OutlivedLeaseRepeats(Setup(lock, true, ttl, ownerOf, o, ONE_NODE, input), length, "a", "b");
      var first :| Run(Setup(lock, true, ttl, ownerOf, o, ONE_NODE, input), first, ws, turns);
    } else {
      var a, b :| ownerOf(a) == ownerOf(b) && a != b;
      var ws, turns := SharedOwnerRepeats(Setup(lock, true, ttl, ownerOf, o, ONE_NODE, input), length, a, b);
      var first :| Run(Setup(lock, true, ttl, ownerOf, o, ONE_NODE, input), first, ws, turns);
    }
  }

  /** A store in memory never gives a lease to another before it is given back. */
  lemma InMemoryOnTime(s: Setup, first: string, ws: seq<Shared>, turns: seq<Turn>)
    requires s.lock.InMemory? && Run(s, first, ws, turns)
    ensures GivesOnTime(s, ws, turns)
  {
    forall i | 0 <= i < |turns| && turns[i].GiveLease? ensures InLease(s, ws[i], turns[i].owner) {
      assert Possible(ws[i], turns[i]);
    }
  }
}
