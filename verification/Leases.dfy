/** The lease tables of the SQLite and Postgres stores. */
module Leases {
  datatype Lease = Lease(owner: string, expiresAt: real)

  type Rows = map<string, Lease>

  /** SQLite deletes every expired row first; Postgres overwrites the one it wants. */
  datatype Engine = Sqlite | Postgres

  datatype Call = Acquire(id: string, owner: string, ttl: real) | Release(id: string, owner: string)

  datatype Timed = Timed(now: real, call: Call)

  function Purge(rows: Rows, now: real): Rows {
    map id | id in rows && !(rows[id].expiresAt < now) :: rows[id]
  }

  /** The table after an acquire; it succeeded exactly if it put the caller's lease in. */
  function AfterAcquire(e: Engine, rows: Rows, id: string, owner: string, ttl: real, now: real): (bool, Rows) {
    var mine := Lease(owner, now + ttl);
    match e
    case Sqlite =>
      var left := Purge(rows, now);
      if id in left then (false, left) else (true, left[id := mine])
    case Postgres =>
      if id !in rows || rows[id].expiresAt < now then (true, rows[id := mine]) else (false, rows)
  }

  function AfterRelease(rows: Rows, id: string, owner: string): Rows {
    if id in rows && rows[id].owner == owner then rows - {id} else rows
  }

  function Serve(e: Engine, rows: Rows, t: Timed): (bool, Rows) {
    match t.call
    case Acquire(id, owner, ttl) => AfterAcquire(e, rows, id, owner, ttl, t.now)
    case Release(id, owner) => (true, AfterRelease(rows, id, owner))
  }

  function Table(e: Engine, trace: seq<Timed>, n: nat): Rows
    requires n <= |trace|
  {
    if n == 0 then map[] else Serve(e, Table(e, trace, n - 1), trace[n - 1]).1
  }

  function Answer(e: Engine, trace: seq<Timed>, n: nat): bool
    requires n < |trace|
  {
    Serve(e, Table(e, trace, n), trace[n]).0
  }

  predicate Forward(trace: seq<Timed>) {
    forall i, j :: 0 <= i <= j < |trace| ==> trace[i].now <= trace[j].now
  }

  // ------------------------------------------------------------------ the store's methods

  class LockTable {
    const engine: Engine
    var rows: Rows

    constructor (engine: Engine)
      ensures this.engine == engine && rows == map[]
    {
      this.engine, rows := engine, map[];
    }

    method AcquireLock(id: string, owner: string, ttl: real, now: real) returns (acquired: bool)
      modifies this
      ensures (acquired, rows) == AfterAcquire(engine, old(rows), id, owner, ttl, now)
    {
      match engine {
        case Sqlite =>
          rows := Purge(rows, now);
          acquired := id !in rows;
          if acquired { rows := rows[id := Lease(owner, now + ttl)]; }
        case Postgres =>
          acquired := true;
          if id in rows { acquired := rows[id].expiresAt < now; }
          if acquired { rows := rows[id := Lease(owner, now + ttl)]; }
      }
    }

    method ReleaseLock(id: string, owner: string)
      modifies this
      ensures rows == AfterRelease(old(rows), id, owner)
    {
      if id in rows && rows[id].owner == owner { rows := rows - {id}; }
    }
  }

  // ------------------------------------------------------------------ the two engines agree

  /** SQLite's table is part of Postgres's, and what it lacks has expired. */
  ghost predicate Corresponds(s: Rows, p: Rows, now: real) {
    && (forall id :: id in s ==> id in p && p[id] == s[id])
    && (forall id :: id in p && id !in s ==> p[id].expiresAt < now)
  }

  lemma {:induction false} TablesCorrespond(trace: seq<Timed>, n: nat, now: real)
    requires n <= |trace| && Forward(trace) && (n > 0 ==> trace[n - 1].now <= now)
    ensures Corresponds(Table(Sqlite, trace, n), Table(Postgres, trace, n), now)
  {
    if n > 0 {
      var t := trace[n - 1];
      if n > 1 { assert trace[n - 2].now <= t.now; }
      TablesCorrespond(trace, n - 1, t.now);
      var (s, p) := (Table(Sqlite, trace, n - 1), Table(Postgres, trace, n - 1));
      assert Corresponds(s, p, t.now);
      ServeCorresponds(s, p, t);
    }
  }

  lemma ServeCorresponds(s: Rows, p: Rows, t: Timed)
    requires Corresponds(s, p, t.now)
    ensures Serve(Sqlite, s, t).0 == Serve(Postgres, p, t).0
    ensures Corresponds(Serve(Sqlite, s, t).1, Serve(Postgres, p, t).1, t.now)
  {
  }

  /** On every trace with a forward clock both stores answer every call alike. */
  lemma SameAnswers(trace: seq<Timed>, n: nat)
    requires n < |trace| && Forward(trace)
    ensures Answer(Sqlite, trace, n) == Answer(Postgres, trace, n)
  {
    if n > 0 { assert trace[n - 1].now <= trace[n].now; }
    TablesCorrespond(trace, n, trace[n].now);
    ServeCorresponds(Table(Sqlite, trace, n), Table(Postgres, trace, n), trace[n]);
  }

  // ------------------------------------------------------------------ exclusion

  /** Unless released by its owner or expired, an acquired lease is still in the table. */
  lemma {:induction false} LeaseStays(e: Engine, trace: seq<Timed>, i: nat, n: nat)
    requires i < n <= |trace| && Forward(trace) && trace[i].call.Acquire? && Answer(e, trace, i)
    requires forall k :: i < k < n ==> trace[k].call != Release(trace[i].call.id, trace[i].call.owner)
    requires forall k :: i < k < n ==> trace[k].now <= trace[i].now + trace[i].call.ttl
    ensures trace[i].call.id in Table(e, trace, n)
    ensures Table(e, trace, n)[trace[i].call.id] == Lease(trace[i].call.owner, trace[i].now + trace[i].call.ttl)
  {
    if n > i + 1 { LeaseStays(e, trace, i, n - 1); }
  }

  /** Two successful acquires of one execution: in between its first owner released it, or by the
      second its lease had run out. */
  lemma SecondAcquireNeedsEnd(e: Engine, trace: seq<Timed>, i: nat, j: nat)
    requires i < j < |trace| && Forward(trace)
    requires trace[i].call.Acquire? && trace[j].call.Acquire? && trace[i].call.id == trace[j].call.id
    requires Answer(e, trace, i) && Answer(e, trace, j)
    ensures (exists k :: i < k < j && trace[k].call == Release(trace[i].call.id, trace[i].call.owner))
         || trace[i].now + trace[i].call.ttl < trace[j].now
  {
    if (forall k :: i < k < j ==> trace[k].call != Release(trace[i].call.id, trace[i].call.owner))
       && trace[j].now <= trace[i].now + trace[i].call.ttl {
      forall k | i < k < j ensures trace[k].now <= trace[i].now + trace[i].call.ttl {
        assert trace[k].now <= trace[j].now;
      }
      LeaseStays(e, trace, i, j);
    }
  }

  /** Every row comes from an acquire that was granted and not released since. */
  lemma {:induction false} RowComesFrom(e: Engine, trace: seq<Timed>, n: nat, id: string) returns (i: nat)
    requires n <= |trace| && id in Table(e, trace, n)
    ensures i < n && trace[i].call.Acquire? && trace[i].call.id == id && Answer(e, trace, i)
    ensures Table(e, trace, n)[id] == Lease(trace[i].call.owner, trace[i].now + trace[i].call.ttl)
    ensures forall k :: i < k < n ==> trace[k].call != Release(id, trace[i].call.owner)
  {
    var call := trace[n - 1].call;
    if call.Acquire? && call.id == id && Answer(e, trace, n - 1) {
      i := n - 1;
    } else {
      i := RowComesFrom(e, trace, n - 1, id);
    }
  }

  /** The lease asked for at `i` would last until call `n`, and its owner does not release it before. */
  predicate Lasts(trace: seq<Timed>, i: nat, n: nat)
    requires i < n < |trace| && trace[i].call.Acquire?
  {
    && trace[n].now <= trace[i].now + trace[i].call.ttl
    && forall k :: i < k < n ==> trace[k].call != Release(trace[i].call.id, trace[i].call.owner)
  }

  /** An acquire is granted exactly if no lease granted before on the same execution lasts until then. */
  lemma GrantedIff(e: Engine, trace: seq<Timed>, n: nat)
    requires n < |trace| && Forward(trace) && trace[n].call.Acquire?
    ensures Answer(e, trace, n) <==>
      forall i :: 0 <= i < n && trace[i].call.Acquire? && trace[i].call.id == trace[n].call.id ==>
        Answer(e, trace, i) ==> !Lasts(trace, i, n)
  {
    if Answer(e, trace, n) {
      forall i | 0 <= i < n && trace[i].call.Acquire? && trace[i].call.id == trace[n].call.id && Answer(e, trace, i)
        ensures !Lasts(trace, i, n)
      {
        SecondAcquireNeedsEnd(e, trace, i, n);
      }
    } else {
      var i := RowComesFrom(e, trace, n, trace[n].call.id);
    }
  }

  /** The clock matters: if it steps back after another execution's acquire has purged the table,
      SQLite grants a lease that Postgres still refuses. */
  lemma BackwardClockDiffers()
    ensures var trace := [Timed(0.0, Acquire("a", "x", 1.0)), Timed(2.0, Acquire("b", "x", 1.0)),
                          Timed(1.0, Acquire("a", "y", 1.0))];
      Answer(Sqlite, trace, 2) && !Answer(Postgres, trace, 2)
  {
    var trace := [Timed(0.0, Acquire("a", "x", 1.0)), Timed(2.0, Acquire("b", "x", 1.0)),
                  Timed(1.0, Acquire("a", "y", 1.0))];
    assert Table(Sqlite, trace, 1) == map["a" := Lease("x", 1.0)] == Table(Postgres, trace, 1);
    assert Table(Sqlite, trace, 2) == map["b" := Lease("x", 3.0)];
    assert Table(Postgres, trace, 2) == map["a" := Lease("x", 1.0), "b" := Lease("x", 3.0)];
  }
}
