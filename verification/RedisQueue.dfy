/** The Redis job queue, one server command at a time. */
module RedisQueue {
  import opened Wrappers
  import opened Numbers

  /** A job as its serialised payload; `attempts` is part of the text, so it tells payloads apart. */
  datatype Job = Job(id: string, body: string, attempts: nat)

  /** `pending` is a list pushed at the front and popped at the back, `processing` a sorted set of
      payloads with deadlines, in which equal payloads merge. */
  datatype Server = Server(pending: seq<Job>, processing: map<Job, real>, dead: seq<Job>)

  const EMPTY := Server([], map[], [])

  // ------------------------------------------------------------------ single commands

  function PushPending(s: Server, j: Job): Server { s.(pending := [j] + s.pending) }

  function PushDead(s: Server, j: Job): Server { s.(dead := [j] + s.dead) }

  function PopPending(s: Server): Server
    requires s.pending != []
  {
    s.(pending := s.pending[..|s.pending| - 1])
  }

  function Popped(s: Server): Job
    requires s.pending != []
  {
    s.pending[|s.pending| - 1]
  }

  function AddProcessing(s: Server, j: Job, deadline: real): Server { s.(processing := s.processing[j := deadline]) }

  /** `ZREM` of a member that may have gone meanwhile. */
  function RemoveProcessing(s: Server, j: Job): Server { s.(processing := s.processing - {j}) }

  function Delivered(j: Job): Job { j.(attempts := j.attempts + 1) }

  function PutBack(s: Server, j: Job, requeue: bool, maxAttempts: int): Server {
    if requeue && j.attempts < maxAttempts then PushPending(s, j) else PushDead(s, j)
  }

  // ------------------------------------------------------------------ the queue's methods

  class RedisJobQueue {
    const maxAttempts: int
    const visibility: real
    var server: Server

    constructor (maxAttempts: int, visibility: real)
      ensures this.maxAttempts == maxAttempts && this.visibility == visibility && server == EMPTY
    {
      this.maxAttempts, this.visibility, server := maxAttempts, visibility, EMPTY;
    }

    method Enqueue(job: Job)
      modifies this
      ensures server == old(server).(pending := [job] + old(server).pending)
    {
      server := PushPending(server, job);
    }

    method Dequeue(now: real) returns (job: Option<Job>)
      modifies this
      ensures job.None? <==> old(server).pending == []
      ensures job.None? ==> server == old(server)
      ensures job.Some? ==>
        var (waiting, n) := (old(server).pending, |old(server).pending| - 1);
        && job.value == Job(waiting[n].id, waiting[n].body, waiting[n].attempts + 1)
        && server == Server(waiting[..n], old(server).processing[job.value := now + visibility], old(server).dead)
    {
      if server.pending == [] { return None; }
      var payload := Popped(server);
      server := PopPending(server);
      job := Some(Delivered(payload));
      server := AddProcessing(server, job.value, now + visibility);
    }

    /** `_remove_in_flight`: the first member, in server order, that carries the job's id. */
    method RemoveInFlight(job: Job, members: seq<Job>) returns (removed: Option<Job>)
      requires forall m :: m in members <==> m in server.processing
      modifies this
      ensures removed.None? <==> forall m :: m in old(server).processing ==> m.id != job.id
      ensures removed.None? ==> server == old(server)
      ensures removed.Some? ==> removed.value.id == job.id && removed.value in old(server).processing
      ensures removed.Some? ==>
        server == old(server).(processing := old(server).processing - {removed.value})
    {
      for i := 0 to |members|
        invariant server == old(server) && forall k :: 0 <= k < i ==> members[k].id != job.id
      {
        if members[i].id == job.id {
          server := RemoveProcessing(server, members[i]);
          return Some(members[i]);
        }
      }
      removed := None;
    }

    method Nack(job: Job, requeue: bool, members: seq<Job>) returns (removed: Option<Job>)
      requires forall m :: m in members <==> m in server.processing
      modifies this
      ensures removed.Some? ==> removed.value.id == job.id && removed.value in old(server).processing
      ensures removed.None? <==> forall m :: m in old(server).processing ==> m.id != job.id
      ensures server.processing ==
        if removed.Some? then old(server).processing - {removed.value} else old(server).processing
      ensures if requeue && job.attempts < maxAttempts
              then server.pending == [job] + old(server).pending && server.dead == old(server).dead
              else server.pending == old(server).pending && server.dead == [job] + old(server).dead
    {
      removed := RemoveInFlight(job, members);
      server := PutBack(server, job, requeue, maxAttempts);
    }

    /** `recover`: every expired member goes back to pending, whatever its attempts. */
    method Recover(expired: seq<Job>, now: real)
      requires forall i, j :: 0 <= i < j < |expired| ==> expired[i] != expired[j]
      requires forall m :: m in expired <==> m in server.processing && server.processing[m] <= now
      modifies this
      ensures server.processing == map m | m in old(server).processing && !(old(server).processing[m] <= now) ::
          old(server).processing[m]
      ensures |server.pending| == |expired| + |old(server).pending|
        && server.pending[|expired|..] == old(server).pending
      ensures forall i :: 0 <= i < |expired| ==> server.pending[|expired| - 1 - i] == expired[i]
      ensures server.dead == old(server).dead
    {
      for i := 0 to |expired|
        invariant server.dead == old(server).dead
        invariant server.processing == map m | m in old(server).processing && m !in expired[..i] ::
            old(server).processing[m]
        invariant |server.pending| == i + |old(server).pending| && server.pending[i..] == old(server).pending
        invariant forall k :: 0 <= k < i ==> server.pending[i - 1 - k] == expired[k]
      {
        assert expired[..i + 1] == expired[..i] + [expired[i]];
        server := RemoveProcessing(server, expired[i]);
        server := PushPending(server, expired[i]);
      }
      assert expired[..|expired|] == expired;
    }
  }

  // ------------------------------------------------------------------ all processes together

  /** What a process is in the middle of: it has taken a payload off the server and will push it. */
  datatype Errand =
    | Leasing(job: Job)
    | Returning(job: Job, requeue: bool)
    | Recovering(job: Job)

  /** `submitted`, `acked` and `dropped` are job ids; `dropped` are those whose payload a dying process
      took with it. */
  datatype World = World(
    server: Server,
    errands: map<string, Errand>,
    leased: set<Job>,
    submitted: set<string>,
    acked: set<string>,
    dropped: set<string>)

  const START := World(EMPTY, map[], {}, {}, {}, {})

  /** `victim` is the member that a removal by job id finds, if any. */
  datatype Step =
    | Submit(job: Job)
    | BeginDequeue(p: string)
    | EndDequeue(p: string, deadline: real)
    | Ack(job: Job, victim: Option<Job>)
    | BeginNack(p: string, job: Job, requeue: bool, victim: Option<Job>)
    | EndNack(p: string, maxAttempts: int)
    | BeginRecover(p: string, member: Job)
    | EndRecover(p: string)
    | Die(p: string)

  /** The removal reads the members first: by the time of `ZREM` the one it found may be gone, so that
      removing nothing is always possible. */
  predicate Found(s: Server, job: Job, victim: Option<Job>) {
    match victim
    case Some(m) => m in s.processing && m.id == job.id
    case None => true
  }

  predicate Possible(w: World, s: Step) {
    match s
    case Submit(_) => true
    case BeginDequeue(p) => p !in w.errands && w.server.pending != []
    case EndDequeue(p, _) => p in w.errands && w.errands[p].Leasing?
    case Ack(job, victim) => job in w.leased && Found(w.server, job, victim)
    case BeginNack(p, job, _, victim) => p !in w.errands && job in w.leased && Found(w.server, job, victim)
    case EndNack(p, _) => p in w.errands && w.errands[p].Returning?
    case BeginRecover(p, member) => p !in w.errands && member in w.leased
    case EndRecover(p) => p in w.errands && w.errands[p].Recovering?
    case Die(_) => true
  }

  function Without(s: Server, victim: Option<Job>): Server {
    match victim case Some(m) => RemoveProcessing(s, m) case None => s
  }

  function Take(w: World, s: Step): World
    requires Possible(w, s)
  {
    match s
    case Submit(job) => w.(server := PushPending(w.server, job), submitted := w.submitted + {job.id})
    case BeginDequeue(p) =>
      w.(server := PopPending(w.server), errands := w.errands[p := Leasing(Delivered(Popped(w.server)))])
    case EndDequeue(p, deadline) =>
      var j := w.errands[p].job;
      w.(server := AddProcessing(w.server, j, deadline), errands := w.errands - {p}, leased := w.leased + {j})
    case Ack(job, victim) => w.(server := Without(w.server, victim), acked := w.acked + {job.id})
    case BeginNack(p, job, requeue, victim) =>
      w.(server := Without(w.server, victim), errands := w.errands[p := Returning(job, requeue)])
    case EndNack(p, maxAttempts) =>
      w.(server := PutBack(w.server, w.errands[p].job, w.errands[p].requeue, maxAttempts), errands := w.errands - {p})
    case BeginRecover(p, member) =>
      // the member was read as expired earlier; by now it may be gone, and it is pushed all the same
      w.(server := RemoveProcessing(w.server, member), errands := w.errands[p := Recovering(member)])
    case EndRecover(p) =>
      w.(server := PushPending(w.server, w.errands[p].job), errands := w.errands - {p})
    case Die(p) =>
      if p in w.errands then w.(errands := w.errands - {p}, dropped := w.dropped + {w.errands[p].job.id}) else w
  }

  ghost predicate Run(ws: seq<World>, steps: seq<Step>) {
    && |ws| == |steps| + 1 && ws[0] == START
    && forall i :: 0 <= i < |steps| ==> Possible(ws[i], steps[i]) && ws[i + 1] == Take(ws[i], steps[i])
  }

  // ------------------------------------------------------------------ the methods as steps

  /** `dequeue` without anybody between its two commands. */
  lemma DequeueInSteps(w: World, p: string, deadline: real)
    requires p !in w.errands && w.server.pending != []
    ensures var (waiting, n) := (w.server.pending, |w.server.pending| - 1);
      var job := Job(waiting[n].id, waiting[n].body, waiting[n].attempts + 1);
      var w1 := Take(w, BeginDequeue(p));
      && w1.errands == w.errands[p := Leasing(job)] && w1.server == w.server.(pending := waiting[..n])
      && Take(w1, EndDequeue(p, deadline)) == w.(leased := w.leased + {job}, server :=
           Server(waiting[..n], w.server.processing[job := deadline], w.server.dead))
  {
  }

  /** `nack` removes the member it found and then puts its job back, in the queue if it may be tried again. */
  lemma NackInSteps(w: World, p: string, job: Job, requeue: bool, victim: Option<Job>, maxAttempts: int)
    requires Possible(w, BeginNack(p, job, requeue, victim))
    ensures var left := if victim.Some? then w.server.processing - {victim.value} else w.server.processing;
      var w1 := Take(w, BeginNack(p, job, requeue, victim));
      && w1.errands == w.errands[p := Returning(job, requeue)] && w1.server == w.server.(processing := left)
      && Take(w1, EndNack(p, maxAttempts)) == w.(server :=
           if requeue && job.attempts < maxAttempts then Server([job] + w.server.pending, left, w.server.dead)
           else Server(w.server.pending, left, [job] + w.server.dead))
  {
  }

  /** `recover` takes one member out and pushes it as it is; `ack` only takes out the member it found. */
  lemma RecoverAndAckInSteps(w: World, p: string, member: Job, job: Job, victim: Option<Job>)
    requires Possible(w, BeginRecover(p, member)) && Possible(w, Ack(job, victim))
    ensures var w1 := Take(w, BeginRecover(p, member));
      && w1.server == w.server.(processing := w.server.processing - {member})
      && Take(w1, EndRecover(p)) == w.(server :=
           Server([member] + w.server.pending, w.server.processing - {member}, w.server.dead))
    ensures Take(w, Ack(job, victim)) == w.(acked := w.acked + {job.id}, server :=
      if victim.Some? then w.server.(processing := w.server.processing - {victim.value}) else w.server)
  {
  }

  // ------------------------------------------------------------------ first in, first out

  /** What a step pushes onto the pending list. */
  function PushedBy(w: World, s: Step): seq<Job>
    requires Possible(w, s)
  {
    match s
    case Submit(job) => [job]
    case EndNack(p, maxAttempts) =>
      var e := w.errands[p];
      if e.requeue && e.job.attempts < maxAttempts then [e.job] else []
    case EndRecover(p) => [w.errands[p].job]
    case _ => []
  }

  /** The job with which a step leaves a process that leases. */
  function LeasedBy(w: World, s: Step): seq<Job>
    requires Possible(w, s)
  {
    if s.BeginDequeue? then [Take(w, s).errands[s.p].job] else []
  }

  ghost function PushedIn(ws: seq<World>, steps: seq<Step>, n: nat): seq<Job>
    requires Run(ws, steps) && n < |ws|
  {
    if n == 0 then [] else PushedIn(ws, steps, n - 1) + PushedBy(ws[n - 1], steps[n - 1])
  }

  ghost function LeasedIn(ws: seq<World>, steps: seq<Step>, n: nat): seq<Job>
    requires Run(ws, steps) && n < |ws|
  {
    if n == 0 then [] else LeasedIn(ws, steps, n - 1) + LeasedBy(ws[n - 1], steps[n - 1])
  }

  /** As they will be leased: the last first, each with one more attempt. */
  function ToLease(waiting: seq<Job>): seq<Job> {
    if waiting == [] then []
    else ToLease(waiting[1..]) + [Job(waiting[0].id, waiting[0].body, waiting[0].attempts + 1)]
  }

  function OneMore(jobs: seq<Job>): (r: seq<Job>)
    ensures |r| == |jobs| && forall i :: 0 <= i < |r| ==> r[i] == Job(jobs[i].id, jobs[i].body, jobs[i].attempts + 1)
  {
    seq(|jobs|, i requires 0 <= i < |jobs| => Job(jobs[i].id, jobs[i].body, jobs[i].attempts + 1))
  }

  lemma {:induction false} LastToLease(waiting: seq<Job>)
    requires waiting != []
    ensures var n := |waiting| - 1;
      ToLease(waiting) == [Job(waiting[n].id, waiting[n].body, waiting[n].attempts + 1)] + ToLease(waiting[..n])
  {
    var n := |waiting| - 1;
    if n == 0 {
      assert waiting[1..] == [] && waiting[..n] == [];
    } else {
      LastToLease(waiting[1..]);
      var first := [Job(waiting[0].id, waiting[0].body, waiting[0].attempts + 1)];
      assert waiting[1..][..n - 1] == waiting[..n][1..] && waiting[1..][n - 1] == waiting[n];
      assert ToLease(waiting[..n]) == ToLease(waiting[..n][1..]) + first;
      Regrouped([Job(waiting[n].id, waiting[n].body, waiting[n].attempts + 1)], ToLease(waiting[..n][1..]), first);
    }
  }

  lemma StepInOrder(w: World, s: Step)
    requires Possible(w, s)
    ensures LeasedBy(w, s) + ToLease(Take(w, s).server.pending) == ToLease(w.server.pending) + OneMore(PushedBy(w, s))
  {
    var after := Take(w, s).server.pending;
    if s.BeginDequeue? {
      LastToLease(w.server.pending);
    } else if PushedBy(w, s) != [] {
      assert after == PushedBy(w, s) + w.server.pending && after[1..] == w.server.pending;
    } else {
      assert after == w.server.pending;
    }
  }

  /** At every command of every run: what has been pushed, submitted or put back, is what has been leased, with one
      attempt more and in the same order, and then what waits. */
  lemma {:induction false} FirstInFirstOut(ws: seq<World>, steps: seq<Step>, n: nat)
    requires Run(ws, steps) && n < |ws|
    ensures OneMore(PushedIn(ws, steps, n)) == LeasedIn(ws, steps, n) + ToLease(ws[n].server.pending)
  {
    if n > 0 {
      var (w, s) := (ws[n - 1], steps[n - 1]);
      FirstInFirstOut(ws, steps, n - 1);
      assert Possible(w, s) && ws[n - 1 + 1] == Take(w, s);
      StepInOrder(w, s);
      var (pushed, leased) := (PushedIn(ws, steps, n - 1), LeasedIn(ws, steps, n - 1));
      assert OneMore(pushed + PushedBy(w, s)) == OneMore(pushed) + OneMore(PushedBy(w, s));
      Regrouped(leased, ToLease(w.server.pending), OneMore(PushedBy(w, s)));
      Regrouped(leased, LeasedBy(w, s), ToLease(ws[n].server.pending));
    }
  }

  lemma Regrouped<T>(a: seq<T>, b: seq<T>, c: seq<T>)
    ensures a + b + c == a + (b + c)
  {
  }

  // ------------------------------------------------------------------ what every run keeps

  ghost predicate OnServer(s: Server, id: string) {
    || (exists j :: j in s.pending && j.id == id)
    || (exists j :: j in s.processing && j.id == id)
    || (exists j :: j in s.dead && j.id == id)
  }

  ghost predicate InHand(w: World, id: string) { exists p :: p in w.errands && w.errands[p].job.id == id }

  ghost predicate Kept(w: World, id: string) {
    id in w.acked || id in w.dropped || OnServer(w.server, id) || InHand(w, id)
  }

  lemma PushKeeps(s: Server, j: Job, id: string)
    ensures OnServer(PushPending(s, j), j.id) && OnServer(PushDead(s, j), j.id)
    ensures OnServer(s, id) ==> OnServer(PushPending(s, j), id) && OnServer(PushDead(s, j), id)
  {
    assert j in PushPending(s, j).pending && j in PushDead(s, j).dead;
    if k :| k in s.pending && k.id == id { assert k in PushPending(s, j).pending; }
    if k :| k in s.dead && k.id == id { assert k in PushDead(s, j).dead; }
    if k :| k in s.processing && k.id == id {
      assert k in PushPending(s, j).processing && k in PushDead(s, j).processing;
    }
    if k :| k in s.pending && k.id == id { assert k in PushDead(s, j).pending; }
    if k :| k in s.dead && k.id == id { assert k in PushPending(s, j).dead; }
  }

  /** Taking one payload off the server can only take that payload's id off. */
  lemma RemovalKeeps(s: Server, t: Server, gone: Job, id: string)
    requires OnServer(s, id) && id != gone.id && t.dead == s.dead
    requires forall j :: j in s.pending && j != gone ==> j in t.pending
    requires forall j :: j in s.processing && j != gone ==> j in t.processing
    ensures OnServer(t, id)
  {
  }

  lemma StepKeeps(w: World, s: Step, id: string)
    requires Possible(w, s) && Kept(w, id)
    ensures Kept(Take(w, s), id)
  {
    var w' := Take(w, s);
    if OnServer(w.server, id) {
      match s
      case Submit(job) => PushKeeps(w.server, job, id);
      case BeginDequeue(p) =>
        var j := Popped(w.server);
        assert w'.errands[p].job.id == j.id;
        assert w.server.pending == w'.server.pending + [j];
        if id != j.id { RemovalKeeps(w.server, w'.server, j, id); }
      case EndDequeue(p, _) =>
        if j :| j in w.server.processing && j.id == id { assert j in w'.server.processing; }
      case Ack(job, victim) =>
        if id != job.id && victim.Some? { RemovalKeeps(w.server, w'.server, victim.value, id); }
      case BeginNack(p, job, _, victim) =>
        assert w'.errands[p].job.id == job.id;
        if id != job.id && victim.Some? { RemovalKeeps(w.server, w'.server, victim.value, id); }
      case EndNack(p, _) => PushKeeps(w.server, w.errands[p].job, id);
      case BeginRecover(p, member) =>
        assert w'.errands[p].job.id == member.id;
        if id != member.id { RemovalKeeps(w.server, w'.server, member, id); }
      case EndRecover(p) => PushKeeps(w.server, w.errands[p].job, id);
      case Die(_) =>
    } else if InHand(w, id) {
      HandKeeps(w, s, id);
    }
  }

  lemma HandKeeps(w: World, s: Step, id: string)
    requires Possible(w, s) && InHand(w, id)
    ensures Kept(Take(w, s), id)
  {
    var w' := Take(w, s);
    var q :| q in w.errands && w.errands[q].job.id == id;
    if q in w'.errands && w'.errands[q] == w.errands[q] {
    } else if s.EndDequeue? {
      assert w.errands[q].job in w'.server.processing;
    } else if s.EndNack? || s.EndRecover? {
      PushKeeps(w.server, w.errands[q].job, id);
    }
  }

  /** At every command of every run: a submitted job that nobody acknowledged is pending, processing or
      dead, or in the hands of a process between two commands, unless a process died with it there. */
  lemma {:induction false} NothingLost(ws: seq<World>, steps: seq<Step>, n: nat, id: string)
    requires Run(ws, steps) && n < |ws| && id in ws[n].submitted
    ensures Kept(ws[n], id)
  {
    var (w, s) := (ws[n - 1], steps[n - 1]);
    assert ws[n - 1 + 1] == Take(w, s);
    if id in w.submitted {
      NothingLost(ws, steps, n - 1, id);
      StepKeeps(w, s, id);
    } else {
      PushKeeps(w.server, s.job, id);
    }
  }

  /** If processes die only between methods, an unacknowledged job is never lost at all. */
  lemma {:induction false} DeathBetweenMethodsIsHarmless(ws: seq<World>, steps: seq<Step>, n: nat, id: string)
    requires Run(ws, steps) && n < |ws| && id in ws[n].submitted && id !in ws[n].acked
    requires forall i :: 0 <= i < n && steps[i].Die? ==> steps[i].p !in ws[i].errands
    ensures OnServer(ws[n].server, id) || InHand(ws[n], id)
  {
    NothingLost(ws, steps, n, id);
    NoneDropped(ws, steps, n);
  }

  lemma {:induction false} NoneDropped(ws: seq<World>, steps: seq<Step>, n: nat)
    requires Run(ws, steps) && n < |ws|
    requires forall i :: 0 <= i < n && steps[i].Die? ==> steps[i].p !in ws[i].errands
    ensures ws[n].dropped == {}
  {
    if n > 0 {
      NoneDropped(ws, steps, n - 1);
      assert ws[n - 1 + 1] == Take(ws[n - 1], steps[n - 1]);
    }
  }

  /** The exception is real: a worker that dies between `BRPOP` and `ZADD` takes the job with it. */
  lemma DyingInsideDequeueLosesJob(job: Job) returns (ws: seq<World>, steps: seq<Step>)
    ensures Run(ws, steps) && job.id in ws[|steps|].submitted && job.id !in ws[|steps|].acked
    ensures !OnServer(ws[|steps|].server, job.id) && !InHand(ws[|steps|], job.id)
  {
    steps := [Submit(job), BeginDequeue("w"), Die("w")];
    var w1 := Take(START, steps[0]);
    var w2 := Take(w1, steps[1]);
    var w3 := Take(w2, steps[2]);
    ws := [START, w1, w2, w3];
    assert w1.server.pending == [job] && w2.server.pending == [];
  }

  /** `recover` does not look at `max_attempts`: a job whose worker always dies silently is delivered
      any number of times. */
  lemma {:induction false} SilentDeathsRedeliverForever(job: Job, n: nat) returns (ws: seq<World>, steps: seq<Step>)
    ensures Run(ws, steps) && ws[|steps|].server == Server([job.(attempts := job.attempts + n)], map[], [])
    ensures ws[|steps|].errands == map[]
  {
    if n == 0 {
      steps := [Submit(job)];
      ws := [START, Take(START, steps[0])];
    } else {
      ws, steps := SilentDeathsRedeliverForever(job, n - 1);
      var w0 := ws[|steps|];
      var next := job.(attempts := job.attempts + n);
      var s1, s2, s3, s4 := BeginDequeue("w"), EndDequeue("w", 0.0), BeginRecover("r", next), EndRecover("r");
      var w1 := Take(w0, s1);
      assert w1.server.pending == [] && w1.errands["w"] == Leasing(next);
      var w2 := Take(w1, s2);
      assert w2.errands == map[] && w2.server == Server([], map[next := 0.0], []);
      var w3 := Take(w2, s3);
      assert w3.server.processing == map[];
      var w4 := Take(w3, s4);
      assert w4.errands == map[] && w4.server.pending == [next];
      ws, steps := ws + [w1, w2, w3, w4], steps + [s1, s2, s3, s4];
    }
  }

  // ------------------------------------------------------------------ when `max_attempts` holds

  /** Jobs come in with no attempts, and every queue is configured alike. */
  predicate Configured(steps: seq<Step>, maxAttempts: int) {
    forall i :: 0 <= i < |steps| ==>
      && (steps[i].Submit? ==> steps[i].job.attempts == 0)
      && (steps[i].EndNack? ==> steps[i].maxAttempts == maxAttempts)
  }

  /** `recover` takes a member that has no attempts left. */
  predicate RecoversSpent(s: Step, maxAttempts: int) { s.BeginRecover? && s.member.attempts >= AtLeastOne(maxAttempts) }

  /** A payload waiting for its next delivery has attempts left; none has more than the limit. */
  ghost predicate WithinLimit(w: World, limit: nat) {
    && (forall j :: j in w.server.pending ==> j.attempts < limit)
    && (forall j :: j in w.server.processing ==> j.attempts <= limit)
    && (forall j :: j in w.server.dead ==> j.attempts <= limit)
    && (forall j :: j in w.leased ==> j.attempts <= limit)
    && (forall p :: p in w.errands ==> w.errands[p].job.attempts <= limit)
    && (forall p :: p in w.errands && w.errands[p].Recovering? ==> w.errands[p].job.attempts < limit)
  }

  /** Some payload, on the server or in a process's hands, has more attempts than allowed. */
  ghost predicate Passed(w: World, limit: nat) {
    || (exists j :: (j in w.server.pending || j in w.server.processing || j in w.server.dead) && j.attempts > limit)
    || (exists p :: p in w.errands && w.errands[p].job.attempts > limit)
  }

  lemma StepWithin(w: World, s: Step, maxAttempts: int)
    requires Possible(w, s) && Configured([s], maxAttempts) && !RecoversSpent(s, maxAttempts)
    requires WithinLimit(w, AtLeastOne(maxAttempts))
    ensures WithinLimit(Take(w, s), AtLeastOne(maxAttempts))
  {
    assert [s][0] == s;
    var w', limit := Take(w, s), AtLeastOne(maxAttempts);
    if s.BeginDequeue? { assert Popped(w.server) in w.server.pending; }
    forall j | j in w'.server.pending ensures j.attempts < limit {
      if j !in w.server.pending && s.EndNack? { assert j == w.errands[s.p].job; }
    }
    forall p | p in w'.errands ensures w'.errands[p].job.attempts <= limit {
      if p in w.errands && w'.errands[p] == w.errands[p] {} else { assert p == s.p; }
    }
  }

  /** If no `recover` takes a member that has used up its attempts, every payload stays within the limit
      at every server command. */
  lemma {:induction false} AttemptsWithinLimit(ws: seq<World>, steps: seq<Step>, n: nat, maxAttempts: int)
    requires Run(ws, steps) && n < |ws| && Configured(steps, maxAttempts)
    requires forall i :: 0 <= i < n ==> !RecoversSpent(steps[i], maxAttempts)
    ensures WithinLimit(ws[n], AtLeastOne(maxAttempts))
  {
    if n > 0 {
      AttemptsWithinLimit(ws, steps, n - 1, maxAttempts);
      assert ws[n - 1 + 1] == Take(ws[n - 1], steps[n - 1]);
      assert [steps[n - 1]][0] == steps[n - 1];
      StepWithin(ws[n - 1], steps[n - 1], maxAttempts);
    }
  }

  /** So the limit is passed only after such a `recover`... */
  lemma {:induction false} PassedOnlyByRecover(ws: seq<World>, steps: seq<Step>, n: nat, maxAttempts: int)
    requires Run(ws, steps) && n < |ws| && Configured(steps, maxAttempts) && Passed(ws[n], AtLeastOne(maxAttempts))
    ensures exists i :: 0 <= i < n && RecoversSpent(steps[i], maxAttempts)
  {
    if forall i :: 0 <= i < n ==> !RecoversSpent(steps[i], maxAttempts) {
      AttemptsWithinLimit(ws, steps, n, maxAttempts);
    }
  }

  /** One more step of a run. */
  lemma Extend(ws: seq<World>, steps: seq<Step>, s: Step)
    requires Run(ws, steps) && Possible(ws[|steps|], s)
    ensures Run(ws + [Take(ws[|steps|], s)], steps + [s])
  {
  }

  /** ...and after each such `recover`, nothing but finishing it and serving what is pending passes the
      limit. */
  lemma {:induction false} SpentRecoverPasses(ws: seq<World>, steps: seq<Step>, maxAttempts: int)
    returns (ws': seq<World>, steps': seq<Step>)
    requires Run(ws, steps) && steps != [] && RecoversSpent(steps[|steps| - 1], maxAttempts)
    ensures Run(ws', steps') && ws <= ws' && steps <= steps' && Passed(ws'[|steps'|], AtLeastOne(maxAttempts))
    ensures forall s :: s in steps'[|steps|..] ==> s.EndRecover? || s.BeginDequeue? || s.EndDequeue?
  {
    var (p, w) := (steps[|steps| - 1].p, ws[|steps|]);
    assert ws[|steps| - 1 + 1] == Take(ws[|steps| - 1], steps[|steps| - 1]);
    Extend(ws, steps, EndRecover(p));
    var w1 := Take(w, EndRecover(p));
    ws', steps' := ServedAtLast(ws + [w1], steps + [EndRecover(p)], p, w1.server.pending[0]);
    assert steps'[|steps|..] == [EndRecover(p)] + steps'[|steps| + 1..];
  }

  /** Serving on until the newest of the pending payloads is delivered. */
  lemma {:induction false} ServedAtLast(ws: seq<World>, steps: seq<Step>, p: string, job: Job)
    returns (ws': seq<World>, steps': seq<Step>)
    requires Run(ws, steps) && p !in ws[|steps|].errands
    requires ws[|steps|].server.pending != [] && ws[|steps|].server.pending[0] == job
    ensures Run(ws', steps') && ws <= ws' && steps <= steps'
    ensures p in ws'[|steps'|].errands && ws'[|steps'|].errands[p] == Leasing(Delivered(job))
    ensures forall s :: s in steps'[|steps|..] ==> s.BeginDequeue? || s.EndDequeue?
    decreases |ws[|steps|].server.pending|
  {
    var w := ws[|steps|];
    var w1 := Take(w, BeginDequeue(p));
    Extend(ws, steps, BeginDequeue(p));
    ws', steps' := ws + [w1], steps + [BeginDequeue(p)];
    if |w.server.pending| > 1 {
      var w2 := Take(w1, EndDequeue(p, 0.0));
      Extend(ws', steps', EndDequeue(p, 0.0));
      var n := |steps| + 2;
      ws', steps' := ServedAtLast(ws' + [w2], steps' + [EndDequeue(p, 0.0)], p, job);
      assert steps'[|steps|..] == [BeginDequeue(p), EndDequeue(p, 0.0)] + steps'[n..];
    }
  }
}
