/** The in-memory job queue and the worker that drives it. */
module JobQueue {
  import opened Numbers
  import opened Wrappers

  class Job {
    const id: string
    var attempts: nat

    constructor (id: string)
      ensures this.id == id && attempts == 0
    {
      this.id, attempts := id, 0;
    }
  }

  /** Every job is in exactly one place, once: queued, in flight, dead-lettered or acknowledged. */
  ghost predicate Placed(jobs: set<Job>, queue: seq<Job>, flying: map<string, Job>, dead: seq<Job>, acked: set<Job>) {
    && multiset(queue) + multiset(flying.Values) + multiset(dead) + multiset(acked) == multiset(jobs)
    && (forall k :: k in flying ==> flying[k].id == k)
    && (forall j, k :: j in jobs && k in jobs && j.id == k.id ==> j == k)
  }

  lemma QueuedNotFlying(jobs: set<Job>, queue: seq<Job>, flying: map<string, Job>, dead: seq<Job>, acked: set<Job>,
                        job: Job)
    requires Placed(jobs, queue, flying, dead, acked) && job in queue
    ensures job in jobs && job !in flying.Values && job.id !in flying
  {
    var (q, f) := (multiset(queue), multiset(flying.Values));
    assert q[job] >= 1 && multiset(jobs)[job] == q[job] + f[job] + multiset(dead)[job] + multiset(acked)[job];
    assert forall k :: k in flying ==> flying[k] in flying.Values && flying[k] in multiset(jobs);
  }

  /** The first job of the queue is leased. */
  lemma Lease(jobs: set<Job>, queue: seq<Job>, flying: map<string, Job>, dead: seq<Job>, acked: set<Job>)
    requires Placed(jobs, queue, flying, dead, acked) && queue != []
    ensures queue[0] in jobs && queue[0].id !in flying
    ensures Placed(jobs, queue[1..], flying[queue[0].id := queue[0]], dead, acked) && queue[0] !in queue[1..]
  {
    var job, later := queue[0], flying[queue[0].id := queue[0]];
    QueuedNotFlying(jobs, queue, flying, dead, acked, job);
    assert queue == [job] + queue[1..];
    assert later.Values == flying.Values + {job} by {
      assert later[job.id] == job;
      forall j | j in flying.Values ensures j in later.Values {
        var k :| k in flying && flying[k] == j;
        assert later[k] == j;
      }
    }
    assert multiset(later.Values) == multiset(flying.Values) + multiset{job};
    assert multiset(queue)[job] == 1 + multiset(queue[1..])[job] <= multiset(jobs)[job] <= 1;
  }

  /** A leased job leaves the in-flight table for the end of one of the three lists. */
  lemma Move(jobs: set<Job>, queue: seq<Job>, flying: map<string, Job>, dead: seq<Job>, acked: set<Job>, job: Job)
    requires Placed(jobs, queue, flying, dead, acked) && job.id in flying && flying[job.id] == job
    ensures job in jobs && Placed(jobs, queue, flying - {job.id}, dead, acked + {job})
    ensures Placed(jobs, queue + [job], flying - {job.id}, dead, acked)
    ensures Placed(jobs, queue, flying - {job.id}, dead + [job], acked)
  {
    var rest := flying - {job.id};
    assert job in flying.Values && multiset(jobs)[job] >= 1;
    forall j | j in flying.Values && j != job ensures j in rest.Values {
      var k :| k in flying && flying[k] == j;
      assert k in rest && rest[k] == j;
    }
    assert flying.Values == rest.Values + {job} && job !in rest.Values;
    assert multiset(flying.Values) == multiset(rest.Values) + multiset{job};
  }

  lemma AckedNotFlying(jobs: set<Job>, queue: seq<Job>, flying: map<string, Job>, dead: seq<Job>, acked: set<Job>,
                       job: Job)
    requires Placed(jobs, queue, flying, dead, acked) && job in acked
    ensures job in jobs && job !in flying.Values && job.id !in flying
  {
    var (a, f) := (multiset(acked), multiset(flying.Values));
    assert a[job] >= 1 && multiset(jobs)[job] == multiset(queue)[job] + f[job] + multiset(dead)[job] + a[job];
    assert forall k :: k in flying ==> flying[k] in flying.Values && flying[k] in multiset(jobs);
  }

  /** A leased or acknowledged job is put back, into the queue or among the dead. */
  lemma Return(jobs: set<Job>, queue: seq<Job>, flying: map<string, Job>, dead: seq<Job>, acked: set<Job>, job: Job)
    requires Placed(jobs, queue, flying, dead, acked)
    requires (job.id in flying && flying[job.id] == job) || job in acked
    ensures job in jobs && Placed(jobs, queue + [job], flying - {job.id}, dead, acked - {job})
    ensures Placed(jobs, queue, flying - {job.id}, dead + [job], acked - {job})
  {
    if job in acked {
      AckedNotFlying(jobs, queue, flying, dead, acked, job);
      assert flying - {job.id} == flying && multiset(acked) == multiset(acked - {job}) + multiset{job};
    } else {
      Move(jobs, queue, flying, dead, acked, job);
      assert acked - {job} == acked;
    }
  }

  /** A leased job is not acknowledged. */
  lemma FlyingNotAcked(jobs: set<Job>, queue: seq<Job>, flying: map<string, Job>, dead: seq<Job>, acked: set<Job>,
                       job: Job)
    requires Placed(jobs, queue, flying, dead, acked) && job.id in flying && flying[job.id] == job
    ensures job !in acked
  {
    assert job in flying.Values && multiset(flying.Values)[job] == 1 && multiset(jobs)[job] <= 1;
  }

  /** How many more deliveries the queued jobs may cause. */
  ghost function Remaining(queue: seq<Job>, deliveries: multiset<Job>, limit: nat): int {
    if queue == [] then 0 else limit - deliveries[queue[0]] + Remaining(queue[1..], deliveries, limit)
  }

  lemma {:induction false} RemainingAppend(queue: seq<Job>, job: Job, deliveries: multiset<Job>, limit: nat)
    ensures Remaining(queue + [job], deliveries, limit) == Remaining(queue, deliveries, limit) + limit - deliveries[job]
  {
    if queue == [] {
      assert queue + [job] == [job];
    } else {
      assert (queue + [job])[1..] == queue[1..] + [job];
      RemainingAppend(queue[1..], job, deliveries, limit);
    }
  }

  lemma {:induction false} RemainingBounds(queue: seq<Job>, deliveries: multiset<Job>, limit: nat)
    requires forall j :: j in queue ==> deliveries[j] < limit
    ensures |queue| <= Remaining(queue, deliveries, limit) <= |queue| * limit
  {
    if queue != [] {
      var n := |queue[1..]|;
      RemainingBounds(queue[1..], deliveries, limit);
      assert deliveries[queue[0]] < limit;
      assert (n + 1) * limit == n * limit + limit;
    }
  }

  lemma {:induction false} RemainingSame(queue: seq<Job>, job: Job, deliveries: multiset<Job>, limit: nat)
    requires job !in queue
    ensures Remaining(queue, deliveries + multiset{job}, limit) == Remaining(queue, deliveries, limit)
  {
    if queue != [] {
      RemainingSame(queue[1..], job, deliveries, limit);
    }
  }

  /** No job delivered more than `limit` times: so many deliveries in all. */
  lemma {:induction false} DeliveriesBounded(jobs: set<Job>, deliveries: multiset<Job>, limit: nat)
    requires forall j :: j in deliveries ==> j in jobs && deliveries[j] <= limit
    ensures |deliveries| <= |jobs| * limit
    decreases |jobs|
  {
    if jobs == {} {
      assert deliveries == multiset{} by { assert forall j :: j !in deliveries; }
    } else {
      var j :| j in jobs;
      var (rest, n) := (deliveries[j := 0], |jobs - {j}|);
      DeliveriesBounded(jobs - {j}, rest, limit);
      assert (n + 1) * limit == n * limit + limit;
    }
  }

  class InMemoryJobQueue {
    const maxAttempts: int
    var queue: seq<Job>
    var inFlight: map<string, Job>
    var deadLetter: seq<Job>
    ghost var acked: set<Job>
    ghost var jobs: set<Job>
    ghost var deliveries: multiset<Job>

    /** Every job has its one place, and its attempts count its deliveries. */
    ghost predicate Valid()
      reads this, jobs
    {
      && Placed(jobs, queue, inFlight, deadLetter, acked)
      && (forall j :: j in deliveries ==> j in jobs)
      && (forall j :: j in jobs ==> j.attempts == deliveries[j] <= AtLeastOne(maxAttempts))
      && (forall j :: j in queue ==> j in jobs && deliveries[j] < AtLeastOne(maxAttempts))
      && (forall k :: k in inFlight ==> inFlight[k] in jobs && 1 <= deliveries[inFlight[k]])
    }

    /** The measure that every round brings down. */
    ghost function Left(): int
      requires Valid()
      reads this, jobs
    {
      Remaining(queue, deliveries, AtLeastOne(maxAttempts))
    }

    constructor (maxAttempts: int)
      ensures Valid() && jobs == {} && this.maxAttempts == maxAttempts
    {
      this.maxAttempts := maxAttempts;
      queue, inFlight, deadLetter := [], map[], [];
      acked, jobs, deliveries := {}, {}, multiset{};
    }

    method Enqueue(job: Job)
      requires Valid() && job.attempts == 0 && forall j :: j in jobs ==> j.id != job.id
      modifies this
      ensures Valid() && queue == old(queue) + [job] && jobs == old(jobs) + {job}
      ensures inFlight == old(inFlight) && deadLetter == old(deadLetter) && acked == old(acked)
    {
      assert multiset(jobs + {job}) == multiset(jobs) + multiset{job};
      queue := queue + [job];
      jobs := jobs + {job};
    }

    method Dequeue() returns (job: Job?)
      requires Valid()
      modifies this, jobs
      ensures Valid() && jobs == old(jobs) && deadLetter == old(deadLetter) && acked == old(acked)
      ensures job == null <==> old(queue) == []
      ensures job == null ==> queue == [] && inFlight == old(inFlight)
      ensures job != null ==> job == old(queue)[0] && queue == old(queue)[1..]
      ensures job != null ==> job.id !in old(inFlight) && inFlight == old(inFlight)[job.id := job] && job !in queue
      ensures job != null ==> job.attempts == old(job.attempts) + 1
      ensures deliveries == old(deliveries) + (if job == null then multiset{} else multiset{job})
      ensures job != null ==> Left() + AtLeastOne(maxAttempts) - old(job.attempts) == old(Left())
    {
      if queue == [] { return null; }
      Lease(jobs, queue, inFlight, deadLetter, acked);
      job := queue[0];
      RemainingSame(queue[1..], job, deliveries, AtLeastOne(maxAttempts));
      queue := queue[1..];
      job.attempts := job.attempts + 1;
      inFlight := inFlight[job.id := job];
      deliveries := deliveries + multiset{job};
    }

    method Ack(job: Job)
      requires Valid() && job.id in inFlight && inFlight[job.id] == job
      modifies this
      ensures Valid() && jobs == old(jobs) && deliveries == old(deliveries)
      ensures inFlight == old(inFlight) - {job.id} && acked == old(acked) + {job}
      ensures queue == old(queue) && deadLetter == old(deadLetter)
      ensures Left() == old(Left()) <= old(Left()) + AtLeastOne(maxAttempts) - job.attempts
    {
      Move(jobs, queue, inFlight, deadLetter, acked, job);
      inFlight, acked := inFlight - {job.id}, acked + {job};
    }

    /** Whether the job is leased or, after an `on_result` hook that raised, acknowledged. */
    method Nack(job: Job, requeue: bool)
      requires Valid() && ((job.id in inFlight && inFlight[job.id] == job) || job in acked)
      modifies this
      ensures Valid() && jobs == old(jobs) && deliveries == old(deliveries)
      ensures inFlight == old(inFlight) - {job.id} && acked == old(acked) - {job}
      ensures Left() <= old(Left()) + AtLeastOne(maxAttempts) - job.attempts
      ensures if requeue && job.attempts < maxAttempts
              then queue == old(queue) + [job] && deadLetter == old(deadLetter)
              else queue == old(queue) && deadLetter == old(deadLetter) + [job]
    {
      Return(jobs, queue, inFlight, deadLetter, acked, job);
      inFlight, acked := inFlight - {job.id}, acked - {job};
      RemainingAppend(queue, job, deliveries, AtLeastOne(maxAttempts));
      if requeue && job.attempts < maxAttempts {
        queue := queue + [job];
      } else {
        deadLetter := deadLetter + [job];
      }
    }
  }

  /** What may be raised: a configuration error, which is permanent, any other exception, or a cancellation. */
  datatype Raise = Misconfigured | Broken | Cancelled

  /** How a round ends: its execution raises, or returns, and then the `on_result` hook may raise. */
  datatype Ending = Raises(error: Raise) | Returns(hook: Option<Raise>)

  function Raised(ending: Ending): Option<Raise> {
    match ending
    case Raises(error) => Some(error)
    case Returns(hook) => hook
  }

  /** No attempt between `from` and `n` of the job ended it: each raised, not for good, with attempts left. */
  ghost predicate Retried(fate: (string, nat) -> Ending, id: string, from: nat, n: nat, maxAttempts: int) {
    forall k :: from < k < n ==>
      fate(id, k) != Returns(None) && Raised(fate(id, k)) != Some(Misconfigured) && k < maxAttempts
  }

  /** Attempt `n` is the first to end the job, by returning. */
  ghost predicate Succeeded(fate: (string, nat) -> Ending, id: string, from: nat, n: nat, maxAttempts: int) {
    from < n && Retried(fate, id, from, n, maxAttempts) && fate(id, n) == Returns(None)
  }

  /** Attempt `n` is the first to end the job, for good or because it is the last allowed. */
  ghost predicate GivenUp(fate: (string, nat) -> Ending, id: string, from: nat, n: nat, maxAttempts: int) {
    from < n && Retried(fate, id, from, n, maxAttempts) && fate(id, n) != Returns(None)
    && (Raised(fate(id, n)) == Some(Misconfigured) || n >= maxAttempts)
  }

  class Worker {
    const queue: InMemoryJobQueue
    var processed: nat
    var failed: nat

    constructor (queue: InMemoryJobQueue)
      ensures this.queue == queue && processed == 0 && failed == 0
    {
      this.queue, processed, failed := queue, 0, 0;
    }

    /** Where the job of a round has gone: acknowledged, back at the end of the queue, or dead. */
    ghost predicate Settled(rest: seq<Job>, dead: seq<Job>, acked: set<Job>, job: Job, ending: Ending)
      reads queue, job
    {
      if ending == Returns(None) then
        queue.queue == rest && queue.deadLetter == dead && queue.acked == acked + {job}
      else if Raised(ending) != Some(Misconfigured) && job.attempts < queue.maxAttempts then
        queue.queue == rest + [job] && queue.deadLetter == dead && queue.acked == acked
      else
        queue.queue == rest && queue.deadLetter == dead + [job] && queue.acked == acked
    }

    /** `run_once`: exactly one leased job goes to exactly one place. A job whose hook raises has been acknowledged and
        counted as processed, and is put back all the same. */
    method RunOnce(ending: Ending) returns (job: Job?)
      requires queue.Valid()
      modifies this, queue, queue.jobs
      ensures queue.Valid() && queue.jobs == old(queue.jobs) && queue.inFlight == old(queue.inFlight)
      ensures job == null <==> old(queue.queue) == []
      ensures job == null ==> queue.queue == [] && queue.acked == old(queue.acked)
      ensures job == null ==> queue.deadLetter == old(queue.deadLetter)
      ensures job != null ==> job == old(queue.queue)[0] && job.attempts == old(job.attempts) + 1
      ensures forall j :: j in queue.jobs && j != job ==> j.attempts == old(j.attempts)
      ensures job != null ==> Settled(old(queue.queue)[1..], old(queue.deadLetter), old(queue.acked), job, ending)
      ensures processed == old(processed) + (if job != null && ending.Returns? then 1 else 0)
      ensures failed == old(failed) +
        (if job != null && Raised(ending) in {Some(Misconfigured), Some(Broken)} then 1 else 0)
      ensures job != null ==> queue.Left() < old(queue.Left())
    {
      job := queue.Dequeue();
      if job == null { return; }
      Handle(job, ending);
    }

    /** The `try` block of `run_once` and its handlers, for a leased job. */
    method Handle(job: Job, ending: Ending)
      requires queue.Valid() && job.id in queue.inFlight && queue.inFlight[job.id] == job
      modifies this, queue
      ensures queue.Valid() && queue.jobs == old(queue.jobs) && queue.inFlight == old(queue.inFlight) - {job.id}
      ensures Settled(old(queue.queue), old(queue.deadLetter), old(queue.acked), job, ending)
      ensures processed == old(processed) + (if ending.Returns? then 1 else 0)
      ensures failed == old(failed) + (if Raised(ending) in {Some(Misconfigured), Some(Broken)} then 1 else 0)
      ensures queue.deliveries == old(queue.deliveries)
      ensures queue.Left() <= old(queue.Left()) + AtLeastOne(queue.maxAttempts) - job.attempts
    {
      FlyingNotAcked(queue.jobs, queue.queue, queue.inFlight, queue.deadLetter, queue.acked, job);
      if ending.Returns? {
        queue.Ack(job);
        processed := processed + 1;
      }
      if Raised(ending).Some? { Recoil(job, Raised(ending).value); }
    }

    /** The `except` clauses of `run_once`. */
    method Recoil(job: Job, error: Raise)
      requires queue.Valid()
      requires (job.id in queue.inFlight && queue.inFlight[job.id] == job) || job in queue.acked
      modifies this`failed, queue
      ensures queue.Valid() && queue.jobs == old(queue.jobs) && queue.deliveries == old(queue.deliveries)
      ensures queue.inFlight == old(queue.inFlight) - {job.id} && queue.acked == old(queue.acked) - {job}
      ensures if error != Misconfigured && job.attempts < queue.maxAttempts
              then queue.queue == old(queue.queue) + [job] && queue.deadLetter == old(queue.deadLetter)
              else queue.queue == old(queue.queue) && queue.deadLetter == old(queue.deadLetter) + [job]
      ensures failed == old(failed) + (if error == Cancelled then 0 else 1)
      ensures queue.Left() <= old(queue.Left()) + AtLeastOne(queue.maxAttempts) - job.attempts
    {
      match error {
        case Cancelled =>
          queue.Nack(job, true);
        case Misconfigured =>
          failed := failed + 1;
          queue.Nack(job, false);
        case Broken =>
          failed := failed + 1;
          queue.Nack(job, true);
      }
    }

    /** Where a job is that was at attempt `from` when draining began, and what its last attempt did. */
    ghost predicate Drained(fate: (string, nat) -> Ending, j: Job, from: nat)
      reads queue, j
    {
      && (j in queue.queue ==> from <= j.attempts && Retried(fate, j.id, from, j.attempts + 1, queue.maxAttempts))
      && (j in queue.acked ==> Succeeded(fate, j.id, from, j.attempts, queue.maxAttempts))
      && (j in queue.deadLetter ==> GivenUp(fate, j.id, from, j.attempts, queue.maxAttempts))
    }

    /** One round of draining, by what the attempt of the first job does. */
    method ServeFirst(fate: (string, nat) -> Ending, ghost start: map<Job, nat>)
      requires queue.Valid() && queue.queue != []
      requires forall j :: j in start ==> j in queue.jobs && Drained(fate, j, start[j])
      modifies this, queue, queue.jobs
      ensures queue.Valid() && queue.jobs == old(queue.jobs) && queue.inFlight == old(queue.inFlight)
      ensures queue.Left() < old(queue.Left())
      ensures forall j :: j in start ==> Drained(fate, j, start[j])
    {
      QueuedOnce(queue.queue[0]);
      var first := queue.queue[0];
      var job := RunOnce(fate(first.id, first.attempts + 1));
      forall j | j in start ensures Drained(fate, j, start[j]) {
        assert old(Drained(fate, j, start[j]));
        if j != job {
          assert old(queue.queue) == [job] + old(queue.queue)[1..];
          assert j in queue.queue <==> j in old(queue.queue);
        }
      }
    }

    lemma QueuedOnce(job: Job)
      requires queue.Valid() && queue.queue != [] && job == queue.queue[0]
      ensures job !in queue.queue[1..] && job !in queue.acked && job !in queue.deadLetter && job in queue.jobs
    {
      assert queue.queue == [job] + queue.queue[1..];
      assert multiset(queue.queue)[job] == 1 + multiset(queue.queue[1..])[job];
      assert multiset(queue.jobs)[job] <= 1;
    }

    /** Whatever each attempt of each job does, a fixed set of jobs drains: within `limit` rounds per job the queue is
        empty, and every job it held was delivered up to its first attempt that ended it, and no more: it is
        acknowledged if that attempt returned, hook and all, and dead if it was misconfigured or the last allowed. */
    method Drain(fate: (string, nat) -> Ending) returns (rounds: nat)
      requires queue.Valid()
      modifies this, queue, queue.jobs
      ensures queue.Valid() && queue.jobs == old(queue.jobs) && queue.queue == []
        && queue.inFlight == old(queue.inFlight)
      ensures rounds <= |old(queue.queue)| * AtLeastOne(queue.maxAttempts)
      ensures forall j :: j in old(queue.queue) ==> j in queue.acked || j in queue.deadLetter
      ensures forall j :: j in old(queue.queue) ==> Drained(fate, j, old(j.attempts))
    {
      ghost var limit := AtLeastOne(queue.maxAttempts);
      RemainingBounds(queue.queue, queue.deliveries, limit);
      FreshlyQueued(fate);
      ghost var start := map j: Job | j in queue.queue :: j.attempts;
      rounds := 0;
      while queue.queue != []
        invariant queue.Valid() && queue.jobs == old(queue.jobs) && queue.inFlight == old(queue.inFlight)
        invariant rounds + queue.Left() <= old(queue.Left())
        invariant forall j :: j in start ==> Drained(fate, j, start[j])
        decreases queue.Left()
      {
        RemainingBounds(queue.queue, queue.deliveries, limit);
        ServeFirst(fate, start);
        rounds := rounds + 1;
        RemainingBounds(queue.queue, queue.deliveries, limit);
      }
      assert forall j :: j in old(queue.queue) ==> j in start && start[j] == old(j.attempts);
      forall j | j in old(queue.queue) ensures j in queue.acked || j in queue.deadLetter {
        QueuedNotFlying(old(queue.jobs), old(queue.queue), old(queue.inFlight), old(queue.deadLetter),
            old(queue.acked), j);
        assert multiset(queue.jobs)[j] == 1;
      }
    }

    lemma FreshlyQueued(fate: (string, nat) -> Ending)
      requires queue.Valid()
      ensures forall j :: j in queue.queue ==> j in queue.jobs && Drained(fate, j, j.attempts)
    {
      forall j | j in queue.queue ensures j !in queue.acked && j !in queue.deadLetter {
        assert multiset(queue.queue)[j] >= 1 && multiset(queue.jobs)[j] <= 1;
      }
    }
  }

  // ------------------------------------------------------------------ several workers

  /** Worker `worker` leases a job, or its execution of the leased job `id` ends. */
  datatype Turn = Leases(worker: nat) | Ends(worker: nat, id: string, ending: Ending)

  lemma AllPlaced(jobs: set<Job>, dead: seq<Job>, acked: set<Job>)
    requires Placed(jobs, [], map[], dead, acked)
    ensures forall j :: j in jobs ==> j in acked || j in dead
  {
    var flying: map<string, Job> := map[];
    assert flying.Values == {};
    forall j | j in jobs ensures j in acked || j in dead { assert multiset(jobs)[j] == 1; }
  }

  lemma OneFewer(flying: map<string, Job>, id: string)
    requires id in flying
    ensures |flying - {id}| == |flying| - 1
  {
    assert (flying - {id}).Keys == flying.Keys - {id};
  }

  lemma OneMore(flying: map<string, Job>, job: Job)
    requires job.id !in flying
    ensures |flying[job.id := job]| == |flying| + 1
  {
    assert flying[job.id := job].Keys == flying.Keys + {job.id};
  }

  method TakeLease(queue: InMemoryJobQueue) returns (busy: bool)
    requires queue.Valid()
    modifies queue, queue.jobs
    ensures queue.Valid() && queue.jobs == old(queue.jobs)
    ensures |queue.deliveries| == |old(queue.deliveries)| + (if busy then 1 else 0)
    ensures |queue.inFlight| == |old(queue.inFlight)| + (if busy then 1 else 0)
  {
    var job := queue.Dequeue();
    if job != null { OneMore(old(queue.inFlight), job); }
    busy := job != null;
  }

  method TakeEnd(worker: Worker, id: string, ending: Ending)
    requires worker.queue.Valid() && id in worker.queue.inFlight
    modifies worker, worker.queue
    ensures worker.queue.Valid() && worker.queue.jobs == old(worker.queue.jobs)
    ensures worker.queue.deliveries == old(worker.queue.deliveries)
    ensures |worker.queue.inFlight| == |old(worker.queue.inFlight)| - 1
  {
    OneFewer(worker.queue.inFlight, id);
    worker.Handle(worker.queue.inFlight[id], ending);
  }

  /** Workers on one queue, their rounds interleaved in any way. However executions end, turns that find
      something to do are bounded, and once there is none left every job is acknowledged or dead. */
  method Interleave(queue: InMemoryJobQueue, workers: seq<Worker>, schedule: seq<Turn>) returns (steps: nat)
    requires queue.Valid() && forall w :: w in workers ==> w.queue == queue
    modifies queue, queue.jobs, set w | w in workers
    ensures queue.Valid() && queue.jobs == old(queue.jobs)
    ensures steps <= 2 * (|queue.jobs| * AtLeastOne(queue.maxAttempts)) + |old(queue.inFlight)|
    ensures queue.queue == [] && queue.inFlight == map[] ==>
      forall j :: j in queue.jobs ==> j in queue.acked || j in queue.deadLetter
  {
    ghost var leases := 0;
    steps := 0;
    for i := 0 to |schedule|
      invariant queue.Valid() && queue.jobs == old(queue.jobs)
      invariant leases + |old(queue.deliveries)| == |queue.deliveries|
      invariant steps + |queue.inFlight| == 2 * leases + |old(queue.inFlight)|
    {
      match schedule[i] {
        case Leases(_) =>
          var busy := TakeLease(queue);
          if busy { steps, leases := steps + 1, leases + 1; }
        case Ends(w, id, ending) =>
          if w < |workers| && id in queue.inFlight {
            TakeEnd(workers[w], id, ending);
            steps := steps + 1;
          }
      }
    }
    DeliveriesBounded(queue.jobs, queue.deliveries, AtLeastOne(queue.maxAttempts));
    if queue.queue == [] && queue.inFlight == map[] { AllPlaced(queue.jobs, queue.deadLetter, queue.acked); }
  }
}
