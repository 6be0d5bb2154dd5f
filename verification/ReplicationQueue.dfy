/** The replication engine: a rotating delay queue, an id counter and a bounded history. */
module ReplicationQueue {
  import opened Results
  import opened Policy
  import opened Words

  datatype JobOperation = Put | Delete

  datatype JobStatus = Pending | RetryScheduled | Completed | Failed

  datatype ObjectRef = ObjectRef(
    bucket: string, key: string, etag: Option<string>, size: Option<nat>, contentType: Option<string>)

  datatype Job = Job(
    jobId: nat,
    target: string,
    sourceProvider: Option<string>,
    operation: JobOperation,
    objectRef: ObjectRef,
    status: JobStatus,
    attempts: nat,
    enqueuedAt: nat,
    nextAttemptAt: Option<nat>,
    lastError: Option<string>)

  // ----- the queue as a value -----

  predicate ReadyAt(job: Job, now: nat) {
    job.nextAttemptAt.Some? ==> job.nextAttemptAt.value <= now
  }

  /** Readiness at a given time, as a filter. */
  function Ready(now: nat): Job -> bool {
    job => ReadyAt(job, now)
  }

  /** The position of the first ready job, or the length of the queue. */
  function FirstReady(q: seq<Job>, now: nat): (i: nat)
    ensures i <= |q|
    ensures i < |q| ==> ReadyAt(q[i], now)
    ensures forall j :: 0 <= j < i ==> !ReadyAt(q[j], now)
  {
    if q == [] || ReadyAt(q[0], now) then 0 else 1 + FirstReady(q[1..], now)
  }

  /** The job a pop returns. */
  function Popped(q: seq<Job>, now: nat): Option<Job> {
    var i := FirstReady(q, now);
    if i < |q| then Some(q[i]) else None
  }

  /** The queue a pop leaves: the jobs it passed over move behind the rest, in their order. */
  function AfterPop(q: seq<Job>, now: nat): seq<Job> {
    var i := FirstReady(q, now);
    if i < |q| then q[i + 1..] + q[..i] else q
  }

  /** The last `limit` entries. */
  function Last(xs: seq<Job>, limit: nat): seq<Job> {
    if |xs| <= limit then xs else xs[|xs| - limit..]
  }

  function MaxId(jobs: seq<Job>): nat {
    if jobs == [] then 0
    else if jobs[|jobs| - 1].jobId > MaxId(jobs[..|jobs| - 1]) then jobs[|jobs| - 1].jobId
    else MaxId(jobs[..|jobs| - 1])
  }

  /** The floor that restoring or replacing jobs puts under the id counter. */
  function Floor(jobs: seq<Job>): nat {
    SaturatingNext(MaxId(jobs))
  }

  /** `fetch_max(floor.max(1))` on the id counter. */
  function Raised(counter: nat, floor: nat): nat {
    if counter >= floor && counter >= 1 then counter else if floor >= 1 then floor else 1
  }

  /** The targets an enqueue writes to: every sync target but the one the object came from. */
  function Targets(topology: Topology, source: Option<string>): seq<ProviderId> {
    Keep(NotSource(source), topology.syncTargets)
  }

  function NotSource(source: Option<string>): ProviderId -> bool {
    (p: ProviderId) => source != Some(Name(p))
  }

  /**
   * `jobs` are fresh jobs, one for each target in order, with consecutive ids from `first` modulo 2^64
   * and the times the clock gave for them.
   */
  ghost predicate CreatedFor(jobs: seq<Job>, targets: seq<ProviderId>, first: nat, source: Option<string>,
                             operation: JobOperation, objectRef: ObjectRef, clock: nat -> nat)
  {
    && |jobs| == |targets|
    && forall k :: 0 <= k < |jobs| ==>
         jobs[k] == Job((first + k) % U64, Name(targets[k]), source, operation, objectRef, Pending, 0,
                        clock(k), None, None)
  }

  // ----- the books of an engine -----

  /**
   * The engine with its book-keeping, which no event resets: every id entered, every id taken out and
   * not yet settled, every record, every id thrown away by a replace, and how many records there were
   * when the history was last cleared.
   */
  datatype Ledger = Ledger(
    pending: seq<Job>,
    recent: seq<Job>,
    entered: multiset<nat>,
    inFlight: multiset<nat>,
    recorded: seq<Job>,
    dropped: multiset<nat>,
    cleared: nat)

  const OPENING: Ledger := Ledger([], [], multiset{}, multiset{}, [], multiset{}, 0)

  /** Entering covers enqueue and restore; a retry or a record settles a job that was taken before. */
  datatype Event =
    | Enter(jobs: seq<Job>)
    | Take(now: nat)
    | Retry(job: Job)
    | Record(job: Job)
    | Replace(jobs: seq<Job>)

  function Ids(jobs: seq<Job>): multiset<nat> {
    multiset(IdList(jobs))
  }

  function IdList(jobs: seq<Job>): seq<nat> {
    seq(|jobs|, i requires 0 <= i < |jobs| => jobs[i].jobId)
  }

  predicate Enabled(l: Ledger, e: Event) {
    match e
    case Retry(job) => job.jobId in l.inFlight
    case Record(job) => job.jobId in l.inFlight
    case _ => true
  }

  function Apply(l: Ledger, e: Event, limit: nat): Ledger {
    match e
    case Enter(jobs) => l.(pending := l.pending + jobs, entered := l.entered + Ids(jobs))
    case Take(now) =>
      (match Popped(l.pending, now)
       case None => l
       case Some(job) =>
         l.(pending := AfterPop(l.pending, now), inFlight := l.inFlight + multiset{job.jobId}))
    case Retry(job) => l.(pending := l.pending + [job], inFlight := l.inFlight - multiset{job.jobId})
    case Record(job) =>
      l.(recent := Last(l.recent + [job], limit), recorded := l.recorded + [job],
         inFlight := l.inFlight - multiset{job.jobId})
    case Replace(jobs) =>
      l.(pending := jobs, recent := [], entered := l.entered + Ids(jobs), dropped := l.dropped + Ids(l.pending),
         cleared := |l.recorded|)
  }

  function After(events: seq<Event>, limit: nat): Ledger {
    if events == [] then OPENING
    else Apply(After(events[..|events| - 1], limit), events[|events| - 1], limit)
  }

  lemma AfterOneMore(events: seq<Event>, e: Event, limit: nat)
    ensures After(events + [e], limit) == Apply(After(events, limit), e, limit)
  {
    assert (events + [e])[..|events + [e]| - 1] == events;
  }

  lemma TakeIsBooked(events: seq<Event>, now: nat, limit: nat)
    ensures After(events + [Take(now)], limit).pending == AfterPop(After(events, limit).pending, now)
    ensures After(events + [Take(now)], limit).recent == After(events, limit).recent
  {
    hide After;
    AfterOneMore(events, Take(now), limit);
  }

  lemma EnterIsBooked(events: seq<Event>, jobs: seq<Job>, limit: nat)
    ensures After(events + [Enter(jobs)], limit).pending == After(events, limit).pending + jobs
    ensures After(events + [Enter(jobs)], limit).recent == After(events, limit).recent
  {
    hide After;
    AfterOneMore(events, Enter(jobs), limit);
  }

  lemma RetryIsBooked(events: seq<Event>, job: Job, limit: nat)
    ensures After(events + [Retry(job)], limit).pending == After(events, limit).pending + [job]
    ensures After(events + [Retry(job)], limit).recent == After(events, limit).recent
  {
    hide After;
    AfterOneMore(events, Retry(job), limit);
  }

  lemma RecordIsBooked(events: seq<Event>, job: Job, limit: nat)
    ensures After(events + [Record(job)], limit).pending == After(events, limit).pending
    ensures After(events + [Record(job)], limit).recent == Last(After(events, limit).recent + [job], limit)
  {
    hide After;
    AfterOneMore(events, Record(job), limit);
  }

  lemma ReplaceIsBooked(events: seq<Event>, jobs: seq<Job>, limit: nat)
    ensures After(events + [Replace(jobs)], limit).pending == jobs
    ensures After(events + [Replace(jobs)], limit).recent == []
  {
    hide After;
    AfterOneMore(events, Replace(jobs), limit);
  }

  // ----- the engine -----

  class ReplicationEngine {
    var nextJobId: nat
    var pending: seq<Job>
    var recent: seq<Job>
    const recentLimit: nat
    ghost var events: seq<Event>

    /** The queue and the history are those of the books. */
    ghost predicate Booked()
      reads this
    {
      After(events, recentLimit).pending == pending && After(events, recentLimit).recent == recent
    }

    ghost predicate Valid()
      reads this
    {
      nextJobId < U64 && |recent| <= recentLimit
    }

    constructor (recentLimit: nat)
      ensures Valid() && this.recentLimit == recentLimit
      ensures nextJobId == 1 && pending == [] && recent == [] && events == [] && Booked()
    {
      this.recentLimit := recentLimit;
      nextJobId, pending, recent, events := 1, [], [], [];
    }

    /** `fetch_add`, which wraps. */
    method AllocateJobId() returns (id: nat)
      requires Valid()
      modifies this`nextJobId
      ensures Valid() && id == old(nextJobId) && nextJobId == (id + 1) % U64
    {
      id := nextJobId;
      nextJobId := (nextJobId + 1) % U64;
    }

    /** `fetch_max`. */
    method EnsureNextJobIdAtLeast(floor: nat)
      requires Valid() && floor < U64
      modifies this`nextJobId
      ensures Valid() && nextJobId == Raised(old(nextJobId), floor)
    {
      var n := if floor > 1 then floor else 1;
      if nextJobId < n {
        nextJobId := n;
      }
    }

    method PopNextReadyAt(now: nat) returns (job: Option<Job>)
      modifies this`pending, this`events
      ensures job == Popped(old(pending), now) && pending == AfterPop(old(pending), now)
      ensures events == old(events) + [Take(now)] && (old(Booked()) ==> Booked())
    {
      hide After;
      TakeIsBooked(events, now, recentLimit);
      events := events + [Take(now)];
      ghost var q := pending;
      var queueLen := |pending|;
      for i := 0 to queueLen
        invariant pending == q[i..] + q[..i] && events == old(events) + [Take(now)]
        invariant forall j :: 0 <= j < i ==> !ReadyAt(q[j], now)
      {
        RotateOnce(q, i);
        var front := pending[0];
        pending := pending[1..];
        if ReadyAt(front, now) {
          assert FirstReady(q, now) == i;
          return Some(front);
        }
        pending := pending + [front];
      }
      assert pending == q;
      return None;
    }

    method ScheduleRetry(job: Job)
      modifies this`pending, this`events
      ensures pending == old(pending) + [job]
      ensures events == old(events) + [Retry(job)] && (old(Booked()) ==> Booked())
    {
      hide After;
      RetryIsBooked(events, job, recentLimit);
      events := events + [Retry(job)];
      pending := pending + [job];
    }

    method EnqueueExistingJob(job: Job)
      modifies this`pending, this`events
      ensures pending == old(pending) + [job]
      ensures events == old(events) + [Enter([job])] && (old(Booked()) ==> Booked())
    {
      hide After;
      EnterIsBooked(events, [job], recentLimit);
      events := events + [Enter([job])];
      pending := pending + [job];
    }

    method RestorePending(jobs: seq<Job>)
      requires Valid() && forall j :: j in jobs ==> j.jobId < U64
      modifies this`pending, this`nextJobId, this`events
      ensures Valid() && pending == old(pending) + jobs
      ensures nextJobId == if jobs == [] then old(nextJobId) else Raised(old(nextJobId), Floor(jobs))
      ensures events == (if jobs == [] then old(events) else old(events) + [Enter(jobs)])
      ensures old(Booked()) ==> Booked()
    {
      if jobs == [] {
        return;
      }
      hide After;
      EnterIsBooked(events, jobs, recentLimit);
      events := events + [Enter(jobs)];
      EnsureNextJobIdAtLeast(Floor(jobs));
      pending := pending + jobs;
    }

    method ReplacePending(jobs: seq<Job>)
      requires Valid() && forall j :: j in jobs ==> j.jobId < U64
      modifies this
      ensures Valid() && pending == jobs && recent == []
      ensures nextJobId == Raised(old(nextJobId), Floor(jobs))
      ensures events == old(events) + [Replace(jobs)] && (old(Booked()) ==> Booked())
    {
      hide After;
      ReplaceIsBooked(events, jobs, recentLimit);
      events := events + [Replace(jobs)];
      EnsureNextJobIdAtLeast(Floor(jobs));
      pending := jobs;
      recent := [];
    }

    /** `clock` gives the time read for each created job in turn. */
    method EnqueueJobs(topology: Topology, source: Option<string>, operation: JobOperation, objectRef: ObjectRef,
                       clock: nat -> nat)
      returns (created: seq<Job>)
      requires Valid()
      modifies this`pending, this`nextJobId, this`events
      ensures Valid() && pending == old(pending) + created
      ensures CreatedFor(created, Targets(topology, source), old(nextJobId), source, operation, objectRef,
                         clock)
      ensures nextJobId == (old(nextJobId) + |created|) % U64
      ensures events == old(events) + [Enter(created)] && (old(Booked()) ==> Booked())
    {
      hide Keep, CreatedFor, Name, After;
      created := [];
      var targets := topology.syncTargets;
      NothingCreated(NotSource(source), old(nextJobId), source, operation, objectRef, clock);
      for i := 0 to |targets|
        invariant Valid() && pending == old(pending) + created && events == old(events)
        invariant CreatedFor(created, Keep(NotSource(source), targets[..i]), old(nextJobId), source, operation,
                             objectRef, clock)
        invariant nextJobId == (old(nextJobId) + |created|) % U64
      {
        assert targets[..i + 1] == targets[..i] + [targets[i]];
        KeepAppend(NotSource(source), targets[..i], targets[i]);
        assert NotSource(source)(targets[i]) <==> source != Some(Name(targets[i]));
        if source == Some(Name(targets[i])) {
          assert Keep(NotSource(source), targets[..i]) + [] == Keep(NotSource(source), targets[..i]);
          continue;
        }
        var id := AllocateJobId();
        var job := Job(id, Name(targets[i]), source, operation, objectRef, Pending, 0, clock(|created|), None, None);
        WrapsOnce(old(nextJobId), |created|);
        OneMoreCreated(created, Keep(NotSource(source), targets[..i]), old(nextJobId), job, targets[i], clock);
        pending := pending + [job];
        created := created + [job];
      }
      assert targets[..|targets|] == targets;
      EnterIsBooked(events, created, recentLimit);
      events := events + [Enter(created)];
    }

    method RecordCompleted(job: Job)
      requires Valid()
      modifies this`recent, this`events
      ensures var completed := job.(status := Completed, nextAttemptAt := None);
              && Valid() && recent == Last(old(recent) + [completed], recentLimit)
              && events == old(events) + [Record(completed)] && (old(Booked()) ==> Booked())
    {
      hide After;
      PushRecent(job.(status := Completed, nextAttemptAt := None));
    }

    method RecordFailed(job: Job, error: string)
      requires Valid()
      modifies this`recent, this`events
      ensures var failed := job.(status := Failed, nextAttemptAt := None, lastError := Some(error));
              && Valid() && recent == Last(old(recent) + [failed], recentLimit)
              && events == old(events) + [Record(failed)] && (old(Booked()) ==> Booked())
    {
      hide After;
      PushRecent(job.(status := Failed, nextAttemptAt := None, lastError := Some(error)));
    }

    method PushRecent(job: Job)
      requires Valid()
      modifies this`recent, this`events
      ensures Valid() && recent == Last(old(recent) + [job], recentLimit)
      ensures events == old(events) + [Record(job)] && (old(Booked()) ==> Booked())
    {
      hide After;
      RecordIsBooked(events, job, recentLimit);
      events := events + [Record(job)];
      recent := recent + [job];
      if |recent| > recentLimit {
        var overflow := |recent| - recentLimit;
        recent := recent[overflow..];
      }
    }
  }

  /** One turn of the rotation: the front leaves, and joins the back again. */
  lemma RotateOnce(q: seq<Job>, i: nat)
    requires i < |q|
    ensures var r := q[i..] + q[..i];
            r[0] == q[i] && r[1..] == q[i + 1..] + q[..i] && r[1..] + [r[0]] == q[i + 1..] + q[..i + 1]
  {
    assert q[..i + 1] == q[..i] + [q[i]];
  }

  lemma NothingCreated(p: ProviderId -> bool, first: nat, source: Option<string>, operation: JobOperation,
                       objectRef: ObjectRef, clock: nat -> nat)
    ensures CreatedFor([], Keep(p, []), first, source, operation, objectRef, clock)
  {
  }

  lemma OneMoreCreated(created: seq<Job>, targets: seq<ProviderId>, first: nat, job: Job, target: ProviderId,
                       clock: nat -> nat)
    requires CreatedFor(created, targets, first, job.sourceProvider, job.operation, job.objectRef, clock)
    requires job == Job((first + |created|) % U64, Name(target), job.sourceProvider, job.operation, job.objectRef,
                        Pending, 0, clock(|created|), None, None)
    ensures CreatedFor(created + [job], targets + [target], first, job.sourceProvider, job.operation, job.objectRef,
                       clock)
  {
    hide Name;
  }

  lemma WrapsOnce(n: nat, k: nat)
    ensures ((n + k) % U64 + 1) % U64 == (n + k + 1) % U64
  {
  }

  // ----- runs of the queue -----

  /** What happens to the queue: pops at given times, and appends by enqueue, retry and restore. */
  datatype QueueOp = Pop(now: nat) | Append(jobs: seq<Job>)

  datatype QueueRun = QueueRun(popped: seq<Job>, left: seq<Job>)

  function RunQueue(q: seq<Job>, ops: seq<QueueOp>): QueueRun
    decreases |ops|
  {
    if ops == [] then QueueRun([], q)
    else
      match ops[0]
      case Append(jobs) => RunQueue(q + jobs, ops[1..])
      case Pop(now) =>
        var rest := RunQueue(AfterPop(q, now), ops[1..]);
        if Popped(q, now).Some? then QueueRun([Popped(q, now).value] + rest.popped, rest.left) else rest
  }

  function Appended(ops: seq<QueueOp>): seq<Job> {
    if ops == [] then []
    else (if ops[0].Append? then ops[0].jobs else []) + Appended(ops[1..])
  }

  function Pops(ops: seq<QueueOp>): nat {
    if ops == [] then 0 else (if ops[0].Pop? then 1 else 0) + Pops(ops[1..])
  }

  /** Every pop of the run happens at time `t` or later. */
  ghost predicate PopsFrom(ops: seq<QueueOp>, t: nat) {
    forall op :: op in ops && op.Pop? ==> t <= op.now
  }

  lemma {:induction false} KeepNone(p: Job -> bool, xs: seq<Job>)
    requires forall i :: 0 <= i < |xs| ==> !p(xs[i])
    ensures Keep(p, xs) == []
  {
    if xs != [] {
      KeepNone(p, xs[..|xs| - 1]);
    }
  }

  /** One pop at or after `t` takes the head of the jobs ready at `t`, or none of them. */
  lemma PopTakesReadyHead(q: seq<Job>, t: nat, now: nat)
    requires t <= now
    ensures Keep(Ready(t), q) ==
            (if Popped(q, now).Some? then Keep(Ready(t), [Popped(q, now).value]) else [])
            + Keep(Ready(t), AfterPop(q, now))
  {
    hide Keep;
    var i := FirstReady(q, now);
    var passed := q[..i];
    KeepNone(Ready(t), passed);
    if i < |q| {
      assert q == passed + ([q[i]] + q[i + 1..]);
      KeepConcat(Ready(t), passed, [q[i]] + q[i + 1..]);
      KeepConcat(Ready(t), [q[i]], q[i + 1..]);
      KeepConcat(Ready(t), q[i + 1..], passed);
    } else {
      assert passed == q;
    }
  }

  /**
   * Fairness: for any time `t` and any run whose pops happen at `t` or later, the jobs ready at `t`
   * leave the queue first in, first out, whatever rotation does to the others.
   */
  lemma {:induction false} ReadyJobsAreFifo(q: seq<Job>, ops: seq<QueueOp>, t: nat)
    requires PopsFrom(ops, t)
    ensures var run := RunQueue(q, ops);
            Keep(Ready(t), q) + Keep(Ready(t), Appended(ops)) == Keep(Ready(t), run.popped) + Keep(Ready(t), run.left)
    decreases |ops|
  {
    hide Keep, Popped, AfterPop;
    if ops == [] {
      KeepNone(Ready(t), []);
    } else {
      assert forall op :: op in ops[1..] ==> op in ops;
      assert ops[0] in ops;
      var rest := Appended(ops[1..]);
      match ops[0]
      case Append(jobs) =>
        ReadyJobsAreFifo(q + jobs, ops[1..], t);
        KeepShifts(q, jobs, rest, t);
      case Pop(now) =>
        ReadyJobsAreFifo(AfterPop(q, now), ops[1..], t);
        assert [] + rest == rest;
        PopKeepsOrder(q, t, now, Keep(Ready(t), rest), RunQueue(AfterPop(q, now), ops[1..]));
    }
  }

  lemma KeepShifts(q: seq<Job>, jobs: seq<Job>, rest: seq<Job>, t: nat)
    ensures Keep(Ready(t), q + jobs) + Keep(Ready(t), rest) == Keep(Ready(t), q) + Keep(Ready(t), jobs + rest)
  {
    hide Keep;
    KeepConcat(Ready(t), q, jobs);
    KeepConcat(Ready(t), jobs, rest);
  }

  lemma PopKeepsOrder(q: seq<Job>, t: nat, now: nat, rest: seq<Job>, run: QueueRun)
    requires t <= now
    requires Keep(Ready(t), AfterPop(q, now)) + rest == Keep(Ready(t), run.popped) + Keep(Ready(t), run.left)
    ensures var popped := if Popped(q, now).Some? then [Popped(q, now).value] + run.popped else run.popped;
            Keep(Ready(t), q) + rest == Keep(Ready(t), popped) + Keep(Ready(t), run.left)
  {
    hide Keep, Popped, AfterPop;
    PopTakesReadyHead(q, t, now);
    var after := Keep(Ready(t), AfterPop(q, now));
    if Popped(q, now).Some? {
      var head := [Popped(q, now).value];
      KeepConcat(Ready(t), head, run.popped);
      assert Keep(Ready(t), head) + after + rest == Keep(Ready(t), head) + (after + rest);
      assert Keep(Ready(t), head) + (Keep(Ready(t), run.popped) + Keep(Ready(t), run.left)) ==
             Keep(Ready(t), head) + Keep(Ready(t), run.popped) + Keep(Ready(t), run.left);
    } else {
      assert [] + after == after;
    }
  }

  /** A pop that returns nothing leaves the queue exactly as it was; otherwise it only removes what it returns. */
  lemma PopConserves(q: seq<Job>, now: nat)
    ensures Popped(q, now).None? ==> AfterPop(q, now) == q && forall j :: j in q ==> !ReadyAt(j, now)
    ensures Popped(q, now).Some? ==>
              multiset(q) == multiset{Popped(q, now).value} + multiset(AfterPop(q, now))
                  && |AfterPop(q, now)| == |q| - 1
  {
    var i := FirstReady(q, now);
    if i < |q| {
      assert q == q[..i] + [q[i]] + q[i + 1..];
    }
  }

  /** Nothing is lost or duplicated by a run. */
  lemma {:induction false} RunConserves(q: seq<Job>, ops: seq<QueueOp>)
    ensures var run := RunQueue(q, ops);
            multiset(q + Appended(ops)) == multiset(run.popped + run.left)
    decreases |ops|
  {
    hide Popped, AfterPop;
    if ops != [] {
      var rest := Appended(ops[1..]);
      match ops[0]
      case Append(jobs) =>
        RunConserves(q + jobs, ops[1..]);
        assert q + jobs + rest == q + (jobs + rest);
      case Pop(now) =>
        RunConserves(AfterPop(q, now), ops[1..]);
        assert [] + rest == rest;
        PopKeepsAll(q, now, rest, RunQueue(AfterPop(q, now), ops[1..]));
    }
  }

  lemma PopKeepsAll(q: seq<Job>, now: nat, rest: seq<Job>, run: QueueRun)
    requires multiset(AfterPop(q, now) + rest) == multiset(run.popped + run.left)
    ensures var popped := if Popped(q, now).Some? then [Popped(q, now).value] + run.popped else run.popped;
            multiset(q + rest) == multiset(popped + run.left)
  {
    hide Popped, AfterPop;
    PopConserves(q, now);
    if Popped(q, now).Some? {
      var head := [Popped(q, now).value];
      assert head + run.popped + run.left == head + (run.popped + run.left);
      assert multiset(head + (run.popped + run.left)) == multiset(head) + multiset(run.popped + run.left);
      assert multiset(AfterPop(q, now) + rest) == multiset(AfterPop(q, now)) + multiset(rest);
      assert multiset(q + rest) == multiset(q) + multiset(rest);
    }
  }

  /** The measure of waiting: a pop either returns the ready job at `p` or moves it strictly closer to the front. */
  lemma PopAdvances(q: seq<Job>, p: nat, now: nat) returns (p': nat)
    requires p < |q| && ReadyAt(q[p], now)
    ensures Popped(q, now).Some?
    ensures Popped(q, now) == Some(q[p]) || (p' < p && p' < |AfterPop(q, now)| && AfterPop(q, now)[p'] == q[p])
    ensures FirstReady(q, now) == p || (p' < p && p' < |AfterPop(q, now)| && AfterPop(q, now)[p'] == q[p])
  {
    var i := FirstReady(q, now);
    p' := if i < p then p - i - 1 else 0;
  }

  /**
   * Bounded waiting: a job at position `p` that is ready at `t` is among the first `p + 1` jobs popped
   * by any run that pops at least `p + 1` times at `t` or later, whatever is appended meanwhile.
   */
  lemma {:induction false} ReadyJobWaitsAtMostItsPosition(q: seq<Job>, ops: seq<QueueOp>, t: nat, p: nat)
    returns (k: nat)
    requires p < |q| && ReadyAt(q[p], t)
    requires PopsFrom(ops, t) && Pops(ops) >= p + 1
    ensures k <= p && k < |RunQueue(q, ops).popped| && RunQueue(q, ops).popped[k] == q[p]
    decreases |ops|
  {
    hide Popped, AfterPop;
    assert forall op :: op in ops[1..] ==> op in ops;
    match ops[0]
    case Append(jobs) =>
      k := ReadyJobWaitsAtMostItsPosition(q + jobs, ops[1..], t, p);
    case Pop(now) =>
      assert ops[0] in ops;
      var p' := PopAdvances(q, p, now);
      if Popped(q, now) == Some(q[p]) {
        k := 0;
      } else {
        var k' := ReadyJobWaitsAtMostItsPosition(AfterPop(q, now), ops[1..], t, p');
        k := k' + 1;
      }
  }

  // ----- what one enqueue adds -----

  lemma NamesAreDistinct(p: ProviderId, q: ProviderId)
    requires Name(p) == Name(q)
    ensures p == q
  {
    assert Name(Stub)[0] == 's' && Name(Unicom)[0] == 'u' && Name(Telecom)[0] == 't' && Name(Mobile)[0] == 'm'
           && Name(Onedrive)[0] == 'o';
  }

  lemma {:induction false} KeepKeepsDistinct(p: ProviderId -> bool, xs: seq<ProviderId>)
    requires Distinct(xs)
    ensures Distinct(Keep(p, xs))
  {
    if xs != [] {
      var init := xs[..|xs| - 1];
      KeepKeepsDistinct(p, init);
      KeepMembers(p, init);
      assert xs[|xs| - 1] !in init;
    }
  }

  /** For a topology with distinct targets an enqueue makes exactly one job per target other than the source. */
  lemma OneJobPerTarget(topology: Topology, source: Option<string>, created: seq<Job>, first: nat,
                        operation: JobOperation, objectRef: ObjectRef, clock: nat -> nat)
    requires Distinct(topology.syncTargets)
    requires CreatedFor(created, Targets(topology, source), first, source, operation, objectRef, clock)
    ensures forall i, j :: 0 <= i < j < |created| ==> created[i].target != created[j].target
    ensures forall p :: p in topology.syncTargets && source != Some(Name(p)) <==>
                        exists i :: 0 <= i < |created| && created[i].target == Name(p)
  {
    var targets := Targets(topology, source);
    KeepKeepsDistinct(NotSource(source), topology.syncTargets);
    KeepMembers(NotSource(source), topology.syncTargets);
    forall i, j | 0 <= i < j < |created|
      ensures created[i].target != created[j].target
    {
      if created[i].target == created[j].target {
        NamesAreDistinct(targets[i], targets[j]);
      }
    }
    forall p | p in topology.syncTargets && source != Some(Name(p))
      ensures exists i :: 0 <= i < |created| && created[i].target == Name(p)
    {
      assert p in targets;
      var i :| 0 <= i < |targets| && targets[i] == p;
      assert created[i].target == Name(p);
    }
    forall p, i | 0 <= i < |created| && created[i].target == Name(p)
      ensures p in topology.syncTargets && source != Some(Name(p))
    {
      NamesAreDistinct(p, targets[i]);
      assert targets[i] in targets;
    }
  }

  // ----- conservation over whole runs -----

  /**
   * Every entered id is pending, in flight, recorded or dropped by a replace, and the history is the
   * tail of the records made since it was last cleared.
   */
  ghost predicate Balanced(l: Ledger, limit: nat) {
    && l.entered == Ids(l.pending) + l.inFlight + Ids(l.recorded) + l.dropped
    && l.cleared <= |l.recorded|
    && l.recent == Last(l.recorded[l.cleared..], limit)
  }

  /** Every event of the run was possible when it happened. */
  ghost predicate Legal(events: seq<Event>, limit: nat) {
    events != [] ==>
      && Legal(events[..|events| - 1], limit)
      && Enabled(After(events[..|events| - 1], limit), events[|events| - 1])
  }

  lemma IdsConcat(xs: seq<Job>, ys: seq<Job>)
    ensures Ids(xs + ys) == Ids(xs) + Ids(ys)
  {
    assert IdList(xs + ys) == IdList(xs) + IdList(ys);
  }

  lemma IdsOfNone()
    ensures Ids([]) == multiset{}
  {
  }

  lemma IdsOfOne(job: Job)
    ensures Ids([job]) == multiset{job.jobId}
  {
    assert IdList([job]) == [job.jobId];
  }

  lemma PopConservesIds(q: seq<Job>, now: nat)
    requires Popped(q, now).Some?
    ensures Ids(q) == multiset{Popped(q, now).value.jobId} + Ids(AfterPop(q, now))
  {
    hide Ids;
    var i := FirstReady(q, now);
    assert q == q[..i] + ([q[i]] + q[i + 1..]);
    IdsConcat(q[..i], [q[i]] + q[i + 1..]);
    IdsConcat([q[i]], q[i + 1..]);
    IdsConcat(q[i + 1..], q[..i]);
    IdsOfOne(q[i]);
  }

  lemma LastOfLast(xs: seq<Job>, x: Job, limit: nat)
    ensures Last(Last(xs, limit) + [x], limit) == Last(xs + [x], limit)
  {
  }

  /** A record takes the job out of flight and to the end of the history. */
  lemma RecordBalances(l: Ledger, job: Job, limit: nat)
    requires Balanced(l, limit) && Enabled(l, Record(job))
    ensures Balanced(Apply(l, Record(job), limit), limit)
  {
    hide Ids, Last;
    IdsConcat(l.recorded, [job]);
    IdsOfOne(job);
    assert (l.recorded + [job])[l.cleared..] == l.recorded[l.cleared..] + [job];
    LastOfLast(l.recorded[l.cleared..], job, limit);
  }

  lemma EveryEventBalances(l: Ledger, e: Event, limit: nat)
    requires Balanced(l, limit) && Enabled(l, e)
    ensures Balanced(Apply(l, e, limit), limit)
  {
    hide Ids, Popped, AfterPop;
    IdsOfNone();
    match e
    case Enter(jobs) => IdsConcat(l.pending, jobs);
    case Take(now) =>
      if Popped(l.pending, now).Some? {
        PopConservesIds(l.pending, now);
      }
    case Retry(job) =>
      IdsConcat(l.pending, [job]);
      IdsOfOne(job);
    case Record(job) => RecordBalances(l, job, limit);
    case Replace(_) =>
  }

  /**
   * Over every run, every job ever entered is pending, in flight, recorded or was dropped by a replace,
   * and the recent history is the last `limit` records since the last replace.
   */
  lemma {:induction false} JobsAreConserved(events: seq<Event>, limit: nat)
    requires Legal(events, limit)
    ensures Balanced(After(events, limit), limit)
  {
    hide Apply, Enabled, Balanced;
    if events != [] {
      JobsAreConserved(events[..|events| - 1], limit);
      EveryEventBalances(After(events[..|events| - 1], limit), events[|events| - 1], limit);
    } else {
      NothingBalances(limit);
    }
  }

  /**
   * So a booked engine loses no job: every id that ever entered it stands in its queue, is in flight, was
   * recorded or was dropped by a replace, and its history is the tail of the records since the last replace.
   */
  lemma EngineConservesJobs(engine: ReplicationEngine)
    requires engine.Booked() && Legal(engine.events, engine.recentLimit)
    ensures var l := After(engine.events, engine.recentLimit);
            && l.entered == Ids(engine.pending) + l.inFlight + Ids(l.recorded) + l.dropped
            && l.cleared <= |l.recorded| && engine.recent == Last(l.recorded[l.cleared..], engine.recentLimit)
  {
    hide After, Legal, Ids, Last;
    JobsAreConserved(engine.events, engine.recentLimit);
  }

  lemma NothingBalances(limit: nat)
    ensures Balanced(OPENING, limit)
  {
  }

  // ----- which job is popped -----

  /** The first job whose next attempt is not set or not after `now`, if there is one. */
  ghost predicate FirstDue(q: seq<Job>, now: nat, i: nat) {
    && i < |q| && (q[i].nextAttemptAt.None? || q[i].nextAttemptAt.value <= now)
    && forall j :: 0 <= j < i ==> q[j].nextAttemptAt.Some? && now < q[j].nextAttemptAt.value
  }

  /** A pop takes the first job that is due, and the jobs before it move behind the rest. */
  lemma PopTakesFirstDue(q: seq<Job>, now: nat, i: nat)
    requires FirstDue(q, now, i)
    ensures Popped(q, now) == Some(q[i]) && AfterPop(q, now) == q[i + 1..] + q[..i]
  {
    var k := FirstReady(q, now);
    assert i <= k ==> i == k;
  }

  /** A pop takes nothing, and leaves the queue alone, when every job is still to come. */
  lemma PopTakesNothing(q: seq<Job>, now: nat)
    requires forall i :: 0 <= i < |q| ==> q[i].nextAttemptAt.Some? && now < q[i].nextAttemptAt.value
    ensures Popped(q, now).None? && AfterPop(q, now) == q
  {
    assert FirstReady(q, now) == |q|;
  }
}
