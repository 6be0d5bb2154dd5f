/**
 * The replication engine under concurrency: `fetch_add`, `fetch_max` and taking or releasing a lock are
 * the atomic steps, and any number of threads interleave them in any order.
 */
module ReplicationThreads {
  import opened Results
  import opened ReplicationQueue
  import opened Words

  datatype Instr = LockPending | UnlockPending | LockRecent | UnlockRecent | Allocate | Bump(floor: nat)

  /** A call of an engine method. */
  datatype EngineCall =
    | Enqueue(targets: nat)
    | PopOrPush
    | Restore(jobs: seq<Job>)
    | ReplaceAll(jobs: seq<Job>)
    | RecordOutcome
    | Snapshot
    | AllocateId
    | EnsureAtLeast(floor: nat)

  function Allocations(n: nat): seq<Instr> {
    if n == 0 then [] else [Allocate] + Allocations(n - 1)
  }

  /** The atomic steps of one call; guards are released in the reverse order of taking. */
  function ProgramOf(call: EngineCall): seq<Instr> {
    match call
    case Enqueue(n) => [LockPending] + Allocations(n) + [UnlockPending]
    case PopOrPush => [LockPending, UnlockPending]
    case Restore(jobs) => if jobs == [] then [] else [Bump(Floor(jobs)), LockPending, UnlockPending]
    case ReplaceAll(jobs) => [Bump(Floor(jobs)), LockPending, LockRecent, UnlockRecent, UnlockPending]
    case RecordOutcome => [LockRecent, UnlockRecent]
    case Snapshot => [LockPending, LockRecent, UnlockRecent, UnlockPending]
    case AllocateId => [Allocate]
    case EnsureAtLeast(floor) => [Bump(floor)]
  }

  function ThreadProgram(calls: seq<EngineCall>): seq<Instr> {
    if calls == [] then [] else ProgramOf(calls[0]) + ThreadProgram(calls[1..])
  }

  datatype IdEvent = Allocated(id: nat) | Bumped(floor: nat)

  datatype System = System(
    counter: nat,
    pendingOwner: Option<nat>,
    recentOwner: Option<nat>,
    programs: seq<seq<Instr>>,
    log: seq<IdEvent>)

  predicate CanStep(s: System, t: nat) {
    && t < |s.programs| && s.programs[t] != []
    && (s.programs[t][0].LockPending? ==> s.pendingOwner.None?)
    && (s.programs[t][0].LockRecent? ==> s.recentOwner.None?)
  }

  function Step(s: System, t: nat): System
    requires CanStep(s, t)
  {
    var r := s.(programs := s.programs[t := s.programs[t][1..]]);
    match s.programs[t][0]
    case LockPending => r.(pendingOwner := Some(t))
    case UnlockPending => r.(pendingOwner := None)
    case LockRecent => r.(recentOwner := Some(t))
    case UnlockRecent => r.(recentOwner := None)
    case Allocate => r.(counter := (s.counter + 1) % U64, log := s.log + [Allocated(s.counter)])
    case Bump(floor) => r.(counter := Raised(s.counter, floor), log := s.log + [Bumped(floor)])
  }

  function Start(threads: seq<seq<EngineCall>>): System {
    System(1, None, None, seq(|threads|, t requires 0 <= t < |threads| => ThreadProgram(threads[t])), [])
  }

  /** A schedule names the thread that moves at each step; a blocked or finished thread cannot move. */
  ghost predicate Feasible(threads: seq<seq<EngineCall>>, schedule: seq<nat>)
    decreases |schedule|, 0
  {
    schedule != [] ==>
      && Feasible(threads, schedule[..|schedule| - 1])
      && CanStep(Reached(threads, schedule[..|schedule| - 1]), schedule[|schedule| - 1])
  }

  ghost function Reached(threads: seq<seq<EngineCall>>, schedule: seq<nat>): System
    requires Feasible(threads, schedule)
    decreases |schedule|, 1
  {
    if schedule == [] then Start(threads)
    else Step(Reached(threads, schedule[..|schedule| - 1]), schedule[|schedule| - 1])
  }

  ghost predicate IdsAreWords(threads: seq<seq<EngineCall>>) {
    forall t, k :: 0 <= t < |threads| && 0 <= k < |threads[t]| ==> PassesWords(threads[t][k])
  }

  /** Every id a call passes to the engine is a 64-bit word. */
  ghost predicate PassesWords(call: EngineCall) {
    (forall j :: j in JobsOf(call) ==> j.jobId < U64) && (call.EnsureAtLeast? ==> call.floor < U64)
  }

  function JobsOf(call: EngineCall): seq<Job> {
    match call
    case Restore(jobs) => jobs
    case ReplaceAll(jobs) => jobs
    case _ => []
  }

  // ----- locking -----

  /**
   * A rest of a program takes locks in order: `pending` only while holding nothing, `recent` only
   * while not holding it, and everything taken is released.
   */
  ghost predicate TakesInOrder(p: seq<Instr>, holdsPending: bool, holdsRecent: bool) {
    if p == [] then !holdsPending && !holdsRecent
    else
      match p[0]
      case LockPending => !holdsPending && !holdsRecent && TakesInOrder(p[1..], true, holdsRecent)
      case UnlockPending => holdsPending && TakesInOrder(p[1..], false, holdsRecent)
      case LockRecent => !holdsRecent && TakesInOrder(p[1..], holdsPending, true)
      case UnlockRecent => holdsRecent && TakesInOrder(p[1..], holdsPending, false)
      case Allocate => TakesInOrder(p[1..], holdsPending, holdsRecent)
      case Bump(floor) => floor < U64 && TakesInOrder(p[1..], holdsPending, holdsRecent)
  }

  lemma {:induction false} OrderOfConcat(p: seq<Instr>, q: seq<Instr>, hp: bool, hr: bool)
    requires TakesInOrder(p, hp, hr) && TakesInOrder(q, false, false)
    ensures TakesInOrder(p + q, hp, hr)
  {
    if p == [] {
      assert p + q == q;
    } else {
      assert (p + q)[1..] == p[1..] + q;
      var after := match p[0]
        case LockPending => (true, hr)
        case UnlockPending => (false, hr)
        case LockRecent => (hp, true)
        case UnlockRecent => (hp, false)
        case _ => (hp, hr);
      OrderOfConcat(p[1..], q, after.0, after.1);
    }
  }

  lemma {:induction false} AllocationsInOrder(n: nat)
    ensures TakesInOrder(Allocations(n) + [UnlockPending], true, false)
  {
    if n == 0 {
      assert Allocations(n) + [UnlockPending] == [UnlockPending];
    } else {
      AllocationsInOrder(n - 1);
      assert (Allocations(n) + [UnlockPending])[1..] == Allocations(n - 1) + [UnlockPending];
    }
  }

  lemma CallInOrder(call: EngineCall)
    requires PassesWords(call)
    ensures TakesInOrder(ProgramOf(call), false, false)
  {
    match call
    case Enqueue(n) =>
      AllocationsInOrder(n);
      assert ([LockPending] + Allocations(n) + [UnlockPending])[1..] == Allocations(n) + [UnlockPending];
    case PopOrPush => PairInOrder();
    case Restore(jobs) =>
      PairInOrder();
      assert ProgramOf(call) != [] ==> ProgramOf(call)[1..] == [LockPending, UnlockPending];
    case ReplaceAll(jobs) =>
      NestedInOrder();
      assert ProgramOf(call)[1..] == [LockPending, LockRecent, UnlockRecent, UnlockPending];
    case RecordOutcome => InnerInOrder();
    case Snapshot => NestedInOrder();
    case AllocateId => assert ProgramOf(call)[1..] == [];
    case EnsureAtLeast(_) => assert ProgramOf(call)[1..] == [];
  }

  lemma PairInOrder()
    ensures TakesInOrder([LockPending, UnlockPending], false, false)
  {
    assert [LockPending, UnlockPending][1..] == [UnlockPending] && [UnlockPending][1..] == [];
    assert TakesInOrder([UnlockPending], true, false);
  }

  lemma InnerInOrder()
    ensures TakesInOrder([LockRecent, UnlockRecent], false, false)
  {
    assert [LockRecent, UnlockRecent][1..] == [UnlockRecent] && [UnlockRecent][1..] == [];
    assert TakesInOrder([UnlockRecent], false, true);
  }

  lemma NestedInOrder()
    ensures TakesInOrder([LockPending, LockRecent, UnlockRecent, UnlockPending], false, false)
  {
    var a, b, c := [LockRecent, UnlockRecent, UnlockPending], [UnlockRecent, UnlockPending], [UnlockPending];
    assert [LockPending, LockRecent, UnlockRecent, UnlockPending][1..] == a;
    assert a[1..] == b && b[1..] == c && c[1..] == [];
    assert TakesInOrder(c, true, false);
    assert TakesInOrder(b, true, true);
    assert TakesInOrder(a, true, false);
  }

  lemma {:induction false} ThreadInOrder(calls: seq<EngineCall>)
    requires forall k :: 0 <= k < |calls| ==> PassesWords(calls[k])
    ensures TakesInOrder(ThreadProgram(calls), false, false)
  {
    if calls != [] {
      CallInOrder(calls[0]);
      ThreadInOrder(calls[1..]);
      OrderOfConcat(ProgramOf(calls[0]), ThreadProgram(calls[1..]), false, false);
    }
  }

  /** Every thread's remaining program fits the locks it really holds. */
  ghost predicate Consistent(s: System) {
    && (s.pendingOwner.Some? ==> s.pendingOwner.value < |s.programs|)
    && (s.recentOwner.Some? ==> s.recentOwner.value < |s.programs|)
    && forall t :: 0 <= t < |s.programs| ==>
         TakesInOrder(s.programs[t], s.pendingOwner == Some(t), s.recentOwner == Some(t))
  }

  lemma StepStaysConsistent(s: System, t: nat)
    requires Consistent(s) && CanStep(s, t)
    ensures Consistent(Step(s, t))
  {
    var r := Step(s, t);
    forall u | 0 <= u < |r.programs|
      ensures TakesInOrder(r.programs[u], r.pendingOwner == Some(u), r.recentOwner == Some(u))
    {
      assert TakesInOrder(s.programs[u], s.pendingOwner == Some(u), s.recentOwner == Some(u));
    }
  }

  lemma {:induction false} ReachedIsConsistent(threads: seq<seq<EngineCall>>, schedule: seq<nat>)
    requires IdsAreWords(threads) && Feasible(threads, schedule)
    ensures Consistent(Reached(threads, schedule))
  {
    if schedule == [] {
      forall t | 0 <= t < |threads|
        ensures TakesInOrder(ThreadProgram(threads[t]), false, false)
      {
        ThreadInOrder(threads[t]);
      }
    } else {
      ReachedIsConsistent(threads, schedule[..|schedule| - 1]);
      StepStaysConsistent(Reached(threads, schedule[..|schedule| - 1]), schedule[|schedule| - 1]);
    }
  }

  /** Taking `pending` before `recent` never deadlocks: while work remains, some thread can move. */
  lemma NeverDeadlocks(threads: seq<seq<EngineCall>>, schedule: seq<nat>, waiting: nat)
    requires IdsAreWords(threads) && Feasible(threads, schedule)
    requires waiting < |Reached(threads, schedule).programs| && Reached(threads, schedule).programs[waiting] != []
    ensures exists t: nat :: CanStep(Reached(threads, schedule), t)
  {
    hide Reached, Feasible;
    ReachedIsConsistent(threads, schedule);
    var s := Reached(threads, schedule);
    if s.recentOwner.Some? {
      assert CanStep(s, s.recentOwner.value);
    } else if s.pendingOwner.Some? {
      assert CanStep(s, s.pendingOwner.value);
    } else {
      assert CanStep(s, waiting);
    }
  }

  // ----- ids -----

  /** An allocation follows the one that returned the last 64-bit id. */
  ghost predicate Wrapped(log: seq<IdEvent>) {
    exists i, j :: 0 <= i < j < |log| && log[i] == Allocated(LAST_WORD) && log[j].Allocated?
  }

  /** Ids increase along the log, and none is below a floor set before it. */
  ghost predicate FreshIds(log: seq<IdEvent>) {
    && (forall i, j :: 0 <= i < j < |log| && log[i].Allocated? && log[j].Allocated? ==> log[i].id < log[j].id)
    && (forall i, j :: 0 <= i < j < |log| && log[i].Bumped? && log[j].Allocated? ==> log[i].floor <= log[j].id)
  }

  /** What the counter knows of the log, until the last id has been handed out. */
  ghost predicate CounterAhead(counter: nat, log: seq<IdEvent>) {
    && counter < U64
    && (forall e :: e in log && e.Allocated? ==> e.id < U64)
    && (Allocated(LAST_WORD) in log || forall e :: e in log ==>
          if e.Allocated? then e.id < counter else e.floor <= counter)
  }

  ghost predicate IdsInOrder(counter: nat, log: seq<IdEvent>) {
    CounterAhead(counter, log) && (FreshIds(log) || Wrapped(log))
  }

  lemma WrappedStays(log: seq<IdEvent>, e: IdEvent)
    requires Wrapped(log)
    ensures Wrapped(log + [e])
  {
    var i, j :| 0 <= i < j < |log| && log[i] == Allocated(LAST_WORD) && log[j].Allocated?;
    var r := log + [e];
    assert r[i] == Allocated(LAST_WORD) && r[j].Allocated?;
  }

  lemma AllocationKeepsOrder(counter: nat, log: seq<IdEvent>)
    requires IdsInOrder(counter, log)
    ensures IdsInOrder((counter + 1) % U64, log + [Allocated(counter)])
  {
    var r := log + [Allocated(counter)];
    if Wrapped(log) {
      WrappedStays(log, Allocated(counter));
    } else if Allocated(LAST_WORD) in log {
      var i :| 0 <= i < |log| && log[i] == Allocated(LAST_WORD);
      assert r[i] == Allocated(LAST_WORD) && r[|log|].Allocated?;
    }
    if counter == LAST_WORD {
      assert r[|log|] == Allocated(LAST_WORD);
    }
  }

  lemma BumpKeepsOrder(counter: nat, log: seq<IdEvent>, floor: nat)
    requires IdsInOrder(counter, log) && floor < U64
    ensures IdsInOrder(Raised(counter, floor), log + [Bumped(floor)])
  {
    if Wrapped(log) {
      WrappedStays(log, Bumped(floor));
    }
  }

  lemma StepKeepsFresh(s: System, t: nat)
    requires CanStep(s, t) && Consistent(s) && IdsInOrder(s.counter, s.log)
    ensures IdsInOrder(Step(s, t).counter, Step(s, t).log)
  {
    hide IdsInOrder;
    match s.programs[t][0]
    case Allocate => AllocationKeepsOrder(s.counter, s.log);
    case Bump(floor) => BumpKeepsOrder(s.counter, s.log, floor);
    case _ =>
  }

  lemma {:induction false} ReachedIdsAreFresh(threads: seq<seq<EngineCall>>, schedule: seq<nat>)
    requires IdsAreWords(threads) && Feasible(threads, schedule)
    ensures var s := Reached(threads, schedule);
            IdsInOrder(s.counter, s.log)
  {
    hide Consistent, FreshIds, Wrapped, Step;
    if schedule != [] {
      var before := schedule[..|schedule| - 1];
      ReachedIdsAreFresh(threads, before);
      ReachedIsConsistent(threads, before);
      StepKeepsFresh(Reached(threads, before), schedule[|schedule| - 1]);
    } else {
      NoIdsAreFresh();
    }
  }

  lemma NoIdsAreFresh()
    ensures FreshIds([])
  {
  }

  /**
   * Under every interleaving ids are handed out in strictly increasing order, each at least every floor
   * set before it, exactly as long as no allocation follows that of the last 64-bit id.
   */
  lemma AllocationsAreFreshUntilWrap(threads: seq<seq<EngineCall>>, schedule: seq<nat>)
    requires IdsAreWords(threads) && Feasible(threads, schedule)
    ensures FreshIds(Reached(threads, schedule).log) <==> !Wrapped(Reached(threads, schedule).log)
  {
    hide Reached, Feasible;
    ReachedIdsAreFresh(threads, schedule);
    var log := Reached(threads, schedule).log;
    if Wrapped(log) {
      var i, j :| 0 <= i < j < |log| && log[i] == Allocated(LAST_WORD) && log[j].Allocated?;
      assert log[j] in log;
    }
  }

  // ----- the wrap is reachable -----

  lemma OneMore(threads: seq<seq<EngineCall>>, schedule: seq<nat>, t: nat)
    requires Feasible(threads, schedule) && CanStep(Reached(threads, schedule), t)
    ensures Feasible(threads, schedule + [t])
    ensures Reached(threads, schedule + [t]) == Step(Reached(threads, schedule), t)
  {
    assert (schedule + [t])[..|schedule + [t]| - 1] == schedule;
  }

  /** The start of a thread that restores one job beside one that enqueues for two targets. */
  lemma RestoreBesideEnqueue(job: Job)
    ensures Start([[Restore([job])], [Enqueue(2)]]) ==
            System(1, None, None, [[Bump(SaturatingNext(job.jobId)), LockPending, UnlockPending],
                                   [LockPending, Allocate, Allocate, UnlockPending]], [])
  {
    var restore, enqueue := [Restore([job])], [Enqueue(2)];
    assert restore[1..] == [] && enqueue[1..] == [];
    assert Allocations(2) == [Allocate] + Allocations(1) && Allocations(1) == [Allocate] + [];
    assert MaxId([job]) == job.jobId by {
      assert [job][..0] == [];
    }
    assert ThreadProgram(restore) == [Bump(SaturatingNext(job.jobId)), LockPending, UnlockPending];
    assert ThreadProgram(enqueue) == [LockPending, Allocate, Allocate, UnlockPending];
  }

  /** The log after the restore has raised the counter and the other thread has allocated twice. */
  lemma RestoreThenEnqueue(job: Job)
    requires job.jobId < U64
    ensures var threads := [[Restore([job])], [Enqueue(2)]];
            && Feasible(threads, [0, 1, 1, 1])
            && var counter := Raised(1, SaturatingNext(job.jobId));
               Reached(threads, [0, 1, 1, 1]).log ==
               [Bumped(SaturatingNext(job.jobId)), Allocated(counter), Allocated((counter + 1) % U64)]
  {
    hide SaturatingNext, ThreadProgram, Feasible, Reached, Start;
    var threads := [[Restore([job])], [Enqueue(2)]];
    RestoreBesideEnqueue(job);
    NothingScheduled(threads);
    var rest := [LockPending, UnlockPending];
    OneMore(threads, [], 0);
    assert [] + [0] == [0];
    assert Reached(threads, [0]).programs == [rest, [LockPending, Allocate, Allocate, UnlockPending]];
    OneMore(threads, [0], 1);
    assert [0] + [1] == [0, 1];
    assert Reached(threads, [0, 1]).programs == [rest, [Allocate, Allocate, UnlockPending]];
    OneMore(threads, [0, 1], 1);
    assert [0, 1] + [1] == [0, 1, 1];
    assert Reached(threads, [0, 1, 1]).programs == [rest, [Allocate, UnlockPending]];
    OneMore(threads, [0, 1, 1], 1);
    assert [0, 1, 1] + [1] == [0, 1, 1, 1];
  }

  lemma NothingScheduled(threads: seq<seq<EngineCall>>)
    ensures Feasible(threads, []) && Reached(threads, []) == Start(threads)
  {
  }

  /** A restored job with the last id but one is enough: the next two allocations are the last id and 0. */
  lemma WrapIsReachable(job: Job)
    requires job.jobId == LAST_WORD - 1
    ensures var threads := [[Restore([job])], [Enqueue(2)]];
            && IdsAreWords(threads) && Feasible(threads, [0, 1, 1, 1])
            && Reached(threads, [0, 1, 1, 1]).log == [Bumped(LAST_WORD), Allocated(LAST_WORD), Allocated(0)]
            && Wrapped(Reached(threads, [0, 1, 1, 1]).log) && !FreshIds(Reached(threads, [0, 1, 1, 1]).log)
  {
    hide Feasible, Reached;
    RestoreThenEnqueue(job);
    var log := Reached([[Restore([job])], [Enqueue(2)]], [0, 1, 1, 1]).log;
    assert log[1] == Allocated(LAST_WORD) && log[2] == Allocated(0);
  }

  /** A restored job with the last id has that very id handed out again. */
  lemma RestoredIdIsReused(job: Job)
    requires job.jobId == LAST_WORD
    ensures var threads := [[Restore([job])], [Enqueue(2)]];
            && IdsAreWords(threads) && Feasible(threads, [0, 1, 1, 1])
            && Allocated(job.jobId) in Reached(threads, [0, 1, 1, 1]).log
  {
    hide Feasible, Reached;
    RestoreThenEnqueue(job);
    var log := Reached([[Restore([job])], [Enqueue(2)]], [0, 1, 1, 1]).log;
    assert log[1] == Allocated(LAST_WORD);
  }

  /** A thread that restores one job twice beside one that enqueues for two targets and then for one. */
  function RestoreTwice(job: Job): seq<seq<EngineCall>> {
    [[Restore([job]), Restore([job])], [Enqueue(2), Enqueue(1)]]
  }

  lemma RestoreTwiceStarts(job: Job)
    ensures var bump := Bump(SaturatingNext(job.jobId));
            Start(RestoreTwice(job)) ==
            System(1, None, None,
                   [[bump, LockPending, UnlockPending, bump, LockPending, UnlockPending],
                    [LockPending, Allocate, Allocate, UnlockPending, LockPending, Allocate, UnlockPending]], [])
  {
    var restores, enqueues := [Restore([job]), Restore([job])], [Enqueue(2), Enqueue(1)];
    assert restores[1..] == [Restore([job])] && [Restore([job])][1..] == [];
    assert enqueues[1..] == [Enqueue(1)] && [Enqueue(1)][1..] == [];
    assert Allocations(2) == [Allocate] + Allocations(1) && Allocations(1) == [Allocate] + [];
    assert MaxId([job]) == job.jobId by {
      assert [job][..0] == [];
    }
    var bump := Bump(SaturatingNext(job.jobId));
    assert ThreadProgram([Restore([job])]) == [bump, LockPending, UnlockPending];
    assert ThreadProgram(restores) == [bump, LockPending, UnlockPending, bump, LockPending, UnlockPending];
    assert ThreadProgram([Enqueue(1)]) == [LockPending, Allocate, UnlockPending];
    assert ThreadProgram(enqueues) ==
           [LockPending, Allocate, Allocate, UnlockPending, LockPending, Allocate, UnlockPending];
  }

  /** The counter wraps in the second of two allocations. */
  lemma WrapWithinEnqueue(job: Job)
    requires job.jobId == LAST_WORD - 1
    ensures var threads := RestoreTwice(job);
            && Feasible(threads, [0, 1, 1, 1])
            && Reached(threads, [0, 1, 1, 1]) ==
               System(1, Some(1), None,
                      [[LockPending, UnlockPending, Bump(LAST_WORD), LockPending, UnlockPending],
                       [UnlockPending, LockPending, Allocate, UnlockPending]],
                      [Bumped(LAST_WORD), Allocated(LAST_WORD), Allocated(0)])
  {
    hide ThreadProgram, Feasible, Reached, Start, RestoreTwice;
    var threads := RestoreTwice(job);
    RestoreTwiceStarts(job);
    NothingScheduled(threads);
    var restores := [LockPending, UnlockPending, Bump(LAST_WORD), LockPending, UnlockPending];
    OneMore(threads, [], 0);
    assert [] + [0] == [0];
    assert Reached(threads, [0]).programs ==
           [restores, [LockPending, Allocate, Allocate, UnlockPending, LockPending, Allocate, UnlockPending]];
    OneMore(threads, [0], 1);
    assert [0] + [1] == [0, 1];
    assert Reached(threads, [0, 1]).programs ==
           [restores, [Allocate, Allocate, UnlockPending, LockPending, Allocate, UnlockPending]];
    OneMore(threads, [0, 1], 1);
    assert [0, 1] + [1] == [0, 1, 1];
    assert Reached(threads, [0, 1, 1]).programs ==
           [restores, [Allocate, UnlockPending, LockPending, Allocate, UnlockPending]];
    OneMore(threads, [0, 1, 1], 1);
    assert [0, 1, 1] + [1] == [0, 1, 1, 1];
    assert Reached(threads, [0, 1, 1, 1]).programs ==
           [restores, [UnlockPending, LockPending, Allocate, UnlockPending]];
  }

  /** Then both threads reach the gap between their two calls. */
  lemma WrapBetweenCalls(job: Job)
    requires job.jobId == LAST_WORD - 1
    ensures var threads := RestoreTwice(job);
            && Feasible(threads, [0, 1, 1, 1, 1, 0, 0])
            && Reached(threads, [0, 1, 1, 1, 1, 0, 0]) ==
               System(1, None, None,
                      [[Bump(LAST_WORD), LockPending, UnlockPending], [LockPending, Allocate, UnlockPending]],
                      [Bumped(LAST_WORD), Allocated(LAST_WORD), Allocated(0)])
  {
    hide ThreadProgram, Feasible, Reached, Start, RestoreTwice;
    var threads := RestoreTwice(job);
    WrapWithinEnqueue(job);
    var enqueues := [LockPending, Allocate, UnlockPending];
    OneMore(threads, [0, 1, 1, 1], 1);
    assert [0, 1, 1, 1] + [1] == [0, 1, 1, 1, 1];
    assert Reached(threads, [0, 1, 1, 1, 1]).programs ==
           [[LockPending, UnlockPending, Bump(LAST_WORD), LockPending, UnlockPending], enqueues];
    OneMore(threads, [0, 1, 1, 1, 1], 0);
    assert [0, 1, 1, 1, 1] + [0] == [0, 1, 1, 1, 1, 0];
    assert Reached(threads, [0, 1, 1, 1, 1, 0]).programs ==
           [[UnlockPending, Bump(LAST_WORD), LockPending, UnlockPending], enqueues];
    OneMore(threads, [0, 1, 1, 1, 1, 0], 0);
    assert [0, 1, 1, 1, 1, 0] + [0] == [0, 1, 1, 1, 1, 0, 0];
    assert Reached(threads, [0, 1, 1, 1, 1, 0, 0]).programs ==
           [[Bump(LAST_WORD), LockPending, UnlockPending], enqueues];
  }

  /** Restored again after the wrap, the job raises the counter to an id that has been handed out before. */
  lemma SameIdTwice(job: Job)
    requires job.jobId == LAST_WORD - 1
    ensures var threads := RestoreTwice(job);
            var schedule := [0, 1, 1, 1, 1, 0, 0, 0, 1, 1];
            && IdsAreWords(threads) && Feasible(threads, schedule)
            && Reached(threads, schedule).log ==
               [Bumped(LAST_WORD), Allocated(LAST_WORD), Allocated(0), Bumped(LAST_WORD), Allocated(LAST_WORD)]
  {
    hide Feasible, Reached, Start, ThreadProgram;
    var threads := RestoreTwice(job);
    WrapBetweenCalls(job);
    var schedule := [0, 1, 1, 1, 1, 0, 0];
    OneMore(threads, schedule, 0);
    assert schedule + [0] == [0, 1, 1, 1, 1, 0, 0, 0];
    OneMore(threads, schedule + [0], 1);
    assert schedule + [0] + [1] == [0, 1, 1, 1, 1, 0, 0, 0, 1];
    OneMore(threads, schedule + [0] + [1], 1);
    assert schedule + [0] + [1] + [1] == [0, 1, 1, 1, 1, 0, 0, 0, 1, 1];
  }

  lemma {:induction false} MaxIdBounds(jobs: seq<Job>, i: nat)
    requires i < |jobs|
    ensures jobs[i].jobId <= MaxId(jobs)
  {
    if i < |jobs| - 1 {
      MaxIdBounds(jobs[..|jobs| - 1], i);
    }
  }

  lemma {:induction false} MaxIdIsAttained(jobs: seq<Job>) returns (k: nat)
    requires MaxId(jobs) > 0
    ensures k < |jobs| && jobs[k].jobId == MaxId(jobs)
  {
    var init := jobs[..|jobs| - 1];
    if jobs[|jobs| - 1].jobId > MaxId(init) {
      k := |jobs| - 1;
    } else {
      k := MaxIdIsAttained(init);
    }
  }

  /**
   * An id at or above the floor of restored jobs exceeds all of theirs exactly when none of them holds
   * the last 64-bit id: there the saturating floor stops short.
   */
  lemma FloorClearsJobsUnlessLastId(jobs: seq<Job>, id: nat)
    requires jobs != [] && forall j :: j in jobs ==> j.jobId < U64
    requires Floor(jobs) <= id < U64
    ensures (forall j :: j in jobs ==> j.jobId < id) <==> (forall j :: j in jobs ==> j.jobId < LAST_WORD)
  {
    hide MaxId;
    forall j | j in jobs
      ensures j.jobId <= MaxId(jobs)
    {
      var i :| 0 <= i < |jobs| && jobs[i] == j;
      MaxIdBounds(jobs, i);
    }
    if MaxId(jobs) >= LAST_WORD {
      var k := MaxIdIsAttained(jobs);
      assert jobs[k] in jobs;
    }
  }

  /**
   * Under every interleaving, until the wrap, an id handed out after the floor of restored jobs was set
   * exceeds all of theirs exactly when none of them holds the last 64-bit id.
   */
  lemma RestoredIdsAreCleared(threads: seq<seq<EngineCall>>, schedule: seq<nat>, jobs: seq<Job>, i: nat, j: nat)
    requires IdsAreWords(threads) && Feasible(threads, schedule)
    requires forall job :: job in jobs ==> job.jobId < U64
    requires var log := Reached(threads, schedule).log;
             i < j < |log| && log[i] == Bumped(Floor(jobs)) && log[j].Allocated? && !Wrapped(log)
    ensures var id := Reached(threads, schedule).log[j].id;
            (forall job :: job in jobs ==> job.jobId < id) <==> (forall job :: job in jobs ==> job.jobId < LAST_WORD)
  {
    hide Reached, Feasible, Floor, Wrapped;
    AllocationsAreFreshUntilWrap(threads, schedule);
    ReachedIdsAreFresh(threads, schedule);
    var log := Reached(threads, schedule).log;
    assert log[j] in log;
    if jobs != [] {
      FloorClearsJobsUnlessLastId(jobs, log[j].id);
    }
  }

  /** Restoring jobs raises the counter just enough: to the least id that is allowed and above all of theirs. */
  lemma CounterIsRaisedJustEnough(counter: nat, jobs: seq<Job>, id: nat)
    requires forall j :: j in jobs ==> j.jobId < LAST_WORD
    ensures Raised(counter, Floor(jobs)) <= id <==>
            counter <= id && 1 <= id && forall j :: j in jobs ==> j.jobId < id
  {
    hide MaxId;
    forall j | j in jobs
      ensures j.jobId <= MaxId(jobs)
    {
      var i :| 0 <= i < |jobs| && jobs[i] == j;
      MaxIdBounds(jobs, i);
    }
    if MaxId(jobs) > 0 {
      var k := MaxIdIsAttained(jobs);
      assert jobs[k] in jobs;
    }
  }

  // ----- what a call takes and does -----

  lemma {:induction false} AllocationsAre(n: nat)
    ensures |Allocations(n)| == n && forall i :: 0 <= i < n ==> Allocations(n)[i] == Allocate
  {
    if n > 0 {
      AllocationsAre(n - 1);
    }
  }

  predicate UsesQueue(call: EngineCall) {
    call.Enqueue? || call.PopOrPush? || (call.Restore? && call.jobs != []) || call.ReplaceAll? || call.Snapshot?
  }

  predicate UsesHistory(call: EngineCall) {
    call.ReplaceAll? || call.RecordOutcome? || call.Snapshot?
  }

  /** A call takes the lock of everything it uses, and no other; an enqueue allocates all its ids under its lock. */
  lemma CallsTakeTheirLocks(call: EngineCall)
    ensures LockPending in ProgramOf(call) <==> UsesQueue(call)
    ensures LockRecent in ProgramOf(call) <==> UsesHistory(call)
    ensures call.Enqueue? ==>
              var p := ProgramOf(call);
              |p| == call.targets + 2 && p[0] == LockPending && p[|p| - 1] == UnlockPending
              && forall i :: 0 < i < |p| - 1 ==> p[i] == Allocate
  {
    if call.Enqueue? {
      AllocationsAre(call.targets);
      assert ProgramOf(call)[0] == LockPending;
    } else {
      var p := ProgramOf(call);
      assert p != [] && p[0] == LockPending ==> LockPending in p;
      assert |p| > 1 && p[1] == LockPending ==> LockPending in p;
      assert p != [] && p[0] == LockRecent ==> LockRecent in p;
      assert |p| > 1 && p[1] == LockRecent ==> LockRecent in p;
      assert |p| > 2 && p[2] == LockRecent ==> LockRecent in p;
    }
  }
}
