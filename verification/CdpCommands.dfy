/**
 * Command correlation over one CDP connection: each locked section of the sender, the reader and the
 * closing reader is an atomic step, and the steps of any number of commands interleave freely.
 */
module CdpCommands {
  import opened Results
  import opened Words

  /** Command `c` is the one that made the `c`-th `fetch_add`, which starts at 1 and wraps. */
  function IdOf(c: nat): nat {
    (1 + c) % U64
  }

  /** What a command's one-shot channel carries. */
  datatype Delivery = Answer(id: nat, payload: string) | ReaderClosed

  datatype Phase =
    | Allocated
    | Sending
    | Waiting
    | Resolved(how: Resolution)

  datatype Resolution = SendError | Received(delivery: Delivery)

  datatype Connection = Connection(
    commands: seq<Phase>,
    pending: map<nat, nat>,
    draining: set<nat>,
    channels: map<nat, Delivery>,
    closedOver: set<nat>,
    resolved: seq<nat>)

  const FRESH: Connection := Connection([], map[], {}, map[], {}, [])

  datatype Step =
    | Allocate
    | Register(c: nat)
    | SendOk(c: nat)
    | SendFail(c: nat)
    | Response(id: nat, payload: string)
    | Close
    | FailDrained(c: nat)
    | Await(c: nat)

  predicate InPhase(s: Connection, c: nat, p: Phase) {
    c < |s.commands| && s.commands[c] == p
  }

  predicate CanDo(s: Connection, step: Step) {
    match step
    case Allocate => true
    case Register(c) => InPhase(s, c, Allocated)
    case SendOk(c) => InPhase(s, c, Sending)
    case SendFail(c) => InPhase(s, c, Sending)
    case Response(_, _) => true
    case Close => true
    case FailDrained(c) => c in s.draining
    case Await(c) => InPhase(s, c, Waiting) && c in s.channels
  }

  function Resolve(s: Connection, c: nat, how: Resolution): Connection
    requires c < |s.commands|
  {
    s.(commands := s.commands[c := Resolved(how)], resolved := s.resolved + [c])
  }

  function Do(s: Connection, step: Step): Connection
    requires CanDo(s, step)
  {
    match step
    case Allocate => s.(commands := s.commands + [Allocated])
    case Register(c) => s.(commands := s.commands[c := Sending], pending := s.pending[IdOf(c) := c])
    case SendOk(c) => s.(commands := s.commands[c := Waiting])
    case SendFail(c) => Resolve(s.(pending := s.pending - {IdOf(c)}), c, SendError)
    case Response(id, payload) =>
      if id in s.pending then
        s.(pending := s.pending - {id}, channels := s.channels[s.pending[id] := Answer(id, payload)])
      else s
    case Close =>
      s.(pending := map[], draining := s.draining + s.pending.Values, closedOver := s.closedOver + s.pending.Values)
    case FailDrained(c) => s.(draining := s.draining - {c}, channels := s.channels[c := ReaderClosed])
    case Await(c) => Resolve(s, c, Received(s.channels[c]))
  }

  /** A run of steps, each possible when it is taken. */
  ghost predicate Possible(steps: seq<Step>)
    decreases |steps|, 0
  {
    steps != [] ==>
      Possible(steps[..|steps| - 1]) && CanDo(After(steps[..|steps| - 1]), steps[|steps| - 1])
  }

  ghost function After(steps: seq<Step>): Connection
    requires Possible(steps)
    decreases |steps|, 1
  {
    if steps == [] then FRESH else Do(After(steps[..|steps| - 1]), steps[|steps| - 1])
  }

  // ----- the connection of the source -----

  /** The shared state of a connection; each method is one section that runs under its lock. */
  class CdpConnection {
    var commands: seq<Phase>
    var pending: map<nat, nat>
    var draining: set<nat>
    var channels: map<nat, Delivery>
    ghost var closedOver: set<nat>
    ghost var resolved: seq<nat>

    ghost function View(): Connection
      reads this
    {
      Connection(commands, pending, draining, channels, closedOver, resolved)
    }

    constructor ()
      ensures View() == FRESH
    {
      commands, pending, draining, channels := [], map[], {}, map[];
      closedOver, resolved := {}, [];
    }

    method AllocateId() returns (c: nat)
      modifies this
      ensures c == |old(commands)| && View() == Do(old(View()), Allocate)
    {
      c := |commands|;
      commands := commands + [Allocated];
    }

    method RegisterSender(c: nat)
      requires CanDo(View(), Register(c))
      modifies this
      ensures View() == Do(old(View()), Register(c))
    {
      commands := commands[c := Sending];
      pending := pending[IdOf(c) := c];
    }

    method FinishSend(c: nat, sent: bool)
      requires InPhase(View(), c, Sending)
      modifies this
      ensures View() == Do(old(View()), if sent then SendOk(c) else SendFail(c))
    {
      if sent {
        commands := commands[c := Waiting];
      } else {
        pending := pending - {IdOf(c)};
        commands := commands[c := Resolved(SendError)];
        resolved := resolved + [c];
      }
    }

    method HandleResponse(id: nat, payload: string)
      modifies this
      ensures View() == Do(old(View()), Response(id, payload))
    {
      if id in pending {
        channels := channels[pending[id] := Answer(id, payload)];
        pending := pending - {id};
      }
    }

    method FailAllPending()
      modifies this
      ensures View() == Do(old(View()), Close)
    {
      draining := draining + pending.Values;
      closedOver := closedOver + pending.Values;
      pending := map[];
    }

    method SendCloseError(c: nat)
      requires CanDo(View(), FailDrained(c))
      modifies this
      ensures View() == Do(old(View()), FailDrained(c))
    {
      channels := channels[c := ReaderClosed];
      draining := draining - {c};
    }

    method Receive(c: nat) returns (delivery: Delivery)
      requires CanDo(View(), Await(c))
      modifies this
      ensures View() == Do(old(View()), Await(c)) && delivery == old(channels)[c]
    {
      delivery := channels[c];
      commands := commands[c := Resolved(Received(delivery))];
      resolved := resolved + [c];
    }
  }

  // ----- the invariant of every interleaving -----

  predicate Open(s: Connection, c: nat) {
    c < |s.commands| && (s.commands[c].Sending? || s.commands[c].Waiting?)
  }

  predicate Registered(s: Connection, c: nat) {
    c < |s.commands| && !s.commands[c].Allocated?
  }

  ghost predicate PendingOk(s: Connection) {
    forall id :: id in s.pending ==>
      && Open(s, s.pending[id]) && id == IdOf(s.pending[id])
      && s.pending[id] !in s.draining && s.pending[id] !in s.channels && s.pending[id] !in s.closedOver
  }

  ghost predicate DeliveriesOk(s: Connection) {
    && (forall c :: c in s.draining ==> Registered(s, c) && c !in s.channels && c in s.closedOver)
    && (forall c :: c in s.channels ==>
          && Registered(s, c)
          && (s.channels[c].Answer? ==> s.channels[c].id == IdOf(c) && c !in s.closedOver)
          && (s.channels[c].ReaderClosed? ==> c in s.closedOver))
    && (forall c :: c in s.closedOver ==> c in s.draining || c in s.channels)
  }

  ghost predicate ResolvedOk(s: Connection) {
    && Distinct(s.resolved)
    && (forall c: nat :: c in s.resolved <==> c < |s.commands| && s.commands[c].Resolved?)
    && (forall c :: 0 <= c < |s.commands| && s.commands[c].Resolved? && s.commands[c].how.Received? ==>
          c in s.channels && s.commands[c].how.delivery == s.channels[c])
  }

  ghost predicate Inv(s: Connection) {
    PendingOk(s) && DeliveriesOk(s) && ResolvedOk(s)
  }

  /** Every step keeps the pending table naming open commands by their own ids. */
  lemma StepKeepsPending(s: Connection, step: Step)
    requires Inv(s) && CanDo(s, step) && |Do(s, step).commands| <= U64
    ensures PendingOk(Do(s, step))
  {
    hide IdOf, ResolvedOk;
    var r := Do(s, step);
    forall id | id in r.pending && id in s.pending
      ensures Open(r, r.pending[id]) && r.pending[id] !in r.draining && r.pending[id] !in r.channels
              && r.pending[id] !in r.closedOver
    {
      var c := s.pending[id];
      assert Open(s, c) && id == IdOf(c);
    }
  }

  lemma StepKeepsDeliveries(s: Connection, step: Step)
    requires Inv(s) && CanDo(s, step)
    ensures DeliveriesOk(Do(s, step))
  {
    hide IdOf, ResolvedOk;
  }

  lemma StepKeepsResolved(s: Connection, step: Step)
    requires Inv(s) && CanDo(s, step)
    ensures ResolvedOk(Do(s, step))
  {
    hide IdOf;
  }

  lemma {:induction false} EveryRunKeepsInv(steps: seq<Step>)
    requires Possible(steps) && |After(steps).commands| <= U64
    ensures Inv(After(steps))
  {
    hide PendingOk, DeliveriesOk, ResolvedOk;
    if steps != [] {
      var init, last := steps[..|steps| - 1], steps[|steps| - 1];
      EveryRunKeepsInv(init);
      StepKeepsPending(After(init), last);
      StepKeepsDeliveries(After(init), last);
      StepKeepsResolved(After(init), last);
    } else {
      FreshIsOk();
    }
  }

  lemma FreshIsOk()
    ensures Inv(FRESH)
  {
  }

  // ----- what correlation promises -----

  /**
   * Over every interleaving of at most 2^64 commands, a command resolves at most once, and a command
   * resolved by a response was resolved by a response that carried its own id.
   */
  lemma CommandsResolveOnceAndByTheirOwnId(steps: seq<Step>)
    requires Possible(steps) && |After(steps).commands| <= U64
    ensures var s := After(steps);
            && Distinct(s.resolved)
            && forall c :: 0 <= c < |s.commands| && s.commands[c].Resolved? && s.commands[c].how.Received? ==>
                 s.commands[c].how.delivery.Answer? ==> s.commands[c].how.delivery.id == IdOf(c)
  {
    hide Possible, After, IdOf;
    EveryRunKeepsInv(steps);
  }

  /** No step puts anything into a channel that has been filled. */
  lemma StepKeepsChannel(s: Connection, step: Step, c: nat)
    requires Inv(s) && CanDo(s, step) && c in s.channels
    ensures c in Do(s, step).channels && Do(s, step).channels[c] == s.channels[c]
  {
    hide IdOf, ResolvedOk;
  }

  lemma FilledHasNoSender(steps: seq<Step>)
    requires Possible(steps) && |After(steps).commands| <= U64
    ensures var s := After(steps); s.channels.Keys !! s.pending.Values && s.channels.Keys !! s.draining
  {
    hide Possible, After, IdOf;
    EveryRunKeepsInv(steps);
  }

  /**
   * A one-shot channel is filled at most once: what it holds after some steps it holds after all later
   * ones, and no sender of it is left in the pending table or in a close under way.
   */
  lemma {:induction false} ChannelsAreFilledOnce(steps: seq<Step>, k: nat, c: nat)
    requires Possible(steps) && |After(steps).commands| <= U64 && k <= |steps|
    requires Possible(steps[..k]) && c in After(steps[..k]).channels
    ensures c in After(steps).channels && After(steps).channels[c] == After(steps[..k]).channels[c]
    ensures c !in After(steps).pending.Values && c !in After(steps).draining
  {
    hide Inv;
    FilledHasNoSender(steps);
    if k == |steps| {
      assert steps[..k] == steps;
    } else {
      var init := steps[..|steps| - 1];
      assert init[..k] == steps[..k];
      ChannelsAreFilledOnce(init, k, c);
      EveryRunKeepsInv(init);
      StepKeepsChannel(After(init), steps[|steps| - 1], c);
    }
  }

  /** The answer a command received is the payload of a response step of the run with the command's id. */
  lemma {:induction false} AnswersComeFromResponses(steps: seq<Step>, c: nat)
    requires Possible(steps) && c in After(steps).channels && After(steps).channels[c].Answer?
    ensures var d := After(steps).channels[c]; Response(d.id, d.payload) in steps
  {
    var init, last := steps[..|steps| - 1], steps[|steps| - 1];
    assert steps == init + [last];
    if c in After(init).channels && After(init).channels[c] == After(steps).channels[c] {
      AnswersComeFromResponses(init, c);
    }
  }

  /** A response whose id is not pending changes nothing; in particular a second response for an id does not. */
  lemma UnknownAndDuplicateResponsesAreIgnored(s: Connection, id: nat, first: string, second: string)
    ensures id !in s.pending ==> Do(s, Response(id, first)) == s
    ensures Do(Do(s, Response(id, first)), Response(id, second)) == Do(s, Response(id, first))
  {
  }

  lemma {:induction false} PrefixIsPossible(steps: seq<Step>, k: nat)
    requires Possible(steps) && k <= |steps|
    ensures Possible(steps[..k]) && |After(steps[..k]).commands| <= |After(steps).commands|
  {
    if k == |steps| {
      assert steps[..k] == steps;
    } else {
      var init := steps[..|steps| - 1];
      assert init[..k] == steps[..k];
      PrefixIsPossible(init, k);
    }
  }

  /** The command was registered, and its id has left the pending table. */
  predicate Gone(s: Connection, c: nat) {
    Registered(s, c) && IdOf(c) !in s.pending
  }

  lemma StepKeepsGone(s: Connection, step: Step, c: nat)
    requires Inv(s) && CanDo(s, step) && |s.commands| <= U64 && Gone(s, c)
    ensures Gone(Do(s, step), c)
  {
    hide IdOf, PendingOk, DeliveriesOk, ResolvedOk;
    if step.Register? {
      IdsAreDistinct(c, step.c);
    }
  }

  /** A command that has left the pending table stays out of it, and every response with its id is ignored. */
  lemma {:induction false} GoneCommandsIgnoreResponses(steps: seq<Step>, k: nat, c: nat, payload: string)
    requires Possible(steps) && |After(steps).commands| <= U64 && k <= |steps|
    requires Possible(steps[..k]) && Gone(After(steps[..k]), c)
    ensures Gone(After(steps), c) && Do(After(steps), Response(IdOf(c), payload)) == After(steps)
  {
    hide Inv, Gone, IdOf;
    if k == |steps| {
      assert steps[..k] == steps;
    } else {
      var init := steps[..|steps| - 1];
      assert init[..k] == steps[..k];
      PrefixIsPossible(steps, |steps| - 1);
      GoneCommandsIgnoreResponses(init, k, c, payload);
      EveryRunKeepsInv(init);
      StepKeepsGone(After(init), steps[|steps| - 1], c);
    }
    GoneIgnores(After(steps), c, payload);
  }

  lemma GoneIgnores(s: Connection, c: nat, payload: string)
    requires Gone(s, c)
    ensures Do(s, Response(IdOf(c), payload)) == s
  {
  }

  /** Once a pending command has been answered, a response that repeats its id changes nothing, however late. */
  lemma RepeatedResponsesAreIgnored(steps: seq<Step>, k: nat, id: nat, first: string, again: string)
    requires Possible(steps) && |After(steps).commands| <= U64
    requires k < |steps| && steps[k] == Response(id, first)
    requires Possible(steps[..k]) && id in After(steps[..k]).pending
    ensures Do(After(steps), Response(id, again)) == After(steps)
  {
    hide IdOf;
    PrefixIsPossible(steps, k);
    EveryRunKeepsInv(steps[..k]);
    PrefixIsPossible(steps, k + 1);
    assert steps[..k + 1][..k] == steps[..k];
    GoneCommandsIgnoreResponses(steps, k + 1, After(steps[..k]).pending[id], again);
  }

  /**
   * Closing fails exactly the commands then pending: each of them is due a close error, one it will get
   * or already has, and no other command ever receives one.
   */
  lemma CloseFailsExactlyThePending(steps: seq<Step>)
    requires Possible(steps) && |After(steps).commands| <= U64
    ensures var s := After(steps);
            && (forall c :: c in s.closedOver <==>
                  c in s.draining || (c in s.channels && s.channels[c] == ReaderClosed))
            && Do(s, Close).pending == map[]
            && Do(s, Close).closedOver == s.closedOver + s.pending.Values
            && s.pending.Values !! s.closedOver
  {
    hide Possible, After, IdOf;
    EveryRunKeepsInv(steps);
  }

  /**
   * A pending command leaves the table only by a response with its own id, its own send failure or a
   * close. A command registered after the reader closed is therefore not failed by that close.
   */
  lemma PendingLeavesOnlyThreeWays(steps: seq<Step>, step: Step, c: nat)
    requires Possible(steps) && CanDo(After(steps), step) && |Do(After(steps), step).commands| <= U64
    requires IdOf(c) in After(steps).pending && After(steps).pending[IdOf(c)] == c
    ensures var r := Do(After(steps), step);
            (IdOf(c) in r.pending && r.pending[IdOf(c)] == c && c !in r.channels && c !in r.draining)
            || step == Close || step == SendFail(c) || (step.Response? && step.id == IdOf(c))
  {
    hide Possible, After, IdOf;
    var s := After(steps);
    EveryRunKeepsInv(steps);
    assert Open(s, c);
    match step
    case Register(d) => IdsAreDistinct(c, d);
    case SendFail(d) => IdsAreDistinct(c, d);
    case Response(id, _) =>
      if id in s.pending && s.pending[id] == c {
        assert id == IdOf(c);
      }
    case _ =>
  }

  lemma IdsAreDistinct(c: nat, d: nat)
    requires c < U64 && d < U64
    ensures IdOf(c) == IdOf(d) ==> c == d
  {
  }

  // ----- every command gets its answer -----

  /** Registering a command puts it under its own id into the pending table. */
  lemma RegisteredIsPending(steps: seq<Step>, k: nat, c: nat)
    requires Possible(steps) && k < |steps| && steps[k] == Register(c)
    requires Possible(steps[..k + 1])
    ensures IdOf(c) in After(steps[..k + 1]).pending && After(steps[..k + 1]).pending[IdOf(c)] == c
  {
    assert steps[..k + 1][..k] == steps[..k];
  }

  /** The steps that can take command `c` out of the pending table. */
  predicate TakesOut(step: Step, c: nat) {
    step == Close || step == SendFail(c) || (step.Response? && step.id == IdOf(c))
  }

  /** A registered command stays pending, and without an answer, while nothing takes it out. */
  lemma {:induction false} PendingStays(steps: seq<Step>, k: nat, m: nat, c: nat)
    requires Possible(steps) && |After(steps).commands| <= U64
    requires k < m <= |steps| && steps[k] == Register(c)
    requires forall i :: k < i < m ==> !TakesOut(steps[i], c)
    requires Possible(steps[..m])
    ensures IdOf(c) in After(steps[..m]).pending && After(steps[..m]).pending[IdOf(c)] == c
    decreases m
  {
    hide IdOf;
    PrefixIsPossible(steps, m - 1);
    PrefixIsPossible(steps, m);
    if m == k + 1 {
      RegisteredIsPending(steps, k, c);
    } else {
      PendingStays(steps, k, m - 1, c);
      assert steps[..m][..m - 1] == steps[..m - 1];
      PendingLeavesOnlyThreeWays(steps[..m - 1], steps[m - 1], c);
    }
  }

  /** What is in the channel of a waiting command is what awaiting it returns. */
  lemma AwaitReturnsTheChannel(s: Connection, c: nat)
    requires c in s.channels && InPhase(s, c, Waiting)
    ensures CanDo(s, Await(c)) && Do(s, Await(c)).commands[c] == Resolved(Received(s.channels[c]))
  {
  }

  /**
   * Delivery: a response that carries the id of a registered command, before a close, its own send
   * failure or an earlier response takes the command out, fills the command's channel with its payload
   * for good; whenever the command is then waiting, it can be resolved, and is resolved with that payload.
   */
  lemma ResponsesAreDelivered(steps: seq<Step>, k: nat, m: nat, c: nat, payload: string)
    requires Possible(steps) && |After(steps).commands| <= U64
    requires k < m < |steps| && steps[k] == Register(c) && steps[m] == Response(IdOf(c), payload)
    requires forall i :: k < i < m ==> !TakesOut(steps[i], c)
    ensures var s := After(steps);
            && c in s.channels && s.channels[c] == Answer(IdOf(c), payload)
            && (InPhase(s, c, Waiting) ==>
                  CanDo(s, Await(c)) && Do(s, Await(c)).commands[c] == Resolved(Received(Answer(IdOf(c), payload))))
  {
    hide IdOf;
    PrefixIsPossible(steps, m);
    PrefixIsPossible(steps, m + 1);
    PendingStays(steps, k, m, c);
    assert steps[..m + 1][..m] == steps[..m];
    ChannelsAreFilledOnce(steps, m + 1, c);
    if InPhase(After(steps), c, Waiting) {
      AwaitReturnsTheChannel(After(steps), c);
    }
  }

  /**
   * The close error likewise: a command pending at a close is due the error from then on, and once it
   * has been sent to the command's channel, a waiting command can be resolved, and only with it.
   */
  lemma CloseErrorsAreDelivered(steps: seq<Step>, k: nat, m: nat, n: nat, c: nat)
    requires Possible(steps) && |After(steps).commands| <= U64
    requires k < m < n < |steps| && steps[k] == Register(c) && steps[m] == Close && steps[n] == FailDrained(c)
    requires forall i :: k < i < m ==> !TakesOut(steps[i], c)
    ensures var s := After(steps);
            && c in s.channels && s.channels[c] == ReaderClosed
            && (InPhase(s, c, Waiting) ==>
                  CanDo(s, Await(c)) && Do(s, Await(c)).commands[c] == Resolved(Received(ReaderClosed)))
  {
    hide IdOf;
    PrefixIsPossible(steps, n);
    PrefixIsPossible(steps, n + 1);
    assert steps[..n + 1][..n] == steps[..n];
    ChannelsAreFilledOnce(steps, n + 1, c);
    if InPhase(After(steps), c, Waiting) {
      AwaitReturnsTheChannel(After(steps), c);
    }
  }

  /** A command pending at a close is due the close error until it is sent. */
  lemma {:induction false} CloseMakesDue(steps: seq<Step>, k: nat, m: nat, c: nat)
    requires Possible(steps) && |After(steps).commands| <= U64
    requires k < m < |steps| && steps[k] == Register(c) && steps[m] == Close
    requires forall i :: k < i < m ==> !TakesOut(steps[i], c)
    requires forall i :: m < i < |steps| ==> steps[i] != FailDrained(c)
    ensures c in After(steps).draining && CanDo(After(steps), FailDrained(c))
    decreases |steps|
  {
    hide IdOf;
    var init := steps[..|steps| - 1];
    PrefixIsPossible(steps, |steps| - 1);
    if m == |steps| - 1 {
      PrefixIsPossible(steps, m);
      PendingStays(steps, k, m, c);
    } else {
      CloseMakesDue(init, k, m, c);
    }
  }

  /** A command whose send succeeded waits until it is awaited. */
  lemma {:induction false} SentCommandsWait(steps: seq<Step>, k: nat, c: nat)
    requires Possible(steps) && k < |steps| && steps[k] == SendOk(c)
    requires forall i :: k < i < |steps| ==> steps[i] != Await(c)
    ensures InPhase(After(steps), c, Waiting)
  {
    var init := steps[..|steps| - 1];
    if k < |steps| - 1 {
      SentCommandsWait(init, k, c);
    }
  }

  /** A command whose send failed is resolved with the send error and is not pending. */
  lemma {:induction false} FailedSendsResolve(steps: seq<Step>, k: nat, c: nat)
    requires Possible(steps) && k < |steps| && steps[k] == SendFail(c)
    ensures InPhase(After(steps), c, Resolved(SendError))
  {
    var init := steps[..|steps| - 1];
    if k < |steps| - 1 {
      FailedSendsResolve(init, k, c);
    }
  }
}
