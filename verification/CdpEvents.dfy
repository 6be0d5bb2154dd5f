/** The CDP event log: a window of the last requests, updated by late events and queried backwards. */
module CdpEvents {
  import opened Results
  import opened KeyOrder
  import opened Words

  const WINDOW: nat := 128
  const HEADER_CAP: nat := 128

  type Headers = map<string, string>

  datatype Observed = Observed(
    sequence: nat,
    requestId: Option<string>,
    httpMethod: string,
    url: string,
    headers: Headers,
    postData: Option<string>,
    status: Option<nat>,
    statusText: Option<string>,
    failure: Option<string>)

  /** The CDP notifications the log reacts to, after their JSON has been read. */
  datatype CdpEvent =
    | RequestSent(requestId: Option<string>, httpMethod: string, url: string, headers: Headers,
        postData: Option<string>)
    | ExtraInfo(id: string, extra: Headers)
    | ResponseReceived(id: string, status: nat, statusText: Option<string>)
    | LoadingFailed(id: string, text: string)
    | Navigated(to: string)
    | Unrelated

  datatype Log = Log(
    currentUrl: Option<string>,
    requests: seq<Observed>,
    pendingHeaders: map<string, Headers>,
    selections: map<string, nat>,
    nextSequence: nat)

  const EMPTY: Log := Log(None, [], map[], map[], 0)

  // ----- the update -----

  /** The last entry of a request id, as `iter_mut().rev().find` returns it. */
  function FindLast(rs: seq<Observed>, id: string): (r: Option<nat>)
    ensures r.Some? ==> r.value < |rs| && rs[r.value].requestId == Some(id)
    ensures r.Some? ==> forall i :: r.value < i < |rs| ==> rs[i].requestId != Some(id)
    ensures r.None? ==> forall i :: 0 <= i < |rs| ==> rs[i].requestId != Some(id)
  {
    if rs == [] then None
    else if rs[|rs| - 1].requestId == Some(id) then Some(|rs| - 1)
    else FindLast(rs[..|rs| - 1], id)
  }

  function Cut<T>(xs: seq<T>, n: nat): seq<T> {
    if |xs| > n then xs[|xs| - n..] else xs
  }

  predicate HasSequence(rs: seq<Observed>, n: nat) {
    exists i :: 0 <= i < |rs| && rs[i].sequence == n
  }

  /** The selections that still point at an entry of the log. */
  function LiveSelections(selections: map<string, nat>, rs: seq<Observed>): map<string, nat> {
    map k | k in selections && HasSequence(rs, selections[k]) :: selections[k]
  }

  function NewEntry(log: Log, e: CdpEvent): Observed
    requires e.RequestSent?
  {
    var extra := if e.requestId.Some? && e.requestId.value in log.pendingHeaders
                 then log.pendingHeaders[e.requestId.value] else map[];
    Observed(SaturatingNext(log.nextSequence), e.requestId, e.httpMethod, e.url, e.headers + extra, e.postData,
             None, None, None)
  }

  function WithoutPending(log: Log, id: Option<string>): map<string, Headers> {
    if id.Some? then log.pendingHeaders - {id.value} else log.pendingHeaders
  }

  /** A pending header set over the cap evicts the smallest key, which need not be the oldest. */
  ghost function KeepUnderCap(pending: map<string, Headers>): map<string, Headers> {
    if |pending| > HEADER_CAP then pending - {FirstKey(pending.Keys)} else pending
  }

  ghost function Sent(log: Log, e: CdpEvent, window: Option<nat>): Log
    requires e.RequestSent?
  {
    var rs := log.requests + [NewEntry(log, e)];
    var next := log.(nextSequence := SaturatingNext(log.nextSequence), requests := rs,
                     pendingHeaders := WithoutPending(log, e.requestId));
    if window.Some? && |rs| > window.value then
      next.(requests := Cut(rs, window.value), selections := LiveSelections(log.selections, Cut(rs, window.value)))
    else next
  }

  ghost function AddHeaders(log: Log, id: string, extra: Headers): Log {
    var at := FindLast(log.requests, id);
    if at.Some? then
      var r := log.requests[at.value];
      log.(requests := log.requests[at.value := r.(headers := r.headers + extra)])
    else log.(pendingHeaders := KeepUnderCap(log.pendingHeaders[id := extra]))
  }

  /** One event applied to a log that keeps `window` requests, or all of them. */
  ghost function Applied(log: Log, e: CdpEvent, window: Option<nat>): Log {
    match e
    case RequestSent(_, _, _, _, _) => Sent(log, e, window)
    case ExtraInfo(id, extra) => AddHeaders(log, id, extra)
    case ResponseReceived(id, status, text) =>
      var at := FindLast(log.requests, id);
      if at.None? then log
      else
        var r := log.requests[at.value].(status := Some(status), statusText := text);
        log.(requests := log.requests[at.value := r])
    case LoadingFailed(id, text) =>
      var at := FindLast(log.requests, id);
      if at.None? then log
      else log.(requests := log.requests[at.value := log.requests[at.value].(failure := Some(text))])
    case Navigated(to) => log.(currentUrl := Some(to))
    case Unrelated => log
  }

  /** The return value of the update: whether waiters are woken. */
  function Changes(log: Log, e: CdpEvent): bool {
    match e
    case ResponseReceived(id, _, _) => FindLast(log.requests, id).Some?
    case LoadingFailed(id, _) => FindLast(log.requests, id).Some?
    case Unrelated => false
    case _ => true
  }

  // ----- the queries -----

  datatype FlowRequest = FlowRequest(id: string, httpMethod: string, urlPattern: string, successCodes: seq<nat>)

  function AsciiLower(s: string): string {
    seq(|s|, i requires 0 <= i < |s| => if 'A' <= s[i] <= 'Z' then s[i] + 32 as char else s[i])
  }

  /** A trailing star matches any rest; anything else must match exactly. */
  predicate WildcardMatch(pattern: string, value: string) {
    if pattern != "" && pattern[|pattern| - 1] == '*' then pattern[..|pattern| - 1] <= value else value == pattern
  }

  predicate Matches(r: Observed, q: FlowRequest) {
    AsciiLower(r.httpMethod) == AsciiLower(q.httpMethod) && WildcardMatch(q.urlPattern, r.url)
  }

  predicate HasSucceeded(r: Observed, q: FlowRequest) {
    r.status.Some? && r.status.value in q.successCodes
  }

  datatype Answer =
    | NotSeen
    | Waiting
    | Succeeded(sequence: nat)
    | LoadFailure(httpMethod: string, url: string, text: string)
    | BadStatus(httpMethod: string, url: string, code: nat, statusText: Option<string>)

  function AnswerOf(r: Observed, q: FlowRequest): Answer {
    if HasSucceeded(r, q) then Succeeded(r.sequence)
    else if r.failure.Some? then LoadFailure(r.httpMethod, r.url, r.failure.value)
    else if r.status.Some? then BadStatus(r.httpMethod, r.url, r.status.value, r.statusText)
    else Waiting
  }

  /** The last matching entry sent after `since`. */
  function LastMatch(rs: seq<Observed>, q: FlowRequest, since: nat): (r: Option<nat>)
    ensures r.Some? ==> r.value < |rs| && rs[r.value].sequence > since && Matches(rs[r.value], q)
    ensures r.Some? ==> forall i :: r.value < i < |rs| ==> !(rs[i].sequence > since && Matches(rs[i], q))
    ensures r.None? ==> forall i :: 0 <= i < |rs| ==> !(rs[i].sequence > since && Matches(rs[i], q))
  {
    if rs == [] then None
    else if rs[|rs| - 1].sequence > since && Matches(rs[|rs| - 1], q) then Some(|rs| - 1)
    else LastMatch(rs[..|rs| - 1], q, since)
  }

  function ObservedSince(rs: seq<Observed>, q: FlowRequest, since: nat): Answer {
    var at := LastMatch(rs, q, since);
    if at.None? then NotSeen else AnswerOf(rs[at.value], q)
  }

  function FirstSelected(rs: seq<Observed>, q: FlowRequest, sequence: nat): (r: Option<Observed>)
    ensures r.Some? ==> r.value in rs && r.value.sequence == sequence && Matches(r.value, q) && HasSucceeded(r.value, q)
    ensures r.None? ==> forall x :: x in rs ==> !(x.sequence == sequence && Matches(x, q) && HasSucceeded(x, q))
  {
    if rs == [] then None
    else if rs[0].sequence == sequence && Matches(rs[0], q) && HasSucceeded(rs[0], q) then Some(rs[0])
    else FirstSelected(rs[1..], q, sequence)
  }

  function LastSucceeded(rs: seq<Observed>, q: FlowRequest): (r: Option<Observed>)
    ensures r.Some? ==> r.value in rs && Matches(r.value, q) && HasSucceeded(r.value, q)
    ensures r.None? ==> forall x :: x in rs ==> !(Matches(x, q) && HasSucceeded(x, q))
  {
    if rs == [] then None
    else
      var last := rs[|rs| - 1];
      assert rs == rs[..|rs| - 1] + [last];
      if Matches(last, q) && HasSucceeded(last, q) then Some(last) else LastSucceeded(rs[..|rs| - 1], q)
  }

  /** The entry an output is read from: the selected one if it still qualifies, else the latest success. */
  function RequestForOutput(log: Log, q: FlowRequest): (r: Option<Observed>)
    ensures r.Some? ==> r.value in log.requests && Matches(r.value, q) && HasSucceeded(r.value, q)
    ensures r.None? ==> forall x :: x in log.requests ==> !(Matches(x, q) && HasSucceeded(x, q))
  {
    var selected := if q.id in log.selections then FirstSelected(log.requests, q, log.selections[q.id]) else None;
    if selected.Some? then selected else LastSucceeded(log.requests, q)
  }

  /** The locked section of a wait: a success is remembered as the selection of its request. */
  function Selecting(log: Log, q: FlowRequest, since: nat): Log {
    match ObservedSince(log.requests, q, since)
    case Succeeded(sequence) => log.(selections := log.selections[q.id := sequence])
    case _ => log
  }

  // ----- the mutable log of the source -----

  class CdpEventState {
    var currentUrl: Option<string>
    var requests: seq<Observed>
    var pendingHeaders: map<string, Headers>
    var selections: map<string, nat>
    var nextSequence: nat

    ghost function View(): Log
      reads this
    {
      Log(currentUrl, requests, pendingHeaders, selections, nextSequence)
    }

    constructor ()
      ensures View() == EMPTY
    {
      currentUrl, requests, pendingHeaders, selections, nextSequence := None, [], map[], map[], 0;
    }

    method ApplyEvent(e: CdpEvent) returns (changed: bool)
      modifies this
      ensures View() == Applied(old(View()), e, Some(WINDOW))
      ensures changed == Changes(old(View()), e)
    {
      match e
      case RequestSent(_, _, _, _, _) =>
        RecordRequest(e);
        return true;
      case ExtraInfo(id, extra) =>
        RecordHeaders(id, extra);
        return true;
      case ResponseReceived(id, status, text) =>
        var at := FindLast(requests, id);
        if at.None? {
          return false;
        }
        requests := requests[at.value := requests[at.value].(status := Some(status), statusText := text)];
        return true;
      case LoadingFailed(id, text) =>
        var at := FindLast(requests, id);
        if at.None? {
          return false;
        }
        requests := requests[at.value := requests[at.value].(failure := Some(text))];
        return true;
      case Navigated(to) =>
        currentUrl := Some(to);
        return true;
      case Unrelated =>
        return false;
    }

    method RecordRequest(e: CdpEvent)
      requires e.RequestSent?
      modifies this
      ensures View() == Sent(old(View()), e, Some(WINDOW))
    {
      hide LiveSelections;
      nextSequence := SaturatingNext(nextSequence);
      var headers := e.headers;
      if e.requestId.Some? && e.requestId.value in pendingHeaders {
        headers := headers + pendingHeaders[e.requestId.value];
        pendingHeaders := pendingHeaders - {e.requestId.value};
      } else {
        assert e.requestId.Some? ==> pendingHeaders - {e.requestId.value} == pendingHeaders;
        assert headers + map[] == headers;
      }
      var entry :=
        Observed(nextSequence, e.requestId, e.httpMethod, e.url, headers, e.postData, None, None, None);
      requests := requests + [entry];
      if |requests| > WINDOW {
        var drain := |requests| - WINDOW;
        requests := requests[drain..];
        selections := LiveSelections(selections, requests);
      }
    }

    method RecordHeaders(id: string, extra: Headers)
      modifies this
      ensures View() == AddHeaders(old(View()), id, extra)
    {
      var at := FindLast(requests, id);
      if at.Some? {
        var r := requests[at.value];
        requests := requests[at.value := r.(headers := r.headers + extra)];
      } else {
        pendingHeaders := pendingHeaders[id := extra];
        if |pendingHeaders| > HEADER_CAP {
          ghost var first := FirstKey(pendingHeaders.Keys);
          var oldest :| oldest in pendingHeaders && forall k :: k in pendingHeaders ==> AtMost(oldest, k);
          FirstIsUnique(oldest, first, pendingHeaders.Keys);
          pendingHeaders := pendingHeaders - {oldest};
        }
      }
    }

    method SelectIfSucceeded(q: FlowRequest, since: nat) returns (answer: Answer)
      modifies this`selections
      ensures answer == ObservedSince(requests, q, since) && View() == Selecting(old(View()), q, since)
    {
      answer := ObservedSince(requests, q, since);
      if answer.Succeeded? {
        selections := selections[q.id := answer.sequence];
      }
    }
  }

  // ----- runs -----

  datatype LogStep = Receive(event: CdpEvent) | Select(request: FlowRequest, since: nat)

  ghost function Performed(log: Log, step: LogStep, window: Option<nat>): Log {
    match step
    case Receive(e) => Applied(log, e, window)
    case Select(q, since) => Selecting(log, q, since)
  }

  ghost function RunLog(steps: seq<LogStep>, window: Option<nat>): Log {
    if steps == [] then EMPTY else Performed(RunLog(steps[..|steps| - 1], window), steps[|steps| - 1], window)
  }

  // ----- the window is the tail of the unbounded log -----

  /** An entry without its headers. */
  function Bare(r: Observed): Observed {
    r.(headers := map[])
  }

  function BareAll(rs: seq<Observed>): seq<Observed> {
    seq(|rs|, i requires 0 <= i < |rs| => Bare(rs[i]))
  }

  ghost predicate IsTail(w: seq<Observed>, u: seq<Observed>) {
    BareAll(w) == Cut(BareAll(u), WINDOW)
  }

  lemma {:induction false} FindLastInSuffix(u: seq<Observed>, off: nat, id: string)
    requires off <= |u|
    ensures var i, j := FindLast(u[off..], id), FindLast(u, id);
            if i.Some? then j == Some(i.value + off) else j.None? || j.value < off
  {
    if off < |u| {
      assert u[off..][..|u| - off - 1] == u[..|u| - 1][off..];
      FindLastInSuffix(u[..|u| - 1], off, id);
    }
  }

  lemma {:induction false} FindLastReadsIds(w: seq<Observed>, v: seq<Observed>, id: string)
    requires |w| == |v| && forall k :: 0 <= k < |w| ==> w[k].requestId == v[k].requestId
    ensures FindLast(w, id) == FindLast(v, id)
  {
    if w != [] {
      FindLastReadsIds(w[..|w| - 1], v[..|v| - 1], id);
    }
  }

  /** Entry by entry, a tail is a suffix of the longer log. */
  lemma TailIsSuffix(w: seq<Observed>, u: seq<Observed>)
    requires IsTail(w, u)
    ensures |w| <= |u| && |w| == |Cut(u, WINDOW)|
    ensures forall k :: 0 <= k < |w| ==> Bare(w[k]) == Bare(u[k + (|u| - |w|)])
  {
    assert |BareAll(w)| == |w| && |BareAll(u)| == |u|;
    forall k | 0 <= k < |w|
      ensures Bare(w[k]) == Bare(u[k + (|u| - |w|)])
    {
      assert BareAll(w)[k] == BareAll(u)[k + (|u| - |w|)];
    }
  }

  lemma FindLastInTail(w: seq<Observed>, u: seq<Observed>, id: string)
    requires IsTail(w, u)
    ensures |w| <= |u|
    ensures var i, j, off := FindLast(w, id), FindLast(u, id), |u| - |w|;
            if i.Some? then j == Some(i.value + off) else j.None? || j.value < off
  {
    hide FindLast, IsTail;
    TailIsSuffix(w, u);
    var v := u[|u| - |w|..];
    forall k | 0 <= k < |w|
      ensures w[k].requestId == v[k].requestId
    {
      assert Bare(w[k]) == Bare(u[k + (|u| - |w|)]);
    }
    FindLastReadsIds(w, v, id);
    FindLastInSuffix(u, |u| - |w|, id);
  }

  /** The same change made to the same entry, or to one that has left the window, keeps the tail. */
  lemma UpdateKeepsTail(w: seq<Observed>, u: seq<Observed>, i: Option<nat>, j: Option<nat>, x: Observed, y: Observed)
    requires IsTail(w, u)
    requires i.Some? ==> i.value < |w| && j == Some(i.value + (|u| - |w|)) && Bare(x) == Bare(y)
    requires j.Some? ==> j.value < |u|
    requires i.None? && j.Some? ==> j.value < |u| - |w|
    ensures IsTail(if i.Some? then w[i.value := x] else w, if j.Some? then u[j.value := y] else u)
  {
    var w', u' := if i.Some? then w[i.value := x] else w, if j.Some? then u[j.value := y] else u;
    var off := |u| - |w|;
    assert |BareAll(w)| == |w| && |BareAll(u)| == |u| && |BareAll(u')| == |u|;
    forall k | 0 <= k < |w'|
      ensures BareAll(w')[k] == Cut(BareAll(u'), WINDOW)[k]
    {
      assert BareAll(w)[k] == BareAll(u)[k + off];
    }
  }

  lemma AppendKeepsTail(w: seq<Observed>, u: seq<Observed>, x: Observed, y: Observed)
    requires IsTail(w, u) && Bare(x) == Bare(y)
    ensures IsTail(Cut(w + [x], WINDOW), u + [y])
  {
    assert BareAll(w + [x]) == BareAll(w) + [Bare(x)] && BareAll(u + [y]) == BareAll(u) + [Bare(y)];
    assert BareAll(Cut(w + [x], WINDOW)) == Cut(BareAll(w + [x]), WINDOW);
  }

  /** The bounded log and the unbounded one agree up to headers, selections and pending headers. */
  ghost predicate Refines(b: Log, u: Log) {
    b.nextSequence == u.nextSequence && b.currentUrl == u.currentUrl && IsTail(b.requests, u.requests)
  }

  lemma EventKeepsRefinement(b: Log, u: Log, e: CdpEvent)
    requires Refines(b, u)
    ensures Refines(Applied(b, e, Some(WINDOW)), Applied(u, e, None))
  {
    hide FindLast, IsTail, KeepUnderCap, LiveSelections;
    match e
    case RequestSent(_, _, _, _, _) =>
      AppendKeepsTail(b.requests, u.requests, NewEntry(b, e), NewEntry(u, e));
    case ExtraInfo(id, extra) => UpdateAtId(b.requests, u.requests, id, e);
    case ResponseReceived(id, status, text) => UpdateAtId(b.requests, u.requests, id, e);
    case LoadingFailed(id, text) => UpdateAtId(b.requests, u.requests, id, e);
    case Navigated(_) =>
    case Unrelated =>
  }

  /** What a late event makes of the entry it concerns. */
  function Touched(r: Observed, e: CdpEvent): Observed {
    match e
    case ExtraInfo(_, extra) => r.(headers := r.headers + extra)
    case ResponseReceived(_, status, text) => r.(status := Some(status), statusText := text)
    case LoadingFailed(_, text) => r.(failure := Some(text))
    case _ => r
  }

  lemma UpdateAtId(w: seq<Observed>, u: seq<Observed>, id: string, e: CdpEvent)
    requires IsTail(w, u)
    ensures var i, j := FindLast(w, id), FindLast(u, id);
            IsTail(if i.Some? then w[i.value := Touched(w[i.value], e)] else w,
                   if j.Some? then u[j.value := Touched(u[j.value], e)] else u)
  {
    hide FindLast;
    FindLastInTail(w, u, id);
    var i, j := FindLast(w, id), FindLast(u, id);
    if j.Some? {
      if i.Some? {
        assert BareAll(w)[i.value] == BareAll(u)[j.value];
        UpdateKeepsTail(w, u, i, j, Touched(w[i.value], e), Touched(u[j.value], e));
      } else {
        UpdateKeepsTail(w, u, i, j, u[j.value], Touched(u[j.value], e));
      }
    }
  }

  /** After any run the window is, headers aside, the last 128 entries of the unbounded log. */
  lemma {:induction false} WindowRefinesUnboundedLog(steps: seq<LogStep>)
    ensures Refines(RunLog(steps, Some(WINDOW)), RunLog(steps, None))
  {
    hide Refines, Applied, ObservedSince;
    if steps == [] {
      NothingRefines();
    } else {
      var init, last := steps[..|steps| - 1], steps[|steps| - 1];
      WindowRefinesUnboundedLog(init);
      var b, u := RunLog(init, Some(WINDOW)), RunLog(init, None);
      if last.Receive? {
        EventKeepsRefinement(b, u, last.event);
      } else {
        SelectingKeepsRefinement(b, u, last.request, last.since);
      }
    }
  }

  lemma NothingRefines()
    ensures Refines(EMPTY, EMPTY)
  {
  }

  lemma SelectingKeepsRefinement(b: Log, u: Log, q: FlowRequest, since: nat)
    requires Refines(b, u)
    ensures Refines(Selecting(b, q, since), Selecting(u, q, since))
  {
    hide ObservedSince, IsTail;
  }

  // ----- the window answers as the unbounded log -----

  function Sequence(n: nat): nat {
    if n < LAST_WORD then n else LAST_WORD
  }

  /** Entry `i` of the unbounded log carries sequence `i + 1`, until the counter saturates. */
  ghost predicate Numbered(u: Log) {
    && u.nextSequence == Sequence(|u.requests|)
    && forall i :: 0 <= i < |u.requests| ==> u.requests[i].sequence == Sequence(i + 1)
  }

  lemma StepKeepsNumbering(u: Log, step: LogStep)
    requires Numbered(u)
    ensures Numbered(Performed(u, step, None))
  {
    hide FindLast, KeepUnderCap, ObservedSince;
  }

  lemma {:induction false} UnboundedLogIsNumbered(steps: seq<LogStep>)
    ensures Numbered(RunLog(steps, None))
  {
    hide Numbered, Performed;
    if steps != [] {
      UnboundedLogIsNumbered(steps[..|steps| - 1]);
      StepKeepsNumbering(RunLog(steps[..|steps| - 1], None), steps[|steps| - 1]);
    } else {
      NothingIsNumbered();
    }
  }

  lemma NothingIsNumbered()
    ensures Numbered(EMPTY)
  {
  }

  lemma {:induction false} LastMatchInSuffix(u: seq<Observed>, off: nat, q: FlowRequest, since: nat)
    requires off <= |u|
    ensures var i, j := LastMatch(u[off..], q, since), LastMatch(u, q, since);
            if i.Some? then j == Some(i.value + off) else j.None? || j.value < off
  {
    hide Matches;
    if off < |u| {
      var init, v := u[..|u| - 1], u[off..];
      assert v[..|v| - 1] == init[off..] && v[|v| - 1] == u[|u| - 1];
      LastMatchInSuffix(init, off, q, since);
    } else {
      assert u[off..] == [];
    }
  }

  /** Neither matching nor answering looks at headers. */
  lemma BareDecides(x: Observed, y: Observed, q: FlowRequest)
    requires Bare(x) == Bare(y)
    ensures Matches(x, q) == Matches(y, q) && AnswerOf(x, q) == AnswerOf(y, q) && x.sequence == y.sequence
  {
    assert x == y.(headers := x.headers);
  }

  lemma {:induction false} LastMatchReadsBare(w: seq<Observed>, v: seq<Observed>, q: FlowRequest, since: nat)
    requires |w| == |v| && forall k :: 0 <= k < |w| ==> Bare(w[k]) == Bare(v[k])
    ensures LastMatch(w, q, since) == LastMatch(v, q, since)
  {
    hide Matches;
    if w != [] {
      BareDecides(w[|w| - 1], v[|v| - 1], q);
      LastMatchReadsBare(w[..|w| - 1], v[..|v| - 1], q, since);
    }
  }

  lemma TailAnswersAlike(w: seq<Observed>, u: seq<Observed>, q: FlowRequest, since: nat)
    requires IsTail(w, u) && |w| <= |u|
    ensures ObservedSince(w, q, since) == ObservedSince(u, q, since) <==>
            var j := LastMatch(u, q, since); j.None? || |u| - |w| <= j.value
  {
    hide Matches, LastMatch, IsTail;
    TailIsSuffix(w, u);
    var v := u[|u| - |w|..];
    LastMatchReadsBare(w, v, q, since);
    LastMatchInSuffix(u, |u| - |w|, q, since);
    var i := LastMatch(w, q, since);
    if i.Some? {
      BareDecides(w[i.value], v[i.value], q);
    }
  }

  /**
   * The window gives the answer of the unbounded log exactly when the entry that decides it, if there
   * is one, is still in the window.
   */
  lemma WindowAnswersExactly(steps: seq<LogStep>, q: FlowRequest, since: nat)
    ensures var w, u := RunLog(steps, Some(WINDOW)).requests, RunLog(steps, None).requests;
            ObservedSince(w, q, since) == ObservedSince(u, q, since) <==>
            var j := LastMatch(u, q, since); j.None? || |u| - |w| <= j.value
  {
    hide RunLog, ObservedSince, LastMatch;
    WindowRefinesUnboundedLog(steps);
    var w, u := RunLog(steps, Some(WINDOW)).requests, RunLog(steps, None).requests;
    TailIsSuffix(w, u);
    TailAnswersAlike(w, u, q, since);
  }

  /**
   * A wait that started at `since` gets from the window the answer of the unbounded log, whenever at
   * most 128 requests were sent after it and the sequence counter has not saturated.
   */
  lemma WindowAnswersAsUnbounded(steps: seq<LogStep>, q: FlowRequest, since: nat)
    requires var n := |RunLog(steps, None).requests|; n <= LAST_WORD && n <= since + WINDOW
    ensures ObservedSince(RunLog(steps, Some(WINDOW)).requests, q, since) ==
            ObservedSince(RunLog(steps, None).requests, q, since)
  {
    hide RunLog, ObservedSince;
    WindowRefinesUnboundedLog(steps);
    UnboundedLogIsNumbered(steps);
    TailIsSuffix(RunLog(steps, Some(WINDOW)).requests, RunLog(steps, None).requests);
    WindowAnswersExactly(steps, q, since);
  }

  // ----- what every reachable log keeps -----

  ghost predicate Live(log: Log) {
    forall k :: k in log.selections ==> HasSequence(log.requests, log.selections[k])
  }

  /** Sequences count up by one and end at the counter, until it saturates. */
  ghost predicate Contiguous(log: Log) {
    && log.nextSequence <= LAST_WORD
    && (log.requests != [] ==> log.requests[|log.requests| - 1].sequence == log.nextSequence)
    && forall i :: 0 <= i < |log.requests| - 1 ==>
         log.requests[i + 1].sequence == SaturatingNext(log.requests[i].sequence)
  }

  ghost predicate WithinLimits(log: Log) {
    |log.requests| <= WINDOW && |log.pendingHeaders| <= HEADER_CAP
  }

  ghost predicate Sound(log: Log) {
    Live(log) && Contiguous(log) && WithinLimits(log)
  }

  lemma RemoveShrinks(m: map<string, Headers>, k: string)
    ensures |m - {k}| == if k in m then |m| - 1 else |m|
  {
    assert (m - {k}).Keys == m.Keys - {k};
    assert |m| == |m.Keys| && |m - {k}| == |(m - {k}).Keys|;
  }

  lemma InsertGrows(m: map<string, Headers>, k: string, v: Headers)
    ensures |m[k := v]| == if k in m then |m| else |m| + 1
  {
    assert m[k := v].Keys == m.Keys + {k};
    assert |m| == |m.Keys| && |m[k := v]| == |m[k := v].Keys|;
  }

  /** An entry of the old log stays findable by its sequence when the log is updated around it. */
  lemma SequenceStays(rs: seq<Observed>, ss: seq<Observed>)
    requires |rs| <= |ss| && forall i :: 0 <= i < |rs| ==> ss[i].sequence == rs[i].sequence
    ensures forall n: nat :: HasSequence(rs, n) ==> HasSequence(ss, n)
  {
    forall n: nat | HasSequence(rs, n)
      ensures HasSequence(ss, n)
    {
      var i :| 0 <= i < |rs| && rs[i].sequence == n;
      assert ss[i].sequence == n;
    }
  }

  lemma SentKeepsLive(log: Log, e: CdpEvent)
    requires Live(log) && e.RequestSent?
    ensures Live(Sent(log, e, Some(WINDOW)))
  {
    hide HasSequence;
    SequenceStays(log.requests, log.requests + [NewEntry(log, e)]);
  }

  lemma SentKeepsContiguous(log: Log, e: CdpEvent)
    requires Contiguous(log) && e.RequestSent?
    ensures Contiguous(Sent(log, e, Some(WINDOW)))
  {
    hide LiveSelections, WithoutPending;
    var rs := log.requests + [NewEntry(log, e)];
    assert forall i :: 0 <= i < |rs| - 1 ==> rs[i + 1].sequence == SaturatingNext(rs[i].sequence);
    if |rs| > WINDOW {
      var cut := Cut(rs, WINDOW);
      forall i | 0 <= i < |cut| - 1
        ensures cut[i + 1].sequence == SaturatingNext(cut[i].sequence)
      {
        assert cut[i] == rs[i + (|rs| - WINDOW)] && cut[i + 1] == rs[i + (|rs| - WINDOW) + 1];
      }
    }
  }

  lemma SentKeepsSound(log: Log, e: CdpEvent)
    requires Sound(log) && e.RequestSent?
    ensures Sound(Sent(log, e, Some(WINDOW)))
  {
    SentKeepsLive(log, e);
    SentKeepsContiguous(log, e);
    hide Live, Contiguous, LiveSelections, NewEntry;
    if e.requestId.Some? {
      RemoveShrinks(log.pendingHeaders, e.requestId.value);
    }
  }

  lemma HeadersKeepSound(log: Log, id: string, extra: Headers)
    requires Sound(log) && FindLast(log.requests, id).None?
    ensures Sound(AddHeaders(log, id, extra))
  {
    hide FindLast;
    InsertGrows(log.pendingHeaders, id, extra);
    var grown := log.pendingHeaders[id := extra];
    if |grown| > HEADER_CAP {
      RemoveShrinks(grown, FirstKey(grown.Keys));
    }
  }

  /** Changing an entry without changing its sequence keeps a sound log sound. */
  lemma TouchKeepsSound(log: Log, at: nat, r: Observed)
    requires Sound(log) && at < |log.requests| && r.sequence == log.requests[at].sequence
    ensures Sound(log.(requests := log.requests[at := r]))
  {
    hide HasSequence;
    SequenceStays(log.requests, log.requests[at := r]);
  }

  lemma SelectingKeepsSound(log: Log, q: FlowRequest, since: nat)
    requires Sound(log)
    ensures Sound(Selecting(log, q, since))
  {
    hide LastMatch, Matches;
    var answer := ObservedSince(log.requests, q, since);
    if answer.Succeeded? {
      var at := LastMatch(log.requests, q, since).value;
      assert log.requests[at].sequence == answer.sequence;
    }
  }

  lemma StepKeepsSound(log: Log, step: LogStep)
    requires Sound(log)
    ensures Sound(Performed(log, step, Some(WINDOW)))
  {
    hide Sound, FindLast, Sent;
    match step
    case Select(q, since) => SelectingKeepsSound(log, q, since);
    case Receive(e) =>
      match e
      case RequestSent(_, _, _, _, _) => SentKeepsSound(log, e);
      case ExtraInfo(id, extra) =>
        var at := FindLast(log.requests, id);
        if at.None? {
          HeadersKeepSound(log, id, extra);
        } else {
          TouchKeepsSound(log, at.value, Touched(log.requests[at.value], e));
        }
      case ResponseReceived(id, status, text) =>
        var at := FindLast(log.requests, id);
        if at.Some? {
          TouchKeepsSound(log, at.value, Touched(log.requests[at.value], e));
        }
      case LoadingFailed(id, text) =>
        var at := FindLast(log.requests, id);
        if at.Some? {
          TouchKeepsSound(log, at.value, Touched(log.requests[at.value], e));
        }
      case Navigated(to) => UrlIsFree(log, Some(to));
      case Unrelated =>
  }

  lemma UrlIsFree(log: Log, url: Option<string>)
    requires Sound(log)
    ensures Sound(log.(currentUrl := url))
  {
  }

  lemma NothingIsSound()
    ensures Sound(EMPTY)
  {
  }

  /** Every reachable log is within its limits, contiguous, and selects only entries it still holds. */
  lemma {:induction false} ReachableLogIsSound(steps: seq<LogStep>)
    ensures Sound(RunLog(steps, Some(WINDOW)))
  {
    hide Sound, Performed;
    if steps == [] {
      NothingIsSound();
    } else {
      ReachableLogIsSound(steps[..|steps| - 1]);
      StepKeepsSound(RunLog(steps[..|steps| - 1], Some(WINDOW)), steps[|steps| - 1]);
    }
  }

  /** A wait that succeeds makes the output come from an entry with the very sequence it reported. */
  lemma SelectionIsReadBack(log: Log, q: FlowRequest, since: nat)
    requires ObservedSince(log.requests, q, since).Succeeded?
    ensures var r := RequestForOutput(Selecting(log, q, since), q);
            r.Some? && r.value.sequence == ObservedSince(log.requests, q, since).sequence
  {
    hide LastMatch, Matches, LastSucceeded, FirstSelected;
    var at := LastMatch(log.requests, q, since).value;
    assert log.requests[at] in log.requests;
  }

  // ----- header arrival order -----

  /** The request id appears neither in the log nor in the pending headers. */
  ghost predicate Unknown(log: Log, id: string) {
    id !in log.pendingHeaders && forall i :: 0 <= i < |log.requests| ==> log.requests[i].requestId != Some(id)
  }

  lemma FindsNewest(rs: seq<Observed>, r: Observed, id: string)
    requires r.requestId == Some(id)
    ensures FindLast(Cut(rs + [r], WINDOW), id) == Some(|Cut(rs + [r], WINDOW)| - 1)
    ensures FindLast(rs + [r], id) == Some(|rs|)
  {
  }

  lemma SentThenExtra(log: Log, sent: CdpEvent, id: string, extra: Headers)
    requires Unknown(log, id) && sent.RequestSent? && sent.requestId == Some(id)
    ensures Applied(Applied(log, sent, Some(WINDOW)), ExtraInfo(id, extra), Some(WINDOW)) ==
            Sent(log, sent.(headers := sent.headers + extra), Some(WINDOW))
  {
    hide KeepUnderCap, FindLast, LiveSelections;
    var x, y := NewEntry(log, sent), NewEntry(log, sent.(headers := sent.headers + extra));
    assert sent.headers + map[] == sent.headers;
    assert sent.headers + extra + map[] == sent.headers + extra;
    assert y == x.(headers := x.headers + extra);
    FindsNewest(log.requests, x, id);
    var rs, ss := log.requests + [x], log.requests + [y];
    assert rs[|rs| - 1 := y] == ss;
    var cut := Cut(rs, WINDOW);
    assert cut[|cut| - 1 := y] == Cut(ss, WINDOW);
    SameSequencesSameSelections(log.selections, cut, Cut(ss, WINDOW));
  }

  lemma SameSequencesSameSelections(selections: map<string, nat>, xs: seq<Observed>, ys: seq<Observed>)
    requires |xs| == |ys| && forall i :: 0 <= i < |xs| ==> xs[i].sequence == ys[i].sequence
    ensures LiveSelections(selections, xs) == LiveSelections(selections, ys)
  {
    hide HasSequence;
    SequenceStays(xs, ys);
    SequenceStays(ys, xs);
  }

  lemma SentForgetsPending(log: Log, sent: CdpEvent, id: string, extra: Headers)
    requires id !in log.pendingHeaders && sent.RequestSent? && sent.requestId == Some(id)
    ensures Sent(log.(pendingHeaders := log.pendingHeaders[id := extra]), sent, Some(WINDOW)) ==
            Sent(log, sent.(headers := sent.headers + extra), Some(WINDOW))
  {
    hide LiveSelections;
    assert log.pendingHeaders[id := extra] - {id} == log.pendingHeaders == log.pendingHeaders - {id};
    assert sent.headers + extra + map[] == sent.headers + extra;
  }

  lemma UnknownIsNotFound(log: Log, id: string)
    requires Unknown(log, id)
    ensures FindLast(log.requests, id).None?
  {
  }

  lemma ExtraThenSent(log: Log, sent: CdpEvent, id: string, extra: Headers)
    requires Unknown(log, id) && sent.RequestSent? && sent.requestId == Some(id) && |log.pendingHeaders| < HEADER_CAP
    ensures Applied(Applied(log, ExtraInfo(id, extra), Some(WINDOW)), sent, Some(WINDOW)) ==
            Sent(log, sent.(headers := sent.headers + extra), Some(WINDOW))
  {
    hide Sent, FindLast;
    UnknownIsNotFound(log, id);
    InsertGrows(log.pendingHeaders, id, extra);
    SentForgetsPending(log, sent, id, extra);
  }

  /** For a request id not seen before, headers may arrive before or after the request while there is room. */
  lemma HeaderOrderIsIrrelevant(log: Log, sent: CdpEvent, id: string, extra: Headers)
    requires Unknown(log, id) && sent.RequestSent? && sent.requestId == Some(id) && |log.pendingHeaders| < HEADER_CAP
    ensures var late := Applied(Applied(log, sent, Some(WINDOW)), ExtraInfo(id, extra), Some(WINDOW));
            var early := Applied(Applied(log, ExtraInfo(id, extra), Some(WINDOW)), sent, Some(WINDOW));
            early == late
  {
    hide Applied, Sent;
    SentThenExtra(log, sent, id, extra);
    ExtraThenSent(log, sent, id, extra);
  }

  /**
   * With the pending headers full the two orders agree exactly when the new id is the smallest key, so
   * that it is the one evicted, and its headers add nothing to the request.
   */
  lemma HeaderOrderWhenFull(log: Log, sent: CdpEvent, id: string, extra: Headers)
    requires Unknown(log, id) && sent.RequestSent? && sent.requestId == Some(id) && |log.pendingHeaders| == HEADER_CAP
    ensures var late := Applied(Applied(log, sent, Some(WINDOW)), ExtraInfo(id, extra), Some(WINDOW));
            var early := Applied(Applied(log, ExtraInfo(id, extra), Some(WINDOW)), sent, Some(WINDOW));
            early == late <==>
            FirstKey(log.pendingHeaders.Keys + {id}) == id && sent.headers + extra == sent.headers
  {
    hide Sent, FindLast, FirstKey;
    SentThenExtra(log, sent, id, extra);
    UnknownIsNotFound(log, id);
    InsertGrows(log.pendingHeaders, id, extra);
    var grown := log.pendingHeaders[id := extra];
    assert grown.Keys == log.pendingHeaders.Keys + {id};
    var evicted := FirstKey(grown.Keys);
    if evicted == id {
      assert grown - {id} == log.pendingHeaders;
      SentShowsHeaders(log, sent, id, extra);
    } else {
      SentShowsPending(log.(pendingHeaders := grown - {evicted}), sent, evicted);
      SentShowsPending(log, sent.(headers := sent.headers + extra), evicted);
    }
  }

  lemma SentShowsHeaders(log: Log, sent: CdpEvent, id: string, extra: Headers)
    requires id !in log.pendingHeaders && sent.RequestSent? && sent.requestId == Some(id)
    ensures Sent(log, sent, Some(WINDOW)) == Sent(log, sent.(headers := sent.headers + extra), Some(WINDOW)) <==>
            sent.headers + extra == sent.headers
  {
    hide LiveSelections;
    var x, y := NewEntry(log, sent), NewEntry(log, sent.(headers := sent.headers + extra));
    assert sent.headers + map[] == sent.headers && sent.headers + extra + map[] == sent.headers + extra;
    var rs, ss := Sent(log, sent, Some(WINDOW)).requests,
                  Sent(log, sent.(headers := sent.headers + extra), Some(WINDOW)).requests;
    assert rs[|rs| - 1] == x && ss[|ss| - 1] == y;
    if sent.headers + extra == sent.headers {
      assert sent.(headers := sent.headers + extra) == sent;
    }
  }

  lemma SentShowsPending(log: Log, sent: CdpEvent, key: string)
    requires sent.RequestSent? && sent.requestId.Some? && sent.requestId.value != key
    ensures key in Sent(log, sent, Some(WINDOW)).pendingHeaders <==> key in log.pendingHeaders
  {
    hide LiveSelections, NewEntry;
  }

  // ----- a full table is reachable -----

  /** Distinct request ids, by their lengths. */
  function IdName(i: nat): string {
    seq(i + 1, _ => 'a')
  }

  /** Header sets of `n` requests that have not been announced. */
  function EarlyHeaders(n: nat): seq<LogStep> {
    seq(n, i requires 0 <= i < n => Receive(ExtraInfo(IdName(i), map[])))
  }

  lemma {:induction false} EarlyHeadersArePending(n: nat)
    requires n <= HEADER_CAP
    ensures var log := RunLog(EarlyHeaders(n), Some(WINDOW));
            && log.requests == [] && |log.pendingHeaders| == n
            && (n > 0 ==> "a" in log.pendingHeaders)
            && forall k :: k in log.pendingHeaders ==> 0 < |k| <= n && k[0] == 'a'
  {
    if n > 0 {
      var steps := EarlyHeaders(n);
      assert steps[..n - 1] == EarlyHeaders(n - 1) && steps[n - 1] == Receive(ExtraInfo(IdName(n - 1), map[]));
      EarlyHeadersArePending(n - 1);
      var before := RunLog(EarlyHeaders(n - 1), Some(WINDOW));
      assert IdName(n - 1) !in before.pendingHeaders;
      InsertGrows(before.pendingHeaders, IdName(n - 1), map[]);
      assert n == 1 ==> IdName(0) == "a";
    }
  }

  /**
   * The two orders do come apart: after 128 early header sets, any request "b" is logged with its
   * headers either way round, but with one pending set fewer when they come first.
   */
  lemma HeaderOrderCanMatter(sent: CdpEvent, extra: Headers)
    requires sent.RequestSent? && sent.requestId == Some("b")
    ensures var log := RunLog(EarlyHeaders(HEADER_CAP), Some(WINDOW));
            && Unknown(log, "b") && |log.pendingHeaders| == HEADER_CAP
            && var late := Applied(Applied(log, sent, Some(WINDOW)), ExtraInfo("b", extra), Some(WINDOW));
               var early := Applied(Applied(log, ExtraInfo("b", extra), Some(WINDOW)), sent, Some(WINDOW));
               early != late
  {
    hide Applied, RunLog, EarlyHeaders;
    EarlyHeadersArePending(HEADER_CAP);
    var log := RunLog(EarlyHeaders(HEADER_CAP), Some(WINDOW));
    HeaderOrderWhenFull(log, sent, "b", extra);
    assert "a" in log.pendingHeaders.Keys + {"b"} && !AtMost("b", "a");
  }
}
