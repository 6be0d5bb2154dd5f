/** What the CDP log records of each event and answers to each question, said of its entries field by field. */
module CdpAnswers {
  import opened Results
  import opened Words
  import opened CdpEvents

  // ----- which entries match -----

  /** Two letters that differ in ASCII case only, or the same character. */
  predicate SameLetter(a: char, b: char) {
    a == b || ('A' <= a <= 'Z' && b as int == a as int + 32) || ('A' <= b <= 'Z' && a as int == b as int + 32)
  }

  predicate SameWord(s: string, t: string) {
    |s| == |t| && forall i :: 0 <= i < |s| ==> SameLetter(s[i], t[i])
  }

  lemma LowerIgnoresCase(s: string, t: string)
    ensures AsciiLower(s) == AsciiLower(t) <==> SameWord(s, t)
  {
    if AsciiLower(s) == AsciiLower(t) {
      assert |AsciiLower(s)| == |s| && |AsciiLower(t)| == |t|;
      forall i | 0 <= i < |s|
        ensures SameLetter(s[i], t[i])
      {
        assert AsciiLower(s)[i] == AsciiLower(t)[i];
      }
    }
  }

  ghost predicate BeginsWith(s: string, start: string) {
    exists rest :: s == start + rest
  }

  /** A pattern that ends in a star matches what begins as it does; any other matches itself alone. */
  lemma PatternsMatch(pattern: string, url: string)
    ensures WildcardMatch(pattern + "*", url) <==> BeginsWith(url, pattern)
    ensures pattern == "" || pattern[|pattern| - 1] != '*' ==> (WildcardMatch(pattern, url) <==> url == pattern)
  {
    var starred := pattern + "*";
    assert starred[|starred| - 1] == '*' && starred[..|starred| - 1] == pattern;
    if pattern <= url {
      assert url == pattern + url[|pattern|..];
    }
  }

  ghost predicate MatchesFields(r: Observed, q: FlowRequest) {
    && SameWord(r.httpMethod, q.httpMethod)
    && if q.urlPattern != "" && q.urlPattern[|q.urlPattern| - 1] == '*' then
         BeginsWith(r.url, q.urlPattern[..|q.urlPattern| - 1])
       else r.url == q.urlPattern
  }

  lemma MatchIsByFields(r: Observed, q: FlowRequest)
    ensures Matches(r, q) <==> MatchesFields(r, q)
  {
    hide AsciiLower, WildcardMatch, SameWord, BeginsWith;
    LowerIgnoresCase(r.httpMethod, q.httpMethod);
    PatternsMatch(q.urlPattern, r.url);
    if q.urlPattern != "" && q.urlPattern[|q.urlPattern| - 1] == '*' {
      var pattern := q.urlPattern[..|q.urlPattern| - 1];
      assert q.urlPattern == pattern + "*";
      PatternsMatch(pattern, r.url);
    }
  }

  // ----- answers -----

  /** Entry `k` is the last one after `since` that matches the request. */
  ghost predicate Decides(rs: seq<Observed>, q: FlowRequest, since: nat, k: nat) {
    && k < |rs| && rs[k].sequence > since && MatchesFields(rs[k], q)
    && forall i :: k < i < |rs| ==> rs[i].sequence <= since || !MatchesFields(rs[i], q)
  }

  /**
   * The deciding entry answers: a success when its status is one of the codes, whatever else it holds; else
   * its failure to load; else its status; else it is still waited for.
   */
  lemma DecidingEntryAnswers(rs: seq<Observed>, q: FlowRequest, since: nat, k: nat)
    requires Decides(rs, q, since, k)
    ensures var r, answer := rs[k], ObservedSince(rs, q, since);
            if exists i :: 0 <= i < |q.successCodes| && r.status == Some(q.successCodes[i]) then
              answer == Succeeded(r.sequence)
            else if r.failure.Some? then answer == LoadFailure(r.httpMethod, r.url, r.failure.value)
            else if r.status.Some? then answer == BadStatus(r.httpMethod, r.url, r.status.value, r.statusText)
            else answer == Waiting
  {
    hide Matches, MatchesFields, LastMatch;
    forall i | 0 <= i < |rs|
      ensures Matches(rs[i], q) <==> MatchesFields(rs[i], q)
    {
      MatchIsByFields(rs[i], q);
    }
    assert LastMatch(rs, q, since) == Some(k);
    if rs[k].status.Some? && rs[k].status.value in q.successCodes {
      var i :| 0 <= i < |q.successCodes| && q.successCodes[i] == rs[k].status.value;
      assert rs[k].status == Some(q.successCodes[i]);
    }
  }

  lemma NoEntryAnswers(rs: seq<Observed>, q: FlowRequest, since: nat)
    requires forall i :: 0 <= i < |rs| ==> rs[i].sequence <= since || !MatchesFields(rs[i], q)
    ensures ObservedSince(rs, q, since) == NotSeen
  {
    hide Matches, MatchesFields, LastMatch;
    forall i | 0 <= i < |rs|
      ensures Matches(rs[i], q) <==> MatchesFields(rs[i], q)
    {
      MatchIsByFields(rs[i], q);
    }
  }

  // ----- what each event leaves behind -----

  /** Entry `k` is the last one of the request id. */
  ghost predicate LastOf(rs: seq<Observed>, id: string, k: nat) {
    k < |rs| && rs[k].requestId == Some(id) && forall i :: k < i < |rs| ==> rs[i].requestId != Some(id)
  }

  ghost predicate Absent(rs: seq<Observed>, id: string) {
    forall i :: 0 <= i < |rs| ==> rs[i].requestId != Some(id)
  }

  /** A late event changes the last entry of its request in its own fields, and nothing else. */
  lemma LateEventsAreRecorded(log: Log, id: string, k: nat, status: nat, text: Option<string>, failure: string,
                              extra: Headers, window: Option<nat>)
    requires LastOf(log.requests, id, k)
    ensures var rs, r := log.requests, log.requests[k];
            && Applied(log, ResponseReceived(id, status, text), window) ==
               log.(requests := rs[k := r.(status := Some(status), statusText := text)])
            && Applied(log, LoadingFailed(id, failure), window) ==
               log.(requests := rs[k := r.(failure := Some(failure))])
            && Applied(log, ExtraInfo(id, extra), window) == log.(requests := rs[k := r.(headers := r.headers + extra)])
  {
    hide FindLast, KeepUnderCap;
    var at := FindLast(log.requests, id);
    assert at == Some(k);
  }

  /** A late event of a request not in the log changes nothing, but that its headers are kept for later. */
  lemma UnknownEventsAreNotRecorded(log: Log, id: string, status: nat, text: Option<string>, failure: string,
                                    extra: Headers, window: Option<nat>)
    requires Absent(log.requests, id)
    ensures Applied(log, ResponseReceived(id, status, text), window) == log
    ensures Applied(log, LoadingFailed(id, failure), window) == log
    ensures |log.pendingHeaders| < HEADER_CAP ==>
              Applied(log, ExtraInfo(id, extra), window) == log.(pendingHeaders := log.pendingHeaders[id := extra])
  {
    hide FindLast;
    InsertGrows(log.pendingHeaders, id, extra);
  }

  /**
   * A request becomes the last entry, under the next sequence, with its own fields and the headers kept for
   * it, with no status and no failure yet; the entries before it are those of the log, from the first kept.
   */
  lemma RequestsAreRecorded(log: Log, sent: CdpEvent)
    requires sent.RequestSent?
    ensures var rs := Applied(log, sent, Some(WINDOW)).requests;
            && rs != [] && |rs| == (if |log.requests| < WINDOW then |log.requests| + 1 else WINDOW)
            && (forall i :: 0 <= i < |rs| - 1 ==> rs[i] == log.requests[i + (|log.requests| + 1 - |rs|)])
            && var r := rs[|rs| - 1];
               && r.sequence == (if log.nextSequence < LAST_WORD then log.nextSequence + 1 else LAST_WORD)
               && r.requestId == sent.requestId && r.httpMethod == sent.httpMethod && r.url == sent.url
               && r.postData == sent.postData && r.status.None? && r.statusText.None? && r.failure.None?
               && r.headers == if sent.requestId.Some? && sent.requestId.value in log.pendingHeaders
                               then sent.headers + log.pendingHeaders[sent.requestId.value] else sent.headers
  {
    hide LiveSelections, WithoutPending;
    assert sent.headers + map[] == sent.headers;
  }

  lemma NavigationsAreRecorded(log: Log, url: string, window: Option<nat>)
    ensures Applied(log, Navigated(url), window) == log.(currentUrl := Some(url))
    ensures Applied(log, Unrelated, window) == log
  {
  }

  // ----- from the request to the answer -----

  /** The log with a new request, and what a late event then makes of it. */
  ghost function SentThen(log: Log, sent: CdpEvent, late: CdpEvent): Log {
    Applied(Applied(log, sent, Some(WINDOW)), late, Some(WINDOW))
  }

  /**
   * A wait that began before a matching request was sent is answered by that request: waiting at first, then
   * by its response or its failure.
   */
  lemma RequestDecidesTheWait(log: Log, sent: CdpEvent, id: string, q: FlowRequest, since: nat, status: nat,
                              text: Option<string>, failure: string)
    requires sent.RequestSent? && sent.requestId == Some(id) && since <= log.nextSequence < LAST_WORD
    requires SameWord(sent.httpMethod, q.httpMethod) && q.urlPattern == sent.url
    requires sent.url == "" || sent.url[|sent.url| - 1] != '*'
    ensures ObservedSince(Applied(log, sent, Some(WINDOW)).requests, q, since) == Waiting
    ensures ObservedSince(SentThen(log, sent, ResponseReceived(id, status, text)).requests, q, since) ==
            if status in q.successCodes then Succeeded(log.nextSequence + 1)
            else BadStatus(sent.httpMethod, sent.url, status, text)
    ensures ObservedSince(SentThen(log, sent, LoadingFailed(id, failure)).requests, q, since) ==
            LoadFailure(sent.httpMethod, sent.url, failure)
  {
    hide Applied, ObservedSince, SameWord;
    var after := Applied(log, sent, Some(WINDOW));
    RequestsAreRecorded(log, sent);
    var rs := after.requests;
    var k := |rs| - 1;
    var r := rs[k];
    assert MatchesFields(r, q);
    assert Decides(rs, q, since, k);
    DecidingEntryAnswers(rs, q, since, k);
    assert LastOf(rs, id, k);
    LateEventsAreRecorded(after, id, k, status, text, failure, map[], Some(WINDOW));
    var answered := rs[k := r.(status := Some(status), statusText := text)];
    assert Decides(answered, q, since, k);
    DecidingEntryAnswers(answered, q, since, k);
    if status in q.successCodes {
      var i :| 0 <= i < |q.successCodes| && q.successCodes[i] == status;
      assert answered[k].status == Some(q.successCodes[i]);
    }
    var failed := rs[k := r.(failure := Some(failure))];
    assert Decides(failed, q, since, k);
    DecidingEntryAnswers(failed, q, since, k);
  }

  // ----- selections and outputs -----

  /** A new request drops exactly the selections whose entry has left the window. */
  lemma SelectionsAreKept(log: Log, sent: CdpEvent, key: string)
    requires sent.RequestSent? && Live(log)
    ensures var next := Applied(log, sent, Some(WINDOW));
            && (key in next.selections <==>
                  key in log.selections && HasSequence(next.requests, log.selections[key]))
            && (key in next.selections ==> next.selections[key] == log.selections[key])
  {
    hide HasSequence, NewEntry, WithoutPending;
    SequenceStays(log.requests, log.requests + [NewEntry(log, sent)]);
  }

  /** An entry that matches the request and has one of its success codes. */
  ghost predicate IsSuccess(r: Observed, q: FlowRequest) {
    MatchesFields(r, q) && exists i :: 0 <= i < |q.successCodes| && r.status == Some(q.successCodes[i])
  }

  lemma SuccessIsByFields(r: Observed, q: FlowRequest)
    ensures Matches(r, q) && HasSucceeded(r, q) <==> IsSuccess(r, q)
  {
    hide Matches, MatchesFields;
    MatchIsByFields(r, q);
    if HasSucceeded(r, q) {
      var i :| 0 <= i < |q.successCodes| && q.successCodes[i] == r.status.value;
      assert r.status == Some(q.successCodes[i]);
    }
  }

  lemma {:induction false} LatestSuccessIsFound(rs: seq<Observed>, q: FlowRequest, k: nat)
    requires k < |rs| && IsSuccess(rs[k], q) && forall i :: k < i < |rs| ==> !IsSuccess(rs[i], q)
    ensures LastSucceeded(rs, q) == Some(rs[k])
  {
    hide IsSuccess, Matches, HasSucceeded;
    SuccessIsByFields(rs[|rs| - 1], q);
    if k < |rs| - 1 {
      LatestSuccessIsFound(rs[..|rs| - 1], q, k);
    }
  }

  /** An output without a selection that still stands for a success is read from the latest success. */
  lemma OutputIsTheLatestSuccess(log: Log, q: FlowRequest, k: nat)
    requires k < |log.requests| && IsSuccess(log.requests[k], q)
    requires forall i :: k < i < |log.requests| ==> !IsSuccess(log.requests[i], q)
    requires q.id in log.selections ==>
               forall r :: r in log.requests && IsSuccess(r, q) ==> r.sequence != log.selections[q.id]
    ensures RequestForOutput(log, q) == Some(log.requests[k])
  {
    hide IsSuccess, Matches, HasSucceeded, FirstSelected, LastSucceeded;
    LatestSuccessIsFound(log.requests, q, k);
    if q.id in log.selections {
      var selected := FirstSelected(log.requests, q, log.selections[q.id]);
      if selected.Some? {
        SuccessIsByFields(selected.value, q);
      }
    }
  }
}
