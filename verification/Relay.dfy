/** The relay-lite put and get loops over arbitrary callbacks, and the in-memory provider of the example. */
module Relay {
  import opened Results
  import opened Words

  const CHUNK_BYTES: nat := 1024
  const MAX_OBJECT_BYTES: nat := 65536

  datatype Status = Done | InvalidArg | Busy | Limit | ProviderError

  function Min(a: nat, b: nat): nat {
    if a < b then a else b
  }

  // ----- the callbacks -----

  /**
   * A body reader: the bytes it delivers when asked for at most `capacity` at `offset`. A reply longer
   * than `capacity` stands for a callback that claims more than it was asked for. Every continuing turn
   * of either loop advances the offset, so a callback that depends on it is as free as one with a memory.
   */
  type Reader = (nat, nat) -> seq<Byte>

  /** Whether a provider takes a chunk at an offset, with its final flag. */
  type Sink = (nat, seq<Byte>, bool) -> bool

  datatype GetReply = GetReply(ok: bool, bytes: seq<Byte>, final: bool)

  /** A provider's answer when asked for at most `capacity` bytes at an offset. */
  type Source = (nat, nat) -> GetReply

  /** How many of the bytes a body writer takes. */
  type Writer = (nat, seq<Byte>) -> nat

  datatype PutCall = PutCall(bytes: seq<Byte>, final: bool)

  // ----- what the loops do -----

  datatype PutRun = PutRun(status: Status, calls: seq<PutCall>)

  function Asked(total: nat, sent: nat): nat
    requires sent <= total
  {
    Min(total - sent, CHUNK_BYTES)
  }

  /** The rest of a put, with `sent` bytes behind it. */
  function PutFrom(read: Reader, accept: Sink, total: nat, sent: nat): PutRun
    requires sent <= total
    decreases total - sent
  {
    if sent == total then PutRun(Done, [])
    else
      var bytes := read(sent, Asked(total, sent));
      if bytes == [] || |bytes| > Asked(total, sent) then PutRun(ProviderError, [])
      else
        var call := PutCall(bytes, sent + |bytes| == total);
        if !accept(sent, bytes, call.final) then PutRun(ProviderError, [call])
        else
          var rest := PutFrom(read, accept, total, sent + |bytes|);
          PutRun(rest.status, [call] + rest.calls)
  }

  datatype GetRun = GetRun(status: Status, written: seq<Byte>, calls: nat)

  /** The rest of a get, with `offset` bytes behind it. */
  function GetFrom(source: Source, write: Writer, offset: nat): GetRun
    requires offset <= MAX_OBJECT_BYTES
    decreases MAX_OBJECT_BYTES - offset
  {
    var reply := source(offset, CHUNK_BYTES);
    var n := |reply.bytes|;
    if !reply.ok then GetRun(ProviderError, [], 1)
    else if n > CHUNK_BYTES || offset + n > MAX_OBJECT_BYTES then GetRun(Limit, [], 1)
    else if n > 0 && write(offset, reply.bytes) != n then GetRun(ProviderError, [], 1)
    else if reply.final then GetRun(Done, reply.bytes, 1)
    else if n == 0 then GetRun(ProviderError, [], 1)
    else
      var rest := GetFrom(source, write, offset + n);
      GetRun(rest.status, reply.bytes + rest.written, 1 + rest.calls)
  }

  function InvalidName(name: Option<string>): bool {
    name.None? || name.value == ""
  }

  // ----- the relay of the source -----

  class RelayLite {
    var busy: bool

    constructor ()
      ensures !busy
    {
      busy := false;
    }

    /** On every exit the busy flag is what it was on entry. */
    method Put(bucket: Option<string>, key: Option<string>, total: nat, read: Option<Reader>, accept: Sink)
      returns (status: Status, calls: seq<PutCall>)
      modifies this
      ensures busy == old(busy)
      ensures PutRun(status, calls) ==
              if InvalidName(bucket) || InvalidName(key) || read.None? then PutRun(InvalidArg, [])
              else if old(busy) then PutRun(Busy, [])
              else if total > MAX_OBJECT_BYTES then PutRun(Limit, [])
              else PutFrom(read.value, accept, total, 0)
    {
      calls := [];
      if InvalidName(bucket) || InvalidName(key) || read.None? {
        return InvalidArg, calls;
      }
      if busy {
        return Busy, calls;
      }
      if total > MAX_OBJECT_BYTES {
        return Limit, calls;
      }
      busy := true;
      var sent := 0;
      ghost var whole := PutFrom(read.value, accept, total, 0);
      NothingBefore(whole);
      while sent < total
        invariant busy && 0 <= sent <= total
        invariant whole == Behind(calls, PutFrom(read.value, accept, total, sent))
        decreases total - sent
      {
        PutTurn(read.value, accept, total, sent, calls);
        var expected := if total - sent > CHUNK_BYTES then CHUNK_BYTES else total - sent;
        var chunk := read.value(sent, expected);
        if chunk == [] || |chunk| > expected {
          busy := false;
          return ProviderError, calls;
        }
        var offset := sent;
        sent := sent + |chunk|;
        var final := sent == total;
        calls := calls + [PutCall(chunk, final)];
        if !accept(offset, chunk, final) {
          busy := false;
          return ProviderError, calls;
        }
      }
      assert calls + [] == calls;
      busy := false;
      return Done, calls;
    }

    method Get(bucket: Option<string>, key: Option<string>, source: Source, write: Option<Writer>)
      returns (status: Status, written: seq<Byte>, calls: nat)
      modifies this
      ensures busy == old(busy)
      ensures GetRun(status, written, calls) ==
              if InvalidName(bucket) || InvalidName(key) || write.None? then GetRun(InvalidArg, [], 0)
              else if old(busy) then GetRun(Busy, [], 0)
              else GetFrom(source, write.value, 0)
    {
      written, calls := [], 0;
      if InvalidName(bucket) || InvalidName(key) || write.None? {
        return InvalidArg, written, calls;
      }
      if busy {
        return Busy, written, calls;
      }
      busy := true;
      var offset := 0;
      var final := false;
      while !final
        invariant busy && 0 <= offset <= MAX_OBJECT_BYTES
        invariant !final ==>
                    var whole, rest := GetFrom(source, write.value, 0), GetFrom(source, write.value, offset);
                    whole == GetRun(rest.status, written + rest.written, calls + rest.calls)
        invariant final ==> GetFrom(source, write.value, 0) == GetRun(Done, written, calls)
        decreases !final, MAX_OBJECT_BYTES - offset
      {
        ghost var before := written;
        assert before + [] == before;
        if offset > MAX_OBJECT_BYTES {
          assert false;
        }
        var reply := source(offset, CHUNK_BYTES);
        calls := calls + 1;
        if !reply.ok {
          busy := false;
          return ProviderError, written, calls;
        }
        var got := |reply.bytes|;
        if got > CHUNK_BYTES || offset + got > MAX_OBJECT_BYTES {
          busy := false;
          return Limit, written, calls;
        }
        if got > 0 && write.value(offset, reply.bytes) != got {
          busy := false;
          return ProviderError, written, calls;
        }
        written := written + reply.bytes;
        offset := offset + got;
        if got == 0 && !reply.final {
          assert written == before;
          busy := false;
          return ProviderError, written, calls;
        }
        final := reply.final;
        if !final {
          AppendTwice(before, reply.bytes, GetFrom(source, write.value, offset).written);
        }
      }
      busy := false;
      return Done, written, calls;
    }
  }

  /** A run with the calls made before it. */
  function Behind(calls: seq<PutCall>, rest: PutRun): PutRun {
    PutRun(rest.status, calls + rest.calls)
  }

  lemma NothingBefore(run: PutRun)
    ensures Behind([], run) == run
  {
    assert [] + run.calls == run.calls;
  }

  /** One turn of the put loop. */
  lemma PutTurn(read: Reader, accept: Sink, total: nat, sent: nat, calls: seq<PutCall>)
    requires sent < total
    ensures var bytes := read(sent, Asked(total, sent));
            var call := PutCall(bytes, sent + |bytes| == total);
            Behind(calls, PutFrom(read, accept, total, sent)) ==
            if bytes == [] || |bytes| > Asked(total, sent) then PutRun(ProviderError, calls)
            else if !accept(sent, bytes, call.final) then PutRun(ProviderError, calls + [call])
            else Behind(calls + [call], PutFrom(read, accept, total, sent + |bytes|))
  {
    var bytes := read(sent, Asked(total, sent));
    assert calls + [] == calls;
    if bytes != [] && |bytes| <= Asked(total, sent) {
      var call := PutCall(bytes, sent + |bytes| == total);
      var rest := PutFrom(read, accept, total, sent + |bytes|).calls;
      assert calls + ([call] + rest) == calls + [call] + rest;
    }
  }

  lemma AppendTwice(a: seq<Byte>, b: seq<Byte>, c: seq<Byte>)
    ensures a + (b + c) == a + b + c
  {
  }

  // ----- what a put promises -----

  function Joined(calls: seq<PutCall>): seq<Byte> {
    if calls == [] then [] else calls[0].bytes + Joined(calls[1..])
  }

  /** Chunks are never empty or too long, only the last can be final, and they stay within `left` bytes. */
  ghost predicate WellFormed(run: PutRun, left: nat) {
    && (forall i :: 0 <= i < |run.calls| ==> 0 < |run.calls[i].bytes| <= CHUNK_BYTES)
    && (forall i :: 0 <= i < |run.calls| - 1 ==> !run.calls[i].final)
    && (run.calls != [] ==> (run.calls[|run.calls| - 1].final <==> |Joined(run.calls)| == left))
    && |Joined(run.calls)| <= left
    && (run.status == Done ==> |Joined(run.calls)| == left)
  }

  lemma ConsKeepsWellFormed(call: PutCall, rest: PutRun, left: nat)
    requires WellFormed(rest, left) && 0 < |call.bytes| <= CHUNK_BYTES && (call.final <==> left == 0)
    requires left == 0 ==> rest.calls == []
    ensures WellFormed(PutRun(rest.status, [call] + rest.calls), left + |call.bytes|)
    ensures Joined([call] + rest.calls) == call.bytes + Joined(rest.calls)
  {
    assert ([call] + rest.calls)[1..] == rest.calls;
  }

  /** Against any callbacks, the chunks of a put are well formed; a put of nothing makes no call. */
  lemma {:induction false} PutChunksAreWellFormed(read: Reader, accept: Sink, total: nat, sent: nat)
    requires sent <= total
    ensures WellFormed(PutFrom(read, accept, total, sent), total - sent)
    ensures sent == total ==> PutFrom(read, accept, total, sent).calls == []
    decreases total - sent
  {
    hide WellFormed, Joined;
    if sent < total {
      var bytes := read(sent, Asked(total, sent));
      var call := PutCall(bytes, sent + |bytes| == total);
      if bytes == [] || |bytes| > Asked(total, sent) {
        NoCallsAreWellFormed(PutRun(ProviderError, []), total - sent);
      } else if !accept(sent, bytes, call.final) {
        LoneCallIsWellFormed(call, total - sent);
      } else {
        PutChunksAreWellFormed(read, accept, total, sent + |bytes|);
        ConsKeepsWellFormed(call, PutFrom(read, accept, total, sent + |bytes|), total - sent - |bytes|);
      }
    } else {
      NoCallsAreWellFormed(PutRun(Done, []), 0);
    }
  }

  lemma NoCallsAreWellFormed(run: PutRun, left: nat)
    requires run.calls == [] && (run.status == Done ==> left == 0)
    ensures WellFormed(run, left)
  {
  }

  lemma LoneCallIsWellFormed(call: PutCall, left: nat)
    requires 0 < |call.bytes| <= CHUNK_BYTES && |call.bytes| <= left && (call.final <==> |call.bytes| == left)
    ensures WellFormed(PutRun(ProviderError, [call]), left)
  {
    assert [call][1..] == [];
    assert call.bytes + [] == call.bytes;
  }

  /** A reader that delivers the body, in reads as short as it likes. */
  ghost predicate Delivers(read: Reader, body: seq<Byte>) {
    forall offset: nat, capacity: nat :: offset < |body| && capacity > 0 ==>
      var bytes := read(offset, capacity);
      bytes != [] && |bytes| <= capacity && offset + |bytes| <= |body| && bytes == body[offset..offset + |bytes|]
  }

  /** The in-memory provider takes a chunk when it fits behind what it holds. */
  predicate MemoryTakes(held: nat, bytes: seq<Byte>) {
    held + |bytes| <= MAX_OBJECT_BYTES
  }

  function MemorySink(): Sink {
    (offset: nat, bytes: seq<Byte>, final: bool) => MemoryTakes(offset, bytes)
  }

  lemma {:induction false} PutDeliversBody(read: Reader, body: seq<Byte>, sent: nat)
    requires Delivers(read, body) && |body| <= MAX_OBJECT_BYTES && sent <= |body|
    ensures var run := PutFrom(read, MemorySink(), |body|, sent);
            run.status == Done && Joined(run.calls) == body[sent..]
    decreases |body| - sent
  {
    if sent < |body| {
      var bytes := read(sent, Asked(|body|, sent));
      assert bytes == body[sent..sent + |bytes|];
      assert MemorySink()(sent, bytes, sent + |bytes| == |body|);
      PutDeliversBody(read, body, sent + |bytes|);
      var rest := PutFrom(read, MemorySink(), |body|, sent + |bytes|);
      var call := PutCall(bytes, sent + |bytes| == |body|);
      assert ([call] + rest.calls)[1..] == rest.calls;
      assert body[sent..] == bytes + body[sent + |bytes|..];
    }
  }

  // ----- what a get promises -----

  /** Against any provider a get makes at most 65537 calls, and writes no more than the object limit. */
  lemma {:induction false} GetIsBounded(source: Source, write: Writer, offset: nat)
    requires offset <= MAX_OBJECT_BYTES
    ensures var run := GetFrom(source, write, offset);
            1 <= run.calls <= MAX_OBJECT_BYTES - offset + 1 && offset + |run.written| <= MAX_OBJECT_BYTES
    decreases MAX_OBJECT_BYTES - offset
  {
    var reply := source(offset, CHUNK_BYTES);
    var n := |reply.bytes|;
    if reply.ok && 0 < n <= CHUNK_BYTES && offset + n <= MAX_OBJECT_BYTES && !reply.final {
      GetIsBounded(source, write, offset + n);
    }
  }

  /** What the in-memory provider answers when it holds `held`. */
  function MemoryReply(held: seq<Byte>, offset: nat, capacity: nat): GetReply {
    if offset > |held| then GetReply(false, [], false)
    else
      var take := Min(|held| - offset, capacity);
      GetReply(true, held[offset..offset + take], offset + take >= |held|)
  }

  function MemorySource(held: seq<Byte>): Source {
    (offset: nat, capacity: nat) => MemoryReply(held, offset, capacity)
  }

  ghost predicate WritesAll(write: Writer) {
    forall offset: nat, bytes: seq<Byte> :: write(offset, bytes) == |bytes|
  }

  lemma {:induction false} GetReturnsHeld(held: seq<Byte>, write: Writer, offset: nat)
    requires |held| <= MAX_OBJECT_BYTES && offset <= |held| && WritesAll(write)
    ensures var run := GetFrom(MemorySource(held), write, offset);
            run.status == Done && run.written == held[offset..]
    decreases |held| - offset
  {
    var reply := MemorySource(held)(offset, CHUNK_BYTES);
    var n := |reply.bytes|;
    assert n > 0 ==> write(offset, reply.bytes) == n;
    if offset + n < |held| {
      GetReturnsHeld(held, write, offset + n);
      assert held[offset..] == held[offset..offset + n] + held[offset + n..];
    }
  }

  // ----- the in-memory provider -----

  class MemoryProvider {
    const store: array<Byte>
    var len: nat

    ghost predicate Valid()
      reads this
    {
      store.Length == MAX_OBJECT_BYTES && len <= MAX_OBJECT_BYTES
    }

    ghost function Held(): seq<Byte>
      reads this, store
      requires Valid()
    {
      store[..len]
    }

    constructor ()
      ensures Valid() && Held() == [] && fresh(store)
    {
      store := new Byte[MAX_OBJECT_BYTES];
      len := 0;
    }

    method MemoryPut(chunk: seq<Byte>) returns (ok: bool)
      requires Valid()
      modifies this`len, store
      ensures Valid() && ok == MemoryTakes(|old(Held())|, chunk)
      ensures Held() == if ok then old(Held()) + chunk else old(Held())
    {
      if len + |chunk| > store.Length {
        return false;
      }
      for i := 0 to |chunk|
        invariant len == old(len) && len + |chunk| <= store.Length
        invariant store[..len] == old(store[..len])
        invariant store[len..len + i] == chunk[..i]
      {
        store[len + i] := chunk[i];
      }
      assert store[..len + |chunk|] == store[..len] + store[len..len + |chunk|];
      len := len + |chunk|;
      return true;
    }

    method MemoryGet(offset: nat, capacity: nat) returns (reply: GetReply)
      requires Valid()
      ensures reply == MemoryReply(Held(), offset, capacity)
    {
      if offset > len {
        return GetReply(false, [], false);
      }
      var remaining := len - offset;
      var take := if remaining < capacity then remaining else capacity;
      var bytes := store[offset..offset + take];
      ghost var held := Held();
      assert |bytes| == take && forall i :: 0 <= i < take ==> bytes[i] == held[offset + i];
      assert bytes == held[offset..offset + take];
      return GetReply(true, bytes, offset + take >= len);
    }

    /**
     * The calls of a put, made on the provider itself until it refuses one: it answers each as
     * `MemorySink` does at the offset the put has reached.
     */
    method Store(calls: seq<PutCall>) returns (taken: nat)
      requires Valid() && Held() == []
      modifies this`len, store
      ensures Valid() && taken <= |calls| && Held() == Joined(calls[..taken])
      ensures forall i :: 0 <= i < taken ==> AnswerAt(MemorySink(), calls, 0, i)
      ensures taken < |calls| ==> !AnswerAt(MemorySink(), calls, 0, taken)
    {
      taken := 0;
      while taken < |calls|
        invariant Valid() && taken <= |calls| && Held() == Joined(calls[..taken])
        invariant forall i :: 0 <= i < taken ==> AnswerAt(MemorySink(), calls, 0, i)
      {
        JoinedSnoc(calls, taken);
        var ok := MemoryPut(calls[taken].bytes);
        if !ok {
          return;
        }
        taken := taken + 1;
      }
    }
  }

  /** What a sink answers to call `i` of a put that started with `sent` bytes behind it. */
  predicate AnswerAt(accept: Sink, calls: seq<PutCall>, sent: nat, i: nat)
    requires i < |calls|
  {
    accept(sent + |Joined(calls[..i])|, calls[i].bytes, calls[i].final)
  }

  lemma {:induction false} JoinedSnoc(calls: seq<PutCall>, i: nat)
    requires i < |calls|
    ensures Joined(calls[..i + 1]) == Joined(calls[..i]) + calls[i].bytes
  {
    if i == 0 {
      assert calls[..1][1..] == [];
      assert calls[0].bytes + [] == [] + calls[0].bytes;
    } else {
      JoinedSnoc(calls[1..], i - 1);
      assert calls[..i + 1][1..] == calls[1..][..i] && calls[..i][1..] == calls[1..][..i - 1];
      var head, mid := calls[0].bytes, Joined(calls[1..][..i - 1]);
      assert head + (mid + calls[i].bytes) == head + mid + calls[i].bytes;
    }
  }

  /** Every call of a put but the last was accepted at the offset reached, and so was the last if the put is done. */
  lemma {:induction false} PutCallsAreAccepted(read: Reader, accept: Sink, total: nat, sent: nat, i: nat)
    requires sent <= total && i < |PutFrom(read, accept, total, sent).calls|
    ensures var run := PutFrom(read, accept, total, sent);
            i < |run.calls| - 1 || run.status == Done ==> AnswerAt(accept, run.calls, sent, i)
    decreases total - sent
  {
    var run := PutFrom(read, accept, total, sent);
    var bytes := read(sent, Asked(total, sent));
    if i > 0 {
      PutCallsAreAccepted(read, accept, total, sent + |bytes|, i - 1);
      var rest := PutFrom(read, accept, total, sent + |bytes|).calls;
      assert run.calls[..i][1..] == rest[..i - 1];
    } else {
      assert run.calls[..0] == [];
    }
  }

  /**
   * The round trip: a body of at most 64 KiB, put under arbitrary short reads into an empty in-memory
   * provider and then got back, is written out byte for byte. The put's calls are made on the provider
   * behind the loop; it takes every one, which is what the loop was answered.
   */
  method PutThenGet(relay: RelayLite, bucket: string, key: string, body: seq<Byte>, read: Reader, write: Writer)
    returns (put: Status, got: Status, written: seq<Byte>, calls: seq<PutCall>, taken: nat)
    requires !relay.busy && bucket != "" && key != ""
    requires |body| <= MAX_OBJECT_BYTES && Delivers(read, body) && WritesAll(write)
    modifies relay
    ensures put == Done && got == Done && written == body && !relay.busy
    ensures taken == |calls| && forall i :: 0 <= i < |calls| ==> AnswerAt(MemorySink(), calls, 0, i)
  {
    hide AnswerAt, MemorySink, MemorySource, PutFrom, GetFrom, Joined, Delivers, WritesAll;
    var memory := new MemoryProvider();
    put, calls := relay.Put(Some(bucket), Some(key), |body|, Some(read), MemorySink());
    PutDeliversBody(read, body, 0);
    assert body[0..] == body;
    forall i | 0 <= i < |calls|
      ensures AnswerAt(MemorySink(), calls, 0, i)
    {
      PutCallsAreAccepted(read, MemorySink(), |body|, 0, i);
    }
    taken := memory.Store(calls);
    assert calls[..|calls|] == calls;
    GetReturnsHeld(body, write, 0);
    var attempts: nat;
    var held := memory.store[..memory.len];
    got, written, attempts := relay.Get(Some(bucket), Some(key), MemorySource(held), Some(write));
  }

  // ----- why a loop ends -----

  /** What the source answers first behind the bytes a get has written so far. */
  function ReplyBehind(source: Source, offset: nat, written: seq<Byte>): GetReply {
    source(offset + |written|, CHUNK_BYTES)
  }

  /**
   * A get that does not end well ends at the first reply behind what it has written: over the chunk or the
   * object limit, refused, not taken whole by the writer, or empty without being the last.
   */
  lemma {:induction false} GetStopsFor(source: Source, write: Writer, offset: nat)
    requires offset <= MAX_OBJECT_BYTES
    ensures var run := GetFrom(source, write, offset);
            var reply := ReplyBehind(source, offset, run.written);
            var at, n := offset + |run.written|, |reply.bytes|;
            && run.status in {Done, Limit, ProviderError}
            && (run.status == Limit ==> reply.ok && (n > CHUNK_BYTES || at + n > MAX_OBJECT_BYTES))
            && (run.status == ProviderError ==>
                  !reply.ok || (n > 0 && write(at, reply.bytes) != n) || (n == 0 && !reply.final))
    decreases MAX_OBJECT_BYTES - offset
  {
    var reply := source(offset, CHUNK_BYTES);
    var n := |reply.bytes|;
    if reply.ok && 0 < n <= CHUNK_BYTES && offset + n <= MAX_OBJECT_BYTES && write(offset, reply.bytes) == n
       && !reply.final {
      GetStopsFor(source, write, offset + n);
    }
  }

  /** A reply at the start that is refused, too long, not taken or empty ends a get at once, with its status. */
  lemma BadReplyEndsGet(source: Source, write: Writer, offset: nat)
    requires offset <= MAX_OBJECT_BYTES
    ensures var reply := source(offset, CHUNK_BYTES);
            var n := |reply.bytes|;
            && (!reply.ok ==> GetFrom(source, write, offset) == GetRun(ProviderError, [], 1))
            && (reply.ok && (n > CHUNK_BYTES || offset + n > MAX_OBJECT_BYTES) ==>
                  GetFrom(source, write, offset) == GetRun(Limit, [], 1))
            && (reply.ok && 0 < n <= CHUNK_BYTES && offset + n <= MAX_OBJECT_BYTES && write(offset, reply.bytes) != n
                ==> GetFrom(source, write, offset) == GetRun(ProviderError, [], 1))
            && (reply.ok && n == 0 && !reply.final ==> GetFrom(source, write, offset) == GetRun(ProviderError, [], 1))
            && (reply.ok && n == 0 && reply.final ==> GetFrom(source, write, offset) == GetRun(Done, [], 1))
  {
  }

  /** The bytes read behind those sent are none or more than asked for. */
  predicate BadRead(read: Reader, total: nat, at: nat) {
    at < total && (read(at, Asked(total, at)) == [] || |read(at, Asked(total, at))| > Asked(total, at))
  }

  /** A put is done with all bytes sent, or fails at a bad read or at a last chunk that was refused. */
  predicate PutEnds(read: Reader, accept: Sink, total: nat, sent: nat, run: PutRun) {
    match run.status
    case Done => sent + |Joined(run.calls)| == total
    case ProviderError =>
      || (run.calls != [] && !AnswerAt(accept, run.calls, sent, |run.calls| - 1))
      || BadRead(read, total, sent + |Joined(run.calls)|)
    case _ => false
  }

  lemma OneCallEarlier(read: Reader, accept: Sink, total: nat, sent: nat, call: PutCall, rest: PutRun)
    requires PutEnds(read, accept, total, sent + |call.bytes|, rest)
    ensures PutEnds(read, accept, total, sent, PutRun(rest.status, [call] + rest.calls))
  {
    hide BadRead;
    var calls := [call] + rest.calls;
    assert calls[1..] == rest.calls;
    if rest.calls != [] {
      assert calls[..|calls| - 1][1..] == rest.calls[..|rest.calls| - 1];
    }
  }

  lemma {:induction false} PutStopsFor(read: Reader, accept: Sink, total: nat, sent: nat)
    requires sent <= total
    ensures PutEnds(read, accept, total, sent, PutFrom(read, accept, total, sent))
    decreases total - sent
  {
    var bytes := read(sent, Asked(total, sent));
    if sent < total && bytes != [] && |bytes| <= Asked(total, sent) {
      var call := PutCall(bytes, sent + |bytes| == total);
      if accept(sent, bytes, call.final) {
        hide PutEnds;
        PutStopsFor(read, accept, total, sent + |bytes|);
        OneCallEarlier(read, accept, total, sent, call, PutFrom(read, accept, total, sent + |bytes|));
      } else {
        assert [call][..0] == [];
      }
    }
  }
}
