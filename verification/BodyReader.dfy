/** Reading fixed-size parts out of a stream of arbitrary chunks. */
module BodyReader {
  import opened Results
  import opened Json
  import opened Words

  /** One item of the stream: a chunk, possibly empty, or a failure. */
  datatype Item = Chunk(bytes: seq<Byte>) | Broken(error: BlobError)

  /** The bytes a stream delivers before it ends or breaks. */
  function Deliverable(stream: seq<Item>): seq<Byte> {
    if stream == [] || stream[0].Broken? then [] else stream[0].bytes + Deliverable(stream[1..])
  }

  /** The first failure of a stream, if it has one. */
  function Breakage(stream: seq<Item>): Option<BlobError> {
    if stream == [] then None
    else if stream[0].Broken? then Some(stream[0].error)
    else Breakage(stream[1..])
  }

  /** What is left of a stream behind its first failure. */
  function BehindBreakage(stream: seq<Item>): seq<Item> {
    if stream == [] then [] else if stream[0].Broken? then stream[1..] else BehindBreakage(stream[1..])
  }

  function EndedEarly(context: string): BlobError {
    BodyStream(context + " ended early")
  }

  function Overlong(context: string): BlobError {
    BodyStream(context + " produced more bytes than declared")
  }

  class BufferedObjectBodyReader {
    var stream: seq<Item>
    var pending: seq<Byte>

    /** Every byte still to come before the stream ends or breaks. */
    ghost function Available(): seq<Byte>
      reads this
    {
      pending + Deliverable(stream)
    }

    constructor (body: seq<Item>)
      ensures stream == body && pending == [] && Available() == Deliverable(body)
    {
      stream, pending := body, [];
    }

    /**
     * Returns exactly the next `target` bytes when that many are still to come; otherwise fails with
     * the stream's failure, or for want of bytes, and has consumed everything up to there.
     */
    method ReadPart(target: nat, context: string) returns (r: Result<seq<Byte>, BlobError>)
      modifies this
      ensures r.Ok? <==> target <= |old(Available())|
      ensures r.Ok? ==> r.value == old(Available())[..target] && Available() == old(Available())[target..]
      ensures r.Ok? ==> Breakage(stream) == old(Breakage(stream))
      ensures r.Ok? ==> BehindBreakage(stream) == old(BehindBreakage(stream))
      ensures r.Err? ==> r.error == if old(Breakage(stream)).Some? then old(Breakage(stream)).value else
                EndedEarly(context)
      ensures r.Err? ==> pending == [] && stream == old(BehindBreakage(stream))
      ensures target == 0 ==> stream == old(stream) && pending == old(pending)
    {
      hide Deliverable, Breakage, BehindBreakage;
      ghost var all := Available();
      var remaining := target;
      var buffer: seq<Byte> := [];
      assert [] + all == all;
      while remaining > 0
        invariant |buffer| + remaining == target && remaining >= 0
        invariant all == buffer + Available()
        invariant Breakage(stream) == old(Breakage(stream)) && BehindBreakage(stream) == old(BehindBreakage(stream))
        invariant target == 0 ==> stream == old(stream) && pending == old(pending)
        decreases remaining, |stream|
      {
        if pending == [] {
          var pulled := PullChunk(context);
          if pulled.Fail? {
            return Err(pulled.error);
          }
          if pending == [] {
            continue;
          }
        }
        var take := if remaining < |pending| then remaining else |pending|;
        TakeMore(all, buffer, pending, Deliverable(stream), take);
        buffer := buffer + pending[..take];
        pending := pending[take..];
        remaining := remaining - take;
      }
      SplitAt(all, buffer, Available());
      return Ok(buffer);
    }

    /** Takes the next item of the stream into the empty buffer. */
    method PullChunk(context: string) returns (r: Outcome<BlobError>)
      requires pending == []
      modifies this
      ensures r.Pass? ==> Available() == old(Available()) && |stream| < |old(stream)|
      ensures r.Pass? ==> Breakage(stream) == old(Breakage(stream))
      ensures r.Pass? ==> BehindBreakage(stream) == old(BehindBreakage(stream))
      ensures r.Fail? ==> old(Available()) == [] && pending == [] && stream == old(BehindBreakage(stream))
      ensures r.Fail? ==> r.error == if old(Breakage(stream)).Some? then old(Breakage(stream)).value else
                EndedEarly(context)
    {
      if stream == [] {
        return Fail(EndedEarly(context));
      }
      var item := stream[0];
      stream := stream[1..];
      if item.Broken? {
        return Fail(item.error);
      }
      pending := item.bytes;
      return Pass;
    }

    /** Succeeds exactly when nothing is left, neither bytes nor a failure. */
    method EnsureExhausted(context: string) returns (r: Outcome<BlobError>)
      modifies this
      ensures r.Pass? <==> old(Available()) == [] && old(Breakage(stream)).None?
      ensures r.Fail? ==> r.error == if old(Available()) != [] then Overlong(context) else old(Breakage(stream)).value
    {
      if pending != [] {
        return Fail(Overlong(context));
      }
      while stream != []
        invariant pending == []
        invariant Deliverable(stream) == old(Deliverable(stream)) && Breakage(stream) == old(Breakage(stream))
        decreases |stream|
      {
        var item := stream[0];
        stream := stream[1..];
        if item.Broken? {
          return Fail(item.error);
        }
        if item.bytes != [] {
          return Fail(Overlong(context));
        }
      }
      return Pass;
    }

    /** A whole schedule of parts, read one after another. */
    method ReadParts(lengths: seq<nat>, context: string) returns (parts: seq<Result<seq<Byte>, BlobError>>)
      requires Breakage(stream).None?
      modifies this
      ensures parts == Parts(old(Available()), lengths, context)
      ensures Breakage(stream).None? && Available() == LeftBy(old(Available()), lengths)
    {
      parts := [];
      ghost var all := Available();
      assert lengths[0..] == lengths;
      for i := 0 to |lengths|
        invariant Breakage(stream).None?
        invariant Parts(all, lengths, context) == parts + Parts(Available(), lengths[i..], context)
        invariant LeftBy(all, lengths) == LeftBy(Available(), lengths[i..])
      {
        assert lengths[i..][1..] == lengths[i + 1..];
        UnbrokenHasNothingBehind(stream);
        var part := ReadPart(lengths[i], context);
        parts := parts + [part];
      }
    }
  }

  /** Moving `take` bytes from the front of `pending` to the end of `done`. */
  lemma TakeMore(all: seq<Byte>, done: seq<Byte>, pending: seq<Byte>, tail: seq<Byte>, take: nat)
    requires all == done + (pending + tail) && take <= |pending|
    ensures all == (done + pending[..take]) + (pending[take..] + tail)
  {
    assert pending == pending[..take] + pending[take..];
  }

  lemma SplitAt(all: seq<Byte>, done: seq<Byte>, rest: seq<Byte>)
    requires all == done + rest
    ensures done == all[..|done|] && rest == all[|done|..]
  {
  }

  lemma {:induction false} UnbrokenHasNothingBehind(stream: seq<Item>)
    requires Breakage(stream).None?
    ensures BehindBreakage(stream) == []
  {
    if stream != [] {
      UnbrokenHasNothingBehind(stream[1..]);
    }
  }

  // ----- a schedule of parts over the bytes alone -----

  /** The outcomes of reading parts of the given lengths out of `bytes`. */
  function Parts(bytes: seq<Byte>, lengths: seq<nat>, context: string): seq<Result<seq<Byte>, BlobError>>
    decreases |lengths|
  {
    if lengths == [] then []
    else if lengths[0] <= |bytes| then
      [Ok(bytes[..lengths[0]])] + Parts(bytes[lengths[0]..], lengths[1..], context)
    else [Err(EndedEarly(context))] + Parts([], lengths[1..], context)
  }

  function LeftBy(bytes: seq<Byte>, lengths: seq<nat>): seq<Byte>
    decreases |lengths|
  {
    if lengths == [] then bytes
    else LeftBy(if lengths[0] <= |bytes| then bytes[lengths[0]..] else [], lengths[1..])
  }

  function Total(lengths: seq<nat>): nat {
    if lengths == [] then 0 else lengths[0] + Total(lengths[1..])
  }

  function Joined(parts: seq<Result<seq<Byte>, BlobError>>): seq<Byte> {
    if parts == [] then [] else (if parts[0].Ok? then parts[0].value else []) + Joined(parts[1..])
  }

  ghost predicate AllOk(parts: seq<Result<seq<Byte>, BlobError>>) {
    forall i :: 0 <= i < |parts| ==> parts[i].Ok?
  }

  lemma AllOkCons(part: Result<seq<Byte>, BlobError>, rest: seq<Result<seq<Byte>, BlobError>>)
    ensures AllOk([part] + rest) <==> part.Ok? && AllOk(rest)
    ensures Joined([part] + rest) == (if part.Ok? then part.value else []) + Joined(rest)
  {
    var all := [part] + rest;
    assert all[1..] == rest;
    if AllOk(all) {
      assert all[0].Ok?;
      assert forall i :: 0 <= i < |rest| ==> rest[i] == all[i + 1];
    }
  }

  lemma SliceBehind(bytes: seq<Byte>, n: nat, m: nat)
    requires n + m <= |bytes|
    ensures bytes[..n] + bytes[n..][..m] == bytes[..n + m] && bytes[n..][m..] == bytes[n + m..]
  {
  }

  /** All parts succeed exactly when enough bytes remain, and then they are consecutive slices of them. */
  lemma {:induction false} PartsAreConsecutive(bytes: seq<Byte>, lengths: seq<nat>, context: string)
    ensures var parts := Parts(bytes, lengths, context);
            && |parts| == |lengths|
            && (AllOk(parts) <==> Total(lengths) <= |bytes|)
            && (Total(lengths) <= |bytes| ==>
                  Joined(parts) == bytes[..Total(lengths)] && LeftBy(bytes, lengths) == bytes[Total(lengths)..])
    decreases |lengths|
  {
    hide AllOk, Joined;
    if lengths != [] {
      var n := lengths[0];
      var rest := if n <= |bytes| then bytes[n..] else [];
      var part := if n <= |bytes| then Ok(bytes[..n]) else Err(EndedEarly(context));
      PartsAreConsecutive(rest, lengths[1..], context);
      AllOkCons(part, Parts(rest, lengths[1..], context));
      if Total(lengths) <= |bytes| {
        SliceBehind(bytes, n, Total(lengths[1..]));
      }
    } else {
      NoPartsAreOk();
      assert bytes[..0] == [] && bytes[0..] == bytes;
    }
  }

  lemma NoPartsAreOk()
    ensures AllOk([]) && Joined([]) == []
  {
  }

  /**
   * Chunking does not matter: two unbroken streams that carry the same bytes, however they are cut and
   * whatever empty chunks they contain, give the same parts and are exhausted alike.
   */
  method ReadBothChunkings(a: seq<Item>, b: seq<Item>, lengths: seq<nat>, context: string)
    returns (fromA: seq<Result<seq<Byte>, BlobError>>, fromB: seq<Result<seq<Byte>, BlobError>>,
             doneA: Outcome<BlobError>, doneB: Outcome<BlobError>)
    requires Breakage(a).None? && Breakage(b).None? && Deliverable(a) == Deliverable(b)
    ensures fromA == fromB && doneA == doneB
    ensures AllOk(fromA) ==> (doneA.Pass? <==> Total(lengths) == |Deliverable(a)|)
  {
    var readerA := new BufferedObjectBodyReader(a);
    var readerB := new BufferedObjectBodyReader(b);
    fromA := readerA.ReadParts(lengths, context);
    fromB := readerB.ReadParts(lengths, context);
    PartsAreConsecutive(Deliverable(a), lengths, context);
    doneA := readerA.EnsureExhausted(context);
    doneB := readerB.EnsureExhausted(context);
  }
}
