/** The percent-encoding of object paths into a fixed buffer (sections 2.1 and 2.3 of RFC 3986). */
module UriEncoder {
  import opened Results
  import opened Words

  /** A C string without its terminator. */
  type CString = s: seq<Byte> | 0 !in s

  const SLASH: Byte := 47
  const PERCENT: Byte := 37
  const MAX_BUCKET_LEN: nat := 64
  const MAX_KEY_LEN: nat := 160

  datatype Status = Fits | InvalidArg | BufferTooSmall

  predicate IsUnreserved(b: Byte) {
    65 <= b <= 90 || 97 <= b <= 122 || 48 <= b <= 57 || b == 45 || b == 95 || b == 46 || b == 126
  }

  /** Upper-case hexadecimal digits. */
  function HexDigit(n: nat): Byte
    requires n < 16
  {
    if n < 10 then 48 + n else 55 + n
  }

  function EncodeByte(b: Byte): seq<Byte> {
    if IsUnreserved(b) then [b] else [PERCENT, HexDigit(b / 16), HexDigit(b % 16)]
  }

  function Encode(s: seq<Byte>): seq<Byte> {
    if s == [] then [] else Encode(s[..|s| - 1]) + EncodeByte(s[|s| - 1])
  }

  function Uri(bucket: seq<Byte>, key: seq<Byte>): seq<Byte> {
    [SLASH] + Encode(bucket) + [SLASH] + Encode(key)
  }

  // ----- the encoder of the source -----

  method BoundedStrlen(s: CString, max: nat) returns (n: nat)
    ensures n == if |s| < max then |s| else max
  {
    n := 0;
    while n < max && n < |s|
      invariant n <= max && n <= |s|
    {
      n := n + 1;
    }
  }

  /**
   * Appends the encoding of `value` and a terminator at `used`, if both fit. The caller has room for
   * one byte at `used`; what stands before it is never touched, and nothing is written past the end.
   */
  method AppendUriPart(out: array<Byte>, used: nat, value: CString) returns (status: Status, end: nat)
    requires used < out.Length
    modifies out
    ensures status == if used + |Encode(value)| < out.Length then Fits else BufferTooSmall
    ensures status == Fits ==>
              end == used + |Encode(value)| && out[..end] == old(out[..used]) + Encode(value) && out[end] == 0
    ensures out[..used] == old(out[..used])
  {
    hide EncodeByte, IsUnreserved;
    end := used;
    var i := 0;
    while i < |value|
      invariant i <= |value| && end == used + |Encode(value[..i])| < out.Length
      invariant out[..end] == old(out[..used]) + Encode(value[..i])
    {
      EncodeGrows(value, i);
      status, end := AppendByte(out, end, value[i]);
      if status != Fits {
        assert out[..used] == out[..end][..used];
        return;
      }
      assert old(out[..used]) + Encode(value[..i]) + EncodeByte(value[i]) ==
             old(out[..used]) + (Encode(value[..i]) + EncodeByte(value[i]));
      i := i + 1;
    }
    assert value[..i] == value;
    assert out[..used] == out[..end][..used];
    out[end] := 0;
    return Fits, end;
  }

  /** One turn of the loop: the byte or its escape, if a terminator still fits behind it. */
  method AppendByte(out: array<Byte>, used: nat, ch: Byte) returns (status: Status, end: nat)
    requires used < out.Length
    modifies out
    ensures status == if used + |EncodeByte(ch)| < out.Length then Fits else BufferTooSmall
    ensures status == Fits ==> end == used + |EncodeByte(ch)| && out[..end] == old(out[..used]) + EncodeByte(ch)
    ensures status != Fits ==> end == used && out[..] == old(out[..])
  {
    end := used;
    if IsUnreserved(ch) {
      if used + 1 >= out.Length {
        return BufferTooSmall, end;
      }
      out[used] := ch;
      end := used + 1;
    } else {
      if used + 3 >= out.Length {
        return BufferTooSmall, end;
      }
      out[used] := PERCENT;
      out[used + 1] := HexDigit(ch / 16);
      out[used + 2] := HexDigit(ch % 16);
      end := used + 3;
    }
    assert out[..used] == old(out[..used]);
    return Fits, end;
  }

  lemma EncodeGrows(s: seq<Byte>, i: nat)
    requires i < |s|
    ensures Encode(s[..i + 1]) == Encode(s[..i]) + EncodeByte(s[i])
    ensures |Encode(s[..i + 1])| <= |Encode(s)|
  {
    assert s[..i + 1][..i] == s[..i];
    PrefixIsShorter(s, i + 1);
  }

  lemma {:induction false} PrefixIsShorter(s: seq<Byte>, i: nat)
    requires i <= |s|
    ensures |Encode(s[..i])| <= |Encode(s)|
  {
    if i < |s| {
      assert s[..|s| - 1][..i] == s[..i];
      PrefixIsShorter(s[..|s| - 1], i);
    } else {
      assert s[..i] == s;
    }
  }

  function IsEmpty(s: Option<CString>): bool {
    s.None? || s.value == []
  }

  /** The path succeeds exactly when the whole encoding and its terminator fit, and then it is that encoding. */
  method BuildUri(out: array<Byte>, bucket: Option<CString>, key: Option<CString>) returns (status: Status)
    modifies out
    ensures status ==
            if out.Length < 2 || IsEmpty(bucket) || IsEmpty(key) then InvalidArg
            else if |bucket.value| > MAX_BUCKET_LEN || |key.value| > MAX_KEY_LEN then BufferTooSmall
            else if |Uri(bucket.value, key.value)| + 1 <= out.Length then Fits
            else BufferTooSmall
    ensures status == Fits ==>
              var uri := Uri(bucket.value, key.value);
              |uri| < out.Length && out[..|uri|] == uri && out[|uri|] == 0
  {
    if out.Length < 2 || IsEmpty(bucket) || IsEmpty(key) {
      return InvalidArg;
    }
    var bucketLen := BoundedStrlen(bucket.value, MAX_BUCKET_LEN + 1);
    var keyLen := BoundedStrlen(key.value, MAX_KEY_LEN + 1);
    if bucketLen > MAX_BUCKET_LEN || keyLen > MAX_KEY_LEN {
      return BufferTooSmall;
    }
    hide Encode;
    out[0] := SLASH;
    out[1] := 0;
    assert out[..1] == [SLASH];
    var used: nat;
    status, used := AppendUriPart(out, 1, bucket.value);
    if status != Fits {
      return BufferTooSmall;
    }
    if used + 1 >= out.Length {
      return BufferTooSmall;
    }
    out[used] := SLASH;
    used := used + 1;
    out[used] := 0;
    assert out[..used] == [SLASH] + Encode(bucket.value) + [SLASH];
    status, used := AppendUriPart(out, used, key.value);
  }

  // ----- decoding -----

  predicate IsHexDigit(b: Byte) {
    48 <= b <= 57 || 65 <= b <= 70
  }

  function HexValue(b: Byte): nat
    requires IsHexDigit(b)
  {
    if b <= 57 then b - 48 else b - 55
  }

  /** Reads one encoded part back: escapes become their byte, unreserved bytes stand for themselves. */
  function Decode(s: seq<Byte>): Option<seq<Byte>> {
    if s == [] then Some([])
    else if s[0] == PERCENT then
      if |s| < 3 || !IsHexDigit(s[1]) || !IsHexDigit(s[2]) then None
      else
        var b := 16 * HexValue(s[1]) + HexValue(s[2]);
        match Decode(s[3..])
        case None => None
        case Some(rest) => Some([b] + rest)
    else if !IsUnreserved(s[0]) then None
    else
      match Decode(s[1..])
      case None => None
      case Some(rest) => Some([s[0]] + rest)
  }

  /** The position of the first slash, or the length when there is none. */
  function FirstSlash(s: seq<Byte>): (i: nat)
    ensures i <= |s|
  {
    if s == [] || s[0] == SLASH then 0 else 1 + FirstSlash(s[1..])
  }

  /** Splits a path at its second slash and decodes both parts. */
  function DecodeUri(uri: seq<Byte>): Option<(seq<Byte>, seq<Byte>)> {
    if uri == [] || uri[0] != SLASH || FirstSlash(uri[1..]) == |uri| - 1 then None
    else
      var path, cut := uri[1..], FirstSlash(uri[1..]);
      var bucket, key := Decode(path[..cut]), Decode(path[cut + 1..]);
      if bucket.Some? && key.Some? then Some((bucket.value, key.value)) else None
  }

  lemma DecodeByte(b: Byte, rest: seq<Byte>)
    requires Decode(rest).Some?
    ensures Decode(EncodeByte(b) + rest) == Some([b] + Decode(rest).value)
  {
    var s := EncodeByte(b) + rest;
    if IsUnreserved(b) {
      assert s[0] == b && s[1..] == rest;
    } else {
      assert s[0] == PERCENT && s[1] == HexDigit(b / 16) && s[2] == HexDigit(b % 16) && s[3..] == rest;
      assert HexValue(HexDigit(b / 16)) == b / 16 && HexValue(HexDigit(b % 16)) == b % 16;
    }
  }

  lemma {:induction false} DecodeAfterEncode(s: seq<Byte>, rest: seq<Byte>)
    requires Decode(rest).Some?
    ensures Decode(Encode(s) + rest) == Some(s + Decode(rest).value)
    decreases |s|
  {
    hide EncodeByte, Decode;
    if s == [] {
      assert [] + rest == rest && [] + Decode(rest).value == Decode(rest).value;
    } else {
      var init, last := s[..|s| - 1], s[|s| - 1];
      DecodeByte(last, rest);
      DecodeAfterEncode(init, EncodeByte(last) + rest);
      assert Encode(s) + rest == Encode(init) + (EncodeByte(last) + rest);
      assert s + Decode(rest).value == init + ([last] + Decode(rest).value);
    }
  }

  lemma EncodedPartDecodes(s: seq<Byte>)
    ensures Decode(Encode(s)) == Some(s)
  {
    DecodeAfterEncode(s, []);
    assert Encode(s) + [] == Encode(s) && s + [] == s;
  }

  /** Encoding leaves only unreserved bytes, percent signs and upper-case hexadecimal digits. */
  lemma {:induction false} EncodedBytesAreSafe(s: seq<Byte>)
    ensures forall b :: b in Encode(s) ==> IsUnreserved(b) || b == PERCENT
  {
    if s != [] {
      EncodedBytesAreSafe(s[..|s| - 1]);
    }
  }

  lemma {:induction false} FirstSlashBehind(a: seq<Byte>, b: seq<Byte>)
    requires SLASH !in a
    ensures FirstSlash(a + [SLASH] + b) == |a|
  {
    if a == [] {
      assert (a + [SLASH] + b)[0] == SLASH;
    } else {
      assert (a + [SLASH] + b)[1..] == a[1..] + [SLASH] + b;
      FirstSlashBehind(a[1..], b);
    }
  }

  /** The path decodes to the very bucket and key it was built from. */
  lemma UriDecodes(bucket: seq<Byte>, key: seq<Byte>)
    ensures DecodeUri(Uri(bucket, key)) == Some((bucket, key))
  {
    hide Encode, Decode, FirstSlash;
    var a, b := Encode(bucket), Encode(key);
    EncodedBytesAreSafe(bucket);
    FirstSlashBehind(a, b);
    EncodedPartDecodes(bucket);
    EncodedPartDecodes(key);
    var path := Uri(bucket, key)[1..];
    assert path == a + [SLASH] + b;
    assert path[..|a|] == a && path[|a| + 1..] == b;
  }

  /** Different objects get different paths, and no path holds a terminator of its own. */
  lemma UriIsInjective(bucket: seq<Byte>, key: seq<Byte>, bucket': seq<Byte>, key': seq<Byte>)
    ensures Uri(bucket, key) == Uri(bucket', key') <==> bucket == bucket' && key == key'
    ensures 0 !in Uri(bucket, key)
  {
    hide Encode, DecodeUri;
    UriDecodes(bucket, key);
    UriDecodes(bucket', key');
    EncodedBytesAreSafe(bucket);
    EncodedBytesAreSafe(key);
  }

  // ----- which bytes stand for themselves -----

  /**
   * Letters, digits and four marks stand for themselves (section 2.3 of RFC 3986); any other byte is a
   * percent sign and two upper-case hexadecimal digits, the high half first (section 2.1).
   */
  lemma BytesAreEncoded(b: Byte)
    ensures var c := b as char;
            if 'A' <= c <= 'Z' || 'a' <= c <= 'z' || '0' <= c <= '9' || c == '-' || c == '_' || c == '.' || c == '~'
            then EncodeByte(b) == [b]
            else EncodeByte(b) == ['%' as int, "0123456789ABCDEF"[b / 16] as int, "0123456789ABCDEF"[b % 16] as int]
  {
    DigitsAreHex(b / 16);
    DigitsAreHex(b % 16);
  }

  lemma DigitsAreHex(n: nat)
    requires n < 16
    ensures HexDigit(n) == "0123456789ABCDEF"[n] as int
  {
  }
}
