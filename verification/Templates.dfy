/**
 * The `{{namespace.key}}` templates of browser flows: a cursor loop over the raw text,
 * proved equal to a grammar of literals and holes.
 */
module Templates {
  import opened Results
  import opened Text
  import opened Json

  datatype Context = Context(inputs: map<string, Value>, runtime: map<string, Value>)

  // ----- the grammar -----

  datatype Piece = Literal(text: string) | Hole(inner: string)

  function PieceText(p: Piece): string {
    match p
    case Literal(t) => t
    case Hole(u) => "{{" + u + "}}"
  }

  /** The concrete text of a list of pieces. */
  function Unparse(ps: seq<Piece>): string {
    if ps == [] then "" else PieceText(ps[0]) + Unparse(ps[1..])
  }

  /**
   * A reading of a template: literals are maximal and never open a hole, and a hole ends at the
   * first "}}" behind its opening.
   */
  ghost predicate Canonical(ps: seq<Piece>) {
    ps != [] ==>
      && Canonical(ps[1..])
      && match ps[0]
         case Literal(t) =>
           && t != ""
           && (if |ps| == 1 then !HasPair(t, '{')
               else ps[1].Hole? && FirstPair(t + "{{", '{') == |t|)
         case Hole(u) => FirstPair(u + "}}", '}') == |u|
  }

  /** The pieces found before the text ends (`closed`) or before a "{{" that is never closed. */
  datatype Scanned = Scanned(pieces: seq<Piece>, closed: bool)

  function Scan(raw: string): Scanned {
    var start := FirstPair(raw, '{');
    if start == |raw| then Scanned(if raw == "" then [] else [Literal(raw)], true)
    else
      var rest := raw[start + 2..];
      var end := FirstPair(rest, '}');
      if end == |rest| then Scanned([], false)
      else
        var tail := Scan(rest[end + 2..]);
        Scanned(LiteralIfAny(raw[..start]) + [Hole(rest[..end])] + tail.pieces, tail.closed)
  }

  function LiteralIfAny(t: string): seq<Piece> {
    if t == "" then [] else [Literal(t)]
  }

  // ----- the values -----

  function Lookup(token: string, context: Context): Result<Value, BlobError> {
    match SplitOnce(token, '.')
    case None => Err(Configuration(UnsupportedReference(token)))
    case Some((namespace, key)) =>
      if Blank(key) then Err(Configuration(MissingKey(token)))
      else if namespace == "inputs" then
        if key in context.inputs then Ok(context.inputs[key]) else Err(Configuration(MissingValue(token)))
      else if namespace == "runtime" then
        if key in context.runtime then Ok(context.runtime[key]) else Err(Configuration(MissingValue(token)))
      else Err(Configuration(UnsupportedNamespace(token)))
  }

  function ScalarText(token: string, v: Value): Result<string, BlobError> {
    match v
    case Null => Err(Configuration(NullTemplate(token)))
    case String(s) => Ok(s)
    case Bool(b) => Ok(BoolText(b))
    case Number(n) => Ok(n)
    case _ => Err(Configuration(NonScalarTemplate(token)))
  }

  datatype Segment = Text(text: string) | Placeholder(token: string, value: Value)

  function ResolvePiece(p: Piece, context: Context): Result<Segment, BlobError> {
    match p
    case Literal(t) => Ok(Text(t))
    case Hole(u) =>
      var v :- Lookup(Trim(u), context);
      Ok(Placeholder(Trim(u), v))
  }

  function Resolve(ps: seq<Piece>, context: Context): Result<seq<Segment>, BlobError> {
    if ps == [] then Ok([])
    else
      var head :- ResolvePiece(ps[0], context);
      var tail :- Resolve(ps[1..], context);
      Ok([head] + tail)
  }

  function SegmentText(s: Segment): Result<string, BlobError> {
    match s
    case Text(t) => Ok(t)
    case Placeholder(token, v) => ScalarText(token, v)
  }

  function Render(segments: seq<Segment>): Result<string, BlobError> {
    if segments == [] then Ok("")
    else
      var head :- SegmentText(segments[0]);
      var tail :- Render(segments[1..]);
      Ok(head + tail)
  }

  /** A lone placeholder keeps its JSON value; anything else is rendered as text. */
  function Assemble(segments: seq<Segment>): Result<Value, BlobError> {
    if |segments| == 1 && segments[0].Placeholder? then Ok(segments[0].value)
    else
      var text :- Render(segments);
      Ok(String(text))
  }

  /** What a template means. */
  function Meaning(raw: string, context: Context): Result<Value, BlobError> {
    var segments :- Resolve(Scan(raw).pieces, context);
    if Scan(raw).closed then Assemble(segments) else Err(Configuration(UnterminatedTemplate(raw)))
  }

  function Prepend(done: seq<Segment>, rest: Result<seq<Segment>, BlobError>): Result<seq<Segment>, BlobError> {
    if rest.Ok? then Ok(done + rest.value) else rest
  }

  /** What the cursor loop has established: `segments` are the resolved pieces before `cursor`. */
  ghost predicate ScannedTo(raw: string, cursor: nat, segments: seq<Segment>, context: Context)
    requires cursor <= |raw|
  {
    && Scan(raw).closed == Scan(raw[cursor..]).closed
    && Resolve(Scan(raw).pieces, context) == Prepend(segments, Resolve(Scan(raw[cursor..]).pieces, context))
  }

  /** The cursor loop of the source. */
  method BindTemplateValue(raw: string, context: Context) returns (r: Result<Value, BlobError>)
    ensures r == Meaning(raw, context)
  {
    hide Scan, Lookup, Trim, Render, Prepend, Resolve;
    var segments: seq<Segment> := [];
    var cursor := 0;
    var start := FirstPair(raw, '{');
    assert raw[..] == raw[0..] == raw;
    PrependNone(Resolve(Scan(raw).pieces, context));
    while start < |raw|
      invariant 0 <= cursor <= |raw|
      invariant start == cursor + FirstPair(raw[cursor..], '{')
      invariant ScannedTo(raw, cursor, segments, context)
      invariant segments == [] ==> cursor == 0
      decreases |raw| - cursor
    {
      var tokenStart := start + 2;
      var length := FirstPair(raw[tokenStart..], '}');
      if length == |raw[tokenStart..]| {
        StaysOpen(raw, cursor, segments, context);
        return Err(Configuration(UnterminatedTemplate(raw)));
      }
      var tokenEnd := tokenStart + length;
      AdvanceCursor(raw, cursor, segments, start, tokenEnd, context);
      ghost var before := segments;
      if start > cursor {
        segments := segments + [Text(raw[cursor..start])];
      }
      assert segments == before + TextIfAny(raw[cursor..start]);
      var token := Trim(raw[tokenStart..tokenEnd]);
      var value := Lookup(token, context);
      if value.Err? {
        return Err(value.error);
      }
      segments := segments + [Placeholder(token, value.value)];
      cursor := tokenEnd + 2;
      start := cursor + FirstPair(raw[cursor..], '{');
    }
    FinishScan(raw, cursor, segments, context);
    if segments == [] {
      return Ok(String(raw));
    }
    ghost var before := segments;
    if cursor < |raw| {
      segments := segments + [Text(raw[cursor..])];
    }
    assert segments == before + TextIfAny(raw[cursor..]);
    if |segments| == 1 && segments[0].Placeholder? {
      return Ok(segments[0].value);
    }
    var rendered := RenderSegments(segments);
    return match rendered case Ok(text) => Ok(String(text)) case Err(e) => Err(e);
  }

  method RenderSegments(segments: seq<Segment>) returns (r: Result<string, BlobError>)
    ensures r == Render(segments)
  {
    var rendered := "";
    var i := 0;
    assert segments[0..] == segments;
    AppendNothing(Render(segments));
    while i < |segments|
      invariant 0 <= i <= |segments|
      invariant Render(segments) == Append(rendered, Render(segments[i..]))
    {
      var piece := SegmentText(segments[i]);
      RenderStep(segments, i, rendered);
      if piece.Err? {
        return Err(piece.error);
      }
      rendered := rendered + piece.value;
      i := i + 1;
    }
    assert rendered + "" == rendered;
    return Ok(rendered);
  }

  function Append(done: string, rest: Result<string, BlobError>): Result<string, BlobError> {
    if rest.Ok? then Ok(done + rest.value) else rest
  }

  lemma AppendNothing(rest: Result<string, BlobError>)
    ensures Append("", rest) == rest
  {
    assert rest.Ok? ==> "" + rest.value == rest.value;
  }

  lemma RenderStep(segments: seq<Segment>, i: nat, done: string)
    requires i < |segments|
    ensures var piece := SegmentText(segments[i]);
            Append(done, Render(segments[i..])) ==
            if piece.Err? then Err(piece.error) else Append(done + piece.value, Render(segments[i + 1..]))
  {
    assert segments[i..][1..] == segments[i + 1..];
    var piece, rest := SegmentText(segments[i]), Render(segments[i + 1..]);
    if piece.Ok? && rest.Ok? {
      assert done + (piece.value + rest.value) == done + piece.value + rest.value;
    }
  }

  lemma StaysOpen(raw: string, cursor: nat, segments: seq<Segment>, context: Context)
    requires cursor <= |raw| && ScannedTo(raw, cursor, segments, context)
    requires var from := raw[cursor..]; HasPair(from, '{') && !HasPair(from[FirstPair(from, '{') + 2..], '}')
    ensures Meaning(raw, context) == Err(Configuration(UnterminatedTemplate(raw)))
  {
  }

  /** One turn of the cursor loop: a literal if there is one, then a hole. */
  lemma AdvanceCursor(raw: string, cursor: nat, segments: seq<Segment>, start: nat, tokenEnd: nat, context: Context)
    requires cursor <= |raw| && ScannedTo(raw, cursor, segments, context)
    requires start == cursor + FirstPair(raw[cursor..], '{') && start < |raw|
    requires tokenEnd == start + 2 + FirstPair(raw[start + 2..], '}') && tokenEnd < |raw|
    ensures tokenEnd + 2 <= |raw|
    ensures var token := Trim(raw[start + 2..tokenEnd]);
            var found := Lookup(token, context);
            if found.Err? then Meaning(raw, context) == Err(found.error)
            else ScannedTo(raw, tokenEnd + 2,
                           segments + TextIfAny(raw[cursor..start]) + [Placeholder(token, found.value)], context)
  {
    var t, u, rest := TurnSplits(raw, cursor, start, tokenEnd);
    AdvanceOver(raw, raw[cursor..], segments, t, u, rest, context);
  }

  lemma TurnSplits(raw: string, cursor: nat, start: nat, tokenEnd: nat) returns (t: string, u: string, rest: string)
    requires cursor <= |raw|
    requires start == cursor + FirstPair(raw[cursor..], '{') && start < |raw|
    requires tokenEnd == start + 2 + FirstPair(raw[start + 2..], '}') && tokenEnd < |raw|
    ensures tokenEnd + 2 <= |raw|
    ensures t == raw[cursor..start] && u == raw[start + 2..tokenEnd] && rest == raw[tokenEnd + 2..]
    ensures raw[cursor..] == Opened(t, u, rest) && Opens(t, u)
  {
    hide FirstPair;
    var from := raw[cursor..];
    SliceTwice(raw, cursor, start + 2);
    t, u, rest := TextSplits(from);
    SliceWithin(raw, cursor, start);
    SliceWithin(raw, start + 2, tokenEnd);
    SliceTwice(raw, start + 2, tokenEnd + 2);
  }

  lemma SliceTwice(s: string, i: nat, j: nat)
    requires i <= j <= |s|
    ensures s[i..][j - i..] == s[j..]
  {
  }

  lemma SliceWithin(s: string, i: nat, j: nat)
    requires i <= j <= |s|
    ensures s[i..][..j - i] == s[i..j]
  {
  }

  lemma AdvanceOver(raw: string, from: string, segments: seq<Segment>, t: string, u: string, rest: string,
                    context: Context)
    requires from == Opened(t, u, rest) && Opens(t, u)
    requires Scan(raw).closed == Scan(from).closed
    requires Resolve(Scan(raw).pieces, context) == Prepend(segments, Resolve(Scan(from).pieces, context))
    ensures var found := Lookup(Trim(u), context);
            if found.Err? then Meaning(raw, context) == Err(found.error)
            else
              && Scan(raw).closed == Scan(rest).closed
              && Resolve(Scan(raw).pieces, context) ==
                 Prepend(segments + TextIfAny(t) + [Placeholder(Trim(u), found.value)],
                         Resolve(Scan(rest).pieces, context))
  {
    ScanOpened(t, u, rest);
    ResolveAdvance(t, u, rest, segments, context);
  }

  lemma ResolveAdvance(t: string, u: string, rest: string, segments: seq<Segment>, context: Context)
    ensures var found := Lookup(Trim(u), context);
            Prepend(segments, Resolve(LiteralIfAny(t) + [Hole(u)] + Scan(rest).pieces, context)) ==
            if found.Err? then Err(found.error)
            else Prepend(segments + TextIfAny(t) + [Placeholder(Trim(u), found.value)],
                         Resolve(Scan(rest).pieces, context))
  {
    ResolveStep(t, u, Scan(rest).pieces, context);
    var found := Lookup(Trim(u), context);
    if found.Ok? {
      var added := TextIfAny(t) + [Placeholder(Trim(u), found.value)];
      PrependTwice(segments, added, Resolve(Scan(rest).pieces, context));
      assert segments + added == segments + TextIfAny(t) + [Placeholder(Trim(u), found.value)];
    }
  }

  lemma FinishScan(raw: string, cursor: nat, segments: seq<Segment>, context: Context)
    requires cursor <= |raw| && ScannedTo(raw, cursor, segments, context)
    requires !HasPair(raw[cursor..], '{')
    ensures Meaning(raw, context) == Assemble(segments + TextIfAny(raw[cursor..]))
    ensures segments == [] && cursor == 0 ==> Meaning(raw, context) == Ok(String(raw))
  {
    var rest := raw[cursor..];
    ResolveCons(Literal(rest), [], context);
    assert [Literal(rest)] + [] == [Literal(rest)] && [Text(rest)] + [] == [Text(rest)];
    if segments == [] && cursor == 0 {
      assert rest == raw;
      assert [] + TextIfAny(raw) == TextIfAny(raw);
      RenderLone(raw);
    }
  }

  function TextIfAny(t: string): seq<Segment> {
    if t == "" then [] else [Text(t)]
  }

  lemma ResolveCons(p: Piece, ps: seq<Piece>, context: Context)
    ensures Resolve([p] + ps, context) ==
            var head := ResolvePiece(p, context);
            if head.Err? then Err(head.error) else Prepend([head.value], Resolve(ps, context))
  {
    assert ([p] + ps)[1..] == ps;
  }

  lemma ResolveStep(literal: string, inner: string, rest: seq<Piece>, context: Context)
    ensures Resolve(LiteralIfAny(literal) + [Hole(inner)] + rest, context) ==
            var found := Lookup(Trim(inner), context);
            if found.Err? then Err(found.error)
            else Prepend(TextIfAny(literal) + [Placeholder(Trim(inner), found.value)], Resolve(rest, context))
  {
    var ps := [Hole(inner)] + rest;
    ResolveCons(Hole(inner), rest, context);
    if literal != "" {
      assert LiteralIfAny(literal) + [Hole(inner)] + rest == [Literal(literal)] + ps;
      ResolveCons(Literal(literal), ps, context);
      if Lookup(Trim(inner), context).Ok? {
        PrependTwice([Text(literal)], [Placeholder(Trim(inner), Lookup(Trim(inner), context).value)],
                     Resolve(rest, context));
      }
    } else {
      assert LiteralIfAny(literal) + [Hole(inner)] + rest == ps;
      var found := Lookup(Trim(inner), context);
      if found.Ok? {
        var hole := Placeholder(Trim(inner), found.value);
        assert TextIfAny(literal) + [hole] == [hole];
      }
    }
  }

  lemma PrependNone(rest: Result<seq<Segment>, BlobError>)
    ensures Prepend([], rest) == rest
  {
    if rest.Ok? {
      assert [] + rest.value == rest.value;
    }
  }

  lemma PrependTwice(a: seq<Segment>, b: seq<Segment>, rest: Result<seq<Segment>, BlobError>)
    ensures Prepend(a, Prepend(b, rest)) == Prepend(a + b, rest)
  {
    if rest.Ok? {
      assert a + (b + rest.value) == a + b + rest.value;
    }
  }

  // ----- the scanner finds the one reading of the grammar -----

  lemma UnparseCons(p: Piece, ps: seq<Piece>)
    ensures Unparse([p] + ps) == PieceText(p) + Unparse(ps)
  {
    assert ([p] + ps)[1..] == ps;
  }

  /** The concrete text of a hole behind an optional literal. */
  function Opened(t: string, u: string, rest: string): string {
    t + ("{{" + u + "}}" + rest)
  }

  /** The texts that put a literal `t`, then a hole `u`, in front. */
  predicate Opens(t: string, u: string) {
    FirstPair(t + "{{", '{') == |t| && FirstPair(u + "}}", '}') == |u|
  }

  /** A text with a "{{" and a later "}}" starts with an optional literal and a hole. */
  lemma TextSplits(raw: string) returns (t: string, u: string, rest: string)
    requires HasPair(raw, '{') && HasPair(raw[FirstPair(raw, '{') + 2..], '}')
    ensures raw == Opened(t, u, rest) && |rest| < |raw| && Opens(t, u)
    ensures |t| == FirstPair(raw, '{') && |u| == FirstPair(raw[|t| + 2..], '}')
    ensures t == raw[..|t|] && u == raw[|t| + 2..][..|u|] && rest == raw[|t| + 2..][|u| + 2..]
  {
    hide FirstPair;
    var start := FirstPair(raw, '{');
    var behind := raw[start + 2..];
    var end := FirstPair(behind, '}');
    t, u, rest := raw[..start], behind[..end], behind[end + 2..];
    FirstPairWithin(raw, '{');
    FirstPairWithin(behind, '}');
    assert behind == u + "}}" + rest;
    assert raw == t + ("{{" + behind);
    assert "{{" + u + "}}" + rest == "{{" + behind;
  }

  lemma ScanSplits(raw: string) returns (t: string, u: string, rest: string)
    requires HasPair(raw, '{') && HasPair(raw[FirstPair(raw, '{') + 2..], '}')
    ensures raw == Opened(t, u, rest) && |rest| < |raw| && Opens(t, u)
    ensures |t| == FirstPair(raw, '{') && |u| == FirstPair(raw[|t| + 2..], '}')
    ensures t == raw[..|t|] && u == raw[|t| + 2..][..|u|] && rest == raw[|t| + 2..][|u| + 2..]
    ensures Scan(raw) == Scanned(LiteralIfAny(t) + [Hole(u)] + Scan(rest).pieces, Scan(rest).closed)
  {
    t, u, rest := TextSplits(raw);
    ScanOpened(t, u, rest);
  }

  lemma CanonicalCons(t: string, u: string, rest: seq<Piece>)
    requires Opens(t, u) && Canonical(rest)
    ensures Canonical(LiteralIfAny(t) + [Hole(u)] + rest)
    ensures Unparse(LiteralIfAny(t) + [Hole(u)] + rest) == Opened(t, u, Unparse(rest))
  {
    var hole := [Hole(u)] + rest;
    assert hole[1..] == rest;
    assert Canonical(hole);
    UnparseCons(Hole(u), rest);
    if t != "" {
      var all := [Literal(t)] + hole;
      assert all[1..] == hole;
      assert Canonical(all);
      UnparseCons(Literal(t), hole);
      assert LiteralIfAny(t) + [Hole(u)] + rest == all;
    } else {
      assert LiteralIfAny(t) + [Hole(u)] + rest == hole;
      assert "" + Unparse(hole) == Unparse(hole);
    }
  }

  /** What the scanner returns for a closed text is a reading of that text. */
  lemma {:induction false} ScanReads(raw: string)
    requires Scan(raw).closed
    ensures Canonical(Scan(raw).pieces) && Unparse(Scan(raw).pieces) == raw
    decreases |raw|
  {
    if HasPair(raw, '{') {
      var t, u, rest := ScanSplits(raw);
      ScanReads(rest);
      CanonicalCons(t, u, Scan(rest).pieces);
    } else if raw != "" {
      UnparseCons(Literal(raw), []);
      assert [Literal(raw)] == [Literal(raw)] + [];
      assert raw + "" == raw;
      assert Canonical([Literal(raw)][1..]);
    }
  }

  /** Every reading is what the scanner returns for its text. */
  lemma {:induction false} ReadingIsScanned(ps: seq<Piece>)
    requires Canonical(ps)
    ensures Scan(Unparse(ps)) == Scanned(ps, true)
    decreases |ps|
  {
    if ps == [] {
    } else if |ps| == 1 && ps[0].Literal? {
      LastLiteralIsScanned(ps[0].text);
      assert ps == [Literal(ps[0].text)];
    } else {
      var t, u, rest := CanonicalSplits(ps);
      ReadingIsScanned(rest);
      HoleIsScanned(t, u, rest);
    }
  }

  lemma LastLiteralIsScanned(t: string)
    requires t != "" && !HasPair(t, '{')
    ensures Scan(Unparse([Literal(t)])) == Scanned([Literal(t)], true)
  {
    UnparseCons(Literal(t), []);
    assert [Literal(t)] == [Literal(t)] + [];
    assert t + "" == t;
  }

  lemma CanonicalSplits(ps: seq<Piece>) returns (t: string, u: string, rest: seq<Piece>)
    requires Canonical(ps) && ps != [] && (|ps| == 1 ==> ps[0].Hole?)
    ensures Opens(t, u) && Canonical(rest) && |rest| < |ps|
    ensures ps == LiteralIfAny(t) + [Hole(u)] + rest
  {
    if ps[0].Hole? {
      t, u, rest := "", ps[0].inner, ps[1..];
    } else {
      assert ps[1..][0] == ps[1] && ps[1..][1..] == ps[2..];
      t, u, rest := ps[0].text, ps[1].inner, ps[2..];
    }
  }

  lemma HoleIsScanned(t: string, u: string, rest: seq<Piece>)
    requires Opens(t, u) && Canonical(rest)
    requires Scan(Unparse(rest)) == Scanned(rest, true)
    ensures var ps := LiteralIfAny(t) + [Hole(u)] + rest; Scan(Unparse(ps)) == Scanned(ps, true)
  {
    CanonicalCons(t, u, rest);
    ScanOpened(t, u, Unparse(rest));
  }

  lemma ScanOpened(t: string, u: string, rest: string)
    requires Opens(t, u)
    ensures Scan(Opened(t, u, rest)) == Scanned(LiteralIfAny(t) + [Hole(u)] + Scan(rest).pieces, Scan(rest).closed)
  {
    var after := u + "}}" + rest;
    var raw := Opened(t, u, rest);
    assert raw == t + "{{" + after;
    FirstPairBehind(t, '{', after);
    FirstPairBehind(u, '}', rest);
    assert raw[..|t|] == t && raw[|t| + 2..] == after;
    assert after[..|u|] == u && after[|u| + 2..] == rest;
  }

  /**
   * The scanner decides the grammar: it closes with `ps` exactly when `ps` is a reading of the
   * text, so a text has at most one reading, and none exactly when a "{{" stays open.
   */
  lemma ScanIsTheReading(raw: string, ps: seq<Piece>)
    ensures Scan(raw) == Scanned(ps, true) <==> Canonical(ps) && Unparse(ps) == raw
    ensures !Scan(raw).closed ==> !(Canonical(ps) && Unparse(ps) == raw)
  {
    if Scan(raw).closed {
      ScanReads(raw);
    }
    if Canonical(ps) {
      ReadingIsScanned(ps);
    }
  }

  // ----- strings -----

  /** `bind_string_template`: the meaning as a string. */
  function BindString(raw: string, context: Context): Result<string, BlobError> {
    var v :- Meaning(raw, context);
    match v
    case Null => Ok("")
    case String(s) => Ok(s)
    case Bool(b) => Ok(BoolText(b))
    case Number(n) => Ok(n)
    case _ => Err(Configuration(NonScalarTemplate(raw)))
  }

  lemma RenderLone(t: string)
    ensures Render([Text(t)]) == Ok(t)
  {
    assert [Text(t)][1..] == [];
    assert t + "" == t;
  }

  // ----- JSON values -----

  /** `bind_json_value`: every string inside a value is bound, first failure first. */
  function BindJson(v: Value, context: Context): Result<Value, BlobError>
    decreases v, 0
  {
    match v
    case String(raw) => Meaning(raw, context)
    case Array(items) =>
      var bound :- BindItems(items, context);
      Ok(Array(bound))
    case Object(entries) =>
      var bound :- BindEntries(entries, context);
      Ok(Object(bound))
    case _ => Ok(v)
  }

  /** The strings of a value that binding reads; the keys of an object are not among them. */
  ghost function JsonTexts(v: Value): set<string> {
    match v
    case String(raw) => {raw}
    case Array(items) => set i, raw | 0 <= i < |items| && raw in JsonTexts(items[i]) :: raw
    case Object(entries) => set i, raw | 0 <= i < |entries| && raw in JsonTexts(entries[i].value) :: raw
    case _ => {}
  }

  function BindItems(items: seq<Value>, context: Context): Result<seq<Value>, BlobError>
    decreases items, 1
  {
    if items == [] then Ok([])
    else
      var head :- BindJson(items[0], context);
      var tail :- BindItems(items[1..], context);
      Ok([head] + tail)
  }

  function BindEntries(entries: seq<Entry>, context: Context): Result<seq<Entry>, BlobError>
    decreases entries, 1
  {
    if entries == [] then Ok([])
    else
      var head :- BindJson(entries[0].value, context);
      var tail :- BindEntries(entries[1..], context);
      Ok([Entry(entries[0].key, head)] + tail)
  }
}
