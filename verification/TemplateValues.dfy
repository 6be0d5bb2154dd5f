/** What templates are bound to, said of the context's values and of the text between the holes alone. */
module TemplateValues {
  import opened Results
  import opened Text
  import opened Json
  import opened Templates
  import opened TemplateLaws

  // ----- the value of a hole -----

  /** The inside of a hole names a key of a namespace: the two are split at the first dot. */
  predicate Names(u: string, namespace: string, key: string) {
    Trim(u) == namespace + "." + key && '.' !in namespace
  }

  /** The value the context holds for the hole. */
  ghost predicate HasValue(u: string, c: Context, v: Value) {
    || (exists key :: Names(u, "inputs", key) && !Blank(key) && key in c.inputs && c.inputs[key] == v)
    || (exists key :: Names(u, "runtime", key) && !Blank(key) && key in c.runtime && c.runtime[key] == v)
  }

  ghost predicate Valued(u: string, c: Context) {
    exists v :: HasValue(u, c, v)
  }

  /** Why the hole has no value. */
  ghost predicate HasNoValue(u: string, c: Context, why: Reason) {
    var token := Trim(u);
    || ('.' !in token && why == UnsupportedReference(token))
    || (exists namespace, key :: Names(u, namespace, key) && LacksKey(namespace, key, c, token, why))
  }

  predicate LacksKey(namespace: string, key: string, c: Context, token: string, why: Reason) {
    if Blank(key) then why == MissingKey(token)
    else if namespace == "inputs" then key !in c.inputs && why == MissingValue(token)
    else if namespace == "runtime" then key !in c.runtime && why == MissingValue(token)
    else why == UnsupportedNamespace(token)
  }

  /** A hole is looked up in its own namespace under its own key, or fails for the reason that holds of it. */
  lemma HoleIsLookedUp(u: string, c: Context)
    ensures forall v :: Lookup(Trim(u), c) == Ok(v) <==> HasValue(u, c, v)
    ensures forall why :: Lookup(Trim(u), c) == Err(Configuration(why)) <==> HasNoValue(u, c, why)
    ensures Lookup(Trim(u), c).Err? ==> Lookup(Trim(u), c).error.Configuration?
  {
    hide Trim, SplitOnce, Blank;
    var token := Trim(u);
    forall namespace, key | Names(u, namespace, key)
      ensures SplitOnce(token, '.') == Some((namespace, key)) && '.' in token
    {
      SplitAtFirst(token, '.', namespace, key);
    }
    if '.' in token {
      var parts := SplitOnce(token, '.').value;
      assert token == parts.0 + "." + parts.1;
      assert Names(u, parts.0, parts.1);
    }
  }

  /** A template that is one hole keeps the JSON value of the hole. */
  lemma LoneHoleIsItsValue(u: string, c: Context)
    requires Canonical([Hole(u)])
    ensures forall v :: Meaning(Unparse([Hole(u)]), c) == Ok(v) <==> HasValue(u, c, v)
    ensures forall why :: Meaning(Unparse([Hole(u)]), c) == Err(Configuration(why)) <==> HasNoValue(u, c, why)
  {
    hide Trim, Scan, Canonical, Lookup, HasValue, HasNoValue;
    ReadingIsScanned([Hole(u)]);
    assert [Hole(u)] == [Hole(u)] + [];
    ResolveCons(Hole(u), [], c);
    HoleIsLookedUp(u, c);
    var found := Lookup(Trim(u), c);
    if found.Ok? {
      assert [Placeholder(Trim(u), found.value)] + [] == [Placeholder(Trim(u), found.value)];
    }
  }

  // ----- text around and between holes -----

  /** The text a scalar contributes; null, lists and objects contribute none. */
  predicate Spells(v: Value, text: string) {
    || (v.String? && text == v.text)
    || (v.Number? && text == v.printed)
    || (v.Bool? && text == if v.flag then "true" else "false")
  }

  /** The piece stands for the text: a literal for itself, a hole for the text of its value. */
  ghost predicate StandsFor(p: Piece, c: Context, text: string) {
    match p
    case Literal(t) => text == t
    case Hole(u) => exists v :: HasValue(u, c, v) && Spells(v, text)
  }

  ghost predicate Speaks(p: Piece, c: Context) {
    exists text :: StandsFor(p, c, text)
  }

  function Joined(texts: seq<string>): string {
    if texts == [] then "" else texts[0] + Joined(texts[1..])
  }

  /** The texts the pieces stand for, piece by piece. */
  ghost predicate AllStandFor(ps: seq<Piece>, c: Context, texts: seq<string>) {
    |texts| == |ps| && forall i :: 0 <= i < |ps| ==> StandsFor(ps[i], c, texts[i])
  }

  /** A piece resolves and renders to exactly the text it stands for. */
  lemma PieceIsItsText(p: Piece, c: Context, text: string)
    ensures (ResolvePiece(p, c).Ok? && SegmentText(ResolvePiece(p, c).value) == Ok(text)) <==> StandsFor(p, c, text)
  {
    hide Trim, Lookup, HasValue;
    if p.Hole? {
      HoleIsLookedUp(p.inner, c);
    }
  }

  lemma {:induction false} PiecesAreTheirTexts(ps: seq<Piece>, c: Context, texts: seq<string>)
    requires AllStandFor(ps, c, texts)
    ensures Resolve(ps, c).Ok? && Render(Resolve(ps, c).value) == Ok(Joined(texts))
  {
    hide StandsFor, SegmentText, ResolvePiece;
    if ps != [] {
      PieceIsItsText(ps[0], c, texts[0]);
      PiecesAreTheirTexts(ps[1..], c, texts[1..]);
      var segments := Resolve(ps, c).value;
      assert segments[1..] == Resolve(ps[1..], c).value;
    }
  }

  lemma {:induction false} RenderedPiecesHaveTexts(ps: seq<Piece>, c: Context) returns (texts: seq<string>)
    requires Resolve(ps, c).Ok? && Render(Resolve(ps, c).value).Ok?
    ensures AllStandFor(ps, c, texts) && Joined(texts) == Render(Resolve(ps, c).value).value
  {
    hide StandsFor, SegmentText, ResolvePiece;
    if ps == [] {
      texts := [];
    } else {
      var segments := Resolve(ps, c).value;
      assert segments[1..] == Resolve(ps[1..], c).value;
      var rest := RenderedPiecesHaveTexts(ps[1..], c);
      var head := SegmentText(segments[0]).value;
      PieceIsItsText(ps[0], c, head);
      texts := [head] + rest;
      assert texts[1..] == rest;
    }
  }

  predicate LoneHoleReading(ps: seq<Piece>) {
    |ps| == 1 && ps[0].Hole?
  }

  /** A template of more than a lone hole is bound to the string of its pieces' texts, joined in order. */
  lemma ReadingIsJoined(ps: seq<Piece>, c: Context, texts: seq<string>)
    requires Canonical(ps) && !LoneHoleReading(ps) && AllStandFor(ps, c, texts)
    ensures Meaning(Unparse(ps), c) == Ok(String(Joined(texts)))
    ensures BindString(Unparse(ps), c) == Ok(Joined(texts))
  {
    hide Canonical, Scan, StandsFor, Resolve, Render, Unparse;
    ReadingIsScanned(ps);
    PiecesAreTheirTexts(ps, c, texts);
    ResolvedShape(ps, c);
  }

  /** Only a lone hole resolves to a lone placeholder. */
  lemma ResolvedShape(ps: seq<Piece>, c: Context)
    requires Resolve(ps, c).Ok?
    ensures var segments := Resolve(ps, c).value;
            |segments| == |ps| && (|segments| == 1 && segments[0].Placeholder? <==> LoneHoleReading(ps))
  {
    hide Lookup, Trim;
    ResolveKeepsLength(ps, c);
  }

  /** And only then is it bound: a piece that stands for no text makes the binding fail. */
  lemma JoinedReadingHasTexts(ps: seq<Piece>, c: Context) returns (texts: seq<string>)
    requires Canonical(ps) && !LoneHoleReading(ps) && Meaning(Unparse(ps), c).Ok?
    ensures AllStandFor(ps, c, texts) && Meaning(Unparse(ps), c) == Ok(String(Joined(texts)))
  {
    hide Canonical, Scan, StandsFor, Resolve, Render, Unparse;
    ReadingIsScanned(ps);
    ResolvedShape(ps, c);
    texts := RenderedPiecesHaveTexts(ps, c);
  }

  // ----- the first failure -----

  /** The first hole of the pieces without a value, and why it has none. */
  ghost predicate FirstWithoutValue(ps: seq<Piece>, c: Context, i: nat, why: Reason) {
    && i < |ps| && ps[i].Hole? && HasNoValue(ps[i].inner, c, why)
    && forall j :: 0 <= j < i && ps[j].Hole? ==> Valued(ps[j].inner, c)
  }

  lemma {:induction false} ResolveFailsFirst(ps: seq<Piece>, c: Context, i: nat, why: Reason)
    requires FirstWithoutValue(ps, c, i, why)
    ensures Resolve(ps, c) == Err(Configuration(why))
  {
    hide Lookup, Trim, HasValue, HasNoValue;
    if ps[0].Hole? {
      HoleIsLookedUp(ps[0].inner, c);
    }
    if i > 0 {
      assert FirstWithoutValue(ps[1..], c, i - 1, why);
      ResolveFailsFirst(ps[1..], c, i - 1, why);
    }
  }

  /** The first hole without a value decides the failure, even of a template that never closes its last hole. */
  lemma FirstMissingValueFails(raw: string, c: Context, i: nat, why: Reason)
    requires FirstWithoutValue(Scan(raw).pieces, c, i, why)
    ensures Meaning(raw, c) == Err(Configuration(why))
  {
    hide Scan, Resolve, FirstWithoutValue;
    ResolveFailsFirst(Scan(raw).pieces, c, i, why);
  }

  /** A hole whose value is null, a list or an object contributes no text. */
  ghost predicate Unspeakable(p: Piece, c: Context, why: Reason) {
    && p.Hole?
    && ((HasValue(p.inner, c, Null) && why == NullTemplate(Trim(p.inner)))
        || (why == NonScalarTemplate(Trim(p.inner))
            && exists v :: HasValue(p.inner, c, v) && (v.Array? || v.Object?)))
  }

  lemma {:induction false} RenderFailsFirst(ps: seq<Piece>, c: Context, i: nat, why: Reason)
    requires Resolve(ps, c).Ok? && i < |ps| && Unspeakable(ps[i], c, why)
    requires forall j :: 0 <= j < i ==> Speaks(ps[j], c)
    ensures Render(Resolve(ps, c).value) == Err(Configuration(why))
  {
    hide Lookup, Trim, HasValue;
    var segments := Resolve(ps, c).value;
    assert segments[1..] == Resolve(ps[1..], c).value;
    if i > 0 {
      var text :| StandsFor(ps[0], c, text);
      PieceIsItsText(ps[0], c, text);
      assert ps[1..][i - 1] == ps[i];
      assert forall j :: 0 <= j < i - 1 ==> ps[1..][j] == ps[j + 1];
      RenderFailsFirst(ps[1..], c, i - 1, why);
    } else {
      HoleIsLookedUp(ps[0].inner, c);
    }
  }

  /** When every hole has a value, the first one that contributes no text decides the failure. */
  lemma FirstUnspeakableFails(ps: seq<Piece>, c: Context, i: nat, why: Reason)
    requires Canonical(ps) && !LoneHoleReading(ps)
    requires forall p :: p in ps && p.Hole? ==> Valued(p.inner, c)
    requires i < |ps| && Unspeakable(ps[i], c, why)
    requires forall j :: 0 <= j < i ==> Speaks(ps[j], c)
    ensures Meaning(Unparse(ps), c) == Err(Configuration(why))
  {
    hide Canonical, Scan, StandsFor, Resolve, Render, Unparse, HasValue, Unspeakable;
    ReadingIsScanned(ps);
    ValuedPiecesResolve(ps, c);
    ResolvedShape(ps, c);
    RenderFailsFirst(ps, c, i, why);
  }

  lemma {:induction false} ValuedPiecesResolve(ps: seq<Piece>, c: Context)
    requires forall p :: p in ps && p.Hole? ==> Valued(p.inner, c)
    ensures Resolve(ps, c).Ok?
  {
    hide Lookup, Trim, HasValue;
    if ps != [] {
      assert ps[0] in ps && forall p :: p in ps[1..] ==> p in ps;
      if ps[0].Hole? {
        HoleIsLookedUp(ps[0].inner, c);
      }
      ValuedPiecesResolve(ps[1..], c);
    }
  }

  ghost predicate EndsInHole(ps: seq<Piece>) {
    ps != [] ==> ps[|ps| - 1].Hole?
  }

  lemma OpenHasBraces(raw: string)
    requires !Scan(raw).closed
    ensures HasPair(raw, '{')
    ensures !HasPair(raw[FirstPair(raw, '{') + 2..], '}') ==> Scan(raw).pieces == []
  {
  }

  /** Where the scan of a template stops open: behind its closed holes, at a "{{" that no "}}" follows. */
  lemma {:induction false} ScanStopsOpen(raw: string) returns (t: string, rest: string)
    requires !Scan(raw).closed
    ensures raw == Unparse(Scan(raw).pieces) + (t + ("{{" + rest))
    ensures FirstPair(t + "{{", '{') == |t| && !HasPair(rest, '}')
    ensures Canonical(Scan(raw).pieces) && EndsInHole(Scan(raw).pieces)
    decreases |raw|
  {
    hide Canonical, FirstPair, Scan, Unparse;
    OpenHasBraces(raw);
    var behind := raw[FirstPair(raw, '{') + 2..];
    if HasPair(behind, '}') {
      var a, u, later := ScanSplits(raw);
      t, rest := ScanStopsOpen(later);
      CanonicalCons(a, u, Scan(later).pieces);
      OpenedBefore(a, u, Unparse(Scan(later).pieces), t + ("{{" + rest));
    } else {
      NothingIsCanonical();
      FirstPairWithin(raw, '{');
      t, rest := raw[..FirstPair(raw, '{')], behind;
      assert raw == t + ("{{" + behind);
      assert "" + (t + ("{{" + rest)) == t + ("{{" + rest);
    }
  }

  lemma NothingIsCanonical()
    ensures Canonical([]) && Unparse([]) == ""
  {
  }

  lemma OpenedBefore(t: string, u: string, a: string, b: string)
    ensures Opened(t, u, a + b) == Opened(t, u, a) + b
  {
    assert "{{" + u + "}}" + (a + b) == "{{" + u + "}}" + a + b;
  }

  /** When every closed hole has a value, a hole that stays open is reported with the whole template. */
  lemma OpenHoleFails(raw: string, c: Context)
    requires !Scan(raw).closed
    requires forall p :: p in Scan(raw).pieces && p.Hole? ==> Valued(p.inner, c)
    ensures Meaning(raw, c) == Err(Configuration(UnterminatedTemplate(raw)))
  {
    hide Scan, Resolve, HasValue;
    ValuedPiecesResolve(Scan(raw).pieces, c);
  }

  // ----- strings and JSON -----

  /** A bound string is the text of the bound value; a lone null is the empty text, a list or object fails. */
  lemma StringIsValueText(raw: string, c: Context, v: Value)
    requires Meaning(raw, c) == Ok(v)
    ensures forall text :: BindString(raw, c) == Ok(text) <==> Spells(v, text) || (v.Null? && text == "")
    ensures v.Array? || v.Object? ==> BindString(raw, c) == Err(Configuration(NonScalarTemplate(raw)))
  {
    hide Meaning;
  }

  /** `w` is `v` with every string replaced by its meaning and nothing else changed. */
  ghost predicate IsBoundTo(v: Value, w: Value, c: Context) {
    match v
    case String(raw) => Meaning(raw, c) == Ok(w)
    case Array(items) =>
      && w.Array? && |w.items| == |items|
      && forall i :: 0 <= i < |items| ==> IsBoundTo(items[i], w.items[i], c)
    case Object(entries) =>
      && w.Object? && |w.entries| == |entries|
      && forall i :: 0 <= i < |entries| ==>
           w.entries[i].key == entries[i].key && IsBoundTo(entries[i].value, w.entries[i].value, c)
    case _ => w == v
  }

  /** Binding a JSON value binds each of its strings where it stands, and keeps its shape, keys and other values. */
  lemma {:induction false} JsonIsBoundInPlace(v: Value, w: Value, c: Context)
    ensures BindJson(v, c) == Ok(w) <==> IsBoundTo(v, w, c)
    decreases v, 0
  {
    hide Meaning;
    match v
    case Array(items) =>
      if w.Array? {
        ItemsAreBoundInPlace(items, w.items, c);
      }
    case Object(entries) =>
      if w.Object? {
        EntriesAreBoundInPlace(entries, w.entries, c);
      }
    case _ =>
  }

  lemma {:induction false} ItemsAreBoundInPlace(xs: seq<Value>, ys: seq<Value>, c: Context)
    ensures BindItems(xs, c) == Ok(ys) <==>
            |xs| == |ys| && forall i :: 0 <= i < |xs| ==> IsBoundTo(xs[i], ys[i], c)
    decreases xs, 1
  {
    hide BindJson, IsBoundTo;
    if xs != [] && ys != [] {
      JsonIsBoundInPlace(xs[0], ys[0], c);
      ItemsAreBoundInPlace(xs[1..], ys[1..], c);
      assert ys == [ys[0]] + ys[1..];
    }
  }

  lemma {:induction false} EntriesAreBoundInPlace(xs: seq<Entry>, ys: seq<Entry>, c: Context)
    ensures BindEntries(xs, c) == Ok(ys) <==>
            && |xs| == |ys|
            && forall i :: 0 <= i < |xs| ==> ys[i].key == xs[i].key && IsBoundTo(xs[i].value, ys[i].value, c)
    decreases xs, 1
  {
    hide BindJson, IsBoundTo;
    if xs != [] && ys != [] {
      JsonIsBoundInPlace(xs[0].value, ys[0].value, c);
      EntriesAreBoundInPlace(xs[1..], ys[1..], c);
      assert ys == [ys[0]] + ys[1..];
    }
  }
}
