/** What template binding keeps: plain text and JSON, repeated binding, and independence from unmentioned values. */
module TemplateLaws {
  import opened Results
  import opened Text
  import opened Json
  import opened Templates

  // ----- strings -----

  /** Text that opens no hole is its own meaning, whatever the context. */
  lemma PlainTextIsUnchanged(raw: string, context: Context)
    requires !HasPair(raw, '{')
    ensures Meaning(raw, context) == Ok(String(raw))
    ensures BindString(raw, context) == Ok(raw)
  {
    if raw != "" {
      ResolveCons(Literal(raw), [], context);
      assert [Literal(raw)] + [] == [Literal(raw)] && [Text(raw)] + [] == [Text(raw)];
      RenderLone(raw);
    }
  }

  /** Text that opens no hole. */
  predicate Plain(raw: string) {
    !HasPair(raw, '{')
  }

  ghost predicate AllPlain(raws: set<string>) {
    forall raw :: raw in raws ==> Plain(raw)
  }

  /** Nothing the value can contribute to a text, at any depth, contains an opening brace. */
  predicate BraceFree(v: Value) {
    match v
    case String(s) => '{' !in s
    case Number(n) => '{' !in n
    case Array(items) => forall i :: 0 <= i < |items| ==> BraceFree(items[i])
    case Object(entries) => forall i :: 0 <= i < |entries| ==> BraceFree(entries[i].value)
    case _ => true
  }

  /** Every value the template substitutes is free of opening braces. */
  ghost predicate SubstitutesBraceFree(ps: seq<Piece>, context: Context) {
    forall p :: p in ps && p.Hole? && Lookup(Trim(p.inner), context).Ok? ==>
      BraceFree(Lookup(Trim(p.inner), context).value)
  }

  lemma {:induction false} RenderedHasNoPair(ps: seq<Piece>, context: Context)
    requires Canonical(ps) && SubstitutesBraceFree(ps, context)
    requires Resolve(ps, context).Ok? && Render(Resolve(ps, context).value).Ok?
    ensures !HasPair(Render(Resolve(ps, context).value).value, '{')
    decreases |ps|
  {
    if ps != [] {
      var segments := Resolve(ps, context).value;
      assert segments[1..] == Resolve(ps[1..], context).value;
      RenderedHasNoPair(ps[1..], context);
      HeadHasNoPair(ps, context);
      var rest := Render(segments[1..]).value;
      if |ps| == 1 {
        assert SegmentText(segments[0]).value + "" == SegmentText(segments[0]).value;
      } else {
        JoinMakesNoPair(SegmentText(segments[0]).value, rest, '{');
      }
    }
  }

  lemma HeadHasNoPair(ps: seq<Piece>, context: Context)
    requires ps != [] && Canonical(ps) && SubstitutesBraceFree(ps, context)
    requires ResolvePiece(ps[0], context).Ok? && SegmentText(ResolvePiece(ps[0], context).value).Ok?
    ensures var head := SegmentText(ResolvePiece(ps[0], context).value).value;
            !HasPair(head, '{') && (|ps| > 1 && head != "" ==> head[|head| - 1] != '{')
  {
    hide Scan, Lookup, Trim, Render;
    var head := SegmentText(ResolvePiece(ps[0], context).value).value;
    if ps[0].Hole? {
      assert ps[0] in ps;
      assert '{' !in head;
      AbsentMakesNoPair(head, '{');
    } else if |ps| > 1 {
      BeforeFirstPair(head, '{');
    }
  }

  lemma LonePlaceholder(ps: seq<Piece>, context: Context)
    requires SubstitutesBraceFree(ps, context) && Resolve(ps, context).Ok?
    requires |Resolve(ps, context).value| == 1 && Resolve(ps, context).value[0].Placeholder?
    ensures BraceFree(Resolve(ps, context).value[0].value)
  {
    ResolveKeepsLength(ps, context);
    assert ps[0] in ps;
  }

  lemma AssembledHasNoPair(ps: seq<Piece>, context: Context)
    requires Canonical(ps) && SubstitutesBraceFree(ps, context) && Resolve(ps, context).Ok?
    requires Assemble(Resolve(ps, context).value).Ok?
    ensures var v := Assemble(Resolve(ps, context).value).value;
            BraceFree(v) || (v.String? && !HasPair(v.text, '{'))
  {
    var segments := Resolve(ps, context).value;
    if |segments| == 1 && segments[0].Placeholder? {
      LonePlaceholder(ps, context);
    } else {
      RenderedHasNoPair(ps, context);
    }
  }

  /** When nothing substituted contains an opening brace, no template is left in the result. */
  lemma BoundHasNoPair(raw: string, context: Context)
    requires BindString(raw, context).Ok?
    requires SubstitutesBraceFree(Scan(raw).pieces, context)
    ensures !HasPair(BindString(raw, context).value, '{')
  {
    hide Scan, Lookup, Trim, Render;
    ScanReads(raw);
    AssembledHasNoPair(Scan(raw).pieces, context);
    var bound := BindString(raw, context).value;
    if '{' !in bound {
      AbsentMakesNoPair(bound, '{');
    }
  }

  /** Then binding the result again changes nothing. */
  lemma BindingTwiceIsBindingOnce(raw: string, context: Context, later: Context)
    requires BindString(raw, context).Ok?
    requires SubstitutesBraceFree(Scan(raw).pieces, context)
    ensures BindString(BindString(raw, context).value, later) == BindString(raw, context)
  {
    hide Scan, BindString, SubstitutesBraceFree;
    BoundHasNoPair(raw, context);
    PlainTextIsUnchanged(BindString(raw, context).value, later);
  }

  /** The context without any value. */
  const NOTHING: Context := Context(map[], map[])

  lemma {:induction false} NothingResolvesNoHole(ps: seq<Piece>)
    requires Resolve(ps, NOTHING).Ok?
    ensures forall p :: p in ps ==> p.Literal?
  {
    if ps != [] {
      NothingResolvesNoHole(ps[1..]);
      assert ps == [ps[0]] + ps[1..];
    }
  }

  /** Without any value only text that opens no hole has a meaning. */
  lemma NothingBindsOnlyPlain(raw: string)
    requires Meaning(raw, NOTHING).Ok?
    ensures Plain(raw)
  {
    hide Resolve, Assemble;
    if HasPair(raw, '{') {
      var t, u, rest := ScanSplits(raw);
      assert Hole(u) in Scan(raw).pieces;
      NothingResolvesNoHole(Scan(raw).pieces);
    }
  }

  /** A text is bound to itself under every context exactly when it opens no hole. */
  lemma FixedExactlyWhenPlain(raw: string)
    ensures (forall c: Context :: BindString(raw, c) == Ok(raw)) <==> Plain(raw)
  {
    hide Scan, Resolve, Assemble, HasPair;
    if Plain(raw) {
      forall c: Context
        ensures BindString(raw, c) == Ok(raw)
      {
        PlainTextIsUnchanged(raw, c);
      }
    } else if Meaning(raw, NOTHING).Ok? {
      NothingBindsOnlyPlain(raw);
    } else {
      assert BindString(raw, NOTHING) != Ok(raw);
    }
  }

  /** Binding a result again is the identity under every context exactly when the result opens no hole. */
  lemma BindingTwiceExactly(raw: string, context: Context)
    requires BindString(raw, context).Ok?
    ensures (forall later: Context ::
               BindString(BindString(raw, context).value, later) == BindString(raw, context)) <==>
            Plain(BindString(raw, context).value)
  {
    hide BindString, Plain;
    FixedExactlyWhenPlain(BindString(raw, context).value);
  }

  lemma {:induction false} ResolveKeepsLength(ps: seq<Piece>, context: Context)
    requires Resolve(ps, context).Ok?
    ensures |Resolve(ps, context).value| == |ps|
  {
    if ps != [] {
      ResolveKeepsLength(ps[1..], context);
    }
  }

  /** The template that names one input by a single letter. */
  function InputTemplate(k: char): string {
    "{{inputs." + [k] + "}}"
  }

  /**
   * Without that condition a second binding need not be the identity, even under the same context: a
   * value that spells a template survives the first binding and is expanded by the second.
   */
  lemma BindingTwiceCanExpand()
    ensures var c := Context(map["a" := String("{{inputs.b}}"), "b" := String("x")], map[]);
            && BindString("{{inputs.a}}", c) == Ok("{{inputs.b}}")
            && BindString("{{inputs.b}}", c) == Ok("x")
  {
    hide BindString;
    var c := Context(map["a" := String("{{inputs.b}}"), "b" := String("x")], map[]);
    assert InputTemplate('a') == "{{inputs.a}}" && InputTemplate('b') == "{{inputs.b}}";
    InputTemplateReads('a', c);
    InputTemplateReads('b', c);
  }

  /** The second binding may use another context, and expand what the first one kept. */
  lemma LaterContextCanExpand()
    ensures var raw := "{{inputs.a}}";
            && BindString(raw, Context(map["a" := String(raw)], map[])) == Ok(raw)
            && BindString(raw, Context(map["a" := String("x")], map[])) == Ok("x")
  {
    hide BindString;
    assert InputTemplate('a') == "{{inputs.a}}";
    InputTemplateReads('a', Context(map["a" := String("{{inputs.a}}")], map[]));
    InputTemplateReads('a', Context(map["a" := String("x")], map[]));
  }

  /** Such a template is bound to the text of the input. */
  lemma InputTemplateReads(k: char, c: Context)
    requires 'a' <= k <= 'z' && [k] in c.inputs && c.inputs[[k]].String?
    ensures BindString(InputTemplate(k), c) == Ok(c.inputs[[k]].text)
  {
    hide Opens, Opened, Meaning, Trim, SplitOnce;
    var token := "inputs." + [k];
    ExampleToken(k);
    LoneHole(token, c);
    TrimKeeps(token);
    TrimKeeps([k]);
    ExampleSplit(k);
  }

  lemma ExampleToken(k: char)
    requires 'a' <= k <= 'z'
    ensures Opens("", "inputs." + [k]) && Opened("", "inputs." + [k], "") == InputTemplate(k)
  {
    var u := "inputs." + [k];
    assert "" + "{{" == "{{" && PairAt("{{", '{', 0);
    assert PairAt(u + "}}", '}', 8);
    FirstPairIsFirst(u + "}}", '}', 8);
    assert Opened("", u, "") == InputTemplate(k);
  }

  lemma TrimKeeps(s: string)
    requires s != "" && !IsSpace(s[0]) && !IsSpace(s[|s| - 1])
    ensures Trim(s) == s
  {
  }

  lemma ExampleSplit(k: char)
    requires 'a' <= k <= 'z'
    ensures SplitOnce("inputs." + [k], '.') == Some(("inputs", [k]))
  {
    hide SplitOnce;
    var u := "inputs." + [k];
    var parts := SplitOnce(u, '.').value;
    assert u[|parts.0|] == '.' && u[6] == '.';
    assert |parts.0| == 6;
    assert parts.0 == u[..6] == "inputs" && parts.1 == u[7..] == [k];
    assert SplitOnce(u, '.') == Some(parts);
  }

  lemma LoneHole(u: string, context: Context)
    requires Opens("", u)
    ensures Meaning(Opened("", u, ""), context) == Lookup(Trim(u), context)
  {
    ScanOpened("", u, "");
    ResolveCons(Hole(u), [], context);
    assert LiteralIfAny("") + [Hole(u)] + Scan("").pieces == [Hole(u)] + [];
  }

  // ----- a binding reads only what it mentions -----

  /** The two contexts answer alike for every hole of the template. */
  ghost predicate AgreeOn(raw: string, c: Context, d: Context) {
    forall p :: p in Scan(raw).pieces && p.Hole? ==> Lookup(Trim(p.inner), c) == Lookup(Trim(p.inner), d)
  }

  lemma {:induction false} ResolveAgrees(ps: seq<Piece>, c: Context, d: Context)
    requires forall p :: p in ps && p.Hole? ==> Lookup(Trim(p.inner), c) == Lookup(Trim(p.inner), d)
    ensures Resolve(ps, c) == Resolve(ps, d)
  {
    if ps != [] {
      assert ps[0] in ps;
      assert forall p :: p in ps[1..] ==> p in ps;
      ResolveAgrees(ps[1..], c, d);
    }
  }

  lemma MeaningAgrees(raw: string, c: Context, d: Context)
    requires AgreeOn(raw, c, d)
    ensures Meaning(raw, c) == Meaning(raw, d) && BindString(raw, c) == BindString(raw, d)
  {
    hide Scan, Lookup, Render;
    ResolveAgrees(Scan(raw).pieces, c, d);
  }

  ghost predicate AgreeOnAll(raws: set<string>, c: Context, d: Context) {
    forall raw :: raw in raws ==> AgreeOn(raw, c, d)
  }

  lemma {:induction false} BindJsonAgrees(v: Value, c: Context, d: Context)
    requires AgreeOnAll(JsonTexts(v), c, d)
    ensures BindJson(v, c) == BindJson(v, d)
    decreases v, 0
  {
    hide AgreeOn, Meaning;
    match v
    case String(raw) => MeaningAgrees(raw, c, d);
    case Array(items) =>
      assert forall i :: 0 <= i < |items| ==> JsonTexts(items[i]) <= JsonTexts(v);
      BindItemsAgrees(items, c, d);
    case Object(entries) =>
      assert forall i :: 0 <= i < |entries| ==> JsonTexts(entries[i].value) <= JsonTexts(v);
      BindEntriesAgrees(entries, c, d);
    case _ =>
  }

  lemma {:induction false} BindItemsAgrees(items: seq<Value>, c: Context, d: Context)
    requires forall i :: 0 <= i < |items| ==> AgreeOnAll(JsonTexts(items[i]), c, d)
    ensures BindItems(items, c) == BindItems(items, d)
    decreases items, 1
  {
    hide AgreeOnAll, BindJson, JsonTexts;
    if items != [] {
      BindJsonAgrees(items[0], c, d);
      BindItemsAgrees(items[1..], c, d);
    }
  }

  lemma {:induction false} BindEntriesAgrees(entries: seq<Entry>, c: Context, d: Context)
    requires forall i :: 0 <= i < |entries| ==> AgreeOnAll(JsonTexts(entries[i].value), c, d)
    ensures BindEntries(entries, c) == BindEntries(entries, d)
    decreases entries, 1
  {
    hide AgreeOnAll, BindJson, JsonTexts;
    if entries != [] {
      BindJsonAgrees(entries[0].value, c, d);
      BindEntriesAgrees(entries[1..], c, d);
    }
  }

  /** No hole of the template names the key of the namespace. */
  ghost predicate Unnamed(raw: string, namespace: string, key: string) {
    forall p :: p in Scan(raw).pieces && p.Hole? ==> SplitOnce(Trim(p.inner), '.') != Some((namespace, key))
  }

  ghost predicate AllUnnamed(raws: set<string>, namespace: string, key: string) {
    forall raw :: raw in raws ==> Unnamed(raw, namespace, key)
  }

  /** A value that no hole of the texts names does not change what they mean. */
  lemma UnnamedAgrees(raws: set<string>, c: Context, key: string, v: Value)
    ensures AllUnnamed(raws, "inputs", key) ==> AgreeOnAll(raws, c, c.(inputs := c.inputs[key := v]))
    ensures AllUnnamed(raws, "runtime", key) ==> AgreeOnAll(raws, c, c.(runtime := c.runtime[key := v]))
  {
    hide Scan, Trim, SplitOnce, Blank;
  }

  // ----- JSON values -----

  /** No value of the context can spell a template. */
  ghost predicate BraceFreeContext(c: Context) {
    (forall k :: k in c.inputs ==> BraceFree(c.inputs[k])) && (forall k :: k in c.runtime ==> BraceFree(c.runtime[k]))
  }

  lemma {:induction false} BraceFreeIsPlain(v: Value)
    requires BraceFree(v)
    ensures AllPlain(JsonTexts(v))
  {
    hide Plain;
    match v
    case String(s) => BraceFreeTextIsPlain(s);
    case Array(items) =>
      forall i | 0 <= i < |items|
        ensures AllPlain(JsonTexts(items[i]))
      {
        BraceFreeIsPlain(items[i]);
      }
    case Object(entries) =>
      forall i | 0 <= i < |entries|
        ensures AllPlain(JsonTexts(entries[i].value))
      {
        BraceFreeIsPlain(entries[i].value);
      }
    case _ =>
  }

  lemma BraceFreeTextIsPlain(s: string)
    requires '{' !in s
    ensures Plain(s)
  {
    AbsentMakesNoPair(s, '{');
  }

  lemma MeaningIsPlain(raw: string, c: Context)
    requires BraceFreeContext(c) && Meaning(raw, c).Ok?
    ensures AllPlain(JsonTexts(Meaning(raw, c).value))
  {
    hide Scan, Resolve, Assemble, Lookup, BraceFree, JsonTexts;
    ScanReads(raw);
    ContextSubstitutesBraceFree(Scan(raw).pieces, c);
    AssembledHasNoPair(Scan(raw).pieces, c);
    var v := Meaning(raw, c).value;
    if BraceFree(v) {
      BraceFreeIsPlain(v);
    } else {
      assert JsonTexts(v) == {v.text} by { PlainString(v); }
    }
  }

  lemma PlainString(v: Value)
    requires v.String?
    ensures JsonTexts(v) == {v.text}
  {
  }

  lemma ContextSubstitutesBraceFree(ps: seq<Piece>, c: Context)
    requires BraceFreeContext(c)
    ensures SubstitutesBraceFree(ps, c)
  {
    hide BraceFree, Trim, SplitOnce, Blank;
  }

  /** Under a brace-free context no string of a bound value opens a hole, however deep it stands. */
  lemma {:induction false} BoundJsonIsPlain(v: Value, c: Context)
    requires BraceFreeContext(c) && BindJson(v, c).Ok?
    ensures AllPlain(JsonTexts(BindJson(v, c).value))
    decreases v, 0
  {
    hide Meaning, BraceFreeContext, Plain;
    match v
    case String(raw) => MeaningIsPlain(raw, c);
    case Array(items) => BoundItemsArePlain(items, c);
    case Object(entries) => BoundEntriesArePlain(entries, c);
    case _ =>
  }

  lemma {:induction false} BoundItemsArePlain(items: seq<Value>, c: Context)
    requires BraceFreeContext(c) && BindItems(items, c).Ok?
    ensures forall i :: 0 <= i < |BindItems(items, c).value| ==> AllPlain(JsonTexts(BindItems(items, c).value[i]))
    decreases items, 1
  {
    hide BindJson, BraceFreeContext, AllPlain, JsonTexts;
    if items != [] {
      BoundJsonIsPlain(items[0], c);
      BoundItemsArePlain(items[1..], c);
    }
  }

  lemma {:induction false} BoundEntriesArePlain(entries: seq<Entry>, c: Context)
    requires BraceFreeContext(c) && BindEntries(entries, c).Ok?
    ensures forall i :: 0 <= i < |BindEntries(entries, c).value| ==>
              AllPlain(JsonTexts(BindEntries(entries, c).value[i].value))
    decreases entries, 1
  {
    hide BindJson, BraceFreeContext, AllPlain, JsonTexts;
    if entries != [] {
      BoundJsonIsPlain(entries[0].value, c);
      BoundEntriesArePlain(entries[1..], c);
    }
  }

  /** A value whose strings open no hole is bound to itself; without any value nothing else can be bound. */
  lemma {:induction false} JsonIsKept(v: Value, d: Context)
    ensures AllPlain(JsonTexts(v)) ==> BindJson(v, d) == Ok(v)
    ensures BindJson(v, NOTHING).Ok? ==> AllPlain(JsonTexts(v))
    decreases v, 0
  {
    hide Meaning, Plain;
    match v
    case String(raw) => MeaningIsKept(raw, d);
    case Array(items) =>
      assert AllPlain(JsonTexts(v)) <==> forall i :: 0 <= i < |items| ==> AllPlain(JsonTexts(items[i]));
      ItemsAreKept(items, d);
    case Object(entries) =>
      assert AllPlain(JsonTexts(v)) <==> forall i :: 0 <= i < |entries| ==> AllPlain(JsonTexts(entries[i].value));
      EntriesAreKept(entries, d);
    case _ =>
  }

  ghost predicate KeepsJson(v: Value, c: Context) {
    BindJson(v, c) == Ok(v)
  }

  /** A JSON value is bound to itself under every context exactly when none of its strings opens a hole. */
  lemma JsonFixedExactlyWhenPlain(v: Value)
    ensures (forall c: Context :: KeepsJson(v, c)) <==> AllPlain(JsonTexts(v))
  {
    hide BindJson, JsonTexts, AllPlain;
    forall c: Context
      ensures AllPlain(JsonTexts(v)) ==> KeepsJson(v, c)
    {
      JsonIsKept(v, c);
    }
    JsonIsKept(v, NOTHING);
    assert KeepsJson(v, NOTHING) ==> AllPlain(JsonTexts(v));
  }

  lemma MeaningIsKept(raw: string, d: Context)
    ensures Plain(raw) ==> Meaning(raw, d) == Ok(String(raw))
    ensures Meaning(raw, NOTHING).Ok? ==> Plain(raw)
  {
    hide Meaning;
    if Plain(raw) {
      PlainTextIsUnchanged(raw, d);
    } else if Meaning(raw, NOTHING).Ok? {
      NothingBindsOnlyPlain(raw);
    }
  }

  lemma {:induction false} ItemsAreKept(items: seq<Value>, d: Context)
    ensures (forall i :: 0 <= i < |items| ==> AllPlain(JsonTexts(items[i]))) ==> BindItems(items, d) == Ok(items)
    ensures BindItems(items, NOTHING).Ok? ==> forall i :: 0 <= i < |items| ==> AllPlain(JsonTexts(items[i]))
    decreases items, 1
  {
    hide BindJson, AllPlain, JsonTexts;
    if items != [] {
      JsonIsKept(items[0], d);
      ItemsAreKept(items[1..], d);
      assert items == [items[0]] + items[1..];
    }
  }

  lemma {:induction false} EntriesAreKept(entries: seq<Entry>, d: Context)
    ensures (forall i :: 0 <= i < |entries| ==> AllPlain(JsonTexts(entries[i].value))) ==>
              BindEntries(entries, d) == Ok(entries)
    ensures BindEntries(entries, NOTHING).Ok? ==>
              forall i :: 0 <= i < |entries| ==> AllPlain(JsonTexts(entries[i].value))
    decreases entries, 1
  {
    hide BindJson, AllPlain, JsonTexts;
    if entries != [] {
      JsonIsKept(entries[0].value, d);
      EntriesAreKept(entries[1..], d);
      assert entries == [entries[0]] + entries[1..];
    }
  }
}
