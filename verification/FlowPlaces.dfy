/**
 * What binding puts where: every text of a plan is the bound text of the same place of the catalog, every
 * other field is the catalog's, and the parts of the plan are those that its steps and outputs name.
 */
module FlowPlaces {
  import opened Results
  import opened Text
  import opened Json
  import opened Templates
  import opened TemplateValues
  import opened FlowModel
  import opened FlowBinding
  import opened TemplateTexts
  import opened FlowSlice

  // ----- one place -----

  predicate IsBound(raw: string, text: string, c: Context) {
    BindString(raw, c) == Ok(text)
  }

  predicate IsBoundIfAny(raw: Option<string>, text: Option<string>, c: Context) {
    if raw.Some? then text.Some? && IsBound(raw.value, text.value, c) else text.None?
  }

  predicate AreBound(raws: seq<string>, texts: seq<string>, c: Context) {
    |texts| == |raws| && forall i :: 0 <= i < |raws| ==> IsBound(raws[i], texts[i], c)
  }

  // ----- one part -----

  predicate PageIsBound(p: Page, q: Page, c: Context) {
    q == p.(urlPatterns := q.urlPatterns) && AreBound(p.urlPatterns, q.urlPatterns, c)
  }

  predicate SelectorIsBound(s: Selector, t: Selector, c: Context) {
    && t == s.(value := t.value, textContains := t.textContains)
    && IsBound(s.value, t.value, c) && IsBoundIfAny(s.textContains, t.textContains, c)
  }

  predicate ElementIsBound(e: Element, f: Element, c: Context) {
    && f == e.(frame := f.frame, selectors := f.selectors)
    && IsBoundIfAny(e.frame, f.frame, c)
    && |f.selectors| == |e.selectors|
    && forall i :: 0 <= i < |e.selectors| ==> SelectorIsBound(e.selectors[i], f.selectors[i], c)
  }

  predicate HeaderIsBound(h: HeaderMatcher, k: HeaderMatcher, c: Context) {
    k == h.(valueTemplate := k.valueTemplate) && IsBoundIfAny(h.valueTemplate, k.valueTemplate, c)
  }

  predicate RequestIsBound(r: Request, q: Request, c: Context) {
    && q == r.(urlPattern := q.urlPattern, requiredHeaders := q.requiredHeaders, requiredFields := q.requiredFields)
    && IsBound(r.urlPattern, q.urlPattern, c) && AreBound(r.requiredFields, q.requiredFields, c)
    && |q.requiredHeaders| == |r.requiredHeaders|
    && forall i :: 0 <= i < |r.requiredHeaders| ==> HeaderIsBound(r.requiredHeaders[i], q.requiredHeaders[i], c)
  }

  predicate OperationIsBound(o: Operation, p: Operation, c: Context) {
    p == o.(frame := p.frame, source := p.source) && IsBoundIfAny(o.frame, p.frame, c) && IsBound(o.source, p.source, c)
  }

  predicate OutputIsBound(o: Output, p: Output, c: Context) {
    p == o.(frame := p.frame, source := p.source) && IsBoundIfAny(o.frame, p.frame, c) && IsBound(o.source, p.source, c)
  }

  predicate SettingsAreBound(s: CaptchaSettings, t: CaptchaSettings, c: Context) {
    && t == s.(fieldLabel := t.fieldLabel, placeholder := t.placeholder, instruction := t.instruction,
               llmSystemPrompt := t.llmSystemPrompt, llmPromptTemplate := t.llmPromptTemplate)
    && IsBoundIfAny(s.fieldLabel, t.fieldLabel, c) && IsBoundIfAny(s.placeholder, t.placeholder, c)
    && IsBoundIfAny(s.instruction, t.instruction, c) && IsBoundIfAny(s.llmSystemPrompt, t.llmSystemPrompt, c)
    && IsBoundIfAny(s.llmPromptTemplate, t.llmPromptTemplate, c)
  }

  predicate StepIsBound(s: Step, t: Step, c: Context) {
    match s
    case Navigate(_, url, _) => t.Navigate? && t == s.(url := t.url) && IsBound(url, t.url, c)
    case SetInput(_, _, value, _) =>
      t.SetInput? && t == s.(valueTemplate := t.valueTemplate) && IsBound(value, t.valueTemplate, c)
    case ValidateVisualLayout(_, _, instruction, rules, _) =>
      && t.ValidateVisualLayout?
      && t == s.(instruction := t.instruction, relationshipRules := t.relationshipRules)
      && IsBoundIfAny(instruction, t.instruction, c) && AreBound(rules, t.relationshipRules, c)
    case SolveVisualCaptcha(_, _, _, _, _, settings) =>
      t.SolveVisualCaptcha? && t == s.(settings := t.settings) && SettingsAreBound(settings, t.settings, c)
    case _ => t == s
  }

  predicate FlowIsBound(f: Flow, g: Flow, c: Context) {
    && g == f.(steps := g.steps, outputs := g.outputs)
    && |g.steps| == |f.steps| && (forall i :: 0 <= i < |f.steps| ==> StepIsBound(f.steps[i], g.steps[i], c))
    && |g.outputs| == |f.outputs| && (forall i :: 0 <= i < |f.outputs| ==> OutputIsBound(f.outputs[i], g.outputs[i], c))
  }

  // ----- binding is this relation -----

  lemma {:induction false} TraverseIsPointwise<A, B, E>(f: A -> Result<B, E>, xs: seq<A>, ys: seq<B>)
    ensures Traverse(f, xs) == Ok(ys) <==> |ys| == |xs| && forall i :: 0 <= i < |xs| ==> f(xs[i]) == Ok(ys[i])
  {
    if xs != [] && |ys| == |xs| {
      TraverseIsPointwise(f, xs[..|xs| - 1], ys[..|ys| - 1]);
      assert ys == ys[..|ys| - 1] + [ys[|ys| - 1]];
    }
  }

  lemma OptionalIsBound(raw: Option<string>, text: Option<string>, c: Context)
    ensures BindOptional(raw, c) == Ok(text) <==> IsBoundIfAny(raw, text, c)
  {
    hide BindString;
  }

  lemma TextsAreBound(raws: seq<string>, texts: seq<string>, c: Context)
    ensures BindAll(raws, c) == Ok(texts) <==> AreBound(raws, texts, c)
  {
    hide BindString, Traverse;
    TraverseIsPointwise(StringBinder(c), raws, texts);
    assert forall i :: 0 <= i < |raws| ==> StringBinder(c)(raws[i]) == BindString(raws[i], c);
  }

  lemma PageIsBoundInPlace(p: Page, q: Page, c: Context)
    ensures PageBinder(c)(p) == Ok(q) <==> PageIsBound(p, q, c)
  {
    hide BindAll, AreBound;
    TextsAreBound(p.urlPatterns, q.urlPatterns, c);
  }

  lemma SelectorIsBoundInPlace(s: Selector, t: Selector, c: Context)
    ensures SelectorBinder(c)(s) == Ok(t) <==> SelectorIsBound(s, t, c)
  {
    hide BindString, BindOptional, IsBoundIfAny;
    OptionalIsBound(s.textContains, t.textContains, c);
  }

  lemma ElementIsBoundInPlace(e: Element, f: Element, c: Context)
    ensures ElementBinder(c)(e) == Ok(f) <==> ElementIsBound(e, f, c)
  {
    hide BindOptional, BindSelector, SelectorIsBound, IsBoundIfAny, Traverse;
    OptionalIsBound(e.frame, f.frame, c);
    TraverseIsPointwise(SelectorBinder(c), e.selectors, f.selectors);
    if |f.selectors| == |e.selectors| {
      forall i | 0 <= i < |e.selectors|
        ensures SelectorBinder(c)(e.selectors[i]) == Ok(f.selectors[i]) <==>
                SelectorIsBound(e.selectors[i], f.selectors[i], c)
      {
        SelectorIsBoundInPlace(e.selectors[i], f.selectors[i], c);
      }
    }
  }

  lemma HeaderIsBoundInPlace(h: HeaderMatcher, k: HeaderMatcher, c: Context)
    ensures HeaderBinder(c)(h) == Ok(k) <==> HeaderIsBound(h, k, c)
  {
    hide BindOptional, IsBoundIfAny;
    OptionalIsBound(h.valueTemplate, k.valueTemplate, c);
  }

  lemma RequestIsBoundInPlace(r: Request, q: Request, c: Context)
    ensures RequestBinder(c)(r) == Ok(q) <==> RequestIsBound(r, q, c)
  {
    hide BindString, BindAll, BindHeader, HeaderIsBound, AreBound, Traverse;
    TextsAreBound(r.requiredFields, q.requiredFields, c);
    TraverseIsPointwise(HeaderBinder(c), r.requiredHeaders, q.requiredHeaders);
    if |q.requiredHeaders| == |r.requiredHeaders| {
      forall i | 0 <= i < |r.requiredHeaders|
        ensures HeaderBinder(c)(r.requiredHeaders[i]) == Ok(q.requiredHeaders[i]) <==>
                HeaderIsBound(r.requiredHeaders[i], q.requiredHeaders[i], c)
      {
        HeaderIsBoundInPlace(r.requiredHeaders[i], q.requiredHeaders[i], c);
      }
    }
  }

  lemma OperationIsBoundInPlace(o: Operation, p: Operation, c: Context)
    ensures OperationBinder(c)(o) == Ok(p) <==> OperationIsBound(o, p, c)
  {
    hide BindString, BindOptional, IsBoundIfAny;
    OptionalIsBound(o.frame, p.frame, c);
  }

  lemma OutputIsBoundInPlace(o: Output, p: Output, c: Context)
    ensures OutputBinder(c)(o) == Ok(p) <==> OutputIsBound(o, p, c)
  {
    hide BindString, BindOptional, IsBoundIfAny;
    OptionalIsBound(o.frame, p.frame, c);
  }

  lemma SettingsAreBoundInPlace(s: CaptchaSettings, t: CaptchaSettings, c: Context)
    ensures BindSettings(s, c) == Ok(t) <==> SettingsAreBound(s, t, c)
  {
    hide BindOptional, IsBoundIfAny;
    OptionalIsBound(s.fieldLabel, t.fieldLabel, c);
    OptionalIsBound(s.placeholder, t.placeholder, c);
    OptionalIsBound(s.instruction, t.instruction, c);
    OptionalIsBound(s.llmSystemPrompt, t.llmSystemPrompt, c);
    OptionalIsBound(s.llmPromptTemplate, t.llmPromptTemplate, c);
  }

  lemma StepIsBoundInPlace(s: Step, t: Step, c: Context)
    ensures StepBinder(c)(s) == Ok(t) <==> StepIsBound(s, t, c)
  {
    hide BindString, BindOptional, BindAll, BindSettings, IsBoundIfAny, AreBound, SettingsAreBound;
    if s.ValidateVisualLayout? && t.ValidateVisualLayout? {
      OptionalIsBound(s.instruction, t.instruction, c);
      TextsAreBound(s.relationshipRules, t.relationshipRules, c);
    } else if s.SolveVisualCaptcha? && t.SolveVisualCaptcha? {
      SettingsAreBoundInPlace(s.settings, t.settings, c);
    }
  }

  lemma FlowIsBoundInPlace(f: Flow, g: Flow, c: Context)
    ensures BindFlowTemplates(f, c) == Ok(g) <==> FlowIsBound(f, g, c)
  {
    hide BindStep, BindOutput, StepIsBound, OutputIsBound, Traverse;
    TraverseIsPointwise(StepBinder(c), f.steps, g.steps);
    TraverseIsPointwise(OutputBinder(c), f.outputs, g.outputs);
    forall i | 0 <= i < |f.steps| && i < |g.steps|
      ensures StepBinder(c)(f.steps[i]) == Ok(g.steps[i]) <==> StepIsBound(f.steps[i], g.steps[i], c)
    {
      StepIsBoundInPlace(f.steps[i], g.steps[i], c);
    }
    forall i | 0 <= i < |f.outputs| && i < |g.outputs|
      ensures OutputBinder(c)(f.outputs[i]) == Ok(g.outputs[i]) <==> OutputIsBound(f.outputs[i], g.outputs[i], c)
    {
      OutputIsBoundInPlace(f.outputs[i], g.outputs[i], c);
    }
  }

  // ----- what a flow names -----

  predicate StepNamesElement(s: Step, id: string) {
    || (s.Click? && s.element == id) || (s.SetInput? && s.element == id) || (s.SetFiles? && s.element == id)
    || (s.DispatchEvents? && s.element == id)
    || (s.ValidateVisualLayout? && exists i :: 0 <= i < |s.targets| && s.targets[i].element == id)
    || (s.SolveVisualCaptcha? && (s.imageElement == id || s.inputElement == id || s.refreshElement == Some(id)))
  }

  predicate StepNamesPage(s: Step, id: string) {
    (s.Navigate? && s.waitForPage == Some(id)) || (s.WaitForPage? && s.page == id)
  }

  predicate FlowNamesElement(f: Flow, id: string) {
    exists i :: 0 <= i < |f.steps| && StepNamesElement(f.steps[i], id)
  }

  predicate FlowNamesOperation(f: Flow, id: string) {
    exists i :: 0 <= i < |f.steps| && f.steps[i].InvokeOperation? && f.steps[i].operation == id
  }

  /** A page is named as the start, by a step, or by an element or an operation that is itself part of the plan. */
  ghost predicate PlanNamesPage(f: Flow, elements: seq<Element>, operations: seq<Operation>, id: string) {
    || f.startPage == id
    || (exists i :: 0 <= i < |f.steps| && StepNamesPage(f.steps[i], id))
    || (exists i :: 0 <= i < |elements| && elements[i].page == id)
    || (exists i :: 0 <= i < |operations| && operations[i].page == Some(id))
  }

  /**
   * A source of an output names the request before its first colon; one without a colon names a request
   * only for a set of headers. A blank name names nothing.
   */
  ghost predicate SourceNames(kind: OutputKind, source: string, id: string) {
    && id != ""
    && ((exists a, b :: source == a + ":" + b && ':' !in a && Trim(a) == id)
        || (':' !in source && kind.RequestHeaders? && Trim(source) == id))
  }

  /** Only the three kinds of output that read requests name any, in their source or a fallback. */
  ghost predicate OutputNames(o: Output, id: string) {
    && (o.kind.RequestHeader? || o.kind.RequestHeaders? || o.kind.RequestField?)
    && (SourceNames(o.kind, o.source, id)
        || exists i :: 0 <= i < |o.fallbackSources| && SourceNames(o.kind, o.fallbackSources[i], id))
  }

  ghost predicate FlowNamesRequest(f: Flow, id: string) {
    || (exists i :: 0 <= i < |f.steps| && f.steps[i].WaitForRequest? && f.steps[i].request == id)
    || (exists i :: 0 <= i < |f.expectedRequests| && f.expectedRequests[i] == id)
    || (exists i :: 0 <= i < |f.outputs| && OutputNames(f.outputs[i], id))
  }

  lemma {:induction false} ElementsAreNamed(steps: seq<Step>, id: string)
    ensures id in ElementsOf(steps) <==> exists i :: 0 <= i < |steps| && StepNamesElement(steps[i], id)
  {
    hide StepElements, StepNamesElement;
    if steps != [] {
      var init, last := steps[..|steps| - 1], steps[|steps| - 1];
      ElementsAreNamed(init, id);
      StepElementsAreNamed(last, id);
      assert forall i :: 0 <= i < |init| ==> init[i] == steps[i];
    }
  }

  lemma StepElementsAreNamed(s: Step, id: string)
    ensures id in StepElements(s) <==> StepNamesElement(s, id)
  {
  }

  lemma {:induction false} PagesAreNamed(steps: seq<Step>, id: string)
    ensures id in PagesOf(steps) <==> exists i :: 0 <= i < |steps| && StepNamesPage(steps[i], id)
  {
    hide StepNamesPage, StepPages;
    if steps != [] {
      var init, last := steps[..|steps| - 1], steps[|steps| - 1];
      PagesAreNamed(init, id);
      StepPagesAreNamed(last, id);
      assert forall i :: 0 <= i < |init| ==> init[i] == steps[i];
    }
  }

  lemma StepPagesAreNamed(s: Step, id: string)
    ensures id in StepPages(s) <==> StepNamesPage(s, id)
  {
  }

  lemma {:induction false} OperationsAreNamed(steps: seq<Step>, id: string)
    ensures id in OperationsOf(steps) <==>
            exists i :: 0 <= i < |steps| && steps[i].InvokeOperation? && steps[i].operation == id
  {
    if steps != [] {
      var init, last := steps[..|steps| - 1], steps[|steps| - 1];
      OperationsAreNamed(init, id);
      assert forall i :: 0 <= i < |init| ==> init[i] == steps[i];
    }
  }

  lemma {:induction false} WaitedRequestsAreNamed(steps: seq<Step>, id: string)
    ensures id in RequestsOf(steps) <==>
            exists i :: 0 <= i < |steps| && steps[i].WaitForRequest? && steps[i].request == id
  {
    if steps != [] {
      var init, last := steps[..|steps| - 1], steps[|steps| - 1];
      WaitedRequestsAreNamed(init, id);
      assert forall i :: 0 <= i < |init| ==> init[i] == steps[i];
    }
  }

  lemma SourceIsNamed(kind: OutputKind, source: string, id: string)
    ensures id in SourceRequest(kind, source) <==> SourceNames(kind, source, id)
  {
    hide Trim, SplitOnce;
    forall a, b | source == a + ":" + b && ':' !in a
      ensures SplitOnce(source, ':') == Some((a, b))
    {
      SplitAtFirst(source, ':', a, b);
    }
    if ':' in source {
      var parts := SplitOnce(source, ':').value;
      assert source == parts.0 + ":" + parts.1;
    }
  }

  lemma {:induction false} SourcesAreNamed(kind: OutputKind, sources: seq<string>, id: string)
    ensures id in SourceRequests(kind, sources) <==>
            exists i :: 0 <= i < |sources| && SourceNames(kind, sources[i], id)
  {
    hide SourceRequest, SourceNames;
    if sources != [] {
      var init, last := sources[..|sources| - 1], sources[|sources| - 1];
      SourcesAreNamed(kind, init, id);
      SourceIsNamed(kind, last, id);
      assert forall i :: 0 <= i < |init| ==> init[i] == sources[i];
    }
  }

  lemma OutputIsNamed(o: Output, id: string)
    ensures id in OutputRequests(o) <==> OutputNames(o, id)
  {
    hide SourceNames, SourceRequests;
    var sources := [o.source] + o.fallbackSources;
    SourcesAreNamed(o.kind, sources, id);
    assert forall i :: 0 <= i < |o.fallbackSources| ==> sources[i + 1] == o.fallbackSources[i];
    if exists i :: 0 <= i < |sources| && SourceNames(o.kind, sources[i], id) {
      var i :| 0 <= i < |sources| && SourceNames(o.kind, sources[i], id);
      if i > 0 {
        assert sources[i] == o.fallbackSources[i - 1];
      }
    }
    if SourceNames(o.kind, o.source, id) {
      assert sources[0] == o.source;
    }
  }

  lemma {:induction false} OutputsAreNamed(outputs: seq<Output>, id: string)
    ensures id in RequestsOfOutputs(outputs) <==> exists i :: 0 <= i < |outputs| && OutputNames(outputs[i], id)
  {
    hide OutputRequests, OutputNames;
    if outputs != [] {
      var init, last := outputs[..|outputs| - 1], outputs[|outputs| - 1];
      OutputsAreNamed(init, id);
      OutputIsNamed(last, id);
      assert forall i :: 0 <= i < |init| ==> init[i] == outputs[i];
    }
  }

  lemma RequestsAreNamed(f: Flow, id: string)
    ensures id in RequestRefs(f) <==> FlowNamesRequest(f, id)
  {
    hide RequestsOf, RequestsOfOutputs, OutputNames;
    WaitedRequestsAreNamed(f.steps, id);
    OutputsAreNamed(f.outputs, id);
    assert id in f.expectedRequests <==> exists i :: 0 <= i < |f.expectedRequests| && f.expectedRequests[i] == id;
  }

  lemma PlanPagesAreNamed(f: Flow, elements: seq<Element>, operations: seq<Operation>, id: string)
    ensures id in PageRefs(f, elements, operations) <==> PlanNamesPage(f, elements, operations, id)
  {
    hide PagesOf, StepNamesPage;
    PagesAreNamed(f.steps, id);
    if exists i :: 0 <= i < |elements| && elements[i].page == id {
      var i :| 0 <= i < |elements| && elements[i].page == id;
      assert elements[i] in elements;
    }
    if exists i :: 0 <= i < |operations| && operations[i].page == Some(id) {
      var i :| 0 <= i < |operations| && operations[i].page == Some(id);
      assert operations[i] in operations;
    }
  }

  // ----- the whole plan -----

  lemma {:induction false} KeepAgrees<A>(p: A -> bool, q: A -> bool, xs: seq<A>)
    requires forall i :: 0 <= i < |xs| ==> p(xs[i]) == q(xs[i])
    ensures Keep(p, xs) == Keep(q, xs)
  {
    if xs != [] {
      KeepAgrees(p, q, xs[..|xs| - 1]);
    }
  }

  /** The entries of the catalog a bound flow names, in catalog order. */
  ghost function NamedElements(cat: Catalog, f: Flow): seq<Element> {
    Keep(ElementIn(set e | e in cat.elements && FlowNamesElement(f, e.id) :: e.id), cat.elements)
  }

  ghost function NamedOperations(cat: Catalog, f: Flow): seq<Operation> {
    Keep(OperationIn(set o | o in cat.operations && FlowNamesOperation(f, o.id) :: o.id), cat.operations)
  }

  ghost function NamedRequests(cat: Catalog, f: Flow): seq<Request> {
    Keep(RequestIn(set r | r in cat.requests && FlowNamesRequest(f, r.id) :: r.id), cat.requests)
  }

  ghost function NamedPages(cat: Catalog, p: Plan): seq<Page> {
    Keep(PageIn(set x | x in cat.pages && PlanNamesPage(p.flow, p.elements, p.operations, x.id) :: x.id), cat.pages)
  }

  ghost predicate ElementsAreBound(xs: seq<Element>, ys: seq<Element>, c: Context) {
    |ys| == |xs| && forall i :: 0 <= i < |xs| ==> ElementIsBound(xs[i], ys[i], c)
  }

  ghost predicate OperationsAreBound(xs: seq<Operation>, ys: seq<Operation>, c: Context) {
    |ys| == |xs| && forall i :: 0 <= i < |xs| ==> OperationIsBound(xs[i], ys[i], c)
  }

  ghost predicate RequestsAreBound(xs: seq<Request>, ys: seq<Request>, c: Context) {
    |ys| == |xs| && forall i :: 0 <= i < |xs| ==> RequestIsBound(xs[i], ys[i], c)
  }

  ghost predicate PagesAreBound(xs: seq<Page>, ys: seq<Page>, c: Context) {
    |ys| == |xs| && forall i :: 0 <= i < |xs| ==> PageIsBound(xs[i], ys[i], c)
  }

  /** Exactly the presets the flow refers to, each known and bound string by string. */
  ghost predicate PresetsAreBoundTo(refs: seq<string>, presets: map<string, Value>, bound: map<string, Value>,
                                    c: Context)
  {
    && bound.Keys == Members(refs) && bound.Keys <= presets.Keys
    && forall p :: p in bound ==> IsBoundTo(presets[p], bound[p], c)
  }

  /** The parts of a plan are those its flow names, in catalog order, and each is bound place by place. */
  ghost predicate SliceIsBound(cat: Catalog, p: Plan) {
    && p.provider == cat.provider && p.surface == cat.surface
    && PresetsAreBoundTo(p.flow.presetRefs, cat.presets, p.presets, p.context)
    && ElementsAreBound(NamedElements(cat, p.flow), p.elements, p.context)
    && OperationsAreBound(NamedOperations(cat, p.flow), p.operations, p.context)
    && RequestsAreBound(NamedRequests(cat, p.flow), p.requests, p.context)
    && PagesAreBound(NamedPages(cat, p), p.pages, p.context)
  }

  lemma ElementsAreBoundInPlace(cat: Catalog, f: Flow, ys: seq<Element>, c: Context)
    ensures Traverse(ElementBinder(c), Keep(ElementIn(ElementsOf(f.steps)), cat.elements)) == Ok(ys) <==>
            ElementsAreBound(NamedElements(cat, f), ys, c)
  {
    hide Traverse, Keep, ElementsOf, FlowNamesElement, BindElement, ElementIsBound;
    var ids := set e | e in cat.elements && FlowNamesElement(f, e.id) :: e.id;
    forall i | 0 <= i < |cat.elements|
      ensures ElementIn(ElementsOf(f.steps))(cat.elements[i]) == ElementIn(ids)(cat.elements[i])
    {
      ElementsAreNamed(f.steps, cat.elements[i].id);
      assert FlowNamesElement(f, cat.elements[i].id) <==> cat.elements[i].id in ElementsOf(f.steps) by {
        FlowNamesElementIs(f, cat.elements[i].id);
      }
    }
    KeepAgrees(ElementIn(ElementsOf(f.steps)), ElementIn(ids), cat.elements);
    var xs := NamedElements(cat, f);
    TraverseIsPointwise(ElementBinder(c), xs, ys);
    forall i | 0 <= i < |xs| && i < |ys|
      ensures ElementBinder(c)(xs[i]) == Ok(ys[i]) <==> ElementIsBound(xs[i], ys[i], c)
    {
      ElementIsBoundInPlace(xs[i], ys[i], c);
    }
  }

  lemma FlowNamesElementIs(f: Flow, id: string)
    ensures FlowNamesElement(f, id) <==> id in ElementsOf(f.steps)
  {
    hide StepNamesElement, ElementsOf;
    ElementsAreNamed(f.steps, id);
  }

  lemma FlowNamesOperationIs(f: Flow, id: string)
    ensures FlowNamesOperation(f, id) <==> id in OperationsOf(f.steps)
  {
    hide OperationsOf;
    OperationsAreNamed(f.steps, id);
  }

  lemma OperationsAreBoundInPlace(cat: Catalog, f: Flow, ys: seq<Operation>, c: Context)
    ensures Traverse(OperationBinder(c), Keep(OperationIn(OperationsOf(f.steps)), cat.operations)) == Ok(ys) <==>
            OperationsAreBound(NamedOperations(cat, f), ys, c)
  {
    hide Traverse, Keep, OperationsOf, FlowNamesOperation, BindOperation, OperationIsBound;
    var ids := set o | o in cat.operations && FlowNamesOperation(f, o.id) :: o.id;
    forall i | 0 <= i < |cat.operations|
      ensures OperationIn(OperationsOf(f.steps))(cat.operations[i]) == OperationIn(ids)(cat.operations[i])
    {
      FlowNamesOperationIs(f, cat.operations[i].id);
    }
    KeepAgrees(OperationIn(OperationsOf(f.steps)), OperationIn(ids), cat.operations);
    var xs := NamedOperations(cat, f);
    TraverseIsPointwise(OperationBinder(c), xs, ys);
    forall i | 0 <= i < |xs| && i < |ys|
      ensures OperationBinder(c)(xs[i]) == Ok(ys[i]) <==> OperationIsBound(xs[i], ys[i], c)
    {
      OperationIsBoundInPlace(xs[i], ys[i], c);
    }
  }

  lemma RequestsAreBoundInPlace(cat: Catalog, f: Flow, ys: seq<Request>, c: Context)
    ensures Traverse(RequestBinder(c), Keep(RequestIn(RequestRefs(f)), cat.requests)) == Ok(ys) <==>
            RequestsAreBound(NamedRequests(cat, f), ys, c)
  {
    hide Traverse, Keep, RequestRefs, FlowNamesRequest, BindRequest, RequestIsBound;
    var ids := set r | r in cat.requests && FlowNamesRequest(f, r.id) :: r.id;
    forall i | 0 <= i < |cat.requests|
      ensures RequestIn(RequestRefs(f))(cat.requests[i]) == RequestIn(ids)(cat.requests[i])
    {
      RequestsAreNamed(f, cat.requests[i].id);
    }
    KeepAgrees(RequestIn(RequestRefs(f)), RequestIn(ids), cat.requests);
    var xs := NamedRequests(cat, f);
    TraverseIsPointwise(RequestBinder(c), xs, ys);
    forall i | 0 <= i < |xs| && i < |ys|
      ensures RequestBinder(c)(xs[i]) == Ok(ys[i]) <==> RequestIsBound(xs[i], ys[i], c)
    {
      RequestIsBoundInPlace(xs[i], ys[i], c);
    }
  }

  lemma PagesAreBoundInPlace(cat: Catalog, p: Plan)
    ensures Traverse(PageBinder(p.context), Keep(PageIn(PageRefs(p.flow, p.elements, p.operations)), cat.pages)) ==
            Ok(p.pages) <==>
            PagesAreBound(NamedPages(cat, p), p.pages, p.context)
  {
    hide Traverse, Keep, PageRefs, PlanNamesPage, BindPage, PageIsBound;
    var refs := PageRefs(p.flow, p.elements, p.operations);
    var ids := set x | x in cat.pages && PlanNamesPage(p.flow, p.elements, p.operations, x.id) :: x.id;
    forall i | 0 <= i < |cat.pages|
      ensures PageIn(refs)(cat.pages[i]) == PageIn(ids)(cat.pages[i])
    {
      PlanPagesAreNamed(p.flow, p.elements, p.operations, cat.pages[i].id);
    }
    KeepAgrees(PageIn(refs), PageIn(ids), cat.pages);
    var xs := NamedPages(cat, p);
    TraverseIsPointwise(PageBinder(p.context), xs, p.pages);
    forall i | 0 <= i < |xs| && i < |p.pages|
      ensures PageBinder(p.context)(xs[i]) == Ok(p.pages[i]) <==> PageIsBound(xs[i], p.pages[i], p.context)
    {
      PageIsBoundInPlace(xs[i], p.pages[i], p.context);
    }
  }

  lemma {:induction false} PresetsBind(refs: seq<string>, presets: map<string, Value>, bound: map<string, Value>,
                                       c: Context)
    requires BoundPresets(refs, presets, bound, c)
    ensures BindPresets(refs, presets, c) == Ok(bound)
  {
    hide BindJson;
    if refs != [] {
      var init, last := refs[..|refs| - 1], refs[|refs| - 1];
      assert refs == init + [last];
      assert Members(refs) == Members(init) + {last};
      var part := map p | p in Members(init) :: bound[p];
      PresetsBind(init, presets, part, c);
      assert part[last := bound[last]] == bound;
    }
  }

  lemma PresetsAreBoundInPlace(refs: seq<string>, presets: map<string, Value>, bound: map<string, Value>, c: Context)
    ensures BindPresets(refs, presets, c) == Ok(bound) <==> PresetsAreBoundTo(refs, presets, bound, c)
  {
    hide BindPresets, BindJson, IsBoundTo, Members;
    forall p | p in bound && p in presets
      ensures BindJson(presets[p], c) == Ok(bound[p]) <==> IsBoundTo(presets[p], bound[p], c)
    {
      JsonIsBoundInPlace(presets[p], bound[p], c);
    }
    if BindPresets(refs, presets, c) == Ok(bound) {
      PresetsAreBound(refs, presets, c);
    }
    if PresetsAreBoundTo(refs, presets, bound, c) {
      PresetsBind(refs, presets, bound, c);
    }
  }

  lemma SliceIsBoundInPlace(cat: Catalog, f: Flow, c: Context, p: Plan)
    ensures SliceAndBind(cat, f, c) == Ok(p) <==> p.flow == f && p.context == c && SliceIsBound(cat, p)
  {
    hide Traverse, Keep, BindPresets, ElementsOf, OperationsOf, RequestRefs, PageRefs, PresetsAreBoundTo,
         ElementsAreBound, OperationsAreBound, RequestsAreBound, PagesAreBound, NamedElements, NamedOperations,
         NamedRequests, NamedPages;
    PresetsAreBoundInPlace(f.presetRefs, cat.presets, p.presets, c);
    ElementsAreBoundInPlace(cat, f, p.elements, c);
    OperationsAreBoundInPlace(cat, f, p.operations, c);
    RequestsAreBoundInPlace(cat, f, p.requests, c);
    if p.flow == f && p.context == c {
      PagesAreBoundInPlace(cat, p);
    }
  }

  /** Every required input has a value that holds something. */
  ghost predicate InputsAreGiven(inputs: seq<Input>, values: map<string, Value>) {
    forall i :: 0 <= i < |inputs| && inputs[i].required ==>
      inputs[i].id in values && HoldsSomething(values[inputs[i].id])
  }

  lemma {:induction false} InputsAreChecked(inputs: seq<Input>, values: map<string, Value>)
    ensures CheckInputs(inputs, values).Pass? <==> InputsAreGiven(inputs, values)
  {
    hide HoldsSomething, Present;
    if inputs != [] {
      InputsAreChecked(inputs[1..], values);
      if inputs[0].id in values {
        PresentHoldsSomething(values[inputs[0].id]);
      }
      assert forall i :: 0 < i < |inputs| ==> inputs[i] == inputs[1..][i - 1];
    }
  }

  /**
   * A binding succeeds with a plan exactly when the flow is known, its required inputs are given, and the
   * plan is the flow and the parts it names, bound place by place.
   */
  lemma BindingIsInPlace(cat: Catalog, flowId: string, c: Context, p: Plan)
    ensures Binding(cat, flowId, c) == Ok(p) <==>
            exists f ::
              && FirstFlow(cat.flows, flowId, f) && InputsAreGiven(f.inputs, c.inputs)
              && FlowIsBound(f, p.flow, c) && p.context == c && SliceIsBound(cat, p)
  {
    hide FindFlow, FirstFlow, CheckInputs, BindFlowTemplates, SliceAndBind, FlowIsBound, SliceIsBound, InputsAreGiven;
    forall f
      ensures FindFlow(cat.flows, flowId) == Some(f) <==> FirstFlow(cat.flows, flowId, f)
    {
      FlowIsFirst(cat.flows, flowId, f);
    }
    var found := FindFlow(cat.flows, flowId);
    if found.Some? {
      InputsAreChecked(found.value.inputs, c.inputs);
      FlowIsBoundInPlace(found.value, p.flow, c);
      SliceIsBoundInPlace(cat, p.flow, c, p);
      var bound := BindFlowTemplates(found.value, c);
      if bound.Ok? {
        SliceIsBoundInPlace(cat, bound.value, c, p);
      }
    }
  }

  // ----- membership -----

  /** An entry of the catalog is part of the plan exactly when the plan's flow names it. */
  lemma RequestsAreSelected(cat: Catalog, flowId: string, c: Context, r: Request)
    requires Binding(cat, flowId, c).Ok? && r in cat.requests
    ensures var plan := Binding(cat, flowId, c).value;
            (exists i :: 0 <= i < |plan.requests| && plan.requests[i].id == r.id) <==> FlowNamesRequest(plan.flow, r.id)
  {
    hide Binding, FlowNamesRequest, Keep, RequestIsBound;
    var plan := Binding(cat, flowId, c).value;
    BindingIsInPlace(cat, flowId, c, plan);
    var ids := set q | q in cat.requests && FlowNamesRequest(plan.flow, q.id) :: q.id;
    var xs := NamedRequests(cat, plan.flow);
    KeepMembers(RequestIn(ids), cat.requests);
    RequestsKeepIds(xs, plan.requests, c);
    if FlowNamesRequest(plan.flow, r.id) {
      assert r in xs;
      var i :| 0 <= i < |xs| && xs[i] == r;
      assert plan.requests[i].id == r.id;
    }
    if exists i :: 0 <= i < |plan.requests| && plan.requests[i].id == r.id {
      var i :| 0 <= i < |plan.requests| && plan.requests[i].id == r.id;
      assert xs[i] in xs;
    }
  }

  lemma RequestsKeepIds(xs: seq<Request>, ys: seq<Request>, c: Context)
    requires RequestsAreBound(xs, ys, c)
    ensures forall i :: 0 <= i < |xs| ==> ys[i].id == xs[i].id
  {
    forall i | 0 <= i < |xs|
      ensures ys[i].id == xs[i].id
    {
      assert RequestIsBound(xs[i], ys[i], c);
    }
  }

  /**
   * A request that an output of one of the three request kinds names before the colon of its source or of a
   * fallback is part of the plan.
   */
  lemma SourcedRequestIsSelected(cat: Catalog, flowId: string, c: Context, o: Output, a: string, b: string, r: Request)
    requires Binding(cat, flowId, c).Ok? && o in Binding(cat, flowId, c).value.flow.outputs
    requires o.kind.RequestHeader? || o.kind.RequestHeaders? || o.kind.RequestField?
    requires a + ":" + b == o.source || a + ":" + b in o.fallbackSources
    requires ':' !in a && Trim(a) != "" && r in cat.requests && r.id == Trim(a)
    ensures exists q :: q in Binding(cat, flowId, c).value.requests && q.id == r.id
  {
    hide Binding, Trim;
    var f := Binding(cat, flowId, c).value.flow;
    assert SourceNames(o.kind, a + ":" + b, r.id);
    assert OutputNames(o, r.id);
    assert FlowNamesRequest(f, r.id);
    RequestsAreSelected(cat, flowId, c, r);
  }
}
