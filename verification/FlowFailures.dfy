/** In which order binding reads its texts, and that it fails with the failure of the first one that fails. */
module FlowFailures {
  import opened Results
  import opened Json
  import opened Templates
  import opened FlowModel
  import opened FlowBinding
  import opened FlowSlice
  import opened FlowPlaces

  // ----- the first failure of a list of texts -----

  function ErrorOf<A>(r: Result<A, BlobError>): Option<BlobError> {
    if r.Ok? then None else Some(r.error)
  }

  function OrElse(first: Option<BlobError>, second: Option<BlobError>): Option<BlobError> {
    if first.Some? then first else second
  }

  function FirstError(raws: seq<string>, c: Context): Option<BlobError> {
    if raws == [] then None
    else OrElse(FirstError(raws[..|raws| - 1], c), ErrorOf(BindString(raws[|raws| - 1], c)))
  }

  /** It is the failure of a text before which all texts bind, and there is none when all do. */
  lemma {:induction false} FirstErrorIsFirst(raws: seq<string>, c: Context)
    ensures FirstError(raws, c).None? <==> forall i :: 0 <= i < |raws| ==> BindString(raws[i], c).Ok?
    ensures forall e :: FirstError(raws, c) == Some(e) <==>
              exists i :: 0 <= i < |raws| && BindString(raws[i], c) == Err(e)
                          && forall j :: 0 <= j < i ==> BindString(raws[j], c).Ok?
  {
    hide BindString;
    if raws != [] {
      var init, last := raws[..|raws| - 1], raws[|raws| - 1];
      FirstErrorIsFirst(init, c);
      assert forall i :: 0 <= i < |init| ==> init[i] == raws[i];
    }
  }

  lemma {:induction false} FirstErrorConcat(a: seq<string>, b: seq<string>, c: Context)
    ensures FirstError(a + b, c) == OrElse(FirstError(a, c), FirstError(b, c))
  {
    hide BindString;
    if b == [] {
      assert a + b == a;
    } else {
      assert (a + b)[..|a + b| - 1] == a + b[..|b| - 1];
      FirstErrorConcat(a, b[..|b| - 1], c);
    }
  }

  lemma FirstErrorOfOne(raw: string, c: Context)
    ensures FirstError([raw], c) == ErrorOf(BindString(raw, c))
  {
    hide BindString;
    assert [raw][..0] == [];
  }

  // ----- the texts of each part, in the order they are read -----

  function IfAny(raw: Option<string>): seq<string> {
    if raw.Some? then [raw.value] else []
  }

  ghost function Gathered<A>(texts: A -> seq<string>, xs: seq<A>): seq<string> {
    if xs == [] then [] else Gathered(texts, xs[..|xs| - 1]) + texts(xs[|xs| - 1])
  }

  function SelectorReads(s: Selector): seq<string> {
    [s.value] + IfAny(s.textContains)
  }

  ghost function ElementReads(e: Element): seq<string> {
    IfAny(e.frame) + Gathered(SelectorReads, e.selectors)
  }

  function HeaderReads(h: HeaderMatcher): seq<string> {
    IfAny(h.valueTemplate)
  }

  ghost function RequestReads(r: Request): seq<string> {
    [r.urlPattern] + Gathered(HeaderReads, r.requiredHeaders) + r.requiredFields
  }

  function OperationReads(o: Operation): seq<string> {
    IfAny(o.frame) + [o.source]
  }

  function OutputReads(o: Output): seq<string> {
    IfAny(o.frame) + [o.source]
  }

  function PageReads(p: Page): seq<string> {
    p.urlPatterns
  }

  function StepReads(s: Step): seq<string> {
    match s
    case Navigate(_, url, _) => [url]
    case SetInput(_, _, value, _) => [value]
    case ValidateVisualLayout(_, _, instruction, rules, _) => IfAny(instruction) + rules
    case SolveVisualCaptcha(_, _, _, _, _, t) =>
      IfAny(t.fieldLabel) + (IfAny(t.placeholder) + (IfAny(t.instruction) + (IfAny(t.llmSystemPrompt)
      + IfAny(t.llmPromptTemplate))))
    case _ => []
  }

  ghost function FlowReads(f: Flow): seq<string> {
    Gathered(StepReads, f.steps) + Gathered(OutputReads, f.outputs)
  }

  // ----- each part fails with its first failing text -----

  lemma {:induction false} ListFailsFirst<A>(texts: A -> seq<string>, f: A -> Result<A, BlobError>, xs: seq<A>,
                                             c: Context)
    requires forall i :: 0 <= i < |xs| ==> ErrorOf(f(xs[i])) == FirstError(texts(xs[i]), c)
    ensures ErrorOf(Traverse(f, xs)) == FirstError(Gathered(texts, xs), c)
  {
    hide FirstError;
    if xs != [] {
      var init, last := xs[..|xs| - 1], xs[|xs| - 1];
      ListFailsFirst(texts, f, init, c);
      FirstErrorConcat(Gathered(texts, init), texts(last), c);
    } else {
      NothingFails(c);
    }
  }

  lemma NothingFails(c: Context)
    ensures FirstError([], c) == None
  {
  }

  lemma OptionalFails(raw: Option<string>, c: Context)
    ensures ErrorOf(BindOptional(raw, c)) == FirstError(IfAny(raw), c)
  {
    hide FirstError, BindString;
    NothingFails(c);
    if raw.Some? {
      FirstErrorOfOne(raw.value, c);
    }
  }

  lemma {:induction false} TextsFail(raws: seq<string>, c: Context)
    ensures ErrorOf(BindAll(raws, c)) == FirstError(raws, c)
  {
    hide BindString;
    if raws != [] {
      TextsFail(raws[..|raws| - 1], c);
    }
  }

  lemma SelectorFailsFirst(s: Selector, c: Context)
    ensures ErrorOf(SelectorBinder(c)(s)) == FirstError(SelectorReads(s), c)
  {
    hide FirstError, BindString, BindOptional;
    FirstErrorOfOne(s.value, c);
    OptionalFails(s.textContains, c);
    FirstErrorConcat([s.value], IfAny(s.textContains), c);
  }

  lemma ElementFailsFirst(e: Element, c: Context)
    ensures ErrorOf(ElementBinder(c)(e)) == FirstError(ElementReads(e), c)
  {
    hide FirstError, BindOptional, BindSelector, SelectorReads, Gathered, Traverse;
    OptionalFails(e.frame, c);
    forall i | 0 <= i < |e.selectors|
      ensures ErrorOf(SelectorBinder(c)(e.selectors[i])) == FirstError(SelectorReads(e.selectors[i]), c)
    {
      SelectorFailsFirst(e.selectors[i], c);
    }
    ListFailsFirst(SelectorReads, SelectorBinder(c), e.selectors, c);
    FirstErrorConcat(IfAny(e.frame), Gathered(SelectorReads, e.selectors), c);
  }

  lemma RequestFailsFirst(r: Request, c: Context)
    ensures ErrorOf(RequestBinder(c)(r)) == FirstError(RequestReads(r), c)
  {
    hide FirstError, BindString, BindOptional, BindAll, Gathered, Traverse;
    FirstErrorOfOne(r.urlPattern, c);
    forall i | 0 <= i < |r.requiredHeaders|
      ensures ErrorOf(HeaderBinder(c)(r.requiredHeaders[i])) == FirstError(HeaderReads(r.requiredHeaders[i]), c)
    {
      OptionalFails(r.requiredHeaders[i].valueTemplate, c);
    }
    ListFailsFirst(HeaderReads, HeaderBinder(c), r.requiredHeaders, c);
    TextsFail(r.requiredFields, c);
    FirstErrorConcat([r.urlPattern], Gathered(HeaderReads, r.requiredHeaders), c);
    FirstErrorConcat([r.urlPattern] + Gathered(HeaderReads, r.requiredHeaders), r.requiredFields, c);
  }

  lemma OperationFailsFirst(o: Operation, c: Context)
    ensures ErrorOf(OperationBinder(c)(o)) == FirstError(OperationReads(o), c)
  {
    hide FirstError, BindString, BindOptional;
    OptionalFails(o.frame, c);
    FirstErrorOfOne(o.source, c);
    FirstErrorConcat(IfAny(o.frame), [o.source], c);
  }

  lemma OutputFailsFirst(o: Output, c: Context)
    ensures ErrorOf(OutputBinder(c)(o)) == FirstError(OutputReads(o), c)
  {
    hide FirstError, BindString, BindOptional;
    OptionalFails(o.frame, c);
    FirstErrorOfOne(o.source, c);
    FirstErrorConcat(IfAny(o.frame), [o.source], c);
  }

  lemma PageFailsFirst(p: Page, c: Context)
    ensures ErrorOf(PageBinder(c)(p)) == FirstError(PageReads(p), c)
  {
    hide FirstError, BindAll;
    TextsFail(p.urlPatterns, c);
  }

  lemma StepFailsFirst(s: Step, c: Context)
    ensures ErrorOf(StepBinder(c)(s)) == FirstError(StepReads(s), c)
  {
    hide FirstError, BindString, BindOptional, BindAll;
    match s
    case Navigate(_, url, _) => FirstErrorOfOne(url, c);
    case SetInput(_, _, value, _) => FirstErrorOfOne(value, c);
    case ValidateVisualLayout(_, _, instruction, rules, _) =>
      OptionalFails(instruction, c);
      TextsFail(rules, c);
      FirstErrorConcat(IfAny(instruction), rules, c);
    case SolveVisualCaptcha(_, _, _, _, _, t) => SettingsFailFirst(t, c);
    case _ => NothingFails(c);
  }

  lemma SettingsFailFirst(t: CaptchaSettings, c: Context)
    ensures ErrorOf(BindSettings(t, c)) ==
            FirstError(IfAny(t.fieldLabel) + (IfAny(t.placeholder) + (IfAny(t.instruction) + (IfAny(t.llmSystemPrompt)
                       + IfAny(t.llmPromptTemplate)))), c)
  {
    hide FirstError, BindOptional;
    OptionalFails(t.fieldLabel, c);
    OptionalFails(t.placeholder, c);
    OptionalFails(t.instruction, c);
    OptionalFails(t.llmSystemPrompt, c);
    OptionalFails(t.llmPromptTemplate, c);
    var d := IfAny(t.llmSystemPrompt) + IfAny(t.llmPromptTemplate);
    FirstErrorConcat(IfAny(t.llmSystemPrompt), IfAny(t.llmPromptTemplate), c);
    FirstErrorConcat(IfAny(t.instruction), d, c);
    FirstErrorConcat(IfAny(t.placeholder), IfAny(t.instruction) + d, c);
    FirstErrorConcat(IfAny(t.fieldLabel), IfAny(t.placeholder) + (IfAny(t.instruction) + d), c);
  }

  lemma FlowFailsFirst(f: Flow, c: Context)
    ensures ErrorOf(BindFlowTemplates(f, c)) == FirstError(FlowReads(f), c)
  {
    hide FirstError, BindStep, BindOutput, StepReads, OutputReads, Gathered, Traverse;
    forall i | 0 <= i < |f.steps|
      ensures ErrorOf(StepBinder(c)(f.steps[i])) == FirstError(StepReads(f.steps[i]), c)
    {
      StepFailsFirst(f.steps[i], c);
    }
    ListFailsFirst(StepReads, StepBinder(c), f.steps, c);
    forall i | 0 <= i < |f.outputs|
      ensures ErrorOf(OutputBinder(c)(f.outputs[i])) == FirstError(OutputReads(f.outputs[i]), c)
    {
      OutputFailsFirst(f.outputs[i], c);
    }
    ListFailsFirst(OutputReads, OutputBinder(c), f.outputs, c);
    FirstErrorConcat(Gathered(StepReads, f.steps), Gathered(OutputReads, f.outputs), c);
  }

  lemma ElementsFailFirst(xs: seq<Element>, c: Context)
    ensures ErrorOf(Traverse(ElementBinder(c), xs)) == FirstError(Gathered(ElementReads, xs), c)
  {
    hide FirstError, BindElement, ElementReads, Gathered, Traverse;
    forall i | 0 <= i < |xs|
      ensures ErrorOf(ElementBinder(c)(xs[i])) == FirstError(ElementReads(xs[i]), c)
    {
      ElementFailsFirst(xs[i], c);
    }
    ListFailsFirst(ElementReads, ElementBinder(c), xs, c);
  }

  lemma OperationsFailFirst(xs: seq<Operation>, c: Context)
    ensures ErrorOf(Traverse(OperationBinder(c), xs)) == FirstError(Gathered(OperationReads, xs), c)
  {
    hide FirstError, BindOperation, OperationReads, Gathered, Traverse;
    forall i | 0 <= i < |xs|
      ensures ErrorOf(OperationBinder(c)(xs[i])) == FirstError(OperationReads(xs[i]), c)
    {
      OperationFailsFirst(xs[i], c);
    }
    ListFailsFirst(OperationReads, OperationBinder(c), xs, c);
  }

  lemma RequestsFailFirst(xs: seq<Request>, c: Context)
    ensures ErrorOf(Traverse(RequestBinder(c), xs)) == FirstError(Gathered(RequestReads, xs), c)
  {
    hide FirstError, BindRequest, RequestReads, Gathered, Traverse;
    forall i | 0 <= i < |xs|
      ensures ErrorOf(RequestBinder(c)(xs[i])) == FirstError(RequestReads(xs[i]), c)
    {
      RequestFailsFirst(xs[i], c);
    }
    ListFailsFirst(RequestReads, RequestBinder(c), xs, c);
  }

  lemma PagesFailFirst(xs: seq<Page>, c: Context)
    ensures ErrorOf(Traverse(PageBinder(c), xs)) == FirstError(Gathered(PageReads, xs), c)
  {
    hide FirstError, BindPage, PageReads, Gathered, Traverse;
    forall i | 0 <= i < |xs|
      ensures ErrorOf(PageBinder(c)(xs[i])) == FirstError(PageReads(xs[i]), c)
    {
      PageFailsFirst(xs[i], c);
    }
    ListFailsFirst(PageReads, PageBinder(c), xs, c);
  }

  // ----- presets and inputs -----

  /** The strings of a value in the order they are read. */
  ghost function JsonReads(v: Value): seq<string>
    decreases v, 0
  {
    match v
    case String(raw) => [raw]
    case Array(items) => ItemReads(items)
    case Object(entries) => EntryReads(entries)
    case _ => []
  }

  ghost function ItemReads(items: seq<Value>): seq<string>
    decreases items, 1
  {
    if items == [] then [] else JsonReads(items[0]) + ItemReads(items[1..])
  }

  ghost function EntryReads(entries: seq<Entry>): seq<string>
    decreases entries, 1
  {
    if entries == [] then [] else JsonReads(entries[0].value) + EntryReads(entries[1..])
  }

  function FirstMeaningError(raws: seq<string>, c: Context): Option<BlobError> {
    if raws == [] then None
    else OrElse(FirstMeaningError(raws[..|raws| - 1], c), ErrorOf(Meaning(raws[|raws| - 1], c)))
  }

  lemma {:induction false} FirstMeaningErrorConcat(a: seq<string>, b: seq<string>, c: Context)
    ensures FirstMeaningError(a + b, c) == OrElse(FirstMeaningError(a, c), FirstMeaningError(b, c))
  {
    hide Meaning;
    if b == [] {
      assert a + b == a;
    } else {
      assert (a + b)[..|a + b| - 1] == a + b[..|b| - 1];
      FirstMeaningErrorConcat(a, b[..|b| - 1], c);
    }
  }

  lemma {:induction false} JsonFailsFirst(v: Value, c: Context)
    ensures ErrorOf(BindJson(v, c)) == FirstMeaningError(JsonReads(v), c)
    decreases v, 0
  {
    hide Meaning;
    match v
    case String(raw) => assert [raw][..0] == [];
    case Array(items) => ItemsFailFirst(items, c);
    case Object(entries) => EntriesFailFirst(entries, c);
    case _ =>
  }

  lemma {:induction false} ItemsFailFirst(items: seq<Value>, c: Context)
    ensures ErrorOf(BindItems(items, c)) == FirstMeaningError(ItemReads(items), c)
    decreases items, 1
  {
    hide BindJson, JsonReads, Meaning;
    if items != [] {
      JsonFailsFirst(items[0], c);
      ItemsFailFirst(items[1..], c);
      FirstMeaningErrorConcat(JsonReads(items[0]), ItemReads(items[1..]), c);
    }
  }

  lemma {:induction false} EntriesFailFirst(entries: seq<Entry>, c: Context)
    ensures ErrorOf(BindEntries(entries, c)) == FirstMeaningError(EntryReads(entries), c)
    decreases entries, 1
  {
    hide BindJson, JsonReads, Meaning;
    if entries != [] {
      JsonFailsFirst(entries[0].value, c);
      EntriesFailFirst(entries[1..], c);
      FirstMeaningErrorConcat(JsonReads(entries[0].value), EntryReads(entries[1..]), c);
    }
  }

  /** References are read in order: an unknown one fails, a known one with the first failing string of its value. */
  ghost function FirstPresetError(refs: seq<string>, presets: map<string, Value>, c: Context): Option<BlobError> {
    if refs == [] then None
    else
      var last := refs[|refs| - 1];
      OrElse(FirstPresetError(refs[..|refs| - 1], presets, c),
             if last in presets then FirstMeaningError(JsonReads(presets[last]), c)
             else Some(Configuration(UnknownPreset(last))))
  }

  lemma {:induction false} PresetsFailFirst(refs: seq<string>, presets: map<string, Value>, c: Context)
    ensures ErrorOf(BindPresets(refs, presets, c)) == FirstPresetError(refs, presets, c)
  {
    hide BindJson, JsonReads, FirstMeaningError;
    if refs != [] {
      PresetsFailFirst(refs[..|refs| - 1], presets, c);
      var last := refs[|refs| - 1];
      if last in presets {
        JsonFailsFirst(presets[last], c);
      }
    }
  }

  /** The first required input without a value is reported as missing, or as blank when it holds nothing. */
  lemma {:induction false} InputsFailFirst(inputs: seq<Input>, values: map<string, Value>, k: nat)
    requires k < |inputs| && inputs[k].required && InputsAreGiven(inputs[..k], values)
    requires inputs[k].id in values ==> !HoldsSomething(values[inputs[k].id])
    ensures CheckInputs(inputs, values) ==
            var id := inputs[k].id;
            Fail(Configuration(if id !in values then MissingInput(id) else BlankInput(id)))
  {
    hide HoldsSomething, Present;
    if inputs[0].id in values {
      PresentHoldsSomething(values[inputs[0].id]);
    }
    if k > 0 {
      assert inputs[..k][0] == inputs[0];
      assert inputs[1..][..k - 1] == inputs[..k][1..];
      assert forall i :: 0 <= i < k - 1 ==> inputs[..k][1..][i] == inputs[..k][i + 1];
      InputsFailFirst(inputs[1..], values, k - 1);
    }
  }

  // ----- the whole binding -----

  /** The pages a flow and the parts it selects stand on do not depend on how those are bound. */
  ghost function StandingPages(cat: Catalog, f: Flow): seq<Page> {
    var elements, operations := NamedElements(cat, f), NamedOperations(cat, f);
    Keep(PageIn(set x | x in cat.pages && PlanNamesPage(f, elements, operations, x.id) :: x.id), cat.pages)
  }

  /** The order of a binding behind the flow's own texts: presets, elements, operations, requests, pages. */
  ghost function SliceError(cat: Catalog, f: Flow, c: Context): Option<BlobError> {
    OrElse(FirstPresetError(f.presetRefs, cat.presets, c),
      OrElse(FirstError(Gathered(ElementReads, NamedElements(cat, f)), c),
        OrElse(FirstError(Gathered(OperationReads, NamedOperations(cat, f)), c),
          OrElse(FirstError(Gathered(RequestReads, NamedRequests(cat, f)), c),
            FirstError(Gathered(PageReads, StandingPages(cat, f)), c)))))
  }

  lemma ElementsAreThoseNamed(cat: Catalog, f: Flow)
    ensures Keep(ElementIn(ElementsOf(f.steps)), cat.elements) == NamedElements(cat, f)
  {
    hide Keep, ElementsOf, FlowNamesElement;
    forall i | 0 <= i < |cat.elements|
      ensures cat.elements[i].id in ElementsOf(f.steps) <==> FlowNamesElement(f, cat.elements[i].id)
    {
      FlowNamesElementIs(f, cat.elements[i].id);
    }
    KeepAgrees(ElementIn(ElementsOf(f.steps)),
               ElementIn(set e | e in cat.elements && FlowNamesElement(f, e.id) :: e.id), cat.elements);
  }

  lemma OperationsAreThoseNamed(cat: Catalog, f: Flow)
    ensures Keep(OperationIn(OperationsOf(f.steps)), cat.operations) == NamedOperations(cat, f)
  {
    hide Keep, OperationsOf, FlowNamesOperation;
    forall i | 0 <= i < |cat.operations|
      ensures cat.operations[i].id in OperationsOf(f.steps) <==> FlowNamesOperation(f, cat.operations[i].id)
    {
      FlowNamesOperationIs(f, cat.operations[i].id);
    }
    KeepAgrees(OperationIn(OperationsOf(f.steps)),
               OperationIn(set o | o in cat.operations && FlowNamesOperation(f, o.id) :: o.id), cat.operations);
  }

  lemma RequestsAreThoseNamed(cat: Catalog, f: Flow)
    ensures Keep(RequestIn(RequestRefs(f)), cat.requests) == NamedRequests(cat, f)
  {
    hide Keep, RequestRefs, FlowNamesRequest;
    forall i | 0 <= i < |cat.requests|
      ensures cat.requests[i].id in RequestRefs(f) <==> FlowNamesRequest(f, cat.requests[i].id)
    {
      RequestsAreNamed(f, cat.requests[i].id);
    }
    KeepAgrees(RequestIn(RequestRefs(f)),
               RequestIn(set r | r in cat.requests && FlowNamesRequest(f, r.id) :: r.id), cat.requests);
  }

  lemma PagesAreThoseNamed(cat: Catalog, f: Flow)
    ensures Keep(PageIn(PageRefs(f, NamedElements(cat, f), NamedOperations(cat, f))), cat.pages) ==
            StandingPages(cat, f)
  {
    hide Keep, PageRefs, PlanNamesPage, NamedElements, NamedOperations;
    var elements, operations := NamedElements(cat, f), NamedOperations(cat, f);
    forall i | 0 <= i < |cat.pages|
      ensures cat.pages[i].id in PageRefs(f, elements, operations) <==>
              PlanNamesPage(f, elements, operations, cat.pages[i].id)
    {
      PlanPagesAreNamed(f, elements, operations, cat.pages[i].id);
    }
    KeepAgrees(PageIn(PageRefs(f, elements, operations)),
               PageIn(set x | x in cat.pages && PlanNamesPage(f, elements, operations, x.id) :: x.id), cat.pages);
  }

  /** Behind the flow's own texts, the parts of a plan are bound in the order of `SliceError`. */
  lemma SliceFailsFirst(cat: Catalog, f: Flow, c: Context)
    ensures ErrorOf(SliceAndBind(cat, f, c)) == SliceError(cat, f, c)
  {
    hide Traverse, Keep, BindPresets, ElementsOf, OperationsOf, RequestRefs, PageRefs, FirstPresetError, FirstError,
         Gathered, NamedElements, NamedOperations, NamedRequests, StandingPages;
    PresetsFailFirst(f.presetRefs, cat.presets, c);
    ElementsAreThoseNamed(cat, f);
    ElementsFailFirst(NamedElements(cat, f), c);
    OperationsAreThoseNamed(cat, f);
    OperationsFailFirst(NamedOperations(cat, f), c);
    RequestsAreThoseNamed(cat, f);
    RequestsFailFirst(NamedRequests(cat, f), c);
    PagesFailFirst(StandingPages(cat, f), c);
    var elements := Traverse(ElementBinder(c), NamedElements(cat, f));
    var operations := Traverse(OperationBinder(c), NamedOperations(cat, f));
    if elements.Ok? && operations.Ok? {
      PagesAreThoseNamed(cat, f);
      ReachedAreNamed(cat, f);
      SlicedPagesAreReachable(cat, f, c);
    }
  }

  lemma ReachedAreNamed(cat: Catalog, f: Flow)
    ensures ReachableElements(cat, f) == NamedElements(cat, f)
    ensures ReachableOperations(cat, f) == NamedOperations(cat, f)
  {
    hide Keep, ElementsOf, OperationsOf, NamedElements, NamedOperations;
    ElementsAreThoseNamed(cat, f);
    OperationsAreThoseNamed(cat, f);
  }

  /** A binding fails in this order: an unknown flow, its inputs, its own texts, and then its parts. */
  lemma BindingFailsInOrder(cat: Catalog, flowId: string, c: Context)
    ensures (forall f :: f in cat.flows ==> f.id != flowId) ==> Binding(cat, flowId, c) == Err(NotFound(flowId))
    ensures forall f :: FirstFlow(cat.flows, flowId, f) && !InputsAreGiven(f.inputs, c.inputs) ==>
              CheckInputs(f.inputs, c.inputs).Fail?
              && Binding(cat, flowId, c) == Err(CheckInputs(f.inputs, c.inputs).error)
    ensures forall f :: FirstFlow(cat.flows, flowId, f) && InputsAreGiven(f.inputs, c.inputs)
                        && FirstError(FlowReads(f), c).Some? ==>
              Binding(cat, flowId, c) == Err(FirstError(FlowReads(f), c).value)
    ensures forall f, g :: FirstFlow(cat.flows, flowId, f) && InputsAreGiven(f.inputs, c.inputs) && FlowIsBound(f, g, c)
                           && SliceError(cat, g, c).Some? ==>
              Binding(cat, flowId, c) == Err(SliceError(cat, g, c).value)
  {
    hide FindFlow, FirstFlow, CheckInputs, InputsAreGiven, BindFlowTemplates, SliceAndBind, FlowIsBound, FirstError,
         FlowReads, SliceError;
    forall f
      ensures FindFlow(cat.flows, flowId) == Some(f) <==> FirstFlow(cat.flows, flowId, f)
    {
      FlowIsFirst(cat.flows, flowId, f);
    }
    var found := FindFlow(cat.flows, flowId);
    if found.Some? {
      InputsAreChecked(found.value.inputs, c.inputs);
      FlowFailsFirst(found.value, c);
      var bound := BindFlowTemplates(found.value, c);
      forall g
        ensures bound == Ok(g) <==> FlowIsBound(found.value, g, c)
      {
        FlowIsBoundInPlace(found.value, g, c);
      }
      if bound.Ok? {
        SliceFailsFirst(cat, bound.value, c);
      }
    }
  }
}
