/** Specialising a catalog to one flow and one context: template expansion and a reference-directed slice. */
module FlowBinding {
  import opened Results
  import opened Text
  import opened Json
  import opened Templates
  import opened FlowModel

  // ----- binding one entity -----

  function BindOptional(raw: Option<string>, context: Context): Result<Option<string>, BlobError> {
    if raw.None? then Ok(None)
    else
      var bound :- BindString(raw.value, context);
      Ok(Some(bound))
  }

  function StringBinder(context: Context): string -> Result<string, BlobError> {
    raw => BindString(raw, context)
  }

  function BindAll(raws: seq<string>, context: Context): Result<seq<string>, BlobError> {
    Traverse(StringBinder(context), raws)
  }

  function BindPage(p: Page, context: Context): Result<Page, BlobError> {
    var patterns :- BindAll(p.urlPatterns, context);
    Ok(p.(urlPatterns := patterns))
  }

  function BindSelector(s: Selector, context: Context): Result<Selector, BlobError> {
    var value :- BindString(s.value, context);
    var text :- BindOptional(s.textContains, context);
    Ok(s.(value := value, textContains := text))
  }

  function SelectorBinder(context: Context): Selector -> Result<Selector, BlobError> {
    s => BindSelector(s, context)
  }

  function BindElement(e: Element, context: Context): Result<Element, BlobError> {
    var frame :- BindOptional(e.frame, context);
    var selectors :- Traverse(SelectorBinder(context), e.selectors);
    Ok(e.(frame := frame, selectors := selectors))
  }

  function BindHeader(h: HeaderMatcher, context: Context): Result<HeaderMatcher, BlobError> {
    var template :- BindOptional(h.valueTemplate, context);
    Ok(h.(valueTemplate := template))
  }

  function HeaderBinder(context: Context): HeaderMatcher -> Result<HeaderMatcher, BlobError> {
    h => BindHeader(h, context)
  }

  function BindRequest(r: Request, context: Context): Result<Request, BlobError> {
    var pattern :- BindString(r.urlPattern, context);
    var headers :- Traverse(HeaderBinder(context), r.requiredHeaders);
    var fields :- BindAll(r.requiredFields, context);
    Ok(r.(urlPattern := pattern, requiredHeaders := headers, requiredFields := fields))
  }

  function BindOperation(o: Operation, context: Context): Result<Operation, BlobError> {
    var frame :- BindOptional(o.frame, context);
    var source :- BindString(o.source, context);
    Ok(o.(frame := frame, source := source))
  }

  function BindSettings(s: CaptchaSettings, context: Context): Result<CaptchaSettings, BlobError> {
    var fieldLabel :- BindOptional(s.fieldLabel, context);
    var placeholder :- BindOptional(s.placeholder, context);
    var instruction :- BindOptional(s.instruction, context);
    var systemPrompt :- BindOptional(s.llmSystemPrompt, context);
    var promptTemplate :- BindOptional(s.llmPromptTemplate, context);
    Ok(s.(fieldLabel := fieldLabel, placeholder := placeholder, instruction := instruction,
          llmSystemPrompt := systemPrompt, llmPromptTemplate := promptTemplate))
  }

  function BindStep(s: Step, context: Context): Result<Step, BlobError> {
    match s
    case Navigate(_, url, _) =>
      var bound :- BindString(url, context);
      Ok(s.(url := bound))
    case SetInput(_, _, template, _) =>
      var bound :- BindString(template, context);
      Ok(s.(valueTemplate := bound))
    case ValidateVisualLayout(_, _, instruction, rules, _) =>
      var boundInstruction :- BindOptional(instruction, context);
      var boundRules :- BindAll(rules, context);
      Ok(s.(instruction := boundInstruction, relationshipRules := boundRules))
    case SolveVisualCaptcha(_, _, _, _, _, settings) =>
      var bound :- BindSettings(settings, context);
      Ok(s.(settings := bound))
    case _ => Ok(s)
  }

  function StepBinder(context: Context): Step -> Result<Step, BlobError> {
    s => BindStep(s, context)
  }

  /** An output's frame and source are bound; its fallback sources are left as they stand. */
  function BindOutput(o: Output, context: Context): Result<Output, BlobError> {
    var frame :- BindOptional(o.frame, context);
    var source :- BindString(o.source, context);
    Ok(o.(frame := frame, source := source))
  }

  function OutputBinder(context: Context): Output -> Result<Output, BlobError> {
    o => BindOutput(o, context)
  }

  function PageBinder(context: Context): Page -> Result<Page, BlobError> {
    p => BindPage(p, context)
  }

  function ElementBinder(context: Context): Element -> Result<Element, BlobError> {
    e => BindElement(e, context)
  }

  function RequestBinder(context: Context): Request -> Result<Request, BlobError> {
    r => BindRequest(r, context)
  }

  function OperationBinder(context: Context): Operation -> Result<Operation, BlobError> {
    o => BindOperation(o, context)
  }

  function BindFlowTemplates(f: Flow, context: Context): Result<Flow, BlobError> {
    var steps :- Traverse(StepBinder(context), f.steps);
    var outputs :- Traverse(OutputBinder(context), f.outputs);
    Ok(f.(steps := steps, outputs := outputs))
  }

  // ----- references of a whole flow -----

  function ElementsOf(steps: seq<Step>): set<string> {
    if steps == [] then {} else ElementsOf(steps[..|steps| - 1]) + StepElements(steps[|steps| - 1])
  }

  function PagesOf(steps: seq<Step>): set<string> {
    if steps == [] then {} else PagesOf(steps[..|steps| - 1]) + StepPages(steps[|steps| - 1])
  }

  function OperationsOf(steps: seq<Step>): set<string> {
    if steps == [] then {} else OperationsOf(steps[..|steps| - 1]) + StepOperations(steps[|steps| - 1])
  }

  function RequestsOf(steps: seq<Step>): set<string> {
    if steps == [] then {} else RequestsOf(steps[..|steps| - 1]) + StepRequests(steps[|steps| - 1])
  }

  /** The request an output source names: the part before a colon, or all of it for a header set. */
  function SourceRequest(kind: OutputKind, source: string): set<string> {
    var named := match SplitOnce(source, ':')
      case Some((id, _)) => Trim(id)
      case None => if kind.RequestHeaders? then Trim(source) else "";
    if named == "" then {} else {named}
  }

  function SourceRequests(kind: OutputKind, sources: seq<string>): set<string> {
    if sources == [] then {}
    else SourceRequests(kind, sources[..|sources| - 1]) + SourceRequest(kind, sources[|sources| - 1])
  }

  function OutputRequests(o: Output): set<string> {
    if o.kind.RequestHeader? || o.kind.RequestHeaders? || o.kind.RequestField? then
      SourceRequests(o.kind, [o.source] + o.fallbackSources)
    else {}
  }

  function RequestsOfOutputs(outputs: seq<Output>): set<string> {
    if outputs == [] then {}
    else RequestsOfOutputs(outputs[..|outputs| - 1]) + OutputRequests(outputs[|outputs| - 1])
  }

  /** The requests a bound flow refers to. */
  function RequestRefs(f: Flow): set<string> {
    RequestsOf(f.steps) + (set r | r in f.expectedRequests) + RequestsOfOutputs(f.outputs)
  }

  function PagesOfElements(elements: seq<Element>): set<string> {
    set e | e in elements :: e.page
  }

  function PagesOfOperations(operations: seq<Operation>): set<string> {
    set o | o in operations && o.page.Some? :: o.page.value
  }

  function PageIn(ids: set<string>): Page -> bool {
    (p: Page) => p.id in ids
  }

  function ElementIn(ids: set<string>): Element -> bool {
    (e: Element) => e.id in ids
  }

  function RequestIn(ids: set<string>): Request -> bool {
    (r: Request) => r.id in ids
  }

  function OperationIn(ids: set<string>): Operation -> bool {
    (o: Operation) => o.id in ids
  }

  // ----- the specification of `bind_flow` -----

  function CheckInputs(inputs: seq<Input>, values: map<string, Value>): Outcome<BlobError> {
    if inputs == [] then Pass
    else
      var input := inputs[0];
      if !input.required then CheckInputs(inputs[1..], values)
      else if input.id !in values then Fail(Configuration(MissingInput(input.id)))
      else if !Present(values[input.id]) then Fail(Configuration(BlankInput(input.id)))
      else CheckInputs(inputs[1..], values)
  }

  function BindPresets(refs: seq<string>, presets: map<string, Value>, context: Context)
    : Result<map<string, Value>, BlobError>
  {
    if refs == [] then Ok(map[])
    else
      var last := refs[|refs| - 1];
      var init :- BindPresets(refs[..|refs| - 1], presets, context);
      if last !in presets then Err(Configuration(UnknownPreset(last)))
      else
        var bound :- BindJson(presets[last], context);
        Ok(init[last := bound])
  }

  /** The pages the bound flow, its elements and its operations stand on. */
  function PageRefs(f: Flow, elements: seq<Element>, operations: seq<Operation>): set<string> {
    {f.startPage} + PagesOf(f.steps) + PagesOfElements(elements) + PagesOfOperations(operations)
  }

  function SliceAndBind(c: Catalog, f: Flow, context: Context): Result<Plan, BlobError> {
    var presets :- BindPresets(f.presetRefs, c.presets, context);
    var elements :- Traverse(ElementBinder(context), Keep(ElementIn(ElementsOf(f.steps)), c.elements));
    var operations :- Traverse(OperationBinder(context), Keep(OperationIn(OperationsOf(f.steps)), c.operations));
    var requests :- Traverse(RequestBinder(context), Keep(RequestIn(RequestRefs(f)), c.requests));
    var pages :- Traverse(PageBinder(context), Keep(PageIn(PageRefs(f, elements, operations)), c.pages));
    Ok(Plan(c.provider, c.surface, f, context, presets, pages, elements, requests, operations))
  }

  function Binding(c: Catalog, flowId: string, context: Context): Result<Plan, BlobError> {
    match FindFlow(c.flows, flowId)
    case None => Err(NotFound(flowId))
    case Some(flow) =>
      var checked := CheckInputs(flow.inputs, context.inputs);
      if checked.Fail? then Err(checked.error)
      else
        var bound :- BindFlowTemplates(flow, context);
        SliceAndBind(c, bound, context)
  }

  // ----- the loops of the source -----

  method ValidateRequiredInputs(inputs: seq<Input>, values: map<string, Value>) returns (r: Outcome<BlobError>)
    ensures r == CheckInputs(inputs, values)
    ensures r.Pass? <==> forall i :: i in inputs && i.required ==> i.id in values && Present(values[i.id])
  {
    for k := 0 to |inputs|
      invariant CheckInputs(inputs, values) == CheckInputs(inputs[k..], values)
      invariant forall j :: 0 <= j < k && inputs[j].required ==> inputs[j].id in values && Present(values[inputs[j].id])
    {
      assert inputs[k..][1..] == inputs[k + 1..];
      var input := inputs[k];
      assert input in inputs;
      if input.required {
        if input.id !in values {
          return Fail(Configuration(MissingInput(input.id)));
        }
        if !Present(values[input.id]) {
          return Fail(Configuration(BlankInput(input.id)));
        }
      }
    }
    return Pass;
  }

  method CollectReferences(steps: seq<Step>)
    returns (pages: set<string>, elements: set<string>, requests: set<string>, operations: set<string>)
    ensures pages == PagesOf(steps) && elements == ElementsOf(steps)
    ensures requests == RequestsOf(steps) && operations == OperationsOf(steps)
  {
    pages, elements, requests, operations := {}, {}, {}, {};
    for i := 0 to |steps|
      invariant pages == PagesOf(steps[..i]) && elements == ElementsOf(steps[..i])
      invariant requests == RequestsOf(steps[..i]) && operations == OperationsOf(steps[..i])
    {
      assert steps[..i + 1][..i] == steps[..i];
      pages := pages + StepPages(steps[i]);
      elements := elements + StepElements(steps[i]);
      requests := requests + StepRequests(steps[i]);
      operations := operations + StepOperations(steps[i]);
    }
    assert steps[..|steps|] == steps;
  }

  method CollectOutputRequests(outputs: seq<Output>) returns (requests: set<string>)
    ensures requests == RequestsOfOutputs(outputs)
  {
    requests := {};
    for i := 0 to |outputs|
      invariant requests == RequestsOfOutputs(outputs[..i])
    {
      assert outputs[..i + 1][..i] == outputs[..i];
      var o := outputs[i];
      if o.kind.RequestHeader? || o.kind.RequestHeaders? || o.kind.RequestField? {
        var sources := [o.source] + o.fallbackSources;
        ghost var before := requests;
        for k := 0 to |sources|
          invariant requests == before + SourceRequests(o.kind, sources[..k])
        {
          assert sources[..k + 1][..k] == sources[..k];
          requests := requests + SourceRequest(o.kind, sources[k]);
        }
        assert sources[..|sources|] == sources;
      }
    }
    assert outputs[..|outputs|] == outputs;
  }

  lemma {:induction false} PresetsStopEarly(refs: seq<string>, k: nat, presets: map<string, Value>, context: Context)
    requires k <= |refs| && BindPresets(refs[..k], presets, context).Err?
    ensures BindPresets(refs, presets, context) == BindPresets(refs[..k], presets, context)
  {
    if k < |refs| {
      assert refs[..|refs| - 1][..k] == refs[..k];
      PresetsStopEarly(refs[..|refs| - 1], k, presets, context);
    } else {
      assert refs[..k] == refs;
    }
  }

  method CollectPresets(refs: seq<string>, presets: map<string, Value>, context: Context)
    returns (r: Result<map<string, Value>, BlobError>)
    ensures r == BindPresets(refs, presets, context)
  {
    var bound: map<string, Value> := map[];
    for i := 0 to |refs|
      invariant BindPresets(refs[..i], presets, context) == Ok(bound)
    {
      assert refs[..i + 1][..i] == refs[..i];
      if refs[i] !in presets {
        PresetsStopEarly(refs, i + 1, presets, context);
        return Err(Configuration(UnknownPreset(refs[i])));
      }
      var value := BindJson(presets[refs[i]], context);
      if value.Err? {
        PresetsStopEarly(refs, i + 1, presets, context);
        return Err(value.error);
      }
      bound := bound[refs[i] := value.value];
    }
    assert refs[..|refs|] == refs;
    return Ok(bound);
  }

  method BindFlow(c: Catalog, flowId: string, context: Context) returns (r: Result<Plan, BlobError>)
    ensures r == Binding(c, flowId, context)
  {
    hide BindPresets, ElementsOf, OperationsOf, PagesOf, RequestsOf, RequestsOfOutputs, Traverse, Keep, CheckInputs;
    var found := FindFlow(c.flows, flowId);
    if found.None? {
      return Err(NotFound(flowId));
    }
    var checked := ValidateRequiredInputs(found.value.inputs, context.inputs);
    if checked.Fail? {
      return Err(checked.error);
    }
    var steps :- BindEach(StepBinder(context), found.value.steps);
    var outputs :- BindEach(OutputBinder(context), found.value.outputs);
    var flow := found.value.(steps := steps, outputs := outputs);
    var pageIds, elementIds, requestIds, operationIds := CollectReferences(steps);
    var outputRequests := CollectOutputRequests(outputs);
    var expected := set q | q in flow.expectedRequests;
    var presets :- CollectPresets(flow.presetRefs, c.presets, context);
    var elements :- SelectEach(ElementIn(elementIds), ElementBinder(context), c.elements);
    var operations :- SelectEach(OperationIn(operationIds), OperationBinder(context), c.operations);
    var requests :- SelectEach(RequestIn(requestIds + expected + outputRequests), RequestBinder(context), c.requests);
    pageIds := {flow.startPage} + pageIds + PagesOfElements(elements) + PagesOfOperations(operations);
    var pages :- SelectEach(PageIn(pageIds), PageBinder(context), c.pages);
    return Ok(Plan(c.provider, c.surface, flow, context, presets, pages, elements, requests, operations));
  }

  // ----- the slice is exact and keeps its ids -----

  /** Binding touches text only: the id and every reference of a step survive it. */
  predicate SameReferences(s: Step, t: Step) {
    && s.id == t.id
    && StepElements(s) == StepElements(t) && StepPages(s) == StepPages(t)
    && StepOperations(s) == StepOperations(t) && StepRequests(s) == StepRequests(t)
    && (s.SolveVisualCaptcha? <==> t.SolveVisualCaptcha?) && (s.SetFiles? <==> t.SetFiles?)
    && (s.SolveVisualCaptcha? ==> s.inputId == t.inputId) && (s.SetFiles? ==> s.inputRef == t.inputRef)
  }

  lemma BoundStepKeepsReferences(s: Step, context: Context)
    requires BindStep(s, context).Ok?
    ensures SameReferences(s, BindStep(s, context).value)
  {
  }

  lemma {:induction false} SameReferencesSameSets(ss: seq<Step>, ts: seq<Step>)
    requires |ss| == |ts| && forall i :: 0 <= i < |ss| ==> SameReferences(ss[i], ts[i])
    ensures ElementsOf(ss) == ElementsOf(ts) && PagesOf(ss) == PagesOf(ts)
    ensures OperationsOf(ss) == OperationsOf(ts) && RequestsOf(ss) == RequestsOf(ts)
  {
    if ss != [] {
      SameReferencesSameSets(ss[..|ss| - 1], ts[..|ts| - 1]);
    }
  }

  /** The references of a list of steps are those of its members. */
  lemma {:induction false} ReferencesOfMember(steps: seq<Step>, i: nat)
    requires i < |steps|
    ensures StepElements(steps[i]) <= ElementsOf(steps) && StepPages(steps[i]) <= PagesOf(steps)
    ensures StepOperations(steps[i]) <= OperationsOf(steps) && StepRequests(steps[i]) <= RequestsOf(steps)
  {
    if i < |steps| - 1 {
      ReferencesOfMember(steps[..|steps| - 1], i);
    }
  }

  lemma BoundFlowKeepsShape(f: Flow, context: Context)
    requires BindFlowTemplates(f, context).Ok?
    ensures var b := BindFlowTemplates(f, context).value;
            && b == f.(steps := b.steps, outputs := b.outputs)
            && |b.steps| == |f.steps| && forall i :: 0 <= i < |f.steps| ==> SameReferences(f.steps[i], b.steps[i])
    ensures var b := BindFlowTemplates(f, context).value;
            && ElementsOf(b.steps) == ElementsOf(f.steps) && PagesOf(b.steps) == PagesOf(f.steps)
            && OperationsOf(b.steps) == OperationsOf(f.steps) && RequestsOf(b.steps) == RequestsOf(f.steps)
  {
    hide ElementsOf, PagesOf, OperationsOf, RequestsOf, Traverse, BindStep, SameReferences;
    var b := BindFlowTemplates(f, context).value;
    forall i | 0 <= i < |f.steps|
      ensures SameReferences(f.steps[i], b.steps[i])
    {
      assert StepBinder(context)(f.steps[i]) == Ok(b.steps[i]);
      BoundStepKeepsReferences(f.steps[i], context);
    }
    SameReferencesSameSets(f.steps, b.steps);
  }

  /** `ys` is `xs` with only template text replaced: same length, order, ids and page references. */
  ghost predicate BoundElements(xs: seq<Element>, ys: seq<Element>) {
    |xs| == |ys| && forall i :: 0 <= i < |xs| ==>
      ys[i] == xs[i].(frame := ys[i].frame, selectors := ys[i].selectors) && |ys[i].selectors| == |xs[i].selectors|
  }

  ghost predicate BoundOperations(xs: seq<Operation>, ys: seq<Operation>) {
    |xs| == |ys| && forall i :: 0 <= i < |xs| ==> ys[i] == xs[i].(frame := ys[i].frame, source := ys[i].source)
  }

  ghost predicate BoundRequests(xs: seq<Request>, ys: seq<Request>) {
    |xs| == |ys| && forall i :: 0 <= i < |xs| ==>
      ys[i] == xs[i].(urlPattern := ys[i].urlPattern, requiredHeaders := ys[i].requiredHeaders,
                      requiredFields := ys[i].requiredFields)
  }

  ghost predicate BoundPages(xs: seq<Page>, ys: seq<Page>) {
    |xs| == |ys| && forall i :: 0 <= i < |xs| ==> ys[i] == xs[i].(urlPatterns := ys[i].urlPatterns)
  }

  lemma BoundPartsKeepIds(c: Catalog, f: Flow, context: Context)
    requires SliceAndBind(c, f, context).Ok?
    ensures var plan := SliceAndBind(c, f, context).value;
            && BoundElements(Keep(ElementIn(ElementsOf(f.steps)), c.elements), plan.elements)
            && BoundOperations(Keep(OperationIn(OperationsOf(f.steps)), c.operations), plan.operations)
            && BoundRequests(Keep(RequestIn(RequestRefs(f)), c.requests), plan.requests)
            && BoundPages(Keep(PageIn(PageRefs(f, plan.elements, plan.operations)), c.pages), plan.pages)
  {
    hide ElementsOf, PagesOf, OperationsOf, RequestsOf, RequestsOfOutputs, BindPresets, Traverse, Keep, BindString,
         BindAll;
    var plan := SliceAndBind(c, f, context).value;
    forall i | 0 <= i < |plan.elements|
      ensures var x := Keep(ElementIn(ElementsOf(f.steps)), c.elements)[i];
              plan.elements[i] == x.(frame := plan.elements[i].frame, selectors := plan.elements[i].selectors)
              && |plan.elements[i].selectors| == |x.selectors|
    {
      assert ElementBinder(context)(Keep(ElementIn(ElementsOf(f.steps)), c.elements)[i]) == Ok(plan.elements[i]);
    }
    var kept := Keep(OperationIn(OperationsOf(f.steps)), c.operations);
    forall i | 0 <= i < |plan.operations|
      ensures plan.operations[i] ==
              kept[i].(frame := plan.operations[i].frame, source := plan.operations[i].source)
    {
      assert OperationBinder(context)(kept[i]) == Ok(plan.operations[i]);
    }
  }
}
