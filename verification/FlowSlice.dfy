/** What binding keeps, what it selects, and what it can depend on. */
module FlowSlice {
  import opened Results
  import opened Json
  import opened Templates
  import opened TemplateLaws
  import opened FlowModel
  import opened FlowBinding
  import opened TemplateTexts

  // ----- the plan is an exact slice of the catalog -----

  lemma BoundElementsKeepPages(xs: seq<Element>, ys: seq<Element>)
    requires BoundElements(xs, ys)
    ensures PagesOfElements(xs) == PagesOfElements(ys)
  {
    forall i | 0 <= i < |xs|
      ensures xs[i].page in PagesOfElements(ys) && ys[i].page in PagesOfElements(xs)
    {
      assert ys[i] in ys && xs[i] in xs;
    }
  }

  lemma BoundOperationsKeepPages(xs: seq<Operation>, ys: seq<Operation>)
    requires BoundOperations(xs, ys)
    ensures PagesOfOperations(xs) == PagesOfOperations(ys)
  {
    forall i | 0 <= i < |xs| && xs[i].page.Some?
      ensures xs[i].page.value in PagesOfOperations(ys) && ys[i].page.value in PagesOfOperations(xs)
    {
      assert ys[i] in ys && xs[i] in xs;
    }
  }

  /** The elements, operations and pages reachable from an unbound flow, in catalog order. */
  function ReachableElements(c: Catalog, f: Flow): seq<Element> {
    Keep(ElementIn(ElementsOf(f.steps)), c.elements)
  }

  function ReachableOperations(c: Catalog, f: Flow): seq<Operation> {
    Keep(OperationIn(OperationsOf(f.steps)), c.operations)
  }

  function ReachablePages(c: Catalog, f: Flow): seq<Page> {
    Keep(PageIn(PageRefs(f, ReachableElements(c, f), ReachableOperations(c, f))), c.pages)
  }

  /** The presets of a plan are the referenced ones, each bound under the context. */
  ghost predicate BoundPresets(refs: seq<string>, presets: map<string, Value>, bound: map<string, Value>,
                               context: Context)
  {
    && bound.Keys == Members(refs) && bound.Keys <= presets.Keys
    && forall p :: p in bound ==> BindJson(presets[p], context) == Ok(bound[p])
  }

  lemma {:induction false} PresetsAreBound(refs: seq<string>, presets: map<string, Value>, context: Context)
    requires BindPresets(refs, presets, context).Ok?
    ensures BoundPresets(refs, presets, BindPresets(refs, presets, context).value, context)
  {
    hide BindJson;
    if refs != [] {
      var init, last := refs[..|refs| - 1], refs[|refs| - 1];
      PresetsAreBound(init, presets, context);
      assert refs == init + [last];
      assert Members(refs) == Members(init) + {last};
    }
  }

  /**
   * A plan holds exactly what the unbound flow reaches, in catalog order and with every id and
   * reference unchanged; only the request list depends on the bound output sources.
   */
  lemma PlanIsExactSlice(c: Catalog, flowId: string, context: Context)
    requires Binding(c, flowId, context).Ok?
    ensures var plan, flow := Binding(c, flowId, context).value, FindFlow(c.flows, flowId).value;
            && plan.flow == flow.(steps := plan.flow.steps, outputs := plan.flow.outputs)
            && |plan.flow.steps| == |flow.steps|
            && (forall i :: 0 <= i < |flow.steps| ==> SameReferences(flow.steps[i], plan.flow.steps[i]))
            && BoundElements(ReachableElements(c, flow), plan.elements)
            && BoundOperations(ReachableOperations(c, flow), plan.operations)
            && BoundPages(ReachablePages(c, flow), plan.pages)
            && BoundRequests(Keep(RequestIn(RequestRefs(plan.flow)), c.requests), plan.requests)
            && BoundPresets(flow.presetRefs, c.presets, plan.presets, context)
            && plan.context == context
  {
    hide ElementsOf, PagesOf, OperationsOf, RequestsOf, RequestsOfOutputs, BindPresets, Traverse, Keep, CheckInputs,
         SameReferences, BoundElements, BoundOperations, BoundPages, BoundRequests, BoundPresets;
    var flow := FindFlow(c.flows, flowId).value;
    PresetsAreBound(flow.presetRefs, c.presets, context);
    BoundFlowKeepsShape(flow, context);
    var b := BindFlowTemplates(flow, context).value;
    BoundPartsKeepIds(c, b, context);
    var plan := Binding(c, flowId, context).value;
    BoundElementsKeepPages(ReachableElements(c, flow), plan.elements);
    BoundOperationsKeepPages(ReachableOperations(c, flow), plan.operations);
    assert PageRefs(b, plan.elements, plan.operations) ==
           PageRefs(flow, ReachableElements(c, flow), ReachableOperations(c, flow));
  }

  // ----- a binding reads nothing it does not mention -----

  lemma OptionalBindsAlike(raw: Option<string>, c: Context, d: Context)
    requires AgreeOnAll(SetOf(raw), c, d)
    ensures BindOptional(raw, c) == BindOptional(raw, d)
  {
    hide BindString, AgreeOn;
    if raw.Some? {
      MeaningAgrees(raw.value, c, d);
    }
  }

  lemma AllBindAlike(raws: seq<string>, c: Context, d: Context)
    requires AgreeOnAll(Members(raws), c, d)
    ensures BindAll(raws, c) == BindAll(raws, d)
  {
    hide BindString, AgreeOn;
    forall raw | raw in raws
      ensures StringBinder(c)(raw) == StringBinder(d)(raw)
    {
      MeaningAgrees(raw, c, d);
    }
    TraverseAgrees(StringBinder(c), StringBinder(d), raws);
  }

  lemma StepBindsAlike(s: Step, c: Context, d: Context)
    requires AgreeOnAll(StepTexts(s), c, d)
    ensures StepBinder(c)(s) == StepBinder(d)(s)
  {
    hide BindString, BindOptional, BindAll, AgreeOn, SetOf, Members;
    match s
    case Navigate(_, url, _) => MeaningAgrees(url, c, d);
    case SetInput(_, _, template, _) => MeaningAgrees(template, c, d);
    case ValidateVisualLayout(_, _, instruction, rules, _) =>
      OptionalBindsAlike(instruction, c, d);
      AllBindAlike(rules, c, d);
    case SolveVisualCaptcha(_, _, _, _, _, t) =>
      OptionalBindsAlike(t.fieldLabel, c, d);
      OptionalBindsAlike(t.placeholder, c, d);
      OptionalBindsAlike(t.instruction, c, d);
      OptionalBindsAlike(t.llmSystemPrompt, c, d);
      OptionalBindsAlike(t.llmPromptTemplate, c, d);
    case _ =>
  }

  lemma OutputBindsAlike(o: Output, c: Context, d: Context)
    requires AgreeOnAll(OutputTexts(o), c, d)
    ensures OutputBinder(c)(o) == OutputBinder(d)(o)
  {
    hide BindString, BindOptional, AgreeOn, SetOf;
    OptionalBindsAlike(o.frame, c, d);
    MeaningAgrees(o.source, c, d);
  }

  lemma SelectorBindsAlike(s: Selector, c: Context, d: Context)
    requires AgreeOnAll(SelectorTexts(s), c, d)
    ensures SelectorBinder(c)(s) == SelectorBinder(d)(s)
  {
    hide BindString, BindOptional, AgreeOn, SetOf;
    MeaningAgrees(s.value, c, d);
    OptionalBindsAlike(s.textContains, c, d);
  }

  lemma ElementBindsAlike(e: Element, c: Context, d: Context)
    requires AgreeOnAll(ElementTexts(e), c, d)
    ensures ElementBinder(c)(e) == ElementBinder(d)(e)
  {
    hide BindOptional, BindSelector, AgreeOn, SetOf, SelectorTexts, TextsOf, Traverse;
    OptionalBindsAlike(e.frame, c, d);
    forall i | 0 <= i < |e.selectors| && AgreeOnAll(SelectorTexts(e.selectors[i]), c, d)
      ensures SelectorBinder(c)(e.selectors[i]) == SelectorBinder(d)(e.selectors[i])
    {
      SelectorBindsAlike(e.selectors[i], c, d);
    }
    ListBindsAlike(SelectorTexts, SelectorBinder(c), SelectorBinder(d), e.selectors, c, d);
  }

  lemma RequestBindsAlike(r: Request, c: Context, d: Context)
    requires AgreeOnAll(RequestTexts(r), c, d)
    ensures RequestBinder(c)(r) == RequestBinder(d)(r)
  {
    hide BindString, BindOptional, BindAll, AgreeOn, SetOf, Members, TextsOf, Traverse;
    MeaningAgrees(r.urlPattern, c, d);
    forall i | 0 <= i < |r.requiredHeaders| && AgreeOnAll(HeaderTexts(r.requiredHeaders[i]), c, d)
      ensures HeaderBinder(c)(r.requiredHeaders[i]) == HeaderBinder(d)(r.requiredHeaders[i])
    {
      OptionalBindsAlike(r.requiredHeaders[i].valueTemplate, c, d);
    }
    ListBindsAlike(HeaderTexts, HeaderBinder(c), HeaderBinder(d), r.requiredHeaders, c, d);
    AllBindAlike(r.requiredFields, c, d);
  }

  lemma OperationBindsAlike(o: Operation, c: Context, d: Context)
    requires AgreeOnAll(OperationTexts(o), c, d)
    ensures OperationBinder(c)(o) == OperationBinder(d)(o)
  {
    hide BindString, BindOptional, AgreeOn, SetOf;
    OptionalBindsAlike(o.frame, c, d);
    MeaningAgrees(o.source, c, d);
  }

  lemma {:induction false} PresetsBindAlike(refs: seq<string>, presets: map<string, Value>, c: Context, d: Context)
    requires AgreeOnAll(PresetTexts(presets, Members(refs)), c, d)
    ensures BindPresets(refs, presets, c) == BindPresets(refs, presets, d)
  {
    hide AgreeOn, BindJson, JsonTexts;
    if refs != [] {
      var last := refs[|refs| - 1];
      assert last in Members(refs) && Members(refs[..|refs| - 1]) <= Members(refs);
      PresetsBindAlike(refs[..|refs| - 1], presets, c, d);
      if last in presets {
        assert JsonTexts(presets[last]) <= PresetTexts(presets, Members(refs));
        BindJsonAgrees(presets[last], c, d);
      }
    }
  }

  lemma FlowBindsAlike(f: Flow, c: Context, d: Context)
    requires AgreeOnAll(FlowTexts(f), c, d)
    ensures BindFlowTemplates(f, c) == BindFlowTemplates(f, d)
  {
    hide Traverse, StepTexts, OutputTexts, TextsOf, AgreeOn, BindStep, BindOutput;
    forall i | 0 <= i < |f.steps| && AgreeOnAll(StepTexts(f.steps[i]), c, d)
      ensures StepBinder(c)(f.steps[i]) == StepBinder(d)(f.steps[i])
    {
      StepBindsAlike(f.steps[i], c, d);
    }
    ListBindsAlike(StepTexts, StepBinder(c), StepBinder(d), f.steps, c, d);
    forall i | 0 <= i < |f.outputs| && AgreeOnAll(OutputTexts(f.outputs[i]), c, d)
      ensures OutputBinder(c)(f.outputs[i]) == OutputBinder(d)(f.outputs[i])
    {
      OutputBindsAlike(f.outputs[i], c, d);
    }
    ListBindsAlike(OutputTexts, OutputBinder(c), OutputBinder(d), f.outputs, c, d);
  }

  lemma ElementsBindAlike(xs: seq<Element>, c: Context, d: Context)
    requires AgreeOnAll(TextsOf(ElementTexts, xs), c, d)
    ensures Traverse(ElementBinder(c), xs) == Traverse(ElementBinder(d), xs)
  {
    hide Traverse, ElementTexts, TextsOf, AgreeOnAll, BindElement;
    forall i | 0 <= i < |xs| && AgreeOnAll(ElementTexts(xs[i]), c, d)
      ensures ElementBinder(c)(xs[i]) == ElementBinder(d)(xs[i])
    {
      ElementBindsAlike(xs[i], c, d);
    }
    ListBindsAlike(ElementTexts, ElementBinder(c), ElementBinder(d), xs, c, d);
  }

  lemma OperationsBindAlike(xs: seq<Operation>, c: Context, d: Context)
    requires AgreeOnAll(TextsOf(OperationTexts, xs), c, d)
    ensures Traverse(OperationBinder(c), xs) == Traverse(OperationBinder(d), xs)
  {
    hide Traverse, OperationTexts, TextsOf, AgreeOnAll, BindOperation;
    forall i | 0 <= i < |xs| && AgreeOnAll(OperationTexts(xs[i]), c, d)
      ensures OperationBinder(c)(xs[i]) == OperationBinder(d)(xs[i])
    {
      OperationBindsAlike(xs[i], c, d);
    }
    ListBindsAlike(OperationTexts, OperationBinder(c), OperationBinder(d), xs, c, d);
  }

  lemma RequestsBindAlike(xs: seq<Request>, c: Context, d: Context)
    requires AgreeOnAll(TextsOf(RequestTexts, xs), c, d)
    ensures Traverse(RequestBinder(c), xs) == Traverse(RequestBinder(d), xs)
  {
    hide Traverse, RequestTexts, TextsOf, AgreeOnAll, BindRequest;
    forall i | 0 <= i < |xs| && AgreeOnAll(RequestTexts(xs[i]), c, d)
      ensures RequestBinder(c)(xs[i]) == RequestBinder(d)(xs[i])
    {
      RequestBindsAlike(xs[i], c, d);
    }
    ListBindsAlike(RequestTexts, RequestBinder(c), RequestBinder(d), xs, c, d);
  }

  lemma PagesBindAlike(xs: seq<Page>, c: Context, d: Context)
    requires AgreeOnAll(TextsOf(PageTexts, xs), c, d)
    ensures Traverse(PageBinder(c), xs) == Traverse(PageBinder(d), xs)
  {
    hide Traverse, Members, TextsOf, AgreeOnAll, BindAll;
    forall i | 0 <= i < |xs| && AgreeOnAll(PageTexts(xs[i]), c, d)
      ensures PageBinder(c)(xs[i]) == PageBinder(d)(xs[i])
    {
      AllBindAlike(xs[i].urlPatterns, c, d);
    }
    ListBindsAlike(PageTexts, PageBinder(c), PageBinder(d), xs, c, d);
  }

  /** The template texts of the parts of a catalog that a bound flow selects. */
  ghost function SliceTexts(cat: Catalog, f: Flow): set<string> {
    PresetTexts(cat.presets, Members(f.presetRefs)) + TextsOf(ElementTexts, ReachableElements(cat, f))
    + TextsOf(OperationTexts, ReachableOperations(cat, f))
    + TextsOf(RequestTexts, Keep(RequestIn(RequestRefs(f)), cat.requests))
    + TextsOf(PageTexts, ReachablePages(cat, f))
  }

  lemma SliceBindsAlike(cat: Catalog, f: Flow, c: Context, d: Context)
    requires AgreeOnAll(SliceTexts(cat, f), c, d)
    ensures SliceAndBind(cat, f, d) ==
            if SliceAndBind(cat, f, c).Ok? then Ok(SliceAndBind(cat, f, c).value.(context := d))
            else SliceAndBind(cat, f, c)
  {
    hide Traverse, Keep, BindPresets, ElementsOf, OperationsOf, PagesOf, RequestRefs, PresetTexts, TextsOf, AgreeOn;
    PresetsBindAlike(f.presetRefs, cat.presets, c, d);
    ElementsBindAlike(ReachableElements(cat, f), c, d);
    OperationsBindAlike(ReachableOperations(cat, f), c, d);
    RequestsBindAlike(Keep(RequestIn(RequestRefs(f)), cat.requests), c, d);
    PagesBindAlike(ReachablePages(cat, f), c, d);
    var elements := Traverse(ElementBinder(c), ReachableElements(cat, f));
    var operations := Traverse(OperationBinder(c), ReachableOperations(cat, f));
    if elements.Ok? && operations.Ok? {
      SlicedPagesAreReachable(cat, f, c);
    }
  }

  lemma SlicedPagesAreReachable(cat: Catalog, f: Flow, c: Context)
    requires Traverse(ElementBinder(c), ReachableElements(cat, f)).Ok?
    requires Traverse(OperationBinder(c), ReachableOperations(cat, f)).Ok?
    ensures PageRefs(f, Traverse(ElementBinder(c), ReachableElements(cat, f)).value,
                     Traverse(OperationBinder(c), ReachableOperations(cat, f)).value) ==
            PageRefs(f, ReachableElements(cat, f), ReachableOperations(cat, f))
  {
    hide Traverse, Keep, ElementsOf, OperationsOf, PagesOf, BindString;
    var xs, ys := ReachableElements(cat, f), Traverse(ElementBinder(c), ReachableElements(cat, f)).value;
    assert BoundElements(xs, ys) by {
      assert forall i :: 0 <= i < |xs| ==> ElementBinder(c)(xs[i]) == Ok(ys[i]);
    }
    BoundElementsKeepPages(xs, ys);
    var os, ps := ReachableOperations(cat, f), Traverse(OperationBinder(c), ReachableOperations(cat, f)).value;
    assert BoundOperations(os, ps) by {
      assert forall i :: 0 <= i < |os| ==> OperationBinder(c)(os[i]) == Ok(ps[i]);
    }
    BoundOperationsKeepPages(os, ps);
  }

  /** What a binding of the flow reads under `c`: the texts of the flow and, if it binds, of its slice. */
  ghost function ReadTexts(cat: Catalog, f: Flow, c: Context): set<string> {
    FlowTexts(f)
    + if BindFlowTemplates(f, c).Ok? then SliceTexts(cat, BindFlowTemplates(f, c).value) else {}
  }

  /** The outcome with another stored context. */
  function InContext(r: Result<Plan, BlobError>, d: Context): Result<Plan, BlobError> {
    if r.Ok? then Ok(r.value.(context := d)) else r
  }

  /**
   * Two contexts that agree on every hole the flow and its slice mention, and on the presence of
   * the required inputs, bind the flow to the same plan or the same error; only the stored context differs.
   */
  lemma BindingReadsOnlyMentions(cat: Catalog, flowId: string, c: Context, d: Context)
    requires var found := FindFlow(cat.flows, flowId);
             found.Some? ==>
               && CheckInputs(found.value.inputs, c.inputs) == CheckInputs(found.value.inputs, d.inputs)
               && AgreeOnAll(ReadTexts(cat, found.value, c), c, d)
    ensures Binding(cat, flowId, d) == InContext(Binding(cat, flowId, c), d)
  {
    hide SliceAndBind, BindFlowTemplates, CheckInputs, SliceTexts, FlowTexts, AgreeOn, FindFlow;
    var found := FindFlow(cat.flows, flowId);
    if found.Some? {
      FlowBindsAlike(found.value, c, d);
      var bound := BindFlowTemplates(found.value, c);
      if bound.Ok? {
        SliceBindsAlike(cat, bound.value, c, d);
      }
    }
  }

  // ----- unused values -----

  lemma {:induction false} OtherInputsAreUnchecked(inputs: seq<Input>, values: map<string, Value>, key: string,
                                                   v: Value)
    requires forall i :: i in inputs && i.required ==> i.id != key
    ensures CheckInputs(inputs, values[key := v]) == CheckInputs(inputs, values)
  {
    hide Present;
    if inputs != [] {
      assert inputs[0] in inputs;
      OtherInputsAreUnchecked(inputs[1..], values, key, v);
    }
  }

  /** The binding reads no hole that names the key of the namespace. */
  ghost predicate Unread(cat: Catalog, flowId: string, c: Context, namespace: string, key: string) {
    var found := FindFlow(cat.flows, flowId);
    found.Some? ==> AllUnnamed(ReadTexts(cat, found.value, c), namespace, key)
  }

  /**
   * An input that no text of the flow or its slice names and no required input asks for may be added,
   * or changed, without any effect on the binding: the plan, or the error, is the same.
   */
  lemma UnusedInputIsUnseen(cat: Catalog, flowId: string, c: Context, key: string, v: Value)
    requires Unread(cat, flowId, c, "inputs", key)
    requires var found := FindFlow(cat.flows, flowId);
             found.Some? ==> forall i :: i in found.value.inputs && i.required ==> i.id != key
    ensures var d := c.(inputs := c.inputs[key := v]); Binding(cat, flowId, d) == InContext(Binding(cat, flowId, c), d)
  {
    hide Binding, CheckInputs, ReadTexts, AgreeOnAll, AllUnnamed, FindFlow;
    var found := FindFlow(cat.flows, flowId);
    if found.Some? {
      OtherInputsAreUnchecked(found.value.inputs, c.inputs, key, v);
      UnnamedAgrees(ReadTexts(cat, found.value, c), c, key, v);
    }
    BindingReadsOnlyMentions(cat, flowId, c, c.(inputs := c.inputs[key := v]));
  }

  /** The same for a runtime value, which no input check looks at. */
  lemma UnusedRuntimeValueIsUnseen(cat: Catalog, flowId: string, c: Context, key: string, v: Value)
    requires Unread(cat, flowId, c, "runtime", key)
    ensures var d := c.(runtime := c.runtime[key := v]);
            Binding(cat, flowId, d) == InContext(Binding(cat, flowId, c), d)
  {
    hide Binding, CheckInputs, ReadTexts, AgreeOnAll, AllUnnamed, FindFlow;
    var found := FindFlow(cat.flows, flowId);
    if found.Some? {
      UnnamedAgrees(ReadTexts(cat, found.value, c), c, key, v);
    }
    BindingReadsOnlyMentions(cat, flowId, c, c.(runtime := c.runtime[key := v]));
  }
}
