/**
 * A plan bound under a brace-free context is fully expanded, its presets included; and the plans that
 * binding leaves alone under every context are exactly those without a template.
 */
module FlowExpansion {
  import opened Results
  import opened Text
  import opened Json
  import opened Templates
  import opened TemplateLaws
  import opened FlowModel
  import opened FlowBinding
  import opened TemplateTexts

  // ----- binding expands everything -----

  lemma BoundTextIsPlain(raw: string, c: Context)
    requires BraceFreeContext(c) && BindString(raw, c).Ok?
    ensures Plain(BindString(raw, c).value)
  {
    hide Scan, BindString, Trim, SplitOnce;
    ContextSubstitutesBraceFree(Scan(raw).pieces, c);
    BoundHasNoPair(raw, c);
  }

  lemma BoundOptionalIsPlain(raw: Option<string>, c: Context)
    requires BraceFreeContext(c) && BindOptional(raw, c).Ok?
    ensures AllPlain(SetOf(BindOptional(raw, c).value))
  {
    hide BindString, Plain, BraceFreeContext;
    if raw.Some? {
      BoundTextIsPlain(raw.value, c);
    }
  }

  lemma BoundTextsArePlain(raws: seq<string>, c: Context)
    requires BraceFreeContext(c) && BindAll(raws, c).Ok?
    ensures AllPlain(Members(BindAll(raws, c).value))
  {
    hide BindString, Plain, BraceFreeContext, Traverse;
    var bound := BindAll(raws, c).value;
    forall i | 0 <= i < |raws|
      ensures Plain(bound[i])
    {
      assert StringBinder(c)(raws[i]) == Ok(bound[i]);
      BoundTextIsPlain(raws[i], c);
    }
  }

  lemma BoundStepIsPlain(s: Step, c: Context)
    requires BraceFreeContext(c) && BindStep(s, c).Ok?
    ensures AllPlain(StepTexts(BindStep(s, c).value))
  {
    hide BindString, BindOptional, BindAll, Plain, SetOf, Members, BraceFreeContext;
    match s
    case Navigate(_, url, _) => BoundTextIsPlain(url, c);
    case SetInput(_, _, template, _) => BoundTextIsPlain(template, c);
    case ValidateVisualLayout(_, _, instruction, rules, _) =>
      BoundOptionalIsPlain(instruction, c);
      BoundTextsArePlain(rules, c);
    case SolveVisualCaptcha(_, _, _, _, _, t) =>
      BoundOptionalIsPlain(t.fieldLabel, c);
      BoundOptionalIsPlain(t.placeholder, c);
      BoundOptionalIsPlain(t.instruction, c);
      BoundOptionalIsPlain(t.llmSystemPrompt, c);
      BoundOptionalIsPlain(t.llmPromptTemplate, c);
    case _ =>
  }

  lemma BoundSelectorIsPlain(s: Selector, c: Context)
    requires BraceFreeContext(c) && BindSelector(s, c).Ok?
    ensures AllPlain(SelectorTexts(BindSelector(s, c).value))
  {
    hide BindString, BindOptional, Plain, SetOf, BraceFreeContext;
    BoundTextIsPlain(s.value, c);
    BoundOptionalIsPlain(s.textContains, c);
  }

  lemma BoundElementIsPlain(e: Element, c: Context)
    requires BraceFreeContext(c) && BindElement(e, c).Ok?
    ensures AllPlain(ElementTexts(BindElement(e, c).value))
  {
    hide BindOptional, BindSelector, SelectorTexts, Plain, SetOf, BraceFreeContext, Traverse;
    BoundOptionalIsPlain(e.frame, c);
    forall i | 0 <= i < |e.selectors| && SelectorBinder(c)(e.selectors[i]).Ok?
      ensures AllPlain(SelectorTexts(SelectorBinder(c)(e.selectors[i]).value))
    {
      BoundSelectorIsPlain(e.selectors[i], c);
    }
    BoundListIsPlain(SelectorTexts, SelectorBinder(c), e.selectors);
  }

  lemma BoundRequestIsPlain(r: Request, c: Context)
    requires BraceFreeContext(c) && BindRequest(r, c).Ok?
    ensures AllPlain(RequestTexts(BindRequest(r, c).value))
  {
    hide BindString, BindOptional, BindAll, Plain, SetOf, Members, BraceFreeContext, Traverse;
    BoundTextIsPlain(r.urlPattern, c);
    BoundTextsArePlain(r.requiredFields, c);
    forall i | 0 <= i < |r.requiredHeaders| && HeaderBinder(c)(r.requiredHeaders[i]).Ok?
      ensures AllPlain(HeaderTexts(HeaderBinder(c)(r.requiredHeaders[i]).value))
    {
      BoundOptionalIsPlain(r.requiredHeaders[i].valueTemplate, c);
    }
    BoundListIsPlain(HeaderTexts, HeaderBinder(c), r.requiredHeaders);
  }

  lemma BoundOperationIsPlain(o: Operation, c: Context)
    requires BraceFreeContext(c) && BindOperation(o, c).Ok?
    ensures AllPlain(OperationTexts(BindOperation(o, c).value))
  {
    hide BindString, BindOptional, Plain, SetOf, BraceFreeContext;
    BoundOptionalIsPlain(o.frame, c);
    BoundTextIsPlain(o.source, c);
  }

  lemma BoundOutputIsPlain(o: Output, c: Context)
    requires BraceFreeContext(c) && BindOutput(o, c).Ok?
    ensures AllPlain(OutputTexts(BindOutput(o, c).value))
  {
    hide BindString, BindOptional, Plain, SetOf, BraceFreeContext;
    BoundOptionalIsPlain(o.frame, c);
    BoundTextIsPlain(o.source, c);
  }

  lemma BoundFlowIsPlain(f: Flow, c: Context)
    requires BraceFreeContext(c) && BindFlowTemplates(f, c).Ok?
    ensures AllPlain(FlowTexts(BindFlowTemplates(f, c).value))
  {
    hide BindStep, BindOutput, StepTexts, OutputTexts, TextsOf, Plain, BraceFreeContext, Traverse;
    forall i | 0 <= i < |f.steps| && StepBinder(c)(f.steps[i]).Ok?
      ensures AllPlain(StepTexts(StepBinder(c)(f.steps[i]).value))
    {
      BoundStepIsPlain(f.steps[i], c);
    }
    BoundListIsPlain(StepTexts, StepBinder(c), f.steps);
    forall i | 0 <= i < |f.outputs| && OutputBinder(c)(f.outputs[i]).Ok?
      ensures AllPlain(OutputTexts(OutputBinder(c)(f.outputs[i]).value))
    {
      BoundOutputIsPlain(f.outputs[i], c);
    }
    BoundListIsPlain(OutputTexts, OutputBinder(c), f.outputs);
  }

  lemma {:induction false} BoundPresetsArePlain(refs: seq<string>, presets: map<string, Value>, c: Context)
    requires BraceFreeContext(c) && BindPresets(refs, presets, c).Ok?
    ensures forall p :: p in BindPresets(refs, presets, c).value ==>
              AllPlain(JsonTexts(BindPresets(refs, presets, c).value[p]))
  {
    hide BindJson, AllPlain, JsonTexts, BraceFreeContext;
    if refs != [] {
      BoundPresetsArePlain(refs[..|refs| - 1], presets, c);
      BoundJsonIsPlain(presets[refs[|refs| - 1]], c);
    }
  }

  lemma BoundElementsArePlain(xs: seq<Element>, c: Context)
    requires BraceFreeContext(c) && Traverse(ElementBinder(c), xs).Ok?
    ensures AllPlain(TextsOf(ElementTexts, Traverse(ElementBinder(c), xs).value))
  {
    hide BindElement, ElementTexts, TextsOf, Plain, BraceFreeContext, Traverse;
    forall i | 0 <= i < |xs| && ElementBinder(c)(xs[i]).Ok?
      ensures AllPlain(ElementTexts(ElementBinder(c)(xs[i]).value))
    {
      BoundElementIsPlain(xs[i], c);
    }
    BoundListIsPlain(ElementTexts, ElementBinder(c), xs);
  }

  lemma BoundOperationsArePlain(xs: seq<Operation>, c: Context)
    requires BraceFreeContext(c) && Traverse(OperationBinder(c), xs).Ok?
    ensures AllPlain(TextsOf(OperationTexts, Traverse(OperationBinder(c), xs).value))
  {
    hide BindOperation, OperationTexts, TextsOf, Plain, BraceFreeContext, Traverse;
    forall i | 0 <= i < |xs| && OperationBinder(c)(xs[i]).Ok?
      ensures AllPlain(OperationTexts(OperationBinder(c)(xs[i]).value))
    {
      BoundOperationIsPlain(xs[i], c);
    }
    BoundListIsPlain(OperationTexts, OperationBinder(c), xs);
  }

  lemma BoundRequestsArePlain(xs: seq<Request>, c: Context)
    requires BraceFreeContext(c) && Traverse(RequestBinder(c), xs).Ok?
    ensures AllPlain(TextsOf(RequestTexts, Traverse(RequestBinder(c), xs).value))
  {
    hide BindRequest, RequestTexts, TextsOf, Plain, BraceFreeContext, Traverse;
    forall i | 0 <= i < |xs| && RequestBinder(c)(xs[i]).Ok?
      ensures AllPlain(RequestTexts(RequestBinder(c)(xs[i]).value))
    {
      BoundRequestIsPlain(xs[i], c);
    }
    BoundListIsPlain(RequestTexts, RequestBinder(c), xs);
  }

  lemma BoundPagesArePlain(xs: seq<Page>, c: Context)
    requires BraceFreeContext(c) && Traverse(PageBinder(c), xs).Ok?
    ensures AllPlain(TextsOf(PageTexts, Traverse(PageBinder(c), xs).value))
  {
    hide BindAll, TextsOf, Members, Plain, BraceFreeContext, Traverse;
    forall i | 0 <= i < |xs| && PageBinder(c)(xs[i]).Ok?
      ensures AllPlain(PageTexts(PageBinder(c)(xs[i]).value))
    {
      BoundTextsArePlain(xs[i].urlPatterns, c);
    }
    BoundListIsPlain(PageTexts, PageBinder(c), xs);
  }

  ghost predicate PlainPlan(p: Plan) {
    AllPlain(PlanTexts(p))
  }

  lemma SliceIsPlain(cat: Catalog, f: Flow, c: Context)
    requires BraceFreeContext(c) && AllPlain(FlowTexts(f)) && SliceAndBind(cat, f, c).Ok?
    ensures PlainPlan(SliceAndBind(cat, f, c).value)
  {
    hide Traverse, Keep, BindPresets, ElementsOf, OperationsOf, RequestRefs, PageRefs, FlowTexts, TextsOf, JsonTexts,
         Plain, BraceFreeContext;
    var p := SliceAndBind(cat, f, c).value;
    BoundPresetsArePlain(f.presetRefs, cat.presets, c);
    BoundElementsArePlain(Keep(ElementIn(ElementsOf(f.steps)), cat.elements), c);
    BoundOperationsArePlain(Keep(OperationIn(OperationsOf(f.steps)), cat.operations), c);
    BoundRequestsArePlain(Keep(RequestIn(RequestRefs(f)), cat.requests), c);
    BoundPagesArePlain(Keep(PageIn(PageRefs(f, p.elements, p.operations)), cat.pages), c);
    assert AllPlain(PresetTexts(p.presets, p.presets.Keys));
  }

  /** A plan bound under a brace-free context has no template left in any text that binding expands. */
  lemma PlanIsFullyExpanded(cat: Catalog, flowId: string, c: Context)
    requires BraceFreeContext(c) && Binding(cat, flowId, c).Ok?
    ensures PlainPlan(Binding(cat, flowId, c).value)
  {
    hide FindFlow, CheckInputs, BindFlowTemplates, SliceAndBind, BraceFreeContext, PlainPlan, FlowTexts, AllPlain;
    var flow := FindFlow(cat.flows, flowId).value;
    BoundFlowIsPlain(flow, c);
    SliceIsPlain(cat, BindFlowTemplates(flow, c).value, c);
  }

  // ----- binding leaves alone exactly what has no template -----

  lemma TextIsKept(raw: string, d: Context)
    ensures Plain(raw) ==> BindString(raw, d) == Ok(raw)
    ensures BindString(raw, NOTHING).Ok? ==> Plain(raw)
  {
    hide Meaning, Plain;
    MeaningIsKept(raw, d);
  }

  lemma OptionalIsKept(raw: Option<string>, d: Context)
    ensures AllPlain(SetOf(raw)) ==> BindOptional(raw, d) == Ok(raw)
    ensures BindOptional(raw, NOTHING).Ok? ==> AllPlain(SetOf(raw))
  {
    hide BindString, Plain;
    if raw.Some? {
      TextIsKept(raw.value, d);
    }
  }

  lemma TextsAreKept(raws: seq<string>, d: Context)
    ensures AllPlain(Members(raws)) ==> BindAll(raws, d) == Ok(raws)
    ensures BindAll(raws, NOTHING).Ok? ==> AllPlain(Members(raws))
  {
    hide BindString, Plain, Traverse;
    forall i | 0 <= i < |raws|
      ensures Plain(raws[i]) ==> StringBinder(d)(raws[i]) == Ok(raws[i])
      ensures StringBinder(NOTHING)(raws[i]).Ok? ==> Plain(raws[i])
    {
      TextIsKept(raws[i], d);
    }
    if AllPlain(Members(raws)) {
      TraverseKeeps(StringBinder(d), raws);
    }
    if BindAll(raws, NOTHING).Ok? {
      assert forall i :: 0 <= i < |raws| ==> StringBinder(NOTHING)(raws[i]).Ok?;
    }
  }

  lemma StepIsKept(s: Step, d: Context)
    ensures AllPlain(StepTexts(s)) ==> StepBinder(d)(s) == Ok(s)
    ensures StepBinder(NOTHING)(s).Ok? ==> AllPlain(StepTexts(s))
  {
    hide BindString, BindOptional, BindAll, Plain, SetOf, Members;
    match s
    case Navigate(_, url, _) => TextIsKept(url, d);
    case SetInput(_, _, template, _) => TextIsKept(template, d);
    case ValidateVisualLayout(_, _, instruction, rules, _) =>
      OptionalIsKept(instruction, d);
      TextsAreKept(rules, d);
      UnionIsPlain(SetOf(instruction), Members(rules));
    case SolveVisualCaptcha(_, _, _, _, _, t) => SettingsAreKept(t, d);
    case _ =>
  }

  lemma SettingsAreKept(t: CaptchaSettings, d: Context)
    ensures var texts := SetOf(t.fieldLabel) + SetOf(t.placeholder) + SetOf(t.instruction)
                         + SetOf(t.llmSystemPrompt) + SetOf(t.llmPromptTemplate);
            && (AllPlain(texts) ==> BindSettings(t, d) == Ok(t))
            && (BindSettings(t, NOTHING).Ok? ==> AllPlain(texts))
  {
    hide BindOptional, AllPlain, SetOf;
    OptionalIsKept(t.fieldLabel, d);
    OptionalIsKept(t.placeholder, d);
    OptionalIsKept(t.instruction, d);
    OptionalIsKept(t.llmSystemPrompt, d);
    OptionalIsKept(t.llmPromptTemplate, d);
    var a, b, e := SetOf(t.fieldLabel), SetOf(t.placeholder), SetOf(t.instruction);
    UnionIsPlain(a, b);
    UnionIsPlain(a + b, e);
    UnionIsPlain(a + b + e, SetOf(t.llmSystemPrompt));
    UnionIsPlain(a + b + e + SetOf(t.llmSystemPrompt), SetOf(t.llmPromptTemplate));
  }

  lemma UnionIsPlain(a: set<string>, b: set<string>)
    ensures AllPlain(a + b) <==> AllPlain(a) && AllPlain(b)
  {
    hide Plain;
  }

  lemma OutputIsKept(o: Output, d: Context)
    ensures AllPlain(OutputTexts(o)) ==> OutputBinder(d)(o) == Ok(o)
    ensures OutputBinder(NOTHING)(o).Ok? ==> AllPlain(OutputTexts(o))
  {
    hide BindString, BindOptional, Plain, SetOf;
    OptionalIsKept(o.frame, d);
    TextIsKept(o.source, d);
  }

  lemma SelectorIsKept(s: Selector, d: Context)
    ensures AllPlain(SelectorTexts(s)) ==> SelectorBinder(d)(s) == Ok(s)
    ensures SelectorBinder(NOTHING)(s).Ok? ==> AllPlain(SelectorTexts(s))
  {
    hide BindString, BindOptional, Plain, SetOf;
    TextIsKept(s.value, d);
    OptionalIsKept(s.textContains, d);
  }

  lemma ElementIsKept(e: Element, d: Context)
    ensures AllPlain(ElementTexts(e)) ==> ElementBinder(d)(e) == Ok(e)
    ensures ElementBinder(NOTHING)(e).Ok? ==> AllPlain(ElementTexts(e))
  {
    hide BindSelector, BindOptional, SelectorTexts, TextsOf, AllPlain, SetOf, Traverse;
    OptionalIsKept(e.frame, d);
    forall i | 0 <= i < |e.selectors|
      ensures AllPlain(SelectorTexts(e.selectors[i])) ==> SelectorBinder(d)(e.selectors[i]) == Ok(e.selectors[i])
      ensures SelectorBinder(NOTHING)(e.selectors[i]).Ok? ==> AllPlain(SelectorTexts(e.selectors[i]))
    {
      SelectorIsKept(e.selectors[i], d);
    }
    ListIsKept(SelectorTexts, SelectorBinder(d), SelectorBinder(NOTHING), e.selectors);
    UnionIsPlain(SetOf(e.frame), TextsOf(SelectorTexts, e.selectors));
  }

  lemma RequestIsKept(r: Request, d: Context)
    ensures AllPlain(RequestTexts(r)) ==> RequestBinder(d)(r) == Ok(r)
    ensures RequestBinder(NOTHING)(r).Ok? ==> AllPlain(RequestTexts(r))
  {
    hide BindString, BindAll, BindHeader, HeaderTexts, TextsOf, Plain, Members, Traverse;
    TextIsKept(r.urlPattern, d);
    TextsAreKept(r.requiredFields, d);
    forall i | 0 <= i < |r.requiredHeaders|
      ensures AllPlain(HeaderTexts(r.requiredHeaders[i])) ==>
                HeaderBinder(d)(r.requiredHeaders[i]) == Ok(r.requiredHeaders[i])
      ensures HeaderBinder(NOTHING)(r.requiredHeaders[i]).Ok? ==> AllPlain(HeaderTexts(r.requiredHeaders[i]))
    {
      HeaderIsKept(r.requiredHeaders[i], d);
    }
    ListIsKept(HeaderTexts, HeaderBinder(d), HeaderBinder(NOTHING), r.requiredHeaders);
  }

  lemma HeaderIsKept(h: HeaderMatcher, d: Context)
    ensures AllPlain(HeaderTexts(h)) ==> HeaderBinder(d)(h) == Ok(h)
    ensures HeaderBinder(NOTHING)(h).Ok? ==> AllPlain(HeaderTexts(h))
  {
    hide BindOptional, Plain, SetOf;
    OptionalIsKept(h.valueTemplate, d);
  }

  lemma OperationIsKept(o: Operation, d: Context)
    ensures AllPlain(OperationTexts(o)) ==> OperationBinder(d)(o) == Ok(o)
    ensures OperationBinder(NOTHING)(o).Ok? ==> AllPlain(OperationTexts(o))
  {
    hide BindString, BindOptional, Plain, SetOf;
    OptionalIsKept(o.frame, d);
    TextIsKept(o.source, d);
  }

  lemma FlowIsKept(f: Flow, d: Context)
    ensures AllPlain(FlowTexts(f)) ==> BindFlowTemplates(f, d) == Ok(f)
    ensures BindFlowTemplates(f, NOTHING).Ok? ==> AllPlain(FlowTexts(f))
  {
    hide BindStep, BindOutput, StepTexts, OutputTexts, TextsOf, AllPlain, Traverse;
    forall i | 0 <= i < |f.steps|
      ensures AllPlain(StepTexts(f.steps[i])) ==> StepBinder(d)(f.steps[i]) == Ok(f.steps[i])
      ensures StepBinder(NOTHING)(f.steps[i]).Ok? ==> AllPlain(StepTexts(f.steps[i]))
    {
      StepIsKept(f.steps[i], d);
    }
    ListIsKept(StepTexts, StepBinder(d), StepBinder(NOTHING), f.steps);
    forall i | 0 <= i < |f.outputs|
      ensures AllPlain(OutputTexts(f.outputs[i])) ==> OutputBinder(d)(f.outputs[i]) == Ok(f.outputs[i])
      ensures OutputBinder(NOTHING)(f.outputs[i]).Ok? ==> AllPlain(OutputTexts(f.outputs[i]))
    {
      OutputIsKept(f.outputs[i], d);
    }
    ListIsKept(OutputTexts, OutputBinder(d), OutputBinder(NOTHING), f.outputs);
    UnionIsPlain(TextsOf(StepTexts, f.steps), TextsOf(OutputTexts, f.outputs));
  }

  lemma ElementsAreKept(xs: seq<Element>, d: Context)
    ensures AllPlain(TextsOf(ElementTexts, xs)) ==> Traverse(ElementBinder(d), xs) == Ok(xs)
    ensures Traverse(ElementBinder(NOTHING), xs).Ok? ==> AllPlain(TextsOf(ElementTexts, xs))
  {
    hide BindElement, ElementTexts, TextsOf, AllPlain, Traverse;
    forall i | 0 <= i < |xs|
      ensures AllPlain(ElementTexts(xs[i])) ==> ElementBinder(d)(xs[i]) == Ok(xs[i])
      ensures ElementBinder(NOTHING)(xs[i]).Ok? ==> AllPlain(ElementTexts(xs[i]))
    {
      ElementIsKept(xs[i], d);
    }
    ListIsKept(ElementTexts, ElementBinder(d), ElementBinder(NOTHING), xs);
  }

  lemma OperationsAreKept(xs: seq<Operation>, d: Context)
    ensures AllPlain(TextsOf(OperationTexts, xs)) ==> Traverse(OperationBinder(d), xs) == Ok(xs)
    ensures Traverse(OperationBinder(NOTHING), xs).Ok? ==> AllPlain(TextsOf(OperationTexts, xs))
  {
    hide BindOperation, OperationTexts, TextsOf, AllPlain, Traverse;
    forall i | 0 <= i < |xs|
      ensures AllPlain(OperationTexts(xs[i])) ==> OperationBinder(d)(xs[i]) == Ok(xs[i])
      ensures OperationBinder(NOTHING)(xs[i]).Ok? ==> AllPlain(OperationTexts(xs[i]))
    {
      OperationIsKept(xs[i], d);
    }
    ListIsKept(OperationTexts, OperationBinder(d), OperationBinder(NOTHING), xs);
  }

  lemma RequestsAreKept(xs: seq<Request>, d: Context)
    ensures AllPlain(TextsOf(RequestTexts, xs)) ==> Traverse(RequestBinder(d), xs) == Ok(xs)
    ensures Traverse(RequestBinder(NOTHING), xs).Ok? ==> AllPlain(TextsOf(RequestTexts, xs))
  {
    hide BindRequest, RequestTexts, TextsOf, AllPlain, Traverse;
    forall i | 0 <= i < |xs|
      ensures AllPlain(RequestTexts(xs[i])) ==> RequestBinder(d)(xs[i]) == Ok(xs[i])
      ensures RequestBinder(NOTHING)(xs[i]).Ok? ==> AllPlain(RequestTexts(xs[i]))
    {
      RequestIsKept(xs[i], d);
    }
    ListIsKept(RequestTexts, RequestBinder(d), RequestBinder(NOTHING), xs);
  }

  lemma PagesAreKept(xs: seq<Page>, d: Context)
    ensures AllPlain(TextsOf(PageTexts, xs)) ==> Traverse(PageBinder(d), xs) == Ok(xs)
    ensures Traverse(PageBinder(NOTHING), xs).Ok? ==> AllPlain(TextsOf(PageTexts, xs))
  {
    hide BindAll, Members, TextsOf, AllPlain, Traverse;
    forall i | 0 <= i < |xs|
      ensures AllPlain(PageTexts(xs[i])) ==> PageBinder(d)(xs[i]) == Ok(xs[i])
      ensures PageBinder(NOTHING)(xs[i]).Ok? ==> AllPlain(PageTexts(xs[i]))
    {
      TextsAreKept(xs[i].urlPatterns, d);
    }
    ListIsKept(PageTexts, PageBinder(d), PageBinder(NOTHING), xs);
  }

  ghost predicate KeepsPresets(presets: map<string, Value>, d: Context) {
    forall p :: p in presets ==> KeepsJson(presets[p], d)
  }

  lemma PresetsAreKept(presets: map<string, Value>, d: Context)
    ensures AllPlain(PresetTexts(presets, presets.Keys)) ==> KeepsPresets(presets, d)
    ensures KeepsPresets(presets, NOTHING) ==> AllPlain(PresetTexts(presets, presets.Keys))
  {
    hide BindJson, JsonTexts, Plain;
    forall p | p in presets
      ensures AllPlain(JsonTexts(presets[p])) ==> KeepsJson(presets[p], d)
      ensures KeepsJson(presets[p], NOTHING) ==> AllPlain(JsonTexts(presets[p]))
    {
      JsonIsKept(presets[p], d);
    }
    if AllPlain(PresetTexts(presets, presets.Keys)) {
      assert forall p :: p in presets ==> JsonTexts(presets[p]) <= PresetTexts(presets, presets.Keys);
    }
  }

  /** Binding every part of the plan once more, under `d`, gives the plan back. */
  ghost predicate Kept(p: Plan, d: Context) {
    && BindFlowTemplates(p.flow, d) == Ok(p.flow)
    && KeepsPresets(p.presets, d)
    && Traverse(PageBinder(d), p.pages) == Ok(p.pages)
    && Traverse(ElementBinder(d), p.elements) == Ok(p.elements)
    && Traverse(RequestBinder(d), p.requests) == Ok(p.requests)
    && Traverse(OperationBinder(d), p.operations) == Ok(p.operations)
  }

  lemma PlanIsKept(p: Plan, d: Context)
    ensures PlainPlan(p) ==> Kept(p, d)
    ensures Kept(p, NOTHING) ==> PlainPlan(p)
  {
    hide BindFlowTemplates, KeepsPresets, FlowTexts, PresetTexts, TextsOf, AllPlain, Traverse;
    FlowIsKept(p.flow, d);
    PresetsAreKept(p.presets, d);
    PagesAreKept(p.pages, d);
    ElementsAreKept(p.elements, d);
    RequestsAreKept(p.requests, d);
    OperationsAreKept(p.operations, d);
    var a, b, e := FlowTexts(p.flow), PresetTexts(p.presets, p.presets.Keys), TextsOf(PageTexts, p.pages);
    var f, g := TextsOf(ElementTexts, p.elements), TextsOf(RequestTexts, p.requests);
    UnionIsPlain(a, b);
    UnionIsPlain(a + b, e);
    UnionIsPlain(a + b + e, f);
    UnionIsPlain(a + b + e + f, g);
    UnionIsPlain(a + b + e + f + g, TextsOf(OperationTexts, p.operations));
  }

  /** The plans whose every part is bound to itself under every context are exactly those without a template. */
  lemma PlainPlanIsKept(p: Plan)
    ensures PlainPlan(p) <==> forall d: Context :: Kept(p, d)
  {
    hide PlainPlan, Kept;
    forall d: Context
      ensures PlainPlan(p) ==> Kept(p, d)
    {
      PlanIsKept(p, d);
    }
    PlanIsKept(p, NOTHING);
  }
}
