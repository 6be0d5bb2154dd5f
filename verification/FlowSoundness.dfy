/** What the static check, the dry run and the session run promise one another. */
module FlowSoundness {
  import opened Results
  import opened Text
  import opened Json
  import opened Templates
  import opened FlowModel
  import opened FlowCheck
  import opened FlowBinding
  import opened FlowSlice
  import opened FlowExecution

  // ----- the static check is sound for the interpreters -----

  /** Every reference of the step is found in the plan. */
  ghost predicate Resolved(plan: Plan, s: Step) {
    && StepElements(s) <= IdSet(ElementIds(plan.elements))
    && StepPages(s) <= IdSet(PageIds(plan.pages))
    && StepOperations(s) <= IdSet(OperationIds(plan.operations))
    && StepRequests(s) <= IdSet(RequestIds(plan.requests))
  }

  lemma FindKnownElement(xs: seq<Element>, id: string)
    requires id in IdSet(ElementIds(xs))
    ensures FindElement(xs, id).Some?
  {
    hide FindElement;
    var k :| 0 <= k < |xs| && ElementIds(xs)[k] == id;
    assert xs[k] in xs;
  }

  lemma FindKnownPage(xs: seq<Page>, id: string)
    requires id in IdSet(PageIds(xs))
    ensures FindPage(xs, id).Some?
  {
    hide FindPage;
    var k :| 0 <= k < |xs| && PageIds(xs)[k] == id;
    assert xs[k] in xs;
  }

  lemma FindKnownOperation(xs: seq<Operation>, id: string)
    requires id in IdSet(OperationIds(xs))
    ensures FindOperation(xs, id).Some?
  {
    hide FindOperation;
    var k :| 0 <= k < |xs| && OperationIds(xs)[k] == id;
    assert xs[k] in xs;
  }

  lemma FindKnownRequest(xs: seq<Request>, id: string)
    requires id in IdSet(RequestIds(xs))
    ensures FindRequest(xs, id).Some?
  {
    hide FindRequest;
    var k :| 0 <= k < |xs| && RequestIds(xs)[k] == id;
    assert xs[k] in xs;
  }

  lemma {:induction false} TargetsResolve(plan: Plan, targets: seq<LayoutTarget>)
    requires TargetElements(targets) <= IdSet(ElementIds(plan.elements))
    ensures Traverse(TargetBinder(plan), targets).Ok?
  {
    hide FindElement, IdSet;
    if targets != [] {
      var last := targets[|targets| - 1];
      assert last in targets && last.element in TargetElements(targets);
      FindKnownElement(plan.elements, last.element);
      TargetsResolve(plan, targets[..|targets| - 1]);
    }
  }

  /** A step whose references resolve, and whose dry run succeeds, has nothing of its own to fail on. */
  lemma ResolvedScriptIsNotBroken(plan: Plan, s: Step, consumed: set<string>)
    requires Resolved(plan, s) && DryRunStep(plan, s).Ok?
    ensures !ScriptOf(plan, s, consumed).finish.Broken?
  {
    hide IdSet, FindElement, FindPage, FindOperation, FindRequest, ManualValue, Traverse, FilePathsOf;
    match s
    case Navigate(_, _, page) =>
      if page.Some? {
        FindKnownPage(plan.pages, page.value);
      }
    case Click(_, element, _) => FindKnownElement(plan.elements, element);
    case SetInput(_, element, _, _) => FindKnownElement(plan.elements, element);
    case InvokeOperation(_, operation) => FindKnownOperation(plan.operations, operation);
    case SetFiles(_, element, _) => FindKnownElement(plan.elements, element);
    case DispatchEvents(_, element, _) => FindKnownElement(plan.elements, element);
    case ValidateVisualLayout(_, targets, _, _, _) => TargetsResolve(plan, targets);
    case SolveVisualCaptcha(_, image, input, _, refresh, _) =>
      FindKnownElement(plan.elements, image);
      FindKnownElement(plan.elements, input);
      if refresh.Some? {
        FindKnownElement(plan.elements, refresh.value);
      }
    case WaitForRequest(_, request, _, _) => FindKnownRequest(plan.requests, request);
    case WaitForPage(_, page, _) => FindKnownPage(plan.pages, page);
    case Wait(_, _) =>
  }

  /** An accepted step refers only to known parts of the catalog. */
  lemma AcceptedStepIsKnown(s: Step, known: Known, inputIds: set<string>)
    requires StepOk(s, known, inputIds)
    ensures StepElements(s) <= known.elements && StepPages(s) <= known.pages
    ensures StepOperations(s) <= known.operations && StepRequests(s) <= known.requests
  {
  }

  lemma SelectedElementIsBound(c: Catalog, ids: set<string>, ys: seq<Element>, id: string)
    requires BoundElements(Keep(ElementIn(ids), c.elements), ys)
    requires id in ids && id in IdSet(ElementIds(c.elements))
    ensures id in IdSet(ElementIds(ys))
  {
    var k :| 0 <= k < |c.elements| && ElementIds(c.elements)[k] == id;
    var kept := Keep(ElementIn(ids), c.elements);
    KeepMembers(ElementIn(ids), c.elements);
    assert c.elements[k] in kept;
    var j :| 0 <= j < |kept| && kept[j] == c.elements[k];
    assert ElementIds(ys)[j] == id;
  }

  lemma SelectedPageIsBound(c: Catalog, ids: set<string>, ys: seq<Page>, id: string)
    requires BoundPages(Keep(PageIn(ids), c.pages), ys)
    requires id in ids && id in IdSet(PageIds(c.pages))
    ensures id in IdSet(PageIds(ys))
  {
    var k :| 0 <= k < |c.pages| && PageIds(c.pages)[k] == id;
    var kept := Keep(PageIn(ids), c.pages);
    KeepMembers(PageIn(ids), c.pages);
    assert c.pages[k] in kept;
    var j :| 0 <= j < |kept| && kept[j] == c.pages[k];
    assert PageIds(ys)[j] == id;
  }

  lemma SelectedOperationIsBound(c: Catalog, ids: set<string>, ys: seq<Operation>, id: string)
    requires BoundOperations(Keep(OperationIn(ids), c.operations), ys)
    requires id in ids && id in IdSet(OperationIds(c.operations))
    ensures id in IdSet(OperationIds(ys))
  {
    var k :| 0 <= k < |c.operations| && OperationIds(c.operations)[k] == id;
    var kept := Keep(OperationIn(ids), c.operations);
    KeepMembers(OperationIn(ids), c.operations);
    assert c.operations[k] in kept;
    var j :| 0 <= j < |kept| && kept[j] == c.operations[k];
    assert OperationIds(ys)[j] == id;
  }

  lemma SelectedRequestIsBound(c: Catalog, ids: set<string>, ys: seq<Request>, id: string)
    requires BoundRequests(Keep(RequestIn(ids), c.requests), ys)
    requires id in ids && id in IdSet(RequestIds(c.requests))
    ensures id in IdSet(RequestIds(ys))
  {
    var k :| 0 <= k < |c.requests| && RequestIds(c.requests)[k] == id;
    var kept := Keep(RequestIn(ids), c.requests);
    KeepMembers(RequestIn(ids), c.requests);
    assert c.requests[k] in kept;
    var j :| 0 <= j < |kept| && kept[j] == c.requests[k];
    assert RequestIds(ys)[j] == id;
  }

  lemma FlowIsAccepted(c: Catalog, flowId: string)
    requires Accepts(c) && FindFlow(c.flows, flowId).Some?
    ensures FlowOk(FindFlow(c.flows, flowId).value, KnownIds(c), c.presets.Keys, IdSet(FlowIds(c.flows)))
  {
    hide FlowOk, HeaderOk, PagesOk, EndpointsOk, FindFlow, KnownIds, IdSet, Links;
  }

  /** Every step of a plan bound from an accepted catalog finds what it refers to. */
  lemma AcceptedPlanResolves(c: Catalog, flowId: string, context: Context, i: nat)
    requires Accepts(c) && Binding(c, flowId, context).Ok?
    requires i < |Binding(c, flowId, context).value.flow.steps|
    ensures Resolved(Binding(c, flowId, context).value, Binding(c, flowId, context).value.flow.steps[i])
  {
    hide Accepts, FindFlow, Keep, ElementsOf, PagesOf, OperationsOf, RequestsOf, RequestsOfOutputs, IdSet, StepOk,
         HeadOk, BoundElements, BoundOperations, BoundRequests, BoundPages, SliceAndBind, BindFlowTemplates,
         CheckInputs, Distinct, UniqueIds, StepElements, StepPages, StepOperations, StepRequests, PagesOfElements,
         PagesOfOperations;
    var plan, flow := Binding(c, flowId, context).value, FindFlow(c.flows, flowId).value;
    PlanIsExactSlice(c, flowId, context);
    FlowIsAccepted(c, flowId);
    var s, t := flow.steps[i], plan.flow.steps[i];
    assert s in flow.steps;
    AcceptedStepIsKnown(s, KnownIds(c), IdSet(InputIds(flow.inputs)));
    ReferencesOfMember(flow.steps, i);
    ReferencesOfMember(plan.flow.steps, i);
    forall id | id in StepElements(t)
      ensures id in IdSet(ElementIds(plan.elements))
    {
      SelectedElementIsBound(c, ElementsOf(flow.steps), plan.elements, id);
    }
    forall id | id in StepOperations(t)
      ensures id in IdSet(OperationIds(plan.operations))
    {
      SelectedOperationIsBound(c, OperationsOf(flow.steps), plan.operations, id);
    }
    forall id | id in StepRequests(t)
      ensures id in IdSet(RequestIds(plan.requests))
    {
      SelectedRequestIsBound(c, RequestRefs(plan.flow), plan.requests, id);
    }
    var refs := PageRefs(flow, ReachableElements(c, flow), ReachableOperations(c, flow));
    forall id | id in StepPages(t)
      ensures id in IdSet(PageIds(plan.pages))
    {
      SelectedPageIsBound(c, refs, plan.pages, id);
    }
  }

  /** Every step of the plan resolves and dry-runs. */
  ghost predicate Ready(plan: Plan, steps: seq<Step>) {
    forall s :: s in steps ==> Resolved(plan, s) && DryRunStep(plan, s).Ok?
  }

  /** The error of a failing step that is ready is the last thing the session answered. */
  lemma ReadyStepFailsOnlyBySession(plan: Plan, session: Session, s: Step, past: seq<Exchange>, consumed: set<string>)
    requires Resolved(plan, s) && DryRunStep(plan, s).Ok?
    requires RunStep(plan, session, s, past, consumed).outcome.Err?
    ensures var run := RunStep(plan, session, s, past, consumed);
            run.exchanges != [] && run.exchanges[|run.exchanges| - 1].reply == Fail(run.outcome.error)
  {
    hide Resolved, DryRunStep, ScriptOf, Converse, Tolerates;
    ResolvedScriptIsNotBroken(plan, s, consumed);
  }

  lemma {:induction false} ReadyRunFailsOnlyBySession(plan: Plan, session: Session, steps: seq<Step>)
    requires Ready(plan, steps) && RunSteps(plan, session, steps).outcome.Err?
    ensures var run := RunSteps(plan, session, steps);
            run.trace != [] && run.trace[|run.trace| - 1].reply == Fail(run.outcome.error)
  {
    hide Resolved, DryRunStep, RunStep;
    var init, last := steps[..|steps| - 1], steps[|steps| - 1];
    assert last in steps;
    var before := RunSteps(plan, session, init);
    if before.outcome.Err? {
      ReadyRunFailsOnlyBySession(plan, session, init);
    } else {
      ReadyStepFailsOnlyBySession(plan, session, last, before.trace, before.consumed);
    }
  }

  /** A dry run succeeds exactly when every step dry-runs. */
  lemma {:induction false} DryRunCoversSteps(plan: Plan, steps: seq<Step>)
    ensures Traverse(DryRunner(plan), steps).Ok? <==> forall s :: s in steps ==> DryRunStep(plan, s).Ok?
  {
    hide DryRunStep;
    if steps != [] {
      var init, last := steps[..|steps| - 1], steps[|steps| - 1];
      DryRunCoversSteps(plan, init);
      forall s | s in steps
        ensures s == last || s in init
      {
        var k :| 0 <= k < |steps| && steps[k] == s;
        if k < |init| {
          assert init[k] == s;
        }
      }
      assert last in steps && forall s :: s in init ==> s in steps;
      assert DryRunner(plan)(last) == DryRunStep(plan, last);
    }
  }

  lemma AcceptedPlanIsReady(c: Catalog, flowId: string, context: Context)
    requires Accepts(c) && Binding(c, flowId, context).Ok?
    requires DryRun(Binding(c, flowId, context).value).Ok?
    ensures Ready(Binding(c, flowId, context).value, Binding(c, flowId, context).value.flow.steps)
  {
    hide Accepts, Binding, DryRunStep, Resolved, Traverse;
    var plan := Binding(c, flowId, context).value;
    DryRunCoversSteps(plan, plan.flow.steps);
    forall s | s in plan.flow.steps
      ensures Resolved(plan, s)
    {
      var i :| 0 <= i < |plan.flow.steps| && plan.flow.steps[i] == s;
      AcceptedPlanResolves(c, flowId, context, i);
    }
  }

  /**
   * Soundness of the static check: for an accepted catalog, a plan that binds and dry-runs fails in
   * a session only with an error the session itself has just answered, whatever the session does.
   */
  lemma StaticCheckIsSound(c: Catalog, flowId: string, context: Context, session: Session)
    requires Accepts(c) && Binding(c, flowId, context).Ok?
    requires DryRun(Binding(c, flowId, context).value).Ok?
    ensures var plan := Binding(c, flowId, context).value;
            var run := RunSteps(plan, session, plan.flow.steps);
            run.outcome.Err? ==> run.trace != [] && run.trace[|run.trace| - 1].reply == Fail(run.outcome.error)
  {
    hide Accepts, Binding, DryRun, Ready, RunSteps;
    AcceptedPlanIsReady(c, flowId, context);
    var plan := Binding(c, flowId, context).value;
    if RunSteps(plan, session, plan.flow.steps).outcome.Err? {
      ReadyRunFailsOnlyBySession(plan, session, plan.flow.steps);
    }
  }

  /** Every page that a bound element or operation names is part of the plan. */
  lemma AcceptedPlanIsClosed(c: Catalog, flowId: string, context: Context)
    requires Accepts(c) && Binding(c, flowId, context).Ok?
    ensures var plan := Binding(c, flowId, context).value;
            && plan.flow.startPage in IdSet(PageIds(plan.pages))
            && PagesOfElements(plan.elements) <= IdSet(PageIds(plan.pages))
            && PagesOfOperations(plan.operations) <= IdSet(PageIds(plan.pages))
  {
    hide Accepts, FindFlow, Keep, ElementsOf, PagesOf, OperationsOf, RequestsOf, RequestsOfOutputs, IdSet,
         BoundElements, BoundOperations, BoundRequests, BoundPages, SliceAndBind, BindFlowTemplates, CheckInputs,
         StepOk, UniqueIds, PagesOfElements, PagesOfOperations, SameReferences;
    var plan, flow := Binding(c, flowId, context).value, FindFlow(c.flows, flowId).value;
    PlanIsExactSlice(c, flowId, context);
    FlowIsAccepted(c, flowId);
    BoundElementsKeepPages(ReachableElements(c, flow), plan.elements);
    BoundOperationsKeepPages(ReachableOperations(c, flow), plan.operations);
    CatalogPagesAreKnown(c, flow);
    var refs := PageRefs(flow, ReachableElements(c, flow), ReachableOperations(c, flow));
    forall id | id in refs && id in IdSet(PageIds(c.pages))
      ensures id in IdSet(PageIds(plan.pages))
    {
      SelectedPageIsBound(c, refs, plan.pages, id);
    }
  }

  lemma CatalogPagesAreKnown(c: Catalog, f: Flow)
    requires Accepts(c)
    ensures PagesOfElements(ReachableElements(c, f)) <= IdSet(PageIds(c.pages))
    ensures PagesOfOperations(ReachableOperations(c, f)) <= IdSet(PageIds(c.pages))
  {
    hide FlowsOk, HeaderOk, Links, IdSet, Keep, Blank, SelectorOk, PageOk, UniqueIds, RequestOk;
    KeepMembers(ElementIn(ElementsOf(f.steps)), c.elements);
    KeepMembers(OperationIn(OperationsOf(f.steps)), c.operations);
  }

  // ----- a session run refines the dry run -----

  /** A step report with its status and skip reason erased. */
  function Erased(r: StepReport): StepReport {
    r.(status := Planned, detail := r.detail - {SkipReasonKey})
  }

  lemma {:induction false} SessionRefinesDryRun(plan: Plan, session: Session, steps: seq<Step>)
    requires RunSteps(plan, session, steps).outcome.Ok?
    ensures var reports := RunSteps(plan, session, steps).outcome.value;
            var planned := Traverse(DryRunner(plan), steps);
            && planned.Ok? && |planned.value| == |reports|
            && forall i :: 0 <= i < |reports| ==> Erased(reports[i]) == planned.value[i]
  {
    hide RunStep, DryRunStep, Erased;
    if steps != [] {
      var init, last := steps[..|steps| - 1], steps[|steps| - 1];
      SessionRefinesDryRun(plan, session, init);
      var before := RunSteps(plan, session, init);
      StepRefinesDryRun(plan, session, last, before.trace, before.consumed);
      assert DryRunner(plan)(last) == DryRunStep(plan, last);
    }
  }

  lemma StepRefinesDryRun(plan: Plan, session: Session, s: Step, past: seq<Exchange>, consumed: set<string>)
    requires RunStep(plan, session, s, past, consumed).outcome.Ok?
    ensures DryRunStep(plan, s) == Ok(Erased(RunStep(plan, session, s, past, consumed).outcome.value))
  {
    hide StepDetail, ScriptOf, Converse, Tolerates;
    if DryRunStep(plan, s).Ok? {
      DryRunHasNoSkipReason(plan, s);
      EraseUndoesSkip(StepDetail(plan, s).value);
    }
  }

  lemma DryRunHasNoSkipReason(plan: Plan, s: Step)
    requires StepDetail(plan, s).Ok?
    ensures SkipReasonKey !in StepDetail(plan, s).value
  {
    hide FindOperation, FindRequest, InputFilePaths, Present, Blank, Decimal, TextIf, NatIf, CaptchaDetail,
         OperationDetail, RequestDetail, TargetValues, TextArray;
  }

  lemma EraseUndoesSkip(d: map<DetailKey, Value>)
    requires SkipReasonKey !in d
    ensures d - {SkipReasonKey} == d
    ensures forall v: Value {:trigger d[SkipReasonKey := v]} :: d[SkipReasonKey := v] - {SkipReasonKey} == d
  {
  }

  // ----- the dry run describes the calls of the session -----

  predicate Shows(d: map<DetailKey, Value>, key: DetailKey, v: Value) {
    key in d && d[key] == v
  }

  predicate ShowsNat(d: map<DetailKey, Value>, key: DetailKey, v: Option<nat>) {
    if v.Some? then Shows(d, key, NatValue(v.value)) else key !in d
  }

  predicate ShowsText(d: map<DetailKey, Value>, key: DetailKey, v: Option<string>) {
    if v.Some? then Shows(d, key, String(v.value)) else key !in d
  }

  /** The targets of a call, each named by the id of its element. */
  function TargetNames(ts: seq<BoundTarget>): seq<LayoutTarget> {
    seq(|ts|, i requires 0 <= i < |ts| => LayoutTarget(ts[i].element.id, ts[i].role, ts[i].required))
  }

  predicate ShowsSettings(d: map<DetailKey, Value>, t: CaptchaSettings) {
    && Shows(d, OptionalKey, Bool(t.optional)) && Shows(d, DispatchEventsKey, TextArray(t.dispatchEvents))
    && ShowsText(d, FieldLabelKey, t.fieldLabel) && ShowsText(d, PlaceholderKey, t.placeholder)
    && ShowsText(d, InstructionKey, t.instruction) && ShowsText(d, LlmSystemPromptKey, t.llmSystemPrompt)
    && ShowsText(d, LlmPromptTemplateKey, t.llmPromptTemplate)
    && ShowsNat(d, ExpectedLengthKey, t.expectedLength) && ShowsNat(d, MaxAttemptsKey, t.maxAttempts)
  }

  /** The detail of a planned step shows what a call will be made with; an absent value is not shown. */
  predicate Describes(d: map<DetailKey, Value>, call: Call) {
    match call
    case CallNavigate(url) => Shows(d, UrlKey, String(url))
    case CallClick(e) => Shows(d, ElementKey, String(e.id))
    case CallSetInput(e, value, events) =>
      && Shows(d, ElementKey, String(e.id)) && Shows(d, ValuePresentKey, Bool(!Blank(value)))
      && Shows(d, DispatchEventsKey, TextArray(events))
    case CallInvoke(o) => Shows(d, OperationKey, String(o.id)) && Shows(d, SourcePresentKey, Bool(!Blank(o.source)))
    case CallSetFiles(e, paths) =>
      && Shows(d, ElementKey, String(e.id)) && Shows(d, InputPresentKey, Bool(true))
      && Shows(d, FileCountKey, NatValue(|paths|))
    case CallDispatch(e, events) => Shows(d, ElementKey, String(e.id)) && Shows(d, EventsKey, TextArray(events))
    case CallValidateLayout(targets, instruction, rules, optional) =>
      && Shows(d, OptionalKey, Bool(optional)) && Shows(d, TargetsKey, TargetValues(TargetNames(targets)))
      && ShowsText(d, InstructionKey, instruction)
      && (if rules != [] then Shows(d, RelationshipRulesKey, TextArray(rules)) else RelationshipRulesKey !in d)
    case CallSolveCaptcha(q) =>
      && Shows(d, ImageElementKey, String(q.image.id)) && Shows(d, InputElementKey, String(q.input.id))
      && Shows(d, InputIdKey, String(q.inputId)) && ShowsSettings(d, q.settings)
      && (if q.refresh.Some? then Shows(d, RefreshElementKey, String(q.refresh.value.id)) else RefreshElementKey !in d)
      && (q.manualValue.Some? ==> Shows(d, ManualValuePresentKey, Bool(true)))
    case CallWaitForRequest(r, timeout) =>
      && Shows(d, RequestKey, String(r.id)) && Shows(d, RequestMethodKey, String(r.httpMethod))
      && Shows(d, RequestUrlPatternKey, String(r.urlPattern)) && ShowsNat(d, TimeoutMsKey, timeout)
    case CallWaitForPage(p, timeout) =>
      (Shows(d, WaitForPageKey, String(p.id)) || Shows(d, PageKey, String(p.id))) && ShowsNat(d, TimeoutMsKey, timeout)
    case CallWait(duration) => Shows(d, DurationMsKey, NatValue(duration))
  }

  /** Every call a session step can make is described by the report of its dry run. */
  lemma DryRunDescribesCalls(plan: Plan, s: Step, consumed: set<string>, call: Call)
    requires DryRunStep(plan, s).Ok? && call in ScriptOf(plan, s, consumed).calls
    ensures Describes(DryRunStep(plan, s).value.detail, call)
  {
    hide ScriptOf, DryRunStep, Describes;
    match s
    case SolveVisualCaptcha(_, _, _, _, _, _) => CaptchaIsDescribed(plan, s, consumed, call);
    case InvokeOperation(_, _) => OperationIsDescribed(plan, s, consumed, call);
    case WaitForRequest(_, _, _, _) => RequestIsDescribed(plan, s, consumed, call);
    case SetFiles(_, _, _) => FilesAreDescribed(plan, s, consumed, call);
    case ValidateVisualLayout(_, _, _, _, _) => LayoutIsDescribed(plan, s, consumed, call);
    case Navigate(_, _, _) => PageIsDescribed(plan, s, consumed, call);
    case WaitForPage(_, _, _) => PageIsDescribed(plan, s, consumed, call);
    case _ => SimpleIsDescribed(plan, s, consumed, call);
  }

  lemma CaptchaIsDescribed(plan: Plan, s: Step, consumed: set<string>, call: Call)
    requires s.SolveVisualCaptcha? && DryRunStep(plan, s).Ok? && call in ScriptOf(plan, s, consumed).calls
    ensures Describes(DryRunStep(plan, s).value.detail, call)
  {
    hide StepDetail, ScriptOf, ManualValue, ShowsSettings;
    CaptchaDetailShows(plan, s);
    CaptchaDetailShowsRefresh(plan, s);
    CaptchaDetailShowsSettings(plan, s);
    CaptchaCallCarries(plan, s, consumed, call);
  }

  lemma CaptchaDetailShows(plan: Plan, s: Step)
    requires s.SolveVisualCaptcha?
    ensures var d := StepDetail(plan, s);
            && d.Ok?
            && Shows(d.value, ImageElementKey, String(s.imageElement))
            && Shows(d.value, InputElementKey, String(s.inputElement))
            && Shows(d.value, InputIdKey, String(s.inputId))
            && Shows(d.value, ManualValuePresentKey,
                     Bool(s.inputId in plan.context.inputs && Present(plan.context.inputs[s.inputId])))
  {
    hide CaptchaDetail, TextIf, Present;
  }

  lemma CaptchaDetailShowsRefresh(plan: Plan, s: Step)
    requires s.SolveVisualCaptcha?
    ensures StepDetail(plan, s).Ok? && ShowsText(StepDetail(plan, s).value, RefreshElementKey, s.refreshElement)
  {
    hide CaptchaDetail, Present;
  }

  /** The keys of a captcha step that do not show its settings. */
  predicate NamesCaptcha(key: DetailKey) {
    || key.RefreshElementKey? || key.ImageElementKey? || key.InputElementKey? || key.InputIdKey?
    || key.ManualValuePresentKey?
  }

  lemma CaptchaDetailShowsSettings(plan: Plan, s: Step)
    requires s.SolveVisualCaptcha?
    ensures StepDetail(plan, s).Ok? && ShowsSettings(StepDetail(plan, s).value, s.settings)
  {
    hide CaptchaDetail, Present, NatValue, TextArray, ShowsSettings;
    SettingsAreShown(s.settings);
    var d, part := StepDetail(plan, s).value, CaptchaDetail(s.settings);
    assert forall key :: !NamesCaptcha(key) ==> (key in d <==> key in part) && (key in d ==> d[key] == part[key]);
    ShownAlike(part, d, s.settings);
  }

  lemma ShownAlike(part: map<DetailKey, Value>, d: map<DetailKey, Value>, t: CaptchaSettings)
    requires ShowsSettings(part, t)
    requires forall key :: !NamesCaptcha(key) ==> (key in d <==> key in part) && (key in d ==> d[key] == part[key])
    ensures ShowsSettings(d, t)
  {
    hide NatValue, TextArray;
  }

  lemma SettingsAreShown(t: CaptchaSettings)
    ensures ShowsSettings(CaptchaDetail(t), t)
  {
    hide NatValue, TextArray, CaptchaTexts, CaptchaLimits;
    TextsAreShown(t);
    LimitsAreShown(t);
  }

  lemma TextsAreShown(t: CaptchaSettings)
    ensures var d := CaptchaTexts(t);
            && ShowsText(d, FieldLabelKey, t.fieldLabel) && ShowsText(d, PlaceholderKey, t.placeholder)
            && ShowsText(d, InstructionKey, t.instruction) && ShowsText(d, LlmSystemPromptKey, t.llmSystemPrompt)
            && ShowsText(d, LlmPromptTemplateKey, t.llmPromptTemplate)
  {
    hide CaptchaPrompts;
    PromptsAreShown(t);
  }

  lemma PromptsAreShown(t: CaptchaSettings)
    ensures var d := CaptchaPrompts(t);
            && ShowsText(d, InstructionKey, t.instruction) && ShowsText(d, LlmSystemPromptKey, t.llmSystemPrompt)
            && ShowsText(d, LlmPromptTemplateKey, t.llmPromptTemplate)
  {
  }

  lemma LimitsAreShown(t: CaptchaSettings)
    ensures ShowsNat(CaptchaLimits(t), ExpectedLengthKey, t.expectedLength)
    ensures ShowsNat(CaptchaLimits(t), MaxAttemptsKey, t.maxAttempts)
  {
    hide NatValue;
  }

  lemma CaptchaCallCarries(plan: Plan, s: Step, consumed: set<string>, call: Call)
    requires s.SolveVisualCaptcha? && call in ScriptOf(plan, s, consumed).calls
    ensures call.CallSolveCaptcha? && call.captcha.inputId == s.inputId && call.captcha.settings == s.settings
    ensures call.captcha.image.id == s.imageElement && call.captcha.input.id == s.inputElement
    ensures if call.captcha.refresh.Some? then s.refreshElement == Some(call.captcha.refresh.value.id)
            else s.refreshElement.None?
    ensures call.captcha.manualValue.Some? ==>
              s.inputId in plan.context.inputs && Present(plan.context.inputs[s.inputId])
  {
    hide FindElement, Trim, Blank, FindInput;
  }

  lemma OperationIsDescribed(plan: Plan, s: Step, consumed: set<string>, call: Call)
    requires s.InvokeOperation? && DryRunStep(plan, s).Ok? && call in ScriptOf(plan, s, consumed).calls
    ensures Describes(DryRunStep(plan, s).value.detail, call)
  {
    hide FindOperation, Blank, TextIf;
  }

  lemma RequestIsDescribed(plan: Plan, s: Step, consumed: set<string>, call: Call)
    requires s.WaitForRequest? && DryRunStep(plan, s).Ok? && call in ScriptOf(plan, s, consumed).calls
    ensures Describes(DryRunStep(plan, s).value.detail, call)
  {
    hide FindRequest, NatValue;
  }

  lemma FilesAreDescribed(plan: Plan, s: Step, consumed: set<string>, call: Call)
    requires s.SetFiles? && DryRunStep(plan, s).Ok? && call in ScriptOf(plan, s, consumed).calls
    ensures Describes(DryRunStep(plan, s).value.detail, call)
  {
    hide FindElement, InputFilePaths, Decimal;
  }

  lemma LayoutIsDescribed(plan: Plan, s: Step, consumed: set<string>, call: Call)
    requires s.ValidateVisualLayout? && DryRunStep(plan, s).Ok? && call in ScriptOf(plan, s, consumed).calls
    ensures Describes(DryRunStep(plan, s).value.detail, call)
  {
    hide FindElement, Traverse, TargetValues, TargetNames, TextArray;
    TargetsAreNamed(plan, s.targets);
  }

  lemma TargetsAreNamed(plan: Plan, targets: seq<LayoutTarget>)
    ensures var bound := Traverse(TargetBinder(plan), targets); bound.Ok? ==> TargetNames(bound.value) == targets
  {
    hide FindElement, Traverse;
    var bound := Traverse(TargetBinder(plan), targets);
    if bound.Ok? {
      forall i | 0 <= i < |targets|
        ensures TargetNames(bound.value)[i] == targets[i]
      {
        assert TargetBinder(plan)(targets[i]) == Ok(bound.value[i]);
      }
    }
  }

  lemma PageIsDescribed(plan: Plan, s: Step, consumed: set<string>, call: Call)
    requires s.Navigate? || s.WaitForPage?
    requires DryRunStep(plan, s).Ok? && call in ScriptOf(plan, s, consumed).calls
    ensures Describes(DryRunStep(plan, s).value.detail, call)
  {
    hide FindPage, Decimal;
  }

  lemma SimpleIsDescribed(plan: Plan, s: Step, consumed: set<string>, call: Call)
    requires s.Click? || s.SetInput? || s.DispatchEvents? || s.Wait?
    requires DryRunStep(plan, s).Ok? && call in ScriptOf(plan, s, consumed).calls
    ensures Describes(DryRunStep(plan, s).value.detail, call)
  {
    hide FindElement, Blank, Decimal, TextArray;
  }

  // ----- where a run stops -----

  function CallsOf(xs: seq<Exchange>): seq<Call> {
    seq(|xs|, i requires 0 <= i < |xs| => xs[i].call)
  }

  lemma AnsweredInTurn(session: Session, past: seq<Exchange>, x: Exchange, rest: seq<Exchange>)
    requires x.reply == session(past, x.call)
    requires forall i :: 0 <= i < |rest| ==> rest[i].reply == session(past + [x] + rest[..i], rest[i].call)
    ensures var xs := [x] + rest;
            forall i :: 0 <= i < |xs| ==> xs[i].reply == session(past + xs[..i], xs[i].call)
  {
    var xs := [x] + rest;
    assert past + xs[..0] == past;
    forall i | 0 < i < |xs|
      ensures xs[i].reply == session(past + xs[..i], xs[i].call)
    {
      assert past + xs[..i] == past + [x] + rest[..i - 1];
    }
  }

  /**
   * A conversation is a prefix of the calls it was given, each answered by the session in turn; all
   * but its last call succeeded, and it is cut short only by a failure.
   */
  lemma {:induction false} ConversationIsPrefix(session: Session, past: seq<Exchange>, calls: seq<Call>)
    ensures var xs := Converse(session, past, calls);
            && CallsOf(xs) <= calls
            && (forall i :: 0 <= i < |xs| ==> xs[i].reply == session(past + xs[..i], xs[i].call))
            && (forall i :: 0 <= i < |xs| - 1 ==> xs[i].reply.Pass?)
            && (ClosingFailure(xs).None? ==> CallsOf(xs) == calls)
    decreases |calls|
  {
    if calls != [] {
      var x := Exchange(calls[0], session(past, calls[0]));
      assert past + [] == past;
      if x.reply.Pass? {
        ConversationIsPrefix(session, past + [x], calls[1..]);
        var rest := Converse(session, past + [x], calls[1..]);
        var xs := [x] + rest;
        assert CallsOf(xs) == [x.call] + CallsOf(rest);
        AnsweredInTurn(session, past, x, rest);
      } else {
        assert CallsOf([x]) == [calls[0]];
      }
    }
  }

  /** What a step has said when it ends. */
  ghost predicate StepSaid(plan: Plan, session: Session, s: Step, past: seq<Exchange>, consumed: set<string>,
                           xs: seq<Exchange>)
  {
    var calls := ScriptOf(plan, s, consumed).calls;
    && CallsOf(xs) <= calls
    && (forall i :: 0 <= i < |xs| ==> xs[i].reply == session(past + xs[..i], xs[i].call))
    && (forall i :: 0 <= i < |xs| - 1 ==> xs[i].reply.Pass?)
  }

  /**
   * Why a step ended the run: the session answered its last call with an error it does not tolerate;
   * or its dry run fails, and it made no call; or every call succeeded and what it needed next was missing.
   */
  ghost predicate StepEnded(plan: Plan, s: Step, consumed: set<string>, xs: seq<Exchange>, error: BlobError) {
    || (xs != [] && xs[|xs| - 1].reply == Fail(error) && Tolerates(s, error).None?)
    || (xs == [] && DryRunStep(plan, s) == Err(error))
    || (var script := ScriptOf(plan, s, consumed);
        script.finish == Broken(error) && CallsOf(xs) == script.calls && forall x :: x in xs ==> x.reply.Pass?)
  }

  lemma FailingStepSaid(plan: Plan, session: Session, s: Step, past: seq<Exchange>, consumed: set<string>)
    requires RunStep(plan, session, s, past, consumed).outcome.Err?
    ensures var run := RunStep(plan, session, s, past, consumed);
            && StepSaid(plan, session, s, past, consumed, run.exchanges)
            && StepEnded(plan, s, consumed, run.exchanges, run.outcome.error)
  {
    hide DryRunStep, ScriptOf, Converse, Tolerates;
    ConversationIsPrefix(session, past, ScriptOf(plan, s, consumed).calls);
  }

  /** A step that ends well has made all of its calls, or its last call failed in a way it tolerates. */
  lemma CompletedStepSaid(plan: Plan, session: Session, s: Step, past: seq<Exchange>, consumed: set<string>)
    requires RunStep(plan, session, s, past, consumed).outcome.Ok?
    ensures var run := RunStep(plan, session, s, past, consumed);
            var xs, calls := run.exchanges, ScriptOf(plan, s, consumed).calls;
            && StepSaid(plan, session, s, past, consumed, xs)
            && (ClosingFailure(xs).None? ==> CallsOf(xs) == calls)
            && (ClosingFailure(xs).Some? ==> run.outcome.value.status == Skipped
                                             && Tolerates(s, ClosingFailure(xs).value).Some?)
  {
    hide DryRunStep, ScriptOf, Converse, Tolerates;
    ConversationIsPrefix(session, past, ScriptOf(plan, s, consumed).calls);
  }

  /**
   * Step `i` of the run ended well: its part of the trace is what it said, and that is all of its
   * calls, or all up to one that failed in a way the step tolerates and reports.
   */
  ghost predicate Completed(plan: Plan, session: Session, steps: seq<Step>, i: nat)
    requires i < |steps|
  {
    var before, after := RunSteps(plan, session, steps[..i]), RunSteps(plan, session, steps[..i + 1]);
    && before.outcome.Ok? && after.outcome.Ok? && |after.outcome.value| == i + 1
    && before.trace <= after.trace <= RunSteps(plan, session, steps).trace
    && var xs := after.trace[|before.trace|..];
       && StepSaid(plan, session, steps[i], before.trace, before.consumed, xs)
       && (ClosingFailure(xs).None? ==> CallsOf(xs) == ScriptOf(plan, steps[i], before.consumed).calls)
       && (ClosingFailure(xs).Some? ==> after.outcome.value[i].status == Skipped
                                        && Tolerates(steps[i], ClosingFailure(xs).value).Some?)
  }

  lemma {:induction false} TraceGrows(plan: Plan, session: Session, steps: seq<Step>, i: nat)
    requires i <= |steps|
    ensures RunSteps(plan, session, steps[..i]).trace <= RunSteps(plan, session, steps).trace
  {
    hide RunStep;
    if i == |steps| {
      assert steps[..i] == steps;
    } else {
      assert steps[..|steps| - 1][..i] == steps[..i];
      TraceGrows(plan, session, steps[..|steps| - 1], i);
    }
  }

  lemma {:induction false} ReportsAreCounted(plan: Plan, session: Session, steps: seq<Step>)
    requires RunSteps(plan, session, steps).outcome.Ok?
    ensures |RunSteps(plan, session, steps).outcome.value| == |steps|
  {
    hide RunStep;
    if steps != [] {
      ReportsAreCounted(plan, session, steps[..|steps| - 1]);
    }
  }

  /** In a run that got past step `i`, the step completed. */
  lemma PassedStepCompleted(plan: Plan, session: Session, steps: seq<Step>, i: nat)
    requires i < |steps| && RunSteps(plan, session, steps[..i + 1]).outcome.Ok?
    ensures Completed(plan, session, steps, i)
  {
    hide RunStep, StepSaid, ScriptOf, Tolerates, ClosingFailure;
    var front := steps[..i + 1];
    assert front[..|front| - 1] == steps[..i] && front[|front| - 1] == steps[i];
    var before := RunSteps(plan, session, steps[..i]);
    CompletedStepSaid(plan, session, steps[i], before.trace, before.consumed);
    var xs := RunStep(plan, session, steps[i], before.trace, before.consumed).exchanges;
    assert (before.trace + xs)[|before.trace|..] == xs;
    ReportsAreCounted(plan, session, steps[..i]);
    TraceGrows(plan, session, steps, i + 1);
  }

  lemma {:induction false} PrefixesSucceed(plan: Plan, session: Session, steps: seq<Step>, i: nat)
    requires i <= |steps| && RunSteps(plan, session, steps).outcome.Ok?
    ensures RunSteps(plan, session, steps[..i]).outcome.Ok?
  {
    hide RunStep;
    if i == |steps| {
      assert steps[..i] == steps;
    } else {
      assert steps[..|steps| - 1][..i] == steps[..i];
      PrefixesSucceed(plan, session, steps[..|steps| - 1], i);
    }
  }

  /** A run that ends well is made of its steps: each completed, and their parts make up the whole trace. */
  lemma SuccessfulRunIsItsSteps(plan: Plan, session: Session, steps: seq<Step>)
    requires RunSteps(plan, session, steps).outcome.Ok?
    ensures forall i :: 0 <= i < |steps| ==> Completed(plan, session, steps, i)
  {
    hide RunSteps, Completed;
    forall i | 0 <= i < |steps|
      ensures Completed(plan, session, steps, i)
    {
      PrefixesSucceed(plan, session, steps, i + 1);
      PassedStepCompleted(plan, session, steps, i);
    }
  }

  /**
   * A failing run stopped at one step `k`: every step before it completed, their parts make up the
   * trace before it, and step `k` made its own calls in order up to the one that ended the run.
   */
  lemma RunStopsAt(plan: Plan, session: Session, steps: seq<Step>) returns (k: nat)
    requires RunSteps(plan, session, steps).outcome.Err?
    ensures k < |steps| && RunSteps(plan, session, steps[..k]).outcome.Ok?
    ensures forall i :: 0 <= i < k ==> Completed(plan, session, steps, i)
    ensures var run, before := RunSteps(plan, session, steps), RunSteps(plan, session, steps[..k]);
            && before.trace <= run.trace
            && var xs := run.trace[|before.trace|..];
               && StepSaid(plan, session, steps[k], before.trace, before.consumed, xs)
               && StepEnded(plan, steps[k], before.consumed, xs, run.outcome.error)
  {
    hide RunSteps, StepSaid, StepEnded, Completed;
    k := FailingStep(plan, session, steps);
    forall i | 0 <= i < k
      ensures Completed(plan, session, steps, i)
    {
      PrefixesSucceed(plan, session, steps[..k], i + 1);
      assert steps[..k][..i + 1] == steps[..i + 1];
      PassedStepCompleted(plan, session, steps, i);
    }
  }

  lemma {:induction false} FailingStep(plan: Plan, session: Session, steps: seq<Step>) returns (k: nat)
    requires RunSteps(plan, session, steps).outcome.Err?
    ensures k < |steps| && RunSteps(plan, session, steps[..k]).outcome.Ok?
    ensures var run, before := RunSteps(plan, session, steps), RunSteps(plan, session, steps[..k]);
            && before.trace <= run.trace
            && var xs := run.trace[|before.trace|..];
               && StepSaid(plan, session, steps[k], before.trace, before.consumed, xs)
               && StepEnded(plan, steps[k], before.consumed, xs, run.outcome.error)
  {
    hide RunStep, StepSaid, StepEnded;
    var init, last := steps[..|steps| - 1], steps[|steps| - 1];
    var before := RunSteps(plan, session, init);
    if before.outcome.Err? {
      k := FailingStep(plan, session, init);
      assert init[..k] == steps[..k];
    } else {
      k := |steps| - 1;
      FailingStepSaid(plan, session, last, before.trace, before.consumed);
      var xs := RunStep(plan, session, last, before.trace, before.consumed).exchanges;
      assert (before.trace + xs)[|before.trace|..] == xs;
    }
  }

  // ----- one-shot inputs -----

  /** The exchange is a successful captcha that carried the manual value of a transient input. */
  predicate Spends(plan: Plan, x: Exchange, inputId: string) {
    && x.call.CallSolveCaptcha? && x.call.captcha.inputId == inputId && x.call.captcha.manualValue.Some?
    && x.reply.Pass? && IsTransient(plan, inputId)
  }

  predicate Carries(x: Exchange, inputId: string) {
    x.call.CallSolveCaptcha? && x.call.captcha.inputId == inputId && x.call.captcha.manualValue.Some?
  }

  /** Once the value of a transient input has been spent, no later captcha call carries it. */
  ghost predicate OneShot(plan: Plan, trace: seq<Exchange>) {
    forall i, j, id :: 0 <= i < j < |trace| && Spends(plan, trace[i], id) ==> !Carries(trace[j], id)
  }

  ghost predicate ConsumedIsSpent(plan: Plan, run: Run) {
    forall id :: id in run.consumed <==> exists i :: 0 <= i < |run.trace| && Spends(plan, run.trace[i], id)
  }

  lemma OnlyCaptchaStepsSolve(plan: Plan, s: Step, consumed: set<string>)
    ensures var calls := ScriptOf(plan, s, consumed).calls;
            if s.SolveVisualCaptcha? then
              && |calls| <= 1 && (|calls| == 1 <==> ScriptOf(plan, s, consumed).finish.Done?)
              && forall c :: c in calls ==>
                c.CallSolveCaptcha? && c.captcha.inputId == s.inputId
                && c.captcha.manualValue == ManualValue(plan, s.inputId, consumed)
            else forall c :: c in calls ==> !c.CallSolveCaptcha?
  {
    hide FindElement, FindPage, FindOperation, FindRequest, ManualValue, Traverse, InputFilePaths;
  }

  /** What one step adds to the trace and to the consumed inputs. */
  lemma StepSpends(plan: Plan, session: Session, s: Step, past: seq<Exchange>, consumed: set<string>)
    ensures var run := RunStep(plan, session, s, past, consumed);
            && (forall x, id :: x in run.exchanges && Spends(plan, x, id) ==> id in run.consumed)
            && (forall id :: id in run.consumed && id !in consumed ==>
                  |run.exchanges| == 1 && Spends(plan, run.exchanges[0], id))
            && (forall x, id :: x in run.exchanges && id in consumed && IsTransient(plan, id) ==> !Carries(x, id))
            && consumed <= run.consumed && (s.SolveVisualCaptcha? ==> |run.exchanges| <= 1)
            && (!s.SolveVisualCaptcha? ==> forall x, id :: x in run.exchanges ==> !Carries(x, id))
  {
    hide DryRunStep, ScriptOf, Converse, Tolerates, IsTransient;
    var calls := ScriptOf(plan, s, consumed).calls;
    var xs := Converse(session, past, calls);
    OnlyCaptchaStepsSolve(plan, s, consumed);
    ConversationIsPrefix(session, past, calls);
    forall i | 0 <= i < |xs|
      ensures xs[i].call in calls
    {
      assert CallsOf(xs)[i] == calls[i];
    }
  }

  /** In every run the value of a transient input is spent at most once, and never carried again. */
  lemma {:induction false} TransientInputsAreOneShot(plan: Plan, session: Session, steps: seq<Step>)
    ensures var run := RunSteps(plan, session, steps);
            && OneShot(plan, run.trace) && ConsumedIsSpent(plan, run)
            && forall id :: id in run.consumed ==> IsTransient(plan, id)
  {
    hide RunStep, IsTransient;
    if steps != [] {
      var init, last := steps[..|steps| - 1], steps[|steps| - 1];
      TransientInputsAreOneShot(plan, session, init);
      var before := RunSteps(plan, session, init);
      if before.outcome.Ok? {
        StepSpends(plan, session, last, before.trace, before.consumed);
        StepKeepsOneShot(plan, before, RunStep(plan, session, last, before.trace, before.consumed));
      }
    }
  }

  lemma StepKeepsOneShot(plan: Plan, before: Run, step: StepRun)
    requires OneShot(plan, before.trace) && ConsumedIsSpent(plan, before)
    requires forall id :: id in before.consumed ==> IsTransient(plan, id)
    requires forall x, id :: x in step.exchanges && Spends(plan, x, id) ==> id in step.consumed
    requires forall id :: id in step.consumed && id !in before.consumed ==>
               |step.exchanges| == 1 && Spends(plan, step.exchanges[0], id)
    requires forall x, id :: x in step.exchanges && id in before.consumed && IsTransient(plan, id) ==> !Carries(x, id)
    requires before.consumed <= step.consumed
    requires |step.exchanges| <= 1 || forall x, id :: x in step.exchanges ==> !Carries(x, id)
    ensures var run := Run(before.outcome, before.trace + step.exchanges, step.consumed);
            && OneShot(plan, run.trace) && ConsumedIsSpent(plan, run)
            && forall id :: id in run.consumed ==> IsTransient(plan, id)
  {
    var n, trace := |before.trace|, before.trace + step.exchanges;
    forall i, j, id | 0 <= i < j < |trace| && Spends(plan, trace[i], id)
      ensures !Carries(trace[j], id)
    {
      if i < n {
        assert trace[i] == before.trace[i];
        assert id in before.consumed;
      }
      if n <= j {
        assert trace[j] == step.exchanges[j - n] && trace[j] in step.exchanges;
      }
    }
    forall id | id in step.consumed
      ensures exists i :: 0 <= i < |trace| && Spends(plan, trace[i], id)
    {
      if id in before.consumed {
        var i :| 0 <= i < n && Spends(plan, before.trace[i], id);
        assert trace[i] == before.trace[i];
      } else {
        assert trace[n] == step.exchanges[0];
      }
    }
    forall i, id | 0 <= i < |trace| && Spends(plan, trace[i], id)
      ensures id in step.consumed
    {
      if i < n {
        assert trace[i] == before.trace[i];
      } else {
        assert trace[i] == step.exchanges[i - n] && trace[i] in step.exchanges;
      }
    }
  }
}
