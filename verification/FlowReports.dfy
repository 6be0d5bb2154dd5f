/** What the reports of both interpreters say, key by key. */
module FlowReports {
  import opened Results
  import opened Text
  import opened Json
  import opened FlowModel
  import opened FlowExecution
  import opened FlowSoundness
  import opened FlowCalls

  // ----- numbers -----

  predicate IsDigit(c: char) {
    '0' <= c <= '9'
  }

  /** The number a run of decimal digits reads as. */
  function Reading(s: string): nat {
    if s == "" || !IsDigit(s[|s| - 1]) then 0 else 10 * Reading(s[..|s| - 1]) + (s[|s| - 1] - '0') as nat
  }

  /** A printed number has digits only, no leading zero, and reads as the number. */
  lemma {:induction false} DecimalReads(n: nat)
    ensures var s := Decimal(n);
            && s != "" && (forall i :: 0 <= i < |s| ==> IsDigit(s[i])) && (n > 0 ==> s[0] != '0')
            && Reading(s) == n
  {
    var digit := "0123456789"[n % 10];
    assert digit == '0' + (n % 10) as char;
    if n >= 10 {
      DecimalReads(n / 10);
      assert Decimal(n) == Decimal(n / 10) + [digit];
      assert Decimal(n)[..|Decimal(n)| - 1] == Decimal(n / 10);
    } else {
      assert Decimal(n) == [digit] && [digit][..0] == "";
    }
  }

  // ----- the report of a step -----

  /** The name of a kind is reported for the steps of that kind and for no others. */
  predicate KindIsNamed(s: Step, name: string) {
    && (s.Navigate? <==> name == "navigate")
    && (s.Click? <==> name == "click")
    && (s.SetInput? <==> name == "set_input")
    && (s.InvokeOperation? <==> name == "invoke_operation")
    && (s.SetFiles? <==> name == "set_files")
    && (s.DispatchEvents? <==> name == "dispatch_events")
    && (s.ValidateVisualLayout? <==> name == "validate_visual_layout")
    && (s.SolveVisualCaptcha? <==> name == "solve_visual_captcha")
    && (s.WaitForRequest? <==> name == "wait_for_request")
    && (s.WaitForPage? <==> name == "wait_for_page")
    && (s.Wait? <==> name == "wait")
  }

  lemma KindsAreNamed(s: Step)
    ensures KindIsNamed(s, KindName(s))
  {
    assert "navigate"[0] == 'n' && "click"[0] == 'c' && "set_input"[4] == 'i' && "set_files"[4] == 'f';
    assert "invoke_operation"[0] == 'i' && "dispatch_events"[0] == 'd' && "validate_visual_layout"[0] == 'v';
    assert "solve_visual_captcha"[1] == 'o' && "wait_for_request"[9] == 'r' && "wait_for_page"[9] == 'p';
  }

  /** A dry run reports every step of the flow in order, as planned, under its id and kind. */
  ghost predicate Reports(r: Report, plan: Plan, mode: Mode) {
    && r.mode == mode && r.provider == plan.provider && r.surface == plan.surface && r.flowId == plan.flow.id
    && r.expectedRequests == plan.flow.expectedRequests
    && r.stepCount == |plan.flow.steps| == |r.steps|
    && forall i :: 0 <= i < |r.steps| ==>
         r.steps[i].stepId == plan.flow.steps[i].id && KindIsNamed(plan.flow.steps[i], r.steps[i].kind)
  }

  lemma DryRunReportsEveryStep(plan: Plan)
    requires DryRun(plan).Ok?
    ensures Reports(DryRun(plan).value, plan, DryRunMode)
    ensures forall i :: 0 <= i < |DryRun(plan).value.steps| ==> DryRun(plan).value.steps[i].status == Planned
  {
    hide StepDetail, Traverse, KindIsNamed, KindName;
    var r := DryRun(plan).value;
    forall i | 0 <= i < |plan.flow.steps|
      ensures r.steps[i].stepId == plan.flow.steps[i].id && KindIsNamed(plan.flow.steps[i], r.steps[i].kind)
      ensures r.steps[i].status == Planned
    {
      assert DryRunner(plan)(plan.flow.steps[i]) == Ok(r.steps[i]);
      KindsAreNamed(plan.flow.steps[i]);
    }
  }

  /** A session run that ends well reports every step of the flow in order, none of them as merely planned. */
  lemma {:induction false} SessionRunReportsEveryStep(plan: Plan, session: Session, steps: seq<Step>)
    requires RunSteps(plan, session, steps).outcome.Ok?
    ensures var reports := RunSteps(plan, session, steps).outcome.value;
            && |reports| == |steps|
            && forall i :: 0 <= i < |steps| ==>
                 && reports[i].stepId == steps[i].id && KindIsNamed(steps[i], reports[i].kind)
                 && reports[i].status != Planned
  {
    hide RunStep, KindIsNamed;
    if steps != [] {
      SessionRunReportsEveryStep(plan, session, steps[..|steps| - 1]);
      var before := RunSteps(plan, session, steps[..|steps| - 1]);
      StepIsReported(plan, session, steps[|steps| - 1], before.trace, before.consumed);
    }
  }

  lemma StepIsReported(plan: Plan, session: Session, s: Step, past: seq<Exchange>, consumed: set<string>)
    requires RunStep(plan, session, s, past, consumed).outcome.Ok?
    ensures var r := RunStep(plan, session, s, past, consumed).outcome.value;
            r.stepId == s.id && KindIsNamed(s, r.kind) && r.status != Planned
  {
    hide StepDetail, ScriptOf, Converse, Tolerates, KindIsNamed, KindName;
    KindsAreNamed(s);
  }

  lemma SessionReportIsComplete(plan: Plan, session: Session)
    requires RunSteps(plan, session, plan.flow.steps).outcome.Ok?
    ensures var reports := RunSteps(plan, session, plan.flow.steps).outcome.value;
            Reports(ReportOf(SessionMode, plan, reports), plan, SessionMode)
  {
    hide RunSteps, KindIsNamed;
    SessionRunReportsEveryStep(plan, session, plan.flow.steps);
  }

  // ----- the detail of a step -----

  ghost predicate ShowsTexts(d: map<DetailKey, Value>, key: DetailKey, texts: seq<string>) {
    && key in d && d[key].Array? && |d[key].items| == |texts|
    && forall i :: 0 <= i < |texts| ==> d[key].items[i] == String(texts[i])
  }

  /** A shown number is one that prints no leading zero and reads as the number. */
  ghost predicate ShowsNumber(d: map<DetailKey, Value>, key: DetailKey, n: nat) {
    key in d && d[key].Number? && d[key].printed == Decimal(n)
  }

  ghost predicate ShowsTargets(d: map<DetailKey, Value>, targets: seq<LayoutTarget>) {
    && TargetsKey in d && d[TargetsKey].Array? && |d[TargetsKey].items| == |targets|
    && forall i :: 0 <= i < |targets| ==>
         d[TargetsKey].items[i] ==
         Object([Entry("element", String(targets[i].element)), Entry("required", Bool(targets[i].required)),
                 Entry("role", String(targets[i].role))])
  }

  /** What the detail of a step shows, and, but for a captcha, that it shows nothing else. */
  ghost predicate DetailIs(plan: Plan, s: Step, d: map<DetailKey, Value>) {
    match s
    case Navigate(_, url, page) =>
      && Shows(d, UrlKey, String(url)) && ShowsText(d, WaitForPageKey, page)
      && d.Keys <= {UrlKey, WaitForPageKey}
    case Click(_, element, optional) =>
      && Shows(d, ElementKey, String(element)) && Shows(d, OptionalKey, Bool(optional))
      && d.Keys == {ElementKey, OptionalKey}
    case SetInput(_, element, value, events) =>
      && Shows(d, ElementKey, String(element)) && Shows(d, ValuePresentKey, Bool(Trim(value) != ""))
      && ShowsTexts(d, DispatchEventsKey, events) && d.Keys == {ElementKey, ValuePresentKey, DispatchEventsKey}
    case InvokeOperation(_, operation) =>
      && Shows(d, OperationKey, String(operation))
      && (forall o :: FirstOperation(plan.operations, operation, o) ==>
            && Shows(d, OperationKindKey, String("javascript")) && ShowsText(d, PageKey, o.page)
            && Shows(d, SourcePresentKey, Bool(Trim(o.source) != "")))
      && d.Keys <= {OperationKey, OperationKindKey, PageKey, SourcePresentKey}
    case SetFiles(_, element, inputRef) =>
      && Shows(d, ElementKey, String(element)) && Shows(d, InputRefKey, String(inputRef))
      && (exists paths ::
            && FilesAre(plan, inputRef, paths) && Shows(d, InputPresentKey, Bool(paths != []))
            && (if paths != [] then ShowsNumber(d, FileCountKey, |paths|) else FileCountKey !in d))
      && d.Keys <= {ElementKey, InputRefKey, InputPresentKey, FileCountKey}
    case DispatchEvents(_, element, events) =>
      && Shows(d, ElementKey, String(element)) && ShowsTexts(d, EventsKey, events)
      && d.Keys == {ElementKey, EventsKey}
    case ValidateVisualLayout(_, targets, instruction, rules, optional) =>
      && Shows(d, OptionalKey, Bool(optional)) && ShowsTargets(d, targets) && ShowsText(d, InstructionKey, instruction)
      && (if rules != [] then ShowsTexts(d, RelationshipRulesKey, rules) else RelationshipRulesKey !in d)
      && d.Keys <= {OptionalKey, TargetsKey, InstructionKey, RelationshipRulesKey}
    case SolveVisualCaptcha(_, image, input, inputId, refresh, settings) =>
      && Shows(d, ImageElementKey, String(image)) && Shows(d, InputElementKey, String(input))
      && Shows(d, InputIdKey, String(inputId)) && ShowsText(d, RefreshElementKey, refresh) && ShowsSettings(d, settings)
      && Shows(d, ManualValuePresentKey,
               Bool(inputId in plan.context.inputs && HoldsSomething(plan.context.inputs[inputId])))
    case WaitForRequest(_, request, timeout, optional) =>
      && Shows(d, RequestKey, String(request)) && Shows(d, OptionalKey, Bool(optional))
      && ShowsNat(d, TimeoutMsKey, timeout)
      && (forall r :: FirstRequest(plan.requests, request, r) ==>
            && Shows(d, RequestMethodKey, String(r.httpMethod))
            && Shows(d, RequestUrlPatternKey, String(r.urlPattern)))
      && d.Keys <= {RequestKey, OptionalKey, TimeoutMsKey, RequestMethodKey, RequestUrlPatternKey}
    case WaitForPage(_, page, timeout) =>
      && Shows(d, PageKey, String(page)) && ShowsNat(d, TimeoutMsKey, timeout)
      && d.Keys <= {PageKey, TimeoutMsKey}
    case Wait(_, duration) => ShowsNumber(d, DurationMsKey, duration) && d.Keys == {DurationMsKey}
  }

  lemma PageDetailIsWritten(plan: Plan, s: Step)
    requires s.Navigate? || s.Click? || s.WaitForPage? || s.Wait?
    ensures StepDetail(plan, s).Ok? && DetailIs(plan, s, StepDetail(plan, s).value)
  {
    hide Decimal;
  }

  lemma EventDetailIsWritten(plan: Plan, s: Step)
    requires s.SetInput? || s.DispatchEvents?
    ensures StepDetail(plan, s).Ok? && DetailIs(plan, s, StepDetail(plan, s).value)
  {
    hide Trim;
  }

  lemma OperationDetailIsWritten(plan: Plan, s: Step)
    requires s.InvokeOperation?
    ensures StepDetail(plan, s).Ok? && DetailIs(plan, s, StepDetail(plan, s).value)
  {
    hide Trim, FindOperation, FirstOperation;
    forall o | FirstOperation(plan.operations, s.operation, o)
      ensures FindOperation(plan.operations, s.operation) == Some(o)
    {
      OperationIsFirst(plan.operations, s.operation, o);
    }
  }

  lemma FilesDetailIsWritten(plan: Plan, s: Step)
    requires s.SetFiles? && StepDetail(plan, s).Ok?
    ensures DetailIs(plan, s, StepDetail(plan, s).value)
  {
    hide InputFilePaths, FilesAre, Decimal;
    var found := InputFilePaths(plan, s.inputRef).value;
    var paths := if found.Some? then found.value else [];
    FilesAreWritten(plan, s.inputRef, paths);
  }

  lemma LayoutDetailIsWritten(plan: Plan, s: Step)
    requires s.ValidateVisualLayout?
    ensures StepDetail(plan, s).Ok? && DetailIs(plan, s, StepDetail(plan, s).value)
  {
  }

  lemma RequestDetailIsWritten(plan: Plan, s: Step)
    requires s.WaitForRequest?
    ensures StepDetail(plan, s).Ok? && DetailIs(plan, s, StepDetail(plan, s).value)
  {
    hide FindRequest, FirstRequest, NatValue;
    forall r | FirstRequest(plan.requests, s.request, r)
      ensures FindRequest(plan.requests, s.request) == Some(r)
    {
      RequestIsFirst(plan.requests, s.request, r);
    }
  }

  lemma CaptchaDetailIsWritten(plan: Plan, s: Step)
    requires s.SolveVisualCaptcha?
    ensures StepDetail(plan, s).Ok? && DetailIs(plan, s, StepDetail(plan, s).value)
  {
    hide StepDetail, ShowsSettings, Trim;
    CaptchaDetailShows(plan, s);
    CaptchaDetailShowsRefresh(plan, s);
    CaptchaDetailShowsSettings(plan, s);
  }

  /** The detail of every step that dry-runs shows what its kind is to show. */
  lemma DetailIsWritten(plan: Plan, s: Step)
    requires DryRunStep(plan, s).Ok?
    ensures DetailIs(plan, s, DryRunStep(plan, s).value.detail)
  {
    hide StepDetail, DetailIs;
    match s
    case SetInput(_, _, _, _) => EventDetailIsWritten(plan, s);
    case DispatchEvents(_, _, _) => EventDetailIsWritten(plan, s);
    case InvokeOperation(_, _) => OperationDetailIsWritten(plan, s);
    case SetFiles(_, _, _) => FilesDetailIsWritten(plan, s);
    case ValidateVisualLayout(_, _, _, _, _) => LayoutDetailIsWritten(plan, s);
    case SolveVisualCaptcha(_, _, _, _, _, _) => CaptchaDetailIsWritten(plan, s);
    case WaitForRequest(_, _, _, _) => RequestDetailIsWritten(plan, s);
    case _ => PageDetailIsWritten(plan, s);
  }
}
