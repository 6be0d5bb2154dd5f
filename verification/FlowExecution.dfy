/** The two interpreters of a bound plan: the dry run and the session run. */
module FlowExecution {
  import opened Results
  import opened Text
  import opened Json
  import opened FlowModel

  datatype StepStatus = Planned | Succeeded | Skipped

  /** The keys of a step report's detail, one constructor for each JSON key of the source. */
  datatype DetailKey =
    | OperationKindKey | SourcePresentKey | RequestMethodKey | RequestUrlPatternKey | OptionalKey
    | DispatchEventsKey | UrlKey | ElementKey | ValuePresentKey | OperationKey | InputRefKey
    | InputPresentKey | FileCountKey | EventsKey | TargetsKey | RelationshipRulesKey | ImageElementKey
    | InputElementKey | InputIdKey | ManualValuePresentKey | RequestKey | PageKey | DurationMsKey
    | FieldLabelKey | PlaceholderKey | InstructionKey | LlmSystemPromptKey | LlmPromptTemplateKey
    | ExpectedLengthKey | MaxAttemptsKey | WaitForPageKey | RefreshElementKey | TimeoutMsKey
    | SkipReasonKey

  datatype StepReport = StepReport(stepId: string, kind: string, status: StepStatus, detail: map<DetailKey, Value>)

  datatype Mode = DryRunMode | SessionMode

  datatype Report = Report(
    mode: Mode, provider: string, surface: string, flowId: string, stepCount: nat,
    expectedRequests: seq<string>, steps: seq<StepReport>)

  function KindName(s: Step): string {
    match s
    case Navigate(_, _, _) => "navigate"
    case Click(_, _, _) => "click"
    case SetInput(_, _, _, _) => "set_input"
    case InvokeOperation(_, _) => "invoke_operation"
    case SetFiles(_, _, _) => "set_files"
    case DispatchEvents(_, _, _) => "dispatch_events"
    case ValidateVisualLayout(_, _, _, _, _) => "validate_visual_layout"
    case SolveVisualCaptcha(_, _, _, _, _, _) => "solve_visual_captcha"
    case WaitForRequest(_, _, _, _) => "wait_for_request"
    case WaitForPage(_, _, _) => "wait_for_page"
    case Wait(_, _) => "wait"
  }

  // ----- file inputs -----

  /** The non-blank paths of a list, or nothing at all when one entry is not a string. */
  function PathsOf(items: seq<Value>): (r: Option<seq<string>>)
    ensures r.Some? <==> forall v :: v in items ==> v.String?
    ensures r.Some? ==> forall p :: p in r.value <==> String(p) in items && !Blank(p)
  {
    if items == [] then Some([])
    else
      assert items == items[..|items| - 1] + [items[|items| - 1]];
      assert items[|items| - 1] in items;
      match PathsOf(items[..|items| - 1])
      case None => None
      case Some(init) =>
        match items[|items| - 1]
        case String(path) => Some(if Blank(path) then init else init + [path])
        case _ => None
  }

  function FilePathsOf(inputId: string, v: Value): (r: Result<Option<seq<string>>, BlobError>)
    ensures r.Ok? && r.value.Some? ==> r.value.value != [] && AllPresent(r.value.value)
  {
    match v
    case Null => Ok(None)
    case String(path) => Ok(if Blank(path) then None else Some([path]))
    case Array(items) =>
      (match PathsOf(items)
       case None => Err(Configuration(BadFilePaths(inputId)))
       case Some(paths) => Ok(if paths == [] then None else Some(paths)))
    case _ => Err(Configuration(BadFilePaths(inputId)))
  }

  lemma {:induction false} PathsNeedStrings(items: seq<Value>, k: nat)
    requires k < |items| && !items[k].String?
    ensures PathsOf(items).None?
  {
  }

  /** The loop over a list of paths. */
  method CollectFilePaths(inputId: string, v: Value) returns (r: Result<Option<seq<string>>, BlobError>)
    ensures r == FilePathsOf(inputId, v)
  {
    match v
    case Null => return Ok(None);
    case String(path) => return Ok(if Blank(path) then None else Some([path]));
    case Array(items) =>
      var paths: seq<string> := [];
      for i := 0 to |items|
        invariant PathsOf(items[..i]) == Some(paths)
      {
        assert items[..i + 1][..i] == items[..i];
        if !items[i].String? {
          PathsNeedStrings(items, i);
          return Err(Configuration(BadFilePaths(inputId)));
        }
        if !Blank(items[i].text) {
          paths := paths + [items[i].text];
        }
      }
      assert items[..|items|] == items;
      return Ok(if paths == [] then None else Some(paths));
    case _ => return Err(Configuration(BadFilePaths(inputId)));
  }

  function InputFilePaths(plan: Plan, inputId: string): Result<Option<seq<string>>, BlobError> {
    if inputId in plan.context.inputs then FilePathsOf(inputId, plan.context.inputs[inputId]) else Ok(None)
  }

  // ----- dry run -----

  function TextIf(key: DetailKey, v: Option<string>): (r: map<DetailKey, Value>)
    ensures r.Keys <= {key}
  {
    if v.Some? then map[key := String(v.value)] else map[]
  }

  function NatIf(key: DetailKey, v: Option<nat>): (r: map<DetailKey, Value>)
    ensures r.Keys <= {key}
  {
    if v.Some? then map[key := NatValue(v.value)] else map[]
  }

  function TargetValue(t: LayoutTarget): Value {
    Object([Entry("element", String(t.element)), Entry("required", Bool(t.required)), Entry("role", String(t.role))])
  }

  function TargetValues(ts: seq<LayoutTarget>): Value {
    Array(seq(|ts|, i requires 0 <= i < |ts| => TargetValue(ts[i])))
  }

  function OperationDetail(plan: Plan, id: string): (r: map<DetailKey, Value>)
    ensures r.Keys <= {OperationKindKey, SourcePresentKey, PageKey}
  {
    match FindOperation(plan.operations, id)
    case None => map[]
    case Some(o) =>
      map[OperationKindKey := String("javascript"), SourcePresentKey := Bool(!Blank(o.source))]
      + TextIf(PageKey, o.page)
  }

  function RequestDetail(plan: Plan, id: string): (r: map<DetailKey, Value>)
    ensures r.Keys <= {RequestMethodKey, RequestUrlPatternKey}
  {
    match FindRequest(plan.requests, id)
    case None => map[]
    case Some(r) => map[RequestMethodKey := String(r.httpMethod), RequestUrlPatternKey := String(r.urlPattern)]
  }

  function CaptchaTexts(t: CaptchaSettings): (r: map<DetailKey, Value>)
    ensures r.Keys <= {FieldLabelKey, PlaceholderKey, InstructionKey, LlmSystemPromptKey, LlmPromptTemplateKey}
  {
    TextIf(FieldLabelKey, t.fieldLabel) + TextIf(PlaceholderKey, t.placeholder) + CaptchaPrompts(t)
  }

  function CaptchaPrompts(t: CaptchaSettings): (r: map<DetailKey, Value>)
    ensures r.Keys <= {InstructionKey, LlmSystemPromptKey, LlmPromptTemplateKey}
  {
    TextIf(InstructionKey, t.instruction) + TextIf(LlmSystemPromptKey, t.llmSystemPrompt)
    + TextIf(LlmPromptTemplateKey, t.llmPromptTemplate)
  }

  function CaptchaLimits(t: CaptchaSettings): (r: map<DetailKey, Value>)
    ensures r.Keys <= {ExpectedLengthKey, MaxAttemptsKey}
  {
    NatIf(ExpectedLengthKey, t.expectedLength) + NatIf(MaxAttemptsKey, t.maxAttempts)
  }

  function CaptchaDetail(t: CaptchaSettings): (r: map<DetailKey, Value>)
    ensures r.Keys <= {OptionalKey, DispatchEventsKey, FieldLabelKey, PlaceholderKey, InstructionKey,
                       LlmSystemPromptKey, LlmPromptTemplateKey, ExpectedLengthKey, MaxAttemptsKey}
  {
    map[OptionalKey := Bool(t.optional), DispatchEventsKey := TextArray(t.dispatchEvents)]
    + CaptchaTexts(t) + CaptchaLimits(t)
  }

  function StepDetail(plan: Plan, s: Step): Result<map<DetailKey, Value>, BlobError> {
    match s
    case Navigate(_, url, page) => Ok(map[UrlKey := String(url)] + TextIf(WaitForPageKey, page))
    case Click(_, element, optional) => Ok(map[ElementKey := String(element), OptionalKey := Bool(optional)])
    case SetInput(_, element, value, events) =>
      Ok(map[ElementKey := String(element), ValuePresentKey := Bool(Present(String(value))),
             DispatchEventsKey := TextArray(events)])
    case InvokeOperation(_, operation) => Ok(OperationDetail(plan, operation) + map[OperationKey := String(operation)])
    case SetFiles(_, element, inputRef) =>
      var paths :- InputFilePaths(plan, inputRef);
      Ok(map[ElementKey := String(element), InputRefKey := String(inputRef), InputPresentKey := Bool(paths.Some?)]
         + if paths.Some? then map[FileCountKey := NatValue(|paths.value|)] else map[])
    case DispatchEvents(_, element, events) => Ok(map[ElementKey := String(element), EventsKey := TextArray(events)])
    case ValidateVisualLayout(_, targets, instruction, rules, optional) =>
      Ok(map[OptionalKey := Bool(optional), TargetsKey := TargetValues(targets)] + TextIf(InstructionKey, instruction)
         + if rules == [] then map[] else map[RelationshipRulesKey := TextArray(rules)])
    case SolveVisualCaptcha(_, image, input, inputId, refresh, settings) =>
      var present := inputId in plan.context.inputs && Present(plan.context.inputs[inputId]);
      Ok(CaptchaDetail(settings) + TextIf(RefreshElementKey, refresh)
         + map[ImageElementKey := String(image), InputElementKey := String(input), InputIdKey := String(inputId),
               ManualValuePresentKey := Bool(present)])
    case WaitForRequest(_, request, timeout, optional) =>
      Ok(NatIf(TimeoutMsKey, timeout) + RequestDetail(plan, request)
         + map[RequestKey := String(request), OptionalKey := Bool(optional)])
    case WaitForPage(_, page, timeout) => Ok(map[PageKey := String(page)] + NatIf(TimeoutMsKey, timeout))
    case Wait(_, duration) => Ok(map[DurationMsKey := NatValue(duration)])
  }

  function DryRunStep(plan: Plan, s: Step): Result<StepReport, BlobError> {
    var detail :- StepDetail(plan, s);
    Ok(StepReport(s.id, KindName(s), Planned, detail))
  }

  function DryRunner(plan: Plan): Step -> Result<StepReport, BlobError> {
    s => DryRunStep(plan, s)
  }

  function ReportOf(mode: Mode, plan: Plan, steps: seq<StepReport>): Report {
    Report(mode, plan.provider, plan.surface, plan.flow.id, |steps|, plan.flow.expectedRequests, steps)
  }

  function DryRun(plan: Plan): Result<Report, BlobError> {
    var steps :- Traverse(DryRunner(plan), plan.flow.steps);
    Ok(ReportOf(DryRunMode, plan, steps))
  }

  method ExecuteDryRun(plan: Plan) returns (r: Result<Report, BlobError>)
    ensures r == DryRun(plan)
  {
    var steps :- BindEach(DryRunner(plan), plan.flow.steps);
    return Ok(ReportOf(DryRunMode, plan, steps));
  }

  // ----- the session a run talks to -----

  datatype CaptchaRequest = CaptchaRequest(
    image: Element, input: Element, refresh: Option<Element>, inputId: string, manualValue: Option<string>,
    settings: CaptchaSettings)

  datatype BoundTarget = BoundTarget(element: Element, role: string, required: bool)

  datatype Call =
    | CallNavigate(url: string)
    | CallClick(element: Element)
    | CallSetInput(element: Element, value: string, events: seq<string>)
    | CallInvoke(operation: Operation)
    | CallSetFiles(element: Element, paths: seq<string>)
    | CallDispatch(element: Element, events: seq<string>)
    | CallValidateLayout(targets: seq<BoundTarget>, instruction: Option<string>, rules: seq<string>, optional: bool)
    | CallSolveCaptcha(captcha: CaptchaRequest)
    | CallWaitForRequest(request: Request, timeoutMs: Option<nat>)
    | CallWaitForPage(page: Page, timeoutMs: Option<nat>)
    | CallWait(durationMs: nat)

  type Reply = Outcome<BlobError>

  datatype Exchange = Exchange(call: Call, reply: Reply)

  /** An arbitrary session: what it answers may depend on everything it was asked before. */
  type Session = (seq<Exchange>, Call) -> Reply

  // ----- the specification of a session step -----

  /** How a step ends once every call it makes has succeeded. */
  datatype Finish = Done | Skip(why: string) | Broken(error: BlobError)

  /** The calls a step makes, in order, as long as each succeeds. */
  datatype Script = Script(calls: seq<Call>, finish: Finish)

  function MissingReference(kind: string, id: string): Script {
    Script([], Broken(Configuration(MissingBoundReference(kind, id))))
  }

  /** The manual value of a captcha: the trimmed string input, unless it is transient and used up. */
  function ManualValue(plan: Plan, inputId: string, consumed: set<string>): Option<string> {
    if IsTransient(plan, inputId) && inputId in consumed then None
    else if inputId in plan.context.inputs && plan.context.inputs[inputId].String?
            && !Blank(plan.context.inputs[inputId].text) then Some(Trim(plan.context.inputs[inputId].text))
    else None
  }

  predicate IsTransient(plan: Plan, inputId: string) {
    var input := FindInput(plan.flow.inputs, inputId);
    input.Some? && input.value.transient
  }

  function BindTarget(plan: Plan, t: LayoutTarget): Result<BoundTarget, BlobError> {
    match FindElement(plan.elements, t.element)
    case None => Err(Configuration(MissingBoundReference("element", t.element)))
    case Some(e) => Ok(BoundTarget(e, t.role, t.required))
  }

  function TargetBinder(plan: Plan): LayoutTarget -> Result<BoundTarget, BlobError> {
    t => BindTarget(plan, t)
  }

  function OnElement(plan: Plan, id: string, call: Element -> Call): Script {
    match FindElement(plan.elements, id)
    case None => MissingReference("element", id)
    case Some(e) => Script([call(e)], Done)
  }

  function CaptchaScript(plan: Plan, s: Step, consumed: set<string>): Script
    requires s.SolveVisualCaptcha?
  {
    match FindElement(plan.elements, s.imageElement)
    case None => MissingReference("element", s.imageElement)
    case Some(image) =>
      match FindElement(plan.elements, s.inputElement)
      case None => MissingReference("element", s.inputElement)
      case Some(input) =>
        var manual := ManualValue(plan, s.inputId, consumed);
        if s.refreshElement.None? then
          Script([CallSolveCaptcha(CaptchaRequest(image, input, None, s.inputId, manual, s.settings))], Done)
        else
          match FindElement(plan.elements, s.refreshElement.value)
          case None => MissingReference("element", s.refreshElement.value)
          case Some(refresh) =>
            Script([CallSolveCaptcha(CaptchaRequest(image, input, Some(refresh), s.inputId, manual, s.settings))], Done)
  }

  function ScriptOf(plan: Plan, s: Step, consumed: set<string>): Script {
    match s
    case Navigate(_, url, page) =>
      if page.None? then Script([CallNavigate(url)], Done)
      else
        (match FindPage(plan.pages, page.value)
         case None => Script([CallNavigate(url)], Broken(Configuration(MissingBoundReference("page", page.value))))
         case Some(p) => Script([CallNavigate(url), CallWaitForPage(p, None)], Done))
    case Click(_, element, _) => OnElement(plan, element, e => CallClick(e))
    case SetInput(_, element, value, events) => OnElement(plan, element, e => CallSetInput(e, value, events))
    case InvokeOperation(_, operation) =>
      (match FindOperation(plan.operations, operation)
       case None => MissingReference("operation", operation)
       case Some(o) => Script([CallInvoke(o)], Done))
    case SetFiles(_, element, inputRef) =>
      (match InputFilePaths(plan, inputRef)
       case Err(error) => Script([], Broken(error))
       case Ok(None) => Script([], Skip("missing_input"))
       case Ok(Some(paths)) => OnElement(plan, element, e => CallSetFiles(e, paths)))
    case DispatchEvents(_, element, events) => OnElement(plan, element, e => CallDispatch(e, events))
    case ValidateVisualLayout(_, targets, instruction, rules, optional) =>
      (match Traverse(TargetBinder(plan), targets)
       case Err(error) => Script([], Broken(error))
       case Ok(bound) => Script([CallValidateLayout(bound, instruction, rules, optional)], Done))
    case SolveVisualCaptcha(_, _, _, _, _, _) => CaptchaScript(plan, s, consumed)
    case WaitForRequest(_, request, timeout, _) =>
      (match FindRequest(plan.requests, request)
       case None => MissingReference("request", request)
       case Some(r) => Script([CallWaitForRequest(r, timeout)], Done))
    case WaitForPage(_, page, timeout) =>
      (match FindPage(plan.pages, page)
       case None => MissingReference("page", page)
       case Some(p) => Script([CallWaitForPage(p, timeout)], Done))
    case Wait(_, duration) => Script([CallWait(duration)], Done)
  }

  /** The errors an optional step absorbs, with the reason it reports. */
  function Tolerates(s: Step, error: BlobError): Option<string> {
    match s
    case Click(_, _, true) => if error.NotFound? then Some("optional_element_not_found") else None
    case ValidateVisualLayout(_, _, _, _, true) =>
      if error.NotImplemented? then Some("visual_validation_unavailable") else None
    case SolveVisualCaptcha(_, _, _, _, _, settings) =>
      if settings.optional && error.NotFound? then Some("optional_captcha_not_found") else None
    case WaitForRequest(_, _, _, true) => if error.Upstream? then Some("optional_request_not_observed") else None
    case _ => None
  }

  /** The exchanges made for `calls`: all of them, or up to and including the first that fails. */
  function Converse(session: Session, past: seq<Exchange>, calls: seq<Call>): seq<Exchange>
    decreases |calls|
  {
    if calls == [] then []
    else
      var x := Exchange(calls[0], session(past, calls[0]));
      if x.reply.Fail? then [x] else [x] + Converse(session, past + [x], calls[1..])
  }

  function ClosingFailure(xs: seq<Exchange>): Option<BlobError> {
    if xs == [] then None
    else if xs[|xs| - 1].reply.Fail? then Some(xs[|xs| - 1].reply.error)
    else None
  }

  function SkippedReport(r: StepReport, why: string): StepReport {
    r.(status := Skipped, detail := r.detail[SkipReasonKey := String(why)])
  }

  function Consumption(plan: Plan, s: Step, consumed: set<string>): set<string> {
    if s.SolveVisualCaptcha? && IsTransient(plan, s.inputId) && ManualValue(plan, s.inputId, consumed).Some? then
      consumed + {s.inputId}
    else consumed
  }

  datatype StepRun = StepRun(outcome: Result<StepReport, BlobError>, exchanges: seq<Exchange>, consumed: set<string>)

  function RunStep(plan: Plan, session: Session, s: Step, past: seq<Exchange>, consumed: set<string>): StepRun {
    match DryRunStep(plan, s)
    case Err(error) => StepRun(Err(error), [], consumed)
    case Ok(report) =>
      var script := ScriptOf(plan, s, consumed);
      var exchanges := Converse(session, past, script.calls);
      match ClosingFailure(exchanges)
      case Some(error) =>
        (match Tolerates(s, error)
         case Some(why) => StepRun(Ok(SkippedReport(report, why)), exchanges, consumed)
         case None => StepRun(Err(error), exchanges, consumed))
      case None =>
        match script.finish
        case Done => StepRun(Ok(report.(status := Succeeded)), exchanges, Consumption(plan, s, consumed))
        case Skip(why) => StepRun(Ok(SkippedReport(report, why)), exchanges, consumed)
        case Broken(error) => StepRun(Err(error), exchanges, consumed)
  }

  datatype Run = Run(outcome: Result<seq<StepReport>, BlobError>, trace: seq<Exchange>, consumed: set<string>)

  /** The run over a list of steps: it stops at the first step that fails. */
  function RunSteps(plan: Plan, session: Session, steps: seq<Step>): Run {
    if steps == [] then Run(Ok([]), [], {})
    else
      var before := RunSteps(plan, session, steps[..|steps| - 1]);
      if before.outcome.Err? then before
      else
        var last := RunStep(plan, session, steps[|steps| - 1], before.trace, before.consumed);
        Run(if last.outcome.Ok? then Ok(before.outcome.value + [last.outcome.value]) else Err(last.outcome.error),
            before.trace + last.exchanges, last.consumed)
  }

  lemma {:induction false} RunStopsEarly(plan: Plan, session: Session, steps: seq<Step>, k: nat)
    requires k <= |steps| && RunSteps(plan, session, steps[..k]).outcome.Err?
    ensures RunSteps(plan, session, steps) == RunSteps(plan, session, steps[..k])
  {
    if k < |steps| {
      assert steps[..|steps| - 1][..k] == steps[..k];
      RunStopsEarly(plan, session, steps[..|steps| - 1], k);
    } else {
      assert steps[..k] == steps;
    }
  }

  // ----- the session executor of the source -----

  /** One run of the session executor: its consumed one-shot inputs, and what passed between it and the session. */
  class SessionExecution {
    const session: Session
    var consumed: set<string>
    var trace: seq<Exchange>

    constructor (session: Session)
      ensures this.session == session && consumed == {} && trace == []
    {
      this.session := session;
      consumed, trace := {}, [];
    }

    method Ask(call: Call) returns (reply: Reply)
      modifies this`trace
      ensures reply == session(old(trace), call)
      ensures trace == old(trace) + [Exchange(call, reply)]
      ensures trace == old(trace) + Converse(session, old(trace), [call])
      ensures ClosingFailure(Converse(session, old(trace), [call])) == if reply.Fail? then Some(reply.error) else None
    {
      reply := session(trace, call);
      assert [call][1..] == [];
      assert Converse(session, trace, [call]) == [Exchange(call, reply)] by {
        assert [Exchange(call, reply)] + [] == [Exchange(call, reply)];
      }
      trace := trace + [Exchange(call, reply)];
    }

    method ExecuteStep(plan: Plan, s: Step) returns (r: Result<StepReport, BlobError>)
      modifies this
      ensures var run := RunStep(plan, session, s, old(trace), old(consumed));
              r == run.outcome && trace == old(trace) + run.exchanges && consumed == run.consumed
    {
      hide StepDetail, Converse, Trim, Blank, InputFilePaths, Traverse, FindElement, FindPage, FindRequest,
           FindOperation, ClosingFailure, ManualValue;
      var dry := DryRunStep(plan, s);
      assert trace + [] == trace;
      NothingSaid(session, trace);
      if dry.Err? {
        return Err(dry.error);
      }
      var report := dry.value;
      match s
      case Navigate(_, _, _) =>
        r := ExecuteNavigate(plan, s, report);
      case Click(_, _, _) =>
        r := ExecuteOnElement(plan, s, report);
      case SetInput(_, _, _, _) =>
        r := ExecuteOnElement(plan, s, report);
      case SetFiles(_, _, _) =>
        r := ExecuteOnElement(plan, s, report);
      case DispatchEvents(_, _, _) =>
        r := ExecuteOnElement(plan, s, report);
      case InvokeOperation(_, id) =>
        var operation := FindOperation(plan.operations, id);
        if operation.None? {
          return Err(Configuration(MissingBoundReference("operation", id)));
        }
        var reply := Ask(CallInvoke(operation.value));
        return if reply.Pass? then Ok(report.(status := Succeeded)) else Err(reply.error);
      case ValidateVisualLayout(_, targets, instruction, rules, optional) =>
        var bound := BindEach(TargetBinder(plan), targets);
        if bound.Err? {
          return Err(bound.error);
        }
        var reply := Ask(CallValidateLayout(bound.value, instruction, rules, optional));
        if reply.Pass? {
          return Ok(report.(status := Succeeded));
        } else if reply.error.NotImplemented? && optional {
          return Ok(SkippedReport(report, "visual_validation_unavailable"));
        }
        return Err(reply.error);
      case SolveVisualCaptcha(_, _, _, _, _, _) =>
        r := ExecuteCaptcha(plan, s, report);
      case WaitForRequest(_, id, timeout, optional) =>
        var request := FindRequest(plan.requests, id);
        if request.None? {
          return Err(Configuration(MissingBoundReference("request", id)));
        }
        var reply := Ask(CallWaitForRequest(request.value, timeout));
        if reply.Pass? {
          return Ok(report.(status := Succeeded));
        } else if reply.error.Upstream? && optional {
          return Ok(SkippedReport(report, "optional_request_not_observed"));
        }
        return Err(reply.error);
      case WaitForPage(_, id, timeout) =>
        var page := FindPage(plan.pages, id);
        if page.None? {
          return Err(Configuration(MissingBoundReference("page", id)));
        }
        var reply := Ask(CallWaitForPage(page.value, timeout));
        return if reply.Pass? then Ok(report.(status := Succeeded)) else Err(reply.error);
      case Wait(_, duration) =>
        var reply := Ask(CallWait(duration));
        return if reply.Pass? then Ok(report.(status := Succeeded)) else Err(reply.error);
    }

    method ExecuteOnElement(plan: Plan, s: Step, report: StepReport) returns (r: Result<StepReport, BlobError>)
      requires s.Click? || s.SetInput? || s.SetFiles? || s.DispatchEvents?
      requires DryRunStep(plan, s) == Ok(report)
      modifies this
      ensures var run := RunStep(plan, session, s, old(trace), old(consumed));
              r == run.outcome && trace == old(trace) + run.exchanges && consumed == run.consumed
    {
      hide StepDetail, Converse, InputFilePaths, FindElement, ClosingFailure;
      assert trace + [] == trace;
      NothingSaid(session, trace);
      match s
      case Click(_, id, optional) =>
        var element := FindElement(plan.elements, id);
        if element.None? {
          return Err(Configuration(MissingBoundReference("element", id)));
        }
        var reply := Ask(CallClick(element.value));
        if reply.Pass? {
          return Ok(report.(status := Succeeded));
        } else if reply.error.NotFound? && optional {
          return Ok(SkippedReport(report, "optional_element_not_found"));
        }
        return Err(reply.error);
      case SetInput(_, id, value, events) =>
        var element := FindElement(plan.elements, id);
        if element.None? {
          return Err(Configuration(MissingBoundReference("element", id)));
        }
        var reply := Ask(CallSetInput(element.value, value, events));
        return if reply.Pass? then Ok(report.(status := Succeeded)) else Err(reply.error);
      case SetFiles(_, id, inputRef) =>
        var paths := InputFilePaths(plan, inputRef);
        if paths.Err? {
          return Err(paths.error);
        }
        if paths.value.None? {
          return Ok(SkippedReport(report, "missing_input"));
        }
        var element := FindElement(plan.elements, id);
        if element.None? {
          return Err(Configuration(MissingBoundReference("element", id)));
        }
        var reply := Ask(CallSetFiles(element.value, paths.value.value));
        return if reply.Pass? then Ok(report.(status := Succeeded)) else Err(reply.error);
      case DispatchEvents(_, id, events) =>
        var element := FindElement(plan.elements, id);
        if element.None? {
          return Err(Configuration(MissingBoundReference("element", id)));
        }
        var reply := Ask(CallDispatch(element.value, events));
        return if reply.Pass? then Ok(report.(status := Succeeded)) else Err(reply.error);
    }

    /** The navigation is made before its page is looked up. */
    method ExecuteNavigate(plan: Plan, s: Step, report: StepReport) returns (r: Result<StepReport, BlobError>)
      requires s.Navigate? && DryRunStep(plan, s) == Ok(report)
      modifies this
      ensures var run := RunStep(plan, session, s, old(trace), old(consumed));
              r == run.outcome && trace == old(trace) + run.exchanges && consumed == run.consumed
    {
      hide StepDetail, Converse, FindPage, ClosingFailure;
      ghost var past := trace;
      var reply := Ask(CallNavigate(s.url));
      if s.waitForPage.Some? {
        var page := FindPage(plan.pages, s.waitForPage.value);
        if page.Some? {
          SaidTwice(session, past, CallNavigate(s.url), CallWaitForPage(page.value, None));
        }
        if reply.Fail? {
          return Err(reply.error);
        }
        if page.None? {
          return Err(Configuration(MissingBoundReference("page", s.waitForPage.value)));
        }
        reply := Ask(CallWaitForPage(page.value, None));
      }
      return if reply.Pass? then Ok(report.(status := Succeeded)) else Err(reply.error);
    }

    method ExecuteCaptcha(plan: Plan, s: Step, report: StepReport) returns (r: Result<StepReport, BlobError>)
      requires s.SolveVisualCaptcha? && DryRunStep(plan, s) == Ok(report)
      modifies this
      ensures var run := RunStep(plan, session, s, old(trace), old(consumed));
              r == run.outcome && trace == old(trace) + run.exchanges && consumed == run.consumed
    {
      hide StepDetail, Converse, FindElement, ClosingFailure, Trim, Blank, FindInput;
      assert trace + [] == trace;
      NothingSaid(session, trace);
      var input := FindInput(plan.flow.inputs, s.inputId);
      var transient := input.Some? && input.value.transient;
      var manual := None;
      if !(transient && s.inputId in consumed) && s.inputId in plan.context.inputs {
        var v := plan.context.inputs[s.inputId];
        if v.String? && !Blank(v.text) {
          manual := Some(Trim(v.text));
        }
      }
      var image := FindElement(plan.elements, s.imageElement);
      if image.None? {
        return Err(Configuration(MissingBoundReference("element", s.imageElement)));
      }
      var field := FindElement(plan.elements, s.inputElement);
      if field.None? {
        return Err(Configuration(MissingBoundReference("element", s.inputElement)));
      }
      var refresh: Option<Element> := None;
      if s.refreshElement.Some? {
        refresh := FindElement(plan.elements, s.refreshElement.value);
        if refresh.None? {
          return Err(Configuration(MissingBoundReference("element", s.refreshElement.value)));
        }
      }
      var reply := Ask(CallSolveCaptcha(
                         CaptchaRequest(image.value, field.value, refresh, s.inputId, manual, s.settings)));
      if reply.Pass? {
        if transient && manual.Some? {
          consumed := consumed + {s.inputId};
        }
        return Ok(report.(status := Succeeded));
      } else if reply.error.NotFound? && s.settings.optional {
        return Ok(SkippedReport(report, "optional_captcha_not_found"));
      }
      return Err(reply.error);
    }

    /** The whole run, from a fresh state. */
    method Execute(plan: Plan) returns (r: Result<Report, BlobError>)
      requires consumed == {} && trace == []
      modifies this
      ensures var run := RunSteps(plan, session, plan.flow.steps);
              && trace == run.trace && consumed == run.consumed
              && r == if run.outcome.Ok? then Ok(ReportOf(SessionMode, plan, run.outcome.value))
                      else Err(run.outcome.error)
    {
      hide RunStep;
      var reports: seq<StepReport> := [];
      for i := 0 to |plan.flow.steps|
        invariant RunSteps(plan, session, plan.flow.steps[..i]) == Run(Ok(reports), trace, consumed)
      {
        assert plan.flow.steps[..i + 1][..i] == plan.flow.steps[..i];
        var report := ExecuteStep(plan, plan.flow.steps[i]);
        if report.Err? {
          RunStopsEarly(plan, session, plan.flow.steps, i + 1);
          return Err(report.error);
        }
        reports := reports + [report.value];
      }
      assert plan.flow.steps[..|plan.flow.steps|] == plan.flow.steps;
      return Ok(ReportOf(SessionMode, plan, reports));
    }
  }

  lemma NothingSaid(session: Session, past: seq<Exchange>)
    ensures Converse(session, past, []) == [] && ClosingFailure([]) == None
  {
  }

  lemma SaidTwice(session: Session, past: seq<Exchange>, a: Call, b: Call)
    ensures var first := Exchange(a, session(past, a));
            var second := Exchange(b, session(past + [first], b));
            var said := Converse(session, past, [a, b]);
            && said == (if first.reply.Fail? then [first] else [first, second])
            && ClosingFailure(said) == (if first.reply.Fail? then Some(first.reply.error)
                                      else if second.reply.Fail? then Some(second.reply.error) else None)
            && past + said == if first.reply.Fail? then past + [first] else past + [first] + [second]
  {
    var first := Exchange(a, session(past, a));
    assert [a, b][1..] == [b] && [b][1..] == [];
    var second := Exchange(b, session(past + [first], b));
    assert Converse(session, past + [first], [b]) == [second] by {
      assert [second] + [] == [second];
    }
    assert [first] + [second] == [first, second];
  }
}
