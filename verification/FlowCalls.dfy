/** What each kind of step says to a session, written out on the step, the plan and the consumed inputs. */
module FlowCalls {
  import opened Results
  import opened Text
  import opened Json
  import opened FlowModel
  import opened FlowExecution
  import opened FlowSoundness

  // ----- the inputs a step carries -----

  /**
   * The manual value of a captcha: the trimmed text of its input, when that is a text of more than white
   * space, and nothing once a transient input has been consumed.
   */
  ghost predicate ManualValueIs(plan: Plan, inputId: string, consumed: set<string>, v: Option<string>) {
    var usedUp := inputId in consumed && exists x :: FirstInput(plan.flow.inputs, inputId, x) && x.transient;
    var values := plan.context.inputs;
    if !usedUp && inputId in values && values[inputId].String? && Trim(values[inputId].text) != "" then
      v == Some(Trim(values[inputId].text))
    else v.None?
  }

  function Visible(): string -> bool {
    s => Trim(s) != ""
  }

  function TextsIn(items: seq<Value>): seq<string>
    requires forall i :: 0 <= i < |items| ==> items[i].String?
  {
    seq(|items|, i requires 0 <= i < |items| => items[i].text)
  }

  /** The file paths an input holds: a text, or those of a list of texts that are more than white space. */
  ghost predicate PathsAre(v: Value, paths: seq<string>) {
    match v
    case Null => paths == []
    case String(path) => paths == if Trim(path) != "" then [path] else []
    case Array(items) =>
      (forall i :: 0 <= i < |items| ==> items[i].String?) && paths == Keep(Visible(), TextsIn(items))
    case _ => false
  }

  /** A file input that is missing stands for no paths. */
  ghost predicate FilesAre(plan: Plan, inputRef: string, paths: seq<string>) {
    if inputRef in plan.context.inputs then PathsAre(plan.context.inputs[inputRef], paths) else paths == []
  }

  lemma ManualValueIsWritten(plan: Plan, inputId: string, consumed: set<string>, v: Option<string>)
    ensures ManualValue(plan, inputId, consumed) == v <==> ManualValueIs(plan, inputId, consumed, v)
  {
    hide Trim, FindInput, FirstInput;
    var found := FindInput(plan.flow.inputs, inputId);
    forall x
      ensures found == Some(x) <==> FirstInput(plan.flow.inputs, inputId, x)
    {
      InputIsFirst(plan.flow.inputs, inputId, x);
    }
  }

  lemma {:induction false} PathsAreKept(items: seq<Value>)
    requires forall i :: 0 <= i < |items| ==> items[i].String?
    ensures PathsOf(items) == Some(Keep(Visible(), TextsIn(items)))
  {
    hide Trim, Keep;
    KeepOfNone(Visible());
    if items != [] {
      var init, last := items[..|items| - 1], items[|items| - 1];
      PathsAreKept(init);
      assert TextsIn(items) == TextsIn(init) + [last.text];
      KeepAppend(Visible(), TextsIn(init), last.text);
      assert Visible()(last.text) <==> !Blank(last.text);
      assert Keep(Visible(), TextsIn(init)) + [] == Keep(Visible(), TextsIn(init));
    }
  }

  lemma FilesAreWritten(plan: Plan, inputRef: string, paths: seq<string>)
    ensures InputFilePaths(plan, inputRef) == Ok(Some(paths)) <==> FilesAre(plan, inputRef, paths) && paths != []
    ensures InputFilePaths(plan, inputRef) == Ok(None) <==> FilesAre(plan, inputRef, [])
  {
    hide Trim, PathsOf, Keep;
    if inputRef in plan.context.inputs && plan.context.inputs[inputRef].Array? {
      var items := plan.context.inputs[inputRef].items;
      if forall i :: 0 <= i < |items| ==> items[i].String? {
        PathsAreKept(items);
      } else {
        var i :| 0 <= i < |items| && !items[i].String?;
        assert items[i] in items;
      }
    }
  }

  // ----- the calls of each kind of step -----

  ghost predicate LayoutTargetsAre(plan: Plan, targets: seq<LayoutTarget>, bound: seq<BoundTarget>) {
    && |bound| == |targets|
    && forall i :: 0 <= i < |targets| ==>
         && FirstElement(plan.elements, targets[i].element, bound[i].element)
         && bound[i].role == targets[i].role && bound[i].required == targets[i].required
  }

  ghost predicate CaptchaIs(plan: Plan, s: Step, consumed: set<string>, q: CaptchaRequest)
    requires s.SolveVisualCaptcha?
  {
    && FirstElement(plan.elements, s.imageElement, q.image)
    && FirstElement(plan.elements, s.inputElement, q.input)
    && (if s.refreshElement.None? then q.refresh.None?
        else q.refresh.Some? && FirstElement(plan.elements, s.refreshElement.value, q.refresh.value))
    && q.inputId == s.inputId && q.settings == s.settings
    && ManualValueIs(plan, s.inputId, consumed, q.manualValue)
  }

  /** Everything the step has to say, in order. */
  ghost predicate CallsAre(plan: Plan, s: Step, consumed: set<string>, calls: seq<Call>) {
    match s
    case Navigate(_, url, None) => calls == [CallNavigate(url)]
    case Navigate(_, url, Some(page)) =>
      exists p :: FirstPage(plan.pages, page, p) && calls == [CallNavigate(url), CallWaitForPage(p, None)]
    case Click(_, element, _) => exists e :: FirstElement(plan.elements, element, e) && calls == [CallClick(e)]
    case SetInput(_, element, value, events) =>
      exists e :: FirstElement(plan.elements, element, e) && calls == [CallSetInput(e, value, events)]
    case InvokeOperation(_, operation) =>
      exists o :: FirstOperation(plan.operations, operation, o) && calls == [CallInvoke(o)]
    case SetFiles(_, element, inputRef) =>
      exists e, paths ::
        && FirstElement(plan.elements, element, e) && FilesAre(plan, inputRef, paths) && paths != []
        && calls == [CallSetFiles(e, paths)]
    case DispatchEvents(_, element, events) =>
      exists e :: FirstElement(plan.elements, element, e) && calls == [CallDispatch(e, events)]
    case ValidateVisualLayout(_, targets, instruction, rules, optional) =>
      exists bound ::
        LayoutTargetsAre(plan, targets, bound) && calls == [CallValidateLayout(bound, instruction, rules, optional)]
    case SolveVisualCaptcha(_, _, _, _, _, _) =>
      exists q :: CaptchaIs(plan, s, consumed, q) && calls == [CallSolveCaptcha(q)]
    case WaitForRequest(_, request, timeout, _) =>
      exists r :: FirstRequest(plan.requests, request, r) && calls == [CallWaitForRequest(r, timeout)]
    case WaitForPage(_, page, timeout) =>
      exists p :: FirstPage(plan.pages, page, p) && calls == [CallWaitForPage(p, timeout)]
    case Wait(_, duration) => calls == [CallWait(duration)]
  }

  lemma TargetsAreWritten(plan: Plan, targets: seq<LayoutTarget>, bound: seq<BoundTarget>)
    ensures Traverse(TargetBinder(plan), targets) == Ok(bound) <==> LayoutTargetsAre(plan, targets, bound)
  {
    hide FindElement, FirstElement, Traverse;
    if LayoutTargetsAre(plan, targets, bound) {
      forall i | 0 <= i < |targets|
        ensures TargetBinder(plan)(targets[i]) == Ok(bound[i])
      {
        ElementIsFirst(plan.elements, targets[i].element, bound[i].element);
      }
      TraverseSucceeds(TargetBinder(plan), targets, bound);
    }
    if Traverse(TargetBinder(plan), targets) == Ok(bound) {
      forall i | 0 <= i < |targets|
        ensures FirstElement(plan.elements, targets[i].element, bound[i].element)
        ensures bound[i].role == targets[i].role && bound[i].required == targets[i].required
      {
        assert TargetBinder(plan)(targets[i]) == Ok(bound[i]);
        ElementIsFirst(plan.elements, targets[i].element, bound[i].element);
      }
    }
  }

  lemma {:induction false} TraverseSucceeds<A, B, E>(f: A -> Result<B, E>, xs: seq<A>, ys: seq<B>)
    requires |ys| == |xs| && forall i :: 0 <= i < |xs| ==> f(xs[i]) == Ok(ys[i])
    ensures Traverse(f, xs) == Ok(ys)
  {
    if xs != [] {
      TraverseSucceeds(f, xs[..|xs| - 1], ys[..|ys| - 1]);
      assert ys[..|ys| - 1] + [ys[|ys| - 1]] == ys;
    }
  }

  lemma ElementsAreFirst(xs: seq<Element>, id: string)
    ensures forall e :: FindElement(xs, id) == Some(e) <==> FirstElement(xs, id, e)
  {
    hide FindElement, FirstElement;
    forall e
      ensures FindElement(xs, id) == Some(e) <==> FirstElement(xs, id, e)
    {
      ElementIsFirst(xs, id, e);
    }
  }

  lemma PagesAreFirst(xs: seq<Page>, id: string)
    ensures forall p :: FindPage(xs, id) == Some(p) <==> FirstPage(xs, id, p)
  {
    hide FindPage, FirstPage;
    forall p
      ensures FindPage(xs, id) == Some(p) <==> FirstPage(xs, id, p)
    {
      PageIsFirst(xs, id, p);
    }
  }

  lemma ElementStepIsWritten(plan: Plan, s: Step, consumed: set<string>, calls: seq<Call>)
    requires s.Click? || s.SetInput? || s.DispatchEvents?
    ensures ScriptOf(plan, s, consumed) == Script(calls, Done) <==> CallsAre(plan, s, consumed, calls)
  {
    hide FindElement, FirstElement;
    ElementsAreFirst(plan.elements, s.element);
  }

  lemma FileStepIsWritten(plan: Plan, s: Step, consumed: set<string>, calls: seq<Call>)
    requires s.SetFiles?
    ensures ScriptOf(plan, s, consumed) == Script(calls, Done) <==> CallsAre(plan, s, consumed, calls)
  {
    hide FindElement, FirstElement, InputFilePaths, FilesAre;
    ElementsAreFirst(plan.elements, s.element);
    forall paths
      ensures InputFilePaths(plan, s.inputRef) == Ok(Some(paths)) <==>
              FilesAre(plan, s.inputRef, paths) && paths != []
    {
      FilesAreWritten(plan, s.inputRef, paths);
    }
  }

  lemma PageStepIsWritten(plan: Plan, s: Step, consumed: set<string>, calls: seq<Call>)
    requires s.Navigate? || s.WaitForPage? || s.Wait?
    ensures ScriptOf(plan, s, consumed) == Script(calls, Done) <==> CallsAre(plan, s, consumed, calls)
  {
    hide FindPage, FirstPage;
    if s.WaitForPage? {
      PagesAreFirst(plan.pages, s.page);
    } else if s.Navigate? && s.waitForPage.Some? {
      PagesAreFirst(plan.pages, s.waitForPage.value);
    }
  }

  lemma EndpointStepIsWritten(plan: Plan, s: Step, consumed: set<string>, calls: seq<Call>)
    requires s.InvokeOperation? || s.WaitForRequest?
    ensures ScriptOf(plan, s, consumed) == Script(calls, Done) <==> CallsAre(plan, s, consumed, calls)
  {
    hide FindOperation, FirstOperation, FindRequest, FirstRequest;
    if s.InvokeOperation? {
      forall o
        ensures FindOperation(plan.operations, s.operation) == Some(o) <==>
                FirstOperation(plan.operations, s.operation, o)
      {
        OperationIsFirst(plan.operations, s.operation, o);
      }
    } else {
      forall r
        ensures FindRequest(plan.requests, s.request) == Some(r) <==> FirstRequest(plan.requests, s.request, r)
      {
        RequestIsFirst(plan.requests, s.request, r);
      }
    }
  }

  lemma LayoutStepIsWritten(plan: Plan, s: Step, consumed: set<string>, calls: seq<Call>)
    requires s.ValidateVisualLayout?
    ensures ScriptOf(plan, s, consumed) == Script(calls, Done) <==> CallsAre(plan, s, consumed, calls)
  {
    hide Traverse, LayoutTargetsAre;
    forall bound
      ensures Traverse(TargetBinder(plan), s.targets) == Ok(bound) <==> LayoutTargetsAre(plan, s.targets, bound)
    {
      TargetsAreWritten(plan, s.targets, bound);
    }
  }

  lemma CaptchaStepIsWritten(plan: Plan, s: Step, consumed: set<string>, calls: seq<Call>)
    requires s.SolveVisualCaptcha?
    ensures ScriptOf(plan, s, consumed) == Script(calls, Done) <==> CallsAre(plan, s, consumed, calls)
  {
    hide FindElement, FirstElement, ManualValue, ManualValueIs;
    ElementsAreFirst(plan.elements, s.imageElement);
    ElementsAreFirst(plan.elements, s.inputElement);
    if s.refreshElement.Some? {
      ElementsAreFirst(plan.elements, s.refreshElement.value);
    }
    forall v
      ensures ManualValue(plan, s.inputId, consumed) == v <==> ManualValueIs(plan, s.inputId, consumed, v)
    {
      ManualValueIsWritten(plan, s.inputId, consumed, v);
    }
    if CallsAre(plan, s, consumed, calls) {
      var q :| CaptchaIs(plan, s, consumed, q) && calls == [CallSolveCaptcha(q)];
      assert q == CaptchaRequest(q.image, q.input, q.refresh, s.inputId, q.manualValue, s.settings);
    }
    if ScriptOf(plan, s, consumed) == Script(calls, Done) {
      assert CaptchaIs(plan, s, consumed, calls[0].captcha);
    }
  }

  lemma ScriptIsWritten(plan: Plan, s: Step, consumed: set<string>, calls: seq<Call>)
    ensures ScriptOf(plan, s, consumed) == Script(calls, Done) <==> CallsAre(plan, s, consumed, calls)
  {
    hide ScriptOf, CallsAre;
    match s
    case SetFiles(_, _, _) => FileStepIsWritten(plan, s, consumed, calls);
    case InvokeOperation(_, _) => EndpointStepIsWritten(plan, s, consumed, calls);
    case WaitForRequest(_, _, _, _) => EndpointStepIsWritten(plan, s, consumed, calls);
    case ValidateVisualLayout(_, _, _, _, _) => LayoutStepIsWritten(plan, s, consumed, calls);
    case SolveVisualCaptcha(_, _, _, _, _, _) => CaptchaStepIsWritten(plan, s, consumed, calls);
    case Click(_, _, _) => ElementStepIsWritten(plan, s, consumed, calls);
    case SetInput(_, _, _, _) => ElementStepIsWritten(plan, s, consumed, calls);
    case DispatchEvents(_, _, _) => ElementStepIsWritten(plan, s, consumed, calls);
    case _ => PageStepIsWritten(plan, s, consumed, calls);
  }

  // ----- how a step ends -----

  /** The failures an optional step absorbs, and what it reports of each. */
  predicate Absorbs(s: Step, error: BlobError, why: string) {
    || (s.Click? && s.optional && error.NotFound? && why == "optional_element_not_found")
    || (s.ValidateVisualLayout? && s.optional && error.NotImplemented? && why == "visual_validation_unavailable")
    || (s.SolveVisualCaptcha? && s.settings.optional && error.NotFound? && why == "optional_captcha_not_found")
    || (s.WaitForRequest? && s.optional && error.Upstream? && why == "optional_request_not_observed")
  }

  lemma ToleranceIsWritten(s: Step, error: BlobError, why: string)
    ensures Tolerates(s, error) == Some(why) <==> Absorbs(s, error, why)
  {
  }

  /** The calls were made in order, each answered by the session after all that was said before it. */
  ghost predicate Answered(session: Session, past: seq<Exchange>, xs: seq<Exchange>) {
    forall i :: 0 <= i < |xs| ==> xs[i].reply == session(past + xs[..i], xs[i].call)
  }

  ghost predicate AllPassed(xs: seq<Exchange>) {
    forall i :: 0 <= i < |xs| ==> xs[i].reply.Pass?
  }

  /** A step reported with the status, and with the reason when it is skipped. */
  ghost predicate ReportedAs(s: Step, r: StepReport, status: StepStatus, why: Option<string>) {
    && r.stepId == s.id && r.status == status
    && (if why.Some? then SkipReasonKey in r.detail && r.detail[SkipReasonKey] == String(why.value)
        else SkipReasonKey !in r.detail)
  }

  /**
   * How a step ends that finds everything it names: it makes exactly its calls, in order. If the session
   * passes them all it is reported as succeeded. Otherwise it stops at the failing one, which either its
   * kind and its optional flag absorb, and then it is reported as skipped with the reason, or which is
   * the failure of the step.
   */
  ghost predicate EndsAs(session: Session, s: Step, past: seq<Exchange>, calls: seq<Call>, run: StepRun) {
    var xs, outcome := run.exchanges, run.outcome;
    && Answered(session, past, xs) && CallsOf(xs) <= calls
    && if AllPassed(xs) then
         CallsOf(xs) == calls && outcome.Ok? && ReportedAs(s, outcome.value, Succeeded, None)
       else
         && AllPassed(xs[..|xs| - 1]) && xs[|xs| - 1].reply.Fail?
         && var error := xs[|xs| - 1].reply.error;
            if outcome.Ok? then
              exists why :: Absorbs(s, error, why) && ReportedAs(s, outcome.value, Skipped, Some(why))
            else outcome.error == error && forall why :: !Absorbs(s, error, why)
  }

  lemma SpokenStepEnds(plan: Plan, session: Session, s: Step, past: seq<Exchange>, consumed: set<string>,
                       calls: seq<Call>)
    requires DryRunStep(plan, s).Ok? && ScriptOf(plan, s, consumed) == Script(calls, Done)
    ensures EndsAs(session, s, past, calls, RunStep(plan, session, s, past, consumed))
  {
    hide StepDetail, ScriptOf, Converse, CallsOf, EndsAs;
    DryRunHasNoSkipReason(plan, s);
    ConversationIsPrefix(session, past, calls);
    var run := RunStep(plan, session, s, past, consumed);
    if ClosingFailure(Converse(session, past, calls)).Some? {
      FailedCallEnds(session, s, past, calls, run);
    } else {
      PassedCallsEnd(session, s, past, calls, run);
    }
  }

  lemma PassedCallsEnd(session: Session, s: Step, past: seq<Exchange>, calls: seq<Call>, run: StepRun)
    requires Answered(session, past, run.exchanges) && CallsOf(run.exchanges) == calls
    requires ClosingFailure(run.exchanges).None? && AllPassed(run.exchanges[..Before(run.exchanges)])
    requires run.outcome.Ok? && ReportedAs(s, run.outcome.value, Succeeded, None)
    ensures EndsAs(session, s, past, calls, run)
  {
    hide Answered, CallsOf, Absorbs, ReportedAs;
  }

  /** The number of exchanges before the last. */
  function Before(xs: seq<Exchange>): nat {
    if xs == [] then 0 else |xs| - 1
  }

  lemma FailedCallEnds(session: Session, s: Step, past: seq<Exchange>, calls: seq<Call>, run: StepRun)
    requires Answered(session, past, run.exchanges) && CallsOf(run.exchanges) <= calls
    requires ClosingFailure(run.exchanges).Some? && AllPassed(run.exchanges[..Before(run.exchanges)])
    requires var error := ClosingFailure(run.exchanges).value;
             if Tolerates(s, error).Some? then
               run.outcome.Ok? && ReportedAs(s, run.outcome.value, Skipped, Some(Tolerates(s, error).value))
             else run.outcome == Err(error)
    ensures EndsAs(session, s, past, calls, run)
  {
    hide Answered, CallsOf, Absorbs, Tolerates, ReportedAs;
    var error := ClosingFailure(run.exchanges).value;
    forall why
      ensures Tolerates(s, error) == Some(why) <==> Absorbs(s, error, why)
    {
      ToleranceIsWritten(s, error, why);
    }
  }

  /** Only a file step can fail its dry run, and only on an input that holds no paths. */
  lemma DryRunFailsOnBadFiles(plan: Plan, s: Step)
    ensures DryRunStep(plan, s).Err? <==>
            s.SetFiles? && s.inputRef in plan.context.inputs
            && forall paths :: !PathsAre(plan.context.inputs[s.inputRef], paths)
    ensures DryRunStep(plan, s).Err? ==> DryRunStep(plan, s).error == Configuration(BadFilePaths(s.inputRef))
  {
    hide PathsAre, FilePathsOf, CaptchaDetail, OperationDetail, RequestDetail, TargetValues, TextArray, Present;
    if s.SetFiles? && s.inputRef in plan.context.inputs {
      FilesFail(s.inputRef, plan.context.inputs[s.inputRef]);
    }
  }

  lemma FilesFail(inputRef: string, v: Value)
    ensures FilePathsOf(inputRef, v).Err? <==> forall paths :: !PathsAre(v, paths)
    ensures FilePathsOf(inputRef, v).Err? ==> FilePathsOf(inputRef, v).error == Configuration(BadFilePaths(inputRef))
  {
    hide Trim, PathsOf, Keep;
    match v
    case Null => assert PathsAre(v, []);
    case String(path) => assert PathsAre(v, if Trim(path) != "" then [path] else []);
    case Array(items) =>
      if forall i :: 0 <= i < |items| ==> items[i].String? {
        PathsAreKept(items);
        assert PathsAre(v, Keep(Visible(), TextsIn(items)));
      } else {
        var i :| 0 <= i < |items| && !items[i].String?;
        assert items[i] in items;
      }
    case _ =>
  }

  /** Every step makes its calls: what it says, and how it ends, follows from the calls of its kind and the session. */
  lemma StepMakesItsCalls(plan: Plan, session: Session, s: Step, past: seq<Exchange>, consumed: set<string>,
                          calls: seq<Call>)
    requires CallsAre(plan, s, consumed, calls)
    ensures EndsAs(session, s, past, calls, RunStep(plan, session, s, past, consumed))
  {
    hide ScriptOf, CallsAre, RunStep, EndsAs, DryRunStep;
    ScriptIsWritten(plan, s, consumed, calls);
    SpeakingStepDryRuns(plan, s, consumed, calls);
    SpokenStepEnds(plan, session, s, past, consumed, calls);
  }

  lemma SpeakingStepDryRuns(plan: Plan, s: Step, consumed: set<string>, calls: seq<Call>)
    requires CallsAre(plan, s, consumed, calls)
    ensures DryRunStep(plan, s).Ok?
  {
    hide DryRunStep, PathsAre, FirstElement, FirstPage, FirstOperation, FirstRequest, CaptchaIs, LayoutTargetsAre;
    DryRunFailsOnBadFiles(plan, s);
  }

  /** And a step reported as succeeded made exactly the calls of its kind. */
  lemma SucceededStepMadeItsCalls(plan: Plan, session: Session, s: Step, past: seq<Exchange>, consumed: set<string>)
    requires var run := RunStep(plan, session, s, past, consumed);
             run.outcome.Ok? && run.outcome.value.status == Succeeded
    ensures var xs := RunStep(plan, session, s, past, consumed).exchanges;
            CallsAre(plan, s, consumed, CallsOf(xs)) && Answered(session, past, xs) && AllPassed(xs)
  {
    hide DryRunStep, ScriptOf, Converse, Tolerates, CallsAre;
    var calls := ScriptOf(plan, s, consumed).calls;
    ConversationIsPrefix(session, past, calls);
    ScriptIsWritten(plan, s, consumed, calls);
  }

  // ----- steps that lack something -----

  /** A file step without any path says nothing and is reported as skipped. */
  lemma FileStepWithoutPathsIsSkipped(plan: Plan, session: Session, s: Step, past: seq<Exchange>, consumed: set<string>)
    requires s.SetFiles? && FilesAre(plan, s.inputRef, [])
    ensures var run := RunStep(plan, session, s, past, consumed);
            && run.exchanges == [] && run.outcome.Ok?
            && ReportedAs(s, run.outcome.value, Skipped, Some("missing_input"))
  {
    hide PathsAre, InputFilePaths;
    FilesAreWritten(plan, s.inputRef, []);
  }

  predicate NoElement(xs: seq<Element>, id: string) {
    forall x :: x in xs ==> x.id != id
  }

  /** The first thing the step names that the plan lacks, and what it has said before it looks for it. */
  ghost predicate Lacks(plan: Plan, s: Step, kind: string, id: string, said: seq<Call>) {
    match s
    case Navigate(_, url, page) =>
      kind == "page" && page == Some(id) && (forall x :: x in plan.pages ==> x.id != id) && said == [CallNavigate(url)]
    case Click(_, element, _) => kind == "element" && id == element && NoElement(plan.elements, id) && said == []
    case SetInput(_, element, _, _) => kind == "element" && id == element && NoElement(plan.elements, id) && said == []
    case DispatchEvents(_, element, _) =>
      kind == "element" && id == element && NoElement(plan.elements, id) && said == []
    case SetFiles(_, element, inputRef) =>
      && kind == "element" && id == element && NoElement(plan.elements, id) && said == []
      && exists paths :: FilesAre(plan, inputRef, paths) && paths != []
    case InvokeOperation(_, operation) =>
      kind == "operation" && id == operation && (forall x :: x in plan.operations ==> x.id != id) && said == []
    case WaitForRequest(_, request, _, _) =>
      kind == "request" && id == request && (forall x :: x in plan.requests ==> x.id != id) && said == []
    case WaitForPage(_, page, _) =>
      kind == "page" && id == page && (forall x :: x in plan.pages ==> x.id != id) && said == []
    case ValidateVisualLayout(_, targets, _, _, _) =>
      && kind == "element" && said == [] && NoElement(plan.elements, id)
      && exists i :: 0 <= i < |targets| && targets[i].element == id
                     && forall j :: 0 <= j < i ==> !NoElement(plan.elements, targets[j].element)
    case SolveVisualCaptcha(_, image, input, _, refresh, _) =>
      && kind == "element" && said == [] && NoElement(plan.elements, id)
      && (id == image || (!NoElement(plan.elements, image)
                          && (id == input || (!NoElement(plan.elements, input) && refresh == Some(id)))))
    case Wait(_, _) => false
  }

  lemma NoElementIsNotFound(xs: seq<Element>, id: string)
    ensures FindElement(xs, id).None? <==> NoElement(xs, id)
  {
    hide FindElement;
  }

  lemma {:induction false} FirstLackingTarget(plan: Plan, targets: seq<LayoutTarget>, i: nat)
    requires i < |targets| && NoElement(plan.elements, targets[i].element)
    requires forall j :: 0 <= j < i ==> !NoElement(plan.elements, targets[j].element)
    ensures Traverse(TargetBinder(plan), targets) ==
            Err(Configuration(MissingBoundReference("element", targets[i].element)))
  {
    hide FindElement, NoElement;
    var init, last := targets[..|targets| - 1], targets[|targets| - 1];
    NoElementIsNotFound(plan.elements, last.element);
    if i < |targets| - 1 {
      FirstLackingTarget(plan, init, i);
    } else {
      forall t | t in init
        ensures TargetBinder(plan)(t).Ok?
      {
        var j :| 0 <= j < |init| && init[j] == t;
        assert targets[j] == t;
        NoElementIsNotFound(plan.elements, t.element);
      }
      TraverseOfOk(TargetBinder(plan), init);
      assert TargetBinder(plan)(last) == Err(Configuration(MissingBoundReference("element", last.element)));
    }
  }

  lemma {:induction false} TraverseOfOk<A, B, E>(f: A -> Result<B, E>, xs: seq<A>)
    requires forall x :: x in xs ==> f(x).Ok?
    ensures Traverse(f, xs).Ok?
  {
    if xs != [] {
      assert xs[|xs| - 1] in xs;
      TraverseOfOk(f, xs[..|xs| - 1]);
    }
  }

  lemma LackingScriptIsBroken(plan: Plan, s: Step, consumed: set<string>, kind: string, id: string, said: seq<Call>)
    requires Lacks(plan, s, kind, id, said)
    ensures ScriptOf(plan, s, consumed) == Script(said, Broken(Configuration(MissingBoundReference(kind, id))))
  {
    hide FindElement, FindPage, FindOperation, FindRequest, FilesAre, InputFilePaths, ManualValue, Traverse, NoElement;
    match s
    case Click(_, element, _) => NoElementIsNotFound(plan.elements, element);
    case SetInput(_, element, _, _) => NoElementIsNotFound(plan.elements, element);
    case DispatchEvents(_, element, _) => NoElementIsNotFound(plan.elements, element);
    case SetFiles(_, element, inputRef) =>
      NoElementIsNotFound(plan.elements, element);
      var paths :| FilesAre(plan, inputRef, paths) && paths != [];
      FilesAreWritten(plan, inputRef, paths);
    case ValidateVisualLayout(_, targets, _, _, _) =>
      var i :| 0 <= i < |targets| && targets[i].element == id
               && forall j :: 0 <= j < i ==> !NoElement(plan.elements, targets[j].element);
      FirstLackingTarget(plan, targets, i);
    case SolveVisualCaptcha(_, image, input, _, refresh, _) =>
      NoElementIsNotFound(plan.elements, id);
      NoElementIsNotFound(plan.elements, image);
      NoElementIsNotFound(plan.elements, input);
    case _ =>
  }

  /** A step that lacks something says what comes before and fails for the first thing missing. */
  lemma LackingStepFails(plan: Plan, session: Session, s: Step, past: seq<Exchange>, consumed: set<string>,
                         kind: string, id: string, said: seq<Call>)
    requires DryRunStep(plan, s).Ok? && Lacks(plan, s, kind, id, said)
    ensures var run := RunStep(plan, session, s, past, consumed);
            && Answered(session, past, run.exchanges) && CallsOf(run.exchanges) <= said
            && if AllPassed(run.exchanges) then
                 CallsOf(run.exchanges) == said
                 && run.outcome == Err(Configuration(MissingBoundReference(kind, id)))
               else said == [CallNavigate(s.url)] && run.exchanges[0].reply == Fail(run.outcome.error)
  {
    hide DryRunStep, ScriptOf, Converse, CallsOf, Lacks;
    LackingScriptIsBroken(plan, s, consumed, kind, id, said);
    OnlyNavigationsSpeakFirst(plan, s, kind, id, said);
    ConversationIsPrefix(session, past, said);
    CallsAreCounted(Converse(session, past, said));
  }

  lemma OnlyNavigationsSpeakFirst(plan: Plan, s: Step, kind: string, id: string, said: seq<Call>)
    requires Lacks(plan, s, kind, id, said)
    ensures said == [] || (s.Navigate? && said == [CallNavigate(s.url)])
  {
  }

  lemma CallsAreCounted(xs: seq<Exchange>)
    ensures |CallsOf(xs)| == |xs|
  {
  }

  /** The first target whose element is missing, when not all of them are found. */
  lemma {:induction false} SomeTargetIsMissing(plan: Plan, targets: seq<LayoutTarget>) returns (i: nat)
    requires Traverse(TargetBinder(plan), targets).Err?
    ensures i < |targets| && NoElement(plan.elements, targets[i].element)
    ensures forall j :: 0 <= j < i ==> !NoElement(plan.elements, targets[j].element)
  {
    hide FindElement, NoElement;
    var init, last := targets[..|targets| - 1], targets[|targets| - 1];
    if Traverse(TargetBinder(plan), init).Err? {
      i := SomeTargetIsMissing(plan, init);
    } else {
      i := |targets| - 1;
      NoElementIsNotFound(plan.elements, last.element);
      assert TargetBinder(plan)(last).Err?;
      forall j | 0 <= j < i
        ensures !NoElement(plan.elements, targets[j].element)
      {
        assert TargetBinder(plan)(init[j]).Ok?;
        NoElementIsNotFound(plan.elements, targets[j].element);
      }
    }
  }

  lemma BrokenScriptLacks(plan: Plan, s: Step, consumed: set<string>)
    requires DryRunStep(plan, s).Ok? && ScriptOf(plan, s, consumed).finish.Broken?
    ensures exists kind, id, said :: Lacks(plan, s, kind, id, said)
  {
    hide FindElement, FindPage, FindOperation, FindRequest, FilesAre, InputFilePaths, ManualValue, Traverse, NoElement,
         DryRunStep, CaptchaDetail;
    match s
    case Navigate(_, url, page) => assert Lacks(plan, s, "page", page.value, [CallNavigate(url)]);
    case Click(_, element, _) =>
      NoElementIsNotFound(plan.elements, element);
      assert Lacks(plan, s, "element", element, []);
    case SetInput(_, element, _, _) =>
      NoElementIsNotFound(plan.elements, element);
      assert Lacks(plan, s, "element", element, []);
    case DispatchEvents(_, element, _) =>
      NoElementIsNotFound(plan.elements, element);
      assert Lacks(plan, s, "element", element, []);
    case SetFiles(_, element, inputRef) =>
      FilesOfDryRun(plan, s);
      var paths := InputFilePaths(plan, inputRef).value.value;
      FilesAreWritten(plan, inputRef, paths);
      NoElementIsNotFound(plan.elements, element);
      assert Lacks(plan, s, "element", element, []);
    case InvokeOperation(_, operation) => assert Lacks(plan, s, "operation", operation, []);
    case WaitForRequest(_, request, _, _) => assert Lacks(plan, s, "request", request, []);
    case WaitForPage(_, page, _) => assert Lacks(plan, s, "page", page, []);
    case ValidateVisualLayout(_, targets, _, _, _) =>
      var i := SomeTargetIsMissing(plan, targets);
      assert Lacks(plan, s, "element", targets[i].element, []);
    case SolveVisualCaptcha(_, image, input, _, refresh, _) =>
      NoElementIsNotFound(plan.elements, image);
      NoElementIsNotFound(plan.elements, input);
      if refresh.Some? {
        NoElementIsNotFound(plan.elements, refresh.value);
      }
      var id := if NoElement(plan.elements, image) then image
                else if NoElement(plan.elements, input) then input else refresh.value;
      assert Lacks(plan, s, "element", id, []);
    case Wait(_, _) =>
  }

  lemma FilesOfDryRun(plan: Plan, s: Step)
    requires s.SetFiles? && DryRunStep(plan, s).Ok?
    ensures InputFilePaths(plan, s.inputRef).Ok?
  {
    hide InputFilePaths;
  }

  /** A step has no other way: it has a bad input, nothing to send, something it lacks, or calls to make. */
  lemma EveryStepIsCovered(plan: Plan, s: Step, consumed: set<string>)
    ensures || DryRunStep(plan, s).Err?
            || (s.SetFiles? && FilesAre(plan, s.inputRef, []))
            || (exists kind, id, said :: Lacks(plan, s, kind, id, said))
            || (exists calls :: CallsAre(plan, s, consumed, calls))
  {
    hide DryRunStep, CallsAre, ScriptOf, Lacks, FilesAre;
    if DryRunStep(plan, s).Ok? {
      var script := ScriptOf(plan, s, consumed);
      match script.finish
      case Done => ScriptIsWritten(plan, s, consumed, script.calls);
      case Skip(_) => SkippingStepHasNoFiles(plan, s, consumed);
      case Broken(_) => BrokenScriptLacks(plan, s, consumed);
    }
  }

  lemma SkippingStepHasNoFiles(plan: Plan, s: Step, consumed: set<string>)
    requires ScriptOf(plan, s, consumed).finish.Skip?
    ensures s.SetFiles? && FilesAre(plan, s.inputRef, [])
  {
    hide InputFilePaths, FilesAre, FindElement, FindPage, FindOperation, FindRequest, ManualValue, Traverse;
    if s.SetFiles? {
      FilesAreWritten(plan, s.inputRef, []);
    }
  }

  // ----- whole runs -----

  /** In any run, a step reported as succeeded made exactly the calls of its kind in its stretch of the trace. */
  lemma RunMadeItsCalls(plan: Plan, session: Session, steps: seq<Step>, i: nat)
    requires i < |steps| && RunSteps(plan, session, steps[..i + 1]).outcome.Ok?
    requires |RunSteps(plan, session, steps[..i + 1]).outcome.value| == i + 1
    requires RunSteps(plan, session, steps[..i + 1]).outcome.value[i].status == Succeeded
    ensures var before, after := RunSteps(plan, session, steps[..i]), RunSteps(plan, session, steps[..i + 1]);
            && before.trace <= after.trace <= RunSteps(plan, session, steps).trace
            && var xs := after.trace[|before.trace|..];
               CallsAre(plan, steps[i], before.consumed, CallsOf(xs)) && AllPassed(xs)
  {
    hide RunStep, CallsAre, CallsOf, AllPassed, Answered;
    var front := steps[..i + 1];
    assert front[..|front| - 1] == steps[..i] && front[|front| - 1] == steps[i];
    var before := RunSteps(plan, session, steps[..i]);
    ReportsAreCounted(plan, session, steps[..i]);
    SucceededStepMadeItsCalls(plan, session, steps[i], before.trace, before.consumed);
    var xs := RunStep(plan, session, steps[i], before.trace, before.consumed).exchanges;
    assert (before.trace + xs)[|before.trace|..] == xs;
    TraceGrows(plan, session, steps, i + 1);
  }
}
