/** Browser flow catalogs, bound plans and the references a flow makes. */
module FlowModel {
  import opened Results
  import opened Json
  import opened Templates

  // ----- catalogs -----

  datatype Catalog = Catalog(
    schemaVersion: nat,
    provider: string,
    surface: string,
    baseUrl: string,
    presets: map<string, Value>,
    pages: seq<Page>,
    elements: seq<Element>,
    requests: seq<Request>,
    operations: seq<Operation>,
    flows: seq<Flow>)

  datatype Page = Page(id: string, title: string, urlPatterns: seq<string>)

  datatype Element = Element(
    id: string, page: string, role: string, required: bool, frame: Option<string>, selectors: seq<Selector>)

  datatype Engine = Css | Xpath | Javascript

  datatype Selector = Selector(engine: Engine, value: string, textContains: Option<string>, visible: bool)

  datatype Request = Request(
    id: string, httpMethod: string, urlPattern: string, requiredHeaders: seq<HeaderMatcher>,
    requiredFields: seq<string>, successCodes: seq<nat>)

  datatype HeaderMatcher = HeaderMatcher(name: string, valueTemplate: Option<string>, required: bool)

  /** The only operation kind of the source is JavaScript. */
  datatype Operation = Operation(id: string, page: Option<string>, frame: Option<string>, source: string)

  datatype Flow = Flow(
    id: string,
    title: string,
    purpose: string,
    startPage: string,
    prerequisite: Option<string>,
    presetRefs: seq<string>,
    inputs: seq<Input>,
    steps: seq<Step>,
    expectedRequests: seq<string>,
    outputs: seq<Output>)

  datatype Input = Input(id: string, labelText: string, required: bool, transient: bool, description: Option<string>)

  datatype OutputKind = RequestHeader | RequestHeaders | RequestField | ResponseField | ScriptValue | Url | DomText

  datatype Output = Output(
    id: string, kind: OutputKind, frame: Option<string>, source: string, fallbackSources: seq<string>,
    headerNames: seq<string>, description: Option<string>)

  datatype LayoutTarget = LayoutTarget(element: string, role: string, required: bool)

  /** The parts of a captcha step that are handed on to the session unchanged. */
  datatype CaptchaSettings = CaptchaSettings(
    fieldLabel: Option<string>,
    placeholder: Option<string>,
    dispatchEvents: seq<string>,
    instruction: Option<string>,
    expectedLength: Option<nat>,
    llmSystemPrompt: Option<string>,
    llmPromptTemplate: Option<string>,
    optional: bool,
    maxAttempts: Option<nat>)

  datatype Step =
    | Navigate(id: string, url: string, waitForPage: Option<string>)
    | Click(id: string, element: string, optional: bool)
    | SetInput(id: string, element: string, valueTemplate: string, dispatchEvents: seq<string>)
    | InvokeOperation(id: string, operation: string)
    | SetFiles(id: string, element: string, inputRef: string)
    | DispatchEvents(id: string, element: string, events: seq<string>)
    | ValidateVisualLayout(id: string, targets: seq<LayoutTarget>, instruction: Option<string>,
                           relationshipRules: seq<string>, optional: bool)
    | SolveVisualCaptcha(id: string, imageElement: string, inputElement: string, inputId: string,
                         refreshElement: Option<string>, settings: CaptchaSettings)
    | WaitForRequest(id: string, request: string, timeoutMs: Option<nat>, optional: bool)
    | WaitForPage(id: string, page: string, timeoutMs: Option<nat>)
    | Wait(id: string, durationMs: nat)

  datatype Plan = Plan(
    provider: string,
    surface: string,
    flow: Flow,
    context: Context,
    presets: map<string, Value>,
    pages: seq<Page>,
    elements: seq<Element>,
    requests: seq<Request>,
    operations: seq<Operation>)

  // ----- ids -----

  function PageIds(xs: seq<Page>): seq<string> {
    seq(|xs|, i requires 0 <= i < |xs| => xs[i].id)
  }

  function ElementIds(xs: seq<Element>): seq<string> {
    seq(|xs|, i requires 0 <= i < |xs| => xs[i].id)
  }

  function RequestIds(xs: seq<Request>): seq<string> {
    seq(|xs|, i requires 0 <= i < |xs| => xs[i].id)
  }

  function OperationIds(xs: seq<Operation>): seq<string> {
    seq(|xs|, i requires 0 <= i < |xs| => xs[i].id)
  }

  function FlowIds(xs: seq<Flow>): seq<string> {
    seq(|xs|, i requires 0 <= i < |xs| => xs[i].id)
  }

  function InputIds(xs: seq<Input>): seq<string> {
    seq(|xs|, i requires 0 <= i < |xs| => xs[i].id)
  }

  function OutputIds(xs: seq<Output>): seq<string> {
    seq(|xs|, i requires 0 <= i < |xs| => xs[i].id)
  }

  function StepIds(xs: seq<Step>): seq<string> {
    seq(|xs|, i requires 0 <= i < |xs| => xs[i].id)
  }

  // ----- what a step refers to -----

  function SetOf(s: Option<string>): set<string> {
    if s.Some? then {s.value} else {}
  }

  function TargetElements(targets: seq<LayoutTarget>): set<string> {
    set t | t in targets :: t.element
  }

  function StepElements(step: Step): set<string> {
    match step
    case Click(_, element, _) => {element}
    case SetInput(_, element, _, _) => {element}
    case SetFiles(_, element, _) => {element}
    case DispatchEvents(_, element, _) => {element}
    case ValidateVisualLayout(_, targets, _, _, _) => TargetElements(targets)
    case SolveVisualCaptcha(_, image, input, _, refresh, _) => {image, input} + SetOf(refresh)
    case _ => {}
  }

  function StepPages(step: Step): set<string> {
    match step
    case Navigate(_, _, page) => SetOf(page)
    case WaitForPage(_, page, _) => {page}
    case _ => {}
  }

  function StepOperations(step: Step): set<string> {
    if step.InvokeOperation? then {step.operation} else {}
  }

  function StepRequests(step: Step): set<string> {
    if step.WaitForRequest? then {step.request} else {}
  }

  // ----- the first entry with an id, as `iter().find` returns it -----

  function FindPage(xs: seq<Page>, id: string): (r: Option<Page>)
    ensures r.Some? <==> exists x :: x in xs && x.id == id
    ensures r.Some? ==> r.value in xs && r.value.id == id
  {
    FindFirst((x: Page) => x.id == id, xs)
  }

  function FindElement(xs: seq<Element>, id: string): (r: Option<Element>)
    ensures r.Some? <==> exists x :: x in xs && x.id == id
    ensures r.Some? ==> r.value in xs && r.value.id == id
  {
    FindFirst((x: Element) => x.id == id, xs)
  }

  function FindRequest(xs: seq<Request>, id: string): (r: Option<Request>)
    ensures r.Some? <==> exists x :: x in xs && x.id == id
    ensures r.Some? ==> r.value in xs && r.value.id == id
  {
    FindFirst((x: Request) => x.id == id, xs)
  }

  function FindOperation(xs: seq<Operation>, id: string): (r: Option<Operation>)
    ensures r.Some? <==> exists x :: x in xs && x.id == id
    ensures r.Some? ==> r.value in xs && r.value.id == id
  {
    FindFirst((x: Operation) => x.id == id, xs)
  }

  function FindFlow(xs: seq<Flow>, id: string): (r: Option<Flow>)
    ensures r.Some? <==> exists x :: x in xs && x.id == id
    ensures r.Some? ==> r.value in xs && r.value.id == id
  {
    FindFirst((x: Flow) => x.id == id, xs)
  }

  function FindInput(xs: seq<Input>, id: string): (r: Option<Input>)
    ensures r.Some? <==> exists x :: x in xs && x.id == id
    ensures r.Some? ==> r.value in xs && r.value.id == id
  {
    FindFirst((x: Input) => x.id == id, xs)
  }

  // ----- which entry that is -----

  /** `x` is the first entry of the list with the id. */
  ghost predicate FirstElement(xs: seq<Element>, id: string, x: Element) {
    exists i :: 0 <= i < |xs| && xs[i] == x && x.id == id && forall j :: 0 <= j < i ==> xs[j].id != id
  }

  ghost predicate FirstPage(xs: seq<Page>, id: string, x: Page) {
    exists i :: 0 <= i < |xs| && xs[i] == x && x.id == id && forall j :: 0 <= j < i ==> xs[j].id != id
  }

  ghost predicate FirstRequest(xs: seq<Request>, id: string, x: Request) {
    exists i :: 0 <= i < |xs| && xs[i] == x && x.id == id && forall j :: 0 <= j < i ==> xs[j].id != id
  }

  ghost predicate FirstOperation(xs: seq<Operation>, id: string, x: Operation) {
    exists i :: 0 <= i < |xs| && xs[i] == x && x.id == id && forall j :: 0 <= j < i ==> xs[j].id != id
  }

  ghost predicate FirstFlow(xs: seq<Flow>, id: string, x: Flow) {
    exists i :: 0 <= i < |xs| && xs[i] == x && x.id == id && forall j :: 0 <= j < i ==> xs[j].id != id
  }

  ghost predicate FirstInput(xs: seq<Input>, id: string, x: Input) {
    exists i :: 0 <= i < |xs| && xs[i] == x && x.id == id && forall j :: 0 <= j < i ==> xs[j].id != id
  }

  lemma ElementIsFirst(xs: seq<Element>, id: string, x: Element)
    ensures FindElement(xs, id) == Some(x) <==> FirstElement(xs, id, x)
  {
    hide FindFirst;
    if FindElement(xs, id).Some? {
      var i := FoundIsFirst((y: Element) => y.id == id, xs);
    }
  }

  lemma PageIsFirst(xs: seq<Page>, id: string, x: Page)
    ensures FindPage(xs, id) == Some(x) <==> FirstPage(xs, id, x)
  {
    hide FindFirst;
    if FindPage(xs, id).Some? {
      var i := FoundIsFirst((y: Page) => y.id == id, xs);
    }
  }

  lemma RequestIsFirst(xs: seq<Request>, id: string, x: Request)
    ensures FindRequest(xs, id) == Some(x) <==> FirstRequest(xs, id, x)
  {
    hide FindFirst;
    if FindRequest(xs, id).Some? {
      var i := FoundIsFirst((y: Request) => y.id == id, xs);
    }
  }

  lemma OperationIsFirst(xs: seq<Operation>, id: string, x: Operation)
    ensures FindOperation(xs, id) == Some(x) <==> FirstOperation(xs, id, x)
  {
    hide FindFirst;
    if FindOperation(xs, id).Some? {
      var i := FoundIsFirst((y: Operation) => y.id == id, xs);
    }
  }

  lemma FlowIsFirst(xs: seq<Flow>, id: string, x: Flow)
    ensures FindFlow(xs, id) == Some(x) <==> FirstFlow(xs, id, x)
  {
    hide FindFirst;
    if FindFlow(xs, id).Some? {
      var i := FoundIsFirst((y: Flow) => y.id == id, xs);
    }
  }

  lemma InputIsFirst(xs: seq<Input>, id: string, x: Input)
    ensures FindInput(xs, id) == Some(x) <==> FirstInput(xs, id, x)
  {
    hide FindFirst;
    if FindInput(xs, id).Some? {
      var i := FoundIsFirst((y: Input) => y.id == id, xs);
    }
  }
}
