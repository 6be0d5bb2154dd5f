/** The static check of a catalog, with its prerequisite-cycle walk. */
module FlowCheck {
  import opened Results
  import opened Text
  import opened Json
  import opened FlowModel

  const SCHEMA_VERSION: nat := 1

  // ----- what the check promises about each part -----

  function IdSet(ids: seq<string>): set<string> {
    set id | id in ids
  }

  predicate UniqueIds(ids: seq<string>) {
    AllPresent(ids) && Distinct(ids)
  }

  predicate PageOk(p: Page) {
    !Blank(p.id) && !Blank(p.title) && p.urlPatterns != [] && AllPresent(p.urlPatterns)
  }

  predicate SelectorOk(s: Selector) {
    !Blank(s.value) && PresentIfAny(s.textContains)
  }

  predicate ElementOk(e: Element, pageIds: set<string>) {
    && !Blank(e.id) && !Blank(e.page) && !Blank(e.role) && PresentIfAny(e.frame)
    && e.page in pageIds
    && e.selectors != [] && forall s :: s in e.selectors ==> SelectorOk(s)
  }

  predicate RequestOk(r: Request) {
    && !Blank(r.id) && !Blank(r.httpMethod) && !Blank(r.urlPattern) && r.successCodes != []
    && (forall h :: h in r.requiredHeaders ==> !Blank(h.name) && PresentIfAny(h.valueTemplate))
    && AllPresent(r.requiredFields)
  }

  predicate OperationOk(o: Operation, pageIds: set<string>) {
    !Blank(o.id) && !Blank(o.source) && PresentIfAny(o.frame) && (o.page.Some? ==> o.page.value in pageIds)
  }

  predicate HeadOk(f: Flow, pageIds: set<string>, flowIds: set<string>) {
    && !Blank(f.id) && !Blank(f.title) && !Blank(f.purpose)
    && f.startPage in pageIds
    && (f.prerequisite.Some? ==>
          !Blank(f.prerequisite.value) && f.prerequisite.value != f.id && f.prerequisite.value in flowIds)
    && f.steps != []
  }

  predicate InputOk(i: Input) {
    !Blank(i.id) && !Blank(i.labelText) && PresentIfAny(i.description)
  }

  predicate OutputOk(o: Output) {
    && !Blank(o.id) && !Blank(o.source) && AllPresent(o.fallbackSources)
    && (o.kind.RequestHeaders? ==> o.headerNames != [] && AllPresent(o.headerNames))
    && PresentIfAny(o.frame) && PresentIfAny(o.description)
  }

  /** The ids a step may refer to. */
  datatype Known = Known(
    pages: set<string>, elements: set<string>, requests: set<string>, operations: set<string>)

  predicate StepOk(s: Step, known: Known, inputIds: set<string>) {
    match s
    case Navigate(_, url, page) => !Blank(url) && SetOf(page) <= known.pages
    case Click(_, element, _) => element in known.elements
    case SetInput(_, element, value, _) => element in known.elements && !Blank(value)
    case SetFiles(_, element, inputRef) => element in known.elements && !Blank(inputRef) && inputRef in inputIds
    case DispatchEvents(_, element, events) => element in known.elements && events != [] && AllPresent(events)
    case ValidateVisualLayout(_, targets, instruction, rules, _) =>
      && targets != []
      && (forall t :: t in targets ==> !Blank(t.element) && !Blank(t.role) && t.element in known.elements)
      && PresentIfAny(instruction) && AllPresent(rules)
    case SolveVisualCaptcha(_, image, input, inputId, refresh, settings) =>
      && !Blank(image) && !Blank(input) && !Blank(inputId)
      && image in known.elements && input in known.elements && SetOf(refresh) <= known.elements
      && settings.expectedLength != Some(0) && settings.maxAttempts != Some(0)
      && settings.dispatchEvents != [] && AllPresent(settings.dispatchEvents)
      && PresentIfAny(settings.llmSystemPrompt) && PresentIfAny(settings.llmPromptTemplate)
    case InvokeOperation(_, operation) => operation in known.operations
    case WaitForRequest(_, request, _, _) => request in known.requests
    case WaitForPage(_, page, _) => page in known.pages
    case Wait(_, duration) => duration != 0
  }

  predicate FlowOk(f: Flow, known: Known, presets: set<string>, flowIds: set<string>) {
    && HeadOk(f, known.pages, flowIds)
    && UniqueIds(InputIds(f.inputs)) && (forall i :: i in f.inputs ==> InputOk(i))
    && (forall p :: p in f.presetRefs ==> !Blank(p) && p in presets)
    && UniqueIds(OutputIds(f.outputs)) && (forall o :: o in f.outputs ==> OutputOk(o))
    && UniqueIds(StepIds(f.steps)) && (forall s :: s in f.steps ==> StepOk(s, known, IdSet(InputIds(f.inputs))))
    && (forall r :: r in f.expectedRequests ==> !Blank(r) && r in known.requests) && Distinct(f.expectedRequests)
  }

  function KnownIds(c: Catalog): Known {
    Known(IdSet(PageIds(c.pages)), IdSet(ElementIds(c.elements)), IdSet(RequestIds(c.requests)),
          IdSet(OperationIds(c.operations)))
  }

  predicate HeaderOk(c: Catalog) {
    && c.schemaVersion == SCHEMA_VERSION
    && !Blank(c.provider) && !Blank(c.surface) && !Blank(c.baseUrl)
    && c.pages != [] && c.elements != [] && c.flows != []
  }

  predicate PagesOk(c: Catalog) {
    && UniqueIds(PageIds(c.pages)) && (forall p :: p in c.pages ==> PageOk(p))
    && (forall id :: id in c.presets ==> !Blank(id))
    && UniqueIds(ElementIds(c.elements)) && (forall e :: e in c.elements ==> ElementOk(e, KnownIds(c).pages))
  }

  predicate EndpointsOk(c: Catalog) {
    && UniqueIds(RequestIds(c.requests)) && (forall r :: r in c.requests ==> RequestOk(r))
    && UniqueIds(OperationIds(c.operations))
    && (forall o :: o in c.operations ==> OperationOk(o, KnownIds(c).pages))
  }

  predicate FlowsOk(c: Catalog) {
    && UniqueIds(FlowIds(c.flows))
    && forall f :: f in c.flows ==> FlowOk(f, KnownIds(c), c.presets.Keys, IdSet(FlowIds(c.flows)))
  }

  /** Everything the check demands of a catalog. */
  ghost predicate Accepts(c: Catalog) {
    HeaderOk(c) && PagesOk(c) && EndpointsOk(c) && FlowsOk(c)
        && forall f :: f in c.flows ==> ChainEnds(Links(c.flows), f.prerequisite)
  }

  // ----- prerequisite chains -----

  type LinkMap = map<string, Option<string>>

  /** The prerequisite of each flow id; a later flow overrides an earlier one, as `collect` does. */
  function Links(flows: seq<Flow>): LinkMap {
    if flows == [] then map[]
    else
      var last := flows[|flows| - 1];
      Links(flows[..|flows| - 1])[last.id := last.prerequisite]
  }

  /** One move along a chain; an unknown flow has no prerequisite. */
  function Next(links: LinkMap, at: Option<string>): Option<string> {
    if at.Some? && at.value in links then links[at.value] else None
  }

  function Walk(links: LinkMap, from: Option<string>, n: nat): Option<string> {
    if n == 0 then from else Next(links, Walk(links, from, n - 1))
  }

  /** The chain of prerequisites that starts at `from` comes to an end. */
  ghost predicate ChainEnds(links: LinkMap, from: Option<string>) {
    exists n: nat :: Walk(links, from, n) == None
  }

  lemma {:induction false} WalkOn(links: LinkMap, from: Option<string>, m: nat, n: nat)
    ensures Walk(links, Walk(links, from, m), n) == Walk(links, from, m + n)
    decreases n
  {
    if n > 0 {
      WalkOn(links, from, m, n - 1);
    }
  }

  /** Once a chain has ended it stays ended. */
  lemma EndedStays(links: LinkMap, from: Option<string>, m: nat, n: nat)
    requires m <= n && Walk(links, from, m) == None
    ensures Walk(links, from, n) == None
    decreases n
  {
    if m < n {
      EndedStays(links, from, m, n - 1);
    }
  }

  /** A chain that meets the same flow twice never ends. */
  lemma {:induction false} RepeatNeverEnds(links: LinkMap, from: Option<string>, i: nat, j: nat, n: nat)
    requires i < j && Walk(links, from, i) == Walk(links, from, j) && Walk(links, from, j).Some?
    ensures Walk(links, from, n).Some?
    decreases n
  {
    if n <= j {
      if Walk(links, from, n).None? {
        EndedStays(links, from, n, j);
      }
    } else {
      RepeatNeverEnds(links, from, i, j, i + (n - j));
      WalkOn(links, from, j, n - j);
      WalkOn(links, from, i, n - j);
    }
  }

  /** A flow lies on a cycle of prerequisites. */
  ghost predicate OnCycle(links: LinkMap, at: string) {
    exists n: nat :: n > 0 && Walk(links, Some(at), n) == Some(at)
  }

  /** The flows met on the first `n` moves. */
  ghost function Met(links: LinkMap, from: Option<string>, n: nat): set<string> {
    if n == 0 then {} else Met(links, from, n - 1) + SetOf(Walk(links, from, n - 1))
  }

  lemma {:induction false} MetAt(links: LinkMap, from: Option<string>, n: nat, id: string) returns (i: nat)
    requires id in Met(links, from, n)
    ensures i < n && Walk(links, from, i) == Some(id)
  {
    if id in Met(links, from, n - 1) {
      i := MetAt(links, from, n - 1, id);
    } else {
      i := n - 1;
    }
  }

  /** A walk that meets a flow again is on a cycle and never ends. */
  lemma MetAgain(links: LinkMap, from: Option<string>, n: nat, id: string)
    requires Walk(links, from, n) == Some(id) && id in Met(links, from, n)
    ensures OnCycle(links, id) && !ChainEnds(links, from)
  {
    var i := MetAt(links, from, n, id);
    forall k: nat
      ensures Walk(links, from, k).Some?
    {
      RepeatNeverEnds(links, from, i, n, k);
    }
    WalkOn(links, from, i, n - i);
  }

  /** Every flow id a walk can meet. */
  ghost function Mentioned(links: LinkMap, from: Option<string>): set<string> {
    SetOf(from) + set k | k in links && links[k].Some? :: links[k].value
  }

  /**
   * The walk of the source from one flow's prerequisite: it stops with `None` when the chain ends
   * and with a repeated flow otherwise, and it terminates because only finitely many
   * flows are mentioned.
   */
  method WalkPrerequisites(links: LinkMap, from: Option<string>) returns (repeated: Option<string>, ghost length: nat)
    ensures repeated.None? <==> ChainEnds(links, from)
    ensures repeated.None? ==> Walk(links, from, length) == None && |Met(links, from, length)| == length
    ensures repeated.Some? ==> OnCycle(links, repeated.value)
  {
    hide Mentioned, ChainEnds, OnCycle;
    var seen: set<string> := {};
    var cursor := from;
    length := 0;
    MetIsMentioned(links, from, 0);
    while cursor.Some?
      invariant cursor == Walk(links, from, length)
      invariant seen == Met(links, from, length) && |seen| == length
      invariant SetOf(cursor) <= Mentioned(links, from)
      decreases Mentioned(links, from) - seen
    {
      if cursor.value in seen {
        MetAgain(links, from, length, cursor.value);
        return cursor, length;
      }
      seen := seen + {cursor.value};
      MetIsMentioned(links, from, length + 1);
      cursor := if cursor.value in links then links[cursor.value] else None;
      length := length + 1;
      assert cursor == Walk(links, from, length);
    }
    WalkEnds(links, from, length);
    return None, length;
  }

  lemma WalkEnds(links: LinkMap, from: Option<string>, n: nat)
    requires Walk(links, from, n) == None
    ensures ChainEnds(links, from)
  {
  }

  lemma {:induction false} LinkKeys(flows: seq<Flow>)
    ensures Links(flows).Keys == IdSet(FlowIds(flows)) && |Links(flows)| <= |flows|
  {
    if flows != [] {
      var init, last := flows[..|flows| - 1], flows[|flows| - 1];
      LinkKeys(init);
      assert FlowIds(flows) == FlowIds(init) + [last.id];
      assert Links(flows).Keys == Links(init).Keys + {last.id};
    }
  }

  lemma {:induction false} LinkOf(flows: seq<Flow>, i: nat)
    requires i < |flows| && Distinct(FlowIds(flows))
    ensures flows[i].id in Links(flows) && Links(flows)[flows[i].id] == flows[i].prerequisite
  {
    var init := flows[..|flows| - 1];
    if i < |init| {
      assert FlowIds(flows)[i] != FlowIds(flows)[|flows| - 1];
      assert FlowIds(init) == FlowIds(flows)[..|init|];
      LinkOf(init, i);
    }
  }

  lemma {:induction false} MetIsMentioned(links: LinkMap, from: Option<string>, n: nat)
    ensures Met(links, from, n) <= Mentioned(links, from)
    ensures SetOf(Walk(links, from, n)) <= Mentioned(links, from)
  {
    if n > 0 {
      MetIsMentioned(links, from, n - 1);
    }
  }

  /** As long as a walk has not ended it has met a new flow on every move, or it is on a cycle. */
  lemma {:induction false} MetCounts(links: LinkMap, from: Option<string>, n: nat)
    requires n == 0 || Walk(links, from, n - 1).Some?
    requires forall id :: !(id in Met(links, from, n) && OnCycle(links, id))
    ensures |Met(links, from, n)| == n
  {
    if n > 0 {
      MetCounts(links, from, n - 1);
      var id := Walk(links, from, n - 1).value;
      if id in Met(links, from, n - 1) {
        MetAgain(links, from, n - 1, id);
      }
    }
  }

  /** A chain that never ends runs into a cycle. */
  lemma EndlessRunsIntoCycle(links: LinkMap, from: Option<string>)
    requires !ChainEnds(links, from)
    ensures exists id :: id in Mentioned(links, from) && OnCycle(links, id)
  {
    var n := |Mentioned(links, from)| + 1;
    assert Walk(links, from, n - 1).Some?;
    MetIsMentioned(links, from, n);
    if forall id :: !(id in Met(links, from, n) && OnCycle(links, id)) {
      MetCounts(links, from, n);
      Smaller(Met(links, from, n), Mentioned(links, from));
    }
  }

  lemma Smaller<A>(a: set<A>, b: set<A>)
    requires a <= b
    ensures |a| <= |b|
  {
    assert b == a + (b - a);
  }

  lemma CycleIsKnown(links: LinkMap, id: string)
    requires OnCycle(links, id)
    ensures id in links && !ChainEnds(links, links[id])
  {
    var n: nat :| n > 0 && Walk(links, Some(id), n) == Some(id);
    WalkOn(links, Some(id), 1, n - 1);
    if id !in links {
      EndedStays(links, Some(id), 1, n);
    }
    assert Walk(links, Some(id), 1) == links[id];
    forall k: nat
      ensures Walk(links, links[id], k).Some?
    {
      WalkOn(links, Some(id), 1, k);
      RepeatNeverEnds(links, Some(id), 0, n, 1 + k);
    }
  }

  /** Every chain ends exactly when no flow is, directly or indirectly, its own prerequisite. */
  lemma ChainsEndIffAcyclic(flows: seq<Flow>)
    requires Distinct(FlowIds(flows))
    ensures (forall f :: f in flows ==> ChainEnds(Links(flows), f.prerequisite)) <==>
            (forall f :: f in flows ==> !OnCycle(Links(flows), f.id))
  {
    var links := Links(flows);
    LinkKeys(flows);
    forall i | 0 <= i < |flows|
      ensures flows[i].id in links && links[flows[i].id] == flows[i].prerequisite
    {
      LinkOf(flows, i);
    }
    forall f | f in flows && OnCycle(links, f.id)
      ensures !ChainEnds(links, f.prerequisite)
    {
      CycleIsKnown(links, f.id);
    }
    forall f | f in flows && !ChainEnds(links, f.prerequisite)
      ensures exists g :: g in flows && OnCycle(links, g.id)
    {
      EndlessRunsIntoCycle(links, f.prerequisite);
      var id :| OnCycle(links, id);
      CycleIsKnown(links, id);
      var k :| 0 <= k < |flows| && FlowIds(flows)[k] == id;
      assert flows[k] in flows;
    }
  }

  /** A chain of known prerequisites, its own flow included, has at most as many flows as the catalog. */
  lemma ChainFitsCatalog(flows: seq<Flow>, k: nat) returns (n: nat)
    requires k < |flows| && Distinct(FlowIds(flows))
    requires forall f :: f in flows && f.prerequisite.Some? ==> f.prerequisite.value in IdSet(FlowIds(flows))
    requires ChainEnds(Links(flows), flows[k].prerequisite)
    ensures var links, from := Links(flows), flows[k].prerequisite;
            Walk(links, from, n) == None && |Met(links, from, n)| == n && n + 1 <= |flows|
  {
    hide Links, Met, Mentioned, Walk, OnCycle;
    var links, from := Links(flows), flows[k].prerequisite;
    var m: nat :| Walk(links, from, m) == None;
    n := FirstEnd(links, from, m);
    forall id | id in Met(links, from, n)
      ensures !OnCycle(links, id)
    {
      EndedMeetsNoCycle(links, from, n, id);
    }
    MetCounts(links, from, n);
    LinkKeys(flows);
    LinkOf(flows, k);
    KnownLinks(flows);
    assert flows[k] in flows;
    MetIsMentioned(links, from, n);
    OwnFlowNotMet(links, flows[k].id, n);
    Smaller(Met(links, from, n) + {flows[k].id}, links.Keys);
  }

  lemma FirstEnd(links: LinkMap, from: Option<string>, m: nat) returns (n: nat)
    requires Walk(links, from, m) == None
    ensures Walk(links, from, n) == None && (n > 0 ==> Walk(links, from, n - 1).Some?)
  {
    if m > 0 && Walk(links, from, m - 1).None? {
      n := FirstEnd(links, from, m - 1);
    } else {
      n := m;
    }
  }

  /** A chain that ends meets no cycle. */
  lemma EndedMeetsNoCycle(links: LinkMap, from: Option<string>, n: nat, id: string)
    requires Walk(links, from, n) == None && id in Met(links, from, n)
    ensures !OnCycle(links, id)
  {
    var i := MetAt(links, from, n, id);
    if OnCycle(links, id) {
      CycleIsKnown(links, id);
      WalkOn(links, from, i + 1, n - (i + 1));
      assert ChainEnds(links, links[id]);
    }
  }

  /** A flow is not met on its own chain, if that chain ends. */
  lemma OwnFlowNotMet(links: LinkMap, id: string, n: nat)
    requires id in links && Walk(links, links[id], n) == None
    ensures id !in Met(links, links[id], n)
  {
    var from := links[id];
    if id in Met(links, from, n) {
      var i := MetAt(links, from, n, id);
      if from.None? {
        EndedStays(links, from, 0, i);
      }
      assert Walk(links, from, i + 1) == from;
      RepeatNeverEnds(links, from, 0, i + 1, n);
    }
  }

  lemma KnownLinks(flows: seq<Flow>)
    requires Distinct(FlowIds(flows))
    requires forall f :: f in flows && f.prerequisite.Some? ==> f.prerequisite.value in IdSet(FlowIds(flows))
    ensures forall f :: f in flows ==> Mentioned(Links(flows), f.prerequisite) <= Links(flows).Keys
  {
    LinkKeys(flows);
    forall id | id in Links(flows) && Links(flows)[id].Some?
      ensures Links(flows)[id].value in Links(flows)
    {
      var k :| 0 <= k < |flows| && FlowIds(flows)[k] == id;
      LinkOf(flows, k);
      assert flows[k] in flows;
    }
  }

  // ----- the check itself -----

  type Check = Outcome<BlobError>

  /** One loop of the check: the first part that breaks its rule is reported. */
  method CheckEach<A>(ok: A -> bool, why: A -> Reason, xs: seq<A>) returns (r: Check)
    ensures r.Pass? <==> forall x :: x in xs ==> ok(x)
    ensures r.Fail? ==> exists i :: 0 <= i < |xs| && !ok(xs[i]) && (forall j :: 0 <= j < i ==> ok(xs[j]))
                                   && r.error == Configuration(why(xs[i]))
  {
    for i := 0 to |xs|
      invariant forall j :: 0 <= j < i ==> ok(xs[j])
    {
      if !ok(xs[i]) {
        return Fail(Configuration(why(xs[i])));
      }
    }
    return Pass;
  }

  /** `collect_unique_ids`: the ids as a set, or the first blank or repeated one. */
  method CollectUniqueIds(kind: string, ids: seq<string>) returns (r: Result<set<string>, BlobError>)
    ensures r.Ok? <==> UniqueIds(ids)
    ensures r.Ok? ==> r.value == IdSet(ids) && |r.value| == |ids|
  {
    var seen: set<string> := {};
    for i := 0 to |ids|
      invariant AllPresent(ids[..i]) && Distinct(ids[..i])
      invariant seen == IdSet(ids[..i]) && |seen| == i
    {
      if Blank(ids[i]) {
        assert ids[i] in ids;
        return Err(Configuration(BlankField(kind)));
      }
      if ids[i] in seen {
        var j :| 0 <= j < i && ids[..i][j] == ids[i];
        assert ids[j] == ids[i];
        return Err(Configuration(DuplicateId(kind, ids[i])));
      }
      assert ids[..i + 1] == ids[..i] + [ids[i]];
      seen := seen + {ids[i]};
    }
    assert ids[..|ids|] == ids;
    return Ok(seen);
  }

  method CheckPrerequisites(flows: seq<Flow>) returns (r: Check)
    ensures r.Pass? <==> forall f :: f in flows ==> ChainEnds(Links(flows), f.prerequisite)
    ensures r.Fail? ==> exists flow, at ::
              r.error == Configuration(PrerequisiteCycle(flow, at)) && OnCycle(Links(flows), at)
  {
    var links := Links(flows);
    for i := 0 to |flows|
      invariant forall j :: 0 <= j < i ==> ChainEnds(links, flows[j].prerequisite)
    {
      var repeated, length := WalkPrerequisites(links, flows[i].prerequisite);
      if repeated.Some? {
        assert flows[i] in flows;
        return Fail(Configuration(PrerequisiteCycle(flows[i].id, repeated.value)));
      }
    }
    return Pass;
  }

  method CheckHeader(c: Catalog) returns (r: Check)
    ensures r.Pass? <==> HeaderOk(c)
  {
    if c.schemaVersion != SCHEMA_VERSION {
      return Fail(Configuration(UnsupportedSchema));
    }
    if Blank(c.provider) {
      return Fail(Configuration(BlankField("provider")));
    }
    if Blank(c.surface) {
      return Fail(Configuration(BlankField("surface")));
    }
    if Blank(c.baseUrl) {
      return Fail(Configuration(BlankField("base_url")));
    }
    if c.pages == [] {
      return Fail(Configuration(EmptyCatalog("page")));
    }
    if c.elements == [] {
      return Fail(Configuration(EmptyCatalog("element")));
    }
    if c.flows == [] {
      return Fail(Configuration(EmptyCatalog("flow")));
    }
    return Pass;
  }

  method CheckPages(c: Catalog) returns (r: Check)
    ensures r.Pass? <==> PagesOk(c)
  {
    hide UniqueIds, PageOk, ElementOk, Blank, Trim;
    var pageIds := CollectUniqueIds("page", PageIds(c.pages));
    if pageIds.Err? {
      return Fail(pageIds.error);
    }
    :- CheckEach(p => PageOk(p), (p: Page) => InvalidPage(p.id), c.pages);
    if exists id :: id in c.presets && Blank(id) {
      return Fail(Configuration(BlankField("preset id")));
    }
    var elementIds := CollectUniqueIds("element", ElementIds(c.elements));
    if elementIds.Err? {
      return Fail(elementIds.error);
    }
    :- CheckEach(e => ElementOk(e, pageIds.value), (e: Element) => InvalidElement(e.id), c.elements);
    return Pass;
  }

  method CheckEndpoints(c: Catalog) returns (r: Check)
    ensures r.Pass? <==> EndpointsOk(c)
  {
    hide UniqueIds, RequestOk, OperationOk, Blank, Trim;
    var pageIds := IdSet(PageIds(c.pages));
    var requestIds := CollectUniqueIds("request", RequestIds(c.requests));
    if requestIds.Err? {
      return Fail(requestIds.error);
    }
    :- CheckEach(r => RequestOk(r), (r: Request) => InvalidRequest(r.id), c.requests);
    var operationIds := CollectUniqueIds("operation", OperationIds(c.operations));
    if operationIds.Err? {
      return Fail(operationIds.error);
    }
    :- CheckEach(o => OperationOk(o, pageIds), (o: Operation) => InvalidOperation(o.id), c.operations);
    return Pass;
  }

  method CheckFlow(f: Flow, known: Known, presets: set<string>, flowIds: set<string>) returns (r: Check)
    ensures r.Pass? <==> FlowOk(f, known, presets, flowIds)
  {
    hide UniqueIds, HeadOk, InputOk, OutputOk, StepOk, Blank, Trim;
    if !HeadOk(f, known.pages, flowIds) {
      return Fail(Configuration(InvalidFlow(f.id)));
    }
    var inputIds := CollectUniqueIds("flow input", InputIds(f.inputs));
    if inputIds.Err? {
      return Fail(inputIds.error);
    }
    :- CheckEach(i => InputOk(i), (i: Input) => InvalidFlowPart(f.id, i.id), f.inputs);
    :- CheckEach(p => !Blank(p) && p in presets, p => InvalidFlowPart(f.id, p), f.presetRefs);
    var outputIds := CollectUniqueIds("flow output", OutputIds(f.outputs));
    if outputIds.Err? {
      return Fail(outputIds.error);
    }
    :- CheckEach(o => OutputOk(o), (o: Output) => InvalidFlowPart(f.id, o.id), f.outputs);
    var stepIds := CollectUniqueIds("flow step", StepIds(f.steps));
    if stepIds.Err? {
      return Fail(stepIds.error);
    }
    :- CheckEach(s => StepOk(s, known, inputIds.value), (s: Step) => InvalidFlowPart(f.id, s.id), f.steps);
    r := CheckExpectedRequests(f, known.requests);
  }

  method CheckExpectedRequests(f: Flow, requestIds: set<string>) returns (r: Check)
    ensures r.Pass? <==>
              (forall q :: q in f.expectedRequests ==> !Blank(q) && q in requestIds) && Distinct(f.expectedRequests)
  {
    var seen: set<string> := {};
    var xs := f.expectedRequests;
    for i := 0 to |xs|
      invariant forall j :: 0 <= j < i ==> !Blank(xs[j]) && xs[j] in requestIds && xs[j] in seen
      invariant forall q :: q in seen ==> q in xs[..i]
      invariant Distinct(xs[..i])
    {
      if Blank(xs[i]) || xs[i] !in requestIds {
        assert xs[i] in xs;
        return Fail(Configuration(InvalidFlowPart(f.id, xs[i])));
      }
      if xs[i] in seen {
        var j :| 0 <= j < i && xs[..i][j] == xs[i];
        assert xs[j] == xs[i];
        return Fail(Configuration(InvalidFlowPart(f.id, xs[i])));
      }
      assert xs[..i + 1] == xs[..i] + [xs[i]];
      seen := seen + {xs[i]};
    }
    assert xs[..|xs|] == xs;
    return Pass;
  }

  /** The whole check accepts exactly the catalogs that obey every rule. */
  method Validate(c: Catalog) returns (r: Check)
    ensures r.Pass? <==> Accepts(c)
  {
    hide HeaderOk, PagesOk, EndpointsOk, FlowOk, UniqueIds, Links;
    :- CheckHeader(c);
    :- CheckPages(c);
    :- CheckEndpoints(c);
    var known := KnownIds(c);
    var flowIds := CollectUniqueIds("flow", FlowIds(c.flows));
    if flowIds.Err? {
      return Fail(flowIds.error);
    }
    for i := 0 to |c.flows|
      invariant forall j :: 0 <= j < i ==> FlowOk(c.flows[j], known, c.presets.Keys, flowIds.value)
    {
      r := CheckFlow(c.flows[i], known, c.presets.Keys, flowIds.value);
      if r.Fail? {
        assert c.flows[i] in c.flows;
        return r;
      }
    }
    r := CheckPrerequisites(c.flows);
  }
}
