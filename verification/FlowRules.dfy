/**
 * What each rule of the check refuses and what it leaves free, said of catalogs that differ in one part: in
 * an accepted catalog the part may be replaced by, or joined by, exactly the parts the rule allows.
 */
module FlowRules {
  import opened Results
  import opened Text
  import opened Json
  import opened FlowModel
  import opened FlowCheck

  predicate IsPresent(s: string) {
    Trim(s) != ""
  }

  predicate IsPresentIfAny(s: Option<string>) {
    s.Some? ==> IsPresent(s.value)
  }

  predicate ArePresent(ss: seq<string>) {
    forall i :: 0 <= i < |ss| ==> IsPresent(ss[i])
  }

  // ----- lists -----

  lemma ReplacedMembers<A>(xs: seq<A>, k: nat, x: A)
    requires k < |xs|
    ensures x in xs[k := x] && forall y :: y in xs[k := x] ==> y == x || y in xs
  {
    assert xs[k := x][k] == x;
  }

  lemma AddedMembers<A>(xs: seq<A>, x: A)
    ensures forall y :: y in xs + [x] <==> y == x || y in xs
  {
    assert (xs + [x])[|xs|] == x;
  }

  /** Joining a list of distinct present ids, an id has to be present and new. */
  lemma AddedId(ids: seq<string>, id: string)
    requires UniqueIds(ids)
    ensures UniqueIds(ids + [id]) <==> IsPresent(id) && id !in ids
    ensures IdSet(ids + [id]) == IdSet(ids) + {id}
  {
    hide Trim;
    var all := ids + [id];
    AddedMembers(ids, id);
    assert all[|ids|] == id && forall i :: 0 <= i < |ids| ==> all[i] == ids[i];
    if IsPresent(id) && id !in ids {
      forall i, j | 0 <= i < j < |all|
        ensures all[i] != all[j]
      {
        if j == |ids| {
          assert all[i] in ids;
        }
      }
    }
    if id in ids {
      var i :| 0 <= i < |ids| && ids[i] == id;
      assert all[i] == all[|ids|];
    }
  }

  lemma PresentTexts(ss: seq<string>)
    ensures AllPresent(ss) <==> ArePresent(ss)
  {
    hide Trim;
    if AllPresent(ss) {
      forall i | 0 <= i < |ss|
        ensures IsPresent(ss[i])
      {
        assert ss[i] in ss;
      }
    }
  }

  // ----- growing what is known -----

  predicate KnowsMore(a: Known, b: Known) {
    a.pages <= b.pages && a.elements <= b.elements && a.requests <= b.requests && a.operations <= b.operations
  }

  lemma StepStaysOk(s: Step, a: Known, b: Known, inputIds: set<string>, moreIds: set<string>)
    requires KnowsMore(a, b) && inputIds <= moreIds && StepOk(s, a, inputIds)
    ensures StepOk(s, b, moreIds)
  {
    hide Trim, Blank, AllPresent, PresentIfAny;
  }

  lemma FlowStaysOk(f: Flow, a: Known, b: Known, presets: set<string>, morePresets: set<string>,
                    flowIds: set<string>, moreFlowIds: set<string>)
    requires KnowsMore(a, b) && presets <= morePresets && flowIds <= moreFlowIds
    requires FlowOk(f, a, presets, flowIds)
    ensures FlowOk(f, b, morePresets, moreFlowIds)
  {
    hide Blank, UniqueIds, InputOk, OutputOk, StepOk, Distinct;
    forall s | s in f.steps
      ensures StepOk(s, b, IdSet(InputIds(f.inputs)))
    {
      StepStaysOk(s, a, b, IdSet(InputIds(f.inputs)), IdSet(InputIds(f.inputs)));
    }
  }

  lemma FlowsStayOk(c: Catalog, d: Catalog)
    requires FlowsOk(c) && d.flows == c.flows && KnowsMore(KnownIds(c), KnownIds(d)) && c.presets.Keys <= d.presets.Keys
    ensures FlowsOk(d)
  {
    hide FlowOk, UniqueIds, KnownIds;
    forall f | f in d.flows
      ensures FlowOk(f, KnownIds(d), d.presets.Keys, IdSet(FlowIds(d.flows)))
    {
      FlowStaysOk(f, KnownIds(c), KnownIds(d), c.presets.Keys, d.presets.Keys, IdSet(FlowIds(c.flows)),
                  IdSet(FlowIds(d.flows)));
    }
  }

  // ----- the header -----

  lemma HeaderRules(c: Catalog, version: nat, text: string)
    requires Accepts(c)
    ensures Accepts(c.(schemaVersion := version)) <==> version == 1
    ensures Accepts(c.(provider := text)) <==> IsPresent(text)
    ensures Accepts(c.(surface := text)) <==> IsPresent(text)
    ensures Accepts(c.(baseUrl := text)) <==> IsPresent(text)
  {
    hide Trim, UniqueIds, PageOk, ElementOk, RequestOk, OperationOk, FlowOk, ChainEnds, Links, IdSet;
  }

  lemma EmptyCatalogsAreRefused(c: Catalog)
    ensures !Accepts(c.(pages := [])) && !Accepts(c.(elements := [])) && !Accepts(c.(flows := []))
  {
    hide PagesOk, EndpointsOk, FlowsOk, Blank, ChainEnds, Links;
  }

  lemma PresetRule(c: Catalog, id: string, v: Value)
    requires Accepts(c)
    ensures Accepts(c.(presets := c.presets[id := v])) <==> IsPresent(id)
  {
    hide Trim, UniqueIds, PageOk, ElementOk, RequestOk, OperationOk, FlowsOk, ChainEnds, Links, IdSet;
    var d := c.(presets := c.presets[id := v]);
    FlowsStayOk(c, d);
    assert id in d.presets;
  }

  // ----- pages -----

  predicate PageMayBe(p: Page) {
    IsPresent(p.title) && p.urlPatterns != [] && ArePresent(p.urlPatterns)
  }

  lemma PageIsOk(p: Page)
    ensures PageOk(p) <==> IsPresent(p.id) && PageMayBe(p)
  {
    hide Trim;
    PresentTexts(p.urlPatterns);
  }

  /** A page under the same id has to have a title and patterns, all present, and nothing more. */
  lemma PageReplaced(c: Catalog, k: nat, p: Page)
    requires Accepts(c) && k < |c.pages| && p.id == c.pages[k].id
    ensures Accepts(c.(pages := c.pages[k := p])) <==> PageMayBe(p)
  {
    hide Trim, UniqueIds, PageOk, PageMayBe, ElementOk, EndpointsOk, FlowsOk, ChainEnds, Links, IdSet;
    var d := c.(pages := c.pages[k := p]);
    assert PageIds(d.pages) == PageIds(c.pages);
    ReplacedMembers(c.pages, k, p);
    assert c.pages[k] in c.pages;
    PageIsOk(c.pages[k]);
    PageIsOk(p);
    SameKnownSameRules(c, d);
  }

  /** Catalogs that know the same ids and share the rest obey the rules of the rest alike. */
  lemma SameKnownSameRules(c: Catalog, d: Catalog)
    requires KnownIds(c) == KnownIds(d) && c.flows == d.flows && c.presets == d.presets
    ensures FlowsOk(c) <==> FlowsOk(d)
    ensures c.requests == d.requests && c.operations == d.operations ==> (EndpointsOk(c) <==> EndpointsOk(d))
  {
    hide FlowOk, UniqueIds, RequestOk, OperationOk, KnownIds;
  }

  lemma ElementsStayOk(c: Catalog, pageIds: set<string>)
    requires PagesOk(c) && KnownIds(c).pages <= pageIds
    ensures forall e :: e in c.elements ==> ElementOk(e, pageIds)
  {
    hide UniqueIds, PageOk, SelectorOk, Blank, IdSet;
  }

  /** A further page needs an id of its own, and is bound by the same rules. */
  lemma PageAdded(c: Catalog, p: Page)
    requires Accepts(c)
    ensures Accepts(c.(pages := c.pages + [p])) <==> IsPresent(p.id) && p.id !in PageIds(c.pages) && PageMayBe(p)
  {
    hide Trim, UniqueIds, PageOk, PageMayBe, ElementOk, EndpointsOk, FlowsOk, ChainEnds, Links, IdSet;
    var d := c.(pages := c.pages + [p]);
    assert PageIds(d.pages) == PageIds(c.pages) + [p.id];
    AddedId(PageIds(c.pages), p.id);
    AddedMembers(c.pages, p);
    PageIsOk(p);
    ElementsStayOk(c, KnownIds(d).pages);
    EndpointsStayOk(c, d);
    FlowsStayOk(c, d);
  }

  lemma EndpointsStayOk(c: Catalog, d: Catalog)
    requires EndpointsOk(c) && d.requests == c.requests && d.operations == c.operations
    requires KnownIds(c).pages <= KnownIds(d).pages
    ensures EndpointsOk(d)
  {
    hide UniqueIds, RequestOk, Blank, KnownIds;
  }

  // ----- elements -----

  predicate SelectorMayBe(s: Selector) {
    IsPresent(s.value) && IsPresentIfAny(s.textContains)
  }

  predicate ElementMayBe(c: Catalog, e: Element) {
    && e.page in PageIds(c.pages) && IsPresent(e.role) && IsPresentIfAny(e.frame)
    && e.selectors != [] && forall i :: 0 <= i < |e.selectors| ==> SelectorMayBe(e.selectors[i])
  }

  lemma ElementIsOk(c: Catalog, e: Element)
    requires IsPresent(e.id) && PagesOk(c)
    ensures ElementOk(e, KnownIds(c).pages) <==> ElementMayBe(c, e)
  {
    hide Trim, ElementIds, RequestIds, OperationIds, PageOk, SelectorOk, SelectorMayBe;
    forall i | 0 <= i < |e.selectors|
      ensures e.selectors[i] in e.selectors && (SelectorOk(e.selectors[i]) <==> SelectorMayBe(e.selectors[i]))
    {
      SelectorIsOk(e.selectors[i]);
    }
    if ElementMayBe(c, e) {
      assert IsPresent(e.page) by {
        var i :| 0 <= i < |PageIds(c.pages)| && PageIds(c.pages)[i] == e.page;
        assert PageIds(c.pages)[i] in PageIds(c.pages);
      }
    }
  }

  lemma SelectorIsOk(s: Selector)
    ensures SelectorOk(s) <==> SelectorMayBe(s)
  {
    hide Trim;
  }

  /** An element under the same id has to stand on a known page, with a role and selectors, all present. */
  lemma ElementReplaced(c: Catalog, k: nat, e: Element)
    requires Accepts(c) && k < |c.elements| && e.id == c.elements[k].id
    ensures Accepts(c.(elements := c.elements[k := e])) <==> ElementMayBe(c, e)
  {
    hide Blank, UniqueIds, PageOk, ElementOk, ElementMayBe, EndpointsOk, FlowsOk, ChainEnds, Links, IdSet;
    var d := c.(elements := c.elements[k := e]);
    assert ElementIds(d.elements) == ElementIds(c.elements);
    ReplacedMembers(c.elements, k, e);
    assert c.elements[k] in c.elements;
    ElementIdIsPresent(c, c.elements[k]);
    ElementIsOk(c, e);
    SameKnownSameRules(c, d);
  }

  lemma ElementIdIsPresent(c: Catalog, e: Element)
    requires PagesOk(c) && e in c.elements
    ensures IsPresent(e.id)
  {
    hide Trim, UniqueIds, PageOk, SelectorOk;
  }

  lemma ElementAdded(c: Catalog, e: Element)
    requires Accepts(c)
    ensures Accepts(c.(elements := c.elements + [e])) <==>
            IsPresent(e.id) && e.id !in ElementIds(c.elements) && ElementMayBe(c, e)
  {
    hide Blank, UniqueIds, PageOk, ElementOk, ElementMayBe, EndpointsOk, FlowsOk, ChainEnds, Links, IdSet;
    var d := c.(elements := c.elements + [e]);
    assert ElementIds(d.elements) == ElementIds(c.elements) + [e.id];
    AddedId(ElementIds(c.elements), e.id);
    AddedMembers(c.elements, e);
    if IsPresent(e.id) {
      ElementIsOk(c, e);
    }
    EndpointsStayOk(c, d);
    FlowsStayOk(c, d);
  }

  // ----- requests and operations -----

  predicate RequestMayBe(r: Request) {
    && IsPresent(r.httpMethod) && IsPresent(r.urlPattern) && r.successCodes != []
    && (forall i :: 0 <= i < |r.requiredHeaders| ==>
          IsPresent(r.requiredHeaders[i].name) && IsPresentIfAny(r.requiredHeaders[i].valueTemplate))
    && ArePresent(r.requiredFields)
  }

  lemma RequestIsOk(r: Request)
    ensures RequestOk(r) <==> IsPresent(r.id) && RequestMayBe(r)
  {
    hide Trim;
    PresentTexts(r.requiredFields);
    if RequestOk(r) {
      forall i | 0 <= i < |r.requiredHeaders|
        ensures IsPresent(r.requiredHeaders[i].name) && IsPresentIfAny(r.requiredHeaders[i].valueTemplate)
      {
        assert r.requiredHeaders[i] in r.requiredHeaders;
      }
    }
  }

  /** A request under the same id has to have a method, a pattern and a success code, and present headers and fields. */
  lemma RequestReplaced(c: Catalog, k: nat, r: Request)
    requires Accepts(c) && k < |c.requests| && r.id == c.requests[k].id
    ensures Accepts(c.(requests := c.requests[k := r])) <==> RequestMayBe(r)
  {
    hide Trim, UniqueIds, PagesOk, RequestOk, RequestMayBe, OperationOk, FlowsOk, ChainEnds, Links, IdSet;
    var d := c.(requests := c.requests[k := r]);
    assert RequestIds(d.requests) == RequestIds(c.requests);
    ReplacedMembers(c.requests, k, r);
    assert c.requests[k] in c.requests;
    RequestIsOk(c.requests[k]);
    RequestIsOk(r);
    SameKnownSameRules(c, d);
    PagesOnlyKnowPages(c, d);
  }

  lemma PagesOnlyKnowPages(c: Catalog, d: Catalog)
    requires c.pages == d.pages && c.elements == d.elements && c.presets == d.presets
    ensures PagesOk(c) <==> PagesOk(d)
  {
    hide UniqueIds, PageOk, ElementOk, Blank;
  }

  lemma RequestAdded(c: Catalog, r: Request)
    requires Accepts(c)
    ensures Accepts(c.(requests := c.requests + [r])) <==>
            IsPresent(r.id) && r.id !in RequestIds(c.requests) && RequestMayBe(r)
  {
    hide Trim, UniqueIds, PagesOk, RequestOk, RequestMayBe, OperationOk, FlowsOk, ChainEnds, Links, IdSet;
    var d := c.(requests := c.requests + [r]);
    assert RequestIds(d.requests) == RequestIds(c.requests) + [r.id];
    AddedId(RequestIds(c.requests), r.id);
    AddedMembers(c.requests, r);
    RequestIsOk(r);
    FlowsStayOk(c, d);
    PagesOnlyKnowPages(c, d);
  }

  predicate OperationMayBe(c: Catalog, o: Operation) {
    IsPresent(o.source) && IsPresentIfAny(o.frame) && (o.page.Some? ==> o.page.value in PageIds(c.pages))
  }

  lemma OperationIsOk(c: Catalog, o: Operation)
    ensures OperationOk(o, KnownIds(c).pages) <==> IsPresent(o.id) && OperationMayBe(c, o)
  {
    hide Trim, PageIds, ElementIds, RequestIds, OperationIds;
  }

  /** An operation under the same id has to have a source, and a known page if it names one. */
  lemma OperationReplaced(c: Catalog, k: nat, o: Operation)
    requires Accepts(c) && k < |c.operations| && o.id == c.operations[k].id
    ensures Accepts(c.(operations := c.operations[k := o])) <==> OperationMayBe(c, o)
  {
    hide Trim, UniqueIds, PagesOk, RequestOk, OperationOk, OperationMayBe, FlowsOk, ChainEnds, Links, IdSet;
    var d := c.(operations := c.operations[k := o]);
    assert OperationIds(d.operations) == OperationIds(c.operations);
    ReplacedMembers(c.operations, k, o);
    assert c.operations[k] in c.operations;
    OperationIsOk(c, c.operations[k]);
    OperationIsOk(c, o);
    SameKnownSameRules(c, d);
    PagesOnlyKnowPages(c, d);
  }

  lemma OperationAdded(c: Catalog, o: Operation)
    requires Accepts(c)
    ensures Accepts(c.(operations := c.operations + [o])) <==>
            IsPresent(o.id) && o.id !in OperationIds(c.operations) && OperationMayBe(c, o)
  {
    hide Trim, UniqueIds, PagesOk, RequestOk, OperationOk, OperationMayBe, FlowsOk, ChainEnds, Links, IdSet;
    var d := c.(operations := c.operations + [o]);
    assert OperationIds(d.operations) == OperationIds(c.operations) + [o.id];
    AddedId(OperationIds(c.operations), o.id);
    AddedMembers(c.operations, o);
    OperationIsOk(c, o);
    FlowsStayOk(c, d);
    PagesOnlyKnowPages(c, d);
  }

  // ----- flows -----

  lemma {:induction false} SameLinks(flows: seq<Flow>, j: nat, g: Flow)
    requires j < |flows| && g.id == flows[j].id && g.prerequisite == flows[j].prerequisite
    ensures Links(flows[j := g]) == Links(flows)
  {
    var init := flows[..|flows| - 1];
    if j < |flows| - 1 {
      assert flows[j := g][..|flows| - 1] == init[j := g];
      SameLinks(init, j, g);
    } else {
      assert flows[j := g][..|flows| - 1] == init;
    }
  }

  ghost predicate FlowObeys(c: Catalog, f: Flow) {
    FlowOk(f, KnownIds(c), c.presets.Keys, IdSet(FlowIds(c.flows)))
  }

  /** A flow may be replaced by one with the same id and prerequisite exactly when that one obeys the rules. */
  lemma FlowReplaced(c: Catalog, j: nat, g: Flow)
    requires Accepts(c) && j < |c.flows| && g.id == c.flows[j].id && g.prerequisite == c.flows[j].prerequisite
    ensures FlowObeys(c, c.flows[j])
    ensures Accepts(c.(flows := c.flows[j := g])) <==> FlowObeys(c, g)
  {
    hide Blank, UniqueIds, PagesOk, EndpointsOk, FlowOk, ChainEnds, Links, IdSet, KnownIds;
    var d := c.(flows := c.flows[j := g]);
    assert FlowIds(d.flows) == FlowIds(c.flows);
    ReplacedMembers(c.flows, j, g);
    assert c.flows[j] in c.flows;
    SameLinks(c.flows, j, g);
    SameParts(c, d);
  }

  lemma SameParts(c: Catalog, d: Catalog)
    requires d == c.(flows := d.flows)
    ensures KnownIds(d) == KnownIds(c) && (PagesOk(d) <==> PagesOk(c)) && (EndpointsOk(d) <==> EndpointsOk(c))
  {
    hide UniqueIds, PageOk, ElementOk, RequestOk, OperationOk, Blank;
  }

  lemma FlowTextRules(c: Catalog, j: nat, text: string)
    requires Accepts(c) && j < |c.flows|
    ensures Accepts(c.(flows := c.flows[j := c.flows[j].(title := text)])) <==> IsPresent(text)
    ensures Accepts(c.(flows := c.flows[j := c.flows[j].(purpose := text)])) <==> IsPresent(text)
  {
    hide Accepts, Trim, UniqueIds, InputOk, OutputOk, StepOk, IdSet, KnownIds;
    FlowReplaced(c, j, c.flows[j].(title := text));
    FlowReplaced(c, j, c.flows[j].(purpose := text));
  }

  /** A flow starts on a known page. */
  lemma StartPageRule(c: Catalog, j: nat, id: string)
    requires Accepts(c) && j < |c.flows|
    ensures Accepts(c.(flows := c.flows[j := c.flows[j].(startPage := id)])) <==> id in PageIds(c.pages)
  {
    hide Accepts, Blank, UniqueIds, InputOk, OutputOk, StepOk;
    FlowReplaced(c, j, c.flows[j].(startPage := id));
  }

  lemma StepsAreNeeded(c: Catalog, j: nat)
    requires Accepts(c) && j < |c.flows|
    ensures !Accepts(c.(flows := c.flows[j := c.flows[j].(steps := [])]))
  {
    hide Accepts, Blank, UniqueIds, InputOk, OutputOk, StepOk, IdSet, KnownIds;
    FlowReplaced(c, j, c.flows[j].(steps := []));
  }

  lemma PresetIdsArePresent(c: Catalog)
    requires Accepts(c)
    ensures forall id :: id in c.presets ==> !Blank(id)
  {
    hide UniqueIds, PageOk, ElementOk, Blank, HeaderOk, EndpointsOk, FlowsOk, ChainEnds, Links;
  }

  /** A flow refers to known presets only, as often as it likes. */
  lemma PresetRefsRule(c: Catalog, j: nat, refs: seq<string>)
    requires Accepts(c) && j < |c.flows|
    ensures Accepts(c.(flows := c.flows[j := c.flows[j].(presetRefs := refs)])) <==>
            forall i :: 0 <= i < |refs| ==> refs[i] in c.presets
  {
    hide Accepts, Blank, UniqueIds, InputOk, OutputOk, StepOk, IdSet, KnownIds;
    FlowReplaced(c, j, c.flows[j].(presetRefs := refs));
    PresetIdsArePresent(c);
    if forall p :: p in refs ==> p in c.presets {
      assert forall i :: 0 <= i < |refs| ==> refs[i] in refs;
    }
    if !(forall p :: p in refs ==> p in c.presets) {
      var p :| p in refs && p !in c.presets;
      var i :| 0 <= i < |refs| && refs[i] == p;
    }
  }

  lemma RequestIdsArePresent(c: Catalog)
    requires Accepts(c)
    ensures forall id :: id in KnownIds(c).requests <==> id in RequestIds(c.requests)
    ensures forall id :: id in RequestIds(c.requests) ==> !Blank(id)
  {
    hide RequestOk, OperationOk, Blank, PageIds, ElementIds, OperationIds, HeaderOk, PagesOk, FlowsOk, ChainEnds, Links;
  }

  /** A flow expects known requests, each once. */
  lemma ExpectedRequestsRule(c: Catalog, j: nat, ids: seq<string>)
    requires Accepts(c) && j < |c.flows|
    ensures Accepts(c.(flows := c.flows[j := c.flows[j].(expectedRequests := ids)])) <==>
            Distinct(ids) && forall i :: 0 <= i < |ids| ==> ids[i] in RequestIds(c.requests)
  {
    hide Accepts, Blank, UniqueIds, Distinct, InputOk, OutputOk, StepOk, IdSet, KnownIds, RequestIds;
    FlowReplaced(c, j, c.flows[j].(expectedRequests := ids));
    RequestIdsArePresent(c);
    if forall p :: p in ids ==> p in RequestIds(c.requests) {
      assert forall i :: 0 <= i < |ids| ==> ids[i] in ids;
    } else {
      var p :| p in ids && p !in RequestIds(c.requests);
      var i :| 0 <= i < |ids| && ids[i] == p;
    }
  }

  // ----- inputs and outputs -----

  predicate InputMayBe(i: Input) {
    IsPresent(i.labelText) && IsPresentIfAny(i.description)
  }

  lemma InputIsOk(i: Input)
    ensures InputOk(i) <==> IsPresent(i.id) && InputMayBe(i)
  {
    hide Trim;
  }

  predicate OutputMayBe(o: Output) {
    && IsPresent(o.source) && ArePresent(o.fallbackSources)
    && (o.kind.RequestHeaders? ==> o.headerNames != [] && ArePresent(o.headerNames))
    && IsPresentIfAny(o.frame) && IsPresentIfAny(o.description)
  }

  lemma OutputIsOk(o: Output)
    ensures OutputOk(o) <==> IsPresent(o.id) && OutputMayBe(o)
  {
    hide Trim, AllPresent, ArePresent;
    PresentTexts(o.fallbackSources);
    PresentTexts(o.headerNames);
  }

  lemma InputReplaced(c: Catalog, j: nat, k: nat, x: Input)
    requires Accepts(c) && j < |c.flows| && k < |c.flows[j].inputs| && x.id == c.flows[j].inputs[k].id
    ensures Accepts(c.(flows := c.flows[j := c.flows[j].(inputs := c.flows[j].inputs[k := x])])) <==> InputMayBe(x)
  {
    hide Accepts, Blank, UniqueIds, InputOk, InputMayBe, OutputOk, StepOk, IdSet, KnownIds;
    var f := c.flows[j];
    var g := f.(inputs := f.inputs[k := x]);
    FlowReplaced(c, j, g);
    assert InputIds(g.inputs) == InputIds(f.inputs);
    ReplacedMembers(f.inputs, k, x);
    assert f.inputs[k] in f.inputs;
    InputIsOk(f.inputs[k]);
    InputIsOk(x);
  }

  lemma InputAdded(c: Catalog, j: nat, x: Input)
    requires Accepts(c) && j < |c.flows|
    ensures Accepts(c.(flows := c.flows[j := c.flows[j].(inputs := c.flows[j].inputs + [x])])) <==>
            IsPresent(x.id) && x.id !in InputIds(c.flows[j].inputs) && InputMayBe(x)
  {
    hide Accepts, Trim, UniqueIds, InputOk, InputMayBe, OutputOk, StepOk, IdSet, KnownIds;
    var f := c.flows[j];
    var g := f.(inputs := f.inputs + [x]);
    FlowReplaced(c, j, g);
    assert InputIds(g.inputs) == InputIds(f.inputs) + [x.id];
    AddedId(InputIds(f.inputs), x.id);
    AddedMembers(f.inputs, x);
    InputIsOk(x);
    forall s | s in f.steps
      ensures StepOk(s, KnownIds(c), IdSet(InputIds(g.inputs)))
    {
      StepStaysOk(s, KnownIds(c), KnownIds(c), IdSet(InputIds(f.inputs)), IdSet(InputIds(g.inputs)));
    }
  }

  lemma OutputReplaced(c: Catalog, j: nat, k: nat, o: Output)
    requires Accepts(c) && j < |c.flows| && k < |c.flows[j].outputs| && o.id == c.flows[j].outputs[k].id
    ensures Accepts(c.(flows := c.flows[j := c.flows[j].(outputs := c.flows[j].outputs[k := o])])) <==> OutputMayBe(o)
  {
    hide Accepts, Blank, UniqueIds, InputOk, OutputOk, OutputMayBe, StepOk, IdSet, KnownIds;
    var f := c.flows[j];
    var g := f.(outputs := f.outputs[k := o]);
    FlowReplaced(c, j, g);
    assert OutputIds(g.outputs) == OutputIds(f.outputs);
    ReplacedMembers(f.outputs, k, o);
    assert f.outputs[k] in f.outputs;
    OutputIsOk(f.outputs[k]);
    OutputIsOk(o);
  }

  lemma OutputAdded(c: Catalog, j: nat, o: Output)
    requires Accepts(c) && j < |c.flows|
    ensures Accepts(c.(flows := c.flows[j := c.flows[j].(outputs := c.flows[j].outputs + [o])])) <==>
            IsPresent(o.id) && o.id !in OutputIds(c.flows[j].outputs) && OutputMayBe(o)
  {
    hide Accepts, Trim, UniqueIds, InputOk, OutputOk, OutputMayBe, StepOk, IdSet, KnownIds;
    var f := c.flows[j];
    var g := f.(outputs := f.outputs + [o]);
    FlowReplaced(c, j, g);
    assert OutputIds(g.outputs) == OutputIds(f.outputs) + [o.id];
    AddedId(OutputIds(f.outputs), o.id);
    AddedMembers(f.outputs, o);
    OutputIsOk(o);
  }

  // ----- steps -----

  /** What a step of each kind may name and carry. */
  predicate StepMayBe(c: Catalog, f: Flow, s: Step) {
    var elements := ElementIds(c.elements);
    match s
    case Navigate(_, url, page) => IsPresent(url) && (page.Some? ==> page.value in PageIds(c.pages))
    case Click(_, element, _) => element in elements
    case SetInput(_, element, value, _) => element in elements && IsPresent(value)
    case InvokeOperation(_, operation) => operation in OperationIds(c.operations)
    case SetFiles(_, element, inputRef) => element in elements && inputRef in InputIds(f.inputs)
    case DispatchEvents(_, element, events) => element in elements && events != [] && ArePresent(events)
    case ValidateVisualLayout(_, targets, instruction, rules, _) =>
      && targets != []
      && (forall i :: 0 <= i < |targets| ==> targets[i].element in elements && IsPresent(targets[i].role))
      && IsPresentIfAny(instruction) && ArePresent(rules)
    case SolveVisualCaptcha(_, image, input, inputId, refresh, t) =>
      && image in elements && input in elements && (refresh.Some? ==> refresh.value in elements) && IsPresent(inputId)
      && t.expectedLength != Some(0) && t.maxAttempts != Some(0)
      && t.dispatchEvents != [] && ArePresent(t.dispatchEvents)
      && IsPresentIfAny(t.llmSystemPrompt) && IsPresentIfAny(t.llmPromptTemplate)
    case WaitForRequest(_, request, _, _) => request in RequestIds(c.requests)
    case WaitForPage(_, page, _) => page in PageIds(c.pages)
    case Wait(_, duration) => duration > 0
  }

  ghost predicate IdsArePresent(ids: seq<string>) {
    forall id :: id in ids ==> IsPresent(id)
  }

  lemma UniqueIdsArePresent(ids: seq<string>)
    requires UniqueIds(ids)
    ensures IdsArePresent(ids)
  {
    hide Trim;
  }

  lemma StepIsOk(c: Catalog, f: Flow, s: Step)
    requires IdsArePresent(ElementIds(c.elements)) && IdsArePresent(InputIds(f.inputs))
    ensures StepOk(s, KnownIds(c), IdSet(InputIds(f.inputs))) <==> StepMayBe(c, f, s)
  {
    hide Trim, PageIds, ElementIds, RequestIds, OperationIds, InputIds, AllPresent, ArePresent;
    match s
    case DispatchEvents(_, _, events) => PresentTexts(events);
    case ValidateVisualLayout(_, _, _, _, _) => LayoutIsOk(c, f, s);
    case SolveVisualCaptcha(_, _, _, _, _, settings) => PresentTexts(settings.dispatchEvents);
    case _ =>
  }

  lemma LayoutIsOk(c: Catalog, f: Flow, s: Step)
    requires IdsArePresent(ElementIds(c.elements)) && s.ValidateVisualLayout?
    ensures StepOk(s, KnownIds(c), IdSet(InputIds(f.inputs))) <==> StepMayBe(c, f, s)
  {
    hide Trim, PageIds, ElementIds, RequestIds, OperationIds, InputIds, AllPresent, ArePresent;
    PresentTexts(s.relationshipRules);
    assert forall i :: 0 <= i < |s.targets| ==> s.targets[i] in s.targets;
  }

  lemma CatalogIdsArePresent(c: Catalog, f: Flow)
    requires Accepts(c) && FlowObeys(c, f)
    ensures IdsArePresent(ElementIds(c.elements)) && IdsArePresent(InputIds(f.inputs))
  {
    hide UniqueIds, HeaderOk, PageOk, ElementOk, EndpointsOk, FlowsOk, HeadOk, InputOk, OutputOk, StepOk, ChainEnds,
         Links, IdSet, KnownIds, IdsArePresent, Blank;
    UniqueIdsArePresent(ElementIds(c.elements));
    UniqueIdsArePresent(InputIds(f.inputs));
  }

  /** A step under the same id may be any step that names known things and carries what its kind asks for. */
  lemma StepReplaced(c: Catalog, j: nat, k: nat, t: Step)
    requires Accepts(c) && j < |c.flows| && k < |c.flows[j].steps| && t.id == c.flows[j].steps[k].id
    ensures Accepts(c.(flows := c.flows[j := c.flows[j].(steps := c.flows[j].steps[k := t])])) <==>
            StepMayBe(c, c.flows[j], t)
  {
    hide Accepts, Blank, UniqueIds, InputOk, OutputOk, StepOk, StepMayBe, IdSet, KnownIds, IdsArePresent;
    var f := c.flows[j];
    var g := f.(steps := f.steps[k := t]);
    FlowReplaced(c, j, g);
    CatalogIdsArePresent(c, f);
    assert StepIds(g.steps) == StepIds(f.steps);
    ReplacedMembers(f.steps, k, t);
    StepIsOk(c, f, t);
  }

  lemma StepAdded(c: Catalog, j: nat, t: Step)
    requires Accepts(c) && j < |c.flows|
    ensures Accepts(c.(flows := c.flows[j := c.flows[j].(steps := c.flows[j].steps + [t])])) <==>
            IsPresent(t.id) && t.id !in StepIds(c.flows[j].steps) && StepMayBe(c, c.flows[j], t)
  {
    hide Accepts, Trim, UniqueIds, InputOk, OutputOk, StepOk, StepMayBe, IdSet, KnownIds, IdsArePresent;
    var f := c.flows[j];
    var g := f.(steps := f.steps + [t]);
    FlowReplaced(c, j, g);
    CatalogIdsArePresent(c, f);
    assert StepIds(g.steps) == StepIds(f.steps) + [t.id];
    AddedId(StepIds(f.steps), t.id);
    AddedMembers(f.steps, t);
    StepIsOk(c, f, t);
  }

  // ----- prerequisites -----

  lemma {:induction false} ReplacedLinks(flows: seq<Flow>, j: nat, g: Flow)
    requires j < |flows| && g.id == flows[j].id && Distinct(FlowIds(flows))
    ensures Links(flows[j := g]) == Links(flows)[g.id := g.prerequisite]
  {
    var init, last := flows[..|flows| - 1], flows[|flows| - 1];
    assert FlowIds(init) == FlowIds(flows)[..|init|];
    if j < |init| {
      assert flows[j := g][..|init|] == init[j := g];
      ReplacedLinks(init, j, g);
      assert FlowIds(flows)[j] != FlowIds(flows)[|init|];
    } else {
      assert flows[j := g][..|init|] == init;
    }
  }

  /** A walk that does not meet `at` does not see where `at` leads. */
  lemma {:induction false} WalkIsUnmoved(links: LinkMap, at: string, to: Option<string>, from: Option<string>, n: nat)
    requires forall i :: 0 <= i < n ==> Walk(links, from, i) != Some(at)
    ensures Walk(links[at := to], from, n) == Walk(links, from, n)
  {
    if n > 0 {
      WalkIsUnmoved(links, at, to, from, n - 1);
    }
  }

  lemma FirstMeeting(links: LinkMap, from: Option<string>, at: string, n: nat) returns (k: nat)
    requires Walk(links, from, n) == Some(at)
    ensures k <= n && Walk(links, from, k) == Some(at) && forall i :: 0 <= i < k ==> Walk(links, from, i) != Some(at)
    decreases n
  {
    if i: nat :| i < n && Walk(links, from, i) == Some(at) {
      k := FirstMeeting(links, from, at, i);
    } else {
      k := n;
    }
  }

  /** The walk along prerequisites that starts at `from` comes to `at`. */
  ghost predicate Meets(links: LinkMap, from: Option<string>, at: string) {
    exists n: nat :: Walk(links, from, n) == Some(at)
  }

  /** When what `at` leads to ends and does not come back to it, every chain that ended still ends. */
  lemma ChainsStillEnd(links: LinkMap, at: string, to: Option<string>, from: Option<string>)
    requires ChainEnds(links, to) && !Meets(links, to, at) && ChainEnds(links, from)
    ensures ChainEnds(links[at := to], from)
  {
    var moved := links[at := to];
    var n: nat :| Walk(links, from, n) == None;
    var m: nat :| Walk(links, to, m) == None;
    if i: nat :| i < n && Walk(links, from, i) == Some(at) {
      var k := FirstMeeting(links, from, at, i);
      WalkIsUnmoved(links, at, to, from, k);
      WalkIsUnmoved(links, at, to, to, m);
      assert Walk(moved, Some(at), 1) == to by {
        assert Walk(moved, Some(at), 0) == Some(at);
      }
      WalkOn(moved, from, k, 1);
      WalkOn(moved, from, k + 1, m);
      assert Walk(moved, from, k + 1 + m) == None;
    } else {
      WalkIsUnmoved(links, at, to, from, n);
    }
  }

  /** A flow that leads to something that comes back to it lies on a cycle. */
  lemma ComingBackIsACycle(links: LinkMap, at: string, to: Option<string>)
    requires Meets(links, to, at)
    ensures OnCycle(links[at := to], at)
  {
    var moved := links[at := to];
    var n: nat :| Walk(links, to, n) == Some(at);
    var k := FirstMeeting(links, to, at, n);
    WalkIsUnmoved(links, at, to, to, k);
    assert Walk(moved, Some(at), 1) == to by {
      assert Walk(moved, Some(at), 0) == Some(at);
    }
    WalkOn(moved, Some(at), 1, k);
  }

  lemma FlowIdsAreDistinct(c: Catalog)
    requires Accepts(c)
    ensures Distinct(FlowIds(c.flows)) && UniqueIds(FlowIds(c.flows))
  {
    hide HeaderOk, PagesOk, EndpointsOk, FlowOk, ChainEnds, Links, AllPresent, Distinct;
  }

  /**
   * A flow may have any known flow as its prerequisite whose own prerequisites do not lead back to it; and
   * it may have none.
   */
  lemma PrerequisiteRule(c: Catalog, j: nat, p: string)
    requires Accepts(c) && j < |c.flows|
    ensures Accepts(c.(flows := c.flows[j := c.flows[j].(prerequisite := None)]))
    ensures Accepts(c.(flows := c.flows[j := c.flows[j].(prerequisite := Some(p))])) <==>
            p in FlowIds(c.flows) && !Meets(Links(c.flows), Some(p), c.flows[j].id)
  {
    hide Accepts, ChainEnds, Links, OnCycle;
    RetargetedChains(c, j, None);
    NothingMeets(c, c.flows[j].id);
    RetargetedChains(c, j, Some(p));
    FlowIdsAreDistinct(c);
    if p in FlowIds(c.flows) {
      KnownChainEnds(c, p);
    }
  }

  lemma NothingMeets(c: Catalog, id: string)
    ensures !Meets(Links(c.flows), None, id) && ChainEnds(Links(c.flows), None)
  {
    hide Links;
    assert Walk(Links(c.flows), None, 0) == None;
    forall n: nat
      ensures Walk(Links(c.flows), None, n) == None
    {
      NothingLeads(Links(c.flows), n);
    }
  }

  lemma {:induction false} NothingLeads(links: LinkMap, n: nat)
    ensures Walk(links, None, n) == None
  {
    if n > 0 {
      NothingLeads(links, n - 1);
    }
  }

  lemma KnownChainEnds(c: Catalog, p: string)
    requires Accepts(c) && p in FlowIds(c.flows)
    ensures ChainEnds(Links(c.flows), Some(p))
  {
    hide HeaderOk, PagesOk, EndpointsOk, FlowOk, Links;
    var i :| 0 <= i < |FlowIds(c.flows)| && FlowIds(c.flows)[i] == p;
    LinkOf(c.flows, i);
    assert c.flows[i] in c.flows;
    var links := Links(c.flows);
    var n: nat :| Walk(links, c.flows[i].prerequisite, n) == None;
    assert Walk(links, Some(p), 1) == c.flows[i].prerequisite by {
      assert Walk(links, Some(p), 0) == Some(p);
    }
    WalkOn(links, Some(p), 1, n);
  }

  /** A prerequisite that is unknown or leads back is refused; a known one that ends and does not lead back is not. */
  lemma RetargetedChains(c: Catalog, j: nat, to: Option<string>)
    requires Accepts(c) && j < |c.flows|
    ensures var d := c.(flows := c.flows[j := c.flows[j].(prerequisite := to)]);
            var links, id := Links(c.flows), c.flows[j].id;
            && (to.Some? && to.value !in FlowIds(c.flows) ==> !Accepts(d))
            && (Meets(links, to, id) ==> !Accepts(d))
            && ((to.Some? ==> to.value in FlowIds(c.flows)) && ChainEnds(links, to) && !Meets(links, to, id) ==>
                  Accepts(d))
  {
    hide Blank, PagesOk, EndpointsOk, FlowsOk, ChainEnds, Links, OnCycle, Walk, Distinct, FlowIds;
    var f := c.flows[j];
    OwnFlowIsMet(Links(c.flows), to, f.id);
    var g := f.(prerequisite := to);
    var d := c.(flows := c.flows[j := g]);
    FlowIdsAreDistinct(c);
    SameFlowIds(c.flows, j, g);
    ReplacedLinks(c.flows, j, g);
    ReplacedMembers(c.flows, j, g);
    SameParts(c, d);
    RetargetedFlows(c, j, to);
    if Meets(Links(c.flows), to, f.id) {
      ComingBackIsACycle(Links(c.flows), f.id, to);
      ChainsEndIffAcyclic(d.flows);
      assert d.flows[j] in d.flows;
    } else if ChainEnds(Links(c.flows), to) {
      forall h | h in d.flows
        ensures ChainEnds(Links(d.flows), h.prerequisite)
      {
        ChainsStillEnd(Links(c.flows), f.id, to, h.prerequisite);
      }
    }
  }

  lemma OwnFlowIsMet(links: LinkMap, from: Option<string>, at: string)
    ensures from == Some(at) ==> Meets(links, from, at)
  {
    assert Walk(links, from, 0) == from;
  }

  lemma SameFlowIds(flows: seq<Flow>, j: nat, g: Flow)
    requires j < |flows| && g.id == flows[j].id
    ensures FlowIds(flows[j := g]) == FlowIds(flows)
  {
  }

  lemma RetargetedFlows(c: Catalog, j: nat, to: Option<string>)
    requires Accepts(c) && j < |c.flows|
    ensures var d := c.(flows := c.flows[j := c.flows[j].(prerequisite := to)]);
            && (to.Some? && to.value !in FlowIds(c.flows) ==> !FlowsOk(d))
            && ((to.Some? ==> to.value in FlowIds(c.flows) && to.value != c.flows[j].id) ==> FlowsOk(d))
  {
    hide HeaderOk, PagesOk, EndpointsOk, ChainEnds, Links, UniqueIds, InputOk, OutputOk, StepOk, Blank;
    var g := c.flows[j].(prerequisite := to);
    var d := c.(flows := c.flows[j := g]);
    SameFlowIds(c.flows, j, g);
    ReplacedMembers(c.flows, j, g);
    assert c.flows[j] in c.flows;
    FlowIdsAreDistinct(c);
    KnownFlowIsPresent(FlowIds(c.flows));
  }

  lemma KnownFlowIsPresent(ids: seq<string>)
    requires UniqueIds(ids)
    ensures forall id :: id in ids ==> !Blank(id)
  {
    hide Blank;
  }

  // ----- whole flows -----

  /** A further flow like an accepted one only needs an id of its own. */
  lemma FlowAdded(c: Catalog, j: nat, id: string)
    requires Accepts(c) && j < |c.flows|
    ensures Accepts(c.(flows := c.flows + [c.flows[j].(id := id)])) <==> IsPresent(id) && id !in FlowIds(c.flows)
  {
    hide Blank, PagesOk, EndpointsOk, FlowsOk, ChainEnds, Links, Walk, IsPresent, FlowIds, UniqueIds, Distinct;
    var g := c.flows[j].(id := id);
    var d := c.(flows := c.flows + [g]);
    SameParts(c, d);
    AddedMembers(c.flows, g);
    AddedFlowOk(c, j, id);
    if id !in FlowIds(c.flows) {
      AddedLinks(c.flows, g);
      FlowIdsAreDistinct(c);
      forall h | h in c.flows
        ensures ChainEnds(Links(d.flows), h.prerequisite)
      {
        UnknownIsNotMet(c, h, id);
        UnknownIsNotMet(c, c.flows[j], id);
        ChainsStillEnd(Links(c.flows), id, g.prerequisite, h.prerequisite);
      }
      assert ChainEnds(Links(d.flows), c.flows[j].prerequisite);
    }
  }

  lemma AddedLinks(flows: seq<Flow>, g: Flow)
    ensures Links(flows + [g]) == Links(flows)[g.id := g.prerequisite]
  {
    assert (flows + [g])[..|flows|] == flows;
  }

  lemma AddedFlowOk(c: Catalog, j: nat, id: string)
    requires Accepts(c) && j < |c.flows|
    ensures FlowsOk(c.(flows := c.flows + [c.flows[j].(id := id)])) <==> IsPresent(id) && id !in FlowIds(c.flows)
  {
    hide HeaderOk, PagesOk, EndpointsOk, ChainEnds, Links, UniqueIds, InputOk, OutputOk, StepOk, Trim, FlowOk;
    var g := c.flows[j].(id := id);
    var d := c.(flows := c.flows + [g]);
    assert FlowIds(d.flows) == FlowIds(c.flows) + [id];
    FlowIdsAreDistinct(c);
    AddedId(FlowIds(c.flows), id);
    AddedMembers(c.flows, g);
    SameParts(c, d);
    assert c.flows[j] in c.flows;
    forall f | f in c.flows
      ensures FlowOk(f, KnownIds(d), d.presets.Keys, IdSet(FlowIds(d.flows)))
    {
      FlowStaysOk(f, KnownIds(c), KnownIds(d), c.presets.Keys, d.presets.Keys, IdSet(FlowIds(c.flows)),
                  IdSet(FlowIds(d.flows)));
    }
    if IsPresent(id) && id !in FlowIds(c.flows) {
      PrerequisiteIsKnown(c.flows[j], KnownIds(c), c.presets.Keys, IdSet(FlowIds(c.flows)));
      RenamedFlowOk(c.flows[j], id, KnownIds(d), d.presets.Keys, IdSet(FlowIds(c.flows)), IdSet(FlowIds(d.flows)));
    }
  }

  lemma PrerequisiteIsKnown(f: Flow, known: Known, presets: set<string>, flowIds: set<string>)
    requires FlowOk(f, known, presets, flowIds)
    ensures f.prerequisite.Some? ==> f.prerequisite.value in flowIds
  {
    hide Blank, UniqueIds, InputOk, OutputOk, StepOk, Distinct;
  }

  lemma RenamedFlowOk(f: Flow, id: string, known: Known, presets: set<string>, flowIds: set<string>,
                      moreIds: set<string>)
    requires FlowOk(f, known, presets, flowIds) && flowIds <= moreIds && IsPresent(id)
    requires f.prerequisite.Some? ==> f.prerequisite.value in flowIds && f.prerequisite.value != id
    ensures FlowOk(f.(id := id), known, presets, moreIds)
  {
    hide Trim, UniqueIds, InputOk, OutputOk, StepOk, Distinct;
  }

  /** No chain of a catalog whose prerequisites are known meets an unknown flow. */
  lemma UnknownIsNotMet(c: Catalog, f: Flow, id: string)
    requires Accepts(c) && f in c.flows && id !in FlowIds(c.flows)
    ensures !Meets(Links(c.flows), f.prerequisite, id)
  {
    hide HeaderOk, PagesOk, EndpointsOk, ChainEnds, Links, Walk, UniqueIds, InputOk, OutputOk, StepOk, Blank, Mentioned;
    FlowIdsAreDistinct(c);
    KnownLinks(c.flows);
    LinkKeys(c.flows);
    forall n: nat
      ensures Walk(Links(c.flows), f.prerequisite, n) != Some(id)
    {
      MetIsMentioned(Links(c.flows), f.prerequisite, n);
    }
  }
}
