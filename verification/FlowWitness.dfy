/** A small catalog that is accepted, binds and dry-runs, so that what is proved of such catalogs is not empty. */
module FlowWitness {
  import opened Results
  import opened Text
  import opened Json
  import opened Templates
  import opened TemplateLaws
  import opened FlowModel
  import opened FlowCheck
  import opened FlowBinding
  import opened TemplateTexts
  import opened FlowExpansion
  import opened FlowExecution
  import opened FlowSoundness
  import opened FlowRules

  const HOME: Page := Page("home", "Home", ["/*"])

  const BUTTON: Element := Element("go", "home", "button", true, None, [Selector(Css, "button", None, true)])

  const ENTER: Flow := Flow("enter", "Enter", "Enter", "home", None, [], [], [Click("press", "go", false)], [], [])

  const CATALOG: Catalog := Catalog(SCHEMA_VERSION, "p", "s", "/", map[], [HOME], [BUTTON], [], [], [ENTER])

  function EnterPlan(c: Context): Plan {
    Plan("p", "s", ENTER, c, map[], [HOME], [BUTTON], [], [])
  }

  /** A text that begins and ends with a visible character is present, and without a brace it opens no hole. */
  lemma WordIsPresent(s: string)
    requires s != "" && !IsSpace(s[0]) && !IsSpace(s[|s| - 1]) && '{' !in s
    ensures !Blank(s) && Plain(s)
  {
    TrimKeeps(s);
    AbsentMakesNoPair(s, '{');
  }

  lemma WordsArePresent()
    ensures forall s :: s in {"home", "Home", "/*", "go", "button", "enter", "Enter", "press", "p", "s", "/"} ==>
              !Blank(s) && Plain(s)
  {
    hide Blank, Plain;
    forall s | s in {"home", "Home", "/*", "go", "button", "enter", "Enter", "press", "p", "s", "/"}
      ensures !Blank(s) && Plain(s)
    {
      WordIsPresent(s);
    }
  }

  lemma CatalogIsAccepted()
    ensures Accepts(CATALOG)
  {
    hide Blank, Plain, Links;
    WordsArePresent();
    assert HeaderOk(CATALOG);
    assert "home" in IdSet(PageIds([HOME])) by {
      assert PageIds([HOME])[0] == "home";
    }
    assert "go" in IdSet(ElementIds([BUTTON])) by {
      assert ElementIds([BUTTON])[0] == "go";
    }
    assert PagesOk(CATALOG);
    assert EndpointsOk(CATALOG);
    assert FlowsOk(CATALOG);
    assert Walk(Links([ENTER]), None, 0) == None;
  }

  lemma LoneIsKept<A>(p: A -> bool, x: A)
    requires p(x)
    ensures Keep(p, [x]) == [x]
  {
    KeepAppend(p, [], x);
    assert [] + [x] == [x];
  }

  /** The flow is bound to itself, whatever the context. */
  lemma FlowBinds(c: Context)
    ensures BindFlowTemplates(ENTER, c) == Ok(ENTER)
  {
    hide BindFlowTemplates, Plain;
    FlowIsKept(ENTER, c);
  }

  lemma ElementBinds(c: Context)
    ensures Traverse(ElementBinder(c), [BUTTON]) == Ok([BUTTON])
  {
    hide Traverse, Blank, Plain;
    WordsArePresent();
    ElementsAreKept([BUTTON], c);
  }

  lemma PageBinds(c: Context)
    ensures Traverse(PageBinder(c), [HOME]) == Ok([HOME])
  {
    hide Traverse, Blank, Plain;
    WordsArePresent();
    PagesAreKept([HOME], c);
  }

  lemma SliceBinds(c: Context)
    ensures SliceAndBind(CATALOG, ENTER, c) == Ok(EnterPlan(c))
  {
    hide Traverse, Keep, RequestRefs, PagesOf;
    LoneIsKept(ElementIn(ElementsOf(ENTER.steps)), BUTTON);
    LoneIsKept(PageIn(PageRefs(ENTER, [BUTTON], [])), HOME);
    KeepOfNone(OperationIn(OperationsOf(ENTER.steps)));
    KeepOfNone(RequestIn(RequestRefs(ENTER)));
    TraverseKeeps(OperationBinder(c), []);
    TraverseKeeps(RequestBinder(c), []);
    ElementBinds(c);
    PageBinds(c);
  }

  lemma CatalogBinds(c: Context)
    ensures Binding(CATALOG, "enter", c) == Ok(EnterPlan(c))
  {
    hide SliceAndBind, BindFlowTemplates;
    assert ENTER in CATALOG.flows;
    FlowBinds(c);
    SliceBinds(c);
  }

  lemma PlanDryRuns(c: Context)
    ensures DryRun(EnterPlan(c)).Ok?
  {
    DryRunCoversSteps(EnterPlan(c), ENTER.steps);
  }

  /** Under every context the catalog meets what soundness asks for, and some session makes its run fail. */
  lemma SoundnessIsNotEmpty(c: Context, error: BlobError)
    ensures Accepts(CATALOG) && Binding(CATALOG, "enter", c) == Ok(EnterPlan(c)) && DryRun(EnterPlan(c)).Ok?
    ensures RunSteps(EnterPlan(c), (past, call) => Fail(error), ENTER.steps).outcome == Err(error)
  {
    hide Accepts, Binding, DryRun;
    CatalogIsAccepted();
    CatalogBinds(c);
    PlanDryRuns(c);
    assert BUTTON in EnterPlan(c).elements;
  }

  // ----- a catalog with a part and a step of every kind -----

  const BASE: Catalog := CATALOG.(
    presets := map["colour" := String("{{inputs.code}}")],
    requests := [Request("login", "POST", "/login", [HeaderMatcher("token", Some("{{runtime.token}}"), true)],
                         ["phone"], [200])],
    operations := [Operation("scroll", Some("home"), None, "scroll()")])

  const CAPTCHA: CaptchaSettings :=
    CaptchaSettings(Some("Code"), None, ["input"], None, Some(4), Some("Read"), None, true, Some(3))

  const STEPS: seq<Step> := [
    Navigate("open", "/", Some("home")),
    Click("press", "go", true),
    SetInput("type", "go", "{{inputs.code}}", ["input"]),
    InvokeOperation("invoke", "scroll"),
    SetFiles("attach", "go", "code"),
    DispatchEvents("fire", "go", ["change"]),
    ValidateVisualLayout("view", [LayoutTarget("go", "button", true)], Some("Look"), ["above"], true),
    SolveVisualCaptcha("solve", "go", "go", "code", Some("go"), CAPTCHA),
    WaitForRequest("expect", "login", Some(5), true),
    WaitForPage("land", "home", None),
    Wait("rest", 1)]

  const VISIT: Flow := Flow(
    "visit", "Visit", "Visit", "home", Some("enter"), ["colour"],
    [Input("code", "Code", true, true, Some("a code"))], STEPS, ["login"],
    [Output("token", RequestHeader, None, "login:token", ["login"], [], None),
     Output("all", RequestHeaders, Some("top"), "login", [], ["token"], Some("all"))])

  /** The catalog before its second flow has its parts. */
  const DRAFT: Catalog := BASE.(flows := [ENTER, ENTER.(id := "visit", prerequisite := Some("enter"))])

  const FULL: Catalog := BASE.(flows := [ENTER, VISIT])

  const WORDS: set<string> := {
    "colour", "login", "POST", "/login", "token", "{{runtime.token}}", "phone", "scroll", "scroll()", "input", "Read",
    "{{inputs.code}}", "change", "Look", "above", "visit", "Visit", "code", "Code", "a code", "login:token", "top",
    "all"}

  lemma MoreWordsArePresent()
    ensures forall s :: s in WORDS ==> IsPresent(s)
  {
    hide IsPresent;
    forall s | s in WORDS
      ensures IsPresent(s)
    {
      VisibleIsPresent(s);
    }
  }

  lemma VisibleIsPresent(s: string)
    requires s != "" && !IsSpace(s[0]) && !IsSpace(s[|s| - 1])
    ensures IsPresent(s)
  {
    TrimKeeps(s);
  }

  lemma BaseIsAccepted()
    ensures Accepts(BASE)
  {
    hide Accepts, IsPresent;
    CatalogIsAccepted();
    MoreWordsArePresent();
    var c := CATALOG.(presets := BASE.presets);
    PresetRule(CATALOG, "colour", BASE.presets["colour"]);
    assert CATALOG.presets["colour" := BASE.presets["colour"]] == BASE.presets;
    RequestAdded(c, BASE.requests[0]);
    assert [] + BASE.requests == BASE.requests && BASE.requests == [BASE.requests[0]];
    var d := c.(requests := BASE.requests);
    assert "home" in PageIds(d.pages) by {
      assert PageIds(d.pages)[0] == "home";
    }
    OperationAdded(d, BASE.operations[0]);
    assert [] + BASE.operations == BASE.operations && BASE.operations == [BASE.operations[0]];
  }

  lemma DraftIsAccepted()
    ensures Accepts(DRAFT)
  {
    hide Accepts, IsPresent, Walk;
    BaseIsAccepted();
    MoreWordsArePresent();
    assert FlowIds(BASE.flows) == ["enter"];
    FlowAdded(BASE, 0, "visit");
    var c := BASE.(flows := [ENTER, ENTER.(id := "visit")]);
    assert BASE.flows + [BASE.flows[0].(id := "visit")] == c.flows;
    assert FlowIds(c.flows)[0] == "enter";
    EnterLeadsNowhere(c);
    PrerequisiteRule(c, 1, "enter");
    assert c.flows[1 := c.flows[1].(prerequisite := Some("enter"))] == DRAFT.flows;
  }

  lemma EnterLeadsNowhere(c: Catalog)
    requires c.flows == [ENTER, ENTER.(id := "visit")]
    ensures !Meets(Links(c.flows), Some("enter"), "visit")
  {
    var links := Links(c.flows);
    assert c.flows[..1] == [ENTER] && [ENTER][..0] == [];
    assert Links([ENTER]) == map["enter" := None];
    assert links == map["enter" := None, "visit" := None];
    forall n: nat
      ensures Walk(links, Some("enter"), n) != Some("visit")
    {
      if n > 0 {
        WalkOn(links, Some("enter"), 1, n - 1);
        assert Walk(links, Some("enter"), 0) == Some("enter");
        NothingLeads(links, n - 1);
      }
    }
  }

  lemma StepIdsAreUnique()
    ensures UniqueIds(StepIds(STEPS))
  {
    hide Trim;
    var ids := StepIds(STEPS);
    forall i, j | 0 <= i < j < |ids|
      ensures ids[i] != ids[j]
    {
      assert ids[i][0] != ids[j][0];
    }
    forall id | id in ids
      ensures !Blank(id)
    {
      VisibleIsPresent(id);
    }
  }

  /** The only ids the steps name are those of the only parts. */
  lemma PartsAreKnown()
    ensures "home" in PageIds(DRAFT.pages) && "go" in ElementIds(DRAFT.elements)
    ensures "scroll" in OperationIds(DRAFT.operations) && "login" in RequestIds(DRAFT.requests)
    ensures "code" in InputIds(VISIT.inputs)
  {
    assert ElementIds(DRAFT.elements)[0] == "go" && PageIds(DRAFT.pages)[0] == "home";
    assert OperationIds(DRAFT.operations)[0] == "scroll" && RequestIds(DRAFT.requests)[0] == "login";
    assert InputIds(VISIT.inputs)[0] == "code";
  }

  lemma EarlyStepsAreAllowed(i: nat)
    requires i < 6
    ensures StepMayBe(DRAFT, VISIT, STEPS[i])
  {
    hide Trim, PageIds, ElementIds, OperationIds, RequestIds, InputIds, IsPresent;
    VisibleIsPresent("/");
    VisibleIsPresent("{{inputs.code}}");
    VisibleIsPresent("change");
    PartsAreKnown();
  }

  lemma LateStepsAreAllowed(i: nat)
    requires 6 <= i < |STEPS|
    ensures StepMayBe(DRAFT, VISIT, STEPS[i])
  {
    hide Trim, PageIds, ElementIds, OperationIds, RequestIds, InputIds, IsPresent;
    VisibleIsPresent("button");
    VisibleIsPresent("Look");
    VisibleIsPresent("above");
    VisibleIsPresent("code");
    VisibleIsPresent("input");
    VisibleIsPresent("Read");
    PartsAreKnown();
  }

  lemma InputsAreAllowed()
    ensures UniqueIds(InputIds(VISIT.inputs)) && forall x :: x in VISIT.inputs ==> InputOk(x)
  {
    hide Trim;
    MoreWordsArePresent();
    assert InputIds(VISIT.inputs) == ["code"];
  }

  lemma OutputsAreAllowed()
    ensures UniqueIds(OutputIds(VISIT.outputs)) && forall o :: o in VISIT.outputs ==> OutputOk(o)
  {
    hide Trim;
    MoreWordsArePresent();
    var ids := OutputIds(VISIT.outputs);
    assert ids == ["token", "all"] && ids[0][0] != ids[1][0];
  }

  lemma StepsAreOk()
    requires IdsArePresent(ElementIds(DRAFT.elements)) && IdsArePresent(InputIds(VISIT.inputs))
    ensures forall s :: s in VISIT.steps ==> StepOk(s, KnownIds(DRAFT), IdSet(InputIds(VISIT.inputs)))
  {
    hide StepMayBe, StepOk, IdsArePresent, KnownIds, IdSet, ElementIds, InputIds;
    forall s | s in VISIT.steps
      ensures StepOk(s, KnownIds(DRAFT), IdSet(InputIds(VISIT.inputs)))
    {
      var i :| 0 <= i < |STEPS| && STEPS[i] == s;
      if i < 6 {
        EarlyStepsAreAllowed(i);
      } else {
        LateStepsAreAllowed(i);
      }
      StepIsOk(DRAFT, VISIT, s);
    }
  }

  lemma VisitObeys()
    ensures FlowObeys(DRAFT, VISIT)
  {
    hide StepOk, Trim, UniqueIds, InputOk, OutputOk, IdsArePresent, Accepts;
    DraftIsAccepted();
    FlowReplaced(DRAFT, 1, DRAFT.flows[1]);
    CatalogIdsArePresent(DRAFT, DRAFT.flows[1]);
    InputsAreAllowed();
    UniqueIdsArePresent(InputIds(VISIT.inputs));
    OutputsAreAllowed();
    StepIdsAreUnique();
    StepsAreOk();
    MoreWordsArePresent();
    PartsAreKnown();
    assert FlowIds(DRAFT.flows)[0] == "enter";
    assert HeadOk(VISIT, KnownIds(DRAFT).pages, IdSet(FlowIds(DRAFT.flows))) by {
      VisibleIsPresent("enter");
      assert VISIT.prerequisite.value[0] != VISIT.id[0];
    }
  }

  /** The catalog with a part and a step of every kind is accepted. */
  lemma FullIsAccepted()
    ensures Accepts(FULL)
  {
    hide Accepts, FlowObeys;
    DraftIsAccepted();
    VisitObeys();
    FlowReplaced(DRAFT, 1, VISIT);
    assert DRAFT.flows[1 := VISIT] == FULL.flows;
  }
}
