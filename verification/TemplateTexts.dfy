/** The template texts of every part of a flow: what binding reads and expands, and nothing else. */
module TemplateTexts {
  import opened Results
  import opened Json
  import opened Templates
  import opened TemplateLaws
  import opened FlowModel

  ghost function Members(raws: seq<string>): set<string> {
    set raw | raw in raws
  }

  /** The texts of all entries of a list. */
  ghost function TextsOf<A>(texts: A -> set<string>, xs: seq<A>): set<string> {
    set i, raw | 0 <= i < |xs| && raw in texts(xs[i]) :: raw
  }

  ghost function StepTexts(s: Step): set<string> {
    match s
    case Navigate(_, url, _) => {url}
    case SetInput(_, _, template, _) => {template}
    case ValidateVisualLayout(_, _, instruction, rules, _) => SetOf(instruction) + Members(rules)
    case SolveVisualCaptcha(_, _, _, _, _, t) =>
      SetOf(t.fieldLabel) + SetOf(t.placeholder) + SetOf(t.instruction) + SetOf(t.llmSystemPrompt)
      + SetOf(t.llmPromptTemplate)
    case _ => {}
  }

  ghost function OutputTexts(o: Output): set<string> {
    SetOf(o.frame) + {o.source}
  }

  ghost function PageTexts(p: Page): set<string> {
    Members(p.urlPatterns)
  }

  ghost function SelectorTexts(s: Selector): set<string> {
    {s.value} + SetOf(s.textContains)
  }

  ghost function ElementTexts(e: Element): set<string> {
    SetOf(e.frame) + TextsOf(SelectorTexts, e.selectors)
  }

  ghost function HeaderTexts(h: HeaderMatcher): set<string> {
    SetOf(h.valueTemplate)
  }

  ghost function RequestTexts(r: Request): set<string> {
    {r.urlPattern} + TextsOf(HeaderTexts, r.requiredHeaders) + Members(r.requiredFields)
  }

  ghost function OperationTexts(o: Operation): set<string> {
    SetOf(o.frame) + {o.source}
  }

  ghost function FlowTexts(f: Flow): set<string> {
    TextsOf(StepTexts, f.steps) + TextsOf(OutputTexts, f.outputs)
  }

  ghost function PresetTexts(presets: map<string, Value>, refs: set<string>): set<string> {
    set p, raw | p in refs && p in presets && raw in JsonTexts(presets[p]) :: raw
  }

  ghost function PlanTexts(p: Plan): set<string> {
    FlowTexts(p.flow) + PresetTexts(p.presets, p.presets.Keys) + TextsOf(PageTexts, p.pages)
    + TextsOf(ElementTexts, p.elements) + TextsOf(RequestTexts, p.requests) + TextsOf(OperationTexts, p.operations)
  }

  // ----- lists -----

  /** A list whose bound entries have only plain texts is bound to plain texts. */
  lemma BoundListIsPlain<A>(texts: A -> set<string>, f: A -> Result<A, BlobError>, xs: seq<A>)
    requires Traverse(f, xs).Ok?
    requires forall i :: 0 <= i < |xs| && f(xs[i]).Ok? ==> AllPlain(texts(f(xs[i]).value))
    ensures AllPlain(TextsOf(texts, Traverse(f, xs).value))
  {
    hide Traverse, Plain;
    var ys := Traverse(f, xs).value;
    assert forall i :: 0 <= i < |xs| ==> f(xs[i]) == Ok(ys[i]);
  }

  lemma {:induction false} TraverseKeeps<A>(f: A -> Result<A, BlobError>, xs: seq<A>)
    requires forall i :: 0 <= i < |xs| ==> f(xs[i]) == Ok(xs[i])
    ensures Traverse(f, xs) == Ok(xs)
  {
    if xs != [] {
      TraverseKeeps(f, xs[..|xs| - 1]);
      assert xs[..|xs| - 1] + [xs[|xs| - 1]] == xs;
    }
  }

  /** `f` keeps a list of plain texts; where `bare` binds the whole list, all its texts are plain. */
  lemma ListIsKept<A>(texts: A -> set<string>, f: A -> Result<A, BlobError>, bare: A -> Result<A, BlobError>,
                      xs: seq<A>)
    requires forall i :: 0 <= i < |xs| && AllPlain(texts(xs[i])) ==> f(xs[i]) == Ok(xs[i])
    requires forall i :: 0 <= i < |xs| && bare(xs[i]).Ok? ==> AllPlain(texts(xs[i]))
    ensures AllPlain(TextsOf(texts, xs)) ==> Traverse(f, xs) == Ok(xs)
    ensures Traverse(bare, xs).Ok? ==> AllPlain(TextsOf(texts, xs))
  {
    hide Traverse, Plain;
    if AllPlain(TextsOf(texts, xs)) {
      forall i | 0 <= i < |xs|
        ensures f(xs[i]) == Ok(xs[i])
      {
        assert texts(xs[i]) <= TextsOf(texts, xs);
      }
      TraverseKeeps(f, xs);
    }
    if Traverse(bare, xs).Ok? {
      assert forall i :: 0 <= i < |xs| ==> bare(xs[i]).Ok?;
    }
  }

  /** Contexts that agree on the texts of a list bind it alike. */
  lemma ListBindsAlike<A>(texts: A -> set<string>, f: A -> Result<A, BlobError>, g: A -> Result<A, BlobError>,
                          xs: seq<A>, c: Context, d: Context)
    requires AgreeOnAll(TextsOf(texts, xs), c, d)
    requires forall i :: 0 <= i < |xs| && AgreeOnAll(texts(xs[i]), c, d) ==> f(xs[i]) == g(xs[i])
    ensures Traverse(f, xs) == Traverse(g, xs)
  {
    hide Traverse, AgreeOn;
    forall x | x in xs
      ensures f(x) == g(x)
    {
      var i :| 0 <= i < |xs| && xs[i] == x;
      assert texts(xs[i]) <= TextsOf(texts, xs);
    }
    TraverseAgrees(f, g, xs);
  }
}
