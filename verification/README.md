# Verified models of the gateway's deterministic cores

This project models the parts of the repository that are state machines, compilers or loops with no I/O of
their own, and proves what they promise. `dafny verify dfyconfig.toml` checks all of it.

* **Browser flows** (`Text`, `Json`, `Templates`, `TemplateLaws`, `TemplateValues`, `FlowModel`, `FlowCollection`,
  `FlowCheck`, `FlowRules`, `FlowBinding`, `TemplateTexts`, `FlowSlice`, `FlowPlaces`, `FlowFailures`,
  `FlowExpansion`, `FlowExecution`, `FlowSoundness`, `FlowCalls`, `FlowReports`, `FlowWitness`). A catalog is
  checked, bound to a flow and a context, and interpreted twice: as a dry run and against a session. The session is
  an arbitrary function of everything it was asked before, so every theorem about a run holds for every session.
  The template scanner, the loops over directories, the outer loops of the check and of the binding, the walk along
  prerequisites and both interpreters are methods, proved equal to specification functions the theorems are about.
  The loops inside one page, element, request or JSON value, and most loops inside the check of one catalog part,
  are written as functions and quantifiers. What the specification functions compute is stated apart from them, on
  the fields of catalogs, plans and steps: `TemplateValues` says what a hole and a text around holes are bound to,
  `FlowPlaces` and `FlowFailures` where each bound text goes and which failure comes first, `FlowRules` what each
  rule of the check refuses and leaves free, `FlowCalls` and `FlowReports` what each kind of step says and reports.
* **Replication** (`Policy`, `ReplicationQueue`, `ReplicationThreads`). The engine is a class over its queue,
  counter and history; `ReplicationThreads` interleaves its atomic steps over any number of threads.
* **CDP** (`KeyOrder`, `CdpEvents`, `CdpAnswers`, `CdpCommands`). The event log is a class proved against an update function
  that also runs without a window; command correlation is a state machine over its locked sections.
* **Byte movers** (`BodyReader`, `Relay`, `UriEncoder`). Readers, relay callbacks and providers are arbitrary.

`Results` and `Words` hold what all of these share.

Conventions. Error messages are constructors. JSON numbers are their printed text and objects their entries
in key order. Strings are sequences of characters; every search the code makes is for ASCII text, so byte and
character positions agree. 64-bit counters wrap or saturate as in the code. Clocks, file reads and callbacks
are parameters. A specification function computes; the table names the methods and lemmas that say what it means.

Three places where what one would like to promise is false of the code, each with the exact boundary and an input
that crosses it:

* ids are fresh under every interleaving exactly until an allocation follows that of 2^64 - 1
  (`AllocationsAreFreshUntilWrap`), and the saturating floor of restored jobs clears their ids exactly when none
  of them is 2^64 - 1 (`FloorClearsJobsUnlessLastId`, and over runs `RestoredIdsAreCleared`); one restored job with
  the last id but one, or with the last, is enough to lose either (`WrapIsReachable`, `RestoredIdIsReused`). Fresh
  means increasing and above every floor: ids can stay distinct for a while after the wrap, as in the first of
  these schedules, but need not, as a second restore hands one out again (`SameIdTwice`);
* headers that arrive before or after their request lead to the same log while the pending table has room; when
  it is full they do exactly when the new id is the smallest key and its headers add nothing
  (`HeaderOrderWhenFull`): the code evicts the smallest key, not the oldest entry. After 128 early header sets the
  two orders come apart (`HeaderOrderCanMatter`);
* binding a bound string again is the identity under every context exactly when the bound string holds no "{{"
  (`BindingTwiceExactly`, from `FixedExactlyWhenPlain`), which can be looked up before the second binding. It holds
  none when no substituted value contains an opening brace (`BindingTwiceIsBindingOnce`), and it can hold one
  otherwise (`BindingTwiceCanExpand`). The same boundary holds for JSON values (`JsonFixedExactlyWhenPlain`) and
  for whole plans, presets included (`PlainPlanIsKept`).

## Model

| member | source | states |
|---|---|---|
| Templates.BindTemplateValue | crates/blob-core/src/browser_flow.rs:1608-1658 | the cursor loop terminates and gives the meaning of the grammar's pieces: a lone placeholder keeps its JSON value, anything else is rendered, and the first failing lookup wins over a later unterminated hole |
| Templates.ScanIsTheReading | crates/blob-core/src/browser_flow.rs:1615-1633 | the scan closes with a list of pieces exactly when that list is a canonical reading whose text is the raw template; so readings are unique, and there is none exactly when a hole stays open |
| TemplateValues.HoleIsLookedUp | crates/blob-core/src/browser_flow.rs:1660-1688 | the inside of a hole, split at its first dot, gives the value of its own key in the inputs or the runtime values, and otherwise fails for the one reason that holds: no dot, a blank key, an unknown namespace or a missing value |
| TemplateValues.LoneHoleIsItsValue | crates/blob-core/src/browser_flow.rs:1608-1658 | a template that is one hole is bound to the JSON value of the hole, and fails exactly as the hole does |
| TemplateValues.ReadingIsJoined | crates/blob-core/src/browser_flow.rs:1635-1658 | any other reading is bound to the joined texts of its pieces: a literal is itself, a hole the text of its value (a string itself, a number as printed, a flag as true or false) |
| TemplateValues.JoinedReadingHasTexts | crates/blob-core/src/browser_flow.rs:1635-1658 | and to nothing else: when it is bound, every piece stands for a text |
| TemplateValues.FirstMissingValueFails | crates/blob-core/src/browser_flow.rs:1615-1633 | the first hole without a value decides the failure, even when a later hole stays open |
| TemplateValues.FirstUnspeakableFails | crates/blob-core/src/browser_flow.rs:1690-1702 | when every hole has a value, the first null, list or object among the pieces decides the failure |
| TemplateValues.ScanStopsOpen | crates/blob-core/src/browser_flow.rs:1615-1633 | a scan that does not close stops behind its closed holes at a "{{" that no "}}" follows |
| TemplateValues.OpenHoleFails | crates/blob-core/src/browser_flow.rs:1617-1623 | when every closed hole has a value, an open hole is reported with the whole template |
| TemplateValues.StringIsValueText | crates/blob-core/src/browser_flow.rs:1593-1606 | a bound string is the text of the bound value, empty for a lone null; a list or object fails |
| TemplateValues.JsonIsBoundInPlace | crates/blob-core/src/browser_flow.rs:1573-1591 | a JSON value is bound string by string where each stands, with its shape, keys and other values kept |
| TemplateLaws.PlainTextIsUnchanged | crates/blob-core/src/browser_flow.rs:1635-1637 | text that opens no hole means itself under every context |
| TemplateLaws.BoundHasNoPair | crates/blob-core/src/browser_flow.rs:1593-1658 | when no substituted value contains an opening brace, no template is left in the result, not even across piece boundaries |
| TemplateLaws.BindingTwiceIsBindingOnce | crates/blob-core/src/browser_flow.rs:1593-1658 | under that condition binding the result again, under any context, is the identity |
| TemplateLaws.BindingTwiceCanExpand | crates/blob-core/src/browser_flow.rs:1593-1658 | without the condition a value that spells a template is expanded by a second binding under the same context: a failing input of the boundary below |
| TemplateLaws.FixedExactlyWhenPlain | crates/blob-core/src/browser_flow.rs:1593-1658 | a text is bound to itself under every context exactly when it holds no "{{", the guard of the cursor loop |
| TemplateLaws.BindingTwiceExactly | crates/blob-core/src/browser_flow.rs:1593-1658 | binding a result again is the identity under every context exactly when the result holds no "{{" |
| TemplateLaws.BoundJsonIsPlain | crates/blob-core/src/browser_flow.rs:1573-1591 | under a context without opening braces at any depth no string of a bound JSON value opens a hole, however deep it stands |
| TemplateLaws.JsonFixedExactlyWhenPlain | crates/blob-core/src/browser_flow.rs:1573-1591 | a JSON value is bound to itself under every context exactly when none of its strings, keys aside, holds "{{" |
| FlowExpansion.PlanIsFullyExpanded | crates/blob-core/src/browser_flow.rs:467-613 | a plan bound under a context without opening braces at any depth has no template left in any text that binding expands, its presets included |
| FlowExpansion.PlainPlanIsKept | crates/blob-core/src/browser_flow.rs:1454-1591 | the plans whose flow, presets, pages, elements, requests and operations are all bound to themselves under every context are exactly those without a template |
| FlowCollection.FromJsonDir | crates/blob-core/src/browser_flow.rs:1086-1123 | a directory loads exactly when every file loads and no two catalogs share the joined key; each provider/surface pair then stands once |
| FlowCollection.FromJsonDirs | crates/blob-core/src/browser_flow.rs:1125-1147 | the loop over directories succeeds exactly when the first exists and every existing one loads, and yields the overlay of the existing ones in order |
| FlowCollection.LastDirectoryWins | crates/blob-core/src/browser_flow.rs:1125-1158 | lookup in the overlay finds the catalog of the last directory that has the pair, and each pair stands once |
| FlowCheck.CollectUniqueIds | crates/blob-core/src/browser_flow.rs:1400-1414 | succeeds exactly when every id is present and none repeats, with the set of them |
| FlowCheck.WalkPrerequisites | crates/blob-core/src/browser_flow.rs:1065-1078 | the walk terminates on every link map; it reports nothing exactly when the chain ends, and a reported flow lies on a cycle |
| FlowCheck.CheckPrerequisites | crates/blob-core/src/browser_flow.rs:1059-1079 | passes exactly when every prerequisite chain ends, and otherwise names a flow that lies on a cycle |
| FlowCheck.ChainsEndIffAcyclic | crates/blob-core/src/browser_flow.rs:1059-1079 | every chain ends exactly when no flow is, directly or indirectly, its own prerequisite |
| FlowCheck.ChainFitsCatalog | crates/blob-core/src/browser_flow.rs:740-765 | with known prerequisites a chain that ends has, its own flow included, at most as many distinct flows as the catalog |
| FlowCheck.Validate | crates/blob-core/src/browser_flow.rs:615-1082 | the whole check passes exactly on the catalogs that satisfy the accepted predicate, chains included; the rules themselves are stated by the `FlowRules` rows |
| FlowRules.HeaderRules | crates/blob-core/src/browser_flow.rs:616-643 | in an accepted catalog the schema version may only be 1, and provider, surface and base URL any present text |
| FlowRules.PresetRule | crates/blob-core/src/browser_flow.rs:658-665 | a preset may be set under any id that is present |
| FlowRules.PageReplaced | crates/blob-core/src/browser_flow.rs:644-657 | a page may be replaced, under its id, exactly by one with a present title and at least one pattern, all present |
| FlowRules.PageAdded | crates/blob-core/src/browser_flow.rs:644-657 | and joined exactly by such a page under a present id of its own |
| FlowRules.ElementReplaced | crates/blob-core/src/browser_flow.rs:666-696 | an element may be replaced exactly by one on a known page with a present role and at least one selector, all present |
| FlowRules.ElementAdded | crates/blob-core/src/browser_flow.rs:666-696 | and joined exactly by such an element under a present id of its own |
| FlowRules.RequestReplaced | crates/blob-core/src/browser_flow.rs:697-723 | a request may be replaced exactly by one with a present method and pattern, at least one success code, and present headers and fields |
| FlowRules.RequestAdded | crates/blob-core/src/browser_flow.rs:697-723 | and joined exactly by such a request under a present id of its own |
| FlowRules.OperationReplaced | crates/blob-core/src/browser_flow.rs:724-740 | an operation may be replaced exactly by one with a present source and a known page, if it names one |
| FlowRules.OperationAdded | crates/blob-core/src/browser_flow.rs:724-740 | and joined exactly by such an operation under a present id of its own |
| FlowRules.FlowTextRules | crates/blob-core/src/browser_flow.rs:741-1058 | a flow may have any present title and purpose, and no other |
| FlowRules.StartPageRule | crates/blob-core/src/browser_flow.rs:741-1058 | a flow may start exactly on the known pages |
| FlowRules.PrerequisiteRule | crates/blob-core/src/browser_flow.rs:740-1079 | a flow may have no prerequisite, or exactly a known flow whose own prerequisites do not lead back to it |
| FlowRules.PresetRefsRule | crates/blob-core/src/browser_flow.rs:741-1058 | a flow may refer exactly to known presets |
| FlowRules.ExpectedRequestsRule | crates/blob-core/src/browser_flow.rs:741-1058 | a flow may expect exactly known requests, each once |
| FlowRules.InputReplaced | crates/blob-core/src/browser_flow.rs:741-1058 | an input may be replaced exactly by one with a present label and a present description, if any |
| FlowRules.InputAdded | crates/blob-core/src/browser_flow.rs:741-1058 | and joined exactly by such an input under a present id of its own |
| FlowRules.OutputReplaced | crates/blob-core/src/browser_flow.rs:741-1058 | an output may be replaced exactly by one with present source, fallbacks, frame and description, and present header names if it reads a header set |
| FlowRules.OutputAdded | crates/blob-core/src/browser_flow.rs:741-1058 | and joined exactly by such an output under a present id of its own |
| FlowRules.StepReplaced | crates/blob-core/src/browser_flow.rs:741-1058 | a step may be replaced, under its id, exactly by a step of any of the eleven kinds that names known parts and carries what its kind asks for |
| FlowRules.StepAdded | crates/blob-core/src/browser_flow.rs:741-1058 | and joined exactly by such a step under a present id of its own |
| FlowRules.StepsAreNeeded | crates/blob-core/src/browser_flow.rs:741-1058 | a flow without steps is refused |
| FlowRules.FlowAdded | crates/blob-core/src/browser_flow.rs:740-1079 | a copy of an accepted flow is accepted beside it exactly under a present id of its own |
| FlowWitness.FullIsAccepted | crates/blob-core/src/browser_flow.rs:615-1082 | a catalog with a preset, a request, an operation, a prerequisite, an input, two outputs and a step of every kind is accepted |
| FlowBinding.ValidateRequiredInputs | crates/blob-core/src/browser_flow.rs:1420-1442 | passes exactly when every required input has a present value |
| FlowBinding.BindFlow | crates/blob-core/src/browser_flow.rs:467-613 | the filling of sets and vectors yields the specified binding; what that is, and which failure comes first, is stated by the `FlowPlaces` and `FlowFailures` rows |
| FlowPlaces.BindingIsInPlace | crates/blob-core/src/browser_flow.rs:467-613 | a binding succeeds with a plan exactly when the first flow with the id has its required inputs, and every text of the plan is the bound text of the same place of the catalog, every other field the catalog's, and the parts exactly those named, in catalog order |
| FlowPlaces.RequestsAreNamed | crates/blob-core/src/browser_flow.rs:487-555 | a flow names a request by a wait, an expected request, or an output of the three request kinds, in its source or a fallback: the part before the first colon, or without a colon all of it for a header set |
| FlowPlaces.ElementsAreNamed | crates/blob-core/src/browser_flow.rs:487-513 | the elements of a flow are those its steps name in the fields of their kinds |
| FlowPlaces.PlanPagesAreNamed | crates/blob-core/src/browser_flow.rs:482-600 | the pages of a plan are the start page and those named by its steps, elements and operations |
| FlowPlaces.RequestsAreSelected | crates/blob-core/src/browser_flow.rs:589-594 | a request of the catalog is in the plan exactly when the flow names it |
| FlowPlaces.SourcedRequestIsSelected | crates/blob-core/src/browser_flow.rs:532-555 | a request named before the colon of an output source or fallback is in the plan |
| FlowFailures.BindingFailsInOrder | crates/blob-core/src/browser_flow.rs:472-613 | an unknown flow, a missing input, the flow's own texts and then presets, elements, operations, requests and pages: the first that fails decides the error |
| FlowFailures.FlowFailsFirst | crates/blob-core/src/browser_flow.rs:1454-1514 | the flow fails with its first failing text, steps before outputs, each in the order it is read |
| FlowFailures.SliceFailsFirst | crates/blob-core/src/browser_flow.rs:557-600 | the parts of a plan fail with the first failing text in the order presets, elements, operations, requests, pages |
| FlowFailures.InputsFailFirst | crates/blob-core/src/browser_flow.rs:1420-1442 | the first required input without a value is reported as missing or as blank |
| FlowSlice.PlanIsExactSlice | crates/blob-core/src/browser_flow.rs:467-613 | the plan holds exactly the elements, operations and pages reachable from the unbound flow, in catalog order, with ids and step references unchanged; requests are those named by the bound flow, and presets exactly the referenced ones, each the bound preset of the catalog |
| FlowSlice.BindingReadsOnlyMentions | crates/blob-core/src/browser_flow.rs:467-613 | contexts that agree on what the flow and its slice mention bind to the same plan or the same error; only the stored context differs |
| FlowSlice.UnusedInputIsUnseen | crates/blob-core/src/browser_flow.rs:467-613 | adding or changing an input that no hole of the flow and its slice names and no required input asks for gives the same plan or the same error; only the stored context differs |
| FlowSlice.UnusedRuntimeValueIsUnseen | crates/blob-core/src/browser_flow.rs:467-613 | the same for a runtime value, which no input check reads |
| FlowExecution.CollectFilePaths | crates/blob-core/src/browser_flow.rs:1704-1739 | the path loop gives the non-blank paths, nothing when there are none, and an error on a non-string entry |
| FlowExecution.ExecuteDryRun | crates/blob-core/src/browser_flow.rs:1293-1319 | the dry run reports every step or the first failure |
| FlowExecution.SessionExecution.Ask | crates/blob-core/src/browser_flow.rs:1230-1280 | one call to the session appends exactly that exchange to the trace |
| FlowExecution.SessionExecution.ExecuteStep | crates/blob-core/src/browser_flow.rs:1999-2277 | the in-place interpretation of a step is the specified one; what that is, is stated by the `FlowCalls` rows |
| FlowCalls.StepMakesItsCalls | crates/blob-core/src/browser_flow.rs:1999-2277 | a step that finds what it names makes exactly the calls written out for its kind, in order; passed, it is reported as succeeded, and a failure is skipped with the reason of its kind exactly when kind and optional flag absorb it, else it is the step's error |
| FlowCalls.SucceededStepMadeItsCalls | crates/blob-core/src/browser_flow.rs:1999-2277 | a step reported as succeeded made exactly the calls written out for its kind, all passed |
| FlowCalls.RunMadeItsCalls | crates/blob-core/src/browser_flow.rs:1330-1350 | the same of each step of a run, in its stretch of the trace |
| FlowCalls.FileStepWithoutPathsIsSkipped | crates/blob-core/src/browser_flow.rs:2072-2086 | a file step without any path says nothing and is reported as skipped for its missing input |
| FlowCalls.LackingStepFails | crates/blob-core/src/browser_flow.rs:1999-2283 | a step that lacks something says what comes before it and fails for the first thing missing |
| FlowCalls.DryRunFailsOnBadFiles | crates/blob-core/src/browser_flow.rs:1704-1739 | a dry run fails exactly on a file input that holds no paths, with that error |
| FlowCalls.EveryStepIsCovered | crates/blob-core/src/browser_flow.rs:1999-2277 | every step is of one of these ways |
| FlowExecution.SessionExecution.ExecuteNavigate | crates/blob-core/src/browser_flow.rs:2010-2025 | the navigation is made before its page is looked up, so a missing page fails after the call |
| FlowExecution.SessionExecution.ExecuteCaptcha | crates/blob-core/src/browser_flow.rs:2150-2230 | the manual value is withheld once a transient input is consumed, and consumed only by a success that carried it |
| FlowExecution.SessionExecution.Execute | crates/blob-core/src/browser_flow.rs:1330-1350 | the whole run, its trace and its consumed inputs, stopping at the first failing step |
| FlowSoundness.AcceptedPlanResolves | crates/blob-core/src/browser_flow.rs:467-1082 | every step of a plan bound from an accepted catalog finds every page, element, request and operation it refers to |
| FlowSoundness.AcceptedPlanIsClosed | crates/blob-core/src/browser_flow.rs:562-600 | the start page and every page named by a bound element or operation are part of the plan |
| FlowSoundness.ResolvedScriptIsNotBroken | crates/blob-core/src/browser_flow.rs:1999-2283 | a step whose references resolve and whose dry run succeeds never reaches a missing bound reference |
| FlowSoundness.ReadyRunFailsOnlyBySession | crates/blob-core/src/browser_flow.rs:1999-2283 | a run whose steps resolve and dry-run fails only with the error the session answered last |
| FlowSoundness.StaticCheckIsSound | crates/blob-core/src/browser_flow.rs:615-1082 | accepted catalog, successful binding and successful dry run: under any session a run never fails on a missing bound reference of its own making, only with an error the session has just answered |
| FlowWitness.SoundnessIsNotEmpty | crates/blob-core/src/browser_flow.rs:467-1082 | a catalog of one page, one element and one click is accepted, and under every context binds and dry-runs; a session that refuses makes its run fail with the refusal |
| FlowSoundness.SessionRefinesDryRun | crates/blob-core/src/browser_flow.rs:1298-1349 | a successful session report, status and skip reason erased, is the dry-run report step for step |
| FlowSoundness.DryRunDescribesCalls | crates/blob-core/src/browser_flow.rs:1741-2277 | the dry-run detail of a step shows what each call a session can make carries: ids, texts, events, limits, layout targets and captcha settings; an optional text or limit the call lacks is not shown |
| FlowReports.DetailIsWritten | crates/blob-core/src/browser_flow.rs:1741-1990 | the detail of every step shows exactly what its kind is to show, key by key |
| FlowReports.DryRunReportsEveryStep | crates/blob-core/src/browser_flow.rs:1298-1319 | the dry run reports every step of the flow in order, as planned, under its id and the name of its kind |
| FlowReports.SessionReportIsComplete | crates/blob-core/src/browser_flow.rs:1330-1350 | so does a session run that ends well |
| FlowReports.KindsAreNamed | crates/blob-core/src/browser_flow.rs:1374-1388 | each kind has its own name |
| FlowReports.DecimalReads | crates/blob-core/src/browser_flow.rs:1790-1798 | a shown number has no leading zero and reads as the number |
| FlowSoundness.ConversationIsPrefix | crates/blob-core/src/browser_flow.rs:1999-2277 | what is said in a step is a prefix of its calls, each answered in turn, cut short only by a failure |
| FlowSoundness.RunStopsAt | crates/blob-core/src/browser_flow.rs:1330-1350 | a failing run has a step k: each step before it completed with its own calls, one stretch of the trace after the other, step k made its calls up to the one that ended the run, and the three ways it can end are told apart |
| FlowSoundness.PassedStepCompleted | crates/blob-core/src/browser_flow.rs:1330-1350 | in any run, failing or not, each step it got past made all of its calls in its stretch of the trace, or is reported skipped after a failure it tolerates |
| FlowSoundness.SuccessfulRunIsItsSteps | crates/blob-core/src/browser_flow.rs:1330-1350 | a run that ends well is such a stretch for every one of its steps |
| FlowSoundness.CompletedStepSaid | crates/blob-core/src/browser_flow.rs:1999-2277 | a step that ends well made all its calls, or is reported skipped after a failure it tolerates |
| FlowSoundness.TransientInputsAreOneShot | crates/blob-core/src/browser_flow.rs:2166-2218 | in every run the manual value of a transient input is spent at most once and no later captcha call carries it; the consumed set is exactly the spent inputs |
| Policy.DedupPreserveOrder | crates/policy-engine/src/lib.rs:168-178 | the loop yields the first occurrences |
| Policy.DedupKeepsFirstOccurrences | crates/policy-engine/src/lib.rs:168-178 | no repeats, nothing lost or invented, ordered by first occurrence |
| Policy.FromInput | crates/policy-engine/src/lib.rs:88-138 | accepts exactly the rule-abiding inputs, returns the normalised topology, and an error names a rule the input breaks |
| Policy.RulesByProvider | crates/policy-engine/src/lib.rs:88-138 | the rules provider by provider, with OneDrive standing in for an empty list of targets |
| Policy.NormalisedIsStable | crates/policy-engine/src/lib.rs:88-138 | an accepted topology is accepted again unchanged; its targets are distinct and exclude the primary |
| ReplicationQueue.ReplicationEngine.AllocateJobId | crates/replication-engine/src/lib.rs:130-132 | returns the counter and advances it modulo 2^64 |
| ReplicationQueue.ReplicationEngine.EnsureNextJobIdAtLeast | crates/replication-engine/src/lib.rs:125-128 | raises the counter to the floor, and to at least 1 |
| ReplicationQueue.ReplicationEngine.PopNextReadyAt | crates/replication-engine/src/lib.rs:191-210 | the rotation returns the first ready job and leaves the passed ones behind the rest in order, or leaves the queue as it was |
| ReplicationQueue.ReplicationEngine.EnqueueJobs | crates/replication-engine/src/lib.rs:302-336 | appends one fresh pending job per sync target other than the source, in order, with consecutive ids and the clock's times |
| ReplicationQueue.ReplicationEngine.ScheduleRetry | crates/replication-engine/src/lib.rs:212-218 | a retried job goes to the back of the queue, and is booked as a retry |
| ReplicationQueue.ReplicationEngine.EnqueueExistingJob | crates/replication-engine/src/lib.rs:220-226 | a re-entered job goes to the back of the queue, and is booked as entered |
| ReplicationQueue.ReplicationEngine.RecordCompleted | crates/replication-engine/src/lib.rs:228-232 | records the job as completed with no next attempt, within the history limit |
| ReplicationQueue.ReplicationEngine.RecordFailed | crates/replication-engine/src/lib.rs:234-239 | records the job as failed with its error and no next attempt, within the history limit |
| ReplicationQueue.ReplicationEngine.RestorePending | crates/replication-engine/src/lib.rs:261-279 | appends the jobs and raises the counter over their ids; nothing on an empty list |
| ReplicationQueue.ReplicationEngine.ReplacePending | crates/replication-engine/src/lib.rs:281-300 | the queue becomes the jobs, the history empties, the counter is raised |
| ReplicationQueue.ReplicationEngine.PushRecent | crates/replication-engine/src/lib.rs:338-346 | the history keeps the last entries up to its limit |
| ReplicationQueue.ReadyJobsAreFifo | crates/replication-engine/src/lib.rs:191-226 | for any time and any run of pops at or after it, mixed with any appends, the jobs ready at that time leave first in, first out |
| ReplicationQueue.PopTakesFirstDue | crates/replication-engine/src/lib.rs:191-210 | a pop takes the first job whose next attempt is unset or not later than the given time |
| ReplicationQueue.PopTakesNothing | crates/replication-engine/src/lib.rs:191-210 | and nothing when all are later |
| ReplicationQueue.ReadyJobWaitsAtMostItsPosition | crates/replication-engine/src/lib.rs:191-226 | a job at position p that is ready is among the first p + 1 jobs popped, whatever is appended meanwhile |
| ReplicationQueue.PopAdvances | crates/replication-engine/src/lib.rs:191-210 | each pop returns that job or moves it strictly closer to the front |
| ReplicationQueue.PopConserves | crates/replication-engine/src/lib.rs:191-210 | a pop that returns nothing changes nothing and no job was ready; otherwise it removes exactly what it returns |
| ReplicationQueue.RunConserves | crates/replication-engine/src/lib.rs:191-226 | over any run nothing is lost or duplicated |
| ReplicationQueue.OneJobPerTarget | crates/replication-engine/src/lib.rs:302-336 | for distinct targets an enqueue makes exactly one job per target other than the source |
| ReplicationQueue.EveryEventBalances | crates/replication-engine/src/lib.rs:187-346 | every event, a replace included, keeps the ids ever entered equal to the pending, in-flight, recorded and dropped ids together, and the history equal to the tail of the records made since it was last cleared |
| ReplicationQueue.JobsAreConserved | crates/replication-engine/src/lib.rs:187-346 | over every run each job ever entered is pending, in flight, recorded or was dropped by a replace, and the history is the tail of the records since the last replace |
| ReplicationQueue.EngineConservesJobs | crates/replication-engine/src/lib.rs:187-346 | the same of the engine itself, whose methods each book one event and keep its queue and history those of the books |
| ReplicationThreads.NeverDeadlocks | crates/replication-engine/src/lib.rs:241-300 | under every interleaving of any number of threads, while work remains some thread can move |
| ReplicationThreads.AllocationsAreFreshUntilWrap | crates/replication-engine/src/lib.rs:125-132 | under every interleaving ids strictly increase and respect every earlier floor, exactly until an allocation follows that of the last 64-bit id |
| ReplicationThreads.FloorClearsJobsUnlessLastId | crates/replication-engine/src/lib.rs:261-288 | an id at or above the floor of restored jobs exceeds all of theirs exactly when none holds the last 64-bit id |
| ReplicationThreads.WrapIsReachable | crates/replication-engine/src/lib.rs:125-132 | a schedule of two threads that restores a job with the last id but one and then hands out the last id and 0 |
| ReplicationThreads.RestoredIdIsReused | crates/replication-engine/src/lib.rs:261-288 | a schedule that restores a job with the last id and hands that id out again |
| ReplicationThreads.SameIdTwice | crates/replication-engine/src/lib.rs:125-132 | a schedule of two threads that restores one job twice and hands the same id out twice |
| ReplicationThreads.RestoredIdsAreCleared | crates/replication-engine/src/lib.rs:261-288 | under every interleaving, until the wrap, an id handed out after restored jobs set their floor exceeds all of theirs exactly when none holds the last 64-bit id |
| ReplicationThreads.CounterIsRaisedJustEnough | crates/replication-engine/src/lib.rs:261-288 | restoring jobs below the last id raises the counter to the least id above all of theirs, and no further |
| ReplicationThreads.CallsTakeTheirLocks | crates/replication-engine/src/lib.rs:187-346 | each call takes the locks of what it uses and no other, and an enqueue allocates all its ids under its lock |
| CdpEvents.CdpEventState.ApplyEvent | crates/browser-cdp/src/lib.rs:1344-1449 | the in-place update is the update function with a window of 128, and reports whether waiters are woken |
| CdpEvents.CdpEventState.SelectIfSucceeded | crates/browser-cdp/src/lib.rs:397-406 | the locked section answers the query and remembers a success |
| CdpEvents.LastMatch | crates/browser-cdp/src/lib.rs:1302-1314 | the backwards search finds the last matching entry after the given sequence, or there is none |
| CdpEvents.RequestForOutput | crates/browser-cdp/src/lib.rs:1324-1341 | returns a live, matching, successful entry whenever there is one |
| CdpEvents.SelectionIsReadBack | crates/browser-cdp/src/lib.rs:397-406 | after a successful wait the output is read from an entry with the sequence the wait reported |
| CdpEvents.WindowRefinesUnboundedLog | crates/browser-cdp/src/lib.rs:1344-1430 | after any run the window is, headers aside, the last 128 entries of an unbounded log under the same updates |
| CdpEvents.WindowAnswersAsUnbounded | crates/browser-cdp/src/lib.rs:1302-1322 | a wait gets the unbounded answer whenever at most 128 requests were sent since it began and the counter has not saturated |
| CdpEvents.WindowAnswersExactly | crates/browser-cdp/src/lib.rs:1302-1322 | after any run the window answers as the unbounded log exactly when the entry that decides the answer, if any, is still in the window |
| CdpAnswers.MatchIsByFields | crates/browser-cdp/src/lib.rs:1251-1260 | an entry matches by method, ASCII case aside, and by URL: what begins as a pattern that ends in a star, or the pattern itself |
| CdpAnswers.DecidingEntryAnswers | crates/browser-cdp/src/lib.rs:1302-1322 | the last matching entry answers: a success by its status, else its failure, else its bad status, else it is waited for |
| CdpAnswers.LateEventsAreRecorded | crates/browser-cdp/src/lib.rs:1377-1430 | headers, a response or a failure change the last entry of their request in their own fields and nothing else |
| CdpAnswers.RequestsAreRecorded | crates/browser-cdp/src/lib.rs:1346-1376 | a request becomes the last entry under the next sequence with its own fields and the headers kept for it |
| CdpAnswers.RequestDecidesTheWait | crates/browser-cdp/src/lib.rs:1302-1430 | a wait that began before a matching request is answered by its response or failure |
| CdpAnswers.SelectionsAreKept | crates/browser-cdp/src/lib.rs:1362-1376 | a new request drops exactly the selections whose entry left the window |
| CdpAnswers.OutputIsTheLatestSuccess | crates/browser-cdp/src/lib.rs:1324-1341 | an output without a standing selection is read from the latest success |
| CdpEvents.ReachableLogIsSound | crates/browser-cdp/src/lib.rs:1344-1395 | every reachable log keeps both tables within 128, sequences contiguous and selections pointing at live entries |
| CdpEvents.HeaderOrderIsIrrelevant | crates/browser-cdp/src/lib.rs:1346-1395 | for an unknown request id with room in the pending table, both arrival orders leave the same state |
| CdpEvents.HeaderOrderWhenFull | crates/browser-cdp/src/lib.rs:1377-1390 | with the table full the two orders agree exactly when the new id is the smallest key and its headers add nothing |
| CdpEvents.HeaderOrderCanMatter | crates/browser-cdp/src/lib.rs:1377-1390 | after 128 early header sets, a reachable log, the two orders leave different states for a new request id |
| CdpCommands.CdpConnection.RegisterSender | crates/browser-cdp/src/lib.rs:362-363 | the command becomes pending under its own id before it is sent |
| CdpCommands.RegisteredIsPending | crates/browser-cdp/src/lib.rs:362-363 | in every run, registering puts the command under its own id into the pending table |
| CdpCommands.ResponsesAreDelivered | crates/browser-cdp/src/lib.rs:355-383 | the first response with the id of a registered command, before a close or its send failure, fills its channel for good, and a waiting command is resolved with that payload |
| CdpCommands.CloseMakesDue | crates/browser-cdp/src/lib.rs:1077-1084 | a command pending at a close is due the close error until it is sent |
| CdpCommands.CloseErrorsAreDelivered | crates/browser-cdp/src/lib.rs:1077-1084 | and once it is sent, a waiting command is resolved with it |
| CdpCommands.SentCommandsWait | crates/browser-cdp/src/lib.rs:364-383 | a command whose send succeeded waits until it is awaited |
| CdpCommands.FailedSendsResolve | crates/browser-cdp/src/lib.rs:364-376 | a command whose send failed is resolved with the send error |
| CdpCommands.CdpConnection.HandleResponse | crates/browser-cdp/src/lib.rs:1046-1075 | a response removes and answers the pending command with its id, and changes nothing otherwise |
| CdpCommands.CdpConnection.FailAllPending | crates/browser-cdp/src/lib.rs:1077-1084 | takes every pending command out to be failed |
| CdpCommands.CdpConnection.FinishSend | crates/browser-cdp/src/lib.rs:364-376 | a failed send unregisters the command and resolves it with the send error |
| CdpCommands.EveryRunKeepsInv | crates/browser-cdp/src/lib.rs:355-383 | the protocol invariant holds after every interleaving of at most 2^64 commands |
| CdpCommands.CommandsResolveOnceAndByTheirOwnId | crates/browser-cdp/src/lib.rs:355-383 | each command resolves at most once, and a response resolves only the command with its own id |
| CdpCommands.ChannelsAreFilledOnce | crates/browser-cdp/src/lib.rs:1046-1084 | a command's one-shot channel is filled at most once: it keeps what it holds over every continuation, and no sender of it is left |
| CdpCommands.AnswersComeFromResponses | crates/browser-cdp/src/lib.rs:1054-1066 | an answer is the payload of a response of the run with that id |
| CdpCommands.RepeatedResponsesAreIgnored | crates/browser-cdp/src/lib.rs:1053-1068 | once a pending command has been answered, a response that repeats its id changes nothing, whatever was sent, answered, failed or closed in between |
| CdpCommands.GoneCommandsIgnoreResponses | crates/browser-cdp/src/lib.rs:1053-1068 | a command that has left the pending table in any way stays out of it, and every later response with its id changes nothing |
| CdpCommands.CloseFailsExactlyThePending | crates/browser-cdp/src/lib.rs:1077-1084 | a close error reaches, or is due to, exactly the commands pending at a close |
| CdpCommands.PendingLeavesOnlyThreeWays | crates/browser-cdp/src/lib.rs:355-383 | a pending command leaves the table only by its own response, its own send failure or a close |
| BodyReader.BufferedObjectBodyReader.ReadPart | crates/blob-core/src/lib.rs:415-443 | returns exactly the next bytes when enough are to come, else the stream's failure or an early end, over any chunking |
| BodyReader.BufferedObjectBodyReader.EnsureExhausted | crates/blob-core/src/lib.rs:445-460 | succeeds exactly when neither bytes nor a failure are left |
| BodyReader.PartsAreConsecutive | crates/blob-core/src/lib.rs:415-443 | a schedule of parts succeeds exactly when enough bytes remain, and then joins to the consecutive slices |
| BodyReader.ReadBothChunkings | crates/blob-core/src/lib.rs:407-461 | two chunkings of the same bytes, empty chunks included, give the same parts and are exhausted alike |
| Relay.RelayLite.Put | examples/esp32-s3-relay-lite-poc/relay_lite_poc.c:25-65 | the put loop against any callbacks, the busy flag as on entry on every exit, and the argument, busy and limit refusals |
| Relay.RelayLite.Get | examples/esp32-s3-relay-lite-poc/relay_lite_poc.c:67-117 | the get loop against any callbacks, terminating, the busy flag as on entry on every exit |
| Relay.PutStopsFor | examples/esp32-s3-relay-lite-poc/relay_lite_poc.c:44-62 | a put ends with all bytes sent, at a bad read behind those sent, or at a refused last chunk |
| Relay.GetStopsFor | examples/esp32-s3-relay-lite-poc/relay_lite_poc.c:83-114 | a get that does not end well ends at the first reply behind what it wrote that is refused, over a limit, not taken whole, or empty without being the last |
| Relay.PutChunksAreWellFormed | examples/esp32-s3-relay-lite-poc/relay_lite_poc.c:44-62 | against any callbacks chunks are non-empty and at most 1024 bytes, only a chunk that completes the body is final, and a put of nothing makes no call |
| Relay.PutDeliversBody | examples/esp32-s3-relay-lite-poc/relay_lite_poc.c:44-62 | under arbitrary short reads the chunks join to the body |
| Relay.GetIsBounded | examples/esp32-s3-relay-lite-poc/relay_lite_poc.c:83-114 | against any provider at most 65537 provider calls and at most 65536 bytes |
| Relay.GetReturnsHeld | examples/esp32-s3-relay-lite-poc/relay_lite_poc.c:83-114 | from the in-memory provider a get writes exactly what it holds |
| Relay.MemoryProvider.MemoryPut | examples/esp32-s3-relay-lite-poc/example_main.c:22-39 | appends the chunk when it fits, otherwise changes nothing |
| Relay.MemoryProvider.MemoryGet | examples/esp32-s3-relay-lite-poc/example_main.c:41-66 | answers with the next slice and flags the last one |
| Relay.PutThenGet | examples/esp32-s3-relay-lite-poc/example_main.c:86-108 | a body of at most 64 KiB put under arbitrary short reads and got back is written out byte for byte; the put runs against the memory provider's answers, and its calls are then made on the provider, which takes every one |
| Relay.PutCallsAreAccepted | examples/esp32-s3-relay-lite-poc/relay_lite_poc.c:44-62 | every call but the last, and the last too when the put is done, was accepted at the offset the earlier chunks reach |
| Relay.MemoryProvider.Store | examples/esp32-s3-relay-lite-poc/example_main.c:22-39 | made one after another on the provider, the calls of a put are taken or refused exactly as the put's callback answers them at the offset reached, and the provider holds the chunks taken |
| UriEncoder.AppendUriPart | examples/stm32-client-only/ccbg_stm32_client.c:67-93 | appends the encoding and a terminator exactly when both fit, and never touches what stands before |
| UriEncoder.BuildUri | examples/stm32-client-only/ccbg_stm32_client.c:95-115 | succeeds exactly when the whole encoding and its terminator fit, and the buffer then holds it |
| UriEncoder.BytesAreEncoded | examples/stm32-client-only/ccbg_stm32_client.c:61-92 | letters, digits and four marks stand for themselves; any other byte is a percent sign and two upper-case digits, as sections 2.1 and 2.3 of RFC 3986 have it |
| UriEncoder.UriDecodes | examples/stm32-client-only/ccbg_stm32_client.c:61-115 | the path decodes, by section 2.1 of RFC 3986, to the bucket and key it was built from |
| UriEncoder.UriIsInjective | examples/stm32-client-only/ccbg_stm32_client.c:95-115 | different objects get different paths, and a path holds no terminator of its own |

## Left out

- Parsing: JSON text, directory reading and the CDP JSON payloads are taken as already parsed values.
- Error texts: a catalog part that breaks a rule is reported by its kind and id, not by the particular field.
- `notes`, `secret`, input kinds, output `redact` and `required_for_prerequisite`: carried through unread by the modelled code.
- Output sources: a source may name a request the check never saw, and fallback sources are not expanded; nothing is claimed for either.
- Streams and bodies are finite sequences; a stream that never ends is not modelled.
- Wake-ups and timeouts of `wait_for_request` and `wait_for_page`: `notified()` is taken after the state is read, so only safety is stated.
- `CdpCommands`: a command registered after the reader has closed is not failed by that close; `PendingLeavesOnlyThreeWays` states what can still happen to it.
- `ReplicationThreads`: the queue contents are not part of the interleaving; the class states them per locked section.
- Put and delete order per object across retries: a retried put can follow a later delete, so no order is claimed.
- Sockets, target discovery, generated JavaScript, SigV4 and hash assembly, the PUT retry of the STM32 client and `bytes_to_hex`.
- `parse_provider_list`, snapshots, and the admin, MCP, auth, profile, provider-completion and worker code: short case splits and plumbing.
