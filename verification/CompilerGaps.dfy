/** Two valid research-v2 drafts that the compiler accepts and a later check refuses: both
    failing sides of the exact conditions on compiled cases are inhabited. */
module CompilerGaps {
  import opened Wrappers
  import opened Json
  import opened Text
  import opened DslCase
  import opened BrowserContract
  import opened Compiler
  import opened CompilerSound
  import opened CompilerLineage
  import opened CompilerExecutable
  import DslValidate
  import ResearchV2

  // --- One-step plans and drafts ----------------------------------------------------

  function OneStepPlan(step: PlanStep): Plan { Plan(PlanBinding("p", 1, "h"), true, [step]) }

  function OneStepDraft(step: Fields): Fields {
    map["profile" := String("research-v2"), "name" := String("n"), "steps" := Array([Object(step)])]
  }

  predicate DraftShape(f: Fields, step: Fields) {
    && f.Keys == {"profile", "name", "steps"}
    && f["profile"] == String("research-v2") && f["name"] == String("n") && f["steps"] == Array([Object(step)])
  }

  lemma OneStepExpanded(step: PlanStep)
    requires step.occurrences == 1
    ensures Expanded([step]) == [step] && (step.binding.None? ==> Distinct([step]) == [])
  {
    assert Expanded([step][..0]) == [] && Repeat(step) == [step];
    assert Distinct([step][..0]) == [];
  }

  lemma HeaderShape(f: Fields, step: Fields)
    requires DraftShape(f, step)
    ensures ResearchV2.V2HeaderOk(f) && ResearchV2.V2BoundOk(f, Draft) && At(f, "steps") == Array([Object(step)])
  {
    DslValidate.TrimWord("n");
    assert At(f, "name") == String("n") && At(f, "description").Null? && At(f, "base_url").Null?;
    assert "input_contract" !in f && "output_contract" !in f;
  }

  lemma OneStepDraftOk(decode: ResearchV2.Decoder, f: Fields, step: Fields)
    requires DraftShape(f, step) && ResearchV2.V2StepOk(decode, Object(step), Draft)
    ensures ResearchV2.V2Ok(decode, f, Draft)
  {
    HeaderShape(f, step);
  }

  lemma OneStepCompiles(lib: Lib, f: Fields, step: Fields, planned: PlanStep)
    requires DraftShape(f, step) && DraftStepOk(lib, step, planned) && planned.occurrences == 1
    ensures DraftOk(lib, OneStepPlan(planned), PlanBinding("p", 1, "h"), Object(f))
  {
    OneStepExpanded(planned);
    HeaderShape(f, step);
    assert ItemOk(lib, Object(step), planned);
  }

  lemma OneStepChecked(lib: Lib, draft: Fields, f: Fields, planned: PlanStep)
    requires Laws(lib) && DraftShape(draft, f) && DraftStepOk(lib, f, planned) && planned.occurrences == 1
    ensures var plan := OneStepPlan(planned);
            && DraftOk(lib, plan, plan.binding, Object(draft))
            && (CompiledOk(lib, plan, Compiled(lib, plan, draft)) <==> Faithful(f, planned))
  {
    var plan := OneStepPlan(planned);
    OneStepCompiles(lib, draft, f, planned);
    OneStepExpanded(planned);
    HeaderShape(draft, f);
    CompilationPreservesPlan(lib, plan, plan.binding, Object(draft));
  }

  lemma OneStepTraced(lib: Lib, draft: Fields, f: Fields, planned: PlanStep)
    requires DraftShape(draft, f) && DraftStepOk(lib, f, planned)
    requires planned.occurrences == 1 && planned.binding.None?
    ensures var plan := OneStepPlan(planned);
            && DraftOk(lib, plan, plan.binding, Object(draft))
            && var g := Compiled(lib, plan, draft);
            && ResearchV2.Bindings(AsArray(At(g, "observation_bindings"))) == Some(map[])
            && (ResearchV2.V2Lineage(AsArray(At(g, "steps")), map[]) <==> Traceable(f, [planned], 0))
  {
    var plan := OneStepPlan(planned);
    OneStepCompiles(lib, draft, f, planned);
    OneStepExpanded(planned);
    HeaderShape(draft, f);
    CompiledHeader(lib, plan, draft);
    CompilationTracesPlan(lib, plan, plan.binding, Object(draft));
    OnlyTraceable([Object(f)], [planned]);
  }

  lemma OneStepRuns(lib: Lib, draft: Fields, f: Fields, planned: PlanStep)
    requires Laws(lib) && EncodesId(lib) && DraftShape(draft, f) && DraftStepOk(lib, f, planned)
    requires ResearchV2.V2StepOk(lib.decode, Object(f), Draft) && planned.occurrences == 1 && planned.binding.None?
    ensures var plan := OneStepPlan(planned);
            && DraftOk(lib, plan, plan.binding, Object(draft))
            && (ResearchV2.V2Ok(lib.decode, Compiled(lib, plan, draft), Executable) <==>
                  Traceable(f, [planned], 0) && Runnable(f, planned))
  {
    var plan := OneStepPlan(planned);
    OneStepDraftOk(lib.decode, draft, f);
    OneStepCompiles(lib, draft, f, planned);
    OneStepExpanded(planned);
    HeaderShape(draft, f);
    CompilationRuns(lib, plan, plan.binding, Object(draft));
    OnlyRunnable([Object(f)], [planned]);
  }

  lemma OnlyTraceable(steps: seq<Value>, planned: seq<PlanStep>)
    requires |steps| == 1 && |planned| == 1 && steps[0].Object?
    ensures (forall i :: 0 <= i < |steps| ==> TraceableAt(steps, planned, i)) <==> Traceable(steps[0].fields, planned, 0)
  {
    assert TraceableAt(steps, planned, 0) == Traceable(steps[0].fields, planned, 0);
  }

  lemma OnlyRunnable(steps: seq<Value>, planned: seq<PlanStep>)
    requires |steps| == 1 && |planned| == 1 && steps[0].Object?
    ensures (forall i :: 0 <= i < |steps| ==> TraceableAt(steps, planned, i) && RunnableAt(steps, planned, i))
       <==> TraceableAt(steps, planned, 0) && RunnableAt(steps, planned, 0)
  {
  }

  /** A field that holds a trimmed, non-empty string. */
  lemma WordAt(f: Fields, key: string, word: string)
    requires key in f && f[key] == String(word) && !Untrimmed(word)
    ensures TrimAt(f, key) == word && TextAt(f, key) == word
  {
    Trim(word);
  }

  lemma NothingAt(f: Fields, key: string)
    requires key !in f
    ensures TrimAt(f, key) == "" && At(f, key) == Null
  {
    Trim("");
  }

  lemma StepFromParts(decode: ResearchV2.Decoder, f: Fields, action: string)
    requires TextAt(f, "action") == action && Supported(action) && OnlyFields(f, ResearchV2.STEP_FIELDS)
    requires ResearchV2.V2MetaOk(action, f) && ResearchV2.V2ActionFieldsOk(action, f)
    requires forall key :: key in ResearchV2.COMPILER_FIELDS ==> key !in f
    ensures ResearchV2.V2StepOk(decode, Object(f), Draft)
  {
  }

  // --- A padded plan step id --------------------------------------------------------

  function GotoPlanned(): PlanStep {
    PlanStep("s1", "goto", "", "/cart", "", "", 0, 1, "idempotent", "browser_state", [], [], None)
  }

  function Changed(): Value { Object(map["type" := String("dom_changed")]) }

  function PaddedGoto(): Fields {
    map["plan_step_id" := String("s1 "), "action" := String("goto"), "intent" := String("open"),
        "value" := String("/cart"), "idempotency" := String("idempotent"), "side_effect" := String("browser_state"),
        "preconditions" := Array([]), "postconditions" := Array([Changed()])]
  }

  predicate PaddedShape(f: Fields) {
    && f.Keys == {"plan_step_id", "action", "intent", "value", "idempotency", "side_effect", "preconditions",
                  "postconditions"}
    && f["plan_step_id"] == String("s1 ") && f["action"] == String("goto") && f["intent"] == String("open")
    && f["value"] == String("/cart") && f["idempotency"] == String("idempotent")
    && f["side_effect"] == String("browser_state")
    && f["preconditions"] == Array([]) && f["postconditions"] == Array([Changed()])
  }

  lemma PaddedId()
    ensures TrimSpace("s1 ") == "s1"
  {
    assert TrimLeft("s1 ") == "s1 ";
    assert "s1 "[..2] == "s1";
    assert TrimRight("s1 ") == TrimRight("s1");
  }

  lemma ChangedOk()
    ensures ResearchV2.V2ConditionsOk(Array([Changed()])) && ResearchV2.V2ConditionsOk(Array([]))
  {
    DslValidate.TrimWord("dom_changed");
    assert ConditionOk(Changed());
  }

  lemma PaddedFields(f: Fields)
    requires PaddedShape(f)
    ensures OnlyFields(f, ResearchV2.STEP_FIELDS) && forall key :: key in ResearchV2.COMPILER_FIELDS ==> key !in f
  {
  }

  lemma PaddedKeys(f: Fields)
    requires PaddedShape(f)
    ensures OnlyFields(f, ResearchV2.STEP_FIELDS) && forall key :: key in ResearchV2.COMPILER_FIELDS ==> key !in f
    ensures At(f, "timeout_ms") == Null && "timeout_ms" !in f
    ensures TrimAt(f, "trigger") == "" && TrimAt(f, "context_key") == "" && TrimAt(f, "target_binding_id") == ""
  {
    PaddedFields(f);
    NothingAt(f, "timeout_ms");
    NothingAt(f, "trigger");
    NothingAt(f, "context_key");
    NothingAt(f, "target_binding_id");
  }

  /** What the step rules read of the padded step. */
  lemma PaddedTexts(f: Fields)
    requires PaddedShape(f)
    ensures TrimAt(f, "plan_step_id") == "s1" && TrimAt(f, "action") == "goto" && TrimAt(f, "intent") == "open"
    ensures TrimAt(f, "value") == "/cart" && TrimAt(f, "idempotency") == "idempotent"
    ensures TrimAt(f, "side_effect") == "browser_state" && TextAt(f, "action") == "goto"
  {
    PaddedId();
    WordAt(f, "action", "goto");
    WordAt(f, "intent", "open");
    WordAt(f, "value", "/cart");
    WordAt(f, "idempotency", "idempotent");
    WordAt(f, "side_effect", "browser_state");
  }

  lemma PaddedMeta(f: Fields)
    requires PaddedShape(f)
    ensures ResearchV2.V2MetaOk(TextAt(f, "action"), f)
  {
    PaddedKeys(f);
    PaddedTexts(f);
    ChangedOk();
  }

  lemma PaddedAction(f: Fields)
    requires PaddedShape(f)
    ensures Supported(TextAt(f, "action")) && ResearchV2.V2ActionFieldsOk(TextAt(f, "action"), f)
  {
    WordAt(f, "value", "/cart");
    WordAt(f, "action", "goto");
  }

  lemma PaddedValid(decode: ResearchV2.Decoder, f: Fields)
    requires PaddedShape(f)
    ensures ResearchV2.V2StepOk(decode, Object(f), Draft)
  {
    PaddedFields(f);
    PaddedMeta(f);
    PaddedAction(f);
    StepFromParts(decode, f, TextAt(f, "action"));
  }

  lemma PaddedCompiles(lib: Lib, f: Fields)
    requires PaddedShape(f) && lib.normalize("goto") == "goto"
    ensures DraftStepOk(lib, f, GotoPlanned())
  {
    PaddedKeys(f);
    PaddedTexts(f);
  }

  lemma PaddedUnfaithful(f: Fields)
    requires PaddedShape(f)
    ensures !Faithful(f, GotoPlanned()) && Traceable(f, [GotoPlanned()], 0) && Runnable(f, GotoPlanned())
  {
    assert TextOf(f, "plan_step_id") == "s1 ";
    PaddedKeys(f);
    PaddedTexts(f);
    assert TextAt(f, "action") == "goto";
  }

  lemma PaddedCase(lib: Lib, draft: Fields, f: Fields)
    requires Laws(lib) && EncodesId(lib) && lib.normalize("goto") == "goto"
    requires DraftShape(draft, f) && PaddedShape(f)
    ensures var plan := OneStepPlan(GotoPlanned());
            && ResearchV2.V2Ok(lib.decode, draft, Draft)
            && DraftOk(lib, plan, plan.binding, Object(draft))
            && ResearchV2.V2Ok(lib.decode, Compiled(lib, plan, draft), Executable)
            && !CompiledOk(lib, plan, Compiled(lib, plan, draft))
  {
    PaddedValid(lib.decode, f);
    PaddedCompiles(lib, f);
    PaddedUnfaithful(f);
    OneStepDraftOk(lib.decode, draft, f);
    OneStepChecked(lib, draft, f, GotoPlanned());
    OneStepRuns(lib, draft, f, GotoPlanned());
  }

  lemma PaddedShapes()
    ensures PaddedShape(PaddedGoto()) && DraftShape(OneStepDraft(PaddedGoto()), PaddedGoto())
  {
  }

  /** A valid draft whose plan_step_id ends in a space compiles to a case that the
      executable validator accepts and the compiled-case check refuses. */
  lemma PaddedIdRefused(lib: Lib)
    requires Laws(lib) && EncodesId(lib) && lib.normalize("goto") == "goto"
    ensures var plan, draft := OneStepPlan(GotoPlanned()), OneStepDraft(PaddedGoto());
            && ResearchV2.V2Ok(lib.decode, draft, Draft)
            && DraftOk(lib, plan, plan.binding, Object(draft))
            && ResearchV2.V2Ok(lib.decode, Compiled(lib, plan, draft), Executable)
            && !CompiledOk(lib, plan, Compiled(lib, plan, draft))
  {
    PaddedShapes();
    PaddedCase(lib, OneStepDraft(PaddedGoto()), PaddedGoto());
  }

  // --- An assertion no probe grounded -----------------------------------------------

  function AssertPlanned(): PlanStep {
    PlanStep("s1", "assert_text", "total", "12", "", "", 0, 1, "idempotent", "none", [], [], None)
  }

  function UngroundedAssert(): Fields {
    map["plan_step_id" := String("s1"), "action" := String("assert_text"), "intent" := String("check"),
        "target_binding_id" := String("b"), "value" := String("12"), "idempotency" := String("idempotent"),
        "side_effect" := String("none"), "preconditions" := Array([]), "postconditions" := Array([])]
  }

  predicate UngroundedShape(f: Fields) {
    && f.Keys == {"plan_step_id", "action", "intent", "target_binding_id", "value", "idempotency", "side_effect",
                  "preconditions", "postconditions"}
    && f["plan_step_id"] == String("s1") && f["action"] == String("assert_text") && f["intent"] == String("check")
    && f["target_binding_id"] == String("b") && f["value"] == String("12")
    && f["idempotency"] == String("idempotent") && f["side_effect"] == String("none")
    && f["preconditions"] == Array([]) && f["postconditions"] == Array([])
  }

  lemma UngroundedFields(f: Fields)
    requires UngroundedShape(f)
    ensures OnlyFields(f, ResearchV2.STEP_FIELDS) && forall key :: key in ResearchV2.COMPILER_FIELDS ==> key !in f
  {
  }

  lemma UngroundedKeys(f: Fields)
    requires UngroundedShape(f)
    ensures OnlyFields(f, ResearchV2.STEP_FIELDS) && forall key :: key in ResearchV2.COMPILER_FIELDS ==> key !in f
    ensures At(f, "timeout_ms") == Null && "timeout_ms" !in f
    ensures TrimAt(f, "trigger") == "" && TrimAt(f, "context_key") == ""
  {
    UngroundedFields(f);
    NothingAt(f, "timeout_ms");
    NothingAt(f, "trigger");
    NothingAt(f, "context_key");
  }

  lemma UngroundedTexts(f: Fields)
    requires UngroundedShape(f)
    ensures TrimAt(f, "plan_step_id") == "s1" && TrimAt(f, "action") == "assert_text" && TrimAt(f, "intent") == "check"
    ensures TrimAt(f, "value") == "12" && TrimAt(f, "idempotency") == "idempotent" && TrimAt(f, "side_effect") == "none"
    ensures TrimAt(f, "target_binding_id") == "b" && TextAt(f, "action") == "assert_text"
  {
    WordAt(f, "plan_step_id", "s1");
    WordAt(f, "action", "assert_text");
    WordAt(f, "intent", "check");
    WordAt(f, "value", "12");
    WordAt(f, "idempotency", "idempotent");
    WordAt(f, "side_effect", "none");
    WordAt(f, "target_binding_id", "b");
  }

  lemma UngroundedMeta(f: Fields)
    requires UngroundedShape(f)
    ensures ResearchV2.V2MetaOk("assert_text", f)
  {
    UngroundedKeys(f);
    UngroundedTexts(f);
    ChangedOk();
  }

  lemma UngroundedValid(decode: ResearchV2.Decoder, f: Fields)
    requires UngroundedShape(f)
    ensures ResearchV2.V2StepOk(decode, Object(f), Draft)
  {
    UngroundedKeys(f);
    UngroundedTexts(f);
    UngroundedMeta(f);
    assert TextAt(f, "action") == "assert_text";
    assert ResearchV2.V2ActionFieldsOk("assert_text", f);
  }

  lemma UngroundedCompiles(lib: Lib, f: Fields)
    requires UngroundedShape(f) && lib.normalize("assert_text") == "assert_text"
    ensures DraftStepOk(lib, f, AssertPlanned())
  {
    UngroundedKeys(f);
    UngroundedTexts(f);
  }

  lemma Untraceable(f: Fields, planned: PlanStep)
    requires TrimAt(f, "action") == "assert_text" && planned.binding.None? && planned.occurrences == 1
    ensures !Traceable(f, [planned], 0)
  {
    OneStepExpanded(planned);
  }

  lemma UngroundedPlain(f: Fields)
    requires UngroundedShape(f)
    ensures OwnedFaithful(f) && ConditionsDecode(f)
  {
    UngroundedKeys(f);
    assert At(f, "trigger") == Null && At(f, "context_key") == Null;
    assert At(f, "preconditions") == Array([]) && At(f, "postconditions") == Array([]);
  }

  lemma UngroundedConditions(f: Fields)
    requires UngroundedShape(f)
    ensures Faithful(f, AssertPlanned()) && !Traceable(f, [AssertPlanned()], 0)
  {
    UngroundedPlain(f);
    FaithfulParts(f, AssertPlanned());
    WordAt(f, "action", "assert_text");
    Untraceable(f, AssertPlanned());
  }

  lemma UngroundedCase(lib: Lib, draft: Fields, f: Fields)
    requires Laws(lib) && lib.normalize("assert_text") == "assert_text"
    requires DraftShape(draft, f) && UngroundedShape(f)
    ensures var plan := OneStepPlan(AssertPlanned());
            && ResearchV2.V2Ok(lib.decode, draft, Draft)
            && DraftOk(lib, plan, plan.binding, Object(draft))
            && var g := Compiled(lib, plan, draft);
            && CompiledOk(lib, plan, g)
            && ResearchV2.Bindings(AsArray(At(g, "observation_bindings"))) == Some(map[])
            && !ResearchV2.V2Lineage(AsArray(At(g, "steps")), map[])
  {
    UngroundedValid(lib.decode, f);
    UngroundedCompiles(lib, f);
    UngroundedConditions(f);
    OneStepDraftOk(lib.decode, draft, f);
    OneStepChecked(lib, draft, f, AssertPlanned());
    OneStepTraced(lib, draft, f, AssertPlanned());
  }

  lemma UngroundedShapes()
    ensures UngroundedShape(UngroundedAssert()) && DraftShape(OneStepDraft(UngroundedAssert()), UngroundedAssert())
  {
  }

  /** A valid draft with a text assertion whose plan step has no binding compiles to a case
      that passes the compiled-case check and fails the lineage check: the compiler does
      not require a binding for assert_text, research-v2 does. */
  lemma UngroundedAssertRefused(lib: Lib)
    requires Laws(lib) && lib.normalize("assert_text") == "assert_text"
    ensures var plan, draft := OneStepPlan(AssertPlanned()), OneStepDraft(UngroundedAssert());
            && ResearchV2.V2Ok(lib.decode, draft, Draft)
            && DraftOk(lib, plan, plan.binding, Object(draft))
            && var g := Compiled(lib, plan, draft);
            && CompiledOk(lib, plan, g)
            && ResearchV2.Bindings(AsArray(At(g, "observation_bindings"))) == Some(map[])
            && !ResearchV2.V2Lineage(AsArray(At(g, "steps")), map[])
  {
    UngroundedShapes();
    UngroundedCase(lib, OneStepDraft(UngroundedAssert()), UngroundedAssert());
  }
}
