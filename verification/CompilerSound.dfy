/** Compilation preserves the plan: exactly which drafts compile to a case that the
    compiled-case validator and the research-v2 lineage validators accept. */
module CompilerSound {
  import opened Wrappers
  import opened Json
  import opened Text
  import opened DslCase
  import opened BrowserContract
  import opened Compiler
  import ResearchV2

  // --- validateCompiledCaseSemantics ------------------------------------------------

  function DecodeText(f: Fields, key: string): Option<string> { ResearchV2.DecodeText(f, key) }

  predicate IsText(f: Fields, key: string) { DecodeText(f, key).Some? }

  function TextOf(f: Fields, key: string): string
    requires IsText(f, key)
  {
    DecodeText(f, key).value
  }

  /** A Go int field: missing and null are 0, a number must be an integer in range. */
  function DecodeInt(v: Value): Option<int> {
    match v
    case Null => Some(0)
    case Number(n) =>
      if n.Floor as real == n && -0x8000_0000_0000_0000 <= n.Floor < 0x8000_0000_0000_0000 then Some(n.Floor) else None
    case _ => None
  }

  /** A Go []map[string]any field. */
  function DecodeConditions(v: Value): Option<seq<Fields>> {
    match v
    case Null => Some([])
    case Array(items) =>
      if forall i :: 0 <= i < |items| ==> items[i].Object? || items[i].Null?
      then Some(seq(|items|, i requires 0 <= i < |items| => AsObject(items[i]))) else None
    case _ => None
  }

  function DecodeCandidates(lib: Lib, v: Value): Option<seq<Candidate>> {
    match v
    case Null => Some([])
    case Array(items) =>
      if forall i :: 0 <= i < |items| ==> lib.decode(items[i]).Some?
      then Some(seq(|items|, i requires 0 <= i < |items| => lib.decode(items[i]).value)) else None
    case _ => None
  }

  function DecodePlanBinding(v: Value): Option<PlanBinding> {
    if !v.Object? && !v.Null? then None
    else
      var f := AsObject(v);
      var version := DecodeInt(At(f, "version"));
      if IsText(f, "plan_id") && IsText(f, "sha256") && version.Some? then
        Some(PlanBinding(TextOf(f, "plan_id"), version.value, TextOf(f, "sha256")))
      else None
  }

  /** The string fields of a step that the plan owns and the check compares untrimmed. */
  predicate OwnedTexts(f: Fields) {
    && IsText(f, "plan_step_id") && IsText(f, "action") && IsText(f, "value") && IsText(f, "trigger")
    && IsText(f, "context_key") && IsText(f, "idempotency") && IsText(f, "side_effect") && IsText(f, "intent")
    && IsText(f, "target_binding_id")
  }

  predicate CompilerTexts(f: Fields) {
    && IsText(f, "semantic_target") && IsText(f, "probe_id") && IsText(f, "observation_id")
    && IsText(f, "observation_sha256") && IsText(f, "page_state_id") && IsText(f, "selected_candidate_id")
  }

  predicate Decodes(lib: Lib, f: Fields) {
    && OwnedTexts(f) && CompilerTexts(f) && DecodeInt(At(f, "timeout_ms")).Some?
    && DecodeConditions(At(f, "preconditions")).Some? && DecodeConditions(At(f, "postconditions")).Some?
    && DecodeCandidates(lib, At(f, "locator_candidates")).Some?
  }

  /** The untrimmed fields reproduce the plan. */
  predicate OwnedMatch(lib: Lib, f: Fields, planned: PlanStep)
    requires OwnedTexts(f) && DecodeInt(At(f, "timeout_ms")).Some?
  {
    && Checks(lib, TextOf(f, "plan_step_id"), TextOf(f, "action"), TextOf(f, "value"), TextOf(f, "trigger"),
              TextOf(f, "context_key"), DecodeInt(At(f, "timeout_ms")).value, TextOf(f, "idempotency"),
              TextOf(f, "side_effect"), planned)
    && TrimSpace(TextOf(f, "intent")) != ""
  }

  predicate BindingMatch(lib: Lib, f: Fields, b: TargetBinding)
    requires Decodes(lib, f)
  {
    && TextOf(f, "target_binding_id") == b.id && TextOf(f, "probe_id") == b.probeId
    && TextOf(f, "observation_id") == b.observationId && TextOf(f, "observation_sha256") == b.observationSha
    && TextOf(f, "page_state_id") == b.pageStateId && TextOf(f, "selected_candidate_id") == b.selectedId
    && Encoded(lib, DecodeCandidates(lib, At(f, "locator_candidates")).value) == Encoded(lib, b.candidates)
  }

  predicate ConditionsMatch(lib: Lib, f: Fields, planned: PlanStep)
    requires DecodeConditions(At(f, "preconditions")).Some? && DecodeConditions(At(f, "postconditions")).Some?
  {
    && Preserves(lib, DecodeConditions(At(f, "preconditions")).value, planned.preconditions)
    && Preserves(lib, DecodeConditions(At(f, "postconditions")).value, planned.completionConditions)
  }

  predicate CompiledStepOk(lib: Lib, v: Value, planned: PlanStep) {
    && (v.Object? || v.Null?)
    && var f := AsObject(v);
    && Decodes(lib, f) && OwnedMatch(lib, f, planned) && TextOf(f, "semantic_target") == planned.target
    && ConditionsMatch(lib, f, planned)
    && (RequiresBinding(planned.action) ==> planned.binding.Some? && BindingMatch(lib, f, planned.binding.value))
  }

  predicate CompiledOk(lib: Lib, plan: Plan, f: Fields) {
    && DecodeText(f, "profile") == Some("research-v2") && DecodePlanBinding(At(f, "plan_binding")) == Some(plan.binding)
    && (At(f, "steps").Array? || At(f, "steps").Null?)
    && var steps := AsArray(At(f, "steps"));
    && |steps| == |Expanded(plan.steps)|
    && forall i :: 0 <= i < |steps| ==> CompiledStepOk(lib, steps[i], Expanded(plan.steps)[i])
  }

  // --- When a compiled step passes --------------------------------------------------

  /** Missing, null, or a string without surrounding white space. */
  predicate Plain(f: Fields, key: string) { IsText(f, key) && !Untrimmed(TextOf(f, key)) }

  /** What a caller can check of a draft step before compiling: every plan-owned field is
      a string (or absent), those compared verbatim are trimmed, the timeout is an
      integer, conditions are objects; and the plan's binding carries a probe id. */
  predicate Faithful(f: Fields, planned: PlanStep) {
    && Plain(f, "plan_step_id") && Plain(f, "trigger") && Plain(f, "context_key")
    && Plain(f, "idempotency") && Plain(f, "side_effect") && IsText(f, "action") && IsText(f, "value")
    && IsText(f, "target_binding_id") && DecodeInt(At(f, "timeout_ms")).Some?
    && DecodeConditions(At(f, "preconditions")).Some? && DecodeConditions(At(f, "postconditions")).Some?
    && (RequiresBinding(planned.action) ==>
          Plain(f, "target_binding_id") && planned.binding.Some? && planned.binding.value.probeId != "")
  }

  predicate TextIs(g: Fields, key: string, text: string) { key in g && g[key] == String(text) }

  lemma CompiledKept(lib: Lib, f: Fields, planned: PlanStep)
    ensures forall key :: key !in ResearchV2.COMPILER_FIELDS && key != "target" ==>
              var g := CompiledStep(lib, f, planned); At(g, key) == At(f, key) && (key in g <==> key in f)
    ensures "target" !in CompiledStep(lib, f, planned)
  {
  }

  lemma CompiledBare(lib: Lib, f: Fields, planned: PlanStep)
    requires forall key :: key in ResearchV2.COMPILER_FIELDS ==> key !in f
    requires planned.binding.None? || planned.binding.value.probeId == ""
    ensures var g := CompiledStep(lib, f, planned);
            && "probe_id" !in g && "observation_id" !in g && "observation_sha256" !in g
            && "page_state_id" !in g && "selected_candidate_id" !in g
            && At(g, "locator_candidates")
               == if planned.binding.None? then Null else Encoded(lib, planned.binding.value.candidates)
  {
  }

  lemma CompiledBound(lib: Lib, f: Fields, planned: PlanStep)
    requires planned.binding.Some? && planned.binding.value.probeId != ""
    ensures var g := CompiledStep(lib, f, planned); var b := planned.binding.value;
            && TextIs(g, "probe_id", b.probeId) && TextIs(g, "observation_id", b.observationId)
            && TextIs(g, "observation_sha256", b.observationSha) && TextIs(g, "page_state_id", b.pageStateId)
            && TextIs(g, "selected_candidate_id", b.selectedId)
            && At(g, "locator_candidates") == Encoded(lib, b.candidates)
  {
  }

  lemma EncodedDecodes(lib: Lib, candidates: seq<Candidate>)
    requires Laws(lib)
    ensures DecodeCandidates(lib, Encoded(lib, candidates)) == Some(candidates)
  {
    var items := Encoded(lib, candidates).items;
    assert forall i :: 0 <= i < |items| ==> lib.decode(items[i]) == Some(candidates[i]);
    assert DecodeCandidates(lib, Array(items)).value == candidates;
  }

  /** Decoding keeps every object and adds empty ones for nulls, so nothing that was
      preserved is lost. */
  lemma {:induction false} ObjectsDecode(items: seq<Value>, c: Fields)
    requires c in Objects(items)
    ensures exists i :: 0 <= i < |items| && items[i] == Object(c)
  {
    if items[0].Object? && items[0].fields == c {
      assert items[0] == Object(c);
    } else {
      ObjectsDecode(items[1..], c);
      var i :| 0 <= i < |items[1..]| && items[1..][i] == Object(c);
      assert items[i + 1] == Object(c);
    }
  }

  lemma PreservesDecoded(lib: Lib, v: Value, planned: seq<string>)
    requires DecodeConditions(v).Some? && Preserves(lib, Objects(AsArray(v)), planned)
    ensures Preserves(lib, DecodeConditions(v).value, planned)
  {
    var objects, decoded := Objects(AsArray(v)), DecodeConditions(v).value;
    if planned != [] {
      ObjectsDecode(AsArray(v), objects[0]);
    }
    forall k | 0 <= k < |planned| && !lib.freeText(planned[k]) ensures Met(lib, decoded, planned[k]) {
      var i :| 0 <= i < |objects| && lib.matches(objects[i], planned[k]);
      ObjectsDecode(AsArray(v), objects[i]);
      var n :| 0 <= n < |AsArray(v)| && AsArray(v)[n] == Object(objects[i]);
      assert decoded[n] == objects[i];
    }
  }

  /** For a field whose trimmed text is the plan's, being verbatim is being trimmed. */
  lemma PlainField(f: Fields, key: string, expected: string)
    requires TrimAt(f, key) == expected
    ensures IsText(f, key) && TextOf(f, key) == expected <==> Plain(f, key)
  {
    Trim(TextAt(f, key));
  }

  lemma TimeoutDecodes(v: Value)
    requires DecodeInt(v).Some?
    ensures DecodeInt(v).value == IntValue(v)
  {
  }

  lemma IntentText(f: Fields)
    requires TrimAt(f, "intent") != ""
    ensures IsText(f, "intent") && TextOf(f, "intent") == TextAt(f, "intent")
  {
    Trim("");
  }

  predicate PlanOwned(key: string) {
    key in {"plan_step_id", "action", "value", "trigger", "context_key", "timeout_ms", "idempotency", "side_effect",
            "intent", "target_binding_id", "preconditions", "postconditions"}
  }

  lemma OwnedKept(lib: Lib, f: Fields, planned: PlanStep)
    ensures forall key :: PlanOwned(key) ==> At(CompiledStep(lib, f, planned), key) == At(f, key)
  {
    CompiledKept(lib, f, planned);
  }

  predicate OwnedFaithful(f: Fields) {
    && Plain(f, "plan_step_id") && Plain(f, "trigger") && Plain(f, "context_key")
    && Plain(f, "idempotency") && Plain(f, "side_effect") && IsText(f, "action") && IsText(f, "value")
    && IsText(f, "target_binding_id") && DecodeInt(At(f, "timeout_ms")).Some?
  }

  lemma TextAgrees(lib: Lib, f: Fields, key: string)
    requires Laws(lib) && IsText(f, key)
    ensures TextOf(f, key) == TextAt(f, key) && lib.normalize(TextOf(f, key)) == lib.normalize(TrimAt(f, key))
  {
    assert lib.normalize(TrimSpace(TextAt(f, key))) == lib.normalize(TextAt(f, key));
  }

  /** The plan-owned checks on the trimmed draft, as compileDraftStep makes them. */
  predicate OwnedDraft(lib: Lib, f: Fields, planned: PlanStep) {
    && Checks(lib, TrimAt(f, "plan_step_id"), TrimAt(f, "action"), TrimAt(f, "value"), TrimAt(f, "trigger"),
              TrimAt(f, "context_key"), IntValue(At(f, "timeout_ms")), TrimAt(f, "idempotency"),
              TrimAt(f, "side_effect"), planned)
    && TrimAt(f, "intent") != ""
  }

  lemma OwnedTyped(lib: Lib, f: Fields, planned: PlanStep)
    requires Laws(lib) && OwnedDraft(lib, f, planned)
    requires OwnedTexts(f) && DecodeInt(At(f, "timeout_ms")).Some?
    ensures OwnedMatch(lib, f, planned) <==>
              && Plain(f, "plan_step_id") && Plain(f, "trigger") && Plain(f, "context_key")
              && Plain(f, "idempotency") && Plain(f, "side_effect")
  {
    TextAgrees(lib, f, "action");
    TextAgrees(lib, f, "value");
    TextAgrees(lib, f, "intent");
    TimeoutDecodes(At(f, "timeout_ms"));
    PlainField(f, "plan_step_id", planned.id);
    PlainField(f, "trigger", planned.trigger);
    PlainField(f, "context_key", planned.contextKey);
    PlainField(f, "idempotency", planned.idempotency);
    PlainField(f, "side_effect", planned.sideEffect);
    Trim(TextAt(f, "value"));
  }

  lemma OwnedIff(lib: Lib, f: Fields, planned: PlanStep)
    requires Laws(lib) && OwnedDraft(lib, f, planned)
    ensures OwnedFaithful(f) <==>
              OwnedTexts(f) && DecodeInt(At(f, "timeout_ms")).Some? && OwnedMatch(lib, f, planned)
  {
    IntentText(f);
    if OwnedTexts(f) && DecodeInt(At(f, "timeout_ms")).Some? {
      OwnedTyped(lib, f, planned);
    }
  }

  /** `g` has the plan-owned fields of `f`. */
  predicate SameOwned(f: Fields, g: Fields) {
    && At(g, "plan_step_id") == At(f, "plan_step_id") && At(g, "action") == At(f, "action")
    && At(g, "value") == At(f, "value") && At(g, "trigger") == At(f, "trigger")
    && At(g, "context_key") == At(f, "context_key") && At(g, "timeout_ms") == At(f, "timeout_ms")
    && At(g, "idempotency") == At(f, "idempotency") && At(g, "side_effect") == At(f, "side_effect")
    && At(g, "intent") == At(f, "intent") && At(g, "target_binding_id") == At(f, "target_binding_id")
    && At(g, "preconditions") == At(f, "preconditions") && At(g, "postconditions") == At(f, "postconditions")
  }

  lemma CompiledOwned(lib: Lib, f: Fields, planned: PlanStep)
    ensures SameOwned(f, CompiledStep(lib, f, planned))
  {
    OwnedKept(lib, f, planned);
  }

  lemma SameOwnedMatch(lib: Lib, f: Fields, g: Fields, planned: PlanStep)
    requires SameOwned(f, g)
    ensures OwnedTexts(g) == OwnedTexts(f)
    ensures OwnedTexts(f) && DecodeInt(At(f, "timeout_ms")).Some? ==>
              OwnedMatch(lib, g, planned) == OwnedMatch(lib, f, planned)
  {
  }

  /** The compiler's own fields always decode, and to the plan's values. */
  lemma CompilerFieldsDecode(lib: Lib, f: Fields, planned: PlanStep)
    requires Laws(lib) && forall key :: key in ResearchV2.COMPILER_FIELDS ==> key !in f
    ensures var g := CompiledStep(lib, f, planned);
            && CompilerTexts(g) && TextOf(g, "semantic_target") == planned.target
            && DecodeCandidates(lib, At(g, "locator_candidates"))
               == Some(if planned.binding.None? then [] else planned.binding.value.candidates)
            && (planned.binding.Some? && planned.binding.value.probeId != "" ==>
                  var b := planned.binding.value;
                  && TextOf(g, "probe_id") == b.probeId && TextOf(g, "observation_id") == b.observationId
                  && TextOf(g, "observation_sha256") == b.observationSha && TextOf(g, "page_state_id") == b.pageStateId
                  && TextOf(g, "selected_candidate_id") == b.selectedId)
            && (planned.binding.None? || planned.binding.value.probeId == "" ==> TextOf(g, "observation_id") == "")
  {
    CompiledTarget(lib, f, planned);
    if planned.binding.Some? {
      EncodedDecodes(lib, planned.binding.value.candidates);
    }
    if planned.binding.None? || planned.binding.value.probeId == "" {
      CompiledBare(lib, f, planned);
    } else {
      CompiledBound(lib, f, planned);
    }
  }

  predicate ConditionsDecode(f: Fields) {
    DecodeConditions(At(f, "preconditions")).Some? && DecodeConditions(At(f, "postconditions")).Some?
  }

  lemma ConditionsKept(lib: Lib, f: Fields, g: Fields, planned: PlanStep)
    requires SameOwned(f, g) && ConditionsDecode(f)
    requires Preserves(lib, Objects(AsArray(At(f, "preconditions"))), planned.preconditions)
    requires Preserves(lib, Objects(AsArray(At(f, "postconditions"))), planned.completionConditions)
    ensures ConditionsDecode(g) && ConditionsMatch(lib, g, planned)
  {
    PreservesDecoded(lib, At(f, "preconditions"), planned.preconditions);
    PreservesDecoded(lib, At(f, "postconditions"), planned.completionConditions);
  }

  lemma BindingIff(lib: Lib, f: Fields, planned: PlanStep)
    requires Laws(lib) && RequiresBinding(planned.action) && BindingAgrees(lib, f, planned)
    requires forall key :: key in ResearchV2.COMPILER_FIELDS ==> key !in f
    requires Decodes(lib, CompiledStep(lib, f, planned)) && IsText(f, "target_binding_id")
    ensures BindingMatch(lib, CompiledStep(lib, f, planned), planned.binding.value) <==>
              Plain(f, "target_binding_id") && planned.binding.value.probeId != ""
  {
    var b := planned.binding.value;
    CompilerFieldsDecode(lib, f, planned);
    CompiledOwned(lib, f, planned);
    PlainField(f, "target_binding_id", b.id);
    if b.probeId == "" {
      NotBlank(b.observationId);
    }
  }

  lemma NotBlank(s: string)
    requires !Blank(s)
    ensures s != ""
  {
    Trim("");
  }

  lemma DraftParts(lib: Lib, f: Fields, planned: PlanStep)
    requires DraftStepOk(lib, f, planned)
    ensures OwnedDraft(lib, f, planned) && BindingAgrees(lib, f, planned)
    ensures forall key :: key in ResearchV2.COMPILER_FIELDS ==> key !in f
    ensures Preserves(lib, Objects(AsArray(At(f, "preconditions"))), planned.preconditions)
    ensures Preserves(lib, Objects(AsArray(At(f, "postconditions"))), planned.completionConditions)
  {
  }

  predicate BindingFaithful(f: Fields, planned: PlanStep) {
    RequiresBinding(planned.action) ==>
      Plain(f, "target_binding_id") && planned.binding.Some? && planned.binding.value.probeId != ""
  }

  lemma FaithfulParts(f: Fields, planned: PlanStep)
    ensures Faithful(f, planned) <==> OwnedFaithful(f) && ConditionsDecode(f) && BindingFaithful(f, planned)
  {
  }

  predicate RequiredMatch(lib: Lib, g: Fields, planned: PlanStep)
    requires Decodes(lib, g)
  {
    RequiresBinding(planned.action) ==> planned.binding.Some? && BindingMatch(lib, g, planned.binding.value)
  }

  lemma StepParts(lib: Lib, g: Fields, planned: PlanStep)
    ensures CompiledStepOk(lib, Object(g), planned) <==>
              && Decodes(lib, g) && OwnedMatch(lib, g, planned) && TextOf(g, "semantic_target") == planned.target
              && ConditionsMatch(lib, g, planned) && RequiredMatch(lib, g, planned)
  {
  }

  lemma DecodesIff(lib: Lib, f: Fields, planned: PlanStep)
    requires Laws(lib) && forall key :: key in ResearchV2.COMPILER_FIELDS ==> key !in f
    ensures Decodes(lib, CompiledStep(lib, f, planned)) <==>
              OwnedTexts(f) && DecodeInt(At(f, "timeout_ms")).Some? && ConditionsDecode(f)
  {
    CompilerFieldsDecode(lib, f, planned);
    CompiledOwned(lib, f, planned);
    SameOwnedMatch(lib, f, CompiledStep(lib, f, planned), planned);
  }

  /** A compiled step passes exactly when its draft step was faithful. */
  lemma StepIff(lib: Lib, f: Fields, planned: PlanStep)
    requires Laws(lib) && DraftStepOk(lib, f, planned)
    ensures CompiledStepOk(lib, Object(CompiledStep(lib, f, planned)), planned) <==> Faithful(f, planned)
  {
    var g := CompiledStep(lib, f, planned);
    DraftParts(lib, f, planned);
    FaithfulParts(f, planned);
    StepParts(lib, g, planned);
    DecodesIff(lib, f, planned);
    OwnedIff(lib, f, planned);
    if Decodes(lib, g) {
      CompiledOwned(lib, f, planned);
      SameOwnedMatch(lib, f, g, planned);
      CompilerFieldsDecode(lib, f, planned);
      ConditionsKept(lib, f, g, planned);
      if RequiresBinding(planned.action) {
        BindingIff(lib, f, planned);
      }
    }
  }

  // --- Whole cases ------------------------------------------------------------------

  lemma PlanBindingDecodes(b: PlanBinding)
    ensures DecodePlanBinding(PlanBindingValue(b)) == Some(b)
  {
    var f := PlanBindingValue(b).fields;
    assert At(f, "plan_id") == String(b.planId) && At(f, "sha256") == String(b.sha);
    assert At(f, "version") == Number(b.version as real);
  }

  lemma CompiledHeader(lib: Lib, plan: Plan, f: Fields)
    requires |AsArray(At(f, "steps"))| == |Expanded(plan.steps)|
    ensures var g := Compiled(lib, plan, f);
            && At(g, "steps") == Array(CompiledSteps(lib, AsArray(At(f, "steps")), Expanded(plan.steps)))
            && At(g, "plan_binding") == PlanBindingValue(plan.binding)
            && At(g, "observation_bindings") == Array(Observed(Distinct(Expanded(plan.steps))))
            && At(g, "profile") == At(f, "profile")
  {
  }

  /** The compiled case has exactly the occurrence-expanded plan steps, in order, and it
      passes validateCompiledCaseSemantics exactly when every draft step is faithful. */
  lemma CompilationPreservesPlan(lib: Lib, plan: Plan, binding: PlanBinding, draft: Value)
    requires Laws(lib) && DraftOk(lib, plan, binding, draft)
    ensures var planned := Expanded(plan.steps);
            var steps := At(draft.fields, "steps").items;
            var compiled := AsArray(At(Compiled(lib, plan, draft.fields), "steps"));
            && |compiled| == |planned|
            && (forall i :: 0 <= i < |planned| ==> TrimAt(AsObject(compiled[i]), "plan_step_id") == planned[i].id)
            && (CompiledOk(lib, plan, Compiled(lib, plan, draft.fields)) <==>
                  forall i :: 0 <= i < |steps| ==> Faithful(steps[i].fields, planned[i]))
  {
    var planned := Expanded(plan.steps);
    var steps := At(draft.fields, "steps").items;
    var g := Compiled(lib, plan, draft.fields);
    CompiledHeader(lib, plan, draft.fields);
    PlanBindingDecodes(plan.binding);
    var compiled := AsArray(At(g, "steps"));
    forall i | 0 <= i < |steps|
      ensures CompiledStepOk(lib, compiled[i], planned[i]) <==> Faithful(steps[i].fields, planned[i])
      ensures TrimAt(AsObject(compiled[i]), "plan_step_id") == planned[i].id
    {
      assert ItemOk(lib, steps[i], planned[i]);
      StepIff(lib, steps[i].fields, planned[i]);
      CompiledOwned(lib, steps[i].fields, planned[i]);
    }
    CompiledCase(lib, plan, g, compiled);
  }

  lemma CompiledCase(lib: Lib, plan: Plan, g: Fields, steps: seq<Value>)
    requires At(g, "profile") == String("research-v2") && At(g, "plan_binding") == PlanBindingValue(plan.binding)
    requires At(g, "steps") == Array(steps) && |steps| == |Expanded(plan.steps)|
    ensures CompiledOk(lib, plan, g) <==>
              forall i :: 0 <= i < |steps| ==> CompiledStepOk(lib, steps[i], Expanded(plan.steps)[i])
  {
    PlanBindingDecodes(plan.binding);
  }
}
