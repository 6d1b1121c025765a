/** What the compiled-case check demands of a case, field by field and in the plan's own terms
    (internal/taskplan/compiler.go, validateCompiledCaseSemantics). */
module CompilerChecks {
  import opened Wrappers
  import opened Json
  import opened Text
  import opened DslCase
  import opened BrowserContract
  import opened Compiler
  import opened CompilerSound

  /** A text field that reads exactly so; a missing or null one reads as nothing. */
  predicate Reads(f: Fields, key: string, text: string) {
    At(f, key) == String(text) || (At(f, key) == Null && text == "")
  }

  predicate Typed(f: Fields, key: string) { At(f, key).String? || At(f, key).Null? }

  /** The plan's fields; a padded value or action is tolerated, nothing else is. */
  predicate PlanRead(lib: Lib, f: Fields, planned: PlanStep) {
    && Reads(f, "plan_step_id", planned.id) && Reads(f, "trigger", planned.trigger)
    && Reads(f, "context_key", planned.contextKey) && Reads(f, "idempotency", planned.idempotency)
    && Reads(f, "side_effect", planned.sideEffect) && Reads(f, "semantic_target", planned.target)
    && Typed(f, "action") && lib.normalize(TextAt(f, "action")) == planned.action
    && Typed(f, "value") && TrimSpace(TextAt(f, "value")) == planned.value
    && Typed(f, "intent") && TrimSpace(TextAt(f, "intent")) != ""
  }

  /** A whole 64-bit number, and the plan's when the plan has one. */
  predicate TimeoutRead(v: Value, planned: int) {
    && (v.Null? || (v.Number? && v.number.Floor as real == v.number
                    && -0x8000_0000_0000_0000 <= v.number.Floor <= 0x7fff_ffff_ffff_ffff))
    && (planned > 0 ==> v == Number(planned as real))
  }

  /** A list of objects that meets every planned condition that is not free text. */
  predicate ConditionsRead(lib: Lib, v: Value, planned: seq<string>) {
    && (v.Null? || (v.Array? && forall i :: 0 <= i < |v.items| ==> v.items[i].Object? || v.items[i].Null?))
    && (|planned| > 0 ==> |AsArray(v)| > 0)
    && forall k :: 0 <= k < |planned| ==>
         lib.freeText(planned[k]) || exists i :: 0 <= i < |AsArray(v)| && lib.matches(AsObject(AsArray(v)[i]), planned[k])
  }

  predicate CandidatesTyped(lib: Lib, v: Value) {
    v.Null? || (v.Array? && forall i :: 0 <= i < |v.items| ==> lib.decode(v.items[i]).Some?)
  }

  predicate CandidatesRead(lib: Lib, v: Value, candidates: seq<Candidate>)
    requires CandidatesTyped(lib, v)
  {
    && |AsArray(v)| == |candidates|
    && forall i :: 0 <= i < |candidates| ==> lib.encode(lib.decode(AsArray(v)[i]).value) == lib.encode(candidates[i])
  }

  /** A click, input or capture_text carries its plan step's whole binding. */
  predicate BindingRead(lib: Lib, f: Fields, planned: PlanStep)
    requires CandidatesTyped(lib, At(f, "locator_candidates"))
  {
    planned.action == "click" || planned.action == "input" || planned.action == "capture_text" ==>
      && planned.binding.Some?
      && Reads(f, "target_binding_id", planned.binding.value.id)
      && Reads(f, "probe_id", planned.binding.value.probeId)
      && Reads(f, "observation_id", planned.binding.value.observationId)
      && Reads(f, "observation_sha256", planned.binding.value.observationSha)
      && Reads(f, "page_state_id", planned.binding.value.pageStateId)
      && Reads(f, "selected_candidate_id", planned.binding.value.selectedId)
      && CandidatesRead(lib, At(f, "locator_candidates"), planned.binding.value.candidates)
  }

  predicate LineageTyped(f: Fields) {
    && Typed(f, "target_binding_id") && Typed(f, "probe_id") && Typed(f, "observation_id")
    && Typed(f, "observation_sha256") && Typed(f, "page_state_id") && Typed(f, "selected_candidate_id")
  }

  predicate StepRead(lib: Lib, v: Value, planned: PlanStep) {
    && (v.Object? || v.Null?)
    && var f := AsObject(v);
    && PlanRead(lib, f, planned) && TimeoutRead(At(f, "timeout_ms"), planned.timeoutMS) && LineageTyped(f)
    && CandidatesTyped(lib, At(f, "locator_candidates"))
    && ConditionsRead(lib, At(f, "preconditions"), planned.preconditions)
    && ConditionsRead(lib, At(f, "postconditions"), planned.completionConditions)
    && BindingRead(lib, f, planned)
  }

  lemma ReadsIff(f: Fields, key: string, text: string)
    ensures Reads(f, key, text) <==> IsText(f, key) && TextOf(f, key) == text
    ensures Typed(f, key) <==> IsText(f, key)
    ensures IsText(f, key) ==> TextOf(f, key) == TextAt(f, key)
  {
  }

  lemma TimeoutIff(v: Value, planned: int)
    ensures TimeoutRead(v, planned) <==> DecodeInt(v).Some? && (planned > 0 ==> DecodeInt(v).value == planned)
  {
  }

  lemma TextsIff(lib: Lib, f: Fields, planned: PlanStep, timeoutMS: int)
    requires OwnedTexts(f) && IsText(f, "semantic_target") && (planned.timeoutMS > 0 ==> timeoutMS == planned.timeoutMS)
    ensures PlanRead(lib, f, planned) <==>
              && Checks(lib, TextOf(f, "plan_step_id"), TextOf(f, "action"), TextOf(f, "value"), TextOf(f, "trigger"),
                        TextOf(f, "context_key"), timeoutMS, TextOf(f, "idempotency"), TextOf(f, "side_effect"), planned)
              && TrimSpace(TextOf(f, "intent")) != "" && TextOf(f, "semantic_target") == planned.target
  {
  }

  lemma PlanTyped(lib: Lib, f: Fields, planned: PlanStep)
    requires PlanRead(lib, f, planned) && Typed(f, "target_binding_id")
    ensures OwnedTexts(f) && IsText(f, "semantic_target")
  {
  }

  lemma PlanReadIff(lib: Lib, f: Fields, planned: PlanStep)
    ensures PlanRead(lib, f, planned) && TimeoutRead(At(f, "timeout_ms"), planned.timeoutMS)
            && Typed(f, "target_binding_id") <==>
              && OwnedTexts(f) && DecodeInt(At(f, "timeout_ms")).Some? && OwnedMatch(lib, f, planned)
              && IsText(f, "semantic_target") && TextOf(f, "semantic_target") == planned.target
  {
    var timeout := DecodeInt(At(f, "timeout_ms"));
    TimeoutIff(At(f, "timeout_ms"), planned.timeoutMS);
    if PlanRead(lib, f, planned) && Typed(f, "target_binding_id") {
      PlanTyped(lib, f, planned);
    }
    if OwnedTexts(f) && IsText(f, "semantic_target") && timeout.Some?
       && (planned.timeoutMS > 0 ==> timeout.value == planned.timeoutMS) {
      TextsIff(lib, f, planned, timeout.value);
    }
  }

  lemma ConditionsIff(lib: Lib, v: Value, planned: seq<string>)
    ensures ConditionsRead(lib, v, planned) <==>
              DecodeConditions(v).Some? && Preserves(lib, DecodeConditions(v).value, planned)
  {
    if DecodeConditions(v).Some? {
      var conditions := DecodeConditions(v).value;
      forall k | 0 <= k < |planned|
        ensures Met(lib, conditions, planned[k]) <==>
                exists i :: 0 <= i < |AsArray(v)| && lib.matches(AsObject(AsArray(v)[i]), planned[k])
      {
        if Met(lib, conditions, planned[k]) {
          var i :| 0 <= i < |conditions| && lib.matches(conditions[i], planned[k]);
          assert lib.matches(AsObject(AsArray(v)[i]), planned[k]);
        }
        if i :| 0 <= i < |AsArray(v)| && lib.matches(AsObject(AsArray(v)[i]), planned[k]) {
          assert lib.matches(conditions[i], planned[k]);
        }
      }
    }
  }

  lemma CandidatesTypedIff(lib: Lib, v: Value)
    ensures CandidatesTyped(lib, v) <==> DecodeCandidates(lib, v).Some?
  {
  }

  lemma CandidatesIff(lib: Lib, v: Value, candidates: seq<Candidate>)
    requires CandidatesTyped(lib, v) && DecodeCandidates(lib, v).Some?
    ensures CandidatesRead(lib, v, candidates) <==>
              Encoded(lib, DecodeCandidates(lib, v).value) == Encoded(lib, candidates)
  {
    var found := DecodeCandidates(lib, v).value;
    assert |found| == |AsArray(v)|;
    if Encoded(lib, found) == Encoded(lib, candidates) {
      var xs, ys := Encoded(lib, found).items, Encoded(lib, candidates).items;
      assert |xs| == |ys|;
      forall i | 0 <= i < |candidates|
        ensures lib.encode(lib.decode(AsArray(v)[i]).value) == lib.encode(candidates[i])
      {
        assert xs[i] == ys[i];
      }
    }
    if CandidatesRead(lib, v, candidates) {
      assert Encoded(lib, found).items == Encoded(lib, candidates).items;
    }
  }

  lemma BindingIff(lib: Lib, f: Fields, planned: PlanStep)
    requires Decodes(lib, f) && CandidatesTyped(lib, At(f, "locator_candidates"))
    ensures BindingRead(lib, f, planned) <==>
              (RequiresBinding(planned.action) ==> planned.binding.Some? && BindingMatch(lib, f, planned.binding.value))
  {
    if planned.binding.Some? {
      var b := planned.binding.value;
      CandidatesIff(lib, At(f, "locator_candidates"), b.candidates);
      ReadsIff(f, "target_binding_id", b.id);
      ReadsIff(f, "probe_id", b.probeId);
      ReadsIff(f, "observation_id", b.observationId);
      ReadsIff(f, "observation_sha256", b.observationSha);
      ReadsIff(f, "page_state_id", b.pageStateId);
      ReadsIff(f, "selected_candidate_id", b.selectedId);
    }
  }

  lemma LineageIff(f: Fields)
    ensures LineageTyped(f) && IsText(f, "semantic_target") <==>
            CompilerTexts(f) && Typed(f, "target_binding_id")
  {
  }

  /** A compiled step is accepted exactly when it reads so. */
  lemma StepReadIff(lib: Lib, v: Value, planned: PlanStep)
    ensures CompiledStepOk(lib, v, planned) <==> StepRead(lib, v, planned)
  {
    if v.Object? || v.Null? {
      var f := AsObject(v);
      PlanReadIff(lib, f, planned);
      ConditionsIff(lib, At(f, "preconditions"), planned.preconditions);
      ConditionsIff(lib, At(f, "postconditions"), planned.completionConditions);
      CandidatesTypedIff(lib, At(f, "locator_candidates"));
      LineageIff(f);
      if Decodes(lib, f) {
        BindingIff(lib, f, planned);
      }
    }
  }

  /** A compiled case is accepted exactly when it carries the profile and the plan's binding,
      and has one step per expected occurrence that reads as the plan's step. */
  lemma CaseReadIff(lib: Lib, plan: Plan, f: Fields)
    ensures CompiledOk(lib, plan, f) <==>
              && At(f, "profile") == String("research-v2") && (At(f, "steps").Array? || At(f, "steps").Null?)
              && PlanBindingRead(At(f, "plan_binding"), plan.binding)
              && |AsArray(At(f, "steps"))| == |Expanded(plan.steps)|
              && forall i :: 0 <= i < |Expanded(plan.steps)| ==>
                   StepRead(lib, AsArray(At(f, "steps"))[i], Expanded(plan.steps)[i])
  {
    forall v, planned ensures CompiledStepOk(lib, v, planned) <==> StepRead(lib, v, planned) {
      StepReadIff(lib, v, planned);
    }
    PlanBindingIff(At(f, "plan_binding"), plan.binding);
  }

  predicate PlanBindingRead(v: Value, b: PlanBinding) {
    && (v.Object? || v.Null?)
    && var f := AsObject(v);
    && Reads(f, "plan_id", b.planId) && Reads(f, "sha256", b.sha)
    && -0x8000_0000_0000_0000 <= b.version <= 0x7fff_ffff_ffff_ffff
    && (At(f, "version") == Number(b.version as real) || (At(f, "version").Null? && b.version == 0))
  }

  lemma PlanBindingIff(v: Value, b: PlanBinding)
    ensures DecodePlanBinding(v) == Some(b) <==> PlanBindingRead(v, b)
  {
  }
}
