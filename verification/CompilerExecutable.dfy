/** The compiled case against the whole executable research-v2 validator: exactly which
    valid drafts compile to a case that every later check accepts, and two valid drafts
    that do not (internal/taskplan/compiler.go, internal/dsl/research_v2.go). */
module CompilerExecutable {
  import opened Wrappers
  import opened Json
  import opened Text
  import opened DslCase
  import opened BrowserContract
  import opened Compiler
  import opened CompilerSound
  import opened CompilerLineage
  import ResearchV2

  /** The JSON of a candidate names its id. */
  ghost predicate EncodesId(lib: Lib) { forall c :: At(AsObject(lib.encode(c)), "candidate_id") == String(c.id) }

  predicate Within(s: string, limit: nat) { 0 < |TrimSpace(s)| <= limit }

  /** Every candidate was observed once and is visible; NewTargetBinding asks that only of
      the selected one. */
  predicate Usable(b: TargetBinding) {
    forall i :: 0 <= i < |b.candidates| ==> b.candidates[i].observedCount == 1 && b.candidates[i].visible
  }

  predicate TraceBounded(b: TargetBinding) {
    && Within(b.probeId, 64) && Within(b.observationId, 64) && Within(b.pageStateId, 256) && Within(b.selectedId, 64)
  }

  predicate BindingRuns(b: TargetBinding) { Usable(b) && (b.probeId != "" ==> TraceBounded(b)) }

  /** What the executable phase adds, as a condition on the draft step and its plan step. */
  predicate Runnable(f: Fields, planned: PlanStep) {
    && (ResearchV2.HasTarget(TextAt(f, "action")) ==> Within(planned.target, 500))
    && (ResearchV2.RequiresBinding(TextAt(f, "action")) ==>
          planned.binding.Some? && BindingRuns(planned.binding.value))
  }

  predicate RunnableAt(steps: seq<Value>, planned: seq<PlanStep>, i: int)
    requires |steps| == |planned| && 0 <= i < |steps|
  {
    Runnable(AsObject(steps[i]), planned[i])
  }

  // --- One step -------------------------------------------------------------------

  lemma TextBounded(g: Fields, key: string, s: string, limit: nat)
    requires TextIs(g, key, s)
    ensures BoundedText(g, key, limit) <==> Within(s, limit)
  {
  }

  lemma TargetBounded(lib: Lib, f: Fields, planned: PlanStep)
    requires "semantic_target" !in f
    ensures BoundedText(CompiledStep(lib, f, planned), "semantic_target", 500) <==> Within(planned.target, 500)
  {
    CompiledTarget(lib, f, planned);
    Trim("");
  }

  lemma CandidateIff(lib: Lib, c: Candidate)
    requires Laws(lib) && ValidCandidate(c)
    ensures ResearchV2.V2CandidateOk(lib.decode, lib.encode(c)) <==> c.observedCount == 1 && c.visible
  {
    assert lib.decode(lib.encode(c)) == Some(c);
  }

  lemma SelectedExists(lib: Lib, b: TargetBinding)
    requires EncodesId(lib) && HasId(b.candidates, b.selectedId)
    ensures ResearchV2.V2CandidateExists(Encoded(lib, b.candidates), TrimSpace(b.selectedId))
  {
    var i :| 0 <= i < |b.candidates| && b.candidates[i].id == b.selectedId;
    var items := AsArray(Encoded(lib, b.candidates));
    assert items[i] == lib.encode(b.candidates[i]);
    assert At(AsObject(lib.encode(b.candidates[i])), "candidate_id") == String(b.selectedId);
    assert TrimAt(AsObject(items[i]), "candidate_id") == TrimSpace(b.selectedId);
  }

  lemma CandidatesIff(lib: Lib, b: TargetBinding, selected: string)
    requires Laws(lib) && EncodesId(lib) && ValidBinding(lib.digest, b)
    requires selected == "" || selected == TrimSpace(b.selectedId)
    ensures ResearchV2.TargetCandidatesOk(lib.decode, Encoded(lib, b.candidates), selected) <==> Usable(b)
  {
    var items := Encoded(lib, b.candidates).items;
    forall i | 0 <= i < |items|
      ensures ResearchV2.V2CandidateOk(lib.decode, items[i])
         <==> b.candidates[i].observedCount == 1 && b.candidates[i].visible
    {
      assert OneOk(b.candidates, b.elementRefs, b.action, b.selectedId, i);
      CandidateIff(lib, b.candidates[i]);
    }
    SelectedExists(lib, b);
  }

  lemma HexTrimmed(s: string)
    requires ResearchV2.HexSha(s)
    ensures TrimSpace(s) == s
  {
    Trim(s);
  }

  lemma LineageTextsIff(lib: Lib, f: Fields, planned: PlanStep)
    requires planned.binding.Some? && planned.binding.value.probeId != "" && Hashed(planned.binding.value)
    ensures ResearchV2.LineageTextsOk(CompiledStep(lib, f, planned)) <==> TraceBounded(planned.binding.value)
  {
    var g, b := CompiledStep(lib, f, planned), planned.binding.value;
    CompiledBound(lib, f, planned);
    TextBounded(g, "probe_id", b.probeId, 64);
    TextBounded(g, "observation_id", b.observationId, 64);
    TextBounded(g, "page_state_id", b.pageStateId, 256);
    TextBounded(g, "selected_candidate_id", b.selectedId, 64);
    HexTrimmed(b.observationSha);
  }

  lemma TargetIff(lib: Lib, f: Fields, planned: PlanStep)
    requires Laws(lib) && EncodesId(lib) && BoundedText(f, "target_binding_id", 64)
    requires forall key :: key in ResearchV2.COMPILER_FIELDS ==> key !in f
    requires planned.binding.Some? ==>
               ValidBinding(lib.digest, planned.binding.value) && Hashed(planned.binding.value)
    ensures ResearchV2.TargetOk(lib.decode, CompiledStep(lib, f, planned)) <==>
              Within(planned.target, 500) && planned.binding.Some? && BindingRuns(planned.binding.value)
  {
    var g := CompiledStep(lib, f, planned);
    CompiledOwned(lib, f, planned);
    assert BoundedText(g, "target_binding_id", 64);
    TargetBounded(lib, f, planned);
    CompiledLineage(lib, f, planned);
    if planned.binding.None? || planned.binding.value.probeId == "" {
      CompiledBare(lib, f, planned);
      Trim("");
    } else {
      CompiledBound(lib, f, planned);
      LineageTextsIff(lib, f, planned);
    }
    if planned.binding.Some? {
      CandidatesIff(lib, planned.binding.value, TrimAt(g, "selected_candidate_id"));
    }
  }

  /** `g` has the fields of `f` that the author writes. */
  ghost predicate AuthoredKept(f: Fields, g: Fields) {
    forall key :: key !in ResearchV2.COMPILER_FIELDS && key != "target" ==>
      At(g, key) == At(f, key) && (key in g <==> key in f)
  }

  lemma MetaKept(action: string, f: Fields, g: Fields)
    requires AuthoredKept(f, g) && ResearchV2.V2MetaOk(action, f)
    ensures ResearchV2.V2MetaOk(action, g)
  {
    assert At(g, "plan_step_id") == At(f, "plan_step_id") && At(g, "intent") == At(f, "intent");
    assert At(g, "preconditions") == At(f, "preconditions") && At(g, "postconditions") == At(f, "postconditions");
    assert At(g, "idempotency") == At(f, "idempotency") && At(g, "side_effect") == At(f, "side_effect");
  }

  lemma ActionFieldsKept(action: string, f: Fields, g: Fields)
    requires AuthoredKept(f, g) && ResearchV2.V2ActionFieldsOk(action, f)
    ensures ResearchV2.V2ActionFieldsOk(action, g)
  {
    assert At(g, "value") == At(f, "value") && At(g, "trigger") == At(f, "trigger");
    assert At(g, "context_key") == At(f, "context_key") && At(g, "target_binding_id") == At(f, "target_binding_id");
    assert At(g, "timeout_ms") == At(f, "timeout_ms") && ("timeout_ms" in g <==> "timeout_ms" in f);
  }

  /** Apart from what the compiler writes, a step satisfies the executable phase's rules
      because its draft satisfied the draft phase's. */
  lemma DraftRulesKept(decode: ResearchV2.Decoder, f: Fields, g: Fields)
    requires ResearchV2.V2StepOk(decode, Object(f), Draft)
    requires AuthoredKept(f, g) && "target" !in g
    ensures ResearchV2.V2StepOk(decode, Object(g), Executable)
       <==> ResearchV2.V2PhaseOk(decode, TextAt(f, "action"), g, Executable)
  {
    forall key | key in g ensures key in ResearchV2.STEP_FIELDS {
      assert key !in ResearchV2.COMPILER_FIELDS ==> key in f;
    }
    assert At(g, "action") == At(f, "action");
    MetaKept(TextAt(f, "action"), f, g);
    ActionFieldsKept(TextAt(f, "action"), f, g);
  }

  /** A compiled step is executable exactly when its draft step is runnable. */
  lemma StepRuns(lib: Lib, f: Fields, planned: PlanStep)
    requires Laws(lib) && EncodesId(lib) && ResearchV2.V2StepOk(lib.decode, Object(f), Draft)
    requires planned.binding.Some? ==>
               ValidBinding(lib.digest, planned.binding.value) && Hashed(planned.binding.value)
    ensures ResearchV2.V2StepOk(lib.decode, Object(CompiledStep(lib, f, planned)), Executable) <==> Runnable(f, planned)
  {
    assert forall key :: key in ResearchV2.COMPILER_FIELDS ==> key !in f;
    CompiledKept(lib, f, planned);
    DraftRulesKept(lib.decode, f, CompiledStep(lib, f, planned));
    TargetBounded(lib, f, planned);
    if ResearchV2.RequiresBinding(TextAt(f, "action")) {
      TargetIff(lib, f, planned);
    }
  }

  // --- Whole cases ----------------------------------------------------------------

  lemma HashedAt(planned: seq<PlanStep>, i: nat)
    requires i < |planned| && planned[i].binding.Some?
    requires IdsDetermine(planned) && AllHashed(Distinct(planned))
    ensures Hashed(planned[i].binding.value)
  {
    var n := DistinctCovers(planned, i);
    var k := DistinctFrom(planned, n);
    assert Twins(planned, i, k);
  }

  lemma HeaderKept(f: Fields, g: Fields)
    requires HeaderOk(f) && At(g, "name") == At(f, "name") && At(g, "description") == At(f, "description")
    requires At(g, "base_url") == At(f, "base_url") && At(g, "steps").Array? && At(g, "steps").items != []
    requires At(g, "input_contract") == At(f, "input_contract") && ("input_contract" in g <==> "input_contract" in f)
    requires At(g, "output_contract") == At(f, "output_contract") && ("output_contract" in g <==> "output_contract" in f)
    ensures HeaderOk(g)
  {
  }

  lemma CaseRulesKept(lib: Lib, plan: Plan, f: Fields)
    requires ResearchV2.V2HeaderOk(f) && |AsArray(At(f, "steps"))| == |Expanded(plan.steps)|
    ensures ResearchV2.V2HeaderOk(Compiled(lib, plan, f))
  {
    var g := Compiled(lib, plan, f);
    CompiledHeader(lib, plan, f);
    HeaderKept(f, g);
    assert At(g, "input_contract") == At(f, "input_contract") && At(g, "output_contract") == At(f, "output_contract");
  }

  predicate ExecutableAt(lib: Lib, steps: seq<Value>, i: int)
    requires 0 <= i < |steps|
  {
    ResearchV2.V2StepOk(lib.decode, steps[i], Executable)
  }

  lemma StepsRun(lib: Lib, steps: seq<Value>, planned: seq<PlanStep>)
    requires Laws(lib) && EncodesId(lib) && |steps| == |planned|
    requires forall i :: 0 <= i < |steps| ==> ResearchV2.V2StepOk(lib.decode, steps[i], Draft)
    requires AllValid(lib, planned) && IdsDetermine(planned) && AllHashed(Distinct(planned))
    ensures forall i :: 0 <= i < |steps| ==>
              (ExecutableAt(lib, CompiledSteps(lib, steps, planned), i) <==> RunnableAt(steps, planned, i))
  {
    forall i | 0 <= i < |steps|
      ensures ExecutableAt(lib, CompiledSteps(lib, steps, planned), i) <==> RunnableAt(steps, planned, i)
    {
      assert ResearchV2.V2StepOk(lib.decode, steps[i], Draft);
      if planned[i].binding.Some? {
        HashedAt(planned, i);
      }
      StepRuns(lib, steps[i].fields, planned[i]);
    }
  }

  lemma ExecutableParts(lib: Lib, g: Fields)
    requires ResearchV2.V2HeaderOk(g) && At(g, "plan_binding").Object? && At(g, "observation_bindings").Array?
    ensures var steps := AsArray(At(g, "steps"));
            var bindings := ResearchV2.Bindings(AsArray(At(g, "observation_bindings")));
            ResearchV2.V2Ok(lib.decode, g, Executable) <==>
              && (forall i :: 0 <= i < |steps| ==> ExecutableAt(lib, steps, i))
              && bindings.Some? && ResearchV2.V2Lineage(steps, bindings.value)
  {
    var steps := At(g, "steps").items;
    if forall i :: 0 <= i < |steps| ==> ExecutableAt(lib, steps, i) {
      forall i | 0 <= i < |steps| ensures ResearchV2.V2StepOk(lib.decode, steps[i], Executable) {
        assert ExecutableAt(lib, steps, i);
      }
    }
  }

  /** A valid draft that compiles becomes a valid executable case exactly when the plan's
      hashes are hexadecimal and every step is traceable and runnable. */
  lemma CompilationRuns(lib: Lib, plan: Plan, binding: PlanBinding, draft: Value)
    requires Laws(lib) && EncodesId(lib)
    requires DraftOk(lib, plan, binding, draft) && ResearchV2.V2Ok(lib.decode, draft.fields, Draft)
    requires AllValid(lib, Expanded(plan.steps)) && IdsDetermine(Expanded(plan.steps))
    ensures var planned := Expanded(plan.steps); var steps := At(draft.fields, "steps").items;
            ResearchV2.V2Ok(lib.decode, Compiled(lib, plan, draft.fields), Executable) <==>
              && AllHashed(Distinct(planned))
              && forall i :: 0 <= i < |steps| ==> TraceableAt(steps, planned, i) && RunnableAt(steps, planned, i)
  {
    var planned := Expanded(plan.steps);
    var steps := At(draft.fields, "steps").items;
    CompiledHeader(lib, plan, draft.fields);
    CaseRulesKept(lib, plan, draft.fields);
    ExecutableParts(lib, Compiled(lib, plan, draft.fields));
    CompilationTracesPlan(lib, plan, binding, draft);
    if AllHashed(Distinct(planned)) {
      StepsRun(lib, steps, planned);
      RunsAndTraces(lib, steps, planned);
    }
  }

  lemma RunsAndTraces(lib: Lib, steps: seq<Value>, planned: seq<PlanStep>)
    requires |steps| == |planned|
    requires forall i :: 0 <= i < |steps| ==>
               (ExecutableAt(lib, CompiledSteps(lib, steps, planned), i) <==> RunnableAt(steps, planned, i))
    ensures (forall i :: 0 <= i < |steps| ==> ExecutableAt(lib, CompiledSteps(lib, steps, planned), i))
       <==> (forall i :: 0 <= i < |steps| ==> RunnableAt(steps, planned, i))
  {
  }

  /** Every check after compilation together: the compiled-case check and the executable
      validator accept the case, and accept its canonical form, exactly when every step is
      faithful, traceable and runnable and the hashes are hexadecimal. */
  lemma CompilationSucceeds(lib: Lib, plan: Plan, binding: PlanBinding, draft: Value)
    requires Laws(lib) && EncodesId(lib)
    requires DraftOk(lib, plan, binding, draft) && ResearchV2.V2Ok(lib.decode, draft.fields, Draft)
    requires AllValid(lib, Expanded(plan.steps)) && IdsDetermine(Expanded(plan.steps))
    ensures var planned := Expanded(plan.steps); var steps := At(draft.fields, "steps").items;
            var g := Compiled(lib, plan, draft.fields);
            var accepted := CompiledOk(lib, plan, g) && ResearchV2.V2Ok(lib.decode, g, Executable);
            && (accepted <==>
                  && AllHashed(Distinct(planned))
                  && (forall i :: 0 <= i < |steps| ==> Faithful(steps[i].fields, planned[i]))
                  && forall i :: 0 <= i < |steps| ==> TraceableAt(steps, planned, i) && RunnableAt(steps, planned, i))
            && (accepted ==> ResearchV2.V2Ok(lib.decode, ResearchV2.CanonV2(g), Executable))
  {
    CompilationPreservesPlan(lib, plan, binding, draft);
    CompilationRuns(lib, plan, binding, draft);
    var g := Compiled(lib, plan, draft.fields);
    if ResearchV2.V2Ok(lib.decode, g, Executable) {
      ResearchV2.V2Canonical(lib.decode, g, Executable);
    }
  }
}
