/** The compiled case against the research-v2 lineage validators: its deduplicated
    observation bindings are accepted, and every step's lineage agrees with them, exactly
    when the plan's own bindings say so (internal/dsl/research_v2.go:322-394). */
module CompilerLineage {
  import opened Wrappers
  import opened Json
  import opened Text
  import opened DslCase
  import opened BrowserContract
  import opened Compiler
  import opened CompilerSound
  import opened ResearchV2

  /** Every binding of the plan passed TargetBinding.Validate. */
  ghost predicate AllValid(lib: Lib, planned: seq<PlanStep>) {
    forall i :: 0 <= i < |planned| && planned[i].binding.Some? ==> ValidBinding(lib.digest, planned[i].binding.value)
  }

  /** Bindings are determined by their id (see BrowserContract.DeterminedById). */
  ghost predicate IdsDetermine(planned: seq<PlanStep>) {
    forall i, j :: Twins(planned, i, j) ==> planned[i].binding == planned[j].binding
  }

  predicate Twins(planned: seq<PlanStep>, i: int, j: int) {
    && 0 <= i < |planned| && 0 <= j < |planned| && planned[i].binding.Some? && planned[j].binding.Some?
    && planned[i].binding.value.id == planned[j].binding.value.id
  }

  function TraceOf(b: TargetBinding): ObservationBinding {
    ObservationBinding(b.id, b.sha, b.probeId, b.observationId, b.observationSha,
                       if b.probeId == "" then "" else b.pageStateId)
  }

  predicate Hashed(b: TargetBinding) { HexSha(b.sha) && HexSha(b.observationSha) }

  lemma ObservationDecodes(b: TargetBinding)
    ensures ResearchV2.DecodeBinding(ObservationValue(b)) == Some(TraceOf(b))
  {
  }

  /** All that the lineage checks need of a valid binding. */
  predicate Named(b: TargetBinding) { !Blank(b.id) && !Blank(b.observationId) && !Blank(b.pageStateId) }

  ghost predicate AllNamed(planned: seq<PlanStep>) {
    forall i :: 0 <= i < |planned| && planned[i].binding.Some? ==> Named(planned[i].binding.value)
  }

  lemma ObservationComplete(b: TargetBinding)
    requires Named(b)
    ensures CompleteBinding(TraceOf(b)) <==> Hashed(b)
    ensures b.id != "" && b.observationId != "" && b.pageStateId != ""
  {
    NotBlank(b.id);
    NotBlank(b.observationId);
    NotBlank(b.pageStateId);
  }

  predicate AllHashed(bindings: seq<TargetBinding>) { forall i :: 0 <= i < |bindings| ==> Hashed(bindings[i]) }

  /** `m` holds exactly the traced forms of `bindings`. */
  ghost predicate Indexes(m: map<string, ObservationBinding>, bindings: seq<TargetBinding>) {
    && (forall id :: id in m <==> HasBinding(bindings, id))
    && (forall i :: 0 <= i < |bindings| ==> bindings[i].id in m && m[bindings[i].id] == TraceOf(bindings[i]))
  }

  lemma AllHashedStep(rest: seq<TargetBinding>, last: TargetBinding)
    ensures AllHashed(rest + [last]) <==> AllHashed(rest) && Hashed(last)
  {
    var all := rest + [last];
    if AllHashed(all) {
      forall i | 0 <= i < |rest| ensures Hashed(rest[i]) {
        assert rest[i] == all[i];
      }
      assert all[|rest|] == last;
    }
  }

  lemma ObservedStep(rest: seq<TargetBinding>, last: TargetBinding)
    ensures var m := Bindings(Observed(rest));
            Bindings(Observed(rest + [last]))
              == if m.Some? && CompleteBinding(TraceOf(last)) && last.id !in m.value
                 then Some(m.value[last.id := TraceOf(last)]) else None
  {
    var items := Observed(rest + [last]);
    assert items[..|items| - 1] == Observed(rest);
    ObservationDecodes(last);
  }

  lemma LastIsNew(bindings: seq<TargetBinding>)
    requires bindings != [] && forall i, j :: 0 <= i < j < |bindings| ==> bindings[i].id != bindings[j].id
    ensures !HasBinding(bindings[..|bindings| - 1], bindings[|bindings| - 1].id)
  {
  }

  /** validateV2ObservationBindings on distinct valid bindings: accepted exactly when both
      hashes of each are hexadecimal, and then indexed by id. */
  lemma {:induction false} ObservedAccepted(bindings: seq<TargetBinding>)
    requires forall i :: 0 <= i < |bindings| ==> Named(bindings[i])
    requires forall i, j :: 0 <= i < j < |bindings| ==> bindings[i].id != bindings[j].id
    ensures Bindings(Observed(bindings)).Some? <==> AllHashed(bindings)
    ensures Bindings(Observed(bindings)).Some? ==> Indexes(Bindings(Observed(bindings)).value, bindings)
  {
    if bindings != [] {
      var rest, last := bindings[..|bindings| - 1], bindings[|bindings| - 1];
      ObservedAccepted(rest);
      assert rest + [last] == bindings;
      ObservedStep(rest, last);
      ObservationComplete(last);
      AllHashedStep(rest, last);
      LastIsNew(bindings);
      if Bindings(Observed(rest)).Some? {
        IndexesGrow(Bindings(Observed(rest)).value, rest, last);
      }
    }
  }

  lemma IndexesGrow(m: map<string, ObservationBinding>, rest: seq<TargetBinding>, last: TargetBinding)
    requires Indexes(m, rest) && !HasBinding(rest, last.id)
    ensures Indexes(m[last.id := TraceOf(last)], rest + [last])
  {
    var all := rest + [last];
    forall id ensures HasBinding(all, id) <==> HasBinding(rest, id) || id == last.id {
      if HasBinding(rest, id) {
        var i :| 0 <= i < |rest| && rest[i].id == id;
        assert all[i].id == id;
      }
      assert all[|rest|].id == last.id;
    }
  }

  predicate TrimmedTrace(b: TargetBinding) {
    && TrimSpace(b.probeId) == b.probeId && TrimSpace(b.observationId) == b.observationId
    && TrimSpace(b.observationSha) == b.observationSha && TrimSpace(b.pageStateId) == b.pageStateId
  }

  predicate Unprobed(planned: seq<PlanStep>, id: string) {
    forall k :: 0 <= k < |planned| && planned[k].binding.Some? && planned[k].binding.value.id == id ==>
      planned[k].binding.value.probeId == ""
  }

  /** What a caller can check before compiling: a step that acts on a target names a
      binding of the plan, its own one when it has one, with trimmed lineage. */
  predicate Traceable(f: Fields, planned: seq<PlanStep>, i: nat)
    requires i < |planned|
  {
    ResearchV2.RequiresBinding(TrimAt(f, "action")) ==>
      && HasBinding(Distinct(planned), TrimAt(f, "target_binding_id"))
      && match planned[i].binding
         case None => Unprobed(planned, TrimAt(f, "target_binding_id"))
         case Some(b) => TrimAt(f, "target_binding_id") == b.id && (b.probeId != "" ==> TrimmedTrace(b))
  }

  lemma CompiledLineage(lib: Lib, f: Fields, planned: PlanStep)
    requires forall key :: key in COMPILER_FIELDS ==> key !in f
    ensures var g := CompiledStep(lib, f, planned);
            && TrimAt(g, "action") == TrimAt(f, "action")
            && TrimAt(g, "target_binding_id") == TrimAt(f, "target_binding_id")
            && (HasLineage(g) <==> planned.binding.Some? && planned.binding.value.probeId != "")
            && (HasLineage(g) ==>
                  var b := planned.binding.value;
                  && TrimAt(g, "probe_id") == TrimSpace(b.probeId)
                  && TrimAt(g, "observation_id") == TrimSpace(b.observationId)
                  && TrimAt(g, "observation_sha256") == TrimSpace(b.observationSha)
                  && TrimAt(g, "page_state_id") == TrimSpace(b.pageStateId))
  {
    CompiledOwned(lib, f, planned);
    if planned.binding.None? || planned.binding.value.probeId == "" {
      CompiledBare(lib, f, planned);
    } else {
      CompiledBound(lib, f, planned);
    }
  }

  lemma Lookup(planned: seq<PlanStep>, m: map<string, ObservationBinding>, k: nat)
    requires IdsDetermine(planned) && Indexes(m, Distinct(planned))
    requires k < |planned| && planned[k].binding.Some?
    ensures planned[k].binding.value.id in m
    ensures m[planned[k].binding.value.id] == TraceOf(planned[k].binding.value)
  {
    var i := DistinctCovers(planned, k);
    var k' := DistinctFrom(planned, i);
    assert Twins(planned, k, k');
  }

  lemma LookupProbe(planned: seq<PlanStep>, m: map<string, ObservationBinding>, id: string)
    requires IdsDetermine(planned) && Indexes(m, Distinct(planned)) && id in m
    ensures m[id].probeId == "" <==> Unprobed(planned, id)
  {
    var i :| 0 <= i < |Distinct(planned)| && Distinct(planned)[i].id == id;
    var k := DistinctFrom(planned, i);
    Lookup(planned, m, k);
    forall j | 0 <= j < |planned| && planned[j].binding.Some? && planned[j].binding.value.id == id
      ensures planned[j].binding.value.probeId == m[id].probeId
    {
      Lookup(planned, m, j);
    }
  }

  lemma StepLineage(lib: Lib, f: Fields, planned: seq<PlanStep>, i: nat, m: map<string, ObservationBinding>)
    requires i < |planned| && DraftStepOk(lib, f, planned[i])
    requires AllNamed(planned) && IdsDetermine(planned) && Indexes(m, Distinct(planned))
    ensures LineageOk(Object(CompiledStep(lib, f, planned[i])), m) <==> Traceable(f, planned, i)
  {
    var id := TrimAt(f, "target_binding_id");
    DraftParts(lib, f, planned[i]);
    CompiledLineage(lib, f, planned[i]);
    if ResearchV2.RequiresBinding(TrimAt(f, "action")) && id in m {
      if planned[i].binding.None? {
        LookupProbe(planned, m, id);
      } else {
        OwnBinding(lib, f, planned, i);
        Lookup(planned, m, i);
      }
    }
  }

  lemma OwnBinding(lib: Lib, f: Fields, planned: seq<PlanStep>, i: nat)
    requires i < |planned| && BindingAgrees(lib, f, planned[i]) && planned[i].binding.Some?
    requires AllNamed(planned) && HasBinding(Distinct(planned), TrimAt(f, "target_binding_id"))
    ensures TrimAt(f, "target_binding_id") == planned[i].binding.value.id
  {
    var d := Distinct(planned);
    var n :| 0 <= n < |d| && d[n].id == TrimAt(f, "target_binding_id");
    var k := DistinctFrom(planned, n);
    ObservationComplete(d[n]);
  }

  predicate LineageAt(steps: seq<Value>, i: int, m: map<string, ObservationBinding>)
    requires 0 <= i < |steps|
  {
    LineageOk(steps[i], m)
  }

  predicate TraceableAt(steps: seq<Value>, planned: seq<PlanStep>, i: int)
    requires |steps| == |planned| && 0 <= i < |steps|
  {
    Traceable(AsObject(steps[i]), planned, i)
  }

  lemma LineageAtIff(lib: Lib, steps: seq<Value>, planned: seq<PlanStep>, m: map<string, ObservationBinding>, i: nat)
    requires |steps| == |planned| && i < |steps| && ItemOk(lib, steps[i], planned[i])
    requires AllNamed(planned) && IdsDetermine(planned) && Indexes(m, Distinct(planned))
    ensures LineageAt(CompiledSteps(lib, steps, planned), i, m) <==> TraceableAt(steps, planned, i)
  {
    StepLineage(lib, steps[i].fields, planned, i, m);
  }

  ghost predicate LineageUpTo(steps: seq<Value>, m: map<string, ObservationBinding>, n: nat)
    requires n <= |steps|
  {
    forall i :: 0 <= i < n ==> LineageAt(steps, i, m)
  }

  ghost predicate TraceableUpTo(steps: seq<Value>, planned: seq<PlanStep>, n: nat)
    requires |steps| == |planned| && n <= |steps|
  {
    forall i :: 0 <= i < n ==> TraceableAt(steps, planned, i)
  }

  lemma LineageNext(steps: seq<Value>, m: map<string, ObservationBinding>, n: nat)
    requires n < |steps|
    ensures LineageUpTo(steps, m, n + 1) <==> LineageUpTo(steps, m, n) && LineageAt(steps, n, m)
  {
  }

  lemma TraceableNext(steps: seq<Value>, planned: seq<PlanStep>, n: nat)
    requires |steps| == |planned| && n < |steps|
    ensures TraceableUpTo(steps, planned, n + 1) <==> TraceableUpTo(steps, planned, n) && TraceableAt(steps, planned, n)
  {
  }

  lemma {:induction false} AllLineage(lib: Lib, steps: seq<Value>, planned: seq<PlanStep>,
                                      m: map<string, ObservationBinding>, n: nat)
    requires |steps| == |planned| && PrefixOk(lib, steps, planned, |steps|) && n <= |steps|
    requires AllNamed(planned) && IdsDetermine(planned) && Indexes(m, Distinct(planned))
    ensures LineageUpTo(CompiledSteps(lib, steps, planned), m, n) <==> TraceableUpTo(steps, planned, n)
  {
    if n > 0 {
      AllLineage(lib, steps, planned, m, n - 1);
      LineageAtIff(lib, steps, planned, m, n - 1);
      LineageNext(CompiledSteps(lib, steps, planned), m, n - 1);
      TraceableNext(steps, planned, n - 1);
    }
  }

  lemma LineageWhole(steps: seq<Value>, m: map<string, ObservationBinding>)
    ensures V2Lineage(steps, m) <==> forall i :: 0 <= i < |steps| ==> LineageAt(steps, i, m)
  {
    if V2Lineage(steps, m) {
      forall i | 0 <= i < |steps| ensures LineageAt(steps, i, m) {
        assert LineageOk(steps[i], m);
      }
    } else {
      var i :| 0 <= i < |steps| && !LineageOk(steps[i], m);
      assert !LineageAt(steps, i, m);
    }
  }

  lemma AllObserved(planned: seq<PlanStep>)
    requires AllNamed(planned)
    ensures var d := Distinct(planned);
            && (Bindings(Observed(d)).Some? <==> AllHashed(d))
            && (Bindings(Observed(d)).Some? ==> Indexes(Bindings(Observed(d)).value, d))
  {
    var d := Distinct(planned);
    forall i | 0 <= i < |d| ensures Named(d[i]) {
      var k := DistinctFrom(planned, i);
    }
    DistinctUnique(planned);
    ObservedAccepted(d);
  }

  /** The compiled case's observation bindings are accepted exactly when the bindings'
      hashes are hexadecimal; every step's lineage then agrees with them exactly when the
      draft step is traceable. */
  lemma CompilationTracesPlan(lib: Lib, plan: Plan, binding: PlanBinding, draft: Value)
    requires DraftOk(lib, plan, binding, draft)
    requires AllValid(lib, Expanded(plan.steps)) && IdsDetermine(Expanded(plan.steps))
    ensures var planned := Expanded(plan.steps);
            var steps := At(draft.fields, "steps").items;
            var g := Compiled(lib, plan, draft.fields);
            var bindings := Bindings(AsArray(At(g, "observation_bindings")));
            && (bindings.Some? <==> AllHashed(Distinct(planned)))
            && (bindings.Some? ==>
                  (V2Lineage(AsArray(At(g, "steps")), bindings.value) <==>
                     forall i :: 0 <= i < |steps| ==> TraceableAt(steps, planned, i)))
  {
    var planned := Expanded(plan.steps);
    CompiledHeader(lib, plan, draft.fields);
    assert AllNamed(planned);
    AllObserved(planned);
    if AllHashed(Distinct(planned)) {
      var steps := At(draft.fields, "steps").items;
      var m := Bindings(Observed(Distinct(planned))).value;
      AllLineage(lib, steps, planned, m, |steps|);
      LineageWhole(CompiledSteps(lib, steps, planned), m);
    }
  }
}
