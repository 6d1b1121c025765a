/** The task-plan compiler: a research-v2 draft plus a grounded plan becomes an executable
    case (internal/taskplan/compiler.go), and what the later validators make of it. */
module Compiler {
  import opened Wrappers
  import opened Json
  import opened Text
  import opened DslCase
  import opened BrowserContract
  import ResearchV2

  type Int64 = n: int | -0x8000_0000_0000_0000 <= n < 0x8000_0000_0000_0000

  datatype PlanBinding = PlanBinding(planId: string, version: Int64, sha: string)

  datatype PlanStep = PlanStep(
    id: string, action: string, target: string, value: string, trigger: string, contextKey: string,
    timeoutMS: Int64, occurrences: int, idempotency: string, sideEffect: string,
    preconditions: seq<string>, completionConditions: seq<string>, binding: Option<TargetBinding>)

  datatype Plan = Plan(binding: PlanBinding, ready: bool, steps: seq<PlanStep>)

  /** JSON of a candidate, the digest of a binding, `normalize`, and the condition-intent
      parser: which plan conditions are free text and which DSL condition meets one. */
  datatype Lib = Lib(
    encode: Candidate -> Value, decode: Value -> Option<Candidate>, digest: TargetBinding -> string,
    normalize: string -> string, freeText: string -> bool, matches: (Fields, string) -> bool)

  ghost predicate Laws(lib: Lib) {
    && (forall c :: lib.decode(lib.encode(c)) == Some(c))
    && (forall s :: lib.normalize(TrimSpace(s)) == lib.normalize(s))
  }

  // --- Plan steps and their occurrences -------------------------------------------

  function Repeat(step: PlanStep): seq<PlanStep> {
    if step.occurrences < 0 then [] else seq(step.occurrences, _ => step)
  }

  function Expanded(steps: seq<PlanStep>): seq<PlanStep> {
    if steps == [] then [] else Expanded(steps[..|steps| - 1]) + Repeat(steps[|steps| - 1])
  }

  method ExpandedPlanSteps(steps: seq<PlanStep>) returns (result: seq<PlanStep>)
    ensures result == Expanded(steps)
  {
    result := [];
    for n := 0 to |steps|
      invariant result == Expanded(steps[..n])
    {
      assert steps[..n + 1][..n] == steps[..n];
      var k := 0;
      while k < steps[n].occurrences
        invariant 0 <= k && (k <= steps[n].occurrences || k == 0)
        invariant result == Expanded(steps[..n]) + seq(k, _ => steps[n])
      {
        result := result + [steps[n]];
        k := k + 1;
      }
    }
    assert steps[..|steps|] == steps;
  }

  /** The occurrences of step `k` stand together, after those of all earlier steps. */
  lemma {:induction false} ExpandedAt(steps: seq<PlanStep>, k: nat, j: nat)
    requires k < |steps| && j < steps[k].occurrences
    ensures |Expanded(steps[..k])| + j < |Expanded(steps)|
    ensures Expanded(steps)[|Expanded(steps[..k])| + j] == steps[k]
    ensures |Expanded(steps[..k + 1])| == |Expanded(steps[..k])| + steps[k].occurrences
  {
    assert steps[..k + 1][..k] == steps[..k];
    var rest := steps[..|steps| - 1];
    if k < |steps| - 1 {
      assert rest[..k] == steps[..k] && rest[..k + 1] == steps[..k + 1];
      ExpandedAt(rest, k, j);
    } else {
      assert steps[..k + 1] == steps;
    }
  }

  /** A step that is expected no time at all contributes nothing. */
  lemma ExpandedNever(steps: seq<PlanStep>, k: nat)
    requires k < |steps| && steps[k].occurrences <= 0
    ensures Expanded(steps[..k + 1]) == Expanded(steps[..k])
  {
    assert steps[..k + 1][..k] == steps[..k];
  }

  // --- Drafts ---------------------------------------------------------------------

  predicate RequiresBinding(action: string) { action in {"click", "input", "capture_text"} }

  function IntValue(v: Value): int { if v.Number? then Truncate(v.number) else 0 }

  /** planStepSemanticChecks: the plan-owned fields, compared with the plan. */
  predicate Checks(lib: Lib, id: string, action: string, value: string, trigger: string, contextKey: string,
                   timeoutMS: int, idempotency: string, sideEffect: string, planned: PlanStep) {
    && id == planned.id && lib.normalize(action) == planned.action && TrimSpace(value) == planned.value
    && trigger == planned.trigger && contextKey == planned.contextKey
    && idempotency == planned.idempotency && sideEffect == planned.sideEffect
    && (planned.timeoutMS > 0 ==> timeoutMS == planned.timeoutMS)
  }

  predicate Preserves(lib: Lib, conditions: seq<Fields>, planned: seq<string>) {
    && (planned != [] ==> conditions != [])
    && forall k :: 0 <= k < |planned| ==> lib.freeText(planned[k]) || Met(lib, conditions, planned[k])
  }

  predicate Met(lib: Lib, conditions: seq<Fields>, planned: string) {
    exists i :: 0 <= i < |conditions| && lib.matches(conditions[i], planned)
  }

  /** dslConditionList: entries that are not objects are skipped. */
  function Objects(items: seq<Value>): seq<Fields> {
    if items == [] then []
    else if items[0].Object? then [items[0].fields] + Objects(items[1..]) else Objects(items[1..])
  }

  predicate BindingAgrees(lib: Lib, f: Fields, planned: PlanStep) {
    if RequiresBinding(planned.action) then
      planned.binding.Some? && ValidBinding(lib.digest, planned.binding.value)
      && TrimAt(f, "target_binding_id") == planned.binding.value.id
    else
      planned.binding.Some? ==>
        TrimAt(f, "target_binding_id") == "" || TrimAt(f, "target_binding_id") == planned.binding.value.id
  }

  /** compileDraftStep. */
  predicate DraftStepOk(lib: Lib, f: Fields, planned: PlanStep) {
    && Checks(lib, TrimAt(f, "plan_step_id"), TrimAt(f, "action"), TrimAt(f, "value"), TrimAt(f, "trigger"),
              TrimAt(f, "context_key"), IntValue(At(f, "timeout_ms")), TrimAt(f, "idempotency"),
              TrimAt(f, "side_effect"), planned)
    && TrimAt(f, "intent") != ""
    && (forall key :: key in ResearchV2.COMPILER_FIELDS ==> key !in f)
    && BindingAgrees(lib, f, planned)
    && Preserves(lib, Objects(AsArray(At(f, "preconditions"))), planned.preconditions)
    && Preserves(lib, Objects(AsArray(At(f, "postconditions"))), planned.completionConditions)
  }

  function Encoded(lib: Lib, candidates: seq<Candidate>): Value {
    Array(seq(|candidates|, i requires 0 <= i < |candidates| => lib.encode(candidates[i])))
  }

  function WithBinding(lib: Lib, f: Fields, b: TargetBinding): Fields {
    var traced :=
      if b.probeId == "" then f
      else f["probe_id" := String(b.probeId)]["observation_id" := String(b.observationId)]
            ["observation_sha256" := String(b.observationSha)]["page_state_id" := String(b.pageStateId)]
            ["selected_candidate_id" := String(b.selectedId)];
    traced["locator_candidates" := Encoded(lib, b.candidates)]
  }

  function CompiledStep(lib: Lib, f: Fields, planned: PlanStep): Fields {
    var bare := f - {"target"};
    var targeted := if planned.target != "" then bare["semantic_target" := String(planned.target)] else bare;
    if planned.binding.None? then targeted else WithBinding(lib, targeted, planned.binding.value)
  }

  function ObservationValue(b: TargetBinding): Value {
    var base := map["binding_id" := String(b.id), "binding_sha256" := String(b.sha),
                    "observation_id" := String(b.observationId), "observation_sha256" := String(b.observationSha)];
    Object(if b.probeId == "" then base
           else base["probe_id" := String(b.probeId)]["page_state_id" := String(b.pageStateId)])
  }

  predicate HasBinding(bindings: seq<TargetBinding>, id: string) {
    exists i :: 0 <= i < |bindings| && bindings[i].id == id
  }

  /** The bindings of the steps, each id once, in order of first use. */
  function Distinct(planned: seq<PlanStep>): seq<TargetBinding> {
    if planned == [] then []
    else
      var earlier := Distinct(planned[..|planned| - 1]);
      var last := planned[|planned| - 1].binding;
      if last.None? || HasBinding(earlier, last.value.id) then earlier else earlier + [last.value]
  }

  function Observed(bindings: seq<TargetBinding>): seq<Value> {
    seq(|bindings|, i requires 0 <= i < |bindings| => ObservationValue(bindings[i]))
  }

  function PlanBindingValue(b: PlanBinding): Value {
    Object(map["plan_id" := String(b.planId), "version" := Number(b.version as real), "sha256" := String(b.sha)])
  }

  predicate ItemOk(lib: Lib, v: Value, planned: PlanStep) { v.Object? && DraftStepOk(lib, v.fields, planned) }

  predicate DraftOk(lib: Lib, plan: Plan, binding: PlanBinding, draft: Value) {
    && binding == plan.binding && plan.ready
    && draft.Object? && At(draft.fields, "profile") == String("research-v2") && At(draft.fields, "steps").Array?
    && var steps := At(draft.fields, "steps").items;
    var planned := Expanded(plan.steps);
    && |steps| == |planned|
    && forall i :: 0 <= i < |steps| ==> ItemOk(lib, steps[i], planned[i])
  }

  function CompiledSteps(lib: Lib, steps: seq<Value>, planned: seq<PlanStep>): seq<Value>
    requires |steps| == |planned|
  {
    seq(|steps|, i requires 0 <= i < |steps| => Object(CompiledStep(lib, AsObject(steps[i]), planned[i])))
  }

  function Compiled(lib: Lib, plan: Plan, draft: Fields): Fields
    requires |AsArray(At(draft, "steps"))| == |Expanded(plan.steps)|
  {
    draft["steps" := Array(CompiledSteps(lib, AsArray(At(draft, "steps")), Expanded(plan.steps)))]
      ["plan_binding" := PlanBindingValue(plan.binding)]
      ["observation_bindings" := Array(Observed(Distinct(Expanded(plan.steps))))]
  }

  // --- What the compiler demands and writes, field by field -------------------------

  /** The step repeats every field the plan owns. */
  predicate Repeats(lib: Lib, f: Fields, planned: PlanStep) {
    && TrimAt(f, "plan_step_id") == planned.id
    && lib.normalize(TrimAt(f, "action")) == planned.action
    && TrimAt(f, "value") == planned.value
    && TrimAt(f, "trigger") == planned.trigger
    && TrimAt(f, "context_key") == planned.contextKey
    && TrimAt(f, "idempotency") == planned.idempotency
    && TrimAt(f, "side_effect") == planned.sideEffect
    && (planned.timeoutMS > 0 ==>
          At(f, "timeout_ms").Number? && Truncate(At(f, "timeout_ms").number) == planned.timeoutMS)
  }

  /** Some object of the list meets the planned condition. */
  predicate MetBy(lib: Lib, v: Value, condition: string) {
    exists n :: 0 <= n < |AsArray(v)| && AsArray(v)[n].Object? && lib.matches(AsArray(v)[n].fields, condition)
  }

  predicate AnyObject(v: Value) { exists n :: 0 <= n < |AsArray(v)| && AsArray(v)[n].Object? }

  predicate Covers(lib: Lib, v: Value, planned: seq<string>) {
    && (planned != [] ==> AnyObject(v))
    && forall k :: 0 <= k < |planned| ==> lib.freeText(planned[k]) || MetBy(lib, v, planned[k])
  }

  /** A click, an input and a capture name the plan's own, valid binding; any other step
      names it or none. */
  predicate Grounded(lib: Lib, f: Fields, planned: PlanStep) {
    if planned.action == "click" || planned.action == "input" || planned.action == "capture_text" then
      && planned.binding.Some? && ValidBinding(lib.digest, planned.binding.value)
      && TrimAt(f, "target_binding_id") == planned.binding.value.id
    else
      planned.binding.None? || TrimAt(f, "target_binding_id") in {"", planned.binding.value.id}
  }

  predicate Agrees(lib: Lib, f: Fields, planned: PlanStep) {
    && Repeats(lib, f, planned) && TrimAt(f, "intent") != "" && Unclaimed(f)
    && Grounded(lib, f, planned)
    && Covers(lib, At(f, "preconditions"), planned.preconditions)
    && Covers(lib, At(f, "postconditions"), planned.completionConditions)
  }

  /** The author leaves target, locators and lineage to the compiler. */
  predicate Unclaimed(f: Fields) {
    && "semantic_target" !in f && "locator_candidates" !in f && "probe_id" !in f && "observation_id" !in f
    && "observation_sha256" !in f && "page_state_id" !in f && "selected_candidate_id" !in f
  }

  lemma {:induction false} ObjectsAre(items: seq<Value>, c: Fields)
    ensures c in Objects(items) <==> Object(c) in items
  {
    if items != [] {
      ObjectsAre(items[1..], c);
      assert items == [items[0]] + items[1..];
    }
  }

  lemma CoversIff(lib: Lib, v: Value, planned: seq<string>)
    ensures Preserves(lib, Objects(AsArray(v)), planned) <==> Covers(lib, v, planned)
  {
    var items, objects := AsArray(v), Objects(AsArray(v));
    if objects != [] {
      ObjectsAre(items, objects[0]);
      var n :| 0 <= n < |items| && items[n] == Object(objects[0]);
      assert items[n].Object?;
    }
    if n :| 0 <= n < |items| && items[n].Object? {
      ObjectsAre(items, items[n].fields);
    }
    forall k | 0 <= k < |planned| ensures Met(lib, objects, planned[k]) <==> MetBy(lib, v, planned[k]) {
      MetIff(lib, v, planned[k]);
    }
  }

  lemma MetIff(lib: Lib, v: Value, condition: string)
    ensures Met(lib, Objects(AsArray(v)), condition) <==> MetBy(lib, v, condition)
  {
    var items, objects := AsArray(v), Objects(AsArray(v));
    if Met(lib, objects, condition) {
      var i :| 0 <= i < |objects| && lib.matches(objects[i], condition);
      ObjectsAre(items, objects[i]);
      var n :| 0 <= n < |items| && items[n] == Object(objects[i]);
      assert items[n].Object? && lib.matches(items[n].fields, condition);
    }
    if MetBy(lib, v, condition) {
      var n :| 0 <= n < |items| && items[n].Object? && lib.matches(items[n].fields, condition);
      ObjectsAre(items, items[n].fields);
      var i :| 0 <= i < |objects| && objects[i] == items[n].fields;
      assert lib.matches(objects[i], condition);
    }
  }

  lemma RepeatsIff(lib: Lib, f: Fields, planned: PlanStep)
    ensures Repeats(lib, f, planned) <==>
              Checks(lib, TrimAt(f, "plan_step_id"), TrimAt(f, "action"), TrimAt(f, "value"), TrimAt(f, "trigger"),
                     TrimAt(f, "context_key"), IntValue(At(f, "timeout_ms")), TrimAt(f, "idempotency"),
                     TrimAt(f, "side_effect"), planned)
  {
    Trim(TextAt(f, "value"));
  }

  lemma UnclaimedIff(f: Fields)
    ensures Unclaimed(f) <==> forall key :: key in ResearchV2.COMPILER_FIELDS ==> key !in f
  {
  }

  lemma GroundedIff(lib: Lib, f: Fields, planned: PlanStep)
    ensures Grounded(lib, f, planned) <==> BindingAgrees(lib, f, planned)
  {
  }

  lemma AgreesFromParts(lib: Lib, f: Fields, planned: PlanStep, before: bool, after: bool)
    requires before == Covers(lib, At(f, "preconditions"), planned.preconditions)
    requires after == Covers(lib, At(f, "postconditions"), planned.completionConditions)
    ensures Agrees(lib, f, planned) <==>
            Repeats(lib, f, planned) && TrimAt(f, "intent") != "" && Unclaimed(f) && Grounded(lib, f, planned)
            && before && after
  {
  }

  /** A step is accepted exactly when it agrees with its plan step. */
  lemma AgreesIff(lib: Lib, f: Fields, planned: PlanStep)
    ensures DraftStepOk(lib, f, planned) <==> Agrees(lib, f, planned)
  {
    RepeatsIff(lib, f, planned);
    UnclaimedIff(f);
    GroundedIff(lib, f, planned);
    var before := Preserves(lib, Objects(AsArray(At(f, "preconditions"))), planned.preconditions);
    var after := Preserves(lib, Objects(AsArray(At(f, "postconditions"))), planned.completionConditions);
    CoversIff(lib, At(f, "preconditions"), planned.preconditions);
    CoversIff(lib, At(f, "postconditions"), planned.completionConditions);
    AgreesFromParts(lib, f, planned, before, after);
  }

  /** The draft agrees with the current, ready plan, one step per expected occurrence. */
  predicate DraftAgrees(lib: Lib, plan: Plan, binding: PlanBinding, draft: Value, planned: seq<PlanStep>) {
    && binding == plan.binding && plan.ready && draft.Object?
    && At(draft.fields, "profile") == String("research-v2") && At(draft.fields, "steps").Array?
    && |At(draft.fields, "steps").items| == |planned|
    && forall i :: 0 <= i < |planned| ==> AgreesAt(lib, At(draft.fields, "steps").items[i], planned[i])
  }

  predicate AgreesAt(lib: Lib, v: Value, planned: PlanStep) { v.Object? && Agrees(lib, v.fields, planned) }

  lemma DraftAgreesIff(lib: Lib, plan: Plan, binding: PlanBinding, draft: Value)
    ensures DraftOk(lib, plan, binding, draft) <==> DraftAgrees(lib, plan, binding, draft, Expanded(plan.steps))
  {
    forall v: Value, planned ensures ItemOk(lib, v, planned) <==> AgreesAt(lib, v, planned) {
      if v.Object? {
        AgreesIff(lib, v.fields, planned);
      }
    }
  }

  /** The compiled step repeats the plan, takes target and lineage from it, and keeps
      whatever else the author wrote. */
  ghost predicate Bound(lib: Lib, f: Fields, g: Fields, planned: PlanStep) {
    && Repeats(lib, g, planned)
    && At(g, "semantic_target") == (if planned.target == "" then Null else String(planned.target))
    && "target" !in g
    && Located(lib, g, planned.binding) && Traced(g, planned.binding) && AuthorKept(f, g)
  }

  ghost predicate Located(lib: Lib, g: Fields, binding: Option<TargetBinding>) {
    if binding.None? then "locator_candidates" !in g else Lists(lib, At(g, "locator_candidates"), binding.value.candidates)
  }

  ghost predicate Traced(g: Fields, binding: Option<TargetBinding>) {
    if binding.None? || binding.value.probeId == "" then forall key :: key in g ==> key !in TraceKeys()
    else
      && At(g, "probe_id") == String(binding.value.probeId)
      && At(g, "observation_id") == String(binding.value.observationId)
      && At(g, "observation_sha256") == String(binding.value.observationSha)
      && At(g, "page_state_id") == String(binding.value.pageStateId)
      && At(g, "selected_candidate_id") == String(binding.value.selectedId)
  }

  ghost predicate AuthorKept(f: Fields, g: Fields) {
    forall key :: key !in {"target", "semantic_target", "locator_candidates"} + TraceKeys() ==>
      At(g, key) == At(f, key) && (key in g <==> key in f)
  }

  function TraceKeys(): set<string> {
    {"probe_id", "observation_id", "observation_sha256", "page_state_id", "selected_candidate_id"}
  }

  predicate Lists(lib: Lib, v: Value, candidates: seq<Candidate>) {
    && v.Array? && |v.items| == |candidates|
    && forall i :: 0 <= i < |candidates| ==> v.items[i] == lib.encode(candidates[i])
  }

  lemma RepeatsKept(lib: Lib, f: Fields, g: Fields, planned: PlanStep)
    requires Repeats(lib, f, planned)
    requires At(g, "plan_step_id") == At(f, "plan_step_id") && At(g, "action") == At(f, "action")
    requires At(g, "value") == At(f, "value") && At(g, "trigger") == At(f, "trigger")
    requires At(g, "context_key") == At(f, "context_key") && At(g, "idempotency") == At(f, "idempotency")
    requires At(g, "side_effect") == At(f, "side_effect") && At(g, "timeout_ms") == At(f, "timeout_ms")
    ensures Repeats(lib, g, planned)
  {
  }

  lemma CompiledOthers(lib: Lib, f: Fields, planned: PlanStep)
    ensures AuthorKept(f, CompiledStep(lib, f, planned)) && "target" !in CompiledStep(lib, f, planned)
  {
  }

  lemma AuthoredTexts(f: Fields, g: Fields)
    requires AuthorKept(f, g)
    ensures At(g, "plan_step_id") == At(f, "plan_step_id") && At(g, "action") == At(f, "action")
    ensures At(g, "value") == At(f, "value") && At(g, "trigger") == At(f, "trigger")
  {
  }

  lemma AuthoredMeta(f: Fields, g: Fields)
    requires AuthorKept(f, g)
    ensures At(g, "context_key") == At(f, "context_key") && At(g, "idempotency") == At(f, "idempotency")
    ensures At(g, "side_effect") == At(f, "side_effect") && At(g, "timeout_ms") == At(f, "timeout_ms")
  {
  }

  lemma BoundFromParts(lib: Lib, f: Fields, g: Fields, planned: PlanStep)
    requires Repeats(lib, f, planned) && AuthorKept(f, g) && "target" !in g
    requires At(g, "semantic_target") == if planned.target != "" then String(planned.target) else Null
    requires Located(lib, g, planned.binding) && Traced(g, planned.binding)
    ensures Bound(lib, f, g, planned)
  {
    AuthoredTexts(f, g);
    AuthoredMeta(f, g);
    RepeatsKept(lib, f, g, planned);
  }

  lemma NoTrace(f: Fields)
    requires Unclaimed(f)
    ensures forall key :: key in TraceKeys() ==> key !in f
    ensures "semantic_target" !in f && "locator_candidates" !in f
  {
  }

  lemma CompiledBinds(lib: Lib, f: Fields, planned: PlanStep)
    requires Agrees(lib, f, planned)
    ensures Bound(lib, f, CompiledStep(lib, f, planned), planned)
  {
    NoTrace(f);
    CompiledOthers(lib, f, planned);
    CompiledTarget(lib, f, planned);
    CompiledTrace(lib, f, planned);
    BoundFromParts(lib, f, CompiledStep(lib, f, planned), planned);
  }

  lemma CompiledTarget(lib: Lib, f: Fields, planned: PlanStep)
    requires "semantic_target" !in f
    ensures At(CompiledStep(lib, f, planned), "semantic_target")
         == if planned.target != "" then String(planned.target) else Null
  {
  }

  lemma CompiledTrace(lib: Lib, f: Fields, planned: PlanStep)
    requires "locator_candidates" !in f && forall key :: key in TraceKeys() ==> key !in f
    ensures Located(lib, CompiledStep(lib, f, planned), planned.binding)
    ensures Traced(CompiledStep(lib, f, planned), planned.binding)
  {
  }

  /** The bindings the case lists: each of some step, each step's among them, none twice. */
  ghost predicate ObservationsListed(v: Value, planned: seq<PlanStep>) {
    && v.Array?
    && (forall n :: 0 <= n < |v.items| ==> OfSomeStep(v.items[n], planned))
    && (forall k :: 0 <= k < |planned| && planned[k].binding.Some? ==> ListedId(v.items, planned[k].binding.value.id))
    && forall m, n :: 0 <= m < n < |v.items| ==>
         At(AsObject(v.items[m]), "binding_id") != At(AsObject(v.items[n]), "binding_id")
  }

  ghost predicate OfSomeStep(v: Value, planned: seq<PlanStep>) {
    exists k :: 0 <= k < |planned| && planned[k].binding.Some? && ObservationReads(v, planned[k].binding.value)
  }

  ghost predicate ListedId(items: seq<Value>, id: string) {
    exists n :: 0 <= n < |items| && At(AsObject(items[n]), "binding_id") == String(id)
  }

  predicate ObservationReads(v: Value, b: TargetBinding) {
    && v.Object?
    && At(v.fields, "binding_id") == String(b.id) && At(v.fields, "binding_sha256") == String(b.sha)
    && At(v.fields, "observation_id") == String(b.observationId)
    && At(v.fields, "observation_sha256") == String(b.observationSha)
    && if b.probeId == "" then "probe_id" !in v.fields && "page_state_id" !in v.fields
       else At(v.fields, "probe_id") == String(b.probeId) && At(v.fields, "page_state_id") == String(b.pageStateId)
  }

  lemma ObservationIs(b: TargetBinding)
    ensures ObservationReads(ObservationValue(b), b)
  {
  }

  lemma {:induction false} DistinctUnique(planned: seq<PlanStep>)
    ensures forall i, j :: 0 <= i < j < |Distinct(planned)| ==> Distinct(planned)[i].id != Distinct(planned)[j].id
  {
    if planned != [] {
      DistinctUnique(planned[..|planned| - 1]);
    }
  }

  /** Every entry is the binding of some step `k`. */
  lemma {:induction false} DistinctFrom(planned: seq<PlanStep>, i: nat) returns (k: nat)
    requires i < |Distinct(planned)|
    ensures k < |planned| && planned[k].binding == Some(Distinct(planned)[i])
  {
    k := |planned| - 1;
    if i < |Distinct(planned[..k])| {
      k := DistinctFrom(planned[..k], i);
    }
  }

  /** Every binding's id is that of some entry `i`. */
  lemma {:induction false} DistinctCovers(planned: seq<PlanStep>, k: nat) returns (i: nat)
    requires k < |planned| && planned[k].binding.Some?
    ensures i < |Distinct(planned)| && Distinct(planned)[i].id == planned[k].binding.value.id
  {
    var n := |planned| - 1;
    var earlier := Distinct(planned[..n]);
    if k < n {
      i := DistinctCovers(planned[..n], k);
    } else if !HasBinding(earlier, planned[k].binding.value.id) {
      i := |earlier|;
    } else {
      i :| 0 <= i < |earlier| && earlier[i].id == planned[k].binding.value.id;
    }
  }

  lemma ObservedListed(planned: seq<PlanStep>)
    ensures ObservationsListed(Array(Observed(Distinct(planned))), planned)
  {
    var d := Distinct(planned);
    var items := Observed(d);
    forall n | 0 <= n < |items| ensures ObservationReads(items[n], d[n]) && OfSomeStep(items[n], planned) {
      ObservationIs(d[n]);
      var k := DistinctFrom(planned, n);
      assert ObservationReads(items[n], planned[k].binding.value);
    }
    forall k | 0 <= k < |planned| && planned[k].binding.Some? ensures ListedId(items, planned[k].binding.value.id) {
      var n := DistinctCovers(planned, k);
      assert ObservationReads(items[n], d[n]);
    }
    DistinctUnique(planned);
  }

  /** The compiled case names the plan and binds every step; header fields stay. */
  ghost predicate CaseBound(lib: Lib, plan: Plan, draft: Fields, g: Fields, planned: seq<PlanStep>) {
    && At(g, "plan_binding") == Object(map["plan_id" := String(plan.binding.planId),
                                           "version" := Number(plan.binding.version as real),
                                           "sha256" := String(plan.binding.sha)])
    && At(g, "steps").Array? && |At(g, "steps").items| == |planned| == |AsArray(At(draft, "steps"))|
    && (forall i :: 0 <= i < |planned| ==>
          BoundAt(lib, AsArray(At(draft, "steps"))[i], At(g, "steps").items[i], planned[i]))
    && ObservationsListed(At(g, "observation_bindings"), planned)
    && forall key :: key !in {"steps", "plan_binding", "observation_bindings"} ==> At(g, key) == At(draft, key)
  }

  ghost predicate BoundAt(lib: Lib, v: Value, w: Value, planned: PlanStep) {
    v.Object? && w.Object? && Bound(lib, v.fields, w.fields, planned)
  }

  lemma CompiledCaseBound(lib: Lib, plan: Plan, binding: PlanBinding, draft: Value)
    requires DraftOk(lib, plan, binding, draft)
    ensures CaseBound(lib, plan, draft.fields, Compiled(lib, plan, draft.fields), Expanded(plan.steps))
  {
    var planned, steps := Expanded(plan.steps), At(draft.fields, "steps").items;
    var g := Compiled(lib, plan, draft.fields);
    assert At(g, "steps") == Array(CompiledSteps(lib, steps, planned));
    assert At(g, "observation_bindings") == Array(Observed(Distinct(planned)));
    ObservedListed(planned);
    forall i | 0 <= i < |planned| ensures BoundAt(lib, steps[i], At(g, "steps").items[i], planned[i]) {
      assert ItemOk(lib, steps[i], planned[i]);
      AgreesIff(lib, steps[i].fields, planned[i]);
      CompiledBinds(lib, steps[i].fields, planned[i]);
    }
  }

  /** CompileDraftCase: the step maps are rewritten one after another while the binding
      list and the set of seen ids grow beside them. */
  method CompileDraftCase(lib: Lib, plan: Plan, binding: PlanBinding, draft: Value) returns (r: Option<Fields>)
    ensures r.Some? <==> DraftOk(lib, plan, binding, draft)
    ensures r.Some? ==> r.value == Compiled(lib, plan, draft.fields)
    ensures r.Some? <==> DraftAgrees(lib, plan, binding, draft, Expanded(plan.steps))
    ensures r.Some? ==> CaseBound(lib, plan, draft.fields, r.value, Expanded(plan.steps))
  {
    DraftAgreesIff(lib, plan, binding, draft);
    if binding != plan.binding || !plan.ready || !draft.Object? {
      return None;
    }
    var candidate := draft.fields;
    if At(candidate, "profile") != String("research-v2") || !At(candidate, "steps").Array? {
      return None;
    }
    var steps := At(candidate, "steps").items;
    var planned := ExpandedPlanSteps(plan.steps);
    if |steps| != |planned| {
      return None;
    }
    var compiled, bindings := CompileSteps(lib, steps, planned);
    if compiled.None? {
      return None;
    }
    candidate := candidate["steps" := Array(compiled.value)];
    candidate := candidate["plan_binding" := PlanBindingValue(binding)];
    r := Some(candidate["observation_bindings" := Array(bindings)]);
    CompiledCaseBound(lib, plan, binding, draft);
  }

  method CompileSteps(lib: Lib, steps: seq<Value>, planned: seq<PlanStep>)
    returns (r: Option<seq<Value>>, observationBindings: seq<Value>)
    requires |steps| == |planned|
    ensures r.Some? <==> PrefixOk(lib, steps, planned, |steps|)
    ensures r.Some? ==> r.value == CompiledSteps(lib, steps, planned)
    ensures r.Some? ==> observationBindings == Observed(Distinct(planned))
  {
    var result := steps;
    observationBindings := [];
    var seenBinding: set<string> := {};
    for index := 0 to |steps|
      invariant PrefixOk(lib, steps, planned, index) && PrefixCompiled(lib, steps, planned, index, result)
      invariant observationBindings == Observed(Distinct(planned[..index]))
      invariant forall id :: id in seenBinding <==> HasBinding(Distinct(planned[..index]), id)
    {
      var ok := CheckItem(lib, steps, planned, index);
      if !ok {
        r := None;
        return;
      }
      result := CompileItem(lib, steps, planned, index, result);
      observationBindings, seenBinding := Observe(planned, index, observationBindings, seenBinding);
    }
    assert planned[..|planned|] == planned;
    AllCompiled(lib, steps, planned, result);
    r := Some(result);
  }

  /** The first `n` steps of the result are compiled, the others still the draft's. */
  ghost predicate PrefixCompiled(lib: Lib, steps: seq<Value>, planned: seq<PlanStep>, n: nat, result: seq<Value>)
    requires |steps| == |planned| && n <= |steps|
  {
    && |result| == |steps|
    && (forall i :: 0 <= i < n ==> result[i] == Object(CompiledStep(lib, AsObject(steps[i]), planned[i])))
    && forall i :: n <= i < |steps| ==> result[i] == steps[i]
  }

  lemma AllCompiled(lib: Lib, steps: seq<Value>, planned: seq<PlanStep>, result: seq<Value>)
    requires |steps| == |planned| && PrefixCompiled(lib, steps, planned, |steps|, result)
    ensures result == CompiledSteps(lib, steps, planned)
  {
  }

  method CompileItem(lib: Lib, steps: seq<Value>, planned: seq<PlanStep>, n: nat, result: seq<Value>)
    returns (result': seq<Value>)
    requires |steps| == |planned| && n < |steps| && PrefixCompiled(lib, steps, planned, n, result)
    ensures PrefixCompiled(lib, steps, planned, n + 1, result')
  {
    var step := CompileStep(lib, AsObject(steps[n]), planned[n]);
    result' := result[n := Object(step)];
  }

  /** The first `n` steps of the draft are all acceptable. */
  ghost predicate PrefixOk(lib: Lib, steps: seq<Value>, planned: seq<PlanStep>, n: nat)
    requires |steps| == |planned| && n <= |steps|
  {
    forall i :: 0 <= i < n ==> ItemOk(lib, steps[i], planned[i])
  }

  method CheckItem(lib: Lib, steps: seq<Value>, planned: seq<PlanStep>, n: nat) returns (ok: bool)
    requires |steps| == |planned| && n < |steps| && PrefixOk(lib, steps, planned, n)
    ensures ok == PrefixOk(lib, steps, planned, n + 1)
    ensures !ok ==> !PrefixOk(lib, steps, planned, |steps|)
  {
    ok := steps[n].Object? && DraftStepOk(lib, steps[n].fields, planned[n]);
    assert ok == ItemOk(lib, steps[n], planned[n]);
  }

  method Observe(planned: seq<PlanStep>, n: nat, observed: seq<Value>, seen: set<string>)
    returns (observed': seq<Value>, seen': set<string>)
    requires n < |planned| && observed == Observed(Distinct(planned[..n]))
    requires forall id :: id in seen <==> HasBinding(Distinct(planned[..n]), id)
    ensures observed' == Observed(Distinct(planned[..n + 1]))
    ensures forall id :: id in seen' <==> HasBinding(Distinct(planned[..n + 1]), id)
  {
    assert planned[..n + 1][..n] == planned[..n];
    observed', seen' := observed, seen;
    var binding := planned[n].binding;
    if binding.Some? && binding.value.id !in seen {
      DistinctGrows(planned, n);
      observed' := observed + [ObservationValue(binding.value)];
      seen' := seen + {binding.value.id};
    }
  }

  lemma DistinctGrows(planned: seq<PlanStep>, n: nat)
    requires n < |planned| && planned[n].binding.Some?
    requires !HasBinding(Distinct(planned[..n]), planned[n].binding.value.id)
    ensures var earlier, b := Distinct(planned[..n]), planned[n].binding.value;
            && Distinct(planned[..n + 1]) == earlier + [b]
            && Observed(earlier + [b]) == Observed(earlier) + [ObservationValue(b)]
            && forall id :: HasBinding(earlier + [b], id) <==> HasBinding(earlier, id) || id == b.id
  {
    assert planned[..n + 1][..n] == planned[..n];
    var earlier, b := Distinct(planned[..n]), planned[n].binding.value;
    forall id ensures HasBinding(earlier + [b], id) <==> HasBinding(earlier, id) || id == b.id {
      if HasBinding(earlier, id) {
        var i :| 0 <= i < |earlier| && earlier[i].id == id;
        assert (earlier + [b])[i].id == id;
      }
      assert (earlier + [b])[|earlier|] == b;
    }
  }

  method CompileStep(lib: Lib, source: Fields, planned: PlanStep) returns (step: Fields)
    ensures step == CompiledStep(lib, source, planned)
  {
    step := source - {"target"};
    if planned.target != "" {
      step := step["semantic_target" := String(planned.target)];
    }
    if planned.binding.None? {
      return;
    }
    var binding := planned.binding.value;
    if binding.probeId != "" {
      step := step["probe_id" := String(binding.probeId)];
      step := step["observation_id" := String(binding.observationId)];
      step := step["observation_sha256" := String(binding.observationSha)];
      step := step["page_state_id" := String(binding.pageStateId)];
      step := step["selected_candidate_id" := String(binding.selectedId)];
    }
    step := step["locator_candidates" := Encoded(lib, binding.candidates)];
  }
}
