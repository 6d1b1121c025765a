/** The research-v2 profile (internal/dsl/research_v2.go): steps bound to grounded
    browser targets, and the observation bindings they must agree with. */
module ResearchV2 {
  import opened Wrappers
  import opened Json
  import opened Text
  import opened DslCase
  import BrowserContract

  type Decoder = Value -> Option<BrowserContract.Candidate>

  predicate RequiresBinding(action: string) { action in {"click", "input", "capture_text", "assert_text"} }

  predicate HasTarget(action: string) { action in {"click", "input", "wait_for", "assert_text", "capture_text"} }

  predicate HexSha(s: string) {
    |s| == 64 && forall i :: 0 <= i < |s| ==> '0' <= s[i] <= '9' || 'a' <= s[i] <= 'f' || 'A' <= s[i] <= 'F'
  }

  const LINEAGE_FIELDS := {"probe_id", "observation_id", "observation_sha256", "page_state_id"}

  /** What only the compiler may write. */
  const COMPILER_FIELDS := LINEAGE_FIELDS + {"semantic_target", "locator_candidates", "selected_candidate_id"}

  const STEP_FIELDS := COMPILER_FIELDS +
    {"plan_step_id", "action", "intent", "target_binding_id", "value", "trigger", "context_key", "timeout_ms",
     "preconditions", "postconditions", "idempotency", "side_effect", "target"}

  predicate HasLineage(f: Fields) {
    "probe_id" in f || "observation_id" in f || "observation_sha256" in f || "page_state_id" in f
  }

  predicate UnboundCondition(v: Value) { TextAt(AsObject(v), "type") in {"element_visible", "element_gone"} }

  predicate V2ConditionsOk(v: Value) {
    ResearchConditionsOk(v) && forall i :: 0 <= i < |v.items| ==> !UnboundCondition(v.items[i])
  }

  predicate V2ActionFieldsOk(action: string, f: Fields) {
    && (action == "goto" || action == "assert_url_contains" ==> BoundedText(f, "value", 2000))
    && (action == "input" ==>
          At(f, "value").String? && (At(f, "trigger").Null? || At(f, "trigger") in {String("Enter"), String("Tab")}))
    && (action == "wait_for" ==> ("timeout_ms" in f ==> InRange(f["timeout_ms"], 1.0, 60000.0)))
    && (action == "assert_text" ==> BoundedText(f, "value", 10000))
    && (action == "capture_text" ==> BoundedText(f, "context_key", 100))
    && (RequiresBinding(action) ==> BoundedText(f, "target_binding_id", 64))
  }

  predicate V2CandidateOk(decode: Decoder, v: Value) {
    decode(v).Some?
    && var c := decode(v).value;
    && !BrowserContract.Blank(c.id) && !BrowserContract.Blank(c.elementRef) && !BrowserContract.Blank(c.provenance)
    && c.observedCount == 1 && c.visible && BrowserContract.ValidLocator(c.locator)
  }

  predicate V2CandidateExists(v: Value, id: string) {
    exists i :: 0 <= i < |AsArray(v)| && TrimAt(AsObject(AsArray(v)[i]), "candidate_id") == id
  }

  predicate TargetCandidatesOk(decode: Decoder, v: Value, selected: string) {
    && v.Array? && v.items != []
    && (forall i :: 0 <= i < |v.items| ==> V2CandidateOk(decode, v.items[i]))
    && (selected != "" ==> V2CandidateExists(v, selected))
  }

  predicate LineageTextsOk(f: Fields) {
    && BoundedText(f, "probe_id", 64) && BoundedText(f, "observation_id", 64)
    && BoundedText(f, "page_state_id", 256) && BoundedText(f, "selected_candidate_id", 64)
    && HexSha(TrimAt(f, "observation_sha256"))
  }

  predicate TargetOk(decode: Decoder, f: Fields) {
    && BoundedText(f, "target_binding_id", 64) && BoundedText(f, "semantic_target", 500)
    && TargetCandidatesOk(decode, At(f, "locator_candidates"), TrimAt(f, "selected_candidate_id"))
    && (HasLineage(f) ==> LineageTextsOk(f))
  }

  predicate V2PhaseOk(decode: Decoder, action: string, f: Fields, phase: Phase) {
    if phase.Draft? then forall key :: key in COMPILER_FIELDS ==> key !in f
    else
      && (HasTarget(action) ==> BoundedText(f, "semantic_target", 500))
      && (RequiresBinding(action) ==> TargetOk(decode, f))
  }

  predicate V2MetaOk(action: string, f: Fields) {
    && BoundedText(f, "plan_step_id", 64) && BoundedText(f, "intent", 500)
    && V2ConditionsOk(At(f, "preconditions")) && V2ConditionsOk(At(f, "postconditions"))
    && RequiredEnum(f, "idempotency", {"idempotent", "non_idempotent"})
    && RequiredEnum(f, "side_effect", {"none", "browser_state", "external_state", "unknown"})
    && EffectOk(action, TrimAt(f, "idempotency"), TrimAt(f, "side_effect"),
                At(f, "preconditions").items, At(f, "postconditions").items)
  }

  /** validateResearchV2Step. */
  predicate V2StepOk(decode: Decoder, v: Value, phase: Phase) {
    && v.Object?
    && var f := v.fields;
    && var action := TextAt(f, "action");
    && Supported(action) && OnlyFields(f, STEP_FIELDS)
    && V2MetaOk(action, f) && V2ActionFieldsOk(action, f)
    && V2PhaseOk(decode, action, f, phase)
  }

  // --- materializeResearchV2Defaults ----------------------------------------------

  function MaterializedCondition(v: Value): Value {
    if v.Object? && "timeout_ms" !in v.fields then Object(v.fields["timeout_ms" := Number(3000.0)]) else v
  }

  function MaterializedConditions(f: Fields, key: string): Fields {
    if !At(f, key).Array? then f
    else
      var items := At(f, key).items;
      f[key := Array(seq(|items|, i requires 0 <= i < |items| => MaterializedCondition(items[i])))]
  }

  function Materialized(v: Value): Value {
    if !v.Object? then v
    else
      var f := MaterializedConditions(MaterializedConditions(v.fields, "preconditions"), "postconditions");
      Object(if At(f, "action") == String("wait_for") && "timeout_ms" !in f
             then f["timeout_ms" := Number(5000.0)] else f)
  }

  // --- Observation bindings and lineage -------------------------------------------

  datatype ObservationBinding = ObservationBinding(
    id: string, sha: string, probeId: string, observationId: string, observationSha: string, pageStateId: string)

  /** A string field of a Go struct: missing and null decode to "". */
  function DecodeText(f: Fields, key: string): Option<string> {
    match At(f, key)
    case Null => Some("")
    case String(text) => Some(text)
    case _ => None
  }

  function DecodeBinding(v: Value): Option<ObservationBinding> {
    if !v.Null? && !v.Object? then None
    else
      var f := AsObject(v);
      var id, sha, probe := DecodeText(f, "binding_id"), DecodeText(f, "binding_sha256"), DecodeText(f, "probe_id");
      var observation, observationSha := DecodeText(f, "observation_id"), DecodeText(f, "observation_sha256");
      var page := DecodeText(f, "page_state_id");
      if id.Some? && sha.Some? && probe.Some? && observation.Some? && observationSha.Some? && page.Some? then
        Some(ObservationBinding(id.value, sha.value, probe.value, observation.value, observationSha.value, page.value))
      else None
  }

  predicate CompleteBinding(b: ObservationBinding) {
    && TrimSpace(b.id) != "" && HexSha(b.sha) && TrimSpace(b.observationId) != "" && HexSha(b.observationSha)
    && (b.probeId == "" <==> b.pageStateId == "")
  }

  /** validateV2ObservationBindings: the bindings by id, or None when one is malformed,
      incomplete or repeated. */
  function Bindings(items: seq<Value>): Option<map<string, ObservationBinding>> {
    if items == [] then Some(map[])
    else
      var earlier := Bindings(items[..|items| - 1]);
      var last := DecodeBinding(items[|items| - 1]);
      if earlier.Some? && last.Some? && CompleteBinding(last.value) && last.value.id !in earlier.value
      then Some(earlier.value[last.value.id := last.value]) else None
  }

  /** A text field as Go decodes it: the string, or nothing for a missing or null one. */
  predicate FieldReads(f: Fields, key: string, text: string) {
    At(f, key) == String(text) || (At(f, key) == Null && text == "")
  }

  /** The entry decodes to this complete binding. */
  predicate EntryReads(v: Value, b: ObservationBinding) {
    && (v.Object? || v.Null?)
    && var f := AsObject(v);
    && FieldReads(f, "binding_id", b.id) && FieldReads(f, "binding_sha256", b.sha)
    && FieldReads(f, "probe_id", b.probeId) && FieldReads(f, "page_state_id", b.pageStateId)
    && FieldReads(f, "observation_id", b.observationId) && FieldReads(f, "observation_sha256", b.observationSha)
    && TrimSpace(b.id) != "" && HexSha(b.sha) && TrimSpace(b.observationId) != "" && HexSha(b.observationSha)
    && (b.probeId == "") == (b.pageStateId == "")
  }

  /** One entry after the other. */
  predicate EntriesRead(items: seq<Value>, entries: seq<ObservationBinding>)
    ensures EntriesRead(items, entries) ==> |entries| == |items|
  {
    if items == [] || entries == [] then items == [] && entries == []
    else
      && EntryReads(items[|items| - 1], entries[|entries| - 1])
      && EntriesRead(items[..|items| - 1], entries[..|entries| - 1])
  }

  /** The map holds each entry under its own id, no id twice, and nothing else. */
  ghost predicate IndexesEntries(entries: seq<ObservationBinding>, bindings: map<string, ObservationBinding>) {
    && (forall n :: 0 <= n < |entries| ==> entries[n].id in bindings && bindings[entries[n].id] == entries[n])
    && (forall m, n :: 0 <= m < n < |entries| ==> entries[m].id != entries[n].id)
    && forall id :: id in bindings ==> exists n :: 0 <= n < |entries| && entries[n].id == id
  }

  ghost predicate Indexed(items: seq<Value>, bindings: map<string, ObservationBinding>) {
    exists entries :: EntriesRead(items, entries) && IndexesEntries(entries, bindings)
  }

  lemma EntryIff(v: Value, b: ObservationBinding)
    ensures EntryReads(v, b) <==> DecodeBinding(v) == Some(b) && CompleteBinding(b)
  {
  }

  lemma IndexNext(entries: seq<ObservationBinding>, bindings: map<string, ObservationBinding>, b: ObservationBinding)
    requires IndexesEntries(entries, bindings) && b.id !in bindings
    ensures IndexesEntries(entries + [b], bindings[b.id := b])
  {
    var longer := entries + [b];
    assert longer[|entries|] == b;
    forall id | id in bindings ensures exists n :: 0 <= n < |longer| && longer[n].id == id {
      var n :| 0 <= n < |entries| && entries[n].id == id;
      assert longer[n].id == id;
    }
  }

  lemma IndexRest(entries: seq<ObservationBinding>, bindings: map<string, ObservationBinding>)
    requires entries != [] && IndexesEntries(entries, bindings)
    ensures var last := entries[|entries| - 1];
            && last.id in bindings && bindings[last.id] == last
            && IndexesEntries(entries[..|entries| - 1], bindings - {last.id})
  {
    var rest, last := entries[..|entries| - 1], entries[|entries| - 1].id;
    forall id | id in bindings - {last} ensures exists n :: 0 <= n < |rest| && rest[n].id == id {
      var n :| 0 <= n < |entries| && entries[n].id == id;
      assert rest[n].id == id;
    }
  }

  lemma EntriesNext(items: seq<Value>, earlier: seq<ObservationBinding>, b: ObservationBinding)
    requires items != [] && EntriesRead(items[..|items| - 1], earlier) && EntryReads(items[|items| - 1], b)
    ensures EntriesRead(items, earlier + [b])
  {
    assert (earlier + [b])[..|earlier|] == earlier;
  }

  lemma BindingsNext(items: seq<Value>, bindings: map<string, ObservationBinding>, b: ObservationBinding)
    requires items != [] && Bindings(items[..|items| - 1]) == Some(bindings)
    requires EntryReads(items[|items| - 1], b) && b.id !in bindings
    ensures Bindings(items) == Some(bindings[b.id := b])
  {
    EntryIff(items[|items| - 1], b);
  }

  lemma {:induction false} BindingsRead(items: seq<Value>) returns (entries: seq<ObservationBinding>)
    requires Bindings(items).Some?
    ensures EntriesRead(items, entries) && IndexesEntries(entries, Bindings(items).value)
  {
    if items == [] {
      entries := [];
    } else {
      var rest, b := items[..|items| - 1], DecodeBinding(items[|items| - 1]).value;
      var earlier := BindingsRead(rest);
      EntryIff(items[|items| - 1], b);
      IndexNext(earlier, Bindings(rest).value, b);
      EntriesNext(items, earlier, b);
      entries := earlier + [b];
    }
  }

  lemma PutBack(bindings: map<string, ObservationBinding>, id: string)
    requires id in bindings
    ensures (bindings - {id})[id := bindings[id]] == bindings
  {
  }

  lemma {:induction false} BindingsOf(items: seq<Value>, entries: seq<ObservationBinding>,
                                      bindings: map<string, ObservationBinding>)
    requires EntriesRead(items, entries) && IndexesEntries(entries, bindings)
    ensures Bindings(items) == Some(bindings)
  {
    if items == [] {
      assert bindings == map[];
    } else {
      var n := |items| - 1;
      IndexRest(entries, bindings);
      PutBack(bindings, entries[n].id);
      BindingsOf(items[..n], entries[..n], bindings - {entries[n].id});
      BindingsNext(items, bindings - {entries[n].id}, entries[n]);
    }
  }

  /** The bindings by id, read off the entries. */
  lemma BindingsIff(items: seq<Value>, bindings: map<string, ObservationBinding>)
    ensures Bindings(items) == Some(bindings) <==> Indexed(items, bindings)
  {
    if Bindings(items) == Some(bindings) {
      var entries := BindingsRead(items);
    }
    if entries :| EntriesRead(items, entries) && IndexesEntries(entries, bindings) {
      BindingsOf(items, entries, bindings);
    }
  }

  method ValidateObservationBindings(raw: Value) returns (r: Option<map<string, ObservationBinding>>)
    ensures r == if raw.Array? then Bindings(raw.items) else None
    ensures r.Some? ==> raw.Array? && Indexed(raw.items, r.value)
    ensures r.None? && raw.Array? ==> forall bindings :: !Indexed(raw.items, bindings)
  {
    forall bindings ensures Bindings(AsArray(raw)) == Some(bindings) <==> Indexed(AsArray(raw), bindings) {
      BindingsIff(AsArray(raw), bindings);
    }
    if !raw.Array? {
      return None;
    }
    var result: map<string, ObservationBinding> := map[];
    for n := 0 to |raw.items|
      invariant Bindings(raw.items[..n]) == Some(result)
    {
      assert raw.items[..n + 1][..n] == raw.items[..n];
      var binding := DecodeBinding(raw.items[n]);
      if binding.None? || !CompleteBinding(binding.value) || binding.value.id in result {
        BindingsFail(raw.items, n + 1);
        return None;
      }
      result := result[binding.value.id := binding.value];
    }
    assert raw.items[..|raw.items|] == raw.items;
    r := Some(result);
  }

  lemma {:induction false} BindingsFail(items: seq<Value>, n: nat)
    requires n <= |items| && Bindings(items[..n]).None?
    ensures Bindings(items).None?
    decreases |items| - n
  {
    if n == |items| {
      assert items[..n] == items;
    } else {
      assert items[..n + 1][..n] == items[..n];
      BindingsFail(items, n + 1);
    }
  }

  /** What validateV2StepLineage asks of one step. */
  predicate LineageOk(v: Value, bindings: map<string, ObservationBinding>) {
    var f := AsObject(v);
    RequiresBinding(TrimAt(f, "action")) ==>
      && TrimAt(f, "target_binding_id") in bindings
      && var b := bindings[TrimAt(f, "target_binding_id")];
      if !HasLineage(f) then b.probeId == ""
      else
        && b.probeId != ""
        && TrimAt(f, "probe_id") == b.probeId && TrimAt(f, "observation_id") == b.observationId
        && TrimAt(f, "observation_sha256") == b.observationSha && TrimAt(f, "page_state_id") == b.pageStateId
  }

  /** A click, input, capture_text or assert_text names a listed binding and repeats its
      lineage; without any lineage of its own, the binding has none either. */
  predicate Linked(v: Value, bindings: map<string, ObservationBinding>) {
    var f := AsObject(v);
    var action, id := TrimAt(f, "action"), TrimAt(f, "target_binding_id");
    action == "click" || action == "input" || action == "capture_text" || action == "assert_text" ==>
      && id in bindings
      && if "probe_id" !in f && "observation_id" !in f && "observation_sha256" !in f && "page_state_id" !in f
         then bindings[id].probeId == ""
         else
           && bindings[id].probeId != ""
           && TrimAt(f, "probe_id") == bindings[id].probeId
           && TrimAt(f, "observation_id") == bindings[id].observationId
           && TrimAt(f, "observation_sha256") == bindings[id].observationSha
           && TrimAt(f, "page_state_id") == bindings[id].pageStateId
  }

  lemma LinkedIff(v: Value, bindings: map<string, ObservationBinding>)
    ensures LineageOk(v, bindings) <==> Linked(v, bindings)
  {
  }

  method ValidateStepLineage(steps: seq<Value>, bindings: map<string, ObservationBinding>) returns (ok: bool)
    ensures ok <==> V2Lineage(steps, bindings)
    ensures ok <==> forall i :: 0 <= i < |steps| ==> Linked(steps[i], bindings)
  {
    forall i | 0 <= i < |steps| ensures LineageOk(steps[i], bindings) <==> Linked(steps[i], bindings) {
      LinkedIff(steps[i], bindings);
    }
    for index := 0 to |steps|
      invariant forall i :: 0 <= i < index ==> LineageOk(steps[i], bindings)
    {
      var step := AsObject(steps[index]);
      if !RequiresBinding(TrimAt(step, "action")) {
        continue;
      }
      var bindingId := TrimAt(step, "target_binding_id");
      if bindingId !in bindings {
        return false;
      }
      var binding := bindings[bindingId];
      if !HasLineage(step) && binding.probeId == "" {
        continue;
      }
      if !HasLineage(step) || binding.probeId == "" || TrimAt(step, "probe_id") != binding.probeId
         || TrimAt(step, "observation_id") != binding.observationId
         || TrimAt(step, "observation_sha256") != binding.observationSha
         || TrimAt(step, "page_state_id") != binding.pageStateId {
        assert !LineageOk(steps[index], bindings);
        return false;
      }
    }
    ok := true;
  }

  // --- Whole cases ----------------------------------------------------------------

  predicate V2Lineage(steps: seq<Value>, bindings: map<string, ObservationBinding>) {
    forall i :: 0 <= i < |steps| ==> LineageOk(steps[i], bindings)
  }

  predicate V2BoundOk(f: Fields, phase: Phase) {
    if phase.Draft? then "plan_binding" !in f && "observation_bindings" !in f
    else
      && At(f, "plan_binding").Object?
      && At(f, "observation_bindings").Array? && Bindings(At(f, "observation_bindings").items).Some?
      && V2Lineage(AsArray(At(f, "steps")), Bindings(At(f, "observation_bindings").items).value)
  }

  predicate V2HeaderOk(f: Fields) {
    && OnlyFields(f, {"profile", "name", "description", "base_url", "input_contract", "output_contract", "steps",
                      "plan_binding", "observation_bindings"})
    && At(f, "profile") == String("research-v2")
    && HeaderOk(f)
    && ResearchContractsOnly(f, "input_contract", true) && ResearchContractsOnly(f, "output_contract", false)
  }

  /** validateResearchV2Case. */
  predicate V2Ok(decode: Decoder, f: Fields, phase: Phase) {
    && V2HeaderOk(f)
    && (forall i :: 0 <= i < |At(f, "steps").items| ==> V2StepOk(decode, At(f, "steps").items[i], phase))
    && V2BoundOk(f, phase)
  }

  function WithDefault(f: Fields, key: string): Fields {
    if key in f then f else f[key := Array([])]
  }

  function CanonV2(f: Fields): Fields {
    var steps := AsArray(At(f, "steps"));
    WithDefault(WithDefault(f["name" := Trimmed(f, "name")], "input_contract"), "output_contract")
      ["steps" := Array(seq(|steps|, i requires 0 <= i < |steps| => Materialized(steps[i])))]
  }

  // --- The research-v2 fixpoint ---------------------------------------------------

  lemma MaterializedKeys(v: Value)
    requires v.Object?
    ensures Materialized(v).Object?
    ensures var f := v.fields; var g := Materialized(v).fields;
            && (forall key :: key !in {"preconditions", "postconditions", "timeout_ms"} ==>
                  At(g, key) == At(f, key) && (key in g <==> key in f))
            && ("timeout_ms" in g <==> "timeout_ms" in f || At(f, "action") == String("wait_for"))
            && ("timeout_ms" in g ==> g["timeout_ms"] == OrDefault(f, "timeout_ms", Number(5000.0)))
            && ("preconditions" in g <==> "preconditions" in f) && ("postconditions" in g <==> "postconditions" in f)
  {
  }

  predicate MaterializedItems(v: Value, w: Value) {
    if !v.Array? then w == v
    else
      && w.Array? && |w.items| == |v.items|
      && forall i :: 0 <= i < |v.items| ==> w.items[i] == MaterializedCondition(v.items[i])
  }

  lemma MaterializedLists(v: Value)
    requires v.Object?
    ensures Materialized(v).Object?
    ensures MaterializedItems(At(v.fields, "preconditions"), At(Materialized(v).fields, "preconditions"))
    ensures MaterializedItems(At(v.fields, "postconditions"), At(Materialized(v).fields, "postconditions"))
  {
  }

  lemma MaterializedConditionOk(v: Value)
    requires ConditionOk(v)
    ensures ConditionOk(MaterializedCondition(v)) && (UnboundCondition(MaterializedCondition(v)) <==> UnboundCondition(v))
    ensures OnlyFields(v.fields, {"type", "value", "method", "status", "timeout_ms"}) ==>
              OnlyFields(MaterializedCondition(v).fields, {"type", "value", "method", "status", "timeout_ms"})
  {
  }

  lemma MaterializedListOk(v: Value, w: Value)
    requires V2ConditionsOk(v) && MaterializedItems(v, w)
    ensures V2ConditionsOk(w) && |w.items| == |v.items|
  {
    forall i | 0 <= i < |w.items|
      ensures ConditionOk(w.items[i]) && !UnboundCondition(w.items[i])
      ensures OnlyFields(AsObject(w.items[i]), {"type", "value", "method", "status", "timeout_ms"})
    {
      assert ConditionOk(v.items[i]) && !UnboundCondition(v.items[i]);
      MaterializedConditionOk(v.items[i]);
    }
  }

  lemma MaterializedFixpoint(v: Value)
    ensures Materialized(Materialized(v)) == Materialized(v)
  {
    if v.Object? {
      var g := Materialized(v).fields;
      MaterializedKeys(v);
      MaterializedLists(v);
      MaterializedLists(Materialized(v));
      MaterializedKeys(Materialized(v));
      var h := Materialized(Materialized(v)).fields;
      forall key ensures At(h, key) == At(g, key) && (key in h <==> key in g) {
      }
      assert h == g;
    }
  }

  /** The fields of a step that materialising does not touch. */
  ghost predicate SameBut(f: Fields, g: Fields) {
    forall key :: key !in {"preconditions", "postconditions", "timeout_ms"} ==>
      At(g, key) == At(f, key) && (key in g <==> key in f)
  }

  lemma SameText(f: Fields, g: Fields, key: string, limit: nat)
    requires At(g, key) == At(f, key)
    ensures BoundedText(g, key, limit) == BoundedText(f, key, limit) && TrimAt(g, key) == TrimAt(f, key)
  {
  }

  lemma SameTarget(decode: Decoder, f: Fields, g: Fields)
    requires SameBut(f, g) && TargetOk(decode, f)
    ensures TargetOk(decode, g)
  {
    assert HasLineage(g) == HasLineage(f);
    SameText(f, g, "target_binding_id", 64);
    SameText(f, g, "semantic_target", 500);
    SameText(f, g, "selected_candidate_id", 64);
    assert At(g, "locator_candidates") == At(f, "locator_candidates");
    if HasLineage(f) {
      SameLineageTexts(f, g);
    }
  }

  lemma SameLineageTexts(f: Fields, g: Fields)
    requires SameBut(f, g) && LineageTextsOk(f)
    ensures LineageTextsOk(g)
  {
    SameText(f, g, "probe_id", 64);
    SameText(f, g, "observation_id", 64);
    SameText(f, g, "page_state_id", 256);
    SameText(f, g, "selected_candidate_id", 64);
    SameText(f, g, "observation_sha256", 64);
  }

  lemma SamePhase(decode: Decoder, action: string, f: Fields, g: Fields, phase: Phase)
    requires SameBut(f, g) && V2PhaseOk(decode, action, f, phase)
    ensures V2PhaseOk(decode, action, g, phase)
  {
    if phase.Draft? {
      forall key | key in COMPILER_FIELDS ensures key !in g {
        assert key !in f;
      }
    } else {
      SameText(f, g, "semantic_target", 500);
      if RequiresBinding(action) {
        SameTarget(decode, f, g);
      }
    }
  }

  lemma SameActionFields(action: string, f: Fields, g: Fields)
    requires SameBut(f, g) && V2ActionFieldsOk(action, f)
    requires "timeout_ms" in g ==> g["timeout_ms"] == OrDefault(f, "timeout_ms", Number(5000.0))
    ensures V2ActionFieldsOk(action, g)
  {
  }

  lemma MaterializedMeta(action: string, f: Fields, g: Fields)
    requires V2MetaOk(action, f) && SameBut(f, g)
    requires MaterializedItems(At(f, "preconditions"), At(g, "preconditions"))
    requires MaterializedItems(At(f, "postconditions"), At(g, "postconditions"))
    ensures V2MetaOk(action, g)
  {
    MaterializedListOk(At(f, "preconditions"), At(g, "preconditions"));
    MaterializedListOk(At(f, "postconditions"), At(g, "postconditions"));
  }

  lemma MaterializedStepOk(decode: Decoder, v: Value, phase: Phase)
    requires V2StepOk(decode, v, phase)
    ensures V2StepOk(decode, Materialized(v), phase)
  {
    var f := v.fields;
    var g := Materialized(v).fields;
    var action := TextAt(f, "action");
    MaterializedKeys(v);
    MaterializedLists(v);
    assert SameBut(f, g);
    MaterializedMeta(action, f, g);
    SamePhase(decode, action, f, g, phase);
    SameActionFields(action, f, g);
  }

  lemma CanonV2Keys(f: Fields)
    ensures var g := CanonV2(f); var steps := AsArray(At(f, "steps"));
            && At(g, "name") == Trimmed(f, "name") && "name" in g
            && g["steps"] == Array(seq(|steps|, i requires 0 <= i < |steps| => Materialized(steps[i])))
            && g["input_contract"] == OrDefault(f, "input_contract", Array([]))
            && g["output_contract"] == OrDefault(f, "output_contract", Array([]))
            && (forall key :: key !in {"name", "steps", "input_contract", "output_contract"} ==>
                  At(g, key) == At(f, key) && (key in g <==> key in f))
            && g.Keys == f.Keys + {"name", "steps", "input_contract", "output_contract"}
  {
  }

  lemma V2Header(f: Fields)
    requires HeaderOk(f)
    ensures HeaderOk(CanonV2(f))
    ensures ResearchContractsOnly(f, "input_contract", true) ==> ResearchContractsOnly(CanonV2(f), "input_contract", true)
    ensures ResearchContractsOnly(f, "output_contract", false) ==>
              ResearchContractsOnly(CanonV2(f), "output_contract", false)
  {
    CanonV2Keys(f);
    Trim(TextAt(f, "name"));
  }

  lemma SameLineage(v: Value, bindings: map<string, ObservationBinding>)
    requires v.Object? && LineageOk(v, bindings)
    ensures LineageOk(Materialized(v), bindings)
  {
    MaterializedKeys(v);
    var f, g := v.fields, Materialized(v).fields;
    assert HasLineage(g) == HasLineage(f);
    assert At(g, "action") == At(f, "action") && At(g, "target_binding_id") == At(f, "target_binding_id");
    assert At(g, "probe_id") == At(f, "probe_id") && At(g, "observation_id") == At(f, "observation_id");
    assert At(g, "page_state_id") == At(f, "page_state_id");
    assert At(g, "observation_sha256") == At(f, "observation_sha256");
  }

  lemma V2Bound(f: Fields, phase: Phase)
    requires V2BoundOk(f, phase) && At(f, "steps").Array?
    requires forall i :: 0 <= i < |At(f, "steps").items| ==> At(f, "steps").items[i].Object?
    ensures V2BoundOk(CanonV2(f), phase)
  {
    CanonV2Keys(f);
    var g := CanonV2(f);
    assert At(g, "plan_binding") == At(f, "plan_binding");
    assert At(g, "observation_bindings") == At(f, "observation_bindings");
    if phase.Executable? {
      var bindings := Bindings(At(f, "observation_bindings").items).value;
      forall i | 0 <= i < |At(g, "steps").items| ensures LineageOk(At(g, "steps").items[i], bindings) {
        SameLineage(At(f, "steps").items[i], bindings);
      }
    }
  }

  lemma V2Steps(decode: Decoder, f: Fields, phase: Phase)
    requires V2Ok(decode, f, phase)
    ensures At(CanonV2(f), "steps").Array?
    ensures var steps := At(CanonV2(f), "steps").items;
            && |steps| == |At(f, "steps").items|
            && forall i :: 0 <= i < |steps| ==> V2StepOk(decode, steps[i], phase) && Materialized(steps[i]) == steps[i]
  {
    CanonV2Keys(f);
    var steps := At(CanonV2(f), "steps").items;
    forall i | 0 <= i < |steps| ensures V2StepOk(decode, steps[i], phase) && Materialized(steps[i]) == steps[i] {
      assert V2StepOk(decode, At(f, "steps").items[i], phase);
      MaterializedStepOk(decode, At(f, "steps").items[i], phase);
      MaterializedFixpoint(At(f, "steps").items[i]);
    }
  }

  /** A case with a trimmed name, both contracts and materialised steps is canonical. */
  lemma CanonV2Stable(g: Fields)
    requires g.Keys >= {"name", "steps", "input_contract", "output_contract"} && g["name"] == Trimmed(g, "name")
    requires g["steps"].Array?
    requires forall i :: 0 <= i < |g["steps"].items| ==> Materialized(g["steps"].items[i]) == g["steps"].items[i]
    ensures CanonV2(g) == g
  {
    var h := CanonV2(g);
    CanonV2Keys(g);
    assert h["steps"].items == g["steps"].items;
    assert h.Keys == g.Keys;
    forall key | key in g ensures h[key] == g[key] {
      assert At(h, key) == At(g, key);
    }
  }

  lemma V2Fixpoint(decode: Decoder, f: Fields, phase: Phase)
    requires V2Ok(decode, f, phase)
    ensures CanonV2(CanonV2(f)) == CanonV2(f)
  {
    CanonV2Keys(f);
    V2Steps(decode, f, phase);
    Trim(TextAt(f, "name"));
    CanonV2Stable(CanonV2(f));
  }

  lemma V2Objects(decode: Decoder, f: Fields, phase: Phase)
    requires V2Ok(decode, f, phase)
    ensures forall i :: 0 <= i < |At(f, "steps").items| ==> At(f, "steps").items[i].Object?
  {
    forall i | 0 <= i < |At(f, "steps").items| ensures At(f, "steps").items[i].Object? {
      assert V2StepOk(decode, At(f, "steps").items[i], phase);
    }
  }

  /** Every accepted research-v2 case is accepted again in canonical form, and its
      canonical form is a fixpoint. */
  lemma V2Canonical(decode: Decoder, f: Fields, phase: Phase)
    requires V2Ok(decode, f, phase)
    ensures V2Ok(decode, CanonV2(f), phase)
    ensures CanonV2(CanonV2(f)) == CanonV2(f)
  {
    CanonV2Keys(f);
    V2Header(f);
    V2Objects(decode, f, phase);
    V2Bound(f, phase);
    V2Steps(decode, f, phase);
    V2Fixpoint(decode, f, phase);
    assert At(CanonV2(f), "profile") == At(f, "profile");
  }
}
