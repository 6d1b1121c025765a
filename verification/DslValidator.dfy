/** The checking and rewriting loops of internal/dsl, each proved to compute the
    predicate or function of DslCase and ResearchV2 it implements. */
module DslValidator {
  import opened Wrappers
  import opened Json
  import opened Text
  import opened DslCase
  import opened DslValidate
  import ResearchV2
  import DslDemands
  import DslMeaning

  method ValidateConditions(raw: Value) returns (ok: bool)
    ensures ok == ConditionsOk(raw) && ok == DslDemands.ConditionsDemand(raw)
  {
    DslDemands.ConditionsIff(raw);
    if raw.Null? {
      return true;
    }
    if !raw.Array? {
      return false;
    }
    for index := 0 to |raw.items|
      invariant forall i :: 0 <= i < index ==> ConditionOk(raw.items[i])
    {
      if !ConditionOk(raw.items[index]) {
        return false;
      }
    }
    ok := true;
  }

  method ValidateCandidates(raw: Value) returns (ok: bool)
    ensures ok == CandidatesOk(raw) && ok == DslDemands.CandidatesDemand(raw)
  {
    DslDemands.CandidatesIff(raw);
    if raw.Null? {
      return true;
    }
    if !raw.Array? {
      return false;
    }
    for index := 0 to |raw.items|
      invariant forall i :: 0 <= i < index ==> CandidateOk(raw.items[i])
    {
      if !CandidateOk(raw.items[index]) {
        return false;
      }
    }
    ok := true;
  }

  /** The first usable verified href: the loop skips candidates, the spec recurses. */
  method VerifiedCrossPageAnchorHref(env: Env, raw: Value) returns (href: string)
    ensures href == VerifiedHref(env, AsArray(raw))
    ensures href != "" ==> CrossPage(env, href) && exists i :: 0 <= i < |AsArray(raw)| && HrefOf(AsArray(raw)[i]) == href
    ensures href == "" ==> forall i :: 0 <= i < |AsArray(raw)| ==> !CrossPage(env, HrefOf(AsArray(raw)[i]))
  {
    var candidates := AsArray(raw);
    for n := 0 to |candidates|
      invariant VerifiedHref(env, candidates) == VerifiedHref(env, candidates[n..])
      invariant forall i :: 0 <= i < n ==> !CrossPage(env, HrefOf(candidates[i]))
    {
      assert candidates[n..][0] == candidates[n] && candidates[n..][1..] == candidates[n + 1..];
      href := HrefOf(candidates[n]);
      if href == "" || href[0] == '#' {
        continue;
      }
      if !env.crossPage(href) {
        continue;
      }
      return;
    }
    href := "";
  }

  method HasTargetURLPostcondition(env: Env, raw: Value, href: string) returns (found: bool)
    ensures found == HasTargetURL(env, AsArray(raw), href) && found == DslDemands.Asserted(env, AsArray(raw), href)
  {
    DslDemands.AssertedIff(env, AsArray(raw), href);
    var target := env.targetPath(href);
    if target.None? {
      return false;
    }
    found := AnyTargetsURL(env, AsArray(raw), href, target.value);
  }

  method AnyTargetsURL(env: Env, conditions: seq<Value>, href: string, path: string) returns (found: bool)
    ensures found <==> exists i :: 0 <= i < |conditions| && TargetsURL(env, conditions[i], href, path)
  {
    for n := 0 to |conditions|
      invariant forall i :: 0 <= i < n ==> !TargetsURL(env, conditions[i], href, path)
    {
      var hit := TargetsURL(env, conditions[n], href, path);
      if hit {
        return true;
      }
    }
    found := false;
  }

  method CanonicalConditions(env: Env, raw: Value) returns (result: seq<Value>)
    ensures Array(result) == CanonConditions(env, raw)
    ensures DslMeaning.ConditionsMean(env, raw, Array(result))
  {
    DslMeaning.ListsKept(env, raw);
    var conditions := AsArray(raw);
    result := [];
    for n := 0 to |conditions|
      invariant |result| == n && forall i :: 0 <= i < n ==> result[i] == CanonCondition(env, conditions[i])
    {
      result := result + [CanonCondition(env, conditions[n])];
    }
  }

  method ValidateContracts(f: Fields, field: string, input: bool) returns (ok: bool)
    ensures ok == ContractsOk(f, field, input) && ok == DslDemands.ContractsDemand(f, field, input)
  {
    DslDemands.ContractsIff(f, field, input);
    if field !in f {
      return true;
    }
    if !f[field].Array? {
      return false;
    }
    var contracts := f[field].items;
    for index := 0 to |contracts|
      invariant forall i :: 0 <= i < index ==> ContractOk(input, contracts[i])
    {
      if !ContractOk(input, contracts[index]) {
        return false;
      }
    }
    ok := true;
  }

  method ValidateStep(env: Env, action: string, step: Fields) returns (ok: bool)
    ensures ok == StepOk(env, action, step)
    ensures DslDemands.KnownAction(action) ==> ok == DslDemands.StepDemands(env, action, step)
  {
    if DslDemands.KnownAction(action) {
      DslDemands.StepIff(env, action, step);
    }
    if !ActionFieldsOk(action, step)
       || !OptionalEnum(step, "locator_confidence", {"high", "medium", "low"})
       || !OptionalEnum(step, "target_strategy", {"css", "xpath", "data-testid", "element_id", "tag"})
       || !NullOrText(step, "page_state")
       || (action == "input" && !OptionalEnum(step, "trigger", {"Enter", "Tab"})) {
      return false;
    }
    if action == "wait_for" && "timeout_ms" in step && !InRange(step["timeout_ms"], 1.0, 60000.0) {
      return false;
    }
    ok := ValidateCandidates(At(step, "candidates"));
    if !ok {
      return;
    }
    ok := ValidateConditions(At(step, "preconditions"));
    if !ok {
      return;
    }
    ok := ValidateConditions(At(step, "postconditions"));
    if !ok {
      return;
    }
    if action == "click" {
      var href := VerifiedCrossPageAnchorHref(env, At(step, "candidates"));
      if href != "" {
        ok := HasTargetURLPostcondition(env, At(step, "postconditions"), href);
      }
    }
  }

  /** caseProfile: the profile field is deleted or normalised in place. */
  method CaseProfile(candidate: Fields) returns (profile: Option<Profile>, normalized: Fields)
    ensures profile == ProfileOf(candidate)
    ensures profile.Some? ==> normalized == Profiled(candidate, profile.value)
  {
    normalized := candidate;
    if "profile" !in candidate {
      assert candidate - {"profile"} == candidate;
      return Some(LegacyV1), candidate;
    }
    var value := candidate["profile"];
    if !value.String? {
      return None, candidate;
    }
    profile := ProfileNamed(TrimSpace(value.text));
    match profile {
      case Some(LegacyV1) => normalized := normalized - {"profile"};
      case Some(ResearchOne) => normalized := normalized["profile" := String("research-v1")];
      case Some(ResearchTwo) => normalized := normalized["profile" := String("research-v2")];
      case None =>
    }
  }

  function Edited(f: Fields): Fields { (f - {"_preflight"})["name" := String(TrimAt(f, "name"))] }

  lemma EditedFields(f: Fields)
    ensures forall key :: key !in {"_preflight", "name"} ==>
              At(Edited(f), key) == At(f, key) && (key in Edited(f) <==> key in f)
    ensures At(f - {"_preflight"}, "name") == At(f, "name")
    ensures At(Edited(f), "steps") == At(f, "steps")
  {
  }

  /** What the later checks see is what the submitted case says. */
  lemma EditedChecks(f: Fields)
    ensures OptionalTextOk(Edited(f), "description", 1000) == OptionalTextOk(f, "description", 1000)
    ensures OptionalTextOk(Edited(f), "base_url", 500) == OptionalTextOk(f, "base_url", 500)
    ensures ContractsOk(Edited(f), "input_contract", true) == ContractsOk(f, "input_contract", true)
    ensures ContractsOk(Edited(f), "output_contract", false) == ContractsOk(f, "output_contract", false)
  {
    EditedFields(f);
    assert At(Edited(f), "description") == At(f, "description") && At(Edited(f), "base_url") == At(f, "base_url");
    assert At(Edited(f), "input_contract") == At(f, "input_contract");
    assert At(Edited(f), "output_contract") == At(f, "output_contract");
  }

  method ValidateHeader(candidate: Fields) returns (ok: bool)
    ensures ok <==>
              && OptionalTextOk(candidate, "description", 1000) && OptionalTextOk(candidate, "base_url", 500)
              && ContractsOk(candidate, "input_contract", true) && ContractsOk(candidate, "output_contract", false)
  {
    if !OptionalTextOk(candidate, "description", 1000) || !OptionalTextOk(candidate, "base_url", 500) {
      return false;
    }
    ok := ValidateContracts(candidate, "input_contract", true);
    if !ok {
      return;
    }
    ok := ValidateContracts(candidate, "output_contract", false);
  }

  /** validateLegacyCase: the candidate loses its preflight data, its name is trimmed and
      missing contracts are filled in before the canonical case is built. */
  method ValidateLegacyCase(env: Env, source: Fields) returns (r: Option<Fields>)
    ensures r.Some? <==> LegacyOk(env, source)
    ensures r.Some? ==> r.value == CanonLegacy(env, source)
    ensures r.Some? <==> DslDemands.LegacyDemands(env, source)
    ensures r.Some? ==> DslMeaning.LegacyMeans(env, source, r.value)
  {
    DslDemands.LegacyIff(env, source);
    if LegacyOk(env, source) {
      DslMeaning.LegacyKept(env, source);
    }
    var candidate := source - {"_preflight"};
    EditedFields(source);
    EditedChecks(source);
    var name := TrimAt(candidate, "name");
    if name == "" || |name| > 200 {
      return None;
    }
    candidate := candidate["name" := String(name)];
    var ok := ValidateHeader(candidate);
    if !ok {
      return None;
    }
    if !At(candidate, "steps").Array? || At(candidate, "steps").items == [] {
      return None;
    }
    ok := ValidateLegacySteps(env, At(candidate, "steps").items);
    if !ok {
      return None;
    }
    LegacyCandidate(env, source, name);
    candidate := ResearchV2.WithDefault(ResearchV2.WithDefault(candidate, "input_contract"), "output_contract");
    r := Some(CanonLegacy(env, candidate));
  }

  method ValidateLegacySteps(env: Env, steps: seq<Value>) returns (ok: bool)
    ensures ok <==> forall i :: 0 <= i < |steps| ==> LegacyStepOk(env, steps[i])
  {
    for index := 0 to |steps|
      invariant forall i :: 0 <= i < index ==> LegacyStepOk(env, steps[i])
    {
      if !steps[index].Object? || !Supported(TextAt(steps[index].fields, "action")) {
        assert !LegacyStepOk(env, steps[index]);
        return false;
      }
      ok := ValidateStep(env, TextAt(steps[index].fields, "action"), steps[index].fields);
      if !ok {
        assert !LegacyStepOk(env, steps[index]);
        return;
      }
    }
    ok := true;
  }

  /** The edits to the candidate change neither what is checked nor what is built. */
  lemma LegacyCandidate(env: Env, f: Fields, name: string)
    requires name == TrimAt(f, "name")
    ensures var g := ResearchV2.WithDefault(
                       ResearchV2.WithDefault((f - {"_preflight"})["name" := String(name)], "input_contract"),
                       "output_contract");
            CanonLegacy(env, g) == CanonLegacy(env, f)
  {
    Trim(TextAt(f, "name"));
    var g := ResearchV2.WithDefault(
               ResearchV2.WithDefault((f - {"_preflight"})["name" := String(name)], "input_contract"), "output_contract");
    assert At(g, "steps") == At(f, "steps") && At(g, "description") == At(f, "description");
    assert At(g, "base_url") == At(f, "base_url") && At(g, "name") == String(name);
    assert AsArray(At(g, "input_contract")) == AsArray(At(f, "input_contract"));
    assert AsArray(At(g, "output_contract")) == AsArray(At(f, "output_contract"));
  }

  /** materializeResearchV2Defaults, writing into the step's condition lists. */
  method MaterializeDefaults(step: Fields) returns (r: Fields)
    ensures Object(r) == ResearchV2.Materialized(Object(step))
  {
    var filled := MaterializeList(step, "preconditions");
    filled := MaterializeList(filled, "postconditions");
    r := filled;
    if At(r, "action") == String("wait_for") && "timeout_ms" !in r {
      r := r["timeout_ms" := Number(5000.0)];
    }
  }

  method MaterializeList(step: Fields, field: string) returns (r: Fields)
    ensures r == ResearchV2.MaterializedConditions(step, field)
  {
    if !At(step, field).Array? {
      return step;
    }
    var conditions := At(step, field).items;
    for n := 0 to |conditions|
      invariant |conditions| == |At(step, field).items|
      invariant forall i :: 0 <= i < n ==> conditions[i] == ResearchV2.MaterializedCondition(At(step, field).items[i])
      invariant forall i :: n <= i < |conditions| ==> conditions[i] == At(step, field).items[i]
    {
      if conditions[n].Object? && "timeout_ms" !in conditions[n].fields {
        conditions := conditions[n := Object(conditions[n].fields["timeout_ms" := Number(3000.0)])];
      }
    }
    r := step[field := Array(conditions)];
    assert r[field] == ResearchV2.MaterializedConditions(step, field)[field];
  }
}
