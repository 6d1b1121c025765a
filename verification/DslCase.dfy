/** The executable DSL: what the validators accept and how a case is rewritten to its
    canonical form (internal/dsl/store.go, internal/dsl/action_ir.go).

    A case is a decoded JSON object. url.Parse and unicode.ToUpper are parameters. */
module DslCase {
  import opened Wrappers
  import opened Json
  import opened Text

  /** `crossPage(href)`: href parses and is relative, http or https.
      `targetPath(href)`: its escaped path and query, None when it does not parse.
      `render`: how fmt.Sprint prints a value that is neither nil nor a string. */
  datatype Env = Env(
    upper: char -> char, crossPage: string -> bool, targetPath: string -> Option<string>, render: Value -> string)

  function TextAt(f: Fields, key: string): string { AsText(At(f, key)) }

  function TrimAt(f: Fields, key: string): string { TrimSpace(TextAt(f, key)) }

  /** trimmedString and optionalTrimmedString of a field. */
  function Trimmed(f: Fields, key: string): Value { String(TrimAt(f, key)) }

  function OptionalTrimmed(f: Fields, key: string): Value {
    if At(f, key).Null? then Null else Trimmed(f, key)
  }

  function OrDefault(f: Fields, key: string, fallback: Value): Value {
    if key in f then f[key] else fallback
  }

  predicate NullOrText(f: Fields, key: string) { At(f, key).Null? || At(f, key).String? }

  predicate InRange(v: Value, low: real, high: real) { v.Number? && low <= v.number <= high }

  // --- Conditions -----------------------------------------------------------------

  predicate ConditionType(kind: string) {
    kind in {"url_contains", "url_changes", "text_visible", "text_gone", "element_visible",
             "element_gone", "network_request", "dom_changed", "value_changed"}
  }

  predicate ConditionOk(v: Value) {
    && v.Object?
    && var f := v.fields;
    && ConditionType(TrimAt(f, "type"))
    && (TrimAt(f, "type") == "url_contains" ==> TrimAt(f, "value") != "")
    && (TrimAt(f, "type") == "network_request" ==>
          !At(f, "value").Null? || !At(f, "method").Null? || !At(f, "status").Null?)
    && NullOrText(f, "value")
    && (At(f, "method").Null? || (At(f, "method").String? && TrimAt(f, "method") != ""))
    && (At(f, "status").Null? ||
          (InRange(At(f, "status"), 100.0, 599.0) && Truncate(At(f, "status").number) as real == At(f, "status").number))
    && ("timeout_ms" in f ==> InRange(f["timeout_ms"], 100.0, 30000.0))
  }

  function CanonCondition(env: Env, v: Value): Value {
    var f := AsObject(v);
    var base := map["type" := Trimmed(f, "type"), "value" := OptionalTrimmed(f, "value"),
                    "timeout_ms" := OrDefault(f, "timeout_ms", Number(3000.0))];
    var withMethod := if "method" in f then base["method" := String(Upper(env.upper, TrimAt(f, "method")))] else base;
    Object(if "status" in f then withMethod["status" := f["status"]] else withMethod)
  }

  /** The one shape canonicalisation makes invalid: an explicit null method. */
  predicate NullMethod(v: Value) { "method" in AsObject(v) && AsObject(v)["method"].Null? }

  predicate ConditionsOk(v: Value) {
    v.Null? || (v.Array? && forall i :: 0 <= i < |v.items| ==> ConditionOk(v.items[i]))
  }

  function CanonConditions(env: Env, v: Value): Value {
    var items := AsArray(v);
    Array(seq(|items|, i requires 0 <= i < |items| => CanonCondition(env, items[i])))
  }

  predicate NoNullMethods(v: Value) {
    forall i :: 0 <= i < |AsArray(v)| ==> !NullMethod(AsArray(v)[i])
  }

  // --- Locator candidates ---------------------------------------------------------

  predicate RequireText(f: Fields, key: string) { At(f, key).String? && TrimAt(f, key) != "" }

  predicate CandidateOk(v: Value) {
    && v.Object?
    && var f := v.fields;
    && RequireText(f, "strategy")
    && InRange(At(f, "pre_score"), 0.0, 1.0)
    && NullOrText(f, "selector") && NullOrText(f, "semantic_value")
    && (At(f, "pre_features").Null? || At(f, "pre_features").Object?)
  }

  predicate CandidatesOk(v: Value) {
    v.Null? || (v.Array? && forall i :: 0 <= i < |v.items| ==> CandidateOk(v.items[i]))
  }

  function CanonStrategy(strategy: string): string {
    if strategy == "css_selector" || strategy == "href" then "css"
    else if strategy == "data_testid" then "data-testid"
    else if strategy == "elementId" || strategy == "id" then "element_id"
    else if strategy == "link" || strategy == "button" || strategy == "aria" then "role"
    else if strategy == "name" then "tag"
    else strategy
  }

  function CanonCandidate(v: Value): Value {
    var f := AsObject(v);
    Object(map["strategy" := String(CanonStrategy(TrimAt(f, "strategy"))),
               "selector" := OptionalTrimmed(f, "selector"),
               "semantic_value" := OptionalTrimmed(f, "semantic_value"),
               "pre_score" := At(f, "pre_score"),
               "pre_features" := OrDefault(f, "pre_features", Null)])
  }

  function CanonCandidates(v: Value): Value {
    var items := AsArray(v);
    Array(seq(|items|, i requires 0 <= i < |items| => CanonCandidate(items[i])))
  }

  /** The trimmed verified_href of a candidate. */
  function HrefOf(v: Value): string {
    TrimAt(AsObject(At(AsObject(v), "pre_features")), "verified_href")
  }

  predicate CrossPage(env: Env, href: string) {
    href != "" && href[0] != '#' && env.crossPage(href)
  }

  /** verifiedCrossPageAnchorHref: the first cross-page href, or "". */
  function VerifiedHref(env: Env, candidates: seq<Value>): string {
    if candidates == [] then ""
    else if CrossPage(env, HrefOf(candidates[0])) then HrefOf(candidates[0])
    else VerifiedHref(env, candidates[1..])
  }

  /** fmt.Sprint. */
  function Sprint(env: Env, v: Value): string {
    match v
    case Null => "<nil>"
    case String(text) => text
    case _ => env.render(v)
  }

  predicate TargetsURL(env: Env, v: Value, href: string, targetPath: string) {
    var f := AsObject(v);
    && TrimSpace(Sprint(env, At(f, "type"))) == "url_contains"
    && var value := TrimSpace(Sprint(env, At(f, "value")));
    && value != ""
    && (Contains(href, value) || Contains(value, href)
        || (targetPath != "" && (Contains(targetPath, value) || Contains(value, targetPath))))
  }

  predicate HasTargetURL(env: Env, conditions: seq<Value>, href: string) {
    env.targetPath(href).Some?
    && exists i :: 0 <= i < |conditions| && TargetsURL(env, conditions[i], href, env.targetPath(href).value)
  }

  // --- Contracts ------------------------------------------------------------------

  predicate KeyStart(c: char) { 'A' <= c <= 'Z' || 'a' <= c <= 'z' || c == '_' }

  /** ^[A-Za-z_][A-Za-z0-9_]*$, at most 100 characters. */
  predicate ContextKey(key: string) {
    && 0 < |key| <= 100 && KeyStart(key[0])
    && forall i :: 0 <= i < |key| ==> KeyStart(key[i]) || '0' <= key[i] <= '9'
  }

  predicate ContractOk(input: bool, v: Value) {
    && v.Object?
    && var f := v.fields;
    && TrimAt(f, "name") != "" && |TextAt(f, "name")| <= 100
    && ContextKey(TrimAt(f, "context_key"))
    && TrimAt(f, "value_type") in {"string", "number", "boolean", "object", "array"}
    && ("required" in f ==> f["required"].Bool?)
    && NullOrText(f, "description") && NullOrText(f, "value")
    && (!input ==> OptionalEnum(f, "source",
          {"latest_url", "error_message", "status", "last_step_url", "last_step_page_title",
           "last_step_target", "last_step_value", "last_step_error_message"}))
  }

  predicate ContractsOk(f: Fields, field: string, input: bool) {
    field in f ==> f[field].Array? && forall i :: 0 <= i < |f[field].items| ==> ContractOk(input, f[field].items[i])
  }

  function CanonContract(input: bool, v: Value): Value {
    var f := AsObject(v);
    var base := map["name" := Trimmed(f, "name"), "context_key" := Trimmed(f, "context_key"),
                    "value_type" := Trimmed(f, "value_type"), "description" := OptionalTrimmed(f, "description")];
    Object(if input then base["required" := OrDefault(f, "required", Bool(true))]["value" := OptionalTrimmed(f, "value")]
           else base["source" := OptionalTrimmed(f, "source")])
  }

  function CanonContracts(input: bool, v: Value): Value {
    var items := AsArray(v);
    Array(seq(|items|, i requires 0 <= i < |items| => CanonContract(input, items[i])))
  }

  // --- Legacy steps ---------------------------------------------------------------

  predicate Supported(action: string) {
    action in {"goto", "click", "input", "wait_for", "assert_text", "assert_url_contains", "capture_text"}
  }

  predicate OptionalEnum(f: Fields, key: string, allowed: set<string>) {
    At(f, key).Null? || (At(f, key).String? && TrimAt(f, key) in allowed)
  }

  predicate ActionFieldsOk(action: string, f: Fields) {
    match action
    case "goto" => RequireText(f, "value")
    case "assert_url_contains" => RequireText(f, "value")
    case "input" => RequireText(f, "target") && At(f, "value").String?
    case "assert_text" => RequireText(f, "target") && RequireText(f, "value")
    case "capture_text" => RequireText(f, "target") && ContextKey(TrimAt(f, "context_key"))
    case _ => RequireText(f, "target")
  }

  /** A click on a verified cross-page anchor must assert the URL it leads to. */
  predicate AnchorOk(env: Env, candidates: Value, postconditions: Value) {
    var href := VerifiedHref(env, AsArray(candidates));
    href == "" || HasTargetURL(env, AsArray(postconditions), href)
  }

  /** validateStep. */
  predicate StepOk(env: Env, action: string, f: Fields) {
    && ActionFieldsOk(action, f)
    && OptionalEnum(f, "locator_confidence", {"high", "medium", "low"})
    && OptionalEnum(f, "target_strategy", {"css", "xpath", "data-testid", "element_id", "tag"})
    && NullOrText(f, "page_state")
    && (action == "input" ==> OptionalEnum(f, "trigger", {"Enter", "Tab"}))
    && (action == "wait_for" ==> ("timeout_ms" in f ==> InRange(f["timeout_ms"], 1.0, 60000.0)))
    && CandidatesOk(At(f, "candidates"))
    && ConditionsOk(At(f, "preconditions")) && ConditionsOk(At(f, "postconditions"))
    && (action == "click" ==> AnchorOk(env, At(f, "candidates"), At(f, "postconditions")))
  }

  predicate LegacyStepOk(env: Env, v: Value) {
    v.Object? && Supported(TextAt(v.fields, "action")) && StepOk(env, TextAt(v.fields, "action"), v.fields)
  }

  function WithConditions(env: Env, canonical: Fields, f: Fields, key: string): Fields {
    if key in f then canonical[key := CanonConditions(env, f[key])] else canonical
  }

  function WithLocatorDefaults(env: Env, canonical: Fields, f: Fields): Fields {
    WithConditions(env,
      canonical["page_state" := OptionalTrimmed(f, "page_state")]
               ["target_strategy" := OptionalTrimmed(f, "target_strategy")]
               ["locator_confidence" := OptionalTrimmed(f, "locator_confidence")]
               ["candidates" := CanonCandidates(At(f, "candidates"))]
               ["postconditions" := CanonConditions(env, At(f, "postconditions"))],
      f, "preconditions")
  }

  /** The canonical fields that belong to the action itself. */
  function OwnFields(action: string, f: Fields): Fields {
    var base := map["action" := String(action)];
    match action
    case "goto" => base["value" := Trimmed(f, "value")]
    case "assert_url_contains" => base["value" := Trimmed(f, "value")]
    case "click" => base["target" := Trimmed(f, "target")]
    case "wait_for" =>
      base["target" := Trimmed(f, "target")]["timeout_ms" := OrDefault(f, "timeout_ms", Number(5000.0))]
    case "assert_text" => base["target" := Trimmed(f, "target")]["value" := Trimmed(f, "value")]
    case "capture_text" => base["target" := Trimmed(f, "target")]["context_key" := Trimmed(f, "context_key")]
    case "input" =>
      base["target" := Trimmed(f, "target")]["value" := Trimmed(f, "value")]["trigger" := OptionalTrimmed(f, "trigger")]
    case _ => base
  }

  predicate Located(action: string) { action in {"click", "wait_for", "assert_text", "capture_text", "input"} }

  function CanonStep(env: Env, v: Value): Value {
    var f := AsObject(v);
    var action := TrimAt(f, "action");
    var own := OwnFields(action, f);
    Object(
      if Located(action) then WithLocatorDefaults(env, own, f)
      else if Supported(action) then WithConditions(env, WithConditions(env, own, f, "preconditions"), f, "postconditions")
      else own)
  }

  // --- Research steps -------------------------------------------------------------

  datatype Phase = Draft | Executable

  predicate OnlyFields(f: Fields, allowed: set<string>) { forall key :: key in f ==> key in allowed }

  function LocatorStepFields(): set<string> {
    {"target", "page_state", "target_strategy", "locator_confidence", "candidates"}
  }

  function ResearchStepFields(action: string): set<string> {
    {"action", "intent", "preconditions", "postconditions", "idempotency", "side_effect"} +
    match action
    case "goto" => {"target", "value"}
    case "assert_url_contains" => {"target", "value"}
    case "click" => LocatorStepFields()
    case "input" => LocatorStepFields() + {"value", "trigger"}
    case "wait_for" => LocatorStepFields() + {"timeout_ms"}
    case "assert_text" => LocatorStepFields() + {"value"}
    case "capture_text" => LocatorStepFields() + {"context_key"}
    case _ => {}
  }

  predicate BoundedText(f: Fields, key: string, limit: nat) { RequireText(f, key) && |TrimAt(f, key)| <= limit }

  predicate ResearchConditionsOk(v: Value) {
    && v.Array? && ConditionsOk(v)
    && forall i :: 0 <= i < |v.items| ==>
         OnlyFields(AsObject(v.items[i]), {"type", "value", "method", "status", "timeout_ms"})
  }

  /** What an action may claim about its effect, and which conditions it must carry. */
  predicate EffectOk(action: string, idempotency: string, sideEffect: string, pre: seq<Value>, post: seq<Value>) {
    && (action == "goto" || action == "input" ==> idempotency == "idempotent" && sideEffect == "browser_state")
    && (action in {"wait_for", "assert_text", "assert_url_contains", "capture_text"} ==>
          idempotency == "idempotent" && sideEffect == "none")
    && (action == "goto" ==> post != [])
    && (action == "input" || action == "click" ==> pre != [] && post != [])
    && (idempotency == "non_idempotent" || sideEffect == "external_state" || sideEffect == "unknown" ==> post != [])
  }

  predicate RequiredEnum(f: Fields, key: string, allowed: set<string>) { At(f, key).String? && TrimAt(f, key) in allowed }

  predicate LooksLikeSelector(target: string) {
    "css=" <= target || "xpath=" <= target || "#" <= target || "." <= target || "//" <= target
  }

  predicate RequiresCandidates(action: string, f: Fields) {
    || action in {"click", "input", "capture_text"}
    || TrimAt(f, "target_strategy") != "" || LooksLikeSelector(TrimAt(f, "target"))
  }

  predicate ExecutableStrategy(strategy: string) {
    strategy in {
      "css", "css_selector", "xpath", "data-testid", "data_testid",
      "role", "text", "label", "placeholder", "element_id", "tag", "semantic",
      "verified_role", "verified_role_fuzzy", "verified_css", "verified_xpath",
      "verified_placeholder", "verified_placeholder_fuzzy", "verified_label",
      "verified_label_fuzzy", "verified_text", "verified_data-testid",
      "verified_element_id", "a11y_scoped_role_exact",
      "a11y_scoped_role_fuzzy", "a11y_scoped_text_exact",
      "a11y_scoped_text_fuzzy"}
  }

  /** hasVerifiedPreflightProvenance. */
  predicate Provenance(strategy: string, features: Fields) {
    var source := TrimAt(features, "source");
    && At(features, "verified") == Bool(true)
    && if "verified_" <= strategy then
         source == "a11y_backend_dom_node" || source == "dom_verified_interactive_control" || source == strategy
       else if strategy == "role" then source == "a11y_role_exact"
       else if strategy == "text" then source == "a11y_text_exact"
       else "a11y_scoped_" <= strategy && source == strategy
  }

  predicate RunnableCandidate(v: Value) {
    && v.Object?
    && OnlyFields(v.fields, {"strategy", "selector", "semantic_value", "pre_score", "pre_features"})
    && ExecutableStrategy(TrimAt(v.fields, "strategy")) && TrimAt(v.fields, "selector") != ""
  }

  predicate VerifiedCandidate(v: Value) {
    var f := AsObject(v);
    At(f, "pre_features").Object? && Provenance(TrimAt(f, "strategy"), At(f, "pre_features").fields)
  }

  /** validateExecutableLocator. */
  predicate LocatorOk(f: Fields) {
    && At(f, "locator_confidence").String? && TrimAt(f, "locator_confidence") in {"high", "medium"}
    && At(f, "candidates").Array?
    && var items := At(f, "candidates").items;
    && items != []
    && (forall i :: 0 <= i < |items| ==> RunnableCandidate(items[i]))
    && (exists i :: 0 <= i < |items| && VerifiedCandidate(items[i]))
  }

  predicate PhaseOk(action: string, f: Fields, phase: Phase) {
    if phase.Draft? then "candidates" !in f && "locator_confidence" !in f
    else RequiresCandidates(action, f) || AsArray(At(f, "candidates")) != [] ==> LocatorOk(f)
  }

  /** validateResearchStep. */
  predicate ResearchStepOk(env: Env, v: Value, phase: Phase) {
    && v.Object?
    && var f := v.fields;
    && var action := TextAt(f, "action");
    && Supported(action)
    && OnlyFields(f, ResearchStepFields(action))
    && BoundedText(f, "intent", 500)
    && ResearchConditionsOk(At(f, "preconditions")) && ResearchConditionsOk(At(f, "postconditions"))
    && RequiredEnum(f, "idempotency", {"idempotent", "non_idempotent"})
    && RequiredEnum(f, "side_effect", {"none", "browser_state", "external_state", "unknown"})
    && (action == "goto" || action == "assert_url_contains" ==> RequireText(f, "target"))
    && EffectOk(action, TrimAt(f, "idempotency"), TrimAt(f, "side_effect"),
                At(f, "preconditions").items, At(f, "postconditions").items)
    && StepOk(env, action, f)
    && PhaseOk(action, f, phase)
  }

  function WithOptional(canonical: Fields, f: Fields, key: string, value: Value): Fields {
    if key in f then canonical[key := value] else canonical
  }

  function WithResearchLocator(canonical: Fields, f: Fields): Fields {
    WithOptional(
      WithOptional(
        canonical["page_state" := OptionalTrimmed(f, "page_state")]
                 ["target_strategy" := OptionalTrimmed(f, "target_strategy")],
        f, "locator_confidence", OptionalTrimmed(f, "locator_confidence")),
      f, "candidates", CanonCandidates(At(f, "candidates")))
  }

  function ResearchMeta(env: Env, f: Fields): Fields {
    map["intent" := Trimmed(f, "intent"),
        "idempotency" := Trimmed(f, "idempotency"), "side_effect" := Trimmed(f, "side_effect"),
        "preconditions" := CanonConditions(env, At(f, "preconditions")),
        "postconditions" := CanonConditions(env, At(f, "postconditions"))]
  }

  /** As OwnFields, and a target for every action. */
  function ResearchOwnFields(action: string, f: Fields): Fields {
    if Supported(action) then OwnFields(action, f)["target" := Trimmed(f, "target")] else OwnFields(action, f)
  }

  function CanonResearchStep(env: Env, v: Value): Value {
    var f := AsObject(v);
    var action := TrimAt(f, "action");
    var base := ResearchMeta(env, f) + ResearchOwnFields(action, f);
    Object(if Located(action) then WithResearchLocator(base, f) else base)
  }

  // --- Whole cases ----------------------------------------------------------------

  predicate OptionalTextOk(f: Fields, key: string, limit: nat) {
    At(f, key).Null? || (RequireText(f, key) && |TextAt(f, key)| <= limit)
  }

  /** What both profiles ask of a case besides its steps. */
  predicate HeaderOk(f: Fields) {
    && 0 < |TrimAt(f, "name")| <= 200
    && OptionalTextOk(f, "description", 1000) && OptionalTextOk(f, "base_url", 500)
    && ContractsOk(f, "input_contract", true) && ContractsOk(f, "output_contract", false)
    && At(f, "steps").Array? && At(f, "steps").items != []
  }

  predicate LegacyOk(env: Env, f: Fields) {
    HeaderOk(f) && forall i :: 0 <= i < |At(f, "steps").items| ==> LegacyStepOk(env, At(f, "steps").items[i])
  }

  function CanonHeader(f: Fields): Fields {
    map["name" := Trimmed(f, "name"), "description" := OptionalTrimmed(f, "description"),
        "base_url" := OptionalTrimmed(f, "base_url"),
        "input_contract" := CanonContracts(true, At(f, "input_contract")),
        "output_contract" := CanonContracts(false, At(f, "output_contract"))]
  }

  function CanonLegacy(env: Env, f: Fields): Fields {
    var steps := AsArray(At(f, "steps"));
    CanonHeader(f)["steps" := Array(seq(|steps|, i requires 0 <= i < |steps| => CanonStep(env, steps[i])))]
  }

  predicate ResearchContractsOnly(f: Fields, field: string, input: bool) {
    var items := AsArray(At(f, field));
    forall i :: 0 <= i < |items| ==>
      OnlyFields(AsObject(items[i]),
        {"name", "context_key", "value_type", "description"} + if input then {"required", "value"} else {"source"})
  }

  predicate ResearchOk(env: Env, f: Fields, phase: Phase) {
    && OnlyFields(f, {"profile", "name", "description", "base_url", "input_contract", "output_contract", "steps"})
    && At(f, "profile") == String("research-v1")
    && HeaderOk(f)
    && ResearchContractsOnly(f, "input_contract", true) && ResearchContractsOnly(f, "output_contract", false)
    && forall i :: 0 <= i < |At(f, "steps").items| ==> ResearchStepOk(env, At(f, "steps").items[i], phase)
  }

  function CanonResearch(env: Env, f: Fields): Fields {
    var steps := AsArray(At(f, "steps"));
    CanonHeader(f)["profile" := String("research-v1")]
      ["steps" := Array(seq(|steps|, i requires 0 <= i < |steps| => CanonResearchStep(env, steps[i])))]
  }

  /** No condition of any step names an explicit null method. */
  predicate MethodsPresent(f: Fields) {
    forall i :: 0 <= i < |AsArray(At(f, "steps"))| ==> StepMethodsPresent(AsArray(At(f, "steps"))[i])
  }

  predicate StepMethodsPresent(v: Value) {
    NoNullMethods(At(AsObject(v), "preconditions")) && NoNullMethods(At(AsObject(v), "postconditions"))
  }
}
