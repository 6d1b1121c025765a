/** What the validators demand of a case, stated once more from the outside: in terms of
    the values in the case and of no predicate the validators share. */
module DslDemands {
  import opened Wrappers
  import opened Json
  import opened Text
  import opened DslCase
  import ResearchV2
  import BrowserContract
  import DslMeaning

  function Said(f: Fields, key: string): string { DslMeaning.Said(f, key) }

  predicate Blank(f: Fields, key: string) { !At(f, key).String? || Said(f, key) == "" }

  predicate NothingOrText(f: Fields, key: string) { At(f, key) == Null || At(f, key).String? }

  predicate Between(v: Value, low: real, high: real) { v.Number? && v.number >= low && v.number <= high }

  // --- Conditions, candidates, contracts ----------------------------------------------

  predicate ConditionDemands(v: Value) {
    && v.Object?
    && var f := v.fields;
    && Said(f, "type") in {"url_contains", "url_changes", "text_visible", "text_gone", "element_visible",
                           "element_gone", "network_request", "dom_changed", "value_changed"}
    && (Said(f, "type") == "url_contains" ==> Said(f, "value") != "")
    && !(Said(f, "type") == "network_request"
         && At(f, "value") == Null && At(f, "method") == Null && At(f, "status") == Null)
    && NothingOrText(f, "value")
    && (At(f, "method") == Null || !Blank(f, "method"))
    && (At(f, "status") == Null
        || (Between(At(f, "status"), 100.0, 599.0)
            && At(f, "status").number == At(f, "status").number.Floor as real))
    && ("timeout_ms" !in f || Between(f["timeout_ms"], 100.0, 30000.0))
  }

  predicate CandidateDemands(v: Value) {
    && v.Object?
    && var f := v.fields;
    && !Blank(f, "strategy") && Between(At(f, "pre_score"), 0.0, 1.0)
    && NothingOrText(f, "selector") && NothingOrText(f, "semantic_value")
    && (At(f, "pre_features") == Null || At(f, "pre_features").Object?)
  }

  predicate Letter(c: char) { 'A' <= c <= 'Z' || 'a' <= c <= 'z' || c == '_' }

  predicate Identifier(s: string) {
    && s != [] && |s| <= 100 && Letter(s[0]) && forall i :: 0 <= i < |s| ==> Letter(s[i]) || '0' <= s[i] <= '9'
  }

  predicate ContractDemands(input: bool, v: Value) {
    && v.Object?
    && var f := v.fields;
    && Said(f, "name") != "" && |AsText(At(f, "name"))| <= 100
    && Identifier(Said(f, "context_key"))
    && Said(f, "value_type") in {"string", "number", "boolean", "object", "array"}
    && ("required" !in f || f["required"].Bool?)
    && NothingOrText(f, "description") && NothingOrText(f, "value")
    && (input || At(f, "source") == Null
        || (At(f, "source").String? && Said(f, "source") in
              {"latest_url", "error_message", "status", "last_step_url", "last_step_page_title",
               "last_step_target", "last_step_value", "last_step_error_message"}))
  }

  lemma ConditionIff(v: Value)
    ensures ConditionOk(v) <==> ConditionDemands(v)
  {
  }

  lemma CandidateIff(v: Value)
    ensures CandidateOk(v) <==> CandidateDemands(v)
  {
  }

  lemma ContractIff(input: bool, v: Value)
    ensures ContractOk(input, v) <==> ContractDemands(input, v)
  {
    KeyIff(Said(AsObject(v), "context_key"));
  }

  lemma KeyIff(key: string)
    ensures ContextKey(key) <==> Identifier(key)
  {
    assert forall c :: KeyStart(c) <==> Letter(c);
  }

  predicate ConditionsDemand(v: Value) {
    v == Null || (v.Array? && forall i :: 0 <= i < |v.items| ==> ConditionDemands(v.items[i]))
  }

  predicate CandidatesDemand(v: Value) {
    v == Null || (v.Array? && forall i :: 0 <= i < |v.items| ==> CandidateDemands(v.items[i]))
  }

  predicate ContractsDemand(f: Fields, key: string, input: bool) {
    key !in f || (f[key].Array? && forall i :: 0 <= i < |f[key].items| ==> ContractDemands(input, f[key].items[i]))
  }

  lemma ConditionsIff(v: Value)
    ensures ConditionsOk(v) <==> ConditionsDemand(v)
  {
    forall w ensures ConditionOk(w) <==> ConditionDemands(w) {
      ConditionIff(w);
    }
  }

  lemma CandidatesIff(v: Value)
    ensures CandidatesOk(v) <==> CandidatesDemand(v)
  {
    forall w ensures CandidateOk(w) <==> CandidateDemands(w) {
      CandidateIff(w);
    }
  }

  lemma ContractsIff(f: Fields, key: string, input: bool)
    ensures ContractsOk(f, key, input) <==> ContractsDemand(f, key, input)
  {
    forall w ensures ContractOk(input, w) <==> ContractDemands(input, w) {
      ContractIff(input, w);
    }
  }

  // --- Cross-page anchors -------------------------------------------------------------

  /** The trimmed link a candidate verified, and whether it leads to another page. */
  function Link(v: Value): string { Said(AsObject(At(AsObject(v), "pre_features")), "verified_href") }

  predicate Leaves(env: Env, href: string) { href != "" && href[0] != '#' && env.crossPage(href) }

  predicate FirstLink(env: Env, candidates: seq<Value>, k: int) {
    && 0 <= k < |candidates| && Leaves(env, Link(candidates[k]))
    && forall i :: 0 <= i < k ==> !Leaves(env, Link(candidates[i]))
  }

  /** How a value reads when it is printed. */
  function Printed(env: Env, v: Value): string {
    TrimSpace(if v.Null? then "<nil>" else if v.String? then v.text else env.render(v))
  }

  predicate LeadsTo(env: Env, v: Value, href: string, path: string) {
    && Printed(env, At(AsObject(v), "type")) == "url_contains"
    && var value := Printed(env, At(AsObject(v), "value"));
    && value != ""
    && (Within(value, href) || Within(href, value) || (path != "" && (Within(value, path) || Within(path, value))))
  }

  predicate PartAt(part: string, s: string, i: int) { 0 <= i && i + |part| <= |s| && s[i..i + |part|] == part }

  predicate Within(part: string, s: string) { exists i :: 0 <= i <= |s| && PartAt(part, s, i) }

  /** A click on a cross-page link asserts the URL it leads to. */
  predicate LinkAsserted(env: Env, candidates: seq<Value>, post: seq<Value>) {
    forall k :: 0 <= k < |candidates| && FirstLink(env, candidates, k) ==> Asserted(env, post, Link(candidates[k]))
  }

  predicate Asserted(env: Env, post: seq<Value>, href: string) {
    && env.targetPath(href).Some?
    && exists i :: 0 <= i < |post| && LeadsTo(env, post[i], href, env.targetPath(href).value)
  }

  lemma WithinIff(part: string, s: string)
    ensures Contains(s, part) <==> Within(part, s)
  {
    if Contains(s, part) {
      var i :| 0 <= i <= |s| && Occurs(s, part, i);
      assert PartAt(part, s, i);
    }
    if Within(part, s) {
      var i :| 0 <= i <= |s| && PartAt(part, s, i);
      assert Occurs(s, part, i);
    }
  }

  lemma LeadsIff(env: Env, v: Value, href: string, path: string)
    ensures TargetsURL(env, v, href, path) <==> LeadsTo(env, v, href, path)
  {
    var value := Printed(env, At(AsObject(v), "value"));
    WithinIff(value, href);
    WithinIff(href, value);
    WithinIff(value, path);
    WithinIff(path, value);
  }

  lemma AssertedIff(env: Env, post: seq<Value>, href: string)
    ensures HasTargetURL(env, post, href) <==> Asserted(env, post, href)
  {
    if env.targetPath(href).Some? {
      var path := env.targetPath(href).value;
      forall i | 0 <= i < |post| ensures TargetsURL(env, post[i], href, path) <==> LeadsTo(env, post[i], href, path) {
        LeadsIff(env, post[i], href, path);
      }
    }
  }

  lemma {:induction false} VerifiedFirst(env: Env, candidates: seq<Value>)
    ensures if VerifiedHref(env, candidates) == "" then forall k :: !FirstLink(env, candidates, k)
            else exists k :: FirstLink(env, candidates, k) && VerifiedHref(env, candidates) == Link(candidates[k])
  {
    if candidates != [] {
      if Leaves(env, Link(candidates[0])) {
        assert FirstLink(env, candidates, 0);
      } else {
        VerifiedFirst(env, candidates[1..]);
        forall k | FirstLink(env, candidates, k) ensures FirstLink(env, candidates[1..], k - 1) {
          assert forall i :: 0 <= i < k - 1 ==> candidates[1..][i] == candidates[i + 1];
        }
        if k :| FirstLink(env, candidates[1..], k) && VerifiedHref(env, candidates[1..]) == Link(candidates[1..][k]) {
          assert candidates[1..][k] == candidates[k + 1];
          forall i | 0 <= i < k + 1 ensures !Leaves(env, Link(candidates[i])) {
            assert i > 0 ==> candidates[i] == candidates[1..][i - 1];
          }
          assert FirstLink(env, candidates, k + 1);
        }
      }
    }
  }

  lemma LinkIff(env: Env, candidates: Value, post: Value)
    ensures AnchorOk(env, candidates, post) <==> LinkAsserted(env, AsArray(candidates), AsArray(post))
  {
    var href := VerifiedHref(env, AsArray(candidates));
    VerifiedFirst(env, AsArray(candidates));
    AssertedIff(env, AsArray(post), href);
    if k :| FirstLink(env, AsArray(candidates), k) {
      assert forall i :: FirstLink(env, AsArray(candidates), i) ==> i == k;
    }
  }

  // --- Steps --------------------------------------------------------------------------

  predicate OneOf(f: Fields, key: string, allowed: set<string>) {
    At(f, key) == Null || (At(f, key).String? && Said(f, key) in allowed)
  }

  predicate ActionDemands(action: string, f: Fields) {
    && (action in {"goto", "assert_url_contains", "assert_text"} ==> !Blank(f, "value"))
    && (action in {"click", "wait_for", "input", "assert_text", "capture_text"} ==> !Blank(f, "target"))
    && (action == "input" ==> At(f, "value").String? && OneOf(f, "trigger", {"Enter", "Tab"}))
    && (action == "capture_text" ==> Identifier(Said(f, "context_key")))
    && (action == "wait_for" ==> "timeout_ms" !in f || Between(f["timeout_ms"], 1.0, 60000.0))
  }

  predicate StepDemands(env: Env, action: string, f: Fields) {
    && ActionDemands(action, f)
    && OneOf(f, "locator_confidence", {"high", "medium", "low"})
    && OneOf(f, "target_strategy", {"css", "xpath", "data-testid", "element_id", "tag"})
    && NothingOrText(f, "page_state")
    && CandidatesDemand(At(f, "candidates"))
    && ConditionsDemand(At(f, "preconditions")) && ConditionsDemand(At(f, "postconditions"))
    && (action == "click" ==> LinkAsserted(env, AsArray(At(f, "candidates")), AsArray(At(f, "postconditions"))))
  }

  predicate KnownAction(action: string) {
    action in {"goto", "click", "input", "wait_for", "assert_text", "assert_url_contains", "capture_text"}
  }

  lemma ActionIff(action: string, f: Fields)
    requires KnownAction(action)
    ensures ActionFieldsOk(action, f)
            && (action == "input" ==> OptionalEnum(f, "trigger", {"Enter", "Tab"}))
            && (action == "wait_for" ==> ("timeout_ms" in f ==> InRange(f["timeout_ms"], 1.0, 60000.0)))
       <==> ActionDemands(action, f)
  {
    KeyIff(Said(f, "context_key"));
  }

  lemma StepIff(env: Env, action: string, f: Fields)
    requires KnownAction(action)
    ensures StepOk(env, action, f) <==> StepDemands(env, action, f)
  {
    ActionIff(action, f);
    CandidatesIff(At(f, "candidates"));
    ConditionsIff(At(f, "preconditions"));
    ConditionsIff(At(f, "postconditions"));
    LinkIff(env, At(f, "candidates"), At(f, "postconditions"));
  }

  predicate LegacyStepDemands(env: Env, v: Value) {
    && v.Object? && KnownAction(AsText(At(v.fields, "action")))
    && StepDemands(env, AsText(At(v.fields, "action")), v.fields)
  }

  lemma LegacyStepIff(env: Env, v: Value)
    ensures LegacyStepOk(env, v) <==> LegacyStepDemands(env, v)
  {
    if v.Object? && KnownAction(AsText(At(v.fields, "action"))) {
      StepIff(env, AsText(At(v.fields, "action")), v.fields);
    }
  }

  // --- Legacy cases -------------------------------------------------------------------

  predicate AtMost(f: Fields, key: string, limit: nat) {
    At(f, key) == Null || (!Blank(f, key) && |AsText(At(f, key))| <= limit)
  }

  predicate HeaderDemands(f: Fields) {
    && Said(f, "name") != "" && |Said(f, "name")| <= 200
    && AtMost(f, "description", 1000) && AtMost(f, "base_url", 500)
    && ContractsDemand(f, "input_contract", true) && ContractsDemand(f, "output_contract", false)
    && At(f, "steps").Array? && |At(f, "steps").items| > 0
  }

  predicate LegacyDemands(env: Env, f: Fields) {
    && HeaderDemands(f)
    && forall i :: 0 <= i < |At(f, "steps").items| ==> LegacyStepDemands(env, At(f, "steps").items[i])
  }

  lemma HeaderIff(f: Fields)
    ensures HeaderOk(f) <==> HeaderDemands(f)
  {
    ContractsIff(f, "input_contract", true);
    ContractsIff(f, "output_contract", false);
  }

  /** A legacy case is accepted exactly when it meets these demands. */
  lemma LegacyIff(env: Env, f: Fields)
    ensures LegacyOk(env, f) <==> LegacyDemands(env, f)
  {
    HeaderIff(f);
    forall v ensures LegacyStepOk(env, v) <==> LegacyStepDemands(env, v) {
      LegacyStepIff(env, v);
    }
  }

  // --- Research cases -----------------------------------------------------------------

  predicate Short(f: Fields, key: string, limit: nat) { !Blank(f, key) && |Said(f, key)| <= limit }

  /** What a research step must say about its effect. */
  predicate EffectDemands(action: string, f: Fields) {
    var idempotency, effect := Said(f, "idempotency"), Said(f, "side_effect");
    && At(f, "idempotency").String? && idempotency in {"idempotent", "non_idempotent"}
    && At(f, "side_effect").String? && effect in {"none", "browser_state", "external_state", "unknown"}
    && (action in {"goto", "input"} ==> idempotency == "idempotent" && effect == "browser_state")
    && (action in {"wait_for", "assert_text", "assert_url_contains", "capture_text"} ==>
          idempotency == "idempotent" && effect == "none")
    && (action in {"goto", "input", "click"} ==> AsArray(At(f, "postconditions")) != [])
    && (idempotency == "non_idempotent" || effect in {"external_state", "unknown"} ==>
          AsArray(At(f, "postconditions")) != [])
    && (action in {"input", "click"} ==> AsArray(At(f, "preconditions")) != [])
  }

  predicate ResearchListDemands(v: Value) {
    && v.Array? && ConditionsDemand(v)
    && forall i :: 0 <= i < |v.items| ==> AsObject(v.items[i]).Keys <= {"type", "value", "method", "status", "timeout_ms"}
  }

  /** The demands research-v1 adds to those of a legacy step, before any phase. */
  predicate ResearchMetaDemands(action: string, f: Fields) {
    && Short(f, "intent", 500) && EffectDemands(action, f)
    && ResearchListDemands(At(f, "preconditions")) && ResearchListDemands(At(f, "postconditions"))
    && (action in {"goto", "assert_url_contains"} ==> !Blank(f, "target"))
  }

  lemma ResearchListIff(v: Value)
    ensures ResearchConditionsOk(v) <==> ResearchListDemands(v)
  {
    ConditionsIff(v);
    if v.Array? {
      forall i | 0 <= i < |v.items|
        ensures OnlyFields(AsObject(v.items[i]), {"type", "value", "method", "status", "timeout_ms"})
           <==> AsObject(v.items[i]).Keys <= {"type", "value", "method", "status", "timeout_ms"}
      {
      }
    }
  }

  lemma EffectHolds(action: string, f: Fields)
    requires RequiredEnum(f, "idempotency", {"idempotent", "non_idempotent"})
    requires RequiredEnum(f, "side_effect", {"none", "browser_state", "external_state", "unknown"})
    requires EffectOk(action, TrimAt(f, "idempotency"), TrimAt(f, "side_effect"),
                      AsArray(At(f, "preconditions")), AsArray(At(f, "postconditions")))
    ensures EffectDemands(action, f)
  {
  }

  lemma ResearchParts(env: Env, v: Value, phase: Phase)
    requires ResearchStepOk(env, v, phase)
    ensures var f := v.fields; var action := TextAt(f, "action");
            && BoundedText(f, "intent", 500)
            && ResearchConditionsOk(At(f, "preconditions")) && ResearchConditionsOk(At(f, "postconditions"))
            && RequiredEnum(f, "idempotency", {"idempotent", "non_idempotent"})
            && RequiredEnum(f, "side_effect", {"none", "browser_state", "external_state", "unknown"})
            && (action == "goto" || action == "assert_url_contains" ==> RequireText(f, "target"))
            && EffectOk(action, TrimAt(f, "idempotency"), TrimAt(f, "side_effect"),
                        AsArray(At(f, "preconditions")), AsArray(At(f, "postconditions")))
  {
  }

  lemma ResearchMetaHolds(env: Env, v: Value, phase: Phase)
    requires ResearchStepOk(env, v, phase)
    ensures ResearchMetaDemands(AsText(At(v.fields, "action")), v.fields)
  {
    ResearchParts(env, v, phase);
    ResearchListIff(At(v.fields, "preconditions"));
    ResearchListIff(At(v.fields, "postconditions"));
    EffectHolds(TextAt(v.fields, "action"), v.fields);
  }

  /** A draft brings no locator. An executable step that acts on an element, or looks as
      if it named one by a selector, or has candidates, brings candidates that are all
      runnable and one that a probe verified. */
  predicate PhaseDemands(action: string, f: Fields, phase: Phase) {
    if phase.Draft? then "candidates" !in f && "locator_confidence" !in f
    else
      action in {"click", "input", "capture_text"} || Said(f, "target_strategy") != "" || SelectorLike(Said(f, "target"))
      || AsArray(At(f, "candidates")) != [] ==>
        && At(f, "locator_confidence").String? && Said(f, "locator_confidence") in {"high", "medium"}
        && At(f, "candidates").Array? && |At(f, "candidates").items| > 0
        && (forall i :: 0 <= i < |At(f, "candidates").items| ==> Runnable(At(f, "candidates").items[i]))
        && exists i :: 0 <= i < |At(f, "candidates").items| && Verified(At(f, "candidates").items[i])
  }

  predicate Starts(s: string, prefix: string) { |prefix| <= |s| && s[..|prefix|] == prefix }

  predicate SelectorLike(s: string) {
    Starts(s, "css=") || Starts(s, "xpath=") || Starts(s, "#") || Starts(s, ".") || Starts(s, "//")
  }

  predicate Runnable(v: Value) {
    && v.Object? && v.fields.Keys <= {"strategy", "selector", "semantic_value", "pre_score", "pre_features"}
    && Said(v.fields, "selector") != "" && ExecutableStrategy(Said(v.fields, "strategy"))
  }

  predicate Verified(v: Value) {
    var f := AsObject(v);
    var strategy := Said(f, "strategy");
    && At(f, "pre_features").Object?
    && var features := At(f, "pre_features").fields;
    && At(features, "verified") == Bool(true)
    && (Starts(strategy, "verified_") ==>
          Said(features, "source") in {"a11y_backend_dom_node", "dom_verified_interactive_control", strategy})
    && (strategy == "role" ==> Said(features, "source") == "a11y_role_exact")
    && (strategy == "text" ==> Said(features, "source") == "a11y_text_exact")
    && (!Starts(strategy, "verified_") && strategy != "role" && strategy != "text" ==>
          Starts(strategy, "a11y_scoped_") && Said(features, "source") == strategy)
  }

  lemma StartsIff(s: string, prefix: string)
    ensures Starts(s, prefix) <==> prefix <= s
  {
  }

  lemma VerifiedIff(v: Value)
    ensures VerifiedCandidate(v) <==> Verified(v)
  {
    var strategy := Said(AsObject(v), "strategy");
    StartsIff(strategy, "verified_");
    StartsIff(strategy, "a11y_scoped_");
  }

  lemma RunnableIff(v: Value)
    ensures RunnableCandidate(v) <==> Runnable(v)
  {
    if v.Object? {
      assert OnlyFields(v.fields, {"strategy", "selector", "semantic_value", "pre_score", "pre_features"})
        <==> v.fields.Keys <= {"strategy", "selector", "semantic_value", "pre_score", "pre_features"};
    }
  }

  lemma SelectorIff(s: string)
    ensures LooksLikeSelector(s) <==> SelectorLike(s)
  {
    StartsIff(s, "css=");
    StartsIff(s, "xpath=");
    StartsIff(s, "#");
    StartsIff(s, ".");
    StartsIff(s, "//");
  }

  lemma PhaseIff(action: string, f: Fields, phase: Phase)
    ensures PhaseOk(action, f, phase) <==> PhaseDemands(action, f, phase)
  {
    SelectorIff(Said(f, "target"));
    forall v ensures RunnableCandidate(v) <==> Runnable(v) {
      RunnableIff(v);
    }
    forall v ensures VerifiedCandidate(v) <==> Verified(v) {
      VerifiedIff(v);
    }
  }

  /** An accepted research-v1 case meets the legacy demands and these. */
  lemma ResearchHolds(env: Env, f: Fields, phase: Phase)
    requires ResearchOk(env, f, phase)
    ensures LegacyDemands(env, f) && At(f, "profile") == String("research-v1")
    ensures f.Keys <= {"profile", "name", "description", "base_url", "input_contract", "output_contract", "steps"}
    ensures forall i :: 0 <= i < |At(f, "steps").items| ==>
              var step := AsObject(At(f, "steps").items[i]);
              && ResearchMetaDemands(AsText(At(step, "action")), step)
              && PhaseDemands(AsText(At(step, "action")), step, phase)
  {
    HeaderIff(f);
    forall i | 0 <= i < |At(f, "steps").items|
      ensures LegacyStepDemands(env, At(f, "steps").items[i])
      ensures var step := AsObject(At(f, "steps").items[i]);
              && ResearchMetaDemands(AsText(At(step, "action")), step)
              && PhaseDemands(AsText(At(step, "action")), step, phase)
    {
      var v := At(f, "steps").items[i];
      assert ResearchStepOk(env, v, phase);
      StepIff(env, AsText(At(v.fields, "action")), v.fields);
      ResearchMetaHolds(env, v, phase);
      PhaseIff(AsText(At(v.fields, "action")), v.fields, phase);
    }
  }

  // --- Research-v2 --------------------------------------------------------------------

  predicate V2ActionDemands(action: string, f: Fields) {
    && (action in {"goto", "assert_url_contains"} ==> Short(f, "value", 2000))
    && (action == "input" ==>
          At(f, "value").String? && At(f, "trigger") in {Null, String("Enter"), String("Tab")})
    && (action == "wait_for" ==> "timeout_ms" !in f || Between(f["timeout_ms"], 1.0, 60000.0))
    && (action == "assert_text" ==> Short(f, "value", 10000))
    && (action == "capture_text" ==> Short(f, "context_key", 100))
    && (action in {"click", "input", "capture_text", "assert_text"} ==> Short(f, "target_binding_id", 64))
  }

  /** No condition of a research-v2 step refers to an element by itself. */
  predicate V2ListDemands(v: Value) {
    && ResearchListDemands(v)
    && forall i :: 0 <= i < |v.items| ==>
         AsText(At(AsObject(v.items[i]), "type")) !in {"element_visible", "element_gone"}
  }

  predicate V2StepDemands(v: Value, phase: Phase) {
    && v.Object?
    && var f := v.fields;
    && var action := AsText(At(f, "action"));
    && KnownAction(action) && Short(f, "plan_step_id", 64) && Short(f, "intent", 500)
    && EffectDemands(action, f) && V2ActionDemands(action, f)
    && V2ListDemands(At(f, "preconditions")) && V2ListDemands(At(f, "postconditions"))
    && f.Keys <= {"plan_step_id", "action", "intent", "target_binding_id", "value", "trigger", "context_key",
                  "timeout_ms", "preconditions", "postconditions", "idempotency", "side_effect", "target",
                  "probe_id", "observation_id", "observation_sha256", "page_state_id", "selected_candidate_id",
                  "semantic_target", "locator_candidates"}
    && (phase.Draft? ==>
          f.Keys !! {"probe_id", "observation_id", "observation_sha256", "page_state_id", "selected_candidate_id",
                     "semantic_target", "locator_candidates"})
    && (phase.Executable? && action in {"click", "input", "wait_for", "assert_text", "capture_text"} ==>
          Short(f, "semantic_target", 500))
    && (phase.Executable? && action in {"click", "input", "capture_text", "assert_text"} ==>
          At(f, "locator_candidates").Array? && |At(f, "locator_candidates").items| > 0)
  }

  lemma V2ListHolds(v: Value)
    requires ResearchV2.V2ConditionsOk(v)
    ensures V2ListDemands(v)
  {
    ResearchListIff(v);
    forall i | 0 <= i < |v.items| ensures AsText(At(AsObject(v.items[i]), "type")) !in {"element_visible", "element_gone"} {
      assert !ResearchV2.UnboundCondition(v.items[i]);
    }
  }

  lemma V2KeysHold(f: Fields)
    requires OnlyFields(f, ResearchV2.STEP_FIELDS)
    ensures f.Keys <= {"plan_step_id", "action", "intent", "target_binding_id", "value", "trigger", "context_key",
                       "timeout_ms", "preconditions", "postconditions", "idempotency", "side_effect", "target",
                       "probe_id", "observation_id", "observation_sha256", "page_state_id", "selected_candidate_id",
                       "semantic_target", "locator_candidates"}
    ensures (forall key :: key in ResearchV2.COMPILER_FIELDS ==> key !in f) ==>
              f.Keys !! {"probe_id", "observation_id", "observation_sha256", "page_state_id", "selected_candidate_id",
                         "semantic_target", "locator_candidates"}
  {
  }

  /** Every step of an accepted research-v2 case meets these demands. */
  lemma V2StepHolds(decode: ResearchV2.Decoder, v: Value, phase: Phase)
    requires ResearchV2.V2StepOk(decode, v, phase)
    ensures V2StepDemands(v, phase)
  {
    var f := v.fields;
    V2ListHolds(At(f, "preconditions"));
    V2ListHolds(At(f, "postconditions"));
    V2KeysHold(f);
    V2EffectHolds(TextAt(f, "action"), f);
    V2ActionHolds(TextAt(f, "action"), f);
  }

  lemma V2EffectHolds(action: string, f: Fields)
    requires ResearchV2.V2MetaOk(action, f)
    ensures EffectDemands(action, f)
  {
  }

  lemma V2ActionHolds(action: string, f: Fields)
    requires ResearchV2.V2ActionFieldsOk(action, f)
    ensures V2ActionDemands(action, f)
  {
  }
}
