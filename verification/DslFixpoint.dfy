/** The canonical form is a fixpoint, and canonicalising keeps an accepted case accepted
    exactly when none of its conditions has an explicit null method. */
module DslFixpoint {
  import opened Wrappers
  import opened Json
  import opened Text
  import opened DslCase

  lemma CanonConditionKeys(env: Env, v: Value)
    ensures var f := AsObject(v); var g := AsObject(CanonCondition(env, v));
            && At(g, "type") == Trimmed(f, "type")
            && At(g, "value") == OptionalTrimmed(f, "value")
            && At(g, "timeout_ms") == OrDefault(f, "timeout_ms", Number(3000.0)) && "timeout_ms" in g
            && ("method" in g <==> "method" in f)
            && ("method" in f ==> g["method"] == String(Upper(env.upper, TrimAt(f, "method"))))
            && ("status" in g <==> "status" in f) && At(g, "status") == At(f, "status")
  {
  }

  lemma ConditionFixpoint(env: Env, v: Value)
    requires UpperLaws(env.upper)
    ensures CanonCondition(env, CanonCondition(env, v)) == CanonCondition(env, v)
  {
    var f := AsObject(v);
    var c := CanonCondition(env, v);
    var g := AsObject(c);
    CanonConditionKeys(env, v);
    Trim(TextAt(f, "type"));
    Trim(TextAt(f, "value"));
    UpperTrim(env.upper, TextAt(f, "method"));
    assert AsObject(CanonCondition(env, c)) == g;
  }

  /** Canonicalisation keeps an accepted condition accepted, unless its method is an
      explicit null. */
  lemma ConditionAccepted(env: Env, v: Value)
    requires UpperLaws(env.upper) && ConditionOk(v)
    ensures ConditionOk(CanonCondition(env, v)) <==> !NullMethod(v)
  {
    var f := v.fields;
    CanonConditionKeys(env, v);
    Trim(TextAt(f, "type"));
    Trim(TextAt(f, "value"));
    UpperTrim(env.upper, TextAt(f, "method"));
  }

  lemma ConditionsFixpoint(env: Env, v: Value)
    requires UpperLaws(env.upper)
    ensures CanonConditions(env, CanonConditions(env, v)) == CanonConditions(env, v)
  {
    var items := AsArray(v);
    forall i | 0 <= i < |items|
      ensures CanonCondition(env, CanonCondition(env, items[i])) == CanonCondition(env, items[i])
    {
      ConditionFixpoint(env, items[i]);
    }
  }

  lemma ConditionsAccepted(env: Env, v: Value)
    requires UpperLaws(env.upper) && ConditionsOk(v)
    ensures ConditionsOk(CanonConditions(env, v)) <==> NoNullMethods(v)
  {
    var items := AsArray(v);
    var canon := CanonConditions(env, v).items;
    forall i | 0 <= i < |items| ensures ConditionOk(canon[i]) <==> !NullMethod(items[i]) {
      ConditionAccepted(env, items[i]);
    }
    if ConditionsOk(CanonConditions(env, v)) {
      forall i | 0 <= i < |items| ensures !NullMethod(items[i]) {
        assert ConditionOk(canon[i]);
      }
    }
  }

  // --- Candidates -----------------------------------------------------------------

  lemma CanonStrategyStable(s: string)
    requires !Untrimmed(s)
    ensures var t := CanonStrategy(s);
            !Untrimmed(t) && CanonStrategy(t) == t && (t == "" <==> s == "")
  {
  }

  lemma CanonCandidateKeys(v: Value)
    ensures var f := AsObject(v); var g := AsObject(CanonCandidate(v));
            && At(g, "strategy") == String(CanonStrategy(TrimAt(f, "strategy")))
            && At(g, "selector") == OptionalTrimmed(f, "selector")
            && At(g, "semantic_value") == OptionalTrimmed(f, "semantic_value")
            && At(g, "pre_score") == At(f, "pre_score") && At(g, "pre_features") == At(f, "pre_features")
            && "pre_features" in g
            && HrefOf(CanonCandidate(v)) == HrefOf(v)
            && OnlyFields(g, {"strategy", "selector", "semantic_value", "pre_score", "pre_features"})
  {
  }

  lemma CandidateCanonical(v: Value)
    ensures CanonCandidate(CanonCandidate(v)) == CanonCandidate(v)
    ensures CandidateOk(v) ==> CandidateOk(CanonCandidate(v))
  {
    var f := AsObject(v);
    var g := AsObject(CanonCandidate(v));
    CanonCandidateKeys(v);
    Trim(TextAt(f, "strategy"));
    CanonStrategyStable(TrimAt(f, "strategy"));
    Trim(TextAt(g, "strategy"));
    Trim(TextAt(f, "selector"));
    Trim(TextAt(f, "semantic_value"));
    assert AsObject(CanonCandidate(CanonCandidate(v))) == g;
  }

  lemma CandidatesCanonical(v: Value)
    ensures CanonCandidates(CanonCandidates(v)) == CanonCandidates(v)
    ensures CandidatesOk(v) ==> CandidatesOk(CanonCandidates(v))
  {
    var items := AsArray(v);
    forall i | 0 <= i < |items|
      ensures CanonCandidate(CanonCandidate(items[i])) == CanonCandidate(items[i])
      ensures CandidateOk(items[i]) ==> CandidateOk(CanonCandidate(items[i]))
    {
      CandidateCanonical(items[i]);
    }
  }

  lemma {:induction false} HrefKept(env: Env, items: seq<Value>)
    ensures VerifiedHref(env, CanonCandidates(Array(items)).items) == VerifiedHref(env, items)
  {
    if items != [] {
      CanonCandidateKeys(items[0]);
      HrefKept(env, items[1..]);
      assert CanonCandidates(Array(items)).items[1..] == CanonCandidates(Array(items[1..])).items;
    }
  }

  lemma TargetKept(env: Env, v: Value, href: string, path: string)
    requires ConditionOk(v)
    ensures TargetsURL(env, CanonCondition(env, v), href, path) == TargetsURL(env, v, href, path)
  {
    CanonConditionKeys(env, v);
    Trim(TextAt(v.fields, "type"));
    Trim(TextAt(v.fields, "value"));
  }

  lemma AnchorKept(env: Env, candidates: Value, post: Value)
    requires ConditionsOk(post)
    ensures AnchorOk(env, CanonCandidates(candidates), CanonConditions(env, post)) == AnchorOk(env, candidates, post)
  {
    HrefKept(env, AsArray(candidates));
    assert Array(AsArray(candidates)).items == AsArray(candidates);
    var href := VerifiedHref(env, AsArray(candidates));
    var items, canon := AsArray(post), CanonConditions(env, post).items;
    if env.targetPath(href).Some? {
      var path := env.targetPath(href).value;
      forall i | 0 <= i < |items| ensures TargetsURL(env, canon[i], href, path) == TargetsURL(env, items[i], href, path) {
        TargetKept(env, items[i], href, path);
      }
      assert HasTargetURL(env, canon, href) == HasTargetURL(env, items, href);
    }
  }

  // --- Contracts ------------------------------------------------------------------

  function ContractFields(input: bool): set<string> {
    {"name", "context_key", "value_type", "description"} + if input then {"required", "value"} else {"source"}
  }

  lemma CanonContractKeys(input: bool, v: Value)
    ensures var f := AsObject(v); var g := AsObject(CanonContract(input, v));
            && At(g, "name") == Trimmed(f, "name") && At(g, "context_key") == Trimmed(f, "context_key")
            && At(g, "value_type") == Trimmed(f, "value_type")
            && At(g, "description") == OptionalTrimmed(f, "description")
            && (input ==> "required" in g && g["required"] == OrDefault(f, "required", Bool(true))
                          && At(g, "value") == OptionalTrimmed(f, "value"))
            && (!input ==> "required" !in g && At(g, "value") == Null && At(g, "source") == OptionalTrimmed(f, "source"))
            && OnlyFields(g, ContractFields(input))
  {
  }

  /** The trimmed fields of a contract are trimmed. */
  lemma ContractTrims(f: Fields)
    ensures TrimSpace(TrimAt(f, "name")) == TrimAt(f, "name")
    ensures TrimSpace(TrimAt(f, "context_key")) == TrimAt(f, "context_key")
    ensures TrimSpace(TrimAt(f, "value_type")) == TrimAt(f, "value_type")
    ensures TrimSpace(TrimAt(f, "description")) == TrimAt(f, "description")
    ensures TrimSpace(TrimAt(f, "value")) == TrimAt(f, "value")
    ensures TrimSpace(TrimAt(f, "source")) == TrimAt(f, "source")
  {
    Trim(TextAt(f, "name"));
    Trim(TextAt(f, "context_key"));
    Trim(TextAt(f, "value_type"));
    Trim(TextAt(f, "description"));
    Trim(TextAt(f, "value"));
    Trim(TextAt(f, "source"));
  }

  lemma ContractFixpoint(input: bool, v: Value)
    ensures CanonContract(input, CanonContract(input, v)) == CanonContract(input, v)
  {
    CanonContractKeys(input, v);
    ContractTrims(AsObject(v));
    if input {
      assert AsObject(CanonContract(true, CanonContract(true, v))) == AsObject(CanonContract(true, v));
    } else {
      assert AsObject(CanonContract(false, CanonContract(false, v))) == AsObject(CanonContract(false, v));
    }
  }

  lemma ContractAccepted(input: bool, v: Value)
    requires ContractOk(input, v)
    ensures ContractOk(input, CanonContract(input, v))
  {
    var f := v.fields;
    CanonContractKeys(input, v);
    Trim(TextAt(f, "name"));
    Trim(TextAt(f, "context_key"));
    Trim(TextAt(f, "value_type"));
    Trim(TextAt(f, "source"));
  }

  lemma ContractsCanonical(f: Fields, field: string, input: bool)
    ensures CanonContracts(input, CanonContracts(input, At(f, field))) == CanonContracts(input, At(f, field))
    ensures ContractsOk(f, field, input) ==> ContractsOk(map[field := CanonContracts(input, At(f, field))], field, input)
    ensures ResearchContractsOnly(map[field := CanonContracts(input, At(f, field))], field, input)
  {
    var items := AsArray(At(f, field));
    forall i | 0 <= i < |items|
      ensures CanonContract(input, CanonContract(input, items[i])) == CanonContract(input, items[i])
      ensures ContractsOk(f, field, input) ==> ContractOk(input, CanonContract(input, items[i]))
      ensures OnlyFields(AsObject(CanonContract(input, items[i])), ContractFields(input))
    {
      ContractFixpoint(input, items[i]);
      CanonContractKeys(input, items[i]);
      if ContractsOk(f, field, input) {
        assert ContractOk(input, items[i]);
        ContractAccepted(input, items[i]);
      }
    }
  }

  // --- Legacy steps ---------------------------------------------------------------

  lemma LocatorKeys(env: Env, base: Fields, f: Fields)
    requires "preconditions" !in base
    ensures var g := WithLocatorDefaults(env, base, f);
            && At(g, "page_state") == OptionalTrimmed(f, "page_state")
            && At(g, "target_strategy") == OptionalTrimmed(f, "target_strategy")
            && At(g, "locator_confidence") == OptionalTrimmed(f, "locator_confidence")
            && At(g, "candidates") == CanonCandidates(At(f, "candidates"))
            && At(g, "postconditions") == CanonConditions(env, At(f, "postconditions")) && "postconditions" in g
            && ("preconditions" in g <==> "preconditions" in f)
            && ("preconditions" in f ==> g["preconditions"] == CanonConditions(env, f["preconditions"]))
            && forall key :: key !in {"page_state", "target_strategy", "locator_confidence", "candidates",
                                      "postconditions", "preconditions"} ==>
                 At(g, key) == At(base, key) && (key in g <==> key in base)
  {
  }

  /** `g` carries the action's own fields in canonical form. */
  predicate Owns(action: string, f: Fields, g: Fields) {
    var own := OwnFields(action, f);
    && (forall key :: key in own ==> key in g && g[key] == own[key])
  }

  lemma OwnFixpoint(action: string, f: Fields, g: Fields)
    requires Supported(action) && Owns(action, f, g)
    ensures OwnFields(action, g) == OwnFields(action, f)
  {
    var own := OwnFields(action, f);
    Trim(TextAt(f, "target"));
    Trim(TextAt(f, "value"));
    Trim(TextAt(f, "trigger"));
    Trim(TextAt(f, "context_key"));
    match action
    case "goto" => assert "value" in own;
    case "assert_url_contains" => assert "value" in own;
    case "click" => assert "target" in own;
    case "wait_for" => assert "target" in own && "timeout_ms" in own;
    case "assert_text" => assert "target" in own && "value" in own;
    case "capture_text" => assert "target" in own && "context_key" in own;
    case "input" => assert "target" in own && "value" in own && "trigger" in own;
  }

  lemma OwnAccepted(action: string, f: Fields, g: Fields)
    requires Supported(action) && Owns(action, f, g) && ActionFieldsOk(action, f)
    ensures ActionFieldsOk(action, g)
    ensures action == "input" && OptionalEnum(f, "trigger", {"Enter", "Tab"}) ==>
              OptionalEnum(g, "trigger", {"Enter", "Tab"})
    ensures action == "wait_for" && ("timeout_ms" in f ==> InRange(f["timeout_ms"], 1.0, 60000.0)) ==>
              "timeout_ms" in g && InRange(g["timeout_ms"], 1.0, 60000.0)
  {
    var own := OwnFields(action, f);
    Trim(TextAt(f, "target"));
    Trim(TextAt(f, "value"));
    Trim(TextAt(f, "trigger"));
    Trim(TextAt(f, "context_key"));
    match action
    case "goto" => assert "value" in own;
    case "assert_url_contains" => assert "value" in own;
    case "click" => assert "target" in own;
    case "wait_for" => assert "target" in own && "timeout_ms" in own;
    case "assert_text" => assert "target" in own && "value" in own;
    case "capture_text" => assert "target" in own && "context_key" in own;
    case "input" => assert "target" in own && "value" in own && "trigger" in own;
  }

  lemma SupportedTrimmed(action: string)
    requires Supported(action)
    ensures TrimSpace(action) == action
  {
    Trim(action);
  }

  lemma OwnKeys(action: string, f: Fields)
    ensures forall key :: key in OwnFields(action, f) ==>
              key in {"action", "value", "target", "timeout_ms", "context_key", "trigger"}
    ensures At(OwnFields(action, f), "action") == String(action)
  {
  }

  lemma LocatorFixpoint(env: Env, own: Fields, f: Fields)
    requires UpperLaws(env.upper) && "preconditions" !in own
    ensures var g := WithLocatorDefaults(env, own, f); WithLocatorDefaults(env, own, g) == g
  {
    var g := WithLocatorDefaults(env, own, f);
    var h := WithLocatorDefaults(env, own, g);
    LocatorKeys(env, own, f);
    LocatorKeys(env, own, g);
    Trim(TextAt(f, "page_state"));
    Trim(TextAt(f, "target_strategy"));
    Trim(TextAt(f, "locator_confidence"));
    CandidatesCanonical(At(f, "candidates"));
    ConditionsFixpoint(env, At(f, "preconditions"));
    ConditionsFixpoint(env, At(f, "postconditions"));
    SameFields(g, h);
  }

  lemma SameFields(g: Fields, h: Fields)
    requires g.Keys == h.Keys && forall key :: key in g ==> At(h, key) == At(g, key)
    ensures h == g
  {
    forall key | key in g ensures h[key] == g[key] {
      assert At(h, key) == At(g, key);
    }
  }

  lemma NavigationKeys(env: Env, own: Fields, f: Fields)
    requires "preconditions" !in own && "postconditions" !in own
    ensures var g := WithConditions(env, WithConditions(env, own, f, "preconditions"), f, "postconditions");
            && ("preconditions" in g <==> "preconditions" in f) && ("postconditions" in g <==> "postconditions" in f)
            && ("preconditions" in f ==> g["preconditions"] == CanonConditions(env, f["preconditions"]))
            && ("postconditions" in f ==> g["postconditions"] == CanonConditions(env, f["postconditions"]))
            && forall key :: key !in {"postconditions", "preconditions"} ==>
                 At(g, key) == At(own, key) && (key in g <==> key in own)
  {
  }

  lemma StepFixpoint(env: Env, v: Value)
    requires UpperLaws(env.upper) && Supported(TrimAt(AsObject(v), "action"))
    ensures CanonStep(env, CanonStep(env, v)) == CanonStep(env, v)
  {
    var f := AsObject(v);
    var action := TrimAt(f, "action");
    var own := OwnFields(action, f);
    var g := AsObject(CanonStep(env, v));
    OwnKeys(action, f);
    SupportedTrimmed(action);
    if Located(action) {
      LocatorKeys(env, own, f);
      LocatorFixpoint(env, own, f);
    } else {
      NavigationKeys(env, own, f);
      ConditionsFixpoint(env, At(f, "preconditions"));
      ConditionsFixpoint(env, At(f, "postconditions"));
    }
    assert Owns(action, f, g);
    OwnFixpoint(action, f, g);
    assert At(g, "action") == String(action);
  }

  /** Everything validateStep checks, apart from the step's conditions. */
  predicate StepBodyOk(action: string, f: Fields) {
    && ActionFieldsOk(action, f)
    && OptionalEnum(f, "locator_confidence", {"high", "medium", "low"})
    && OptionalEnum(f, "target_strategy", {"css", "xpath", "data-testid", "element_id", "tag"})
    && NullOrText(f, "page_state")
    && (action == "input" ==> OptionalEnum(f, "trigger", {"Enter", "Tab"}))
    && (action == "wait_for" ==> ("timeout_ms" in f ==> InRange(f["timeout_ms"], 1.0, 60000.0)))
    && CandidatesOk(At(f, "candidates"))
  }

  lemma StepSplit(env: Env, action: string, f: Fields)
    ensures StepOk(env, action, f) <==>
              && StepBodyOk(action, f)
              && ConditionsOk(At(f, "preconditions")) && ConditionsOk(At(f, "postconditions"))
              && (action == "click" ==> AnchorOk(env, At(f, "candidates"), At(f, "postconditions")))
  {
  }

  lemma LocatorAccepted(f: Fields, g: Fields)
    requires At(g, "page_state") == OptionalTrimmed(f, "page_state")
    requires At(g, "target_strategy") == OptionalTrimmed(f, "target_strategy")
    requires At(g, "locator_confidence") == OptionalTrimmed(f, "locator_confidence")
    ensures OptionalEnum(f, "locator_confidence", {"high", "medium", "low"}) ==>
              OptionalEnum(g, "locator_confidence", {"high", "medium", "low"})
    ensures OptionalEnum(f, "target_strategy", {"css", "xpath", "data-testid", "element_id", "tag"}) ==>
              OptionalEnum(g, "target_strategy", {"css", "xpath", "data-testid", "element_id", "tag"})
    ensures NullOrText(g, "page_state")
  {
    Trim(TextAt(f, "target_strategy"));
    Trim(TextAt(f, "locator_confidence"));
  }

  lemma LocatedOwns(env: Env, action: string, f: Fields)
    ensures Owns(action, f, WithLocatorDefaults(env, OwnFields(action, f), f))
  {
    OwnKeys(action, f);
    LocatorKeys(env, OwnFields(action, f), f);
  }

  lemma BodyKept(action: string, f: Fields, g: Fields)
    requires Supported(action) && StepBodyOk(action, f) && Owns(action, f, g)
    requires At(g, "page_state") == OptionalTrimmed(f, "page_state")
    requires At(g, "target_strategy") == OptionalTrimmed(f, "target_strategy")
    requires At(g, "locator_confidence") == OptionalTrimmed(f, "locator_confidence")
    requires At(g, "candidates").Null? || At(g, "candidates") == CanonCandidates(At(f, "candidates"))
    ensures StepBodyOk(action, g)
  {
    OwnAccepted(action, f, g);
    LocatorAccepted(f, g);
    CandidatesCanonical(At(f, "candidates"));
  }

  lemma LocatedBody(env: Env, action: string, f: Fields)
    requires Located(action) && StepBodyOk(action, f)
    ensures StepBodyOk(action, WithLocatorDefaults(env, OwnFields(action, f), f))
  {
    OwnKeys(action, f);
    LocatedOwns(env, action, f);
    LocatorKeys(env, OwnFields(action, f), f);
    BodyKept(action, f, WithLocatorDefaults(env, OwnFields(action, f), f));
  }

  lemma NavigationBody(env: Env, action: string, f: Fields)
    requires Supported(action) && !Located(action) && StepBodyOk(action, f)
    ensures StepBodyOk(action,
              WithConditions(env, WithConditions(env, OwnFields(action, f), f, "preconditions"), f, "postconditions"))
  {
    var own := OwnFields(action, f);
    var g := WithConditions(env, WithConditions(env, own, f, "preconditions"), f, "postconditions");
    OwnKeys(action, f);
    NavigationKeys(env, own, f);
    assert Owns(action, f, g);
    OwnAccepted(action, f, g);
  }

  /** Where the canonical conditions and candidates of a step come from. */
  lemma StepParts(env: Env, v: Value)
    requires UpperLaws(env.upper) && LegacyStepOk(env, v)
    ensures var f := v.fields; var g := AsObject(CanonStep(env, v)); var action := TextAt(f, "action");
            && At(g, "action") == String(action) && StepBodyOk(action, g)
            && (ConditionsOk(At(g, "preconditions")) <==> NoNullMethods(At(f, "preconditions")))
            && (ConditionsOk(At(g, "postconditions")) <==> NoNullMethods(At(f, "postconditions")))
            && (action == "click" ==>
                  && At(g, "candidates") == CanonCandidates(At(f, "candidates"))
                  && At(g, "postconditions") == CanonConditions(env, At(f, "postconditions")))
  {
    var f := v.fields;
    var action := TextAt(f, "action");
    StepSplit(env, action, f);
    SupportedTrimmed(action);
    if Located(action) {
      LocatedParts(env, action, f);
    } else {
      NavigationParts(env, action, f);
    }
  }

  lemma LocatedParts(env: Env, action: string, f: Fields)
    requires UpperLaws(env.upper) && Located(action) && StepBodyOk(action, f)
    requires ConditionsOk(At(f, "preconditions")) && ConditionsOk(At(f, "postconditions"))
    ensures var g := WithLocatorDefaults(env, OwnFields(action, f), f);
            && At(g, "action") == String(action) && StepBodyOk(action, g)
            && (ConditionsOk(At(g, "preconditions")) <==> NoNullMethods(At(f, "preconditions")))
            && (ConditionsOk(At(g, "postconditions")) <==> NoNullMethods(At(f, "postconditions")))
            && At(g, "candidates") == CanonCandidates(At(f, "candidates"))
            && At(g, "postconditions") == CanonConditions(env, At(f, "postconditions"))
  {
    OwnKeys(action, f);
    ConditionsAccepted(env, At(f, "preconditions"));
    ConditionsAccepted(env, At(f, "postconditions"));
    LocatedBody(env, action, f);
    LocatorKeys(env, OwnFields(action, f), f);
  }

  lemma NavigationParts(env: Env, action: string, f: Fields)
    requires UpperLaws(env.upper) && Supported(action) && !Located(action) && StepBodyOk(action, f)
    requires ConditionsOk(At(f, "preconditions")) && ConditionsOk(At(f, "postconditions"))
    ensures var g := WithConditions(env, WithConditions(env, OwnFields(action, f), f, "preconditions"), f, "postconditions");
            && At(g, "action") == String(action) && StepBodyOk(action, g)
            && (ConditionsOk(At(g, "preconditions")) <==> NoNullMethods(At(f, "preconditions")))
            && (ConditionsOk(At(g, "postconditions")) <==> NoNullMethods(At(f, "postconditions")))
  {
    OwnKeys(action, f);
    ConditionsAccepted(env, At(f, "preconditions"));
    ConditionsAccepted(env, At(f, "postconditions"));
    NavigationBody(env, action, f);
    NavigationKeys(env, OwnFields(action, f), f);
  }

  lemma StepAccepted(env: Env, v: Value)
    requires UpperLaws(env.upper) && LegacyStepOk(env, v)
    ensures LegacyStepOk(env, CanonStep(env, v)) <==> StepMethodsPresent(v)
  {
    var f := v.fields;
    var action := TextAt(f, "action");
    var g := AsObject(CanonStep(env, v));
    StepParts(env, v);
    StepSplit(env, action, f);
    StepSplit(env, action, g);
    if action == "click" {
      AnchorKept(env, At(f, "candidates"), At(f, "postconditions"));
    }
  }

  // --- Research steps -------------------------------------------------------------

  const META_FIELDS := {"intent", "idempotency", "side_effect", "preconditions", "postconditions"}

  lemma ResearchMetaKeys(env: Env, f: Fields)
    ensures var meta := ResearchMeta(env, f);
            && At(meta, "intent") == Trimmed(f, "intent") && At(meta, "idempotency") == Trimmed(f, "idempotency")
            && At(meta, "side_effect") == Trimmed(f, "side_effect")
            && At(meta, "preconditions") == CanonConditions(env, At(f, "preconditions"))
            && At(meta, "postconditions") == CanonConditions(env, At(f, "postconditions"))
            && meta.Keys == META_FIELDS
  {
  }

  lemma ResearchOwnKeys(action: string, f: Fields)
    requires Supported(action)
    ensures var own := ResearchOwnFields(action, f);
            && At(own, "target") == Trimmed(f, "target") && Owns(action, f, own) && At(own, "action") == String(action)
            && own.Keys !! META_FIELDS && "candidates" !in own && "locator_confidence" !in own
            && "page_state" !in own && "target_strategy" !in own
  {
    OwnKeys(action, f);
    var own := OwnFields(action, f);
    assert "target" in own ==> own["target"] == Trimmed(f, "target");
  }

  lemma Merge(meta: Fields, own: Fields)
    requires meta.Keys == META_FIELDS && own.Keys !! META_FIELDS
    ensures forall key :: key in META_FIELDS ==> At(meta + own, key) == At(meta, key)
    ensures forall key :: key in own ==> key in meta + own && (meta + own)[key] == own[key]
    ensures forall key :: key !in META_FIELDS ==> At(meta + own, key) == At(own, key)
    ensures forall key :: key in meta + own <==> key in META_FIELDS || key in own
  {
  }

  lemma ResearchBase(env: Env, action: string, f: Fields)
    requires Supported(action)
    ensures var base := ResearchMeta(env, f) + ResearchOwnFields(action, f);
            && At(base, "intent") == Trimmed(f, "intent") && At(base, "idempotency") == Trimmed(f, "idempotency")
            && At(base, "side_effect") == Trimmed(f, "side_effect")
            && At(base, "preconditions") == CanonConditions(env, At(f, "preconditions"))
            && At(base, "postconditions") == CanonConditions(env, At(f, "postconditions"))
            && At(base, "target") == Trimmed(f, "target") && Owns(action, f, base)
            && At(base, "action") == String(action)
            && (forall key :: key in base ==> key in META_FIELDS || key in ResearchOwnFields(action, f))
            && "candidates" !in base && "locator_confidence" !in base
            && "page_state" !in base && "target_strategy" !in base
  {
    ResearchMetaKeys(env, f);
    ResearchOwnKeys(action, f);
    Merge(ResearchMeta(env, f), ResearchOwnFields(action, f));
  }

  lemma OwnAllowed(action: string, f: Fields)
    requires Supported(action)
    ensures forall key :: key in ResearchOwnFields(action, f) ==> key in ResearchStepFields(action)
  {
  }

  lemma ResearchLocatorKeys(base: Fields, f: Fields)
    requires "candidates" !in base && "locator_confidence" !in base
    ensures var g := WithResearchLocator(base, f);
            && At(g, "page_state") == OptionalTrimmed(f, "page_state")
            && At(g, "target_strategy") == OptionalTrimmed(f, "target_strategy")
            && At(g, "locator_confidence") == OptionalTrimmed(f, "locator_confidence")
            && ("locator_confidence" in g <==> "locator_confidence" in f)
            && ("candidates" in g <==> "candidates" in f)
            && ("candidates" in f ==> g["candidates"] == CanonCandidates(f["candidates"]))
            && forall key :: key !in {"page_state", "target_strategy", "locator_confidence", "candidates"} ==>
                 At(g, key) == At(base, key) && (key in g <==> key in base)
  {
  }

  /** How a canonical research step relates to the step it came from. */
  predicate ResearchImage(env: Env, action: string, f: Fields, g: Fields) {
    && At(g, "action") == String(action) && Owns(action, f, g) && OnlyFields(g, ResearchStepFields(action))
    && At(g, "intent") == Trimmed(f, "intent") && At(g, "idempotency") == Trimmed(f, "idempotency")
    && At(g, "side_effect") == Trimmed(f, "side_effect") && At(g, "target") == Trimmed(f, "target")
    && At(g, "preconditions") == CanonConditions(env, At(f, "preconditions"))
    && At(g, "postconditions") == CanonConditions(env, At(f, "postconditions"))
  }

  predicate LocatorImage(f: Fields, g: Fields) {
    && At(g, "page_state") == OptionalTrimmed(f, "page_state")
    && At(g, "target_strategy") == OptionalTrimmed(f, "target_strategy")
    && At(g, "locator_confidence") == OptionalTrimmed(f, "locator_confidence")
    && ("locator_confidence" in g <==> "locator_confidence" in f)
    && ("candidates" in g <==> "candidates" in f)
    && ("candidates" in f ==> g["candidates"] == CanonCandidates(f["candidates"]))
  }

  lemma BaseAllowed(env: Env, action: string, f: Fields)
    requires Supported(action)
    ensures OnlyFields(ResearchMeta(env, f) + ResearchOwnFields(action, f), ResearchStepFields(action))
    ensures Located(action) ==> LocatorStepFields() <= ResearchStepFields(action)
  {
    ResearchBase(env, action, f);
    OwnAllowed(action, f);
  }

  lemma LocatedFields(action: string, f: Fields, base: Fields)
    requires OnlyFields(base, ResearchStepFields(action)) && LocatorStepFields() <= ResearchStepFields(action)
    requires "candidates" !in base && "locator_confidence" !in base
    ensures OnlyFields(WithResearchLocator(base, f), ResearchStepFields(action))
  {
    ResearchLocatorKeys(base, f);
  }

  lemma LocatedOwn(action: string, f: Fields, base: Fields)
    requires Owns(action, f, base) && "candidates" !in base && "locator_confidence" !in base
    ensures Owns(action, f, WithResearchLocator(base, f))
  {
    ResearchLocatorKeys(base, f);
    OwnKeys(action, f);
    var g := WithResearchLocator(base, f);
    forall key | key in OwnFields(action, f) ensures key in g && g[key] == OwnFields(action, f)[key] {
      assert At(g, key) == At(base, key);
    }
  }

  lemma LocatedImage(env: Env, action: string, f: Fields, base: Fields)
    requires Supported(action) && Located(action) && ResearchImage(env, action, f, base)
    requires LocatorStepFields() <= ResearchStepFields(action)
    requires "candidates" !in base && "locator_confidence" !in base
    ensures ResearchImage(env, action, f, WithResearchLocator(base, f))
    ensures LocatorImage(f, WithResearchLocator(base, f))
  {
    ResearchLocatorKeys(base, f);
    LocatedFields(action, f, base);
    LocatedOwn(action, f, base);
  }

  lemma ResearchStepImage(env: Env, v: Value)
    requires Supported(TrimAt(AsObject(v), "action"))
    ensures var f := AsObject(v); var action := TrimAt(f, "action");
            && ResearchImage(env, action, f, AsObject(CanonResearchStep(env, v)))
            && (Located(action) ==> LocatorImage(f, AsObject(CanonResearchStep(env, v))))
  {
    var f := AsObject(v);
    var action := TrimAt(f, "action");
    ResearchBase(env, action, f);
    BaseAllowed(env, action, f);
    if Located(action) {
      LocatedImage(env, action, f, ResearchMeta(env, f) + ResearchOwnFields(action, f));
    }
  }

  lemma NavigationBare(action: string, f: Fields)
    requires Supported(action) && !Located(action) && OnlyFields(f, ResearchStepFields(action))
    ensures "page_state" !in f && "target_strategy" !in f && "locator_confidence" !in f && "candidates" !in f
  {
  }

  lemma ResearchLocatorFixpoint(base: Fields, f: Fields)
    requires "candidates" !in base && "locator_confidence" !in base
    ensures var g := WithResearchLocator(base, f); WithResearchLocator(base, g) == g
  {
    var g := WithResearchLocator(base, f);
    ResearchLocatorKeys(base, f);
    Trim(TextAt(f, "page_state"));
    Trim(TextAt(f, "target_strategy"));
    Trim(TextAt(f, "locator_confidence"));
    CandidatesCanonical(At(f, "candidates"));
  }

  lemma ResearchBaseFixpoint(env: Env, action: string, f: Fields, g: Fields)
    requires UpperLaws(env.upper) && Supported(action) && ResearchImage(env, action, f, g)
    ensures ResearchMeta(env, g) == ResearchMeta(env, f) && ResearchOwnFields(action, g) == ResearchOwnFields(action, f)
  {
    OwnFixpoint(action, f, g);
    Trim(TextAt(f, "intent"));
    Trim(TextAt(f, "idempotency"));
    Trim(TextAt(f, "side_effect"));
    Trim(TextAt(f, "target"));
    ConditionsFixpoint(env, At(f, "preconditions"));
    ConditionsFixpoint(env, At(f, "postconditions"));
  }

  lemma ResearchStepFixpoint(env: Env, v: Value)
    requires UpperLaws(env.upper) && Supported(TrimAt(AsObject(v), "action"))
    ensures CanonResearchStep(env, CanonResearchStep(env, v)) == CanonResearchStep(env, v)
  {
    var f := AsObject(v);
    var action := TrimAt(f, "action");
    var g := AsObject(CanonResearchStep(env, v));
    ResearchStepImage(env, v);
    SupportedTrimmed(action);
    assert TrimAt(g, "action") == action;
    ResearchBaseFixpoint(env, action, f, g);
    ResearchBase(env, action, f);
    ResearchLocatorFixpoint(ResearchMeta(env, f) + ResearchOwnFields(action, f), f);
  }

  lemma ResearchConditionsAccepted(env: Env, v: Value)
    requires UpperLaws(env.upper) && ResearchConditionsOk(v)
    ensures ResearchConditionsOk(CanonConditions(env, v)) <==> NoNullMethods(v)
    ensures CanonConditions(env, v).items == [] <==> v.items == []
  {
    ConditionsAccepted(env, v);
    forall i | 0 <= i < |v.items|
      ensures OnlyFields(AsObject(CanonCondition(env, v.items[i])), {"type", "value", "method", "status", "timeout_ms"})
    {
    }
  }

  lemma ExecutableKept(strategy: string)
    requires ExecutableStrategy(strategy)
    ensures ExecutableStrategy(CanonStrategy(strategy))
  {
  }

  /** A strategy that canonicalisation renames never has verified provenance. */
  lemma ProvenanceKept(strategy: string, features: Fields)
    requires Provenance(strategy, features)
    ensures CanonStrategy(strategy) == strategy
  {
    if "verified_" <= strategy {
      assert strategy[0] == "verified_"[0];
    } else if "a11y_scoped_" <= strategy {
      assert strategy[1] == "a11y_scoped_"[1];
    }
  }

  lemma StrategyKept(f: Fields, g: Fields)
    requires At(g, "strategy") == String(CanonStrategy(TrimAt(f, "strategy")))
    ensures TrimAt(g, "strategy") == CanonStrategy(TrimAt(f, "strategy"))
    ensures ExecutableStrategy(TrimAt(f, "strategy")) ==> ExecutableStrategy(TrimAt(g, "strategy"))
  {
    Trim(TextAt(f, "strategy"));
    CanonStrategyStable(TrimAt(f, "strategy"));
    Trim(CanonStrategy(TrimAt(f, "strategy")));
    if ExecutableStrategy(TrimAt(f, "strategy")) {
      ExecutableKept(TrimAt(f, "strategy"));
    }
  }

  lemma VerifiedKept(v: Value)
    requires VerifiedCandidate(v)
    ensures VerifiedCandidate(CanonCandidate(v))
  {
    var f, g := AsObject(v), AsObject(CanonCandidate(v));
    CanonCandidateKeys(v);
    StrategyKept(f, g);
    ProvenanceKept(TrimAt(f, "strategy"), At(f, "pre_features").fields);
  }

  lemma RunnableKept(v: Value)
    requires RunnableCandidate(v)
    ensures RunnableCandidate(CanonCandidate(v))
  {
    CanonCandidateKeys(v);
    Trim(TextAt(v.fields, "selector"));
    StrategyKept(v.fields, AsObject(CanonCandidate(v)));
  }

  lemma LocatorKept(f: Fields, g: Fields)
    requires LocatorImage(f, g) && LocatorOk(f)
    ensures LocatorOk(g)
  {
    Trim(TextAt(f, "locator_confidence"));
    var items := At(f, "candidates").items;
    var canon := At(g, "candidates").items;
    forall i | 0 <= i < |items|
      ensures RunnableCandidate(canon[i])
    {
      assert RunnableCandidate(items[i]);
      RunnableKept(items[i]);
    }
    var k :| 0 <= k < |items| && VerifiedCandidate(items[k]);
    VerifiedKept(items[k]);
    assert VerifiedCandidate(canon[k]);
  }

  lemma PhaseKept(env: Env, action: string, f: Fields, g: Fields, phase: Phase)
    requires ResearchImage(env, action, f, g) && LocatorImage(f, g) && PhaseOk(action, f, phase)
    ensures PhaseOk(action, g, phase)
  {
    Trim(TextAt(f, "target_strategy"));
    Trim(TextAt(f, "target"));
    if phase.Executable? && LocatorOk(f) {
      LocatorKept(f, g);
    }
  }

  /** All of validateResearchStep except its conditions and validateStep. */
  predicate ResearchMetaOk(f: Fields, action: string, phase: Phase) {
    && OnlyFields(f, ResearchStepFields(action))
    && BoundedText(f, "intent", 500)
    && RequiredEnum(f, "idempotency", {"idempotent", "non_idempotent"})
    && RequiredEnum(f, "side_effect", {"none", "browser_state", "external_state", "unknown"})
    && (action == "goto" || action == "assert_url_contains" ==> RequireText(f, "target"))
    && EffectOk(action, TrimAt(f, "idempotency"), TrimAt(f, "side_effect"),
                AsArray(At(f, "preconditions")), AsArray(At(f, "postconditions")))
    && PhaseOk(action, f, phase)
  }

  lemma ResearchSplit(env: Env, v: Value, phase: Phase)
    requires v.Object?
    ensures var f := v.fields; var action := TextAt(f, "action");
            ResearchStepOk(env, v, phase) <==>
              && Supported(action) && ResearchMetaOk(f, action, phase)
              && ResearchConditionsOk(At(f, "preconditions")) && ResearchConditionsOk(At(f, "postconditions"))
              && StepOk(env, action, f)
  {
  }

  lemma MetaKept(env: Env, action: string, f: Fields, g: Fields, phase: Phase)
    requires UpperLaws(env.upper) && ResearchImage(env, action, f, g) && LocatorImage(f, g)
    requires ResearchMetaOk(f, action, phase)
    ensures ResearchMetaOk(g, action, phase)
  {
    Trim(TextAt(f, "intent"));
    Trim(TextAt(f, "idempotency"));
    Trim(TextAt(f, "side_effect"));
    Trim(TextAt(f, "target"));
    PhaseKept(env, action, f, g, phase);
    assert AsArray(At(g, "preconditions")) == [] <==> AsArray(At(f, "preconditions")) == [];
    assert AsArray(At(g, "postconditions")) == [] <==> AsArray(At(f, "postconditions")) == [];
  }

  lemma ImageLocator(env: Env, action: string, f: Fields, g: Fields)
    requires Supported(action) && !Located(action)
    requires OnlyFields(f, ResearchStepFields(action)) && OnlyFields(g, ResearchStepFields(action))
    ensures LocatorImage(f, g)
  {
    NavigationBare(action, f);
    NavigationBare(action, g);
  }

  lemma ResearchStepKept(env: Env, action: string, f: Fields, g: Fields)
    requires UpperLaws(env.upper) && Supported(action) && ResearchImage(env, action, f, g) && LocatorImage(f, g)
    requires StepOk(env, action, f)
    ensures StepOk(env, action, g) <==> NoNullMethods(At(f, "preconditions")) && NoNullMethods(At(f, "postconditions"))
  {
    StepSplit(env, action, f);
    StepSplit(env, action, g);
    BodyKept(action, f, g);
    ConditionsAccepted(env, At(f, "preconditions"));
    ConditionsAccepted(env, At(f, "postconditions"));
    AnchorKept(env, At(f, "candidates"), At(f, "postconditions"));
  }

  lemma ResearchStepAccepted(env: Env, v: Value, phase: Phase)
    requires UpperLaws(env.upper) && ResearchStepOk(env, v, phase)
    ensures ResearchStepOk(env, CanonResearchStep(env, v), phase) <==> StepMethodsPresent(v)
  {
    var f := v.fields;
    var action := TextAt(f, "action");
    var g := AsObject(CanonResearchStep(env, v));
    SupportedTrimmed(action);
    ResearchStepImage(env, v);
    ResearchSplit(env, v, phase);
    ResearchSplit(env, CanonResearchStep(env, v), phase);
    if !Located(action) {
      ImageLocator(env, action, f, g);
    }
    MetaKept(env, action, f, g, phase);
    ResearchConditionsAccepted(env, At(f, "preconditions"));
    ResearchConditionsAccepted(env, At(f, "postconditions"));
    ResearchStepKept(env, action, f, g);
  }

  // --- Whole cases ----------------------------------------------------------------

  lemma HeaderKeys(f: Fields)
    ensures var g := CanonHeader(f);
            && At(g, "name") == Trimmed(f, "name") && At(g, "description") == OptionalTrimmed(f, "description")
            && At(g, "base_url") == OptionalTrimmed(f, "base_url")
            && At(g, "input_contract") == CanonContracts(true, At(f, "input_contract")) && "input_contract" in g
            && At(g, "output_contract") == CanonContracts(false, At(f, "output_contract")) && "output_contract" in g
            && OnlyFields(g, {"name", "description", "base_url", "input_contract", "output_contract"})
  {
  }

  /** `g` has the canonical header of `f`. */
  predicate HeaderImage(f: Fields, g: Fields) {
    forall key :: key in CanonHeader(f) ==> key in g && g[key] == CanonHeader(f)[key]
  }

  lemma HeaderFixpoint(f: Fields, g: Fields)
    requires HeaderImage(f, g)
    ensures CanonHeader(g) == CanonHeader(f)
  {
    HeaderKeys(f);
    Trim(TextAt(f, "name"));
    Trim(TextAt(f, "description"));
    Trim(TextAt(f, "base_url"));
    ContractsCanonical(f, "input_contract", true);
    ContractsCanonical(f, "output_contract", false);
    HeaderValues(f, g);
  }

  lemma HeaderValues(f: Fields, g: Fields)
    requires HeaderImage(f, g)
    ensures At(g, "name") == Trimmed(f, "name") && At(g, "description") == OptionalTrimmed(f, "description")
    ensures At(g, "base_url") == OptionalTrimmed(f, "base_url")
    ensures "input_contract" in g && g["input_contract"] == CanonContracts(true, At(f, "input_contract"))
    ensures "output_contract" in g && g["output_contract"] == CanonContracts(false, At(f, "output_contract"))
  {
    HeaderKeys(f);
    var h := CanonHeader(f);
    assert "name" in h && "description" in h && "base_url" in h;
  }

  /** Everything a case header must satisfy, apart from its steps. */
  predicate HeaderBodyOk(f: Fields) {
    && 0 < |TrimAt(f, "name")| <= 200
    && OptionalTextOk(f, "description", 1000) && OptionalTextOk(f, "base_url", 500)
    && ContractsOk(f, "input_contract", true) && ContractsOk(f, "output_contract", false)
  }

  lemma HeaderAccepted(f: Fields, g: Fields)
    requires HeaderImage(f, g) && HeaderBodyOk(f)
    ensures HeaderBodyOk(g)
    ensures ResearchContractsOnly(g, "input_contract", true) && ResearchContractsOnly(g, "output_contract", false)
  {
    HeaderValues(f, g);
    Trim(TextAt(f, "name"));
    Trim(TextAt(f, "description"));
    Trim(TextAt(f, "base_url"));
    ContractsCanonical(f, "input_contract", true);
    ContractsCanonical(f, "output_contract", false);
  }

  lemma LegacyImage(env: Env, f: Fields)
    ensures var g := CanonLegacy(env, f); var steps := AsArray(At(f, "steps"));
            && HeaderImage(f, g) && At(g, "steps").Array? && |At(g, "steps").items| == |steps|
            && (forall i :: 0 <= i < |steps| ==> At(g, "steps").items[i] == CanonStep(env, steps[i]))
            && "profile" !in g
  {
    HeaderKeys(f);
  }

  lemma LegacyFixpoint(env: Env, f: Fields)
    requires UpperLaws(env.upper) && LegacyOk(env, f)
    ensures CanonLegacy(env, CanonLegacy(env, f)) == CanonLegacy(env, f)
  {
    var g := CanonLegacy(env, f);
    var steps := At(f, "steps").items;
    LegacyImage(env, f);
    HeaderFixpoint(f, g);
    forall i | 0 <= i < |steps| ensures CanonStep(env, CanonStep(env, steps[i])) == CanonStep(env, steps[i]) {
      assert LegacyStepOk(env, steps[i]);
      SupportedTrimmed(TextAt(steps[i].fields, "action"));
      StepFixpoint(env, steps[i]);
    }
    assert At(CanonLegacy(env, g), "steps").items == At(g, "steps").items;
  }

  lemma LegacyAccepted(env: Env, f: Fields)
    requires UpperLaws(env.upper) && LegacyOk(env, f)
    ensures LegacyOk(env, CanonLegacy(env, f)) <==> MethodsPresent(f)
  {
    var g := CanonLegacy(env, f);
    var steps := At(f, "steps").items;
    LegacyImage(env, f);
    HeaderAccepted(f, g);
    forall i | 0 <= i < |steps|
      ensures LegacyStepOk(env, At(g, "steps").items[i]) <==> StepMethodsPresent(steps[i])
    {
      assert LegacyStepOk(env, steps[i]);
      StepAccepted(env, steps[i]);
    }
    if LegacyOk(env, g) {
      forall i | 0 <= i < |steps| ensures StepMethodsPresent(steps[i]) {
        assert LegacyStepOk(env, At(g, "steps").items[i]);
      }
    }
  }

  lemma ResearchCaseImage(env: Env, f: Fields)
    ensures var g := CanonResearch(env, f); var steps := AsArray(At(f, "steps"));
            && HeaderImage(f, g) && At(g, "steps").Array? && |At(g, "steps").items| == |steps|
            && (forall i :: 0 <= i < |steps| ==> At(g, "steps").items[i] == CanonResearchStep(env, steps[i]))
            && "profile" in g && g["profile"] == String("research-v1")
            && OnlyFields(g, {"profile", "name", "description", "base_url", "input_contract", "output_contract", "steps"})
  {
    HeaderKeys(f);
  }

  lemma ResearchFixpoint(env: Env, f: Fields, phase: Phase)
    requires UpperLaws(env.upper) && ResearchOk(env, f, phase)
    ensures CanonResearch(env, CanonResearch(env, f)) == CanonResearch(env, f)
  {
    var g := CanonResearch(env, f);
    var steps := At(f, "steps").items;
    ResearchCaseImage(env, f);
    HeaderFixpoint(f, g);
    forall i | 0 <= i < |steps|
      ensures CanonResearchStep(env, CanonResearchStep(env, steps[i])) == CanonResearchStep(env, steps[i])
    {
      assert ResearchStepOk(env, steps[i], phase);
      SupportedTrimmed(TextAt(steps[i].fields, "action"));
      ResearchStepFixpoint(env, steps[i]);
    }
    assert At(CanonResearch(env, g), "steps").items == At(g, "steps").items;
  }

  lemma ResearchAccepted(env: Env, f: Fields, phase: Phase)
    requires UpperLaws(env.upper) && ResearchOk(env, f, phase)
    ensures ResearchOk(env, CanonResearch(env, f), phase) <==> MethodsPresent(f)
  {
    var g := CanonResearch(env, f);
    var steps := At(f, "steps").items;
    ResearchCaseImage(env, f);
    HeaderAccepted(f, g);
    forall i | 0 <= i < |steps|
      ensures ResearchStepOk(env, At(g, "steps").items[i], phase) <==> StepMethodsPresent(steps[i])
    {
      assert ResearchStepOk(env, steps[i], phase);
      ResearchStepAccepted(env, steps[i], phase);
    }
    if ResearchOk(env, g, phase) {
      forall i | 0 <= i < |steps| ensures StepMethodsPresent(steps[i]) {
        assert ResearchStepOk(env, At(g, "steps").items[i], phase);
      }
    }
  }
}
