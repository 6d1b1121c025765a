/** The canonical case still says what its author wrote: for every accepted case of each
    profile, field by field and in the words of the case itself. No clause of a `Means`
    predicate names a canonicalisation function or one of its helpers. */
module DslMeaning {
  import opened Wrappers
  import opened Json
  import opened Text
  import opened DslCase
  import DslFixpoint
  import ResearchV2

  // --- Fields -----------------------------------------------------------------------

  /** The text of a field without surrounding white space. */
  function Said(f: Fields, key: string): string { TrimSpace(AsText(At(f, key))) }

  predicate Says(f: Fields, g: Fields, key: string) { key in g && g[key] == String(Said(f, key)) }

  /** As Says, and a field that holds nothing holds nothing afterwards. */
  predicate MaySay(f: Fields, g: Fields, key: string) {
    key in g && g[key] == if At(f, key).Null? then Null else String(Said(f, key))
  }

  /** The value is carried over; a missing field gets the default. */
  predicate Carries(f: Fields, g: Fields, key: string, default: Value) {
    key in g && g[key] == if key in f then f[key] else default
  }

  /** Reading the canonical field gives what reading the original field gave. */
  lemma SameReading(f: Fields, g: Fields, key: string)
    requires Says(f, g, key) || MaySay(f, g, key)
    ensures Said(g, key) == Said(f, key)
  {
    Trim(AsText(At(f, key)));
    Trim("");
  }

  // --- Conditions, candidates, contracts ----------------------------------------------

  predicate UpperOf(env: Env, s: string, t: string) {
    |t| == |s| && forall i :: 0 <= i < |s| ==> t[i] == env.upper(s[i])
  }

  predicate ConditionMeans(env: Env, v: Value, w: Value) {
    && w.Object?
    && var f, g := AsObject(v), w.fields;
    && Says(f, g, "type") && MaySay(f, g, "value") && Carries(f, g, "timeout_ms", Number(3000.0))
    && ("method" in g <==> "method" in f)
    && ("method" in f ==> g["method"].String? && UpperOf(env, Said(f, "method"), g["method"].text))
    && ("status" in g <==> "status" in f) && ("status" in f ==> g["status"] == f["status"])
    && g.Keys <= {"type", "value", "timeout_ms", "method", "status"}
  }

  /** The spellings of a locator strategy and the name each goes by. */
  predicate Renamed(s: string, t: string) {
    && (s == "css_selector" || s == "href" ==> t == "css")
    && (s == "data_testid" ==> t == "data-testid")
    && (s == "elementId" || s == "id" ==> t == "element_id")
    && (s == "link" || s == "button" || s == "aria" ==> t == "role")
    && (s == "name" ==> t == "tag")
    && (s !in {"css_selector", "href", "data_testid", "elementId", "id", "link", "button", "aria", "name"} ==> t == s)
  }

  predicate CandidateMeans(v: Value, w: Value) {
    && w.Object?
    && var f, g := AsObject(v), w.fields;
    && "strategy" in g && g["strategy"].String? && Renamed(Said(f, "strategy"), g["strategy"].text)
    && MaySay(f, g, "selector") && MaySay(f, g, "semantic_value")
    && "pre_score" in g && g["pre_score"] == At(f, "pre_score") && Carries(f, g, "pre_features", Null)
    && g.Keys == {"strategy", "selector", "semantic_value", "pre_score", "pre_features"}
  }

  predicate ContractMeans(input: bool, v: Value, w: Value) {
    && w.Object?
    && var f, g := AsObject(v), w.fields;
    && Says(f, g, "name") && Says(f, g, "context_key") && Says(f, g, "value_type") && MaySay(f, g, "description")
    && if input then
         && Carries(f, g, "required", Bool(true)) && MaySay(f, g, "value")
         && g.Keys == {"name", "context_key", "value_type", "description", "required", "value"}
       else MaySay(f, g, "source") && g.Keys == {"name", "context_key", "value_type", "description", "source"}
  }

  predicate ConditionsMean(env: Env, v: Value, w: Value) {
    && w.Array? && |w.items| == |AsArray(v)|
    && forall i :: 0 <= i < |w.items| ==> ConditionMeans(env, AsArray(v)[i], w.items[i])
  }

  predicate CandidatesMean(v: Value, w: Value) {
    && w.Array? && |w.items| == |AsArray(v)|
    && forall i :: 0 <= i < |w.items| ==> CandidateMeans(AsArray(v)[i], w.items[i])
  }

  predicate ContractsMean(input: bool, v: Value, w: Value) {
    && w.Array? && |w.items| == |AsArray(v)|
    && forall i :: 0 <= i < |w.items| ==> ContractMeans(input, AsArray(v)[i], w.items[i])
  }

  lemma ConditionKept(env: Env, v: Value)
    ensures ConditionMeans(env, v, CanonCondition(env, v))
  {
  }

  lemma CandidateKept(v: Value)
    ensures CandidateMeans(v, CanonCandidate(v))
  {
    StrategyRenamed(Said(AsObject(v), "strategy"));
  }

  lemma StrategyRenamed(s: string)
    ensures Renamed(s, CanonStrategy(s))
  {
  }

  lemma ContractKept(input: bool, v: Value)
    ensures ContractMeans(input, v, CanonContract(input, v))
  {
  }

  lemma ListsKept(env: Env, v: Value)
    ensures ConditionsMean(env, v, CanonConditions(env, v)) && CandidatesMean(v, CanonCandidates(v))
    ensures forall input :: ContractsMean(input, v, CanonContracts(input, v))
  {
    forall i | 0 <= i < |AsArray(v)|
      ensures ConditionMeans(env, AsArray(v)[i], CanonConditions(env, v).items[i])
      ensures CandidateMeans(AsArray(v)[i], CanonCandidates(v).items[i])
      ensures forall input :: ContractMeans(input, AsArray(v)[i], CanonContracts(input, v).items[i])
    {
      ConditionKept(env, AsArray(v)[i]);
      CandidateKept(AsArray(v)[i]);
      ContractKept(true, AsArray(v)[i]);
      ContractKept(false, AsArray(v)[i]);
    }
  }

  // --- Legacy steps -------------------------------------------------------------------

  /** The fields an action brings along, besides locator and conditions. */
  predicate OwnMeans(f: Fields, g: Fields) {
    var action := Said(f, "action");
    && Says(f, g, "action")
    && (action in {"goto", "assert_url_contains", "assert_text", "input"} ==> Says(f, g, "value"))
    && (action in {"click", "wait_for", "assert_text", "capture_text", "input"} ==> Says(f, g, "target"))
    && (action == "wait_for" ==> Carries(f, g, "timeout_ms", Number(5000.0)))
    && (action == "capture_text" ==> Says(f, g, "context_key"))
    && (action == "input" ==> MaySay(f, g, "trigger"))
  }

  /** A canonical step has none of these fields unless its action has them. */
  predicate NothingElse(f: Fields, g: Fields) {
    var action := Said(f, "action");
    && ("value" in g ==> action in {"goto", "assert_url_contains", "assert_text", "input"})
    && ("timeout_ms" in g ==> action == "wait_for")
    && ("context_key" in g ==> action == "capture_text")
    && ("trigger" in g ==> action == "input")
  }

  predicate PresentConditions(env: Env, f: Fields, g: Fields, key: string) {
    && (key in g <==> key in f) && (key in f ==> ConditionsMean(env, f[key], g[key]))
  }

  predicate LocatorMeans(f: Fields, g: Fields) {
    && MaySay(f, g, "page_state") && MaySay(f, g, "target_strategy") && MaySay(f, g, "locator_confidence")
    && "candidates" in g && CandidatesMean(At(f, "candidates"), g["candidates"])
  }

  predicate NavigationAction(action: string) { action == "goto" || action == "assert_url_contains" }

  predicate TargetAction(action: string) {
    action in {"click", "wait_for", "assert_text", "capture_text", "input"}
  }

  predicate StepMeans(env: Env, v: Value, w: Value) {
    && w.Object?
    && var f, g := AsObject(v), w.fields;
    && OwnMeans(f, g) && NothingElse(f, g) && PresentConditions(env, f, g, "preconditions")
    && (NavigationAction(Said(f, "action")) ==> PresentConditions(env, f, g, "postconditions"))
    && (TargetAction(Said(f, "action")) ==>
          && LocatorMeans(f, g)
          && "postconditions" in g && ConditionsMean(env, At(f, "postconditions"), g["postconditions"]))
  }

  lemma OwnKept(f: Fields)
    requires NavigationAction(Said(f, "action")) || TargetAction(Said(f, "action"))
    ensures OwnMeans(f, OwnFields(Said(f, "action"), f)) && NothingElse(f, OwnFields(Said(f, "action"), f))
    ensures forall key :: key in OwnFields(Said(f, "action"), f) ==>
              key in {"action", "value", "target", "timeout_ms", "context_key", "trigger"}
  {
  }

  /** The own fields survive whatever else is written beside them. */
  lemma OwnCarried(f: Fields, own: Fields, g: Fields)
    requires OwnMeans(f, own) && NothingElse(f, own)
    requires forall key :: key in own ==> key in g && g[key] == own[key]
    requires forall key :: key in {"value", "timeout_ms", "context_key", "trigger"} && key in g ==> key in own
    ensures OwnMeans(f, g) && NothingElse(f, g)
  {
    assert Says(f, own, "action");
  }

  lemma LocatorWritten(env: Env, base: Fields, f: Fields)
    requires "preconditions" !in base
    ensures var g := WithLocatorDefaults(env, base, f);
            && LocatorMeans(f, g) && PresentConditions(env, f, g, "preconditions")
            && "postconditions" in g && ConditionsMean(env, At(f, "postconditions"), g["postconditions"])
  {
    ListsKept(env, At(f, "candidates"));
    ListsKept(env, At(f, "preconditions"));
    ListsKept(env, At(f, "postconditions"));
  }

  lemma LocatorBeside(env: Env, base: Fields, f: Fields)
    requires forall key :: key in base ==> key in {"action", "value", "target", "timeout_ms", "context_key", "trigger"}
    ensures forall key :: key in base ==>
              key in WithLocatorDefaults(env, base, f) && WithLocatorDefaults(env, base, f)[key] == base[key]
    ensures forall key :: key in {"value", "timeout_ms", "context_key", "trigger"} ==>
              key in WithLocatorDefaults(env, base, f) ==> key in base
  {
  }

  lemma NavigationWritten(env: Env, base: Fields, f: Fields)
    requires forall key :: key in base ==> key in {"action", "value", "target", "timeout_ms", "context_key", "trigger"}
    ensures var g := WithConditions(env, WithConditions(env, base, f, "preconditions"), f, "postconditions");
            && PresentConditions(env, f, g, "preconditions") && PresentConditions(env, f, g, "postconditions")
            && (forall key :: key in base ==> key in g && g[key] == base[key])
            && forall key :: key in {"value", "timeout_ms", "context_key", "trigger"} && key in g ==> key in base
  {
    ListsKept(env, At(f, "preconditions"));
    ListsKept(env, At(f, "postconditions"));
  }

  /** The canonical legacy step means what the step means. */
  lemma StepKept(env: Env, v: Value)
    requires LegacyStepOk(env, v)
    ensures StepMeans(env, v, CanonStep(env, v))
  {
    var f := v.fields;
    var action := Said(f, "action");
    ActionKnown(f);
    var own := OwnFields(action, f);
    var g := CanonStep(env, v).fields;
    OwnKept(f);
    if TargetAction(action) {
      LocatorWritten(env, own, f);
      LocatorBeside(env, own, f);
    } else {
      NavigationWritten(env, own, f);
    }
    OwnCarried(f, own, g);
  }

  lemma ActionKnown(f: Fields)
    requires Supported(TextAt(f, "action"))
    ensures Said(f, "action") == TextAt(f, "action")
    ensures NavigationAction(Said(f, "action")) != TargetAction(Said(f, "action"))
  {
    DslFixpoint.SupportedTrimmed(TextAt(f, "action"));
  }

  // --- Research-v1 steps --------------------------------------------------------------

  predicate ResearchStepMeans(env: Env, v: Value, w: Value) {
    && w.Object?
    && var f, g := AsObject(v), w.fields;
    && OwnMeans(f, g) && NothingElse(f, g) && Says(f, g, "target")
    && Says(f, g, "intent") && Says(f, g, "idempotency") && Says(f, g, "side_effect")
    && "preconditions" in g && ConditionsMean(env, At(f, "preconditions"), g["preconditions"])
    && "postconditions" in g && ConditionsMean(env, At(f, "postconditions"), g["postconditions"])
    && (TargetAction(Said(f, "action")) ==> ResearchLocatorMeans(f, g))
  }

  predicate ResearchLocatorMeans(f: Fields, g: Fields) {
    && MaySay(f, g, "page_state") && MaySay(f, g, "target_strategy")
    && ("locator_confidence" in g <==> "locator_confidence" in f)
    && ("locator_confidence" in f ==> MaySay(f, g, "locator_confidence"))
    && ("candidates" in g <==> "candidates" in f) && ("candidates" in f ==> CandidatesMean(f["candidates"], g["candidates"]))
  }

  /** The fields of every research step, whatever its action. */
  predicate MetaMeans(env: Env, f: Fields, g: Fields) {
    && Says(f, g, "intent") && Says(f, g, "idempotency") && Says(f, g, "side_effect")
    && "preconditions" in g && ConditionsMean(env, At(f, "preconditions"), g["preconditions"])
    && "postconditions" in g && ConditionsMean(env, At(f, "postconditions"), g["postconditions"])
  }

  lemma MetaWritten(env: Env, f: Fields)
    ensures MetaMeans(env, f, ResearchMeta(env, f)) && ResearchMeta(env, f).Keys == DslFixpoint.META_FIELDS
  {
    DslFixpoint.ResearchMetaKeys(env, f);
    ListsKept(env, At(f, "preconditions"));
    ListsKept(env, At(f, "postconditions"));
  }

  /** `g` holds every field of `f`, unchanged. */
  ghost predicate Holds(f: Fields, g: Fields) { forall key :: key in f ==> key in g && g[key] == f[key] }

  lemma MetaCarried(env: Env, f: Fields, meta: Fields, g: Fields)
    requires MetaMeans(env, f, meta) && Holds(meta, g)
    ensures MetaMeans(env, f, g)
  {
  }

  lemma ResearchOwnKept(f: Fields)
    requires NavigationAction(Said(f, "action")) || TargetAction(Said(f, "action"))
    ensures var own := ResearchOwnFields(Said(f, "action"), f);
            && OwnMeans(f, own) && NothingElse(f, own) && Says(f, own, "target")
            && forall key :: key in own ==> key in {"action", "value", "target", "timeout_ms", "context_key", "trigger"}
  {
    OwnKept(f);
  }

  lemma ResearchLocatorWritten(env: Env, base: Fields, f: Fields)
    requires "candidates" !in base && "locator_confidence" !in base && "page_state" !in base
    requires "target_strategy" !in base
    ensures ResearchLocatorMeans(f, WithResearchLocator(base, f)) && Holds(base, WithResearchLocator(base, f))
    ensures forall key :: key in {"value", "timeout_ms", "context_key", "trigger"} ==>
              key in WithResearchLocator(base, f) ==> key in base
  {
    ListsKept(env, At(f, "candidates"));
  }

  lemma Merged(meta: Fields, own: Fields)
    requires meta.Keys == DslFixpoint.META_FIELDS
    requires forall key :: key in own ==> key in {"action", "value", "target", "timeout_ms", "context_key", "trigger"}
    ensures Holds(meta, meta + own) && Holds(own, meta + own)
    ensures forall key :: key in {"value", "timeout_ms", "context_key", "trigger"} && key in meta + own ==> key in own
    ensures "candidates" !in meta + own && "locator_confidence" !in meta + own && "page_state" !in meta + own
    ensures "target_strategy" !in meta + own
  {
  }

  lemma BaseWritten(env: Env, f: Fields)
    requires NavigationAction(Said(f, "action")) || TargetAction(Said(f, "action"))
    ensures var base := ResearchMeta(env, f) + ResearchOwnFields(Said(f, "action"), f);
            && MetaMeans(env, f, base) && OwnMeans(f, base) && NothingElse(f, base) && Says(f, base, "target")
            && "candidates" !in base && "locator_confidence" !in base && "page_state" !in base
            && "target_strategy" !in base
  {
    var meta, own := ResearchMeta(env, f), ResearchOwnFields(Said(f, "action"), f);
    MetaWritten(env, f);
    ResearchOwnKept(f);
    Merged(meta, own);
    BaseCarried(env, f, meta, own, meta + own);
  }

  lemma BaseCarried(env: Env, f: Fields, meta: Fields, own: Fields, base: Fields)
    requires MetaMeans(env, f, meta) && OwnMeans(f, own) && NothingElse(f, own) && Says(f, own, "target")
    requires Holds(meta, base) && Holds(own, base)
    requires forall key :: key in {"value", "timeout_ms", "context_key", "trigger"} && key in base ==> key in own
    ensures MetaMeans(env, f, base) && OwnMeans(f, base) && NothingElse(f, base) && Says(f, base, "target")
  {
    MetaCarried(env, f, meta, base);
    OwnCarried(f, own, base);
  }

  /** The canonical research-v1 step means what the step means. */
  lemma ResearchStepKept(env: Env, v: Value, phase: Phase)
    requires ResearchStepOk(env, v, phase)
    ensures ResearchStepMeans(env, v, CanonResearchStep(env, v))
  {
    var f := v.fields;
    var action := Said(f, "action");
    ActionKnown(f);
    var base := ResearchMeta(env, f) + ResearchOwnFields(action, f);
    var g := CanonResearchStep(env, v).fields;
    BaseWritten(env, f);
    if TargetAction(action) {
      ResearchLocatorWritten(env, base, f);
      OwnCarried(f, base, g);
      MetaCarried(env, f, base, g);
    }
  }

  // --- Research-v2 steps --------------------------------------------------------------

  /** Everything is kept; a missing timeout of a wait or of a condition is filled in. */
  predicate V2StepMeans(v: Value, w: Value) {
    && v.Object? && w.Object?
    && var f, g := v.fields, w.fields;
    && V2ConditionsMean(f, g, "preconditions") && V2ConditionsMean(f, g, "postconditions")
    && (AsText(At(f, "action")) == "wait_for" ==> Carries(f, g, "timeout_ms", Number(5000.0)))
    && (AsText(At(f, "action")) != "wait_for" ==>
          ("timeout_ms" in g <==> "timeout_ms" in f) && At(g, "timeout_ms") == At(f, "timeout_ms"))
    && g.Keys + {"timeout_ms"} == f.Keys + {"timeout_ms"}
    && forall key :: key in f && key !in {"preconditions", "postconditions", "timeout_ms"} ==> key in g && g[key] == f[key]
  }

  predicate V2ConditionsMean(f: Fields, g: Fields, key: string) {
    && At(f, key).Array? && At(g, key).Array? && |At(g, key).items| == |At(f, key).items|
    && forall i :: 0 <= i < |At(f, key).items| ==> V2ConditionMeans(At(f, key).items[i], At(g, key).items[i])
  }

  predicate V2ConditionMeans(v: Value, w: Value) {
    && v.Object? && w.Object? && Carries(v.fields, w.fields, "timeout_ms", Number(3000.0))
    && w.fields.Keys == v.fields.Keys + {"timeout_ms"}
    && forall key :: key in v.fields ==> key in w.fields && w.fields[key] == v.fields[key]
  }

  lemma V2ListKept(v: Value, w: Value, f: Fields, g: Fields, key: string)
    requires At(f, key) == v && At(g, key) == w && ResearchV2.V2ConditionsOk(v)
    requires ResearchV2.MaterializedItems(v, w)
    ensures V2ConditionsMean(f, g, key)
  {
    forall i | 0 <= i < |v.items| ensures V2ConditionMeans(v.items[i], w.items[i]) {
      assert ConditionOk(v.items[i]);
      assert w.items[i] == ResearchV2.MaterializedCondition(v.items[i]);
    }
  }

  lemma V2StepKept(decode: ResearchV2.Decoder, v: Value, phase: Phase)
    requires ResearchV2.V2StepOk(decode, v, phase)
    ensures V2StepMeans(v, ResearchV2.Materialized(v))
  {
    var f := v.fields;
    ResearchV2.MaterializedKeys(v);
    ResearchV2.MaterializedLists(v);
    var g := ResearchV2.Materialized(v).fields;
    V2ListKept(At(f, "preconditions"), At(g, "preconditions"), f, g, "preconditions");
    V2ListKept(At(f, "postconditions"), At(g, "postconditions"), f, g, "postconditions");
    V2TimeoutKept(v);
    V2OthersKept(v);
  }

  lemma V2TimeoutKept(v: Value)
    requires v.Object?
    ensures ResearchV2.Materialized(v).Object?
    ensures var f, g := v.fields, ResearchV2.Materialized(v).fields;
            && (AsText(At(f, "action")) == "wait_for" ==> Carries(f, g, "timeout_ms", Number(5000.0)))
            && (AsText(At(f, "action")) != "wait_for" ==>
                  ("timeout_ms" in g <==> "timeout_ms" in f) && At(g, "timeout_ms") == At(f, "timeout_ms"))
  {
  }

  lemma V2OthersKept(v: Value)
    requires v.Object?
    ensures ResearchV2.Materialized(v).Object?
    ensures var f, g := v.fields, ResearchV2.Materialized(v).fields;
            && g.Keys + {"timeout_ms"} == f.Keys + {"timeout_ms"}
            && forall key :: key in f && key !in {"preconditions", "postconditions", "timeout_ms"} ==>
                 key in g && g[key] == f[key]
  {
  }

  // --- Whole cases --------------------------------------------------------------------

  predicate HeaderMeans(f: Fields, g: Fields) {
    && Says(f, g, "name") && MaySay(f, g, "description") && MaySay(f, g, "base_url")
    && "input_contract" in g && ContractsMean(true, At(f, "input_contract"), g["input_contract"])
    && "output_contract" in g && ContractsMean(false, At(f, "output_contract"), g["output_contract"])
  }

  predicate LegacyMeans(env: Env, f: Fields, g: Fields) {
    && HeaderMeans(f, g)
    && g.Keys == {"name", "description", "base_url", "input_contract", "output_contract", "steps"}
    && g["steps"].Array? && |g["steps"].items| == |AsArray(At(f, "steps"))|
    && forall i :: 0 <= i < |g["steps"].items| ==> StepMeans(env, AsArray(At(f, "steps"))[i], g["steps"].items[i])
  }

  predicate ResearchMeans(env: Env, f: Fields, g: Fields) {
    && HeaderMeans(f, g)
    && g.Keys == {"profile", "name", "description", "base_url", "input_contract", "output_contract", "steps"}
    && g["profile"] == String("research-v1")
    && g["steps"].Array? && |g["steps"].items| == |AsArray(At(f, "steps"))|
    && forall i :: 0 <= i < |g["steps"].items| ==>
         ResearchStepMeans(env, AsArray(At(f, "steps"))[i], g["steps"].items[i])
  }

  predicate V2Means(f: Fields, g: Fields) {
    && Says(f, g, "name") && Carries(f, g, "input_contract", Array([])) && Carries(f, g, "output_contract", Array([]))
    && "steps" in g && g["steps"].Array? && |g["steps"].items| == |AsArray(At(f, "steps"))|
    && (forall i :: 0 <= i < |g["steps"].items| ==> V2StepMeans(AsArray(At(f, "steps"))[i], g["steps"].items[i]))
    && g.Keys == f.Keys + {"name", "input_contract", "output_contract", "steps"}
    && forall key :: key in f && key !in {"name", "input_contract", "output_contract", "steps"} ==> g[key] == f[key]
  }

  lemma HeaderKept(env: Env, f: Fields)
    ensures HeaderMeans(f, CanonHeader(f))
    ensures CanonHeader(f).Keys == {"name", "description", "base_url", "input_contract", "output_contract"}
  {
    ListsKept(env, At(f, "input_contract"));
    ListsKept(env, At(f, "output_contract"));
  }

  lemma HeaderCarried(f: Fields, header: Fields, g: Fields)
    requires HeaderMeans(f, header) && Holds(header, g)
    ensures HeaderMeans(f, g)
  {
  }

  /** Every accepted legacy case means in canonical form what it meant. */
  lemma LegacyKept(env: Env, f: Fields)
    requires LegacyOk(env, f)
    ensures LegacyMeans(env, f, CanonLegacy(env, f))
  {
    var g, steps := CanonLegacy(env, f), At(f, "steps").items;
    HeaderKept(env, f);
    HeaderCarried(f, CanonHeader(f), g);
    forall i | 0 <= i < |steps| ensures StepMeans(env, steps[i], g["steps"].items[i]) {
      assert LegacyStepOk(env, steps[i]);
      StepKept(env, steps[i]);
    }
  }

  lemma ResearchFrame(env: Env, f: Fields)
    ensures var g, steps := CanonResearch(env, f), AsArray(At(f, "steps"));
            && Holds(CanonHeader(f), g)
            && g.Keys == {"profile", "name", "description", "base_url", "input_contract", "output_contract", "steps"}
            && g["profile"] == String("research-v1") && g["steps"].Array? && |g["steps"].items| == |steps|
            && forall i :: 0 <= i < |steps| ==> g["steps"].items[i] == CanonResearchStep(env, steps[i])
  {
    HeaderKept(env, f);
  }

  lemma ResearchStepsKept(env: Env, steps: seq<Value>, phase: Phase)
    requires forall i :: 0 <= i < |steps| ==> ResearchStepOk(env, steps[i], phase)
    ensures forall i :: 0 <= i < |steps| ==> ResearchStepMeans(env, steps[i], CanonResearchStep(env, steps[i]))
  {
    forall i | 0 <= i < |steps| ensures ResearchStepMeans(env, steps[i], CanonResearchStep(env, steps[i])) {
      ResearchStepKept(env, steps[i], phase);
    }
  }

  /** The same for research-v1. */
  lemma ResearchKept(env: Env, f: Fields, phase: Phase)
    requires ResearchOk(env, f, phase)
    ensures ResearchMeans(env, f, CanonResearch(env, f))
  {
    HeaderKept(env, f);
    ResearchFrame(env, f);
    HeaderCarried(f, CanonHeader(f), CanonResearch(env, f));
    ResearchStepsKept(env, At(f, "steps").items, phase);
  }

  /** The same for research-v2, whose canonical form only fills in defaults. */
  lemma V2Kept(decode: ResearchV2.Decoder, f: Fields, phase: Phase)
    requires ResearchV2.V2Ok(decode, f, phase)
    ensures V2Means(f, ResearchV2.CanonV2(f))
  {
    var g, steps := ResearchV2.CanonV2(f), At(f, "steps").items;
    ResearchV2.CanonV2Keys(f);
    forall i | 0 <= i < |steps| ensures V2StepMeans(steps[i], g["steps"].items[i]) {
      assert ResearchV2.V2StepOk(decode, steps[i], phase);
      V2StepKept(decode, steps[i], phase);
    }
    forall key | key in f && key !in {"name", "input_contract", "output_contract", "steps"} ensures g[key] == f[key] {
      assert At(g, key) == At(f, key);
    }
  }
}
