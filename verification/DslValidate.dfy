/** Validation of a whole case under its profile, and what happens when the canonical
    result is validated again (internal/dsl/action_ir.go, validateCase). */
module DslValidate {
  import opened Wrappers
  import opened Json
  import opened Text
  import opened DslCase
  import opened DslFixpoint
  import ResearchV2
  import DslMeaning

  datatype Profile = LegacyV1 | ResearchOne | ResearchTwo

  /** `candidate` decodes a locator candidate from its JSON. */
  datatype Lib = Lib(env: Env, candidate: ResearchV2.Decoder)

  /** `fields` is the canonical case, whose JSON encoding is stored and hashed. */
  datatype Validated = Validated(fields: Fields, baseURL: string, profile: Profile, version: string)

  function ProfileNamed(name: string): Option<Profile> {
    if name == "legacy-v1" then Some(LegacyV1)
    else if name == "research-v1" then Some(ResearchOne)
    else if name == "research-v2" then Some(ResearchTwo)
    else None
  }

  /** caseProfile: a case without a profile is legacy. */
  function ProfileOf(f: Fields): Option<Profile> {
    if "profile" !in f then Some(LegacyV1)
    else if !f["profile"].String? then None
    else ProfileNamed(TrimAt(f, "profile"))
  }

  function Profiled(f: Fields, profile: Profile): Fields {
    match profile
    case LegacyV1 => f - {"profile"}
    case ResearchOne => f["profile" := String("research-v1")]
    case ResearchTwo => f["profile" := String("research-v2")]
  }

  function Version(profile: Profile): string {
    match profile
    case LegacyV1 => "dsl.canonical.v1"
    case ResearchOne => "dsl.canonical.v2"
    case ResearchTwo => "dsl.canonical.v3"
  }

  predicate Accepts(lib: Lib, profile: Profile, f: Fields, phase: Phase) {
    match profile
    case LegacyV1 => LegacyOk(lib.env, f)
    case ResearchOne => ResearchOk(lib.env, f, phase)
    case ResearchTwo => ResearchV2.V2Ok(lib.candidate, f, phase)
  }

  function Canonical(lib: Lib, profile: Profile, f: Fields): Fields {
    match profile
    case LegacyV1 => CanonLegacy(lib.env, f)
    case ResearchOne => CanonResearch(lib.env, f)
    case ResearchTwo => ResearchV2.CanonV2(f)
  }

  function Validate(lib: Lib, v: Value, phase: Phase): Option<Validated> {
    if !v.Object? || ProfileOf(v.fields).None? then None
    else
      var profile := ProfileOf(v.fields).value;
      var f := Profiled(v.fields, profile);
      if !Accepts(lib, profile, f, phase) then None
      else
        var canonical := Canonical(lib, profile, f);
        Some(Validated(canonical, TextAt(canonical, "base_url"), profile, Version(profile)))
  }

  /** The guard of the one branch that breaks the round trip: research-v2 keeps its
      conditions as they are, the other profiles uppercase an explicit null method to "". */
  predicate Restorable(profile: Profile, f: Fields) { profile.ResearchTwo? || MethodsPresent(f) }

  lemma TrimWord(s: string)
    requires s != [] && !IsSpace(s[0]) && !IsSpace(s[|s| - 1])
    ensures TrimSpace(s) == s
  {
    Trim(s);
  }

  /** The field already names the profile. */
  predicate Named(g: Fields, profile: Profile) {
    match profile
    case LegacyV1 => "profile" !in g
    case ResearchOne => "profile" in g && g["profile"] == String("research-v1")
    case ResearchTwo => "profile" in g && g["profile"] == String("research-v2")
  }

  lemma NamedProfile(g: Fields, profile: Profile)
    requires Named(g, profile)
    ensures ProfileOf(g) == Some(profile) && Profiled(g, profile) == g
  {
    TrimWord("research-v1");
    TrimWord("research-v2");
  }

  lemma CanonicalNamed(lib: Lib, profile: Profile, f: Fields, phase: Phase)
    requires Accepts(lib, profile, f, phase)
    ensures Named(Canonical(lib, profile, f), profile)
  {
    match profile
    case LegacyV1 => LegacyImage(lib.env, f);
    case ResearchOne => ResearchCaseImage(lib.env, f);
    case ResearchTwo => V2Named(f);
  }

  lemma V2Named(f: Fields)
    requires At(f, "profile") == String("research-v2")
    ensures Named(ResearchV2.CanonV2(f), ResearchTwo)
  {
    ResearchV2.CanonV2Keys(f);
    assert "profile" !in {"name", "steps", "input_contract", "output_contract"};
  }

  /** Canonicalising twice is canonicalising once, for every accepted case. */
  lemma CanonicalFixpoint(lib: Lib, profile: Profile, f: Fields, phase: Phase)
    requires UpperLaws(lib.env.upper) && Accepts(lib, profile, f, phase)
    ensures Canonical(lib, profile, Canonical(lib, profile, f)) == Canonical(lib, profile, f)
  {
    match profile
    case LegacyV1 => LegacyFixpoint(lib.env, f);
    case ResearchOne => ResearchFixpoint(lib.env, f, phase);
    case ResearchTwo => ResearchV2.V2Canonical(lib.candidate, f, phase);
  }

  lemma CanonicalAccepted(lib: Lib, profile: Profile, f: Fields, phase: Phase)
    requires UpperLaws(lib.env.upper) && Accepts(lib, profile, f, phase)
    ensures Accepts(lib, profile, Canonical(lib, profile, f), phase) <==> Restorable(profile, f)
  {
    match profile
    case LegacyV1 => LegacyAccepted(lib.env, f);
    case ResearchOne => ResearchAccepted(lib.env, f, phase);
    case ResearchTwo => ResearchV2.V2Canonical(lib.candidate, f, phase);
  }

  lemma ProfiledMethods(f: Fields, profile: Profile)
    ensures MethodsPresent(Profiled(f, profile)) == MethodsPresent(f)
  {
    assert At(Profiled(f, profile), "steps") == At(f, "steps");
  }

  /** Validating a canonical case again gives the very same result (fields, base URL,
      profile and version), exactly when no condition of the original case has an
      explicit null method; otherwise the canonical case is rejected. */
  lemma ValidateAgain(lib: Lib, v: Value, phase: Phase)
    requires UpperLaws(lib.env.upper) && Validate(lib, v, phase).Some?
    ensures var r := Validate(lib, v, phase);
            Validate(lib, Object(r.value.fields), phase)
              == if Restorable(r.value.profile, v.fields) then r else None
  {
    var profile := ProfileOf(v.fields).value;
    var f := Profiled(v.fields, profile);
    CanonicalNamed(lib, profile, f, phase);
    NamedProfile(Canonical(lib, profile, f), profile);
    CanonicalFixpoint(lib, profile, f, phase);
    CanonicalAccepted(lib, profile, f, phase);
    ProfiledMethods(v.fields, profile);
  }

  // --- What validation returns --------------------------------------------------------

  /** The profile a case names, the format version of that profile, and a canonical case
      that says what the author wrote. */
  predicate Returns(lib: Lib, f: Fields, r: Validated) {
    && r.baseURL == AsText(At(r.fields, "base_url"))
    && if "profile" !in f || At(f, "profile") == String("legacy-v1") || DslMeaning.Said(f, "profile") == "legacy-v1" then
         && r.profile.LegacyV1? && r.version == "dsl.canonical.v1"
         && DslMeaning.LegacyMeans(lib.env, f - {"profile"}, r.fields)
       else if DslMeaning.Said(f, "profile") == "research-v1" then
         && r.profile.ResearchOne? && r.version == "dsl.canonical.v2"
         && DslMeaning.ResearchMeans(lib.env, f["profile" := String("research-v1")], r.fields)
       else
         && DslMeaning.Said(f, "profile") == "research-v2"
         && r.profile.ResearchTwo? && r.version == "dsl.canonical.v3"
         && DslMeaning.V2Means(f["profile" := String("research-v2")], r.fields)
  }

  /** For every case validation accepts, of any profile and in either phase. */
  lemma ValidateMeans(lib: Lib, v: Value, phase: Phase)
    requires Validate(lib, v, phase).Some?
    ensures Returns(lib, v.fields, Validate(lib, v, phase).value)
  {
    var profile := ProfileOf(v.fields).value;
    var f := Profiled(v.fields, profile);
    TrimWord("legacy-v1");
    match profile
    case LegacyV1 => DslMeaning.LegacyKept(lib.env, f);
    case ResearchOne => DslMeaning.ResearchKept(lib.env, f, phase);
    case ResearchTwo => DslMeaning.V2Kept(lib.candidate, f, phase);
  }

  // --- The counterexample -----------------------------------------------------------

  function NullMethodCase(): Fields {
    map["name" := String("n"),
        "steps" := Array([Object(NullMethodStep())])]
  }

  function NullMethodCondition(): Value {
    Object(map["type" := String("dom_changed"), "method" := Null])
  }

  function NullMethodStep(): Fields {
    map["action" := String("click"), "target" := String("t"), "postconditions" := Array([NullMethodCondition()])]
  }

  lemma NullMethodConditionOk()
    ensures ConditionOk(NullMethodCondition()) && NullMethod(NullMethodCondition())
  {
    TrimWord("dom_changed");
  }

  lemma NullMethodStepOk(env: Env)
    ensures LegacyStepOk(env, Object(NullMethodStep())) && !StepMethodsPresent(Object(NullMethodStep()))
  {
    var f := NullMethodStep();
    NullMethodConditionOk();
    TrimWord("t");
    assert At(f, "postconditions") == Array([NullMethodCondition()]);
    assert At(f, "preconditions") == Null && At(f, "candidates") == Null;
    assert NullMethod(AsArray(At(f, "postconditions"))[0]);
    StepSplit(env, "click", f);
  }

  lemma NullMethodFields()
    ensures var f := NullMethodCase();
            && At(f, "name") == String("n") && At(f, "steps") == Array([Object(NullMethodStep())])
            && At(f, "description") == Null && At(f, "base_url") == Null
            && "input_contract" !in f && "output_contract" !in f && "profile" !in f
  {
  }

  /** One step is all the case has. */
  lemma SingleStep(env: Env, f: Fields, step: Value)
    requires HeaderOk(f) && At(f, "steps") == Array([step])
    ensures LegacyOk(env, f) <==> LegacyStepOk(env, step)
    ensures MethodsPresent(f) <==> StepMethodsPresent(step)
  {
    assert At(f, "steps").items[0] == step;
    assert AsArray(At(f, "steps"))[0] == step;
  }

  lemma NullMethodAccepted(env: Env)
    ensures LegacyOk(env, NullMethodCase()) && !MethodsPresent(NullMethodCase()) && "profile" !in NullMethodCase()
  {
    NullMethodFields();
    TrimWord("n");
    NullMethodStepOk(env);
    assert HeaderOk(NullMethodCase());
    SingleStep(env, NullMethodCase(), Object(NullMethodStep()));
  }

  /** A legacy click whose postcondition has an explicit null method is accepted; its
      canonical form is not. */
  lemma NullMethodBreaks(lib: Lib, phase: Phase)
    requires UpperLaws(lib.env.upper)
    ensures var r := Validate(lib, Object(NullMethodCase()), phase);
            r.Some? && Validate(lib, Object(r.value.fields), phase).None?
  {
    NullMethodAccepted(lib.env);
    NamedProfile(NullMethodCase(), LegacyV1);
    ValidateAgain(lib, Object(NullMethodCase()), phase);
  }
}
