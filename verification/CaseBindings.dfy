/** Created generations and the checks a batch later makes of them (internal/dsl/store.go
    CreateGenerationWithPlan and GetGeneration, internal/execution/store.go
    validateDSLBindings and validatePersistedCaseBindings). */
module CaseBindings {
  import opened Wrappers
  import opened Json
  import opened Text
  import opened DslCase
  import opened DslValidate

  /** JSON text, its SHA-256, and strings.EqualFold. */
  datatype Codec = Codec(
    encode: Value -> string, decode: string -> Option<Value>, sha: string -> string, fold: (string, string) -> bool)

  /** The encoding of `v` is not empty and decodes to `v`; a hash equals itself under folding. */
  predicate RoundTrips(codec: Codec, v: Value) {
    && codec.encode(v) != "" && codec.decode(codec.encode(v)) == Some(v)
    && codec.fold(codec.sha(codec.encode(v)), codec.sha(codec.encode(v)))
  }

  datatype Generation = Generation(json: string, sha: string, version: string, profile: Profile)

  datatype Binding = Binding(json: string, sha: string, version: string)

  function ValidateText(lib: Lib, codec: Codec, raw: string): Option<Validated> {
    var v := codec.decode(raw);
    if v.None? then None else Validate(lib, v.value, Executable)
  }

  function CanonicalText(codec: Codec, r: Validated): string { codec.encode(Object(r.fields)) }

  function CreateGeneration(lib: Lib, codec: Codec, candidate: string): Option<Generation> {
    var r := ValidateText(lib, codec, candidate);
    if r.None? then None
    else
      var json := CanonicalText(codec, r.value);
      Some(Generation(json, codec.sha(json), r.value.version, r.value.profile))
  }

  /** GetGeneration on a stored row: an error, or the re-canonicalised generation. */
  function GetGeneration(lib: Lib, codec: Codec, stored: Generation): Option<Generation> {
    var r := ValidateText(lib, codec, stored.json);
    if r.None? || r.value.version != stored.version then None
    else
      var json := CanonicalText(codec, r.value);
      if codec.sha(json) != stored.sha then None
      else Some(Generation(json, codec.sha(json), r.value.version, r.value.profile))
  }

  predicate BindingOk(lib: Lib, codec: Codec, b: Binding) {
    && b.json != "" && b.version in {"dsl.canonical.v1", "dsl.canonical.v2", "dsl.canonical.v3"}
    && var r := ValidateText(lib, codec, b.json);
    && r.Some? && r.value.version == b.version && CanonicalText(codec, r.value) == b.json
    && codec.fold(b.sha, codec.sha(b.json))
  }

  predicate PersistedOk(lib: Lib, codec: Codec, raw: string, binding: Option<Binding>) {
    var r := ValidateText(lib, codec, raw);
    && r.Some?
    && match binding
       case None => r.value.profile.LegacyV1?
       case Some(b) => b.version == r.value.version && b.json == CanonicalText(codec, r.value)
  }

  function BindingOf(g: Generation): Binding { Binding(g.json, g.sha, g.version) }

  function BindingFor(bindings: map<int, Binding>, id: int): Option<Binding> {
    if id in bindings then Some(bindings[id]) else None
  }

  predicate BindingsAccepted(lib: Lib, codec: Codec, caseIds: seq<int>, bindings: map<int, Binding>) {
    forall id :: id in bindings ==> id in caseIds && BindingOk(lib, codec, bindings[id])
  }

  // --- What a batch checks, clause by clause ----------------------------------------

  /** The text is the canonical encoding of a valid case, its version is that of the case and
      a known one, and its hash is the text's, in any letter case. */
  predicate TextBound(lib: Lib, codec: Codec, b: Binding) {
    && b.json != "" && codec.decode(b.json).Some? && codec.fold(b.sha, codec.sha(b.json))
    && (b.version == "dsl.canonical.v1" || b.version == "dsl.canonical.v2" || b.version == "dsl.canonical.v3")
    && var r := Validate(lib, codec.decode(b.json).value, Executable);
    && r.Some? && r.value.version == b.version && codec.encode(Object(r.value.fields)) == b.json
  }

  /** The persisted text is a valid case; with a binding, it is the bound case at its version,
      and without one it is a legacy case. */
  predicate CaseBound(lib: Lib, codec: Codec, raw: string, binding: Option<Binding>) {
    && codec.decode(raw).Some?
    && var r := Validate(lib, codec.decode(raw).value, Executable);
    && r.Some?
    && if binding.None? then r.value.profile == LegacyV1
       else binding.value.json == codec.encode(Object(r.value.fields)) && binding.value.version == r.value.version
  }

  lemma BoundIff(lib: Lib, codec: Codec, b: Binding, raw: string, binding: Option<Binding>)
    ensures BindingOk(lib, codec, b) <==> TextBound(lib, codec, b)
    ensures PersistedOk(lib, codec, raw, binding) <==> CaseBound(lib, codec, raw, binding)
  {
  }

  /** Every binding is for a selected case, and its text is bound. */
  predicate AllBound(lib: Lib, codec: Codec, caseIds: seq<int>, bindings: map<int, Binding>) {
    forall id :: id in bindings ==> id in caseIds && TextBound(lib, codec, bindings[id])
  }

  /** Every selected case that is persisted is bound. */
  predicate AllCasesBound(lib: Lib, codec: Codec, caseIds: seq<int>, persisted: map<int, string>,
                          bindings: map<int, Binding>) {
    forall n :: 0 <= n < |caseIds| && caseIds[n] in persisted ==>
      CaseBound(lib, codec, persisted[caseIds[n]], if caseIds[n] in bindings then Some(bindings[caseIds[n]]) else None)
  }

  /** The batch accepts exactly the bindings that are for selected cases and bound. */
  lemma AllBoundIff(lib: Lib, codec: Codec, caseIds: seq<int>, bindings: map<int, Binding>)
    ensures BindingsAccepted(lib, codec, caseIds, bindings) <==> AllBound(lib, codec, caseIds, bindings)
  {
    forall id | id in bindings ensures BindingOk(lib, codec, bindings[id]) <==> TextBound(lib, codec, bindings[id]) {
      BoundIff(lib, codec, bindings[id], "", None);
    }
  }

  /** The batch finds every persisted case bound, or refuses. */
  lemma AllCasesIff(lib: Lib, codec: Codec, caseIds: seq<int>, persisted: map<int, string>, bindings: map<int, Binding>)
    ensures AllCasesBound(lib, codec, caseIds, persisted, bindings) <==>
              forall n :: 0 <= n < |caseIds| && caseIds[n] in persisted ==>
                PersistedOk(lib, codec, persisted[caseIds[n]], BindingFor(bindings, caseIds[n]))
  {
    forall n | 0 <= n < |caseIds| && caseIds[n] in persisted
      ensures PersistedOk(lib, codec, persisted[caseIds[n]], BindingFor(bindings, caseIds[n]))
         <==> CaseBound(lib, codec, persisted[caseIds[n]],
                        if caseIds[n] in bindings then Some(bindings[caseIds[n]]) else None)
    {
      BoundIff(lib, codec, Binding("", "", ""), persisted[caseIds[n]], BindingFor(bindings, caseIds[n]));
    }
  }

  method ValidateDSLBindings(lib: Lib, codec: Codec, caseIds: seq<int>, bindings: map<int, Binding>)
    returns (ok: bool)
    ensures ok <==> BindingsAccepted(lib, codec, caseIds, bindings)
  {
    var selected: set<int> := {};
    for n := 0 to |caseIds|
      invariant forall id :: id in selected <==> id in caseIds[..n]
    {
      selected := selected + {caseIds[n]};
    }
    assert caseIds[..|caseIds|] == caseIds;
    var rest := bindings.Keys;
    while rest != {}
      invariant rest <= bindings.Keys
      invariant forall id :: id in bindings && id !in rest ==> id in caseIds && BindingOk(lib, codec, bindings[id])
      decreases |rest|
    {
      Inhabited(rest);
      var id :| id in rest;
      rest := rest - {id};
      if id !in selected || !BindingOk(lib, codec, bindings[id]) {
        return false;
      }
    }
    ok := true;
  }

  method ValidatePersistedCaseBindings(
    lib: Lib, codec: Codec, caseIds: seq<int>, persisted: map<int, string>, bindings: map<int, Binding>)
    returns (ok: bool)
    ensures ok <==> forall n :: 0 <= n < |caseIds| && caseIds[n] in persisted ==>
                      PersistedOk(lib, codec, persisted[caseIds[n]], BindingFor(bindings, caseIds[n]))
  {
    for index := 0 to |caseIds|
      invariant forall n :: 0 <= n < index && caseIds[n] in persisted ==>
                  PersistedOk(lib, codec, persisted[caseIds[n]], BindingFor(bindings, caseIds[n]))
    {
      var id := caseIds[index];
      if id !in persisted {
        continue;
      }
      if !PersistedOk(lib, codec, persisted[id], BindingFor(bindings, id)) {
        return false;
      }
    }
    ok := true;
  }

  /** A created generation passes the binding check a batch makes, matches the persisted
      case it came from or its own canonical text, and reads back unchanged: exactly when
      the submitted case is restorable. */
  lemma GenerationBinds(lib: Lib, codec: Codec, candidate: string)
    requires UpperLaws(lib.env.upper) && CreateGeneration(lib, codec, candidate).Some?
    requires RoundTrips(codec, Object(ValidateText(lib, codec, candidate).value.fields))
    ensures var g := CreateGeneration(lib, codec, candidate).value;
            var v := codec.decode(candidate).value;
            && (BindingOk(lib, codec, BindingOf(g)) <==> Restorable(g.profile, v.fields))
            && GetGeneration(lib, codec, g) == (if Restorable(g.profile, v.fields) then Some(g) else None)
            && PersistedOk(lib, codec, candidate, Some(BindingOf(g)))
            && (PersistedOk(lib, codec, g.json, Some(BindingOf(g))) <==> Restorable(g.profile, v.fields))
  {
    var v := codec.decode(candidate).value;
    var r := Validate(lib, v, Executable);
    var g := CreateGeneration(lib, codec, candidate).value;
    ValidateAgain(lib, v, Executable);
    assert codec.decode(g.json) == Some(Object(r.value.fields));
    assert ValidateText(lib, codec, g.json) == Validate(lib, Object(r.value.fields), Executable);
  }

  /** The text of a created generation is that of a case that says what the author wrote,
      under its own hash and format version. */
  lemma GenerationMeans(lib: Lib, codec: Codec, candidate: string)
    requires CreateGeneration(lib, codec, candidate).Some?
    requires RoundTrips(codec, Object(ValidateText(lib, codec, candidate).value.fields))
    ensures var g := CreateGeneration(lib, codec, candidate).value; var v := codec.decode(candidate).value;
            && g.sha == codec.sha(g.json) && codec.decode(g.json).Some? && codec.decode(g.json).value.Object? && v.Object?
            && var fields := codec.decode(g.json).value.fields;
            Returns(lib, v.fields, Validated(fields, AsText(At(fields, "base_url")), g.profile, g.version))
  {
    var v := codec.decode(candidate).value;
    ValidateMeans(lib, v, Executable);
    var r := Validate(lib, v, Executable).value;
    assert codec.decode(CanonicalText(codec, r)) == Some(Object(r.fields));
    assert r == Validated(r.fields, AsText(At(r.fields, "base_url")), r.profile, r.version);
  }

  predicate Creatable(lib: Lib, codec: Codec, candidate: string) {
    && CreateGeneration(lib, codec, candidate).Some?
    && RoundTrips(codec, Object(ValidateText(lib, codec, candidate).value.fields))
  }

  function GeneratedBinding(lib: Lib, codec: Codec, candidate: string): Binding
    requires Creatable(lib, codec, candidate)
  {
    BindingOf(CreateGeneration(lib, codec, candidate).value)
  }

  predicate AllCreatable(lib: Lib, codec: Codec, sources: map<int, string>) {
    forall id :: id in sources ==> Creatable(lib, codec, sources[id])
  }

  /** The bindings a client sends for generations created from `sources`. */
  function GeneratedBindings(lib: Lib, codec: Codec, sources: map<int, string>): map<int, Binding>
    requires AllCreatable(lib, codec, sources)
  {
    map id | id in sources :: GeneratedBinding(lib, codec, sources[id])
  }

  predicate RestorableSource(lib: Lib, codec: Codec, candidate: string)
    requires Creatable(lib, codec, candidate)
  {
    Restorable(CreateGeneration(lib, codec, candidate).value.profile, codec.decode(candidate).value.fields)
  }

  lemma SourceBinds(lib: Lib, codec: Codec, candidate: string)
    requires UpperLaws(lib.env.upper) && Creatable(lib, codec, candidate)
    ensures BindingOk(lib, codec, GeneratedBinding(lib, codec, candidate)) <==> RestorableSource(lib, codec, candidate)
  {
    GenerationBinds(lib, codec, candidate);
  }

  /** validateDSLBindings accepts the bindings of created generations for a selection of
      cases exactly when each of them belongs to a selected case and is restorable: a batch
      of its own restorable generations is never refused, and one unrestorable generation
      refuses the whole batch. */
  lemma GenerationsAdmitted(lib: Lib, codec: Codec, caseIds: seq<int>, sources: map<int, string>)
    requires UpperLaws(lib.env.upper) && AllCreatable(lib, codec, sources)
    ensures BindingsAccepted(lib, codec, caseIds, GeneratedBindings(lib, codec, sources)) <==>
              forall id :: id in sources ==> id in caseIds && RestorableSource(lib, codec, sources[id])
  {
    forall id | id in sources
      ensures BindingOk(lib, codec, GeneratedBinding(lib, codec, sources[id]))
         <==> RestorableSource(lib, codec, sources[id])
    {
      SourceBinds(lib, codec, sources[id]);
    }
    GeneratedEach(lib, codec, caseIds, sources);
  }

  lemma GeneratedEach(lib: Lib, codec: Codec, caseIds: seq<int>, sources: map<int, string>)
    requires AllCreatable(lib, codec, sources)
    ensures BindingsAccepted(lib, codec, caseIds, GeneratedBindings(lib, codec, sources)) <==>
              forall id :: id in sources ==>
                id in caseIds && BindingOk(lib, codec, GeneratedBinding(lib, codec, sources[id]))
  {
    var bindings := GeneratedBindings(lib, codec, sources);
    assert bindings.Keys == sources.Keys;
    assert forall id :: id in sources ==> bindings[id] == GeneratedBinding(lib, codec, sources[id]);
  }

  // --- Starting the job -------------------------------------------------------------

  /** validateClaimedJobDSL on the stored text, hash and version of a claimed job; the
      latter two are empty for a job created without a binding. */
  predicate ClaimedJobOk(lib: Lib, codec: Codec, raw: string, sha: string, version: string) {
    && raw != ""
    && var r := ValidateText(lib, codec, raw);
    && r.Some? && (version != "" ==> r.value.version == version)
    && (sha != "" ==> sha == codec.sha(CanonicalText(codec, r.value)))
  }

  /** A claimed job starts exactly when its text is a valid case that has the stored version
      and the stored hash, wherever one is stored. */
  lemma ClaimedJobIff(lib: Lib, codec: Codec, raw: string, sha: string, version: string)
    ensures ClaimedJobOk(lib, codec, raw, sha, version) <==>
              && raw != "" && codec.decode(raw).Some?
              && var r := Validate(lib, codec.decode(raw).value, Executable);
              && r.Some? && (version == "" || version == r.value.version)
              && (sha == "" || sha == codec.sha(codec.encode(Object(r.value.fields))))
  {
  }

  /** A job of an accepted binding starts exactly when its hash is spelled as the hash
      function spells it: batch creation compares hashes with case folding, starting the
      job compares them verbatim. */
  lemma AcceptedBindingStarts(lib: Lib, codec: Codec, b: Binding)
    requires BindingOk(lib, codec, b)
    ensures ClaimedJobOk(lib, codec, b.json, b.sha, b.version) <==> b.sha == "" || b.sha == codec.sha(b.json)
  {
    var r := ValidateText(lib, codec, b.json);
    assert CanonicalText(codec, r.value) == b.json;
  }

  /** The job of a created generation starts exactly when the generation was restorable,
      which is when a batch accepts it; spelling its hash in another case is accepted by
      the batch and stops the job. */
  lemma GenerationStarts(lib: Lib, codec: Codec, candidate: string, spelled: string)
    requires UpperLaws(lib.env.upper) && Creatable(lib, codec, candidate)
    ensures var b := GeneratedBinding(lib, codec, candidate);
            && (ClaimedJobOk(lib, codec, b.json, b.sha, b.version) <==> RestorableSource(lib, codec, candidate))
            && (RestorableSource(lib, codec, candidate) && spelled != "" && spelled != b.sha
                && codec.fold(spelled, b.sha) ==>
                  BindingOk(lib, codec, b.(sha := spelled)) && !ClaimedJobOk(lib, codec, b.json, spelled, b.version))
  {
    var b := GeneratedBinding(lib, codec, candidate);
    SourceBinds(lib, codec, candidate);
    if RestorableSource(lib, codec, candidate) {
      AcceptedBindingStarts(lib, codec, b);
    } else {
      UnrestorableStops(lib, codec, candidate);
    }
  }

  lemma UnrestorableStops(lib: Lib, codec: Codec, candidate: string)
    requires UpperLaws(lib.env.upper) && Creatable(lib, codec, candidate)
    requires !RestorableSource(lib, codec, candidate)
    ensures ValidateText(lib, codec, GeneratedBinding(lib, codec, candidate).json).None?
  {
    var v := codec.decode(candidate).value;
    ValidateAgain(lib, v, Executable);
    var r := Validate(lib, v, Executable);
    assert codec.decode(GeneratedBinding(lib, codec, candidate).json) == Some(Object(r.value.fields));
  }
}
