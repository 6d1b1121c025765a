/** Locators, candidates and target bindings (internal/browsercontract/types.go). */
module BrowserContract {
  import opened Wrappers
  import opened Text

  datatype Locator = Locator(
    kind: string, role: string, name: Option<string>, value: string, exact: bool,
    scope: Option<Locator>, target: Option<Locator>)

  /** A nil Go slice is None: it marshals as null, an empty one as []. */
  datatype ContextPath = ContextPath(frames: Option<seq<string>>, shadowHosts: Option<seq<string>>)

  datatype Candidate = Candidate(
    id: string, elementRef: string, path: ContextPath, locator: Locator, provenance: string,
    observedCount: int, visible: bool, enabled: bool, score: real)

  datatype TargetBinding = TargetBinding(
    schema: string, id: string, planId: string, planVersion: int, planStepId: string, probeId: string,
    semanticTarget: string, action: string, pageStateId: string, observationId: string, observationSha: string,
    elementRefs: seq<string>, candidates: seq<Candidate>, selectedId: string, sha: string)

  const BINDING_VERSION := "grounding.target-binding.v1"

  predicate Blank(s: string) { TrimSpace(s) == "" }

  predicate ValidLocator(s: Locator) {
    if s.kind == "role" then !Blank(s.role) && s.scope.None? && s.target.None? && s.value == ""
    else if s.kind in {"label", "placeholder", "text", "test_id", "css", "xpath"} then
      !Blank(s.value) && s.scope.None? && s.target.None? && s.role == "" && s.name.None?
    else
      && s.kind == "scoped" && s.scope.Some? && s.target.Some?
      && s.scope.value.kind != "scoped" && s.target.value.kind != "scoped"
      && ValidLocator(s.scope.value) && ValidLocator(s.target.value)
  }

  predicate ContainsKind(s: Locator, kind: string) {
    || s.kind == kind
    || (s.scope.Some? && ContainsKind(s.scope.value, kind))
    || (s.target.Some? && ContainsKind(s.target.value, kind))
  }

  /** A valid locator is one kind, or one scope and one target that are not scoped: the
      recursive search of containsKind never goes deeper than one level. */
  lemma {:induction false} LocatorDepth(s: Locator, kind: string)
    requires ValidLocator(s) && kind != "scoped"
    ensures ContainsKind(s, kind) <==>
              s.kind == kind
              || (s.kind == "scoped" && (s.scope.value.kind == kind || s.target.value.kind == kind))
  {
    if s.kind == "scoped" {
      LocatorDepth(s.scope.value, kind);
      LocatorDepth(s.target.value, kind);
    }
  }

  predicate Shadowed(c: Candidate) {
    c.path.shadowHosts.Some? && c.path.shadowHosts.value != [] && ContainsKind(c.locator, "xpath")
  }

  predicate ValidCandidate(c: Candidate) {
    && !Blank(c.id) && !Blank(c.elementRef) && !Blank(c.provenance)
    && 0 <= c.observedCount && 0.0 <= c.score <= 1.0
    && ValidLocator(c.locator) && !Shadowed(c)
  }

  predicate SelectedOk(action: string, c: Candidate) {
    c.observedCount == 1 && c.visible && (action == "click" || action == "input" ==> c.enabled)
  }

  /** `digest` is the hex SHA-256 of the JSON encoding. */
  function Sha(digest: TargetBinding -> string, b: TargetBinding): string { digest(b.(sha := "")) }

  predicate Complete(b: TargetBinding) {
    && b.schema == BINDING_VERSION
    && !Blank(b.id) && !Blank(b.planId) && b.planVersion >= 1 && !Blank(b.planStepId)
    && !Blank(b.semanticTarget) && !Blank(b.action) && !Blank(b.pageStateId) && !Blank(b.observationId)
    && |b.observationSha| == 64 && |b.sha| == 64 && b.elementRefs != [] && b.candidates != []
  }

  predicate RefsOk(refs: seq<string>) {
    && (forall i :: 0 <= i < |refs| ==> !Blank(refs[i]))
    && (forall i, j :: 0 <= i < j < |refs| ==> refs[i] != refs[j])
  }

  predicate Listed(c: Candidate, refs: seq<string>) { ValidCandidate(c) && c.elementRef in refs }

  predicate HasId(candidates: seq<Candidate>, id: string) {
    exists i :: 0 <= i < |candidates| && candidates[i].id == id
  }

  /** Every candidate is valid and names a known element, ids are unique, and the
      selected one is present, unique on the page and usable for the action. */
  predicate CandidatesOk(candidates: seq<Candidate>, refs: seq<string>, action: string, selectedId: string) {
    HasId(candidates, selectedId) && EachOk(candidates, refs, action, selectedId)
  }

  predicate EachOk(candidates: seq<Candidate>, refs: seq<string>, action: string, selectedId: string) {
    forall i :: 0 <= i < |candidates| ==> OneOk(candidates, refs, action, selectedId, i)
  }

  predicate ValidBinding(digest: TargetBinding -> string, b: TargetBinding) {
    && Complete(b) && RefsOk(b.elementRefs)
    && CandidatesOk(b.candidates, b.elementRefs, b.action, b.selectedId)
    && Sha(digest, b) == b.sha
  }

  method ValidateRefs(refs: seq<string>) returns (ok: bool)
    ensures ok == RefsOk(refs)
  {
    var seen: set<string> := {};
    for n := 0 to |refs|
      invariant forall i :: 0 <= i < n ==> refs[i] in seen && !Blank(refs[i])
      invariant forall r :: r in seen ==> exists i :: 0 <= i < n && refs[i] == r
      invariant forall i, j :: 0 <= i < j < n ==> refs[i] != refs[j]
    {
      if Blank(refs[n]) || refs[n] in seen {
        return false;
      }
      seen := seen + {refs[n]};
    }
    ok := true;
  }

  lemma HasIdStep(candidates: seq<Candidate>, n: nat, id: string)
    requires n < |candidates|
    ensures HasId(candidates[..n + 1], id) <==> HasId(candidates[..n], id) || candidates[n].id == id
  {
    if HasId(candidates[..n], id) {
      var i :| 0 <= i < n && candidates[..n][i].id == id;
      assert candidates[..n + 1][i].id == id;
    }
    assert candidates[..n + 1][n].id == candidates[n].id;
  }

  /** What the loop has to check of candidate `i`. */
  predicate OneOk(candidates: seq<Candidate>, refs: seq<string>, action: string, selectedId: string, i: nat)
    requires i < |candidates|
  {
    && Listed(candidates[i], refs) && !HasId(candidates[..i], candidates[i].id)
    && (candidates[i].id == selectedId ==> SelectedOk(action, candidates[i]))
  }

  lemma OneOkPrefix(candidates: seq<Candidate>, refs: seq<string>, action: string, selectedId: string, i: nat, n: nat)
    requires i < n <= |candidates|
    ensures OneOk(candidates[..n], refs, action, selectedId, i) == OneOk(candidates, refs, action, selectedId, i)
  {
    assert candidates[..n][..i] == candidates[..i];
  }

  lemma EachOkPrefix(candidates: seq<Candidate>, refs: seq<string>, action: string, selectedId: string, n: nat)
    requires n <= |candidates|
    ensures EachOk(candidates[..n], refs, action, selectedId) <==>
              forall i :: 0 <= i < n ==> OneOk(candidates, refs, action, selectedId, i)
  {
    forall i | 0 <= i < n
      ensures OneOk(candidates[..n], refs, action, selectedId, i) == OneOk(candidates, refs, action, selectedId, i)
    {
      OneOkPrefix(candidates, refs, action, selectedId, i, n);
    }
  }

  lemma NextCandidate(candidates: seq<Candidate>, refs: seq<string>, action: string, selectedId: string, n: nat)
    requires n < |candidates|
    ensures EachOk(candidates[..n + 1], refs, action, selectedId) <==>
              EachOk(candidates[..n], refs, action, selectedId) && OneOk(candidates, refs, action, selectedId, n)
    ensures EachOk(candidates, refs, action, selectedId) ==> OneOk(candidates, refs, action, selectedId, n)
    ensures forall id :: HasId(candidates[..n + 1], id) <==> HasId(candidates[..n], id) || candidates[n].id == id
  {
    EachOkPrefix(candidates, refs, action, selectedId, n);
    EachOkPrefix(candidates, refs, action, selectedId, n + 1);
    forall id ensures HasId(candidates[..n + 1], id) <==> HasId(candidates[..n], id) || candidates[n].id == id {
      HasIdStep(candidates, n, id);
    }
  }

  method ValidateCandidates(candidates: seq<Candidate>, refs: seq<string>, action: string, selectedId: string)
    returns (ok: bool)
    ensures ok == CandidatesOk(candidates, refs, action, selectedId)
  {
    var selected := false;
    var ids: set<string> := {};
    for n := 0 to |candidates|
      invariant EachOk(candidates[..n], refs, action, selectedId)
      invariant forall id :: id in ids <==> HasId(candidates[..n], id)
      invariant selected == HasId(candidates[..n], selectedId)
    {
      NextCandidate(candidates, refs, action, selectedId, n);
      var candidate := candidates[n];
      if !ValidCandidate(candidate) || candidate.elementRef !in refs || candidate.id in ids {
        return false;
      }
      ids := ids + {candidate.id};
      if candidate.id == selectedId {
        if !SelectedOk(action, candidate) {
          return false;
        }
        selected := true;
      }
    }
    assert candidates[..|candidates|] == candidates;
    ok := selected;
  }

  // --- What a valid binding is, clause by clause --------------------------------------

  predicate Named(s: string) { TrimSpace(s) != "" }

  /** A locator of one kind with the fields of that kind and no others. */
  predicate PlainLocator(s: Locator) {
    && s.scope.None? && s.target.None?
    && if s.kind == "role" then Named(s.role) && s.value == ""
       else
         && (s.kind == "label" || s.kind == "placeholder" || s.kind == "text" || s.kind == "test_id" || s.kind == "css"
             || s.kind == "xpath")
         && Named(s.value) && s.role == "" && s.name.None?
  }

  predicate UsableLocator(s: Locator) {
    PlainLocator(s)
    || (s.kind == "scoped" && s.scope.Some? && s.target.Some? && PlainLocator(s.scope.value) && PlainLocator(s.target.value))
  }

  lemma LocatorIff(s: Locator)
    ensures ValidLocator(s) <==> UsableLocator(s)
  {
  }

  /** An XPath anywhere in the locator, and shadow hosts on the way. */
  predicate PiercesShadow(c: Candidate) {
    && c.path.shadowHosts.Some? && c.path.shadowHosts.value != []
    && (c.locator.kind == "xpath"
        || (c.locator.kind == "scoped" && c.locator.scope.Some? && c.locator.scope.value.kind == "xpath")
        || (c.locator.kind == "scoped" && c.locator.target.Some? && c.locator.target.value.kind == "xpath"))
  }

  predicate UsableCandidate(c: Candidate, refs: seq<string>) {
    && Named(c.id) && Named(c.elementRef) && Named(c.provenance) && c.elementRef in refs
    && c.observedCount >= 0 && 0.0 <= c.score && c.score <= 1.0 && UsableLocator(c.locator) && !PiercesShadow(c)
  }

  lemma CandidateIff(c: Candidate, refs: seq<string>)
    ensures Listed(c, refs) <==> UsableCandidate(c, refs)
  {
    LocatorIff(c.locator);
    if ValidLocator(c.locator) {
      LocatorDepth(c.locator, "xpath");
    }
  }

  /** Candidate `k` is the selected one: found once, visible, and enabled for a click or an
      input. */
  predicate SelectedAt(b: TargetBinding, k: int) {
    && 0 <= k < |b.candidates| && b.candidates[k].id == b.selectedId
    && b.candidates[k].observedCount == 1 && b.candidates[k].visible
    && (b.action == "click" ==> b.candidates[k].enabled) && (b.action == "input" ==> b.candidates[k].enabled)
  }

  /** Every text is given, and both hashes have their length. */
  predicate Filed(b: TargetBinding) {
    && b.schema == "grounding.target-binding.v1" && b.planVersion >= 1
    && Named(b.id) && Named(b.planId) && Named(b.planStepId) && Named(b.semanticTarget) && Named(b.action)
    && Named(b.pageStateId) && Named(b.observationId)
    && |b.observationSha| == 64 && |b.sha| == 64 && |b.elementRefs| > 0 && |b.candidates| > 0
  }

  /** Every candidate is usable and names one of the refs, ids are distinct, one is selected. */
  ghost predicate Offers(b: TargetBinding) {
    && (forall i :: 0 <= i < |b.candidates| ==> UsableCandidate(b.candidates[i], b.elementRefs))
    && (forall i, j :: 0 <= i < j < |b.candidates| ==> b.candidates[i].id != b.candidates[j].id)
    && exists k :: SelectedAt(b, k)
  }

  /** The binding is complete, its refs are given and distinct, it offers a selected candidate,
      and its hash is that of the rest. */
  ghost predicate Grounded(digest: TargetBinding -> string, b: TargetBinding) {
    Filed(b) && RefsDistinct(b.elementRefs) && Offers(b) && b.sha == digest(b.(sha := ""))
  }

  lemma DistinctIdsIff(candidates: seq<Candidate>)
    ensures (forall i :: 0 <= i < |candidates| ==> !HasId(candidates[..i], candidates[i].id)) <==>
            forall i, j :: 0 <= i < j < |candidates| ==> candidates[i].id != candidates[j].id
  {
    forall i, j | 0 <= i < j < |candidates| && candidates[i].id == candidates[j].id
      ensures HasId(candidates[..j], candidates[j].id)
    {
      assert candidates[..j][i].id == candidates[j].id;
    }
  }

  lemma OneIff(b: TargetBinding, i: nat)
    requires i < |b.candidates|
    ensures OneOk(b.candidates, b.elementRefs, b.action, b.selectedId, i) <==>
              && UsableCandidate(b.candidates[i], b.elementRefs) && !HasId(b.candidates[..i], b.candidates[i].id)
              && (b.candidates[i].id == b.selectedId ==> SelectedAt(b, i))
  {
    CandidateIff(b.candidates[i], b.elementRefs);
  }

  lemma OffersSound(b: TargetBinding)
    requires CandidatesOk(b.candidates, b.elementRefs, b.action, b.selectedId)
    ensures Offers(b)
  {
    forall i | 0 <= i < |b.candidates|
      ensures UsableCandidate(b.candidates[i], b.elementRefs) && !HasId(b.candidates[..i], b.candidates[i].id)
    {
      assert OneOk(b.candidates, b.elementRefs, b.action, b.selectedId, i);
      OneIff(b, i);
    }
    DistinctIdsIff(b.candidates);
    var k :| 0 <= k < |b.candidates| && b.candidates[k].id == b.selectedId;
    assert OneOk(b.candidates, b.elementRefs, b.action, b.selectedId, k);
    OneIff(b, k);
  }

  lemma OffersComplete(b: TargetBinding)
    requires Offers(b)
    ensures CandidatesOk(b.candidates, b.elementRefs, b.action, b.selectedId)
  {
    DistinctIdsIff(b.candidates);
    var k :| SelectedAt(b, k);
    assert b.candidates[k].id == b.selectedId;
    forall i | 0 <= i < |b.candidates| ensures OneOk(b.candidates, b.elementRefs, b.action, b.selectedId, i) {
      OneIff(b, i);
      if i < k {
        assert b.candidates[i].id != b.candidates[k].id;
      } else if k < i {
        assert b.candidates[k].id != b.candidates[i].id;
      }
    }
  }

  lemma OffersIff(b: TargetBinding)
    ensures CandidatesOk(b.candidates, b.elementRefs, b.action, b.selectedId) <==> Offers(b)
  {
    if CandidatesOk(b.candidates, b.elementRefs, b.action, b.selectedId) {
      OffersSound(b);
    } else if Offers(b) {
      OffersComplete(b);
    }
  }

  predicate RefsDistinct(refs: seq<string>) {
    && (forall i :: 0 <= i < |refs| ==> Named(refs[i]))
    && (forall i, j :: 0 <= i < j < |refs| ==> refs[i] != refs[j])
  }

  lemma RefsIff(refs: seq<string>)
    ensures RefsOk(refs) <==> RefsDistinct(refs)
  {
  }

  lemma FiledIff(b: TargetBinding)
    ensures Complete(b) <==> Filed(b)
  {
  }

  lemma GroundedIff(digest: TargetBinding -> string, b: TargetBinding)
    ensures ValidBinding(digest, b) <==> Grounded(digest, b)
  {
    FiledIff(b);
    OffersIff(b);
    RefsIff(b.elementRefs);
  }

  /** TargetBinding.Validate: one pass over the element refs and one over the candidates. */
  method Validate(digest: TargetBinding -> string, b: TargetBinding) returns (ok: bool)
    ensures ok == ValidBinding(digest, b)
    ensures ok <==> Grounded(digest, b)
  {
    GroundedIff(digest, b);
    if !Complete(b) {
      return false;
    }
    ok := ValidateRefs(b.elementRefs);
    if !ok {
      return;
    }
    ok := ValidateCandidates(b.candidates, b.elementRefs, b.action, b.selectedId);
    if !ok {
      return;
    }
    ok := Sha(digest, b) == b.sha;
  }

  /** The seed a new binding's id and hash are derived from. */
  function Seed(b: TargetBinding): TargetBinding {
    b.(schema := BINDING_VERSION, id := "", sha := "",
       candidates := seq(|b.candidates|, i requires 0 <= i < |b.candidates| => Filled(b.candidates[i])))
  }

  function Filled(c: Candidate): Candidate {
    c.(path := ContextPath(Some(if c.path.frames.Some? then c.path.frames.value else []),
                           Some(if c.path.shadowHosts.Some? then c.path.shadowHosts.value else [])))
  }

  function Sealed(digest: TargetBinding -> string, b: TargetBinding): TargetBinding {
    var seed := Seed(b);
    var digested := digest(seed);
    var named := seed.(id := "binding_" + Shortened(digested));
    named.(sha := digest(named))
  }

  /** `b` is `source` under the current schema, with null paths written as empty ones, named by
      the digest of the rest and hashed. */
  predicate SealedFrom(digest: TargetBinding -> string, source: TargetBinding, b: TargetBinding) {
    && b == source.(schema := "grounding.target-binding.v1", id := b.id, sha := b.sha, candidates := b.candidates)
    && |b.candidates| == |source.candidates|
    && (forall i :: 0 <= i < |b.candidates| ==> PathsFilled(source.candidates[i], b.candidates[i]))
    && b.id == "binding_" + Shortened(digest(b.(id := "", sha := "")))
    && b.sha == digest(b.(sha := ""))
  }

  predicate PathsFilled(c: Candidate, d: Candidate) {
    && d == c.(path := d.path)
    && d.path.frames == (if c.path.frames.None? then Some([]) else c.path.frames)
    && d.path.shadowHosts == (if c.path.shadowHosts.None? then Some([]) else c.path.shadowHosts)
  }

  /** The first 24 characters, or all when there are fewer. */
  function Shortened(s: string): (r: string)
    ensures r <= s && (|s| <= 24 ==> r == s)
    ensures |s| > 24 ==> |r| == 24
  {
    if |s| >= 24 then s[..24] else s
  }

  lemma SealedIff(digest: TargetBinding -> string, source: TargetBinding, b: TargetBinding)
    ensures SealedFrom(digest, source, b) <==> b == Sealed(digest, source)
  {
    if SealedFrom(digest, source, b) {
      assert b.candidates == Seed(source).candidates;
      assert b.(id := "", sha := "") == Seed(source);
    }
  }

  /** NewTargetBinding: the sealed binding, if it is valid. */
  method NewTargetBinding(digest: TargetBinding -> string, source: TargetBinding) returns (r: Option<TargetBinding>)
    ensures r.Some? <==> ValidBinding(digest, Sealed(digest, source))
    ensures r.Some? ==> r.value == Sealed(digest, source)
    ensures r.Some? ==> SealedFrom(digest, source, r.value) && Grounded(digest, r.value)
    ensures r.None? ==> forall b :: SealedFrom(digest, source, b) ==> !Grounded(digest, b)
  {
    SealedIff(digest, source, Sealed(digest, source));
    forall b ensures SealedFrom(digest, source, b) ==> b == Sealed(digest, source) {
      SealedIff(digest, source, b);
    }
    var candidates := source.candidates;
    for index := 0 to |candidates|
      invariant |candidates| == |source.candidates|
      invariant forall i :: 0 <= i < index ==> candidates[i] == Filled(source.candidates[i])
      invariant forall i :: index <= i < |candidates| ==> candidates[i] == source.candidates[i]
    {
      var path := candidates[index].path;
      if path.frames.None? {
        path := path.(frames := Some([]));
      }
      if path.shadowHosts.None? {
        path := path.(shadowHosts := Some([]));
      }
      candidates := candidates[index := candidates[index].(path := path)];
    }
    assert candidates == Seed(source).candidates;
    var binding := source.(schema := BINDING_VERSION, candidates := candidates, id := "", sha := "");
    var digested := digest(binding);
    binding := binding.(id := "binding_" + Shortened(digested));
    binding := binding.(sha := Sha(digest, binding));
    var ok := Validate(digest, binding);
    r := if ok then Some(binding) else None;
  }

  /** Sealing is idempotent: re-sealing a stored binding gives the same id and hash. */
  lemma SealedStable(digest: TargetBinding -> string, b: TargetBinding)
    ensures Sealed(digest, Sealed(digest, b)) == Sealed(digest, b)
    ensures Sha(digest, Sealed(digest, b)) == Sealed(digest, b).sha
  {
    var s := Sealed(digest, b);
    assert Seed(s).candidates == Seed(b).candidates;
    assert Seed(s) == Seed(b);
  }

  /** The 12-byte digest prefixes that name two bindings collide only for equal seeds. */
  predicate NoCollision(digest: TargetBinding -> string, a: TargetBinding, b: TargetBinding) {
    var x, y := digest(Seed(a)), digest(Seed(b));
    |x| == 64 && |y| == 64 && (x[..24] == y[..24] ==> Seed(a) == Seed(b))
  }

  /** A sealed binding is determined by its id. */
  lemma DeterminedById(digest: TargetBinding -> string, a: TargetBinding, b: TargetBinding)
    requires NoCollision(digest, a, b) && Sealed(digest, a).id == Sealed(digest, b).id
    ensures Sealed(digest, a) == Sealed(digest, b)
  {
    var x, y := digest(Seed(a)), digest(Seed(b));
    assert ("binding_" + x[..24])[8..] == x[..24];
    assert ("binding_" + y[..24])[8..] == y[..24];
  }
}
