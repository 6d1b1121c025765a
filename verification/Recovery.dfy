/** Whether an expired job may be replayed (worker_store.go, requiresManualRecovery).

    The Go code ranges over a map of protected step indices, so the order in which
    it looks at them is arbitrary. Every walk order is modelled. */
module Recovery {
  import opened Wrappers
  import opened Json

  datatype Status = Pending | Running | Passed | Failed | NeedsIntervention | Cancelled {
    predicate Terminal() { this != Pending && this != Running }
  }

  /** What one protected step decides: stop with `true`, stop with `false`, or go on. */
  datatype Verdict = Block | Clear | Pass

  function StepVerdict(evidence: Option<Fields>, status: Status): Verdict {
    match evidence
    case None => if status == Running then Block else Clear
    case Some(step) =>
      var outcome := AsObject(At(step, "action_outcome"));
      var effect := AsText(At(outcome, "side_effect_state"));
      if effect == "committed" || effect == "unknown" then Block
      else if effect == "not_committed" || effect == "not_applicable" then Pass
      else
        var state := AsText(At(outcome, "status"));
        if state == "succeeded" || state == "unknown" || state == "" then Block else Pass
  }

  predicate ProtectedStep(v: Value) {
    var step := AsObject(v);
    || At(step, "idempotency") == String("non_idempotent")
    || At(step, "side_effect") == String("external_state")
    || At(step, "side_effect") == String("unknown")
  }

  function ProtectedIndices(steps: seq<Value>): set<int> {
    set i | 0 <= i < |steps| && ProtectedStep(steps[i])
  }

  predicate ResearchCase(fields: Fields) {
    At(fields, "profile") == String("research-v1") || At(fields, "profile") == String("research-v2")
  }

  predicate IsClick(v: Value) { At(AsObject(v), "action") == String("click") }

  predicate HasClick(steps: seq<Value>) { exists i :: 0 <= i < |steps| && IsClick(steps[i]) }

  /** The decoded case, or None when the stored text is not a JSON object. */
  function CaseFields(dsl: Option<Value>): Option<Fields> {
    match dsl
    case Some(Object(fields)) => Some(fields)
    case Some(Null) => Some(map[])
    case _ => None
  }

  /** A case whose replay could repeat an effect: any protected step of a research
      case, any click of a legacy case, and any case that cannot be read. */
  predicate ProtectedCase(dsl: Option<Value>) {
    match CaseFields(dsl)
    case None => true
    case Some(fields) =>
      var steps := AsArray(At(fields, "steps"));
      if ResearchCase(fields) then ProtectedIndices(steps) != {} else HasClick(steps)
  }

  /** `payload.Steps`: nothing when the report or one of its steps has another shape. */
  function ReportSteps(report: Value): seq<Fields> {
    var steps := AsArray(At(AsObject(report), "steps"));
    if forall i :: 0 <= i < |steps| ==> steps[i].Object? || steps[i].Null?
    then seq(|steps|, i requires 0 <= i < |steps| => AsObject(steps[i]))
    else []
  }

  /** Evidence by step index; a later report entry replaces an earlier one. */
  function Evidence(steps: seq<Fields>): map<int, Fields> {
    if steps == [] then map[]
    else
      var last := steps[|steps| - 1];
      var earlier := Evidence(steps[..|steps| - 1]);
      match At(last, "step_index")
      case Number(n) => earlier[Truncate(n) := last]
      case _ => earlier
  }

  function VerdictAt(evidence: map<int, Fields>, status: Status, index: int): Verdict {
    StepVerdict(if index in evidence then Some(evidence[index]) else None, status)
  }

  /** The loop over the protected map, for one order of its keys. */
  function Walk(order: seq<int>, evidence: map<int, Fields>, status: Status): bool {
    if order == [] then false
    else
      match VerdictAt(evidence, status, order[0])
      case Block => true
      case Clear => false
      case Pass => Walk(order[1..], evidence, status)
  }

  ghost predicate Enumerates(order: seq<int>, keys: set<int>) {
    && (forall i, j :: 0 <= i < j < |order| ==> order[i] != order[j])
    && (forall k :: k in order <==> k in keys)
  }

  ghost predicate HasVerdict(keys: set<int>, evidence: map<int, Fields>, status: Status, v: Verdict) {
    exists k :: k in keys && VerdictAt(evidence, status, k) == v
  }

  /** The answers some walk order gives, in closed form; WalkOrders proves it. */
  ghost predicate CanAnswer(keys: set<int>, evidence: map<int, Fields>, status: Status, answer: bool) {
    if answer then HasVerdict(keys, evidence, status, Block)
    else HasVerdict(keys, evidence, status, Clear) || !HasVerdict(keys, evidence, status, Block)
  }

  lemma {:induction false} WalkSound(order: seq<int>, keys: set<int>, evidence: map<int, Fields>, status: Status)
    requires forall k :: k in order ==> k in keys
    requires forall k :: k in keys && k !in order ==> VerdictAt(evidence, status, k) == Pass
    ensures CanAnswer(keys, evidence, status, Walk(order, evidence, status))
  {
    if order != [] && VerdictAt(evidence, status, order[0]) == Pass {
      WalkSound(order[1..], keys, evidence, status);
    } else if order != [] {
      assert order[0] in keys;
    }
  }

  lemma {:induction false} EnumerationExists(keys: set<int>) returns (order: seq<int>)
    ensures Enumerates(order, keys)
    decreases keys
  {
    if k :| k in keys {
      var rest := EnumerationExists(keys - {k});
      order := [k] + rest;
    } else {
      order := [];
    }
  }

  /** Starting the walk at `k` makes `k`'s verdict the answer when it stops there. */
  lemma StartAt(keys: set<int>, k: int) returns (order: seq<int>)
    requires k in keys
    ensures Enumerates(order, keys) && order[0] == k
  {
    var rest := EnumerationExists(keys - {k});
    order := [k] + rest;
  }

  /** The closed form is exact: an answer is possible iff some key order produces it. */
  lemma WalkOrders(keys: set<int>, evidence: map<int, Fields>, status: Status, answer: bool)
    ensures CanAnswer(keys, evidence, status, answer)
       <==> exists order :: Enumerates(order, keys) && Walk(order, evidence, status) == answer
  {
    forall order | Enumerates(order, keys)
      ensures CanAnswer(keys, evidence, status, Walk(order, evidence, status))
    {
      WalkSound(order, keys, evidence, status);
    }
    if CanAnswer(keys, evidence, status, answer) {
      var stop := if answer then Block else Clear;
      if HasVerdict(keys, evidence, status, stop) {
        var k :| k in keys && VerdictAt(evidence, status, k) == stop;
        var order := StartAt(keys, k);
        assert Walk(order, evidence, status) == answer;
      } else {
        var order := EnumerationExists(keys);
        WalkSound(order, keys, evidence, status);
      }
    }
  }

  /** The answer is independent of map order exactly when the protected steps do not
      mix one that blocks with one that clears. */
  lemma OrderIndependence(keys: set<int>, evidence: map<int, Fields>, status: Status)
    ensures (forall o1, o2 :: Enumerates(o1, keys) && Enumerates(o2, keys) ==>
               Walk(o1, evidence, status) == Walk(o2, evidence, status))
       <==> !(HasVerdict(keys, evidence, status, Block) && HasVerdict(keys, evidence, status, Clear))
  {
    WalkOrders(keys, evidence, status, true);
    WalkOrders(keys, evidence, status, false);
  }

  function Committed(index: int): Fields {
    map["step_index" := Number(index as real),
        "action_outcome" := Object(map["side_effect_state" := String("committed")])]
  }

  /** A concrete input whose answer depends on map order: step 0 committed its effect,
      step 1 left no evidence, and the last run failed. */
  lemma OrderMatters()
    ensures Walk([0, 1], Evidence([Committed(0)]), Failed)
    ensures !Walk([1, 0], Evidence([Committed(0)]), Failed)
  {
    var report := [Committed(0)];
    assert report[..|report| - 1] == [];
    assert Evidence(report) == map[0 := Committed(0)];
  }

  /** Every answer requiresManualRecovery can give. */
  ghost predicate MayAnswer(dsl: Option<Value>, status: Option<Status>, report: Option<Value>, answer: bool) {
    match CaseFields(dsl)
    case None => answer
    case Some(fields) =>
      var steps := AsArray(At(fields, "steps"));
      if ResearchCase(fields) then
        var keys := ProtectedIndices(steps);
        if keys == {} then !answer
        else if status.None? || report.None? then answer
        else CanAnswer(keys, Evidence(ReportSteps(report.value)), status.value, answer)
      else answer == LegacyAnswer(steps, status, report)
  }

  function LegacyAnswer(steps: seq<Value>, status: Option<Status>, report: Option<Value>): bool {
    if !HasClick(steps) then false
    else if status.None? || status.value == Running || report.None? then true
    else
      var clicks := ReportSteps(report.value);
      || (exists i :: 0 <= i < |clicks| && IsClick(Object(clicks[i])) && ClickBlocks(clicks[i]))
      || !(exists i :: 0 <= i < |clicks| && IsClick(Object(clicks[i])))
  }

  predicate ClickBlocks(step: Fields) {
    var outcome := AsObject(At(step, "action_outcome"));
    || outcome == map[]
    || At(outcome, "status") == String("succeeded") || At(outcome, "status") == String("unknown")
    || At(outcome, "side_effect_state") == String("committed")
    || At(outcome, "side_effect_state") == String("unknown")
  }

  /** While its run is still running and has no report, a protected case blocks under
      every map order, and an unprotected one never does. */
  lemma DecidedWithoutReport(dsl: Option<Value>, status: Option<Status>, report: Option<Value>, answer: bool)
    requires status.None? || (status.value == Running && report.None?)
    requires MayAnswer(dsl, status, report, answer)
    ensures answer == ProtectedCase(dsl)
  {
  }

  method ResearchRequiresManualRecovery(steps: seq<Value>, status: Option<Status>, report: Option<Value>)
    returns (answer: bool)
    ensures ProtectedIndices(steps) == {} ==> !answer
    ensures ProtectedIndices(steps) != {} && (status.None? || report.None?) ==> answer
    ensures ProtectedIndices(steps) != {} && status.Some? && report.Some? ==>
              CanAnswer(ProtectedIndices(steps), Evidence(ReportSteps(report.value)), status.value, answer)
  {
    var keys: set<int> := {};
    for index := 0 to |steps|
      invariant keys == set i | 0 <= i < index && ProtectedStep(steps[i])
    {
      if ProtectedStep(steps[index]) {
        keys := keys + {index};
      }
    }
    if keys == {} {
      return false;
    }
    if status.None? || report.None? {
      return true;
    }
    var entries := ReportSteps(report.value);
    var evidence: map<int, Fields> := map[];
    for n := 0 to |entries|
      invariant evidence == Evidence(entries[..n])
    {
      assert entries[..n + 1][..n] == entries[..n];
      var entry := At(entries[n], "step_index");
      if entry.Number? {
        evidence := evidence[Truncate(entry.number) := entries[n]];
      }
    }
    assert entries[..|entries|] == entries;
    var rest := keys;
    while rest != {}
      invariant rest <= keys
      invariant forall k :: k in keys && k !in rest ==> VerdictAt(evidence, status.value, k) == Pass
    {
      var index :| index in rest;
      rest := rest - {index};
      if index !in evidence {
        answer := status.value == Running;
        assert VerdictAt(evidence, status.value, index) == if answer then Block else Clear;
        return;
      }
      var outcome := AsObject(At(evidence[index], "action_outcome"));
      var effect := AsText(At(outcome, "side_effect_state"));
      if effect == "committed" || effect == "unknown" {
        assert VerdictAt(evidence, status.value, index) == Block;
        return true;
      }
      if effect == "not_committed" || effect == "not_applicable" {
        continue;
      }
      var state := AsText(At(outcome, "status"));
      if state == "succeeded" || state == "unknown" || state == "" {
        assert VerdictAt(evidence, status.value, index) == Block;
        return true;
      }
    }
    return false;
  }

  method RequiresManualRecovery(dsl: Option<Value>, status: Option<Status>, report: Option<Value>)
    returns (answer: bool)
    ensures MayAnswer(dsl, status, report, answer)
  {
    var decoded := CaseFields(dsl);
    if decoded.None? {
      return true;
    }
    var fields := decoded.value;
    var steps := AsArray(At(fields, "steps"));
    if ResearchCase(fields) {
      answer := ResearchRequiresManualRecovery(steps, status, report);
      return;
    }
    var hasClick := false;
    for i := 0 to |steps|
      invariant hasClick == exists k :: 0 <= k < i && IsClick(steps[k])
    {
      if IsClick(steps[i]) {
        hasClick := true;
        break;
      }
    }
    if !hasClick {
      return false;
    }
    if status.None? || status.value == Running || report.None? {
      return true;
    }
    var clicks := ReportSteps(report.value);
    var observedClick := false;
    for i := 0 to |clicks|
      invariant observedClick == exists k :: 0 <= k < i && IsClick(Object(clicks[k]))
      invariant forall k :: 0 <= k < i && IsClick(Object(clicks[k])) ==> !ClickBlocks(clicks[k])
    {
      if !IsClick(Object(clicks[i])) {
        continue;
      }
      observedClick := true;
      if ClickBlocks(clicks[i]) {
        return true;
      }
    }
    return !observedClick;
  }
}
