/** When an expired job is held back instead of run again, in terms of its case and its last
    report: a step that may repeat an effect, and what the report says became of it. */
module RecoveryMeaning {
  import opened Wrappers
  import opened Json
  import opened Recovery

  // --- Research cases -------------------------------------------------------------------

  /** The step is not idempotent, or reaches outside the browser. */
  predicate Risky(v: Value) {
    v.Object?
    && (At(v.fields, "idempotency") == String("non_idempotent")
        || At(v.fields, "side_effect") == String("external_state") || At(v.fields, "side_effect") == String("unknown"))
  }

  lemma RiskyIff(v: Value)
    ensures ProtectedStep(v) <==> Risky(v)
  {
  }

  /** Entry `n` of the report is about step `i`. */
  predicate AboutStep(entries: seq<Fields>, n: int, i: int) {
    0 <= n < |entries| && At(entries[n], "step_index").Number? && Truncate(At(entries[n], "step_index").number) == i
  }

  ghost predicate Unreported(entries: seq<Fields>, i: int) { forall n :: !AboutStep(entries, n, i) }

  /** Entry `n` is the last one about step `i`. */
  ghost predicate LastAbout(entries: seq<Fields>, n: int, i: int) {
    AboutStep(entries, n, i) && forall m :: AboutStep(entries, m, i) ==> m <= n
  }

  /** The last entry about a step is its evidence. */
  lemma {:induction false} EvidenceMeans(entries: seq<Fields>, i: int)
    ensures i in Evidence(entries) <==> !Unreported(entries, i)
    ensures i in Evidence(entries) ==> exists n :: LastAbout(entries, n, i) && Evidence(entries)[i] == entries[n]
  {
    if entries != [] {
      var last := |entries| - 1;
      var rest := entries[..last];
      EvidenceMeans(rest, i);
      assert forall n :: n != last ==> (AboutStep(rest, n, i) <==> AboutStep(entries, n, i));
      if AboutStep(entries, last, i) {
        assert LastAbout(entries, last, i);
      } else if i in Evidence(rest) {
        var n :| LastAbout(rest, n, i) && Evidence(rest)[i] == rest[n];
        assert LastAbout(entries, n, i);
      }
    }
  }

  predicate OutcomeIs(entry: Fields, key: string, text: string) {
    At(entry, "action_outcome").Object? && At(At(entry, "action_outcome").fields, key) == String(text)
  }

  /** The effect may have happened: the report says so, or cannot tell, or does not say that
      it did not and reports the action as succeeded, unknown or not at all. */
  predicate MayHaveHappened(entry: Fields) {
    || OutcomeIs(entry, "side_effect_state", "committed") || OutcomeIs(entry, "side_effect_state", "unknown")
    || (!OutcomeIs(entry, "side_effect_state", "not_committed") && !OutcomeIs(entry, "side_effect_state", "not_applicable")
        && (OutcomeIs(entry, "status", "succeeded") || OutcomeIs(entry, "status", "unknown") || Untold(entry)))
  }

  /** No status text, or an empty one. */
  predicate Untold(entry: Fields) {
    || !At(entry, "action_outcome").Object? || !At(At(entry, "action_outcome").fields, "status").String?
    || OutcomeIs(entry, "status", "")
  }

  lemma VerdictMeans(entries: seq<Fields>, status: Status, i: int)
    ensures var v := VerdictAt(Evidence(entries), status, i);
            && (Unreported(entries, i) ==> v == if status == Running then Block else Clear)
            && forall n :: LastAbout(entries, n, i) ==> v == if MayHaveHappened(entries[n]) then Block else Pass
  {
    EvidenceMeans(entries, i);
    forall n | LastAbout(entries, n, i) ensures i in Evidence(entries) && Evidence(entries)[i] == entries[n] {
      assert AboutStep(entries, n, i);
      var m :| LastAbout(entries, m, i) && Evidence(entries)[i] == entries[m];
      assert m <= n && n <= m;
    }
  }

  /** Step `i` holds the job back: it was lost while its run was running, or its last entry
      leaves its effect possible. */
  ghost predicate HoldsBack(steps: seq<Value>, entries: seq<Fields>, status: Status, i: int) {
    && 0 <= i < |steps| && Risky(steps[i])
    && ((Unreported(entries, i) && status == Running)
        || exists n :: LastAbout(entries, n, i) && MayHaveHappened(entries[n]))
  }

  /** Step `i` was never reached by a run that had ended. */
  ghost predicate Lets(steps: seq<Value>, entries: seq<Fields>, status: Status, i: int) {
    0 <= i < |steps| && Risky(steps[i]) && Unreported(entries, i) && status != Running
  }

  lemma HoldsIff(steps: seq<Value>, entries: seq<Fields>, status: Status, i: int)
    ensures HoldsBack(steps, entries, status, i) <==>
              i in ProtectedIndices(steps) && VerdictAt(Evidence(entries), status, i) == Block
    ensures Lets(steps, entries, status, i) <==>
              i in ProtectedIndices(steps) && VerdictAt(Evidence(entries), status, i) == Clear
  {
    if 0 <= i < |steps| {
      RiskyIff(steps[i]);
    }
    VerdictMeans(entries, status, i);
    EvidenceMeans(entries, i);
  }

  /** A research case: without a risky step never, without a report always; with one, the
      answer may be yes exactly when some risky step holds the job back, and no exactly when
      some risky step lets it go or none holds it back. */
  lemma ResearchMeans(fields: Fields, status: Option<Status>, report: Option<Value>, answer: bool)
    requires At(fields, "profile") in {String("research-v1"), String("research-v2")}
    ensures var steps := AsArray(At(fields, "steps"));
            MayAnswer(Some(Object(fields)), status, report, answer) <==>
              if forall i :: 0 <= i < |steps| ==> !Risky(steps[i]) then !answer
              else if status.None? || report.None? then answer
              else
                var entries := ReportSteps(report.value);
                if answer then exists i :: HoldsBack(steps, entries, status.value, i)
                else
                  || (exists i :: Lets(steps, entries, status.value, i))
                  || forall i :: !HoldsBack(steps, entries, status.value, i)
  {
    var steps := AsArray(At(fields, "steps"));
    forall i | 0 <= i < |steps| ensures ProtectedStep(steps[i]) <==> Risky(steps[i]) {
      RiskyIff(steps[i]);
    }
    assert ProtectedIndices(steps) == {} <==> forall i :: 0 <= i < |steps| ==> !Risky(steps[i]) by {
      assert forall i :: i in ProtectedIndices(steps) <==> 0 <= i < |steps| && Risky(steps[i]);
    }
    if status.Some? && report.Some? {
      var entries := ReportSteps(report.value);
      forall i
        ensures HoldsBack(steps, entries, status.value, i) <==>
                  i in ProtectedIndices(steps) && VerdictAt(Evidence(entries), status.value, i) == Block
        ensures Lets(steps, entries, status.value, i) <==>
                  i in ProtectedIndices(steps) && VerdictAt(Evidence(entries), status.value, i) == Clear
      {
        HoldsIff(steps, entries, status.value, i);
      }
    }
  }

  // --- Legacy cases -----------------------------------------------------------------------

  predicate Click(v: Value) { v.Object? && At(v.fields, "action") == String("click") }

  /** A click without an outcome, or one that succeeded, is unknown, or took effect or may
      have. */
  predicate ClickMayHaveHappened(entry: Fields) {
    || !At(entry, "action_outcome").Object? || At(entry, "action_outcome").fields == map[]
    || OutcomeIs(entry, "status", "succeeded") || OutcomeIs(entry, "status", "unknown")
    || OutcomeIs(entry, "side_effect_state", "committed") || OutcomeIs(entry, "side_effect_state", "unknown")
  }

  /** Some click of the report may have happened, or it shows no click at all. */
  predicate ClicksHoldBack(entries: seq<Fields>) {
    || (exists i :: 0 <= i < |entries| && Click(Object(entries[i])) && ClickMayHaveHappened(entries[i]))
    || forall i :: 0 <= i < |entries| ==> !Click(Object(entries[i]))
  }

  /** A legacy case: held back exactly when it clicks and its last run is missing, running or
      without report, or the report shows a click that may have happened, or no click. */
  lemma LegacyMeans(fields: Fields, status: Option<Status>, report: Option<Value>, answer: bool)
    requires At(fields, "profile") !in {String("research-v1"), String("research-v2")}
    ensures var steps := AsArray(At(fields, "steps"));
            MayAnswer(Some(Object(fields)), status, report, answer) <==>
              (answer <==>
                 && (exists i :: 0 <= i < |steps| && Click(steps[i]))
                 && (status.None? || status.value == Running || report.None?
                     || ClicksHoldBack(ReportSteps(report.value))))
  {
    var steps := AsArray(At(fields, "steps"));
    forall i | 0 <= i < |steps| ensures IsClick(steps[i]) <==> Click(steps[i]) {
    }
    if report.Some? {
      var entries := ReportSteps(report.value);
      forall i | 0 <= i < |entries|
        ensures IsClick(Object(entries[i])) <==> Click(Object(entries[i]))
        ensures ClickBlocks(entries[i]) <==> ClickMayHaveHappened(entries[i])
      {
      }
    }
  }

  /** A case that cannot be read is always held back. */
  lemma UnreadableMeans(dsl: Option<Value>, status: Option<Status>, report: Option<Value>, answer: bool)
    requires dsl.None? || (!dsl.value.Object? && !dsl.value.Null?)
    ensures MayAnswer(dsl, status, report, answer) <==> answer
  {
  }

  /** The entries of a report: its steps, unless one of them is neither object nor null. */
  lemma ReportMeans(report: Value)
    ensures var steps, entries := AsArray(At(AsObject(report), "steps")), ReportSteps(report);
            if exists i :: 0 <= i < |steps| && !steps[i].Object? && !steps[i].Null? then entries == []
            else |entries| == |steps| && forall i :: 0 <= i < |steps| ==> entries[i] == AsObject(steps[i])
  {
  }
}
