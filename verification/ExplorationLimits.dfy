/** Exploration limits over whole runs: turns, results, plan revisions and compactions in
    any order (internal/harness/harness.go, internal/harness/policy.go). */
module ExplorationLimits {
  import opened Wrappers
  import opened Summary
  import opened Transcript
  import opened Compaction
  import opened Governance

  /** `turn` are the calls of the latest assistant message, whose results may follow. */
  datatype Run = Run(transcript: seq<Message>, turn: seq<Call>)

  datatype Event =
    | Turned(content: string, calls: seq<Call>)
    | Explored(call: Call, plan: Option<PlanRef>, result: Message)
    | Noted(message: Message)
    | Compacted(transcript: seq<Message>)

  datatype Setting = Setting(codec: Codec, config: Config, planned: bool)

  /** Within one turn, ids are non-empty and distinct. */
  predicate DistinctIds(calls: seq<Call>) {
    && (forall i :: 0 <= i < |calls| ==> calls[i].id != "")
    && (forall i, j :: 0 <= i < j < |calls| ==> calls[i].id != calls[j].id)
  }

  /** With a plan store every exploration happens under some plan version, else under none. */
  predicate InMode(setting: Setting, plan: Option<PlanRef>) { plan.Some? == setting.planned }

  function Gate(setting: Setting, r: Run, plan: Option<PlanRef>, call: Call): Option<Refusal> {
    ExplorationGate(setting.codec, setting.config, false, State(setting.codec, plan, r.transcript), call)
  }

  /** An exploration result is appended only for a call of the current turn that passed the
      gate under the plan version its summary names. `Noted` is any other message: user
      input, a handoff, an error, a resumed answer, another tool's result. */
  ghost predicate Enabled(setting: Setting, r: Run, e: Event) {
    match e
    case Turned(_, calls) => DistinctIds(calls)
    case Explored(call, plan, result) =>
      && call in r.turn && IsExplorationTool(call.name) && InMode(setting, plan)
      && Gate(setting, r, plan, call).None? && Summarises(setting.codec, result, call, plan)
    case Noted(m) => m.role != "assistant" && !IsExploration(setting.codec.decode, m)
    case Compacted(ms) => AllRewritten(setting.codec.decode, r.transcript, ms)
  }

  function Next(r: Run, e: Event): Run {
    match e
    case Turned(content, calls) => Run(r.transcript + [Message("assistant", content, "", calls, false)], calls)
    case Explored(_, _, result) => r.(transcript := r.transcript + [result])
    case Noted(m) => r.(transcript := r.transcript + [m])
    case Compacted(ms) => r.(transcript := ms)
  }

  // --- The invariant --------------------------------------------------------------------

  ghost predicate TurnKnown(r: Run) {
    && DistinctIds(r.turn)
    && forall i :: 0 <= i < |r.turn| && IsExplorationTool(r.turn[i].name) ==> Known(r.transcript, r.turn[i])
  }

  /** One fingerprint never stands for calls of two different tools. */
  ghost predicate SignatureTells(codec: Codec) {
    forall t, a, u, b :: codec.signature(t, a) == codec.signature(u, b) && codec.signature(t, a) != "" ==> t == u
  }

  ghost predicate WithinRun(config: Config, c: Counters) { c.runPage <= config.maxRunPage && c.runFlow <= config.maxRunFlow }

  ghost predicate WithinPlan(setting: Setting, config: Config, c: Counters) {
    && c.planPage <= config.maxPage && c.planFlow <= config.maxFlow
    && forall t, a :: IsExplorationTool(t) && setting.codec.signature(t, a) != "" ==>
         Uses(c, setting.codec.signature(t, a)) <= RepeatLimit(config, t)
  }

  ghost predicate Within(setting: Setting, ms: seq<Message>) {
    forall plan :: InMode(setting, plan) ==>
      && WithinRun(WithDefaults(setting.config), State(setting.codec, plan, ms))
      && WithinPlan(setting, WithDefaults(setting.config), State(setting.codec, plan, ms))
  }

  ghost predicate Inv(setting: Setting, r: Run) { TurnKnown(r) && Within(setting, r.transcript) }

  lemma {:induction false} AddedCalls(calls: Calls, proposed: seq<Call>, i: nat)
    requires DistinctIds(proposed) && i < |proposed| && IsExplorationTool(proposed[i].name)
    ensures var added := AddCalls(calls, proposed, true);
            proposed[i].id in added && added[proposed[i].id] == proposed[i]
  {
    var n := |proposed| - 1;
    if i < n {
      AddedCalls(calls, proposed[..n], i);
    }
  }

  lemma TurnStep(setting: Setting, r: Run, e: Event)
    requires Inv(setting, r) && Enabled(setting, r, e) && e.Turned?
    ensures Inv(setting, Next(r, e))
  {
    var m := Message("assistant", e.content, "", e.calls, false);
    forall i | 0 <= i < |e.calls| && IsExplorationTool(e.calls[i].name) ensures Known(r.transcript + [m], e.calls[i]) {
      AppendedState(setting.codec, None, r.transcript, m);
      AddedCalls(KnownCalls(r.transcript, true), e.calls, i);
    }
    SameStates(setting, r.transcript, m);
  }

  /** A message that is no exploration summary changes no counter. */
  lemma SameStates(setting: Setting, ms: seq<Message>, m: Message)
    requires Within(setting, ms) && (m.role != "tool" || !IsExploration(setting.codec.decode, m))
    ensures Within(setting, ms + [m])
  {
    forall plan | InMode(setting, plan)
      ensures State(setting.codec, plan, ms + [m]) == State(setting.codec, plan, ms)
    {
      AppendedState(setting.codec, plan, ms, m);
    }
  }

  lemma NoteStep(setting: Setting, r: Run, e: Event)
    requires Inv(setting, r) && Enabled(setting, r, e) && e.Noted?
    ensures Inv(setting, Next(r, e))
  {
    AppendedState(setting.codec, None, r.transcript, e.message);
    SameStates(setting, r.transcript, e.message);
  }

  lemma CompactStep(setting: Setting, r: Run, e: Event)
    requires Inv(setting, r) && Enabled(setting, r, e) && e.Compacted?
    ensures Inv(setting, Next(r, e))
  {
    CallsPreserved(setting.codec.decode, r.transcript, e.transcript, true);
    forall plan | InMode(setting, plan)
      ensures State(setting.codec, plan, e.transcript) == State(setting.codec, plan, r.transcript)
    {
      StatePreserved(setting.codec, plan, r.transcript, e.transcript);
    }
  }

  /** The run counters do not depend on the plan asked about. */
  lemma {:induction false} RunCounters(codec: Codec, plan: Option<PlanRef>, other: Option<PlanRef>, ms: seq<Message>)
    ensures State(codec, plan, ms).runPage == State(codec, other, ms).runPage
    ensures State(codec, plan, ms).runFlow == State(codec, other, ms).runFlow
  {
    if ms != [] {
      RunCounters(codec, plan, other, ms[..|ms| - 1]);
    }
  }

  /** Under its own plan version an admitted call adds one to counters that were below
      their limits. */
  lemma CountedOwn(setting: Setting, c: Counters, call: Call)
    requires SignatureTells(setting.codec) && IsExplorationTool(call.name)
    requires WithinRun(WithDefaults(setting.config), c) && WithinPlan(setting, WithDefaults(setting.config), c)
    requires ExplorationGate(setting.codec, setting.config, false, c, call).None?
    ensures WithinRun(WithDefaults(setting.config), Completed(setting.codec, c, call))
    ensures WithinPlan(setting, WithDefaults(setting.config), Completed(setting.codec, c, call))
  {
    var after := Completed(setting.codec, c, call);
    var signature := Signature(setting.codec, call);
    forall t, a | IsExplorationTool(t) && setting.codec.signature(t, a) != ""
      ensures Uses(after, setting.codec.signature(t, a)) <= RepeatLimit(WithDefaults(setting.config), t)
    {
      assert Uses(c, setting.codec.signature(t, a)) <= RepeatLimit(WithDefaults(setting.config), t);
      if setting.codec.signature(t, a) == signature {
        assert t == call.name;
      }
    }
  }

  lemma ExploreStep(setting: Setting, r: Run, e: Event)
    requires SignatureTells(setting.codec) && Inv(setting, r) && Enabled(setting, r, e) && e.Explored?
    ensures Inv(setting, Next(r, e))
  {
    var ms, m, call := r.transcript, e.result, e.call;
    var config := WithDefaults(setting.config);
    assert Known(ms, call);
    AppendedState(setting.codec, None, ms, m);
    forall plan | InMode(setting, plan)
      ensures WithinRun(config, State(setting.codec, plan, ms + [m]))
      ensures WithinPlan(setting, config, State(setting.codec, plan, ms + [m]))
    {
      AppendedState(setting.codec, plan, ms, m);
      RunCounters(setting.codec, plan, e.plan, ms);
      var c := State(setting.codec, plan, ms);
      if plan == e.plan {
        CountedOwn(setting, c, call);
      } else {
        assert !MatchesPlan(setting.codec.decode(m.content).value, plan);
        assert WithinPlan(setting, config, c);
        assert WithinPlan(setting, config, CountRun(c, call.name));
      }
    }
  }

  lemma StepKeeps(setting: Setting, r: Run, e: Event)
    requires SignatureTells(setting.codec) && Inv(setting, r) && Enabled(setting, r, e)
    ensures Inv(setting, Next(r, e))
  {
    match e
    case Turned(_, _) => TurnStep(setting, r, e);
    case Explored(_, _, _) => ExploreStep(setting, r, e);
    case Noted(_) => NoteStep(setting, r, e);
    case Compacted(_) => CompactStep(setting, r, e);
  }

  ghost predicate Behavior(setting: Setting, runs: seq<Run>, events: seq<Event>) {
    && |runs| == |events| + 1 && runs[0] == Run([], [])
    && forall k :: 0 <= k < |events| ==> Enabled(setting, runs[k], events[k]) && runs[k + 1] == Next(runs[k], events[k])
  }

  lemma {:induction false} Reachable(setting: Setting, runs: seq<Run>, events: seq<Event>, k: nat)
    requires SignatureTells(setting.codec) && Behavior(setting, runs, events) && k < |runs|
    ensures Inv(setting, runs[k])
  {
    if k > 0 {
      Reachable(setting, runs, events, k - 1);
      StepKeeps(setting, runs[k - 1], events[k - 1]);
    }
  }

  /** The configured limit when it is positive, else the standard one. */
  predicate AtMost(count: int, configured: int, standard: int) {
    count <= if configured > 0 then configured else standard
  }

  /** At every point of every run, whatever plan versions it went through: the run limits
      hold, and for each plan version the per-version limits and the limit on repeating
      one call. Each limit is the configured one, or 10, 8, 5, 4, 1 and 1. */
  lemma LimitsHold(setting: Setting, runs: seq<Run>, events: seq<Event>, k: nat, plan: Option<PlanRef>, tool: string,
                   arguments: string)
    requires SignatureTells(setting.codec) && Behavior(setting, runs, events) && k < |runs|
    requires InMode(setting, plan) && IsExplorationTool(tool) && setting.codec.signature(tool, arguments) != ""
    ensures var c, config := State(setting.codec, plan, runs[k].transcript), setting.config;
            && AtMost(c.runPage, config.maxRunPage, 10) && AtMost(c.runFlow, config.maxRunFlow, 8)
            && AtMost(c.planPage, config.maxPage, 5) && AtMost(c.planFlow, config.maxFlow, 4)
            && AtMost(Uses(c, setting.codec.signature(tool, arguments)),
                      if tool == "explore_page" then config.maxPageRepeats else config.maxFlowRepeats, 1)
  {
    Reachable(setting, runs, events, k);
    assert WithinPlan(setting, WithDefaults(setting.config), State(setting.codec, plan, runs[k].transcript));
  }
}
