/** The tool policy recomputes its counters from the transcript before every call
    (internal/harness/policy.go). Compaction rewrites that transcript; the decisions do
    not change, and the exploration limits hold over whole runs. */
module Governance {
  import opened Wrappers
  import opened Summary
  import opened Transcript
  import opened Compaction

  /** `signature` is the fingerprint of a tool and its arguments, "" when they do not
      parse; `isError` recognises a recorded error payload. */
  datatype Codec = Codec(decode: Decoder, signature: (string, string) -> string, isError: string -> bool)

  type Calls = map<string, Call>

  datatype Counters = Counters(planPage: nat, planFlow: nat, runPage: nat, runFlow: nat, signatures: map<string, nat>)

  const ZERO := Counters(0, 0, 0, 0, map[])

  function Uses(c: Counters, signature: string): nat { if signature in c.signatures then c.signatures[signature] else 0 }

  // --- buildExplorationState ----------------------------------------------------------

  function AddCalls(calls: Calls, proposed: seq<Call>, onlyExploration: bool): Calls {
    if proposed == [] then calls
    else
      var last := proposed[|proposed| - 1];
      var earlier := AddCalls(calls, proposed[..|proposed| - 1], onlyExploration);
      if last.id != "" && (!onlyExploration || IsExplorationTool(last.name)) then earlier[last.id := last] else earlier
  }

  function KnownCalls(ms: seq<Message>, onlyExploration: bool): Calls {
    if ms == [] then map[]
    else
      var earlier := KnownCalls(ms[..|ms| - 1], onlyExploration);
      var last := ms[|ms| - 1];
      if last.role == "assistant" then AddCalls(earlier, last.calls, onlyExploration) else earlier
  }

  predicate MatchesPlan(s: ToolSummary, plan: Option<PlanRef>) { plan.None? || s.taskPlan == plan }

  function CountRun(c: Counters, tool: string): Counters {
    if tool == "explore_page" then c.(runPage := c.runPage + 1) else c.(runFlow := c.runFlow + 1)
  }

  function CountPlan(c: Counters, tool: string): Counters {
    if tool == "explore_page" then c.(planPage := c.planPage + 1) else c.(planFlow := c.planFlow + 1)
  }

  function CountSignature(c: Counters, signature: string): Counters {
    if signature == "" then c else c.(signatures := c.signatures[signature := Uses(c, signature) + 1])
  }

  /** What one message adds. */
  function Count(codec: Codec, plan: Option<PlanRef>, calls: Calls, c: Counters, m: Message): Counters {
    if m.role != "tool" || !IsExploration(codec.decode, m) then c
    else
      var s := codec.decode(m.content).value;
      var run := CountRun(c, s.tool);
      if !MatchesPlan(s, plan) then run
      else
        var planned := CountPlan(run, s.tool);
        if m.callId !in calls then planned
        else CountSignature(planned, codec.signature(calls[m.callId].name, calls[m.callId].arguments))
  }

  function State(codec: Codec, plan: Option<PlanRef>, ms: seq<Message>): Counters {
    if ms == [] then ZERO
    else
      var earlier := ms[..|ms| - 1];
      Count(codec, plan, KnownCalls(earlier, true), State(codec, plan, earlier), ms[|ms| - 1])
  }

  method BuildExplorationState(codec: Codec, ms: seq<Message>, plan: Option<PlanRef>) returns (c: Counters)
    ensures c == State(codec, plan, ms)
  {
    c := ZERO;
    var calls: Calls := map[];
    for n := 0 to |ms|
      invariant c == State(codec, plan, ms[..n]) && calls == KnownCalls(ms[..n], true)
    {
      assert ms[..n + 1][..n] == ms[..n];
      var m := ms[n];
      if m.role == "assistant" {
        calls := RecordCalls(calls, m.calls, true);
        continue;
      }
      if m.role != "tool" {
        continue;
      }
      var summary := codec.decode(m.content);
      if summary.None? || !IsExplorationTool(summary.value.tool) {
        continue;
      }
      if summary.value.tool == "explore_page" {
        c := c.(runPage := c.runPage + 1);
      } else {
        c := c.(runFlow := c.runFlow + 1);
      }
      if !MatchesPlan(summary.value, plan) {
        continue;
      }
      if summary.value.tool == "explore_page" {
        c := c.(planPage := c.planPage + 1);
      } else {
        c := c.(planFlow := c.planFlow + 1);
      }
      if m.callId in calls {
        var signature := codec.signature(calls[m.callId].name, calls[m.callId].arguments);
        if signature != "" {
          c := c.(signatures := c.signatures[signature := Uses(c, signature) + 1]);
        }
      }
    }
    assert ms[..|ms|] == ms;
  }

  method RecordCalls(source: Calls, proposed: seq<Call>, onlyExploration: bool) returns (calls: Calls)
    ensures calls == AddCalls(source, proposed, onlyExploration)
  {
    calls := source;
    for n := 0 to |proposed|
      invariant calls == AddCalls(source, proposed[..n], onlyExploration)
    {
      assert proposed[..n + 1][..n] == proposed[..n];
      if proposed[n].id != "" && (!onlyExploration || IsExplorationTool(proposed[n].name)) {
        calls := calls[proposed[n].id := proposed[n]];
      }
    }
    assert proposed[..|proposed|] == proposed;
  }

  // --- governanceOutcome --------------------------------------------------------------

  /** Whether this message completes the same call, and how: Some(true) for a success. */
  function Verdict(codec: Codec, calls: Calls, m: Message, call: Call, signature: string): Option<bool> {
    if m.role != "tool" || m.callId == "" || m.callId !in calls then None
    else
      var original := calls[m.callId];
      if original.name != call.name || codec.signature(original.name, original.arguments) != signature then None
      else
        match codec.decode(m.content)
        case Some(s) => Some(s.success == Some(true))
        case None => if codec.isError(m.content) then Some(false) else None
  }

  /** The first completed attempt in the transcript decides. */
  function Outcome(codec: Codec, ms: seq<Message>, call: Call, signature: string): Option<bool> {
    if ms == [] then None
    else
      var earlier := ms[..|ms| - 1];
      var found := Outcome(codec, earlier, call, signature);
      if found.Some? then found
      else Verdict(codec, KnownCalls(earlier, false), ms[|ms| - 1], call, signature)
  }

  method GovernanceOutcome(codec: Codec, ms: seq<Message>, call: Call, signature: string) returns (r: Option<bool>)
    ensures r == Outcome(codec, ms, call, signature)
  {
    var calls: Calls := map[];
    for n := 0 to |ms|
      invariant calls == KnownCalls(ms[..n], false) && Outcome(codec, ms[..n], call, signature).None?
    {
      assert ms[..n + 1][..n] == ms[..n];
      var m := ms[n];
      if m.role == "assistant" {
        calls := RecordCalls(calls, m.calls, false);
        continue;
      }
      if m.role != "tool" || m.callId == "" || m.callId !in calls {
        continue;
      }
      var original := calls[m.callId];
      if original.name != call.name || codec.signature(original.name, original.arguments) != signature {
        continue;
      }
      var summary := codec.decode(m.content);
      if summary.Some? {
        r := Some(summary.value.success == Some(true));
        OutcomeStays(codec, ms, n + 1, call, signature);
        return;
      }
      if codec.isError(m.content) {
        r := Some(false);
        OutcomeStays(codec, ms, n + 1, call, signature);
        return;
      }
    }
    assert ms[..|ms|] == ms;
    r := None;
  }

  lemma {:induction false} OutcomeStays(codec: Codec, ms: seq<Message>, n: nat, call: Call, signature: string)
    requires n <= |ms| && Outcome(codec, ms[..n], call, signature).Some?
    ensures Outcome(codec, ms, call, signature) == Outcome(codec, ms[..n], call, signature)
    decreases |ms| - n
  {
    if n == |ms| {
      assert ms[..n] == ms;
    } else {
      assert ms[..n + 1][..n] == ms[..n];
      OutcomeStays(codec, ms, n + 1, call, signature);
    }
  }

  // --- Compaction never changes governance ----------------------------------------------

  lemma {:induction false} CallsPreserved(decode: Decoder, ms: seq<Message>, ms': seq<Message>, onlyExploration: bool)
    requires AllRewritten(decode, ms, ms')
    ensures KnownCalls(ms', onlyExploration) == KnownCalls(ms, onlyExploration)
  {
    if ms != [] {
      var n := |ms| - 1;
      assert Rewritten(decode, ms[n], ms'[n]);
      CallsPreserved(decode, ms[..n], ms'[..n], onlyExploration);
    }
  }

  /** Rewriting history neither refunds nor consumes an exploration budget. */
  lemma {:induction false} StatePreserved(codec: Codec, plan: Option<PlanRef>, ms: seq<Message>, ms': seq<Message>)
    requires AllRewritten(codec.decode, ms, ms')
    ensures State(codec, plan, ms') == State(codec, plan, ms)
  {
    if ms != [] {
      var n := |ms| - 1;
      assert Rewritten(codec.decode, ms[n], ms'[n]);
      CallsPreserved(codec.decode, ms[..n], ms'[..n], true);
      StatePreserved(codec, plan, ms[..n], ms'[..n]);
    }
  }

  /** Nor does it reopen or close a repeated governance call. */
  lemma {:induction false} OutcomePreserved(codec: Codec, ms: seq<Message>, ms': seq<Message>, call: Call, signature: string)
    requires AllRewritten(codec.decode, ms, ms')
    ensures Outcome(codec, ms', call, signature) == Outcome(codec, ms, call, signature)
  {
    if ms != [] {
      var n := |ms| - 1;
      assert Rewritten(codec.decode, ms[n], ms'[n]);
      CallsPreserved(codec.decode, ms[..n], ms'[..n], false);
      OutcomePreserved(codec, ms[..n], ms'[..n], call, signature);
    }
  }

  // --- The gate -------------------------------------------------------------------------

  datatype Config = Config(maxPage: int, maxFlow: int, maxRunPage: int, maxRunFlow: int,
                           maxPageRepeats: int, maxFlowRepeats: int)

  function OrDefault(value: int, fallback: int): int { if value <= 0 then fallback else value }

  function WithDefaults(c: Config): Config {
    Config(OrDefault(c.maxPage, 5), OrDefault(c.maxFlow, 4), OrDefault(c.maxRunPage, 10), OrDefault(c.maxRunFlow, 8),
           OrDefault(c.maxPageRepeats, 1), OrDefault(c.maxFlowRepeats, 1))
  }

  function RepeatLimit(c: Config, tool: string): int {
    if tool == "explore_page" then c.maxPageRepeats else c.maxFlowRepeats
  }

  datatype Refusal = Deadline | RunBudget | PlanBudget | Repeated

  function Signature(codec: Codec, call: Call): string { codec.signature(call.name, call.arguments) }

  function BudgetRefusal(config: Config, c: Counters, tool: string): Option<Refusal> {
    if tool == "explore_page" then
      if c.runPage >= config.maxRunPage then Some(RunBudget)
      else if c.planPage >= config.maxPage then Some(PlanBudget) else None
    else if tool == "explore_flow" then
      if c.runFlow >= config.maxRunFlow then Some(RunBudget)
      else if c.planFlow >= config.maxFlow then Some(PlanBudget) else None
    else None
  }

  /** beforeExplorationCall. */
  function ExplorationGate(codec: Codec, source: Config, late: bool, c: Counters, call: Call): Option<Refusal> {
    var config := WithDefaults(source);
    if late then Some(Deadline)
    else if BudgetRefusal(config, c, call.name).Some? then BudgetRefusal(config, c, call.name)
    else if Signature(codec, call) != "" && Uses(c, Signature(codec, call)) >= RepeatLimit(config, call.name)
    then Some(Repeated) else None
  }

  /** beforeGovernanceCall: a failed or rejected attempt must not be repeated. */
  predicate GovernanceRefused(codec: Codec, ms: seq<Message>, call: Call) {
    Signature(codec, call) != "" && Outcome(codec, ms, call, Signature(codec, call)) == Some(false)
  }

  /** Every gate decision, for every transcript, plan and call, is the same before and
      after compaction. */
  lemma CompactionPreservesGates(codec: Codec, config: Config, late: bool, plan: Option<PlanRef>,
                                 ms: seq<Message>, ms': seq<Message>, call: Call)
    requires AllRewritten(codec.decode, ms, ms')
    ensures ExplorationGate(codec, config, late, State(codec, plan, ms'), call)
         == ExplorationGate(codec, config, late, State(codec, plan, ms), call)
    ensures GovernanceRefused(codec, ms', call) == GovernanceRefused(codec, ms, call)
  {
    StatePreserved(codec, plan, ms, ms');
    OutcomePreserved(codec, ms, ms', call, Signature(codec, call));
  }

  // --- The reported budget ----------------------------------------------------------------

  datatype Counter = Counter(used: int, limit: int, remaining: int)

  datatype Budget = Budget(planPage: Counter, planFlow: Counter, runPage: Counter, runFlow: Counter,
                           signatureUses: Option<int>, signatureRemaining: Option<int>)

  function Remaining(limit: int, used: int): int { if used >= limit then 0 else limit - used }

  function CounterOf(used: int, limit: int): Counter { Counter(used, limit, Remaining(limit, used)) }

  function BudgetOf(codec: Codec, source: Config, c: Counters, call: Call): Budget {
    var config := WithDefaults(source);
    var signature := if IsExplorationTool(call.name) then Signature(codec, call) else "";
    var uses := Uses(c, signature);
    Budget(CounterOf(c.planPage, config.maxPage), CounterOf(c.planFlow, config.maxFlow),
           CounterOf(c.runPage, config.maxRunPage), CounterOf(c.runFlow, config.maxRunFlow),
           if signature == "" then None else Some(uses),
           if signature == "" then None else Some(Remaining(RepeatLimit(config, call.name), uses)))
  }

  /** ExplorationBudget: computed before the completed call's result is appended, with the
      call counted in. */
  method ExplorationBudget(codec: Codec, source: Config, ms: seq<Message>, plan: Option<PlanRef>, completed: Call)
    returns (budget: Budget)
    ensures budget == BudgetOf(codec, source, Completed(codec, State(codec, plan, ms), completed), completed)
  {
    var config := WithDefaults(source);
    var c := BuildExplorationState(codec, ms, plan);
    var signature := "";
    if IsExplorationTool(completed.name) {
      if completed.name == "explore_page" {
        c := c.(planPage := c.planPage + 1, runPage := c.runPage + 1);
      } else {
        c := c.(planFlow := c.planFlow + 1, runFlow := c.runFlow + 1);
      }
      signature := Signature(codec, completed);
      if signature != "" {
        c := c.(signatures := c.signatures[signature := Uses(c, signature) + 1]);
      }
    }
    budget := Budget(CounterOf(c.planPage, config.maxPage), CounterOf(c.planFlow, config.maxFlow),
                     CounterOf(c.runPage, config.maxRunPage), CounterOf(c.runFlow, config.maxRunFlow), None, None);
    if signature != "" {
      var uses := Uses(c, signature);
      budget := budget.(signatureUses := Some(uses),
                        signatureRemaining := Some(Remaining(RepeatLimit(config, completed.name), uses)));
    }
  }

  function Completed(codec: Codec, c: Counters, call: Call): Counters {
    if !IsExplorationTool(call.name) then c
    else CountSignature(CountPlan(CountRun(c, call.name), call.name), Signature(codec, call))
  }

  /** The message is the summary of this exploration call under this plan. */
  predicate Summarises(codec: Codec, m: Message, call: Call, plan: Option<PlanRef>) {
    && m.role == "tool" && m.callId == call.id && codec.decode(m.content).Some?
    && codec.decode(m.content).value.tool == call.name && codec.decode(m.content).value.taskPlan == plan
  }

  predicate Known(ms: seq<Message>, call: Call) {
    call.id in KnownCalls(ms, true) && KnownCalls(ms, true)[call.id] == call
  }

  lemma AppendedState(codec: Codec, plan: Option<PlanRef>, ms: seq<Message>, m: Message)
    ensures State(codec, plan, ms + [m]) == Count(codec, plan, KnownCalls(ms, true), State(codec, plan, ms), m)
    ensures KnownCalls(ms + [m], true) == if m.role == "assistant" then AddCalls(KnownCalls(ms, true), m.calls, true)
                                          else KnownCalls(ms, true)
  {
    assert (ms + [m])[..|ms|] == ms;
  }

  /** The budget reported with a result is the state the next gate computes, also when the
      transcript is compacted in between; so a remaining count of zero is exactly a
      refusal of the next call. */
  lemma ReportedBudget(codec: Codec, config: Config, ms: seq<Message>, m: Message, ms': seq<Message>, plan: Option<PlanRef>,
                       call: Call, next: Call)
    requires IsExplorationTool(call.name) && Summarises(codec, m, call, plan) && Known(ms, call)
    requires AllRewritten(codec.decode, ms + [m], ms')
    ensures Completed(codec, State(codec, plan, ms), call) == State(codec, plan, ms')
    ensures var reported := BudgetOf(codec, config, Completed(codec, State(codec, plan, ms), call), call);
            var refusal := ExplorationGate(codec, config, false, State(codec, plan, ms'), next);
            && (next.name == "explore_page" ==>
                  (refusal in {Some(RunBudget), Some(PlanBudget)} <==>
                     reported.runPage.remaining == 0 || reported.planPage.remaining == 0))
            && (next.name == "explore_flow" ==>
                  (refusal in {Some(RunBudget), Some(PlanBudget)} <==>
                     reported.runFlow.remaining == 0 || reported.planFlow.remaining == 0))
            && (Signature(codec, call) != "" ==>
                  (ExplorationGate(codec, config, false, State(codec, plan, ms'), call).Some? <==>
                     || reported.signatureRemaining == Some(0)
                     || BudgetRefusal(WithDefaults(config), State(codec, plan, ms'), call.name).Some?))
  {
    AppendedState(codec, plan, ms, m);
    StatePreserved(codec, plan, ms + [m], ms');
  }
}
