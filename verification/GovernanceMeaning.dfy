/** What the tool policy's counters and gates mean, read off the transcript itself
    (internal/harness/policy.go). */
module GovernanceMeaning {
  import opened Wrappers
  import opened Summary
  import opened Transcript
  import opened Compaction
  import opened Governance

  // --- The call a tool message answers --------------------------------------------------

  /** Call `k` of the assistant message `a` has this id. */
  predicate CallAt(ms: seq<Message>, onlyExploration: bool, id: string, a: int, k: int) {
    && 0 <= a < |ms| && ms[a].role == "assistant" && 0 <= k < |ms[a].calls| && ms[a].calls[k].id == id != ""
    && (onlyExploration ==> ms[a].calls[k].name == "explore_page" || ms[a].calls[k].name == "explore_flow")
  }

  /** Position (a, k) comes after position (b, l). */
  predicate Later(a: int, k: int, b: int, l: int) { a > b || (a == b && k > l) }

  ghost predicate NoCall(ms: seq<Message>, onlyExploration: bool, id: string) {
    forall a, k :: !CallAt(ms, onlyExploration, id, a, k)
  }

  /** `call` is the last one proposed under this id. */
  ghost predicate LastCall(ms: seq<Message>, onlyExploration: bool, id: string, call: Call) {
    exists a, k :: LastAt(ms, onlyExploration, id, call, a, k)
  }

  ghost predicate LastAt(ms: seq<Message>, onlyExploration: bool, id: string, call: Call, a: int, k: int) {
    && CallAt(ms, onlyExploration, id, a, k) && ms[a].calls[k] == call
    && forall b, l :: CallAt(ms, onlyExploration, id, b, l) ==> !Later(b, l, a, k)
  }

  /** The same within one assistant message. */
  predicate OneAt(proposed: seq<Call>, onlyExploration: bool, id: string, k: int) {
    && 0 <= k < |proposed| && proposed[k].id == id != ""
    && (onlyExploration ==> proposed[k].name == "explore_page" || proposed[k].name == "explore_flow")
  }

  lemma {:induction false} AddedCalls(calls: Calls, proposed: seq<Call>, onlyExploration: bool, id: string)
    ensures var added := AddCalls(calls, proposed, onlyExploration);
            || (exists k :: OneAt(proposed, onlyExploration, id, k) && id in added && added[id] == proposed[k]
                            && forall l :: k < l < |proposed| ==> !OneAt(proposed, onlyExploration, id, l))
            || ((forall k :: 0 <= k < |proposed| ==> !OneAt(proposed, onlyExploration, id, k))
                && (id in added <==> id in calls) && (id in calls ==> added[id] == calls[id]))
  {
    if proposed != [] {
      var n := |proposed| - 1;
      var rest := proposed[..n];
      AddedCalls(calls, rest, onlyExploration, id);
      assert forall k :: 0 <= k < n ==>
               OneAt(rest, onlyExploration, id, k) == OneAt(proposed, onlyExploration, id, k);
      if OneAt(proposed, onlyExploration, id, n) {
        assert AddCalls(calls, proposed, onlyExploration)[id] == proposed[n];
      }
    }
  }

  /** The calls the policy knows are exactly the last ones proposed under each id. */
  lemma {:induction false} KnownMeans(ms: seq<Message>, onlyExploration: bool, id: string)
    ensures id in KnownCalls(ms, onlyExploration) ==>
              LastCall(ms, onlyExploration, id, KnownCalls(ms, onlyExploration)[id])
    ensures id !in KnownCalls(ms, onlyExploration) ==> NoCall(ms, onlyExploration, id)
  {
    if ms != [] {
      var n := |ms| - 1;
      var rest := ms[..n];
      KnownMeans(rest, onlyExploration, id);
      assert forall a, k :: a != n ==> CallAt(ms, onlyExploration, id, a, k) == CallAt(rest, onlyExploration, id, a, k);
      if ms[n].role == "assistant" {
        AddedCalls(KnownCalls(rest, onlyExploration), ms[n].calls, onlyExploration, id);
        assert forall k :: CallAt(ms, onlyExploration, id, n, k) <==> OneAt(ms[n].calls, onlyExploration, id, k);
      }
      if k :| ms[n].role == "assistant" && OneAt(ms[n].calls, onlyExploration, id, k)
              && forall l :: k < l < |ms[n].calls| ==> !OneAt(ms[n].calls, onlyExploration, id, l) {
        assert LastAt(ms, onlyExploration, id, ms[n].calls[k], n, k);
      } else if id in KnownCalls(rest, onlyExploration) {
        var call := KnownCalls(rest, onlyExploration)[id];
        var a, k :| LastAt(rest, onlyExploration, id, call, a, k);
        assert LastAt(ms, onlyExploration, id, call, a, k);
      }
    }
  }

  lemma LastUnique(ms: seq<Message>, onlyExploration: bool, id: string, c: Call, d: Call)
    requires LastCall(ms, onlyExploration, id, c) && LastCall(ms, onlyExploration, id, d)
    ensures c == d
  {
    var a, k :| LastAt(ms, onlyExploration, id, c, a, k);
    var b, l :| LastAt(ms, onlyExploration, id, d, b, l);
    assert !Later(b, l, a, k) && !Later(a, k, b, l);
  }

  /** The call with id `id`, read either way. */
  lemma KnownIff(ms: seq<Message>, onlyExploration: bool, id: string, call: Call)
    ensures LastCall(ms, onlyExploration, id, call) <==>
            id in KnownCalls(ms, onlyExploration) && KnownCalls(ms, onlyExploration)[id] == call
  {
    KnownMeans(ms, onlyExploration, id);
    if LastCall(ms, onlyExploration, id, call) {
      var a, k :| LastAt(ms, onlyExploration, id, call, a, k);
      assert CallAt(ms, onlyExploration, id, a, k);
      LastUnique(ms, onlyExploration, id, call, KnownCalls(ms, onlyExploration)[id]);
    }
  }

  // --- Repeated governance calls --------------------------------------------------------

  /** Message `i` completes an attempt of this call: it answers a call of the same name and
      signature, with a summary or a recorded error. */
  ghost predicate Completes(codec: Codec, ms: seq<Message>, i: int, call: Call, signature: string) {
    && 0 <= i < |ms| && ms[i].role == "tool" && ms[i].callId != ""
    && (exists original :: LastCall(ms[..i], false, ms[i].callId, original) && original.name == call.name
                           && codec.signature(original.name, original.arguments) == signature)
    && (codec.decode(ms[i].content).Some? || codec.isError(ms[i].content))
  }

  predicate Succeeds(codec: Codec, m: Message) {
    codec.decode(m.content).Some? && codec.decode(m.content).value.success == Some(true)
  }

  /** Message `i` completes the first attempt. */
  ghost predicate FirstAttempt(codec: Codec, ms: seq<Message>, i: int, call: Call, signature: string) {
    Completes(codec, ms, i, call, signature) && forall j :: 0 <= j < i ==> !Completes(codec, ms, j, call, signature)
  }

  lemma CompletesPrefix(codec: Codec, ms: seq<Message>, n: nat, i: int, call: Call, signature: string)
    requires i < n <= |ms|
    ensures Completes(codec, ms[..n], i, call, signature) <==> Completes(codec, ms, i, call, signature)
  {
    if 0 <= i {
      assert ms[..n][..i] == ms[..i];
    }
  }

  lemma VerdictMeans(codec: Codec, ms: seq<Message>, n: nat, call: Call, signature: string)
    requires n < |ms|
    ensures var v := Verdict(codec, KnownCalls(ms[..n], false), ms[n], call, signature);
            && (v.Some? <==> Completes(codec, ms, n, call, signature))
            && (v.Some? ==> (v.value <==> Succeeds(codec, ms[n])))
  {
    var id := ms[n].callId;
    if id in KnownCalls(ms[..n], false) {
      KnownIff(ms[..n], false, id, KnownCalls(ms[..n], false)[id]);
    }
    forall original ensures LastCall(ms[..n], false, id, original) ==>
                            id in KnownCalls(ms[..n], false) && KnownCalls(ms[..n], false)[id] == original {
      KnownIff(ms[..n], false, id, original);
    }
  }

  /** The outcome of a call is that of its first completed attempt in the transcript: none
      when there is no attempt, and a success exactly when that attempt succeeded. */
  lemma {:induction false} OutcomeMeans(codec: Codec, ms: seq<Message>, call: Call, signature: string)
    ensures var r := Outcome(codec, ms, call, signature);
            && (r.None? <==> forall i :: !Completes(codec, ms, i, call, signature))
            && (r.Some? ==> exists i :: FirstAttempt(codec, ms, i, call, signature) && (r.value <==> Succeeds(codec, ms[i])))
  {
    if ms != [] {
      var n := |ms| - 1;
      OutcomeMeans(codec, ms[..n], call, signature);
      VerdictMeans(codec, ms, n, call, signature);
      forall i | i < n
        ensures Completes(codec, ms[..n], i, call, signature) <==> Completes(codec, ms, i, call, signature)
      {
        CompletesPrefix(codec, ms, n, i, call, signature);
      }
      if i :| FirstAttempt(codec, ms[..n], i, call, signature)
              && (Outcome(codec, ms[..n], call, signature).value <==> Succeeds(codec, ms[..n][i])) {
        assert FirstAttempt(codec, ms, i, call, signature);
      } else if Completes(codec, ms, n, call, signature) {
        assert FirstAttempt(codec, ms, n, call, signature);
      }
    }
  }

  /** A governance call is refused exactly when its first completed attempt did not succeed:
      a success never blocks a repetition, a failed or rejected attempt always does. */
  lemma RefusedMeans(codec: Codec, ms: seq<Message>, call: Call)
    ensures var signature := codec.signature(call.name, call.arguments);
            GovernanceRefused(codec, ms, call) <==>
              && signature != ""
              && exists i :: FirstAttempt(codec, ms, i, call, signature) && !Succeeds(codec, ms[i])
  {
    var signature := codec.signature(call.name, call.arguments);
    OutcomeMeans(codec, ms, call, signature);
    forall i, j | FirstAttempt(codec, ms, i, call, signature) && FirstAttempt(codec, ms, j, call, signature)
      ensures i == j
    {
    }
  }

  // --- Exploration counters ---------------------------------------------------------------

  /** Message `i` is the summary of a probe with this tool, failed or not. */
  predicate Probed(codec: Codec, ms: seq<Message>, tool: string, i: int) {
    && 0 <= i < |ms| && ms[i].role == "tool"
    && codec.decode(ms[i].content).Some? && codec.decode(ms[i].content).value.tool == tool
  }

  /** The probe was made under this plan revision; without a plan every probe counts. */
  predicate PlanProbed(codec: Codec, plan: Option<PlanRef>, ms: seq<Message>, tool: string, i: int) {
    Probed(codec, ms, tool, i) && (plan.None? || codec.decode(ms[i].content).value.taskPlan == plan)
  }

  /** It answers an exploration call of this signature. */
  ghost predicate Repeats(codec: Codec, plan: Option<PlanRef>, ms: seq<Message>, signature: string, i: int) {
    && (PlanProbed(codec, plan, ms, "explore_page", i) || PlanProbed(codec, plan, ms, "explore_flow", i))
    && exists call :: LastCall(ms[..i], true, ms[i].callId, call)
                      && codec.signature(call.name, call.arguments) == signature
  }

  /** The indices below `n` that satisfy `p`. */
  ghost function Where(n: nat, p: int -> bool): set<int> { set i | 0 <= i < n && p(i) }

  lemma WhereGrows(n: nat, p: int -> bool, q: int -> bool)
    requires forall i :: 0 <= i < n ==> (p(i) <==> q(i))
    ensures |Where(n + 1, q)| == |Where(n, p)| + if q(n) then 1 else 0
  {
    assert Where(n + 1, q) == if q(n) then Where(n, p) + {n} else Where(n, p);
  }

  lemma {:induction false} RunCounted(codec: Codec, plan: Option<PlanRef>, ms: seq<Message>)
    ensures State(codec, plan, ms).runPage == |Where(|ms|, i => Probed(codec, ms, "explore_page", i))|
    ensures State(codec, plan, ms).runFlow == |Where(|ms|, i => Probed(codec, ms, "explore_flow", i))|
  {
    if ms != [] {
      var n := |ms| - 1;
      RunCounted(codec, plan, ms[..n]);
      WhereGrows(n, i => Probed(codec, ms[..n], "explore_page", i), i => Probed(codec, ms, "explore_page", i));
      WhereGrows(n, i => Probed(codec, ms[..n], "explore_flow", i), i => Probed(codec, ms, "explore_flow", i));
    } else {
      assert Where(0, i => Probed(codec, ms, "explore_page", i)) == {};
      assert Where(0, i => Probed(codec, ms, "explore_flow", i)) == {};
    }
  }

  lemma {:induction false} PlanCounted(codec: Codec, plan: Option<PlanRef>, ms: seq<Message>)
    ensures State(codec, plan, ms).planPage == |Where(|ms|, i => PlanProbed(codec, plan, ms, "explore_page", i))|
    ensures State(codec, plan, ms).planFlow == |Where(|ms|, i => PlanProbed(codec, plan, ms, "explore_flow", i))|
  {
    if ms != [] {
      var n := |ms| - 1;
      PlanCounted(codec, plan, ms[..n]);
      WhereGrows(n, i => PlanProbed(codec, plan, ms[..n], "explore_page", i),
                 i => PlanProbed(codec, plan, ms, "explore_page", i));
      WhereGrows(n, i => PlanProbed(codec, plan, ms[..n], "explore_flow", i),
                 i => PlanProbed(codec, plan, ms, "explore_flow", i));
    } else {
      assert Where(0, i => PlanProbed(codec, plan, ms, "explore_page", i)) == {};
      assert Where(0, i => PlanProbed(codec, plan, ms, "explore_flow", i)) == {};
    }
  }

  lemma RepeatsPrefix(codec: Codec, plan: Option<PlanRef>, ms: seq<Message>, signature: string, n: nat, i: int)
    requires i < n <= |ms|
    ensures Repeats(codec, plan, ms[..n], signature, i) <==> Repeats(codec, plan, ms, signature, i)
  {
    if 0 <= i {
      assert ms[..n][..i] == ms[..i];
    }
  }

  lemma RepeatAdds(codec: Codec, plan: Option<PlanRef>, ms: seq<Message>, signature: string)
    requires ms != [] && signature != ""
    ensures Uses(State(codec, plan, ms), signature)
         == Uses(State(codec, plan, ms[..|ms| - 1]), signature)
            + if Repeats(codec, plan, ms, signature, |ms| - 1) then 1 else 0
  {
    var n := |ms| - 1;
    var id := ms[n].callId;
    forall call ensures LastCall(ms[..n], true, id, call) <==>
                        id in KnownCalls(ms[..n], true) && KnownCalls(ms[..n], true)[id] == call {
      KnownIff(ms[..n], true, id, call);
    }
  }

  lemma {:induction false} RepeatsCounted(codec: Codec, plan: Option<PlanRef>, ms: seq<Message>, signature: string)
    requires signature != ""
    ensures Uses(State(codec, plan, ms), signature) == |Where(|ms|, i => Repeats(codec, plan, ms, signature, i))|
  {
    if ms != [] {
      var n := |ms| - 1;
      RepeatsCounted(codec, plan, ms[..n], signature);
      RepeatAdds(codec, plan, ms, signature);
      forall i | 0 <= i < n
        ensures Repeats(codec, plan, ms[..n], signature, i) <==> Repeats(codec, plan, ms, signature, i)
      {
        RepeatsPrefix(codec, plan, ms, signature, n, i);
      }
      WhereGrows(n, i => Repeats(codec, plan, ms[..n], signature, i), i => Repeats(codec, plan, ms, signature, i));
    } else {
      assert Where(0, i => Repeats(codec, plan, ms, signature, i)) == {};
    }
  }

  /** The policy's counters are how many messages of the transcript are probes, are probes
      under the plan, and are probes with a given signature. */
  lemma StateMeans(codec: Codec, plan: Option<PlanRef>, ms: seq<Message>, signature: string)
    requires signature != ""
    ensures var c := State(codec, plan, ms);
            && c.runPage == |Where(|ms|, i => Probed(codec, ms, "explore_page", i))|
            && c.runFlow == |Where(|ms|, i => Probed(codec, ms, "explore_flow", i))|
            && c.planPage == |Where(|ms|, i => PlanProbed(codec, plan, ms, "explore_page", i))|
            && c.planFlow == |Where(|ms|, i => PlanProbed(codec, plan, ms, "explore_flow", i))|
            && Uses(c, signature) == |Where(|ms|, i => Repeats(codec, plan, ms, signature, i))|
  {
    RunCounted(codec, plan, ms);
    PlanCounted(codec, plan, ms);
    RepeatsCounted(codec, plan, ms, signature);
  }

  // --- The gate -----------------------------------------------------------------------------

  /** The count has reached its limit: the configured one when it is positive, else the
      standard one. */
  predicate Spent(count: int, configured: int, standard: int) {
    if configured > 0 then count >= configured else count >= standard
  }

  predicate RunSpent(config: Config, c: Counters, tool: string) {
    || (tool == "explore_page" && Spent(c.runPage, config.maxRunPage, 10))
    || (tool == "explore_flow" && Spent(c.runFlow, config.maxRunFlow, 8))
  }

  predicate PlanSpent(config: Config, c: Counters, tool: string) {
    || (tool == "explore_page" && Spent(c.planPage, config.maxPage, 5))
    || (tool == "explore_flow" && Spent(c.planFlow, config.maxFlow, 4))
  }

  predicate SignatureSpent(codec: Codec, config: Config, c: Counters, call: Call) {
    var signature := codec.signature(call.name, call.arguments);
    && signature != ""
    && Spent(Uses(c, signature), if call.name == "explore_page" then config.maxPageRepeats else config.maxFlowRepeats, 1)
  }

  /** Every refusal of an exploration call, with its limits and their order: the deadline,
      the run's budget, the plan's budget, a repeated signature. */
  lemma GateMeans(codec: Codec, config: Config, late: bool, c: Counters, call: Call)
    ensures var refusal := ExplorationGate(codec, config, late, c, call);
            && (refusal == Some(Deadline) <==> late)
            && (refusal == Some(RunBudget) <==> !late && RunSpent(config, c, call.name))
            && (refusal == Some(PlanBudget) <==>
                  !late && !RunSpent(config, c, call.name) && PlanSpent(config, c, call.name))
            && (refusal == Some(Repeated) <==>
                  && !late && !RunSpent(config, c, call.name) && !PlanSpent(config, c, call.name)
                  && SignatureSpent(codec, config, c, call))
  {
    assert Signature(codec, call) == codec.signature(call.name, call.arguments);
  }

  // --- The reported budget --------------------------------------------------------------------

  predicate Reports(counter: Counter, used: int, configured: int, standard: int) {
    && counter.used == used && counter.limit == (if configured > 0 then configured else standard)
    && counter.remaining == if used < counter.limit then counter.limit - used else 0
  }

  /** The budget reported with a completed call: each counter, the call included, its limit,
      and what is left of it; the signature only for a probe that has one. */
  lemma BudgetMeans(codec: Codec, config: Config, c: Counters, call: Call)
    ensures var b := BudgetOf(codec, config, Completed(codec, c, call), call);
            var signature := codec.signature(call.name, call.arguments);
            var page, flow := if call.name == "explore_page" then 1 else 0, if call.name == "explore_flow" then 1 else 0;
            var repeats := if call.name == "explore_page" then config.maxPageRepeats else config.maxFlowRepeats;
            && Reports(b.planPage, c.planPage + page, config.maxPage, 5)
            && Reports(b.planFlow, c.planFlow + flow, config.maxFlow, 4)
            && Reports(b.runPage, c.runPage + page, config.maxRunPage, 10)
            && Reports(b.runFlow, c.runFlow + flow, config.maxRunFlow, 8)
            && if page + flow == 0 || signature == "" then b.signatureUses.None? && b.signatureRemaining.None?
               else
                 && b.signatureUses.Some? && b.signatureRemaining.Some?
                 && Reports(Counter(b.signatureUses.value, if repeats > 0 then repeats else 1, b.signatureRemaining.value),
                            Uses(c, signature) + 1, repeats, 1)
  {
    assert Signature(codec, call) == codec.signature(call.name, call.arguments);
  }
}
