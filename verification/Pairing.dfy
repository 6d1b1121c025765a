/** The harness turn loop (internal/harness/harness.go, internal/agent/loop.go): which
    transcripts answer every tool call, across rejections, failures, pauses, resumes and
    generation handoffs. */
module Pairing {
  import opened Wrappers
  import opened Transcript
  import Compaction

  /** The next `|calls|` messages are their answers, in call order. */
  predicate Answers(calls: seq<Call>, messages: seq<Message>) {
    && |messages| >= |calls|
    && forall i :: 0 <= i < |calls| ==> messages[i].role == "tool" && messages[i].callId == calls[i].id
  }

  /** Every assistant turn is followed at once by the answers to all its calls, and there
      are no other tool messages. */
  predicate WellPaired(messages: seq<Message>)
    decreases |messages|
  {
    if messages == [] then true
    else if messages[0].role == "tool" then false
    else if messages[0].role != "assistant" then WellPaired(messages[1..])
    else
      Answers(messages[0].calls, messages[1..])
      && WellPaired(messages[1 + |messages[0].calls|..])
  }

  /** How the harness disposes of a call. Rejected and failed calls are answered too.
      `compacted` are the contents the per-turn compaction leaves, when it is enabled. */
  datatype Outcome =
    | Rejected(content: string)
    | Failed(content: string)
    | Succeeded(content: string, artifact: Artifact, ready: Option<string>, handoff: string,
                compacted: Option<seq<string>>)
    | Waits

  datatype Artifact = Nothing | DslGeneration(id: int) | TaskPlan

  /** A fresh segment opens when the plan is ready at a revision not yet handed off. */
  predicate OpensSegment(o: Outcome, marker: Option<string>) { o.Succeeded? && o.ready.Some? && o.ready != marker }

  function Answer(call: Call, content: string): Message { Message("tool", content, call.id, [], false) }

  /** The answer an outcome gives. */
  function Reply(call: Call, o: Outcome): Message
    requires !o.Waits?
  {
    Answer(call, o.content)
  }

  function Handoff(content: string): Message { Message("user", content, "", [], true) }

  /** Compaction rewrites contents and nothing else. */
  function WithContents(messages: seq<Message>, contents: Option<seq<string>>): seq<Message> {
    if contents.Some? && |contents.value| == |messages|
    then seq(|messages|, i requires 0 <= i < |messages| => messages[i].(content := contents.value[i]))
    else messages
  }

  lemma CompactionKeepsShape(decode: Compaction.Decoder, ms: seq<Message>, ms': seq<Message>)
    requires Compaction.AllRewritten(decode, ms, ms')
    ensures ms' == WithContents(ms, Some(seq(|ms'|, i requires 0 <= i < |ms'| => ms'[i].content)))
  {
    forall i | 0 <= i < |ms| ensures ms'[i] == ms[i].(content := ms'[i].content) {
      assert Compaction.Rewritten(decode, ms[i], ms'[i]);
    }
  }

  /** The transcript after one answered call. */
  function Extended(transcript: seq<Message>, call: Call, o: Outcome, marker: Option<string>): seq<Message>
    requires !o.Waits?
  {
    match o
    case Rejected(content) => transcript + [Answer(call, content)]
    case Failed(content) => transcript + [Answer(call, content)]
    case Succeeded(content, _, _, handoff, compacted) =>
      WithContents(transcript + [Answer(call, content)], compacted)
      + if OpensSegment(o, marker) then [Handoff(handoff)] else []
  }

  /** The transcript grew by the answer to the call and, when a segment opens, by its handoff;
      earlier messages keep everything but their contents. */
  predicate AnsweredBy(before: seq<Message>, after: seq<Message>, id: string, opens: bool, handoff: string) {
    var n := |before|;
    && |after| == n + (if opens then 2 else 1)
    && (forall i :: 0 <= i < n ==> after[i] == before[i].(content := after[i].content))
    && after[n] == Message("tool", after[n].content, id, [], false)
    && (opens ==> after[n + 1] == Message("user", handoff, "", [], true))
  }

  /** What a harness holds for one run: the transcript, the generation ids, the plan
      revision already handed off, the call the run waits for, and whether its loop runs. */
  datatype RunState = RunState(
    transcript: seq<Message>, latest: Option<int>, approved: Option<int>, marker: Option<string>,
    pending: Option<Call>, live: bool)

  function Applied(r: RunState, call: Call, o: Outcome): RunState
    requires !o.Waits?
  {
    var ids := if !o.Succeeded? then r
               else match o.artifact
                 case Nothing => r
                 case DslGeneration(id) => r.(latest := Some(id), approved := None)
                 case TaskPlan => r.(latest := None, approved := None);
    ids.(transcript := Extended(r.transcript, call, o, r.marker),
         marker := if OpensSegment(o, r.marker) then o.ready else r.marker)
  }

  /** The calls of one turn, in order, up to the first that waits for the user. */
  function Played(r: RunState, calls: seq<Call>, outcomes: seq<Outcome>): RunState
    requires |outcomes| == |calls|
    decreases |calls|
  {
    if calls == [] then r
    else if outcomes[0].Waits? then r.(pending := Some(calls[0]), live := false)
    else Played(Applied(r, calls[0], outcomes[0]), calls[1..], outcomes[1..])
  }

  /** What an answer says about the generation: `planned` when a plan store is configured,
      `accepted` when approving and recording there succeed. */
  datatype Approval = NotAsked | Asked(planned: bool, accepted: bool)

  predicate Waiting(r: RunState, id: string) { r.pending.Some? && r.pending.value.id == id }

  predicate ApprovalFails(r: RunState, a: Approval) { a.Asked? && a.planned && (r.latest.None? || !a.accepted) }

  class Harness {
    var transcript: seq<Message>
    var latest: Option<int>
    var approved: Option<int>
    var marker: Option<string>
    var pending: Option<Call>
    var live: bool

    constructor (input: string)
      ensures State() == Started(input)
    {
      transcript := [Message("user", input, "", [], false)];
      latest, approved, marker, pending := None, None, None, None;
      live := true;
    }

    function State(): RunState
      reads this
    {
      RunState(transcript, latest, approved, marker, pending, live)
    }

    /** recordRecoverableToolFailure, and the common tail of a successful call. */
    method Append(m: Message)
      modifies this`transcript
      ensures transcript == old(transcript) + [m]
    {
      transcript := transcript + [m];
    }

    method Succeed(call: Call, o: Outcome)
      requires o.Succeeded?
      modifies this
      ensures State() == Applied(old(State()), call, o)
      ensures pending == old(pending) && live == old(live)
      ensures match o.artifact
              case Nothing => latest == old(latest) && approved == old(approved)
              case DslGeneration(id) => latest == Some(id) && approved.None?
              case TaskPlan => latest.None? && approved.None?
      ensures var opens := o.ready.Some? && o.ready != old(marker);
              && marker == (if opens then o.ready else old(marker))
              && AnsweredBy(old(transcript), transcript, call.id, opens, o.handoff)
      ensures o.compacted.None? ==> transcript[..|old(transcript)|] == old(transcript)
                                    && transcript[|old(transcript)|].content == o.content
    {
      match o.artifact {
        case Nothing =>
        case DslGeneration(id) =>
          latest := Some(id);
          approved := None;
        case TaskPlan =>
          latest := None;
          approved := None;
      }
      var opens := o.ready.Some? && o.ready != marker;
      if opens {
        marker := o.ready;
      }
      Append(Answer(call, o.content));
      transcript := WithContents(transcript, o.compacted);
      if opens {
        Append(Handoff(o.handoff));
      }
    }

    /** The tool-call loop of continueRun. */
    method RunToolCalls(calls: seq<Call>, outcomes: seq<Outcome>) returns (goesOn: bool)
      requires |outcomes| == |calls| && live
      modifies this
      ensures State() == Played(old(State()), calls, outcomes) && goesOn == live
    {
      ghost var start := State();
      for n := 0 to |calls|
        invariant live && Played(start, calls, outcomes) == Played(State(), calls[n..], outcomes[n..])
      {
        assert calls[n..][1..] == calls[n + 1..] && outcomes[n..][1..] == outcomes[n + 1..];
        match outcomes[n] {
          case Rejected(content) => Append(Answer(calls[n], content));
          case Failed(content) => Append(Answer(calls[n], content));
          case Waits =>
            pending, live := Some(calls[n]), false;
            return false;
          case Succeeded(_, _, _, _, _) => Succeed(calls[n], outcomes[n]);
        }
      }
      goesOn := true;
    }

    /** One model turn: the assistant message, then its calls. */
    method Turn(content: string, calls: seq<Call>, outcomes: seq<Outcome>) returns (goesOn: bool)
      requires |outcomes| == |calls| && live
      modifies this
      ensures State() == Turned(old(State()), content, calls, outcomes) && goesOn == live
    {
      Append(Message("assistant", content, "", calls, false));
      goesOn := RunToolCalls(calls, outcomes);
    }

    /** Resume: the pending call is cleared first; the user's answer becomes the tool
        message only if the approval it carries does not fail. Continuing starts with no
        revision handed off. */
    method Resume(id: string, answer: string, a: Approval) returns (ok: bool)
      modifies this
      ensures State() == Resumed(old(State()), id, answer, a)
      ensures ok <==> Waiting(old(State()), id) && !ApprovalFails(old(State()), a)
      ensures old(pending).None? || old(pending).value.id != id ==> !ok && State() == old(State())
      ensures old(pending).Some? && old(pending).value.id == id ==>
                && pending.None? && latest == old(latest)
                && (ok <==> a.Asked? && a.planned ==> latest.Some? && a.accepted)
      ensures old(pending).Some? && old(pending).value.id == id && !ok ==>
                transcript == old(transcript) && approved == old(approved) && marker == old(marker) && live == old(live)
      ensures ok ==>
                && live && marker.None? && approved == (if a.Asked? then latest else old(approved))
                && transcript == old(transcript) + [Message("tool", answer, id, [], false)]
    {
      if pending.None? || pending.value.id != id {
        return false;
      }
      var call := pending.value;
      pending := None;
      if a.Asked? {
        if a.planned && (latest.None? || !a.accepted) {
          return false;
        }
        approved := latest;
      }
      Append(Answer(call, answer));
      marker := None;
      live := true;
      ok := true;
    }
  }

  function Turned(r: RunState, content: string, calls: seq<Call>, outcomes: seq<Outcome>): RunState
    requires |outcomes| == |calls|
  {
    Played(r.(transcript := r.transcript + [Message("assistant", content, "", calls, false)]), calls, outcomes)
  }

  function Resumed(r: RunState, id: string, answer: string, a: Approval): RunState {
    if !Waiting(r, id) then r
    else if ApprovalFails(r, a) then r.(pending := None)
    else r.(transcript := Answered(r, answer), approved := if a.Asked? then r.latest else r.approved, marker := None,
            pending := None, live := true)
  }

  /** The transcript once the pending call, if any, is answered. */
  function Answered(r: RunState, answer: string): seq<Message> {
    if r.pending.None? then r.transcript else r.transcript + [Answer(r.pending.value, answer)]
  }

  // --- What a turn does -----------------------------------------------------------------

  /** The first call that waits for the user, or the number of calls. */
  predicate StopsAt(outcomes: seq<Outcome>, n: nat) {
    n <= |outcomes| && (forall i :: 0 <= i < n ==> !outcomes[i].Waits?) && (n < |outcomes| ==> outcomes[n].Waits?)
  }

  /** The calls that the tool messages answer, in order. */
  function AnsweredIds(ms: seq<Message>): seq<string> {
    if ms == [] then []
    else AnsweredIds(ms[..|ms| - 1]) + if ms[|ms| - 1].role == "tool" then [ms[|ms| - 1].callId] else []
  }

  function Ids(calls: seq<Call>): seq<string> { seq(|calls|, i requires 0 <= i < |calls| => calls[i].id) }

  predicate Produces(o: Outcome) { o.Succeeded? && !o.artifact.Nothing? }

  lemma {:induction false} AnsweredIdsSame(ms: seq<Message>, ms': seq<Message>)
    requires |ms'| == |ms| && forall i :: 0 <= i < |ms| ==> ms'[i].role == ms[i].role && ms'[i].callId == ms[i].callId
    ensures AnsweredIds(ms') == AnsweredIds(ms)
  {
    if ms != [] {
      AnsweredIdsSame(ms[..|ms| - 1], ms'[..|ms| - 1]);
    }
  }

  lemma AppliedAnswers(r: RunState, call: Call, o: Outcome)
    requires !o.Waits?
    ensures AnsweredIds(Applied(r, call, o).transcript) == AnsweredIds(r.transcript) + [call.id]
  {
    var plain := r.transcript + [Reply(call, o)];
    assert plain[..|r.transcript|] == r.transcript;
    if o.Succeeded? {
      var written := WithContents(plain, o.compacted);
      AnsweredIdsSame(plain, written);
      if OpensSegment(o, r.marker) {
        assert (written + [Handoff(o.handoff)])[..|written|] == written;
      } else {
        assert written + [] == written;
      }
    }
  }

  lemma StopsRest(outcomes: seq<Outcome>, n: nat)
    requires StopsAt(outcomes, n) && n > 0
    ensures !outcomes[0].Waits? && StopsAt(outcomes[1..], n - 1)
  {
    assert forall i :: 0 <= i < |outcomes| - 1 ==> outcomes[1..][i] == outcomes[i + 1];
  }

  lemma IdsRest(calls: seq<Call>, n: nat)
    requires 0 < n <= |calls|
    ensures Ids(calls[..n]) == [calls[0].id] + Ids(calls[1..][..n - 1])
  {
  }

  /** A turn answers its calls in order, each once, up to the first that waits for the user. */
  lemma {:induction false} PlayedAnswers(r: RunState, calls: seq<Call>, outcomes: seq<Outcome>, n: nat)
    requires |outcomes| == |calls| && StopsAt(outcomes, n)
    ensures AnsweredIds(Played(r, calls, outcomes).transcript) == AnsweredIds(r.transcript) + Ids(calls[..n])
    decreases |calls|
  {
    if n == 0 {
      assert Ids(calls[..n]) == [];
    } else {
      StopsRest(outcomes, n);
      var next := Applied(r, calls[0], outcomes[0]);
      PlayedAnswers(next, calls[1..], outcomes[1..], n - 1);
      assert Played(r, calls, outcomes) == Played(next, calls[1..], outcomes[1..]);
      AppliedAnswers(r, calls[0], outcomes[0]);
      IdsRest(calls, n);
    }
  }

  /** Then the run waits for that call, and otherwise goes on. */
  lemma {:induction false} PlayedWaits(r: RunState, calls: seq<Call>, outcomes: seq<Outcome>, n: nat)
    requires |outcomes| == |calls| && StopsAt(outcomes, n)
    ensures var after := Played(r, calls, outcomes);
            if n < |calls| then after.pending == Some(calls[n]) && !after.live
            else after.pending == r.pending && after.live == r.live
    decreases |calls|
  {
    if n > 0 {
      StopsRest(outcomes, n);
      PlayedWaits(Applied(r, calls[0], outcomes[0]), calls[1..], outcomes[1..], n - 1);
    }
  }

  /** Call `i` is the last one of the turn that produced a generation or a plan. */
  predicate LastProduct(outcomes: seq<Outcome>, n: nat, i: int)
    requires n <= |outcomes|
  {
    0 <= i < n && Produces(outcomes[i]) && forall j :: i < j < n ==> !Produces(outcomes[j])
  }

  /** What the harness holds about generations after a product. */
  predicate Holds(r: RunState, a: Artifact) {
    r.approved.None? && match a
                        case Nothing => true
                        case DslGeneration(id) => r.latest == Some(id)
                        case TaskPlan => r.latest.None?
  }

  /** The last generation or plan a turn produces decides the latest generation and withdraws
      any approval; without one both stay. */
  lemma {:induction false} PlayedProducts(r: RunState, calls: seq<Call>, outcomes: seq<Outcome>, n: nat)
    requires |outcomes| == |calls| && StopsAt(outcomes, n)
    ensures (forall i :: 0 <= i < n ==> !Produces(outcomes[i])) ==>
              Played(r, calls, outcomes).latest == r.latest && Played(r, calls, outcomes).approved == r.approved
    ensures forall i :: LastProduct(outcomes, n, i) ==> Holds(Played(r, calls, outcomes), outcomes[i].artifact)
    decreases |calls|
  {
    if n > 0 {
      var rest := outcomes[1..];
      StopsRest(outcomes, n);
      assert forall i :: 0 <= i < |rest| ==> rest[i] == outcomes[i + 1];
      PlayedProducts(Applied(r, calls[0], outcomes[0]), calls[1..], rest, n - 1);
      forall i | LastProduct(outcomes, n, i) ensures Holds(Played(r, calls, outcomes), outcomes[i].artifact) {
        if i > 0 {
          LastProductRest(outcomes, n, i);
        } else {
          assert forall k :: 0 <= k < n - 1 ==> rest[k] == outcomes[k + 1];
        }
      }
    }
  }

  lemma LastProductRest(outcomes: seq<Outcome>, n: nat, i: int)
    requires n <= |outcomes| && LastProduct(outcomes, n, i) && i > 0
    ensures LastProduct(outcomes[1..], n - 1, i - 1)
  {
    forall j | i - 1 < j < n - 1 ensures !Produces(outcomes[1..][j]) {
      assert outcomes[1..][j] == outcomes[j + 1];
    }
  }

  // --- Pairing --------------------------------------------------------------------------

  lemma {:induction false} PairedAppend(a: seq<Message>, b: seq<Message>)
    requires WellPaired(a)
    ensures WellPaired(a + b) <==> WellPaired(b)
    decreases |a|
  {
    if a == [] {
      assert a + b == b;
    } else if a[0].role != "assistant" {
      assert (a + b)[1..] == a[1..] + b;
      PairedAppend(a[1..], b);
    } else {
      var k := 1 + |a[0].calls|;
      assert (a + b)[1..] == a[1..] + b;
      assert (a + b)[k..] == a[k..] + b;
      PairedAppend(a[k..], b);
    }
  }

  /** An assistant turn with exactly its answers. */
  lemma TurnPaired(m: Message, answers: seq<Message>)
    requires m.role == "assistant" && |answers| == |m.calls| && Answers(m.calls, answers)
    ensures WellPaired([m] + answers)
  {
    assert ([m] + answers)[1..] == answers;
    assert ([m] + answers)[1 + |m.calls|..] == [];
  }

  /** A turn that is not answered in full is not paired, whatever follows the answers. */
  lemma TurnShort(m: Message, rest: seq<Message>)
    requires m.role == "assistant" && !Answers(m.calls, rest)
    ensures !WellPaired([m] + rest)
  {
    assert ([m] + rest)[1..] == rest;
  }

  function MarkerAfter(marker: Option<string>, o: Outcome): Option<string> {
    if OpensSegment(o, marker) then o.ready else marker
  }

  /** Outcome `i` opens a segment, given those before it. */
  predicate Opens(marker: Option<string>, outcomes: seq<Outcome>, i: nat)
    requires i < |outcomes|
    decreases i
  {
    if i == 0 then OpensSegment(outcomes[0], marker)
    else Opens(MarkerAfter(marker, outcomes[0]), outcomes[1..], i - 1)
  }

  /** No call but the last waits, and no call but the last opens a segment, unless the
      last one opens another. */
  predicate Settled(marker: Option<string>, outcomes: seq<Outcome>) {
    && (forall i :: 0 <= i < |outcomes| - 1 ==> !outcomes[i].Waits?)
    && (LastOpens(marker, outcomes) || forall i :: 0 <= i < |outcomes| - 1 ==> !Opens(marker, outcomes, i))
  }

  predicate LastOpens(marker: Option<string>, outcomes: seq<Outcome>) {
    outcomes != [] && Opens(marker, outcomes, |outcomes| - 1)
  }

  /** After a segment was opened mid-turn: only opening one more at the end helps. */
  predicate Recovers(marker: Option<string>, outcomes: seq<Outcome>) {
    LastOpens(marker, outcomes) && forall i :: 0 <= i < |outcomes| - 1 ==> !outcomes[i].Waits?
  }

  lemma SettledStep(marker: Option<string>, outcomes: seq<Outcome>)
    requires |outcomes| > 1
    ensures var m', rest := MarkerAfter(marker, outcomes[0]), outcomes[1..];
            && (Recovers(marker, outcomes) <==> !outcomes[0].Waits? && Recovers(m', rest))
            && (Settled(marker, outcomes) <==>
                  && !outcomes[0].Waits?
                  && if OpensSegment(outcomes[0], marker) then Recovers(m', rest) else Settled(m', rest))
  {
    var m', rest := MarkerAfter(marker, outcomes[0]), outcomes[1..];
    assert forall i :: 0 <= i < |rest| ==> rest[i] == outcomes[i + 1];
    forall i | 0 <= i < |rest| ensures Opens(m', rest, i) == Opens(marker, outcomes, i + 1) {
    }
    if forall i :: 0 <= i < |rest| - 1 ==> !rest[i].Waits? {
      forall i | 1 <= i < |outcomes| - 1 ensures !outcomes[i].Waits? {
        assert !rest[i - 1].Waits?;
      }
    }
    if forall i :: 0 <= i < |rest| - 1 ==> !Opens(m', rest, i) {
      forall i | 1 <= i < |outcomes| - 1 ensures !Opens(marker, outcomes, i) {
        assert !Opens(m', rest, i - 1);
      }
    }
    if Settled(marker, outcomes) || Recovers(marker, outcomes) {
      forall i | 0 <= i < |rest| - 1 ensures !rest[i].Waits? {
        assert !outcomes[i + 1].Waits?;
      }
    }
    if forall i :: 0 <= i < |outcomes| - 1 ==> !Opens(marker, outcomes, i) {
      forall i | 0 <= i < |rest| - 1 ensures !Opens(m', rest, i) {
        assert !Opens(marker, outcomes, i + 1);
      }
      assert !Opens(marker, outcomes, 0);
    }
  }

  /** The segment the model sees after the calls, starting from segment `ctx`. */
  function Segment(ctx: seq<Message>, calls: seq<Call>, outcomes: seq<Outcome>,
                   marker: Option<string>, answer: string): seq<Message>
    requires |outcomes| == |calls|
    decreases |calls|
  {
    if calls == [] then ctx
    else if outcomes[0].Waits? then ctx + [Answer(calls[0], answer)]
    else
      var next := if OpensSegment(outcomes[0], marker) then [Handoff(outcomes[0].handoff)]
                  else ctx + [Reply(calls[0], outcomes[0])];
      Segment(next, calls[1..], outcomes[1..], MarkerAfter(marker, outcomes[0]), answer)
  }

  /** Messages without their contents, which pairing does not look at. */
  function Bare(messages: seq<Message>): seq<Message> {
    seq(|messages|, i requires 0 <= i < |messages| => messages[i].(content := ""))
  }

  lemma {:induction false} BarePaired(messages: seq<Message>)
    ensures WellPaired(Bare(messages)) == WellPaired(messages)
    decreases |messages|
  {
    if messages != [] {
      var bare := Bare(messages);
      assert bare[1..] == Bare(messages[1..]);
      if messages[0].role != "assistant" {
        BarePaired(messages[1..]);
      } else if |messages[1..]| >= |messages[0].calls| {
        var k := 1 + |messages[0].calls|;
        assert bare[k..] == Bare(messages[k..]);
        BarePaired(messages[k..]);
        assert forall i :: 0 <= i < |messages[0].calls| ==>
          bare[1..][i].role == messages[1..][i].role && bare[1..][i].callId == messages[1..][i].callId;
      }
    }
  }

  lemma {:induction false} BareBoundary(messages: seq<Message>)
    ensures FromBoundary(Bare(messages)) == Bare(FromBoundary(messages))
  {
    if messages != [] {
      var n := |messages| - 1;
      BareBoundary(messages[..n]);
      assert Bare(messages)[..n] == Bare(messages[..n]);
    }
  }

  /** Transcripts that differ in contents only are the same to the next request. */
  lemma SameBare(a: seq<Message>, b: seq<Message>)
    requires Bare(a) == Bare(b)
    ensures Bare(FromBoundary(a)) == Bare(FromBoundary(b))
  {
    BareBoundary(a);
    BareBoundary(b);
  }

  lemma WithContentsBare(messages: seq<Message>, contents: Option<seq<string>>)
    ensures Bare(WithContents(messages, contents)) == Bare(messages)
  {
  }

  lemma BareAppend(a: seq<Message>, b: seq<Message>)
    ensures Bare(a + b) == Bare(a) + Bare(b)
  {
  }

  lemma BareGrows(a: seq<Message>, b: seq<Message>, m: Message)
    requires Bare(FromBoundary(a)) == Bare(b)
    ensures Bare(FromBoundary(a + [m])) == if m.boundary then Bare([m]) else Bare(b + [m])
  {
    FromBoundaryAppend(a, m);
    BareAppend(FromBoundary(a), [m]);
    BareAppend(b, [m]);
  }

  lemma AppliedSegment(r: RunState, ctx: seq<Message>, call: Call, o: Outcome)
    requires !o.Waits? && Bare(FromBoundary(r.transcript)) == Bare(ctx)
    ensures Bare(FromBoundary(Applied(r, call, o).transcript))
         == if OpensSegment(o, r.marker) then Bare([Handoff(o.handoff)]) else Bare(ctx + [Reply(call, o)])
    ensures Applied(r, call, o).marker == MarkerAfter(r.marker, o)
  {
    var plain := r.transcript + [Reply(call, o)];
    BareGrows(r.transcript, ctx, Reply(call, o));
    if o.Succeeded? {
      var written := WithContents(plain, o.compacted);
      WithContentsBare(plain, o.compacted);
      SameBare(written, plain);
      if OpensSegment(o, r.marker) {
        BareGrows(written, FromBoundary(written), Handoff(o.handoff));
      } else {
        assert written + [] == written;
      }
    }
  }

  /** After the calls, compacted or not, the model sees the segment, up to contents. */
  lemma {:induction false} SegmentOf(r: RunState, ctx: seq<Message>, calls: seq<Call>, outcomes: seq<Outcome>,
                                     answer: string)
    requires |outcomes| == |calls| && r.pending.None? && Bare(FromBoundary(r.transcript)) == Bare(ctx)
    ensures Bare(FromBoundary(Answered(Played(r, calls, outcomes), answer)))
         == Bare(Segment(ctx, calls, outcomes, r.marker, answer))
    decreases |calls|
  {
    if calls != [] {
      if outcomes[0].Waits? {
        BareGrows(r.transcript, ctx, Answer(calls[0], answer));
      } else {
        var next := if OpensSegment(outcomes[0], r.marker) then [Handoff(outcomes[0].handoff)]
                    else ctx + [Reply(calls[0], outcomes[0])];
        AppliedSegment(r, ctx, calls[0], outcomes[0]);
        SegmentOf(Applied(r, calls[0], outcomes[0]), next, calls[1..], outcomes[1..], answer);
      }
    }
  }

  /** A segment that opens with a handoff and goes on with answers has lost their calls. */
  predicate Orphaned(ctx: seq<Message>) {
    && ctx != [] && ctx[0].role == "user"
    && forall i :: 1 <= i < |ctx| ==> ctx[i].role == "tool"
  }

  lemma OrphanedUnpaired(ctx: seq<Message>)
    requires Orphaned(ctx)
    ensures WellPaired(ctx) <==> |ctx| == 1
  {
    if |ctx| == 1 {
      assert ctx[1..] == [];
    } else {
      assert ctx[1..][0] == ctx[1];
    }
  }

  lemma {:induction false} OrphanedSegment(ctx: seq<Message>, calls: seq<Call>, outcomes: seq<Outcome>,
                                           marker: Option<string>, answer: string)
    requires |outcomes| == |calls| > 0 && Orphaned(ctx)
    ensures WellPaired(Segment(ctx, calls, outcomes, marker, answer)) <==> Recovers(marker, outcomes)
    decreases |calls|
  {
    var o := outcomes[0];
    if o.Waits? {
      OrphanedUnpaired(ctx + [Answer(calls[0], answer)]);
    } else {
      var next := if OpensSegment(o, marker) then [Handoff(o.handoff)] else ctx + [Reply(calls[0], o)];
      assert Orphaned(next);
      if |calls| == 1 {
        OrphanedUnpaired(next);
        assert Segment(next, calls[1..], outcomes[1..], MarkerAfter(marker, o), answer) == next;
      } else {
        OrphanedSegment(next, calls[1..], outcomes[1..], MarkerAfter(marker, o), answer);
      }
    }
    if |calls| > 1 {
      SettledStep(marker, outcomes);
    }
  }

  /** `ctx` is a paired prefix, the turn, and the answers to its first `j` calls. */
  predicate Midway(ctx: seq<Message>, before: seq<Message>, turn: Message, answers: seq<Message>, j: nat) {
    && ctx == before + [turn] + answers && WellPaired(before) && turn.role == "assistant"
    && |answers| == j <= |turn.calls|
    && forall i :: 0 <= i < j ==> answers[i].role == "tool" && answers[i].callId == turn.calls[i].id
  }

  lemma MidwayPaired(ctx: seq<Message>, before: seq<Message>, turn: Message, answers: seq<Message>, j: nat)
    requires Midway(ctx, before, turn, answers, j)
    ensures WellPaired(ctx) <==> j == |turn.calls|
  {
    assert ctx == before + ([turn] + answers);
    PairedAppend(before, [turn] + answers);
    if j == |turn.calls| {
      TurnPaired(turn, answers);
    } else {
      TurnShort(turn, answers);
    }
  }

  lemma {:induction false} MidwaySegment(ctx: seq<Message>, before: seq<Message>, turn: Message,
                                         answers: seq<Message>, j: nat, outcomes: seq<Outcome>,
                                         marker: Option<string>, answer: string)
    requires Midway(ctx, before, turn, answers, j) && |outcomes| == |turn.calls| - j
    ensures WellPaired(Segment(ctx, turn.calls[j..], outcomes, marker, answer)) <==> Settled(marker, outcomes)
    decreases |outcomes|
  {
    var calls := turn.calls[j..];
    if calls == [] {
      MidwayPaired(ctx, before, turn, answers, j);
    } else {
      var o := outcomes[0];
      assert calls[1..] == turn.calls[j + 1..];
      if |calls| > 1 {
        SettledStep(marker, outcomes);
      } else {
        LastSettled(marker, outcomes);
      }
      if o.Waits? {
        var given := Answer(calls[0], answer);
        assert before + [turn] + answers + [given] == before + [turn] + (answers + [given]);
        MidwayPaired(ctx + [given], before, turn, answers + [given], j + 1);
      } else if OpensSegment(o, marker) {
        var next := [Handoff(o.handoff)];
        OrphanedUnpaired(next);
        if |calls| > 1 {
          OrphanedSegment(next, calls[1..], outcomes[1..], MarkerAfter(marker, o), answer);
        } else {
          assert Segment(next, calls[1..], outcomes[1..], MarkerAfter(marker, o), answer) == next;
        }
      } else {
        var given := Reply(calls[0], o);
        assert before + [turn] + answers + [given] == before + [turn] + (answers + [given]);
        MidwaySegment(ctx + [given], before, turn, answers + [given], j + 1, outcomes[1..], MarkerAfter(marker, o), answer);
      }
    }
  }

  lemma LastSettled(marker: Option<string>, outcomes: seq<Outcome>)
    requires |outcomes| == 1
    ensures Settled(marker, outcomes) && forall m :: Settled(m, outcomes[1..])
  {
  }

  /** From a paired request, the next request is paired exactly when the turn is settled:
      a call that pauses the run or opens a generation segment before the last call of its
      turn leaves calls unanswered or answers without their call. */
  lemma NextRequestPaired(r: RunState, content: string, calls: seq<Call>, outcomes: seq<Outcome>, answer: string)
    requires |outcomes| == |calls| && r.pending.None? && WellPaired(FromBoundary(r.transcript))
    ensures WellPaired(FromBoundary(Answered(Turned(r, content, calls, outcomes), answer)))
       <==> Settled(r.marker, outcomes)
  {
    var turn := Message("assistant", content, "", calls, false);
    var started := r.(transcript := r.transcript + [turn]);
    var before := FromBoundary(r.transcript);
    FromBoundaryAppend(r.transcript, turn);
    SegmentOf(started, before + [turn], calls, outcomes, answer);
    BarePaired(FromBoundary(Answered(Played(started, calls, outcomes), answer)));
    BarePaired(Segment(before + [turn], calls, outcomes, r.marker, answer));
    assert before + [turn] == before + [turn] + [];
    MidwaySegment(before + [turn], before, turn, [], 0, outcomes, r.marker, answer);
    assert turn.calls[0..] == calls;
  }

  // --- Whole runs -----------------------------------------------------------------------

  /** A turn of the running loop, or a user's answer to call `id`, whoever sends it. */
  datatype Event =
    | TurnTaken(content: string, calls: seq<Call>, outcomes: seq<Outcome>)
    | AnswerGiven(id: string, answer: string, approval: Approval)

  /** Every call of every turn has its outcome. */
  predicate Complete(events: seq<Event>) {
    forall i :: 0 <= i < |events| && events[i].TurnTaken? ==> |events[i].outcomes| == |events[i].calls|
  }

  predicate SingleCalls(events: seq<Event>) {
    forall i :: 0 <= i < |events| && events[i].TurnTaken? ==> |events[i].calls| <= 1
  }

  /** Turns happen only while the loop runs. */
  function Step(r: RunState, e: Event): RunState
    requires e.TurnTaken? ==> |e.outcomes| == |e.calls|
  {
    match e
    case TurnTaken(content, calls, outcomes) => if r.live then Turned(r, content, calls, outcomes) else r
    case AnswerGiven(id, answer, approval) => Resumed(r, id, answer, approval)
  }

  function Started(input: string): RunState {
    RunState([Message("user", input, "", [], false)], None, None, None, None, true)
  }

  function RunFrom(r: RunState, events: seq<Event>): RunState
    requires Complete(events)
  {
    if events == [] then r else Step(RunFrom(r, events[..|events| - 1]), events[|events| - 1])
  }

  function RunOf(input: string, events: seq<Event>): RunState
    requires Complete(events)
  {
    RunFrom(Started(input), events)
  }

  /** A running loop builds paired requests, and a waiting run will once it is answered. */
  ghost predicate RequestsOk(r: RunState) {
    && (r.live ==> r.pending.None?)
    && (r.live || r.pending.Some? ==> forall answer :: WellPaired(FromBoundary(Answered(r, answer))))
  }

  lemma {:induction false} PlayedStatus(r: RunState, calls: seq<Call>, outcomes: seq<Outcome>)
    requires |outcomes| == |calls| && r.live && r.pending.None?
    ensures var after := Played(r, calls, outcomes); after.live <==> after.pending.None?
    decreases |calls|
  {
    if calls != [] && !outcomes[0].Waits? {
      PlayedStatus(Applied(r, calls[0], outcomes[0]), calls[1..], outcomes[1..]);
    }
  }

  lemma TurnKeeps(r: RunState, content: string, calls: seq<Call>, outcomes: seq<Outcome>)
    requires |outcomes| == |calls| <= 1 && r.live && RequestsOk(r)
    ensures RequestsOk(Turned(r, content, calls, outcomes))
  {
    var turn := Message("assistant", content, "", calls, false);
    PlayedStatus(r.(transcript := r.transcript + [turn]), calls, outcomes);
    assert Answered(r, "") == r.transcript;
    forall answer ensures WellPaired(FromBoundary(Answered(Turned(r, content, calls, outcomes), answer))) {
      NextRequestPaired(r, content, calls, outcomes, answer);
    }
  }

  lemma ResumeKeeps(r: RunState, id: string, answer: string, a: Approval)
    requires RequestsOk(r)
    ensures RequestsOk(Resumed(r, id, answer, a))
  {
    if Waiting(r, id) && !ApprovalFails(r, a) {
      assert WellPaired(FromBoundary(Answered(r, answer)));
    }
  }

  lemma {:induction false} RunKeeps(input: string, events: seq<Event>)
    requires Complete(events) && SingleCalls(events)
    ensures RequestsOk(RunOf(input, events))
  {
    if events == [] {
      var first := Message("user", input, "", [], false);
      FromBoundaryAppend([], first);
      assert [] + [first] == [first] && [first][1..] == [];
    } else {
      var r := RunOf(input, events[..|events| - 1]);
      RunKeeps(input, events[..|events| - 1]);
      match events[|events| - 1]
      case TurnTaken(content, calls, outcomes) =>
        if r.live {
          TurnKeeps(r, content, calls, outcomes);
        }
      case AnswerGiven(id, answer, approval) => ResumeKeeps(r, id, answer, approval);
    }
  }

  /** In every run whose turns carry at most one call, whatever answers arrive and whether
      or not transcripts are compacted, every request the loop builds answers each of its
      calls at once and holds no other answers, also behind a generation handoff. */
  lemma EveryRequestPaired(input: string, events: seq<Event>)
    requires Complete(events) && SingleCalls(events)
    ensures var r := RunOf(input, events); r.live ==> WellPaired(FromBoundary(r.transcript))
  {
    RunKeeps(input, events);
    var r := RunOf(input, events);
    if r.live {
      assert Answered(r, "") == r.transcript;
    }
  }

  /** A run that neither runs nor waits stays as it is. */
  lemma {:induction false} Stranded(r: RunState, events: seq<Event>)
    requires Complete(events) && !r.live && r.pending.None?
    ensures RunFrom(r, events) == r
  {
    if events != [] {
      Stranded(r, events[..|events| - 1]);
    }
  }

  /** The answer a run waits for resumes it exactly when its approval does not fail. A
      failed approval has cleared the pending call already, so no later answer is taken and
      the run never makes another request. */
  lemma {:induction false} FailedApprovalStrands(r: RunState, id: string, answer: string, a: Approval, events: seq<Event>)
    requires Waiting(r, id) && !r.live && Complete(events)
    ensures Resumed(r, id, answer, a).live <==> !ApprovalFails(r, a)
    ensures ApprovalFails(r, a) ==> RunFrom(Resumed(r, id, answer, a), events) == r.(pending := None)
  {
    if ApprovalFails(r, a) {
      Stranded(r.(pending := None), events);
    }
  }

  /** A turn with two calls, the first of which pauses the run, breaks the next request. */
  lemma PauseBeforeLastCall(r: RunState, first: Call, second: Call, o: Outcome, answer: string)
    requires r.pending.None? && WellPaired(FromBoundary(r.transcript))
    ensures !WellPaired(FromBoundary(Answered(Turned(r, "", [first, second], [Waits, o]), answer)))
  {
    NextRequestPaired(r, "", [first, second], [Waits, o], answer);
    assert [Waits, o][0].Waits?;
  }

  /** What pairing means for a reader: the call a tool message answers stands before it,
      at the distance its position in the turn gives. */
  lemma {:induction false} PairedMeaning(messages: seq<Message>, t: nat)
    requires WellPaired(messages) && t < |messages| && messages[t].role == "tool"
    ensures exists a :: 0 <= a < t && Calls(messages, a, t)
    decreases |messages|
  {
    if messages[0].role != "assistant" {
      PairedMeaning(messages[1..], t - 1);
      var a :| 0 <= a < t - 1 && Calls(messages[1..], a, t - 1);
      assert Calls(messages, a + 1, t);
    } else if t <= |messages[0].calls| {
      assert messages[1..][t - 1] == messages[t];
      assert Calls(messages, 0, t);
    } else {
      var k := 1 + |messages[0].calls|;
      PairedMeaning(messages[k..], t - k);
      var a :| 0 <= a < t - k && Calls(messages[k..], a, t - k);
      assert Calls(messages, a + k, t);
    }
  }

  /** The assistant message `a` is the nearest one before `t`, and `t` answers its call at
      the same distance. */
  predicate Calls(messages: seq<Message>, a: int, t: int)
    requires 0 <= a < t < |messages|
  {
    && messages[a].role == "assistant" && t - a - 1 < |messages[a].calls|
    && messages[a].calls[t - a - 1].id == messages[t].callId
  }

  // --- Approval -------------------------------------------------------------------------

  predicate ApprovalCurrent(r: RunState) { r.approved.Some? ==> r.approved == r.latest }

  lemma {:induction false} PlayedApproval(r: RunState, calls: seq<Call>, outcomes: seq<Outcome>)
    requires |outcomes| == |calls| && ApprovalCurrent(r)
    ensures ApprovalCurrent(Played(r, calls, outcomes))
    decreases |calls|
  {
    if calls != [] && !outcomes[0].Waits? {
      PlayedApproval(Applied(r, calls[0], outcomes[0]), calls[1..], outcomes[1..]);
    }
  }

  /** In every run, whatever its turns and answers, an approved generation is the latest
      one: a new generation or a new plan withdraws the approval execute_dsl depends on. */
  lemma {:induction false} ApprovedIsLatest(input: string, events: seq<Event>)
    requires Complete(events)
    ensures ApprovalCurrent(RunOf(input, events))
  {
    if events != [] {
      var r, e := RunOf(input, events[..|events| - 1]), events[|events| - 1];
      ApprovedIsLatest(input, events[..|events| - 1]);
      if e.TurnTaken? {
        var turn := Message("assistant", e.content, "", e.calls, false);
        PlayedApproval(r.(transcript := r.transcript + [turn]), e.calls, e.outcomes);
      }
    }
  }
}
