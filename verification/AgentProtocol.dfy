/** Service operations on one agent run, interleaved in any way with each other and with
    cancellation (internal/agentservice/service.go). Each operation is the list of
    repository transactions it performs on a copy of the row it read earlier, however
    stale; the first one that fails ends it. */
module AgentProtocol {
  import opened Wrappers
  import opened AgentLog

  datatype Action = Append(kind: Kind, payload: string) | Save(row: Row)

  datatype Operation =
    | RequestUserInput(call: string, step: string, questions: string)
    | ResumeToolCall(call: string, answers: string)
    | CompleteRun
    | FailRun(cause: string)
    | RecordEvent(kind: Kind, payload: string)
    | SaveTranscript(transcript: string)

  /** What the operation will do, or None when it refuses the copy it read. */
  function Program(op: Operation, copy: Row): Option<seq<Action>> {
    match op
    case RequestUserInput(call, step, questions) =>
      if copy.status != Running then None
      else Some([Append(ToolPending, questions),
                 Save(copy.(status := WaitingUser, pendingCall := Some(call), pendingStep := Some(step)))])
    case ResumeToolCall(call, answers) =>
      if copy.status != WaitingUser || copy.pendingCall != Some(call) then None
      else Some([Append(ToolResult, answers), Append(ToolFinished, ""),
                 Save(copy.(status := Running, pendingCall := None, pendingStep := None))])
    case CompleteRun =>
      Some([Save(copy.(status := Completed, pendingCall := None, pendingStep := None)), Append(RunFinished, "")])
    case FailRun(cause) =>
      Some([Save(copy.(status := Failed, pendingCall := None, pendingStep := None)), Append(RunFailed, cause)])
    case RecordEvent(kind, payload) => if kind == RunCancelled then None else Some([Append(kind, payload)])
    case SaveTranscript(transcript) => Some([Save(copy.(transcript := transcript))])
  }

  /** `copies[w]` is the row worker `w` read last; `todo[w]` what is left of its operation. */
  datatype System = System(log: RunLog, copies: map<int, Row>, todo: map<int, seq<Action>>)

  datatype Step =
    | Read(worker: int)
    | Begin(worker: int, op: Operation)
    | Act(worker: int)
    | Cancel(reason: string)
    | Lost(worker: int)

  ghost predicate Enabled(s: System, e: Step) {
    match e
    case Begin(w, op) => w in s.copies && Program(op, s.copies[w]).Some?
    case Act(w) => w in s.todo && s.todo[w] != []
    case _ => true
  }

  function Performed(log: RunLog, a: Action): Result<RunLog, Error> {
    match a
    case Append(kind, payload) => Appended(log, Event(0, kind, payload))
    case Save(row) => Saved(log, row)
  }

  ghost function Next(s: System, e: Step): System
    requires Enabled(s, e)
  {
    match e
    case Read(w) => s.(copies := s.copies[w := s.log.row])
    case Begin(w, op) => s.(todo := s.todo[w := Program(op, s.copies[w]).value])
    case Act(w) =>
      var r := Performed(s.log, s.todo[w][0]);
      if r.Err? then s.(todo := s.todo[w := []]) else s.(log := r.value, todo := s.todo[w := s.todo[w][1..]])
    case Cancel(reason) => s.(log := WithCancellation(s.log, Event(0, RunCancelled, reason)))
    case Lost(w) => s.(todo := s.todo[w := []])
  }

  /** StartRun has created the row; its run.started event is a transaction of its own, and
      a cancellation may come first. */
  function Started(input: string): System {
    var row := Row(Running, None, None, input);
    System(RunLog(row, []), map[0 := row], map[0 := [Append(RunStarted, input)]])
  }

  // --- An operation on its own ------------------------------------------------------------

  /** Worker `w` finishes what it has begun, undisturbed. */
  ghost function Finish(s: System, w: int): System
    requires w in s.todo
    decreases |s.todo[w]|
  {
    if s.todo[w] == [] then s else Finish(Next(s, Act(w)), w)
  }

  /** The operation is not refused, and finishing it leaves this row and these further events. */
  ghost predicate Leaves(s: System, w: int, op: Operation, row: Row, added: seq<Event>)
    requires w in s.copies
  {
    && Enabled(s, Begin(w, op))
    && Finish(Next(s, Begin(w, op)), w).log == RunLog(row, s.log.events + added)
  }

  /** What each operation does to a run that is not cancelled, begun on a current copy and not
      interrupted: when it refuses, the row it leaves, and the events it adds, in order. */
  lemma OperationMeans(s: System, w: int, op: Operation)
    requires w in s.copies && s.copies[w] == s.log.row && s.log.row.status != Cancelled
    ensures var row, n := s.log.row, |s.log.events|;
            match op
            case RequestUserInput(call, step, questions) =>
              if row.status == Running then
                Leaves(s, w, op, Row(WaitingUser, Some(call), Some(step), row.transcript),
                       [Event(n + 1, ToolPending, questions)])
              else !Enabled(s, Begin(w, op))
            case ResumeToolCall(call, answers) =>
              if row.status == WaitingUser && row.pendingCall == Some(call) then
                Leaves(s, w, op, Row(Running, None, None, row.transcript),
                       [Event(n + 1, ToolResult, answers), Event(n + 2, ToolFinished, "")])
              else !Enabled(s, Begin(w, op))
            case CompleteRun =>
              Leaves(s, w, op, Row(Completed, None, None, row.transcript), [Event(n + 1, RunFinished, "")])
            case FailRun(cause) =>
              Leaves(s, w, op, Row(Failed, None, None, row.transcript), [Event(n + 1, RunFailed, cause)])
            case RecordEvent(kind, payload) =>
              if kind != RunCancelled then Leaves(s, w, op, row, [Event(n + 1, kind, payload)])
              else !Enabled(s, Begin(w, op))
            case SaveTranscript(transcript) =>
              Leaves(s, w, op, Row(row.status, row.pendingCall, row.pendingStep, transcript), [])
  {
    if Program(op, s.log.row).Some? {
      var begun := Next(s, Begin(w, op));
      var first := Next(begun, Act(w));
      assert Finish(begun, w) == Finish(first, w);
      if first.todo[w] != [] {
        var second := Next(first, Act(w));
        assert Finish(first, w) == Finish(second, w);
        if second.todo[w] != [] {
          var third := Next(second, Act(w));
          assert Finish(second, w) == Finish(third, w) == third;
        }
      }
    }
  }

  // --- The invariant --------------------------------------------------------------------

  /** A live run has no cancellation event; a cancelled one has exactly one, the last, and
      nothing pending. */
  predicate CancellationOk(log: RunLog) {
    if log.row.status != Cancelled then forall i :: 0 <= i < |log.events| ==> log.events[i].kind != RunCancelled
    else
      && log.row.pendingCall.None? && log.row.pendingStep.None?
      && log.events != [] && log.events[|log.events| - 1].kind == RunCancelled
      && forall i :: 0 <= i < |log.events| - 1 ==> log.events[i].kind != RunCancelled
  }

  /** An action never cancels: it appends another kind, or saves a row that was cancelled
      only if the run is. */
  predicate ActionOk(log: RunLog, a: Action) {
    match a
    case Append(kind, _) => kind != RunCancelled
    case Save(row) => row.status == Cancelled ==> log.row.status == Cancelled
  }

  ghost predicate Inv(s: System) {
    && Numbered(s.log.events) && CancellationOk(s.log)
    && (forall w :: w in s.copies ==> s.copies[w].status == Cancelled ==> s.log.row.status == Cancelled)
    && (forall w, i :: w in s.todo && 0 <= i < |s.todo[w]| ==> ActionOk(s.log, s.todo[w][i]))
  }

  lemma ActKeeps(s: System, w: int)
    requires Inv(s) && Enabled(s, Act(w))
    ensures Inv(Next(s, Act(w)))
  {
    var a := s.todo[w][0];
    assert ActionOk(s.log, a);
    var s' := Next(s, Act(w));
    forall v, i | v in s'.todo && 0 <= i < |s'.todo[v]| ensures ActionOk(s'.log, s'.todo[v][i]) {
      if v == w {
        assert ActionOk(s.log, s.todo[v][i + 1]);
      } else {
        assert ActionOk(s.log, s.todo[v][i]);
      }
    }
  }

  lemma CancelKeeps(s: System, reason: string)
    requires Inv(s)
    ensures Inv(Next(s, Cancel(reason)))
  {
    var s' := Next(s, Cancel(reason));
    forall v, i | v in s'.todo && 0 <= i < |s'.todo[v]| ensures ActionOk(s'.log, s'.todo[v][i]) {
      assert ActionOk(s.log, s.todo[v][i]);
    }
  }

  lemma BeginKeeps(s: System, w: int, op: Operation)
    requires Inv(s) && Enabled(s, Begin(w, op))
    ensures Inv(Next(s, Begin(w, op)))
  {
    var s' := Next(s, Begin(w, op));
    var program := Program(op, s.copies[w]).value;
    forall i | 0 <= i < |program| ensures ActionOk(s.log, program[i]) {
    }
    forall v, i | v in s'.todo && 0 <= i < |s'.todo[v]| ensures ActionOk(s'.log, s'.todo[v][i]) {
      assert v != w ==> ActionOk(s.log, s.todo[v][i]);
    }
  }

  lemma StepKeeps(s: System, e: Step)
    requires Inv(s) && Enabled(s, e)
    ensures Inv(Next(s, e))
  {
    match e
    case Act(w) => ActKeeps(s, w);
    case Cancel(reason) => CancelKeeps(s, reason);
    case Begin(w, op) => BeginKeeps(s, w, op);
    case Read(_) =>
    case Lost(_) =>
  }

  /** Nothing an operation does changes a cancelled run. */
  lemma CancelledFrozen(s: System, e: Step)
    requires Enabled(s, e) && s.log.row.status == Cancelled
    ensures Next(s, e).log == s.log
  {
  }

  ghost predicate Behavior(input: string, states: seq<System>, steps: seq<Step>) {
    && |states| == |steps| + 1 && states[0] == Started(input)
    && forall k :: 0 <= k < |steps| ==> Enabled(states[k], steps[k]) && states[k + 1] == Next(states[k], steps[k])
  }

  lemma {:induction false} Reachable(input: string, states: seq<System>, steps: seq<Step>, k: nat)
    requires Behavior(input, states, steps) && k < |states|
    ensures Inv(states[k])
  {
    if k > 0 {
      Reachable(input, states, steps, k - 1);
      StepKeeps(states[k - 1], steps[k - 1]);
    }
  }

  /** At every point of every interleaving: the event sequence is exactly 1, ..., n, and the
      run is cancelled exactly when its log ends with its one run.cancelled event, with no
      pending call or step. */
  lemma CancellationIsLast(input: string, states: seq<System>, steps: seq<Step>, k: nat)
    requires Behavior(input, states, steps) && k < |states|
    ensures var log := states[k].log;
            && Numbered(log.events)
            && (log.row.status == Cancelled <==> exists i :: 0 <= i < |log.events| && log.events[i].kind == RunCancelled)
            && (log.row.status == Cancelled ==>
                  && log.row.pendingCall.None? && log.row.pendingStep.None?
                  && forall i :: 0 <= i < |log.events| ==>
                       (log.events[i].kind == RunCancelled <==> i == |log.events| - 1))
  {
    Reachable(input, states, steps, k);
    var log := states[k].log;
    if log.row.status == Cancelled {
      assert log.events[|log.events| - 1].kind == RunCancelled;
    }
  }

  /** Once cancelled, row and log never change again. */
  lemma {:induction false} CancellationAbsorbs(input: string, states: seq<System>, steps: seq<Step>, i: nat, k: nat)
    requires Behavior(input, states, steps) && i <= k < |states| && states[i].log.row.status == Cancelled
    ensures states[k].log == states[i].log
    decreases k
  {
    if i < k {
      CancellationAbsorbs(input, states, steps, i, k - 1);
      CancelledFrozen(states[k - 1], steps[k - 1]);
    }
  }
}
