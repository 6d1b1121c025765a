/** The agent run log (internal/agentservice): dense event sequences, and a cancellation
    that is final whatever other operations race with it. */
module AgentLog {
  import opened Wrappers

  datatype Status = Running | WaitingUser | Completed | Failed | Cancelled

  datatype Row = Row(status: Status, pendingCall: Option<string>, pendingStep: Option<string>, transcript: string)

  datatype Kind = RunStarted | ToolStarted | ToolPending | ToolResult | ToolFinished | RunFinished | RunFailed
                | RunCancelled | Other(name: string)

  datatype Event = Event(ordinal: int, kind: Kind, payload: string)

  /** One run: its row and its events. */
  datatype RunLog = RunLog(row: Row, events: seq<Event>)

  datatype Error = NotFound | AlreadyCancelled

  // --- What a repository does to one run ------------------------------------------------

  function Saved(log: RunLog, row: Row): Result<RunLog, Error> {
    if log.row.status == Cancelled then Err(AlreadyCancelled) else Ok(log.(row := row))
  }

  function Sequenced(log: RunLog, e: Event): Event { e.(ordinal := |log.events| + 1) }

  function Appended(log: RunLog, e: Event): Result<RunLog, Error> {
    if log.row.status == Cancelled then Err(AlreadyCancelled)
    else Ok(log.(events := log.events + [Sequenced(log, e)]))
  }

  predicate Cancellable(log: RunLog) { log.row.status == Running || log.row.status == WaitingUser }

  function WithCancellation(log: RunLog, e: Event): RunLog {
    if !Cancellable(log) then log
    else RunLog(log.row.(status := Cancelled, pendingCall := None, pendingStep := None),
                log.events + [Sequenced(log, e)])
  }

  function Outcome(before: Option<RunLog>, step: Result<RunLog, Error>): Option<RunLog> {
    if before.None? || step.Err? then before else Some(step.value)
  }

  // --- What the three operations do, field by field ---------------------------------------

  /** The saved row is what the next read returns, and no event changes; a cancelled run
      refuses. */
  predicate SaveTaken(before: RunLog, row: Row, after: Option<RunLog>, r: Option<Error>) {
    if before.row.status == Cancelled then r == Some(AlreadyCancelled) && after == Some(before)
    else r.None? && after == Some(RunLog(row, before.events))
  }

  /** The event goes behind all others, under the next number; the row does not change. */
  predicate AppendTaken(before: RunLog, e: Event, after: Option<RunLog>, r: Result<Event, Error>) {
    if before.row.status == Cancelled then r == Err(AlreadyCancelled) && after == Some(before)
    else
      && r == Ok(Event(|before.events| + 1, e.kind, e.payload))
      && after == Some(RunLog(before.row, before.events + [r.value]))
  }

  /** A running or waiting run becomes cancelled with nothing pending, keeps its transcript,
      and its log ends with the event; any other run stays as it is. */
  predicate CancelTaken(before: RunLog, e: Event, after: Option<RunLog>, transitioned: bool) {
    && (transitioned <==> before.row.status == Running || before.row.status == WaitingUser)
    && after == Some(if !transitioned then before
                     else RunLog(Row(Cancelled, None, None, before.row.transcript),
                                 before.events + [Event(|before.events| + 1, e.kind, e.payload)]))
  }

  // --- The two repositories ---------------------------------------------------------------

  class MemoryRepository {
    var runs: map<string, Row>
    var events: map<string, seq<Event>>

    constructor ()
      ensures forall id :: LogOf(id) == None
    {
      runs, events := map[], map[];
    }

    function LogOf(id: string): Option<RunLog>
      reads this
    {
      if id in runs then Some(RunLog(runs[id], if id in events then events[id] else [])) else None
    }

    /** Every other run is as before. */
    twostate predicate OnlyRun(id: string)
      reads this
    {
      forall k :: k != id ==> LogOf(k) == old(LogOf(k))
    }

    method CreateRun(id: string, row: Row)
      requires id !in runs && id !in events
      modifies this
      ensures LogOf(id) == Some(RunLog(row, [])) && OnlyRun(id)
    {
      runs := runs[id := row];
    }

    method SaveRun(id: string, row: Row) returns (r: Option<Error>)
      modifies this
      ensures old(LogOf(id)).None? ==> r == Some(NotFound) && LogOf(id) == None
      ensures old(LogOf(id)).Some? ==>
                var step := Saved(old(LogOf(id)).value, row);
                LogOf(id) == Outcome(old(LogOf(id)), step) && r == if step.Err? then Some(step.error) else None
      ensures old(LogOf(id)).Some? ==> SaveTaken(old(LogOf(id)).value, row, LogOf(id), r)
      ensures OnlyRun(id)
    {
      if id !in runs {
        return Some(NotFound);
      }
      if runs[id].status == Cancelled {
        return Some(AlreadyCancelled);
      }
      runs := runs[id := row];
      r := None;
    }

    method AppendEvent(id: string, event: Event) returns (r: Result<Event, Error>)
      modifies this
      ensures old(LogOf(id)).None? ==> r == Err(NotFound) && LogOf(id) == None
      ensures old(LogOf(id)).Some? ==>
                var log := old(LogOf(id)).value;
                && LogOf(id) == Outcome(old(LogOf(id)), Appended(log, event))
                && r == if log.row.status == Cancelled then Err(AlreadyCancelled) else Ok(Sequenced(log, event))
      ensures old(LogOf(id)).Some? ==> AppendTaken(old(LogOf(id)).value, event, LogOf(id), r)
      ensures OnlyRun(id)
    {
      if id !in runs {
        return Err(NotFound);
      }
      if runs[id].status == Cancelled {
        return Err(AlreadyCancelled);
      }
      var log := if id in events then events[id] else [];
      var persisted := event.(ordinal := |log| + 1);
      events := events[id := log + [persisted]];
      r := Ok(persisted);
    }

    method CancelRun(id: string, event: Event) returns (transitioned: bool)
      modifies this
      ensures old(LogOf(id)).None? ==> !transitioned && LogOf(id) == None
      ensures old(LogOf(id)).Some? ==>
                && transitioned == Cancellable(old(LogOf(id)).value)
                && LogOf(id) == Some(WithCancellation(old(LogOf(id)).value, event))
      ensures old(LogOf(id)).Some? ==> CancelTaken(old(LogOf(id)).value, event, LogOf(id), transitioned)
      ensures OnlyRun(id)
    {
      if id !in runs {
        return false;
      }
      var run := runs[id];
      if run.status != Running && run.status != WaitingUser {
        return false;
      }
      runs := runs[id := run.(status := Cancelled, pendingCall := None, pendingStep := None)];
      var log := if id in events then events[id] else [];
      events := events[id := log + [event.(ordinal := |log| + 1)]];
      transitioned := true;
    }

    /** The events after a cursor, in order. */
    method ListEvents(id: string, after: int) returns (r: Option<seq<Event>>)
      ensures r.None? <==> LogOf(id).None?
      ensures r.Some? ==> r.value == After(LogOf(id).value.events, after)
      ensures r.Some? && Numbered(LogOf(id).value.events) ==>
                var events := LogOf(id).value.events; r.value == events[Clamp(after, |events|)..]
    {
      if id !in runs {
        return None;
      }
      var source := if id in events then events[id] else [];
      var result: seq<Event> := [];
      for n := 0 to |source|
        invariant result == After(source[..n], after)
      {
        assert source[..n + 1][..n] == source[..n];
        if source[n].ordinal <= after {
          continue;
        }
        result := result + [source[n]];
      }
      assert source[..|source|] == source;
      if Numbered(source) {
        AfterNumbered(source, after);
      }
      r := Some(result);
    }
  }

  function After(events: seq<Event>, after: int): seq<Event> {
    if events == [] then []
    else
      var earlier, last := After(events[..|events| - 1], after), events[|events| - 1];
      if last.ordinal > after then earlier + [last] else earlier
  }

  /** The numbers are 1, ..., n. */
  predicate Numbered(events: seq<Event>) { forall i :: 0 <= i < |events| ==> events[i].ordinal == i + 1 }

  function Clamp(after: int, n: nat): (k: nat)
    ensures k <= n && (0 <= after <= n ==> k == after) && (after < 0 ==> k == 0) && (after > n ==> k == n)
  {
    if after < 0 then 0 else if after > n then n else after
  }

  /** Of a numbered log, a cursor skips exactly the events up to it. */
  lemma {:induction false} AfterNumbered(events: seq<Event>, after: int)
    requires Numbered(events)
    ensures After(events, after) == events[Clamp(after, |events|)..]
  {
    if events != [] {
      var n := |events| - 1;
      AfterNumbered(events[..n], after);
      if n + 1 > after {
        assert events[..n][Clamp(after, n)..] + [events[n]] == events[Clamp(after, n)..];
      }
    }
  }

  datatype StoredRun = StoredRun(row: Row, lastEventSeq: nat)

  type EventRows = map<(string, int), Event>

  /** Rows 1, ..., n of a run. */
  function RowsOf(events: EventRows, id: string, n: nat): seq<Event>
    requires forall k :: 1 <= k <= n ==> (id, k) in events
  {
    if n == 0 then [] else RowsOf(events, id, n - 1) + [events[(id, n)]]
  }

  lemma {:induction false} RowsFrame(events: EventRows, events': EventRows, id: string, n: nat)
    requires forall k :: 1 <= k <= n ==> (id, k) in events && (id, k) in events' && events'[(id, k)] == events[(id, k)]
    ensures RowsOf(events', id, n) == RowsOf(events, id, n) && |RowsOf(events, id, n)| == n
  {
    if n > 0 {
      RowsFrame(events, events', id, n - 1);
    }
  }

  /** agent_runs with its stored counter, and agent_events keyed by run and sequence. */
  class PostgresRepository {
    var runs: map<string, StoredRun>
    var events: EventRows

    constructor ()
      ensures Valid() && forall id :: LogOf(id) == None
    {
      runs, events := map[], map[];
    }

    /** The rows of a run are exactly 1, ..., last_event_seq. */
    ghost predicate Valid()
      reads this
    {
      && (forall id, n :: id in runs && 1 <= n <= runs[id].lastEventSeq ==> (id, n) in events)
      && (forall k :: k in events ==> k.0 in runs && 1 <= k.1 <= runs[k.0].lastEventSeq)
    }

    ghost function LogOf(id: string): Option<RunLog>
      requires Valid()
      reads this
    {
      if id in runs then Some(RunLog(runs[id].row, RowsOf(events, id, runs[id].lastEventSeq))) else None
    }

    twostate predicate OnlyRun(id: string)
      requires old(Valid()) && Valid()
      reads this
    {
      forall k :: k != id ==> LogOf(k) == old(LogOf(k))
    }

    /** A transaction that adds at most the next row of `id` leaves all other rows alone. */
    twostate lemma RowsKept(id: string)
      requires old(Valid()) && Valid()
      requires forall k :: k != id ==> (k in runs <==> k in old(runs)) && (k in runs ==> runs[k] == old(runs)[k])
      requires id in old(runs) && id in runs && runs[id].lastEventSeq >= old(runs)[id].lastEventSeq
      requires forall k :: k in old(events) ==> k in events && events[k] == old(events)[k]
      ensures OnlyRun(id)
      ensures RowsOf(events, id, old(runs)[id].lastEventSeq) == RowsOf(old(events), id, old(runs)[id].lastEventSeq)
      ensures |RowsOf(old(events), id, old(runs)[id].lastEventSeq)| == old(runs)[id].lastEventSeq
    {
      forall k | k in old(runs)
        ensures RowsOf(events, k, old(runs)[k].lastEventSeq) == RowsOf(old(events), k, old(runs)[k].lastEventSeq)
        ensures |RowsOf(old(events), k, old(runs)[k].lastEventSeq)| == old(runs)[k].lastEventSeq
      {
        RowsFrame(old(events), events, k, old(runs)[k].lastEventSeq);
      }
    }

    method CreateRun(id: string, row: Row)
      requires Valid() && id !in runs
      modifies this
      ensures Valid() && LogOf(id) == Some(RunLog(row, [])) && OnlyRun(id)
    {
      runs := runs[id := StoredRun(row, 0)];
    }

    method SaveRun(id: string, row: Row) returns (r: Option<Error>)
      requires Valid()
      modifies this
      ensures Valid() && OnlyRun(id)
      ensures old(LogOf(id)).None? ==> r == Some(NotFound) && LogOf(id) == None
      ensures old(LogOf(id)).Some? ==>
                var step := Saved(old(LogOf(id)).value, row);
                LogOf(id) == Outcome(old(LogOf(id)), step) && r == if step.Err? then Some(step.error) else None
      ensures old(LogOf(id)).Some? ==> SaveTaken(old(LogOf(id)).value, row, LogOf(id), r)
    {
      var affected := id in runs && runs[id].row.status != Cancelled;
      if affected {
        runs := runs[id := runs[id].(row := row)];
        RowsKept(id);
        return None;
      }
      if id !in runs {
        return Some(NotFound);
      }
      r := Some(AlreadyCancelled);
    }

    method AppendEvent(id: string, event: Event) returns (r: Result<Event, Error>)
      requires Valid()
      modifies this
      ensures Valid() && OnlyRun(id)
      ensures old(LogOf(id)).None? ==> r == Err(NotFound) && LogOf(id) == None
      ensures old(LogOf(id)).Some? ==>
                var log := old(LogOf(id)).value;
                && LogOf(id) == Outcome(old(LogOf(id)), Appended(log, event))
                && r == if log.row.status == Cancelled then Err(AlreadyCancelled) else Ok(Sequenced(log, event))
      ensures old(LogOf(id)).Some? ==> AppendTaken(old(LogOf(id)).value, event, LogOf(id), r)
    {
      if id !in runs {
        return Err(NotFound);
      }
      if runs[id].row.status == Cancelled {
        return Err(AlreadyCancelled);
      }
      var next := runs[id].lastEventSeq + 1;
      runs := runs[id := runs[id].(lastEventSeq := next)];
      var persisted := event.(ordinal := next);
      events := events[(id, next) := persisted];
      RowsKept(id);
      r := Ok(persisted);
    }

    method CancelRun(id: string, event: Event) returns (transitioned: bool)
      requires Valid()
      modifies this
      ensures Valid() && OnlyRun(id)
      ensures old(LogOf(id)).None? ==> !transitioned && LogOf(id) == None
      ensures old(LogOf(id)).Some? ==>
                && transitioned == Cancellable(old(LogOf(id)).value)
                && LogOf(id) == Some(WithCancellation(old(LogOf(id)).value, event))
      ensures old(LogOf(id)).Some? ==> CancelTaken(old(LogOf(id)).value, event, LogOf(id), transitioned)
    {
      if id !in runs || (runs[id].row.status != Running && runs[id].row.status != WaitingUser) {
        return false;
      }
      var stored := runs[id];
      var next := stored.lastEventSeq + 1;
      runs := runs[id := StoredRun(stored.row.(status := Cancelled, pendingCall := None, pendingStep := None), next)];
      events := events[(id, next) := event.(ordinal := next)];
      RowsKept(id);
      transitioned := true;
    }
  }
}
