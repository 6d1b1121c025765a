/** The status of a batch that is no longer active is not frozen: cancelling the batch
    rewrites it, and nothing else in any run does. */
module QueueStatus {
  import opened Wrappers
  import opened Json
  import opened Recovery
  import opened Queue
  import opened QueueInvariant
  import opened QueueProtocol
  import opened QueueRuns

  predicate Inactive(q: State, b: int) { b in q.batches && !q.batches[b].Active() }

  /** The row of an inactive batch after an event: only a cancellation touches it. */
  ghost predicate RowFollows(q: State, q': State, b: int, cancelled: bool)
    requires b in q.batches
  {
    && Inactive(q', b)
    && if cancelled then q'.batches[b].status == Cancelled else q'.batches[b] == q.batches[b]
  }

  // --- One event ------------------------------------------------------------------

  lemma InactiveSettled(q: State, b: int, j: int)
    requires Inv(q) && Inactive(q, b) && InBatch(q, j, b)
    ensures q.jobs[j].status.Terminal()
  {
    assert BatchOk(q, b) && NonEmpty(q, b);
    assert HasJob(q, b, q.jobs[j].status);
  }

  lemma QuarantineSpares(q: State, unsafe: set<int>, b: int)
    requires Inv(q) && Decides(q, unsafe) && Inactive(q, b)
    ensures b in Quarantine(q, unsafe).batches && Quarantine(q, unsafe).batches[b] == q.batches[b]
  {
    if b in BatchesOf(q, unsafe) {
      var j :| j in unsafe && j in q.jobs && q.jobs[j].batch == b;
      InactiveSettled(q, b, j);
      assert false;
    }
  }

  lemma ClaimSpares(s: System, e: Event, b: int)
    requires SystemInv(s) && Enabled(s, e) && e.JobClaimed? && Inactive(s.q, b)
    ensures RowFollows(s.q, Next(s, e).q, b, false)
  {
    QuarantineSpares(s.q, e.unsafe, b);
    if e.job.Some? {
      ClaimIsTake(s, e);
    }
  }

  lemma FinishSpares(s: System, e: Event, b: int)
    requires SystemInv(s) && Enabled(s, e) && e.JobFinished? && Inactive(s.q, b)
    ensures RowFollows(s.q, Next(s, e).q, b, false)
  {
    var job := QueueProtocol.At(s, e.worker).job;
    assert ClaimOk(s.q, e.worker, job) && JobOk(s.q.jobs[job.id]);
    if OwnedBy(s.q, job.id, e.worker) && job.batch == b {
      InactiveSettled(s.q, b, job.id);
      assert false;
    }
  }

  lemma CancelRewrites(q: State, b: int, c: int)
    requires Inv(q) && Inactive(q, b)
    ensures RowFollows(q, Cancel(q, c), b, b == c)
  {
    if HasJob(q, b, Running) {
      var j :| j in q.jobs && InBatch(q, j, b) && q.jobs[j].status == Running;
      InactiveSettled(q, b, j);
    }
  }

  lemma EventRow(s: System, e: Event, b: int)
    requires SystemInv(s) && Enabled(s, e) && Inactive(s.q, b)
    ensures RowFollows(s.q, Next(s, e).q, b, e == BatchCancelled(b))
  {
    match e
    case JobClaimed(_, _, _, _, _, _) => ClaimSpares(s, e, b);
    case JobFinished(_) => FinishSpares(s, e, b);
    case BatchCancelled(c) => CancelRewrites(s.q, b, c);
    case _ =>
  }

  // --- Whole runs -----------------------------------------------------------------

  predicate CancelledBetween(events: seq<Event>, i: nat, k: nat, b: int)
    requires i <= k <= |events|
  {
    exists m :: i <= m < k && events[m] == BatchCancelled(b)
  }

  /** From any point of any run where a batch is inactive: its row stays as it is until
      the batch is cancelled, and reads cancelled from then on. So the status it ended
      with is kept exactly when it was cancelled already or no cancellation follows. */
  lemma {:induction false} TerminalStatusKept(states: seq<System>, events: seq<Event>, i: nat, k: nat, b: int)
    requires Behavior(states, events) && i <= k < |states| && Inactive(states[i].q, b)
    ensures RowFollows(states[i].q, states[k].q, b, CancelledBetween(events, i, k, b))
    ensures states[k].q.batches[b].status == states[i].q.batches[b].status
       <==> states[i].q.batches[b].status == Cancelled || !CancelledBetween(events, i, k, b)
    decreases k
  {
    if i < k {
      TerminalStatusKept(states, events, i, k - 1, b);
      Reachable(states, events, k - 1);
      assert Follows(states, events, k - 1);
      EventRow(states[k - 1], events[k - 1], b);
      assert CancelledBetween(events, i, k, b) <==>
        CancelledBetween(events, i, k - 1, b) || events[k - 1] == BatchCancelled(b);
    }
  }

  // --- A run that rewrites a passed batch -----------------------------------------

  const REQUEST := CreateRequest(1, 1, [1], None, None, 1, map[], map[1 := Object(map[])], true, true, true, true)

  const REPORT := Object(map["status" := String("passed")])

  function OneBatch(status: Status, startedAt: Option<int>, finishedAt: Option<int>): map<int, Batch> {
    map[1 := Batch(1, None, 1, None, 1, status, 0, startedAt, finishedAt)]
  }

  function OneJob(status: Status, attempts: nat, owner: Option<Worker>, lease: Option<int>,
                  startedAt: Option<int>, finishedAt: Option<int>): map<int, Job> {
    map[1 := Job(1, 1, 1, 0, status, attempts, 2, false, owner, lease, startedAt, finishedAt, Some(Object(map[])))]
  }

  const CREATED := State(0, OneBatch(Pending, None, None), OneJob(Pending, 0, None, None, None, None), map[], 2, 2, 1)

  const CLAIMED := State(0, OneBatch(Running, Some(0), None),
                         OneJob(Running, 1, Some("w"), Some(60), Some(0), None), map[], 2, 2, 1)

  const STARTED := CLAIMED.(runs := map[1 := Run(1, 1, Running, None, None)], nextRun := 2)

  const FINISHED := State(0, OneBatch(Passed, Some(0), Some(0)), OneJob(Passed, 1, None, None, Some(0), Some(0)),
                          map[1 := Run(1, 1, Passed, Some(REPORT), Some(0))], 2, 2, 2)

  lemma WitnessAdmitted()
    ensures Admitted(EMPTY, REQUEST) && UniqueIds(REQUEST.caseIds) == [1]
  {
    assert UniqueIds([1][..0]) == [];
  }

  lemma WitnessCreated()
    ensures CreateRows(EMPTY, REQUEST) == CREATED
  {
    WitnessAdmitted();
    assert CreateRows(EMPTY, REQUEST).jobs == CREATED.jobs;
    assert CreateRows(EMPTY, REQUEST).batches == CREATED.batches;
  }

  lemma QuarantineNone(q: State)
    ensures Quarantine(q, {}) == q
  {
    assert QuarantineRows(q, {}).jobs == q.jobs && QuarantineRows(q, {}).runs == q.runs;
    assert BatchesOf(q, {}) == {};
    assert Quarantine(q, {}).batches == q.batches;
  }

  lemma WitnessClaimable()
    ensures Decides(CREATED, {}) && Claimable(CREATED, 1, None)
  {
    assert LiveJobs(CREATED, 1) == {};
  }

  lemma WitnessClaimed()
    ensures Claim(CREATED, 1, "w", 60) == CLAIMED
  {
    assert Claim(CREATED, 1, "w", 60).jobs == CLAIMED.jobs;
    assert Claim(CREATED, 1, "w", 60).batches == CLAIMED.batches;
  }

  lemma WitnessFinished()
    ensures Finish(STARTED, 1, 1, 1, "w", Passed, REPORT) == FINISHED
  {
    var rows := FinishRows(STARTED, 1, 1, Passed, REPORT);
    assert rows.jobs == FINISHED.jobs && rows.runs == FINISHED.runs;
    assert InBatch(rows, 1, 1) && rows.jobs[1].status == Passed;
    assert forall status :: HasJob(rows, 1, status) ==> status == Passed;
    assert RefreshedStatus(rows, 1) == Passed;
    assert Refresh(rows, {1}).batches == FINISHED.batches;
  }

  const HELD := ClaimedJob(1, 1, 1)

  /** A run of `n` events after which the tables are `q` and worker "w" is at `local`. */
  ghost predicate Arrives(states: seq<System>, events: seq<Event>, n: nat, q: State, local: Local) {
    Behavior(states, events) && |events| == n && states[n].q == q && QueueProtocol.At(states[n], "w") == local
  }

  lemma Extended(states: seq<System>, events: seq<Event>, e: Event)
    requires Behavior(states, events) && Enabled(states[|events|], e)
    ensures Behavior(states + [Next(states[|events|], e)], events + [e])
  {
    var states', events' := states + [Next(states[|events|], e)], events + [e];
    forall k | 0 <= k < |events'| ensures Follows(states', events', k) {
      assert k < |events| ==> Follows(states, events, k);
    }
  }

  lemma WitnessRequested() returns (states: seq<System>, events: seq<Event>)
    ensures Arrives(states, events, 1, CREATED, Idle)
  {
    states, events := [INITIAL], [];
    WitnessAdmitted();
    WitnessCreated();
    Extended(states, events, BatchRequested(REQUEST));
    states, events := states + [Next(INITIAL, BatchRequested(REQUEST))], events + [BatchRequested(REQUEST)];
  }

  /** A claim that quarantines nothing and reaches its worker. */
  lemma TakesFrom(s: System, w: Worker, leaseSeconds: int, j: int)
    requires QueueProtocol.At(s, w).Idle? && Decides(s.q, {}) && Claimable(s.q, j, None)
    ensures var e := JobClaimed(w, leaseSeconds, None, {}, Some(j), true);
            && Enabled(s, e) && Next(s, e).q == Claim(s.q, j, w, leaseSeconds)
            && QueueProtocol.At(Next(s, e), w)
               == Holding(ClaimedJob(j, s.q.jobs[j].batch, s.q.jobs[j].attempts + 1))
  {
    QuarantineNone(s.q);
    ClaimIsTake(s, JobClaimed(w, leaseSeconds, None, {}, Some(j), true));
  }

  lemma WitnessTaken(states: seq<System>, events: seq<Event>) returns (states': seq<System>, events': seq<Event>)
    requires Arrives(states, events, 1, CREATED, Idle)
    ensures Arrives(states', events', 2, CLAIMED, Holding(HELD))
  {
    var e := JobClaimed("w", 60, None, {}, Some(1), true);
    WitnessClaimable();
    WitnessClaimed();
    TakesFrom(states[1], "w", 60, 1);
    Extended(states, events, e);
    states', events' := states + [Next(states[1], e)], events + [e];
  }

  lemma WitnessStarted(states: seq<System>, events: seq<Event>) returns (states': seq<System>, events': seq<Event>)
    requires Arrives(states, events, 2, CLAIMED, Holding(HELD))
    ensures Arrives(states', events', 3, STARTED, Started(HELD, 1))
  {
    var e := RunStarted("w", true);
    Extended(states, events, e);
    states', events' := states + [Next(states[2], e)], events + [e];
  }

  lemma WitnessDispatched(states: seq<System>, events: seq<Event>)
    returns (states': seq<System>, events': seq<Event>)
    requires Arrives(states, events, 3, STARTED, Started(HELD, 1))
    ensures Arrives(states', events', 4, STARTED, Reporting(HELD, 1, Passed, REPORT))
  {
    var e := CaseDispatched("w", Passed, REPORT);
    Extended(states, events, e);
    states', events' := states + [Next(states[3], e)], events + [e];
  }

  lemma WitnessPassed(states: seq<System>, events: seq<Event>) returns (states': seq<System>, events': seq<Event>)
    requires Arrives(states, events, 4, STARTED, Reporting(HELD, 1, Passed, REPORT))
    ensures Arrives(states', events', 5, FINISHED, Idle)
  {
    var e := JobFinished("w");
    WitnessFinished();
    Extended(states, events, e);
    states', events' := states + [Next(states[4], e)], events + [e];
  }

  /** Created, claimed, started, dispatched, and finished as passed. */
  lemma WitnessRun() returns (states: seq<System>, events: seq<Event>)
    ensures Arrives(states, events, 5, FINISHED, Idle)
  {
    states, events := WitnessRequested();
    states, events := WitnessTaken(states, events);
    states, events := WitnessStarted(states, events);
    states, events := WitnessDispatched(states, events);
    states, events := WitnessPassed(states, events);
  }

  /** In a run of the system the batch of a job that passed reads passed, and once
      cancelled reads cancelled. */
  lemma CancelOverwritesPassed()
    ensures exists states: seq<System>, events: seq<Event> ::
              && Behavior(states, events) && |states| == 7
              && Inactive(states[5].q, 1) && states[5].q.batches[1].status == Passed
              && HasJob(states[5].q, 1, Passed)
              && Inactive(states[6].q, 1) && states[6].q.batches[1].status == Cancelled
  {
    var states, events := WitnessRun();
    var e := BatchCancelled(1);
    Extended(states, events, e);
    var states', events' := states + [Next(states[5], e)], events + [e];
    assert InBatch(FINISHED, 1, 1) && HasJob(states'[5].q, 1, Passed);
    assert events'[5] == BatchCancelled(1);
    TerminalStatusKept(states', events', 5, 6, 1);
  }
}
