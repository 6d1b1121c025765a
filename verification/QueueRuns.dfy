/** Whole runs of the queue: what holds in every reachable state and between any two
    states of any run, with any number of workers, crashes, cancellations, deletions and
    clock ticks. */
module QueueRuns {
  import opened Wrappers
  import opened Recovery
  import opened Queue
  import opened QueueInvariant
  import opened QueueProtocol
  import opened QueueMeaning

  /** A run of the system: `states[k + 1]` follows `states[k]` by `events[k]`. */
  ghost predicate Behavior(states: seq<System>, events: seq<Event>) {
    && |states| == |events| + 1 && states[0] == INITIAL
    && forall k :: 0 <= k < |events| ==> Follows(states, events, k)
  }

  ghost predicate Follows(states: seq<System>, events: seq<Event>, k: int)
    requires 0 <= k < |events| && |states| == |events| + 1
  {
    Enabled(states[k], events[k]) && states[k + 1] == Next(states[k], events[k])
  }

  lemma {:induction false} Reachable(states: seq<System>, events: seq<Event>, k: nat)
    requires Behavior(states, events) && k < |states|
    ensures SystemInv(states[k])
  {
    if k > 0 {
      Reachable(states, events, k - 1);
      assert Follows(states, events, k - 1);
      StepKeeps(states[k - 1], events[k - 1]);
    }
  }

  lemma {:induction false} NothingUndone(states: seq<System>, events: seq<Event>, i: nat, k: nat)
    requires Behavior(states, events) && i <= k < |states|
    ensures Onward(states[i].q, states[k].q)
    decreases k
  {
    if i < k {
      NothingUndone(states, events, i, k - 1);
      Reachable(states, events, k - 1);
      assert Follows(states, events, k - 1);
      StepKeeps(states[k - 1], events[k - 1]);
      OnwardTwice(states[i].q, states[k - 1].q, states[k].q);
    }
  }

  /** Whatever workers, crashes, cancellations, deletions and clock ticks happen, and in
      whatever order Go walks the protected map, a protected case reaches the browser
      at most once. */
  lemma ProtectedDispatchedOnce(states: seq<System>, events: seq<Event>, k: nat, i: nat, i': nat)
    requires Behavior(states, events) && k < |states| && i < i' < |states[k].dispatched|
    requires states[k].dispatched[i].0 == states[k].dispatched[i'].0
    ensures states[k].dispatched[i].0 in states[k].q.jobs
    ensures !Unrepeatable(states[k].q.jobs[states[k].dispatched[i].0].dsl)
  {
    Reachable(states, events, k);
    assert DispatchedOk(states[k], i) && DispatchedOk(states[k], i');
    ProtectedMeans(states[k].q.jobs[states[k].dispatched[i].0].dsl);
    assert JobOk(states[k].q.jobs[states[k].dispatched[i].0]);
  }

  function ClaimCount(events: seq<Event>, j: int): nat {
    if events == [] then 0
    else
      var last := events[|events| - 1];
      ClaimCount(events[..|events| - 1], j) + if last.JobClaimed? && last.job == Some(j) then 1 else 0
  }

  function Attempts(q: State, j: int): nat { if j in q.jobs then q.jobs[j].attempts else 0 }

  /** attempt_count is the number of claims the whole run made of the job. */
  lemma {:induction false} AttemptsCountClaims(states: seq<System>, events: seq<Event>, k: nat, j: int)
    requires Behavior(states, events) && k < |states|
    ensures ClaimCount(events[..k], j) == Attempts(states[k].q, j)
  {
    if k > 0 {
      AttemptsCountClaims(states, events, k - 1, j);
      assert events[..k][..k - 1] == events[..k - 1];
      Reachable(states, events, k - 1);
      assert Follows(states, events, k - 1);
      AttemptsStep(states[k - 1], events[k - 1], j);
    }
  }

  lemma AttemptsStep(s: System, e: Event, j: int)
    requires SystemInv(s) && Enabled(s, e)
    ensures Attempts(Next(s, e).q, j)
         == Attempts(s.q, j) + if e.JobClaimed? && e.job == Some(j) then 1 else 0
  {
    match e
    case BatchRequested(request) =>
      assert j in s.q.jobs ==> Create(s.q, request).jobs[j] == s.q.jobs[j];
    case JobClaimed(w, leaseSeconds, project, unsafe, job, _) =>
      assert Attempts(Quarantine(s.q, unsafe), j) == Attempts(s.q, j);
    case _ =>
  }

  /** A running job whose lease has ended. */
  ghost predicate Overdue(q: State, j: int) {
    j in q.jobs && q.jobs[j].status == Running && q.jobs[j].lease.Some? && q.jobs[j].lease.value < q.now
  }

  /** In any run a protected job is claimed at most once, and an expired one is
      quarantined by the next claim transaction, before any job is taken. */
  lemma ProtectedClaimedOnce(states: seq<System>, events: seq<Event>, k: nat, j: int)
    requires Behavior(states, events) && k < |states| && j in states[k].q.jobs
    requires Unrepeatable(states[k].q.jobs[j].dsl)
    ensures ClaimCount(events[..k], j) <= 1
    ensures k < |events| && events[k].JobClaimed? && Overdue(states[k].q, j) ==>
              j in events[k].unsafe && events[k].job != Some(j)
              && j in states[k + 1].q.jobs && states[k + 1].q.jobs[j].status == NeedsIntervention
  {
    Reachable(states, events, k);
    AttemptsCountClaims(states, events, k, j);
    ProtectedMeans(states[k].q.jobs[j].dsl);
    assert JobOk(states[k].q.jobs[j]);
    if k < |events| && events[k].JobClaimed? && Expired(states[k].q, j) {
      assert Follows(states, events, k);
      QuarantineDecided(states[k].q, events[k].unsafe);
      assert Quarantine(states[k].q, events[k].unsafe).jobs[j].status == NeedsIntervention;
    }
  }

  /** In every reachable state the recovery decision is the same for every map order. */
  lemma RecoveryIsDeterministic(states: seq<System>, events: seq<Event>, k: nat, unsafe: set<int>)
    requires Behavior(states, events) && k < |states| && Decides(states[k].q, unsafe)
    ensures unsafe == set j | j in states[k].q.jobs && Overdue(states[k].q, j) && Unrepeatable(states[k].q.jobs[j].dsl)
  {
    Reachable(states, events, k);
    var q := states[k].q;
    forall j | j in q.jobs ensures ProtectedCase(q.jobs[j].dsl) <==> Unrepeatable(q.jobs[j].dsl) {
      ProtectedMeans(q.jobs[j].dsl);
    }
    QuarantineDecided(q, unsafe);
    var expected := set j | j in q.jobs && Overdue(q, j) && Unrepeatable(q.jobs[j].dsl);
    assert forall j :: j in unsafe <==> j in expected;
  }

  /** A finish commits exactly when its worker still owns the job, and then for the
      attempt of the job's latest claim; otherwise it leaves every row untouched. */
  lemma LeaseFencing(states: seq<System>, events: seq<Event>, k: nat)
    requires Behavior(states, events) && k < |events| && events[k].JobFinished?
    ensures var w := events[k].worker; var local := At(states[k], w); var q, q' := states[k].q, states[k + 1].q;
            local.Reporting? && local.job.id in q.jobs &&
            if q.jobs[local.job.id].owner == Some(w) then
              && q.jobs[local.job.id].status == Running
              && q.jobs[local.job.id].attempts == local.job.attempt
              && local.job.id in q'.jobs && q'.jobs[local.job.id].status == local.status
              && (forall v :: v != w && At(states[k], v).Reporting? && At(states[k], v).job.id == local.job.id ==>
                    q.jobs[local.job.id].owner != Some(v) && q'.jobs[local.job.id].owner != Some(v))
            else q' == q
  {
    Reachable(states, events, k);
    assert Follows(states, events, k);
    var local := At(states[k], events[k].worker);
    assert ClaimOk(states[k].q, events[k].worker, local.job);
    assert JobOk(states[k].q.jobs[local.job.id]);
  }

  /** A terminal job row never changes again, and running holds exactly when the job has
      an owner and a lease. */
  lemma TerminalJobsFrozen(states: seq<System>, events: seq<Event>, i: nat, k: nat, j: int)
    requires Behavior(states, events) && i <= k < |states| && j in states[i].q.jobs
    ensures j in states[k].q.jobs
    ensures states[i].q.jobs[j].status.Terminal() ==> states[k].q.jobs[j] == states[i].q.jobs[j]
    ensures var job := states[i].q.jobs[j]; (job.status == Running) == (job.owner.Some? && job.lease.Some?)
  {
    NothingUndone(states, events, i, k);
    Reachable(states, events, i);
    assert OnwardJob(states[i].q.jobs[j], states[k].q.jobs[j]) && JobOk(states[i].q.jobs[j]);
  }

  /** What a batch row says of its jobs, in every reachable state. */
  ghost predicate BatchReads(q: State, b: int)
    requires b in q.batches
  {
    var status := q.batches[b].status;
    var active := status == Pending || status == Running;
    && ((exists j :: j in q.jobs && q.jobs[j].batch == b) ==>
          (active <==> SomeJob(q.jobs, b, Pending) || SomeJob(q.jobs, b, Running)))
    && (status == Pending ==> !SomeJob(q.jobs, b, Running) && q.batches[b].startedAt.None?)
    && (status == Running ==> q.batches[b].startedAt.Some?)
    && (status == NeedsIntervention ==> SomeJob(q.jobs, b, NeedsIntervention))
    && (status == Failed ==> SomeJob(q.jobs, b, Failed) && !SomeJob(q.jobs, b, NeedsIntervention))
    && (status == Passed ==>
          && SomeJob(q.jobs, b, Passed)
          && forall j :: j in q.jobs && q.jobs[j].batch == b ==> q.jobs[j].status in {Passed, Cancelled})
  }

  /** In every reachable state a non-empty batch is pending or running exactly when one
      of its jobs is, and pending only before its first claim; it reads passed only if its
      jobs are passed or cancelled and one passed; and an inactive batch is never active
      again. */
  lemma BatchAgreesWithJobs(states: seq<System>, events: seq<Event>, i: nat, k: nat, b: int)
    requires Behavior(states, events) && i <= k < |states| && b in states[i].q.batches
    ensures b in states[k].q.batches && BatchReads(states[k].q, b)
    ensures states[k].q.batches[b].status in {Pending, Running} ==> states[i].q.batches[b].status in {Pending, Running}
  {
    NothingUndone(states, events, i, k);
    Reachable(states, events, k);
    var q := states[k].q;
    assert OnwardBatch(states[i].q.batches[b], q.batches[b]) && BatchOk(q, b);
    InvReads(q, b);
  }

  lemma InvReads(q: State, b: int)
    requires b in q.batches && BatchOk(q, b)
    ensures BatchReads(q, b)
  {
    forall status ensures SomeJob(q.jobs, b, status) <==> HasJob(q, b, status) {
      SomeJobIs(q, b, status);
    }
    if j :| j in q.jobs && q.jobs[j].batch == b {
      assert InBatch(q, j, b) && NonEmpty(q, b);
    }
    if q.batches[b].status == Passed {
      forall j | j in q.jobs && q.jobs[j].batch == b ensures q.jobs[j].status in {Passed, Cancelled} {
        assert InBatch(q, j, b) && NonEmpty(q, b);
        assert HasJob(q, b, q.jobs[j].status);
      }
    }
  }

  lemma OneActiveBatchPerSession(states: seq<System>, events: seq<Event>, k: nat, b: int, c: int)
    requires Behavior(states, events) && k < |states|
    requires b in states[k].q.batches && c in states[k].q.batches && states[k].q.batches[b].session.Some?
    requires states[k].q.batches[b].session == states[k].q.batches[c].session
    requires states[k].q.batches[b].status in {Pending, Running} && states[k].q.batches[c].status in {Pending, Running}
    ensures b == c
  {
    Reachable(states, events, k);
    assert SameSession(states[k].q, b, c);
  }

  /** The concurrency limit bounds a batch's running jobs with an unexpired lease at every
      clock value, through expiry, re-claims and quarantine. */
  lemma ConcurrencyCap(states: seq<System>, events: seq<Event>, k: nat, b: int)
    requires Behavior(states, events) && k < |states| && b in states[k].q.batches
    ensures var q := states[k].q;
            |set j | j in q.jobs && q.jobs[j].batch == b && q.jobs[j].status == Running
                     && q.jobs[j].lease.Some? && q.now <= q.jobs[j].lease.value|
              <= q.batches[b].concurrency
  {
    Reachable(states, events, k);
    var q := states[k].q;
    assert CapOk(q, b);
    assert LiveJobs(q, b) == set j | j in q.jobs && q.jobs[j].batch == b && q.jobs[j].status == Running
                                     && q.jobs[j].lease.Some? && q.now <= q.jobs[j].lease.value;
  }
}
