/** What every transaction of the execution queue keeps. */
module QueueInvariant {
  import opened Wrappers
  import opened Recovery
  import opened Queue

  ghost predicate Rows(q: State) {
    && q.nextRun >= 1
    && (forall b :: b in q.batches ==> b < q.nextBatch && q.batches[b].concurrency >= 1)
    && (forall j :: j in q.jobs ==> j < q.nextJob && q.jobs[j].batch in q.batches)
    && (forall r :: r in q.runs ==> 1 <= r < q.nextRun && q.runs[r].job in q.jobs)
  }

  /** A job runs exactly while it has an owner and a lease, is terminal exactly when it
      has finished, and a protected case is claimed at most once. */
  ghost predicate JobOk(job: Job) {
    && (job.status == Running <==> job.owner.Some?)
    && (job.status == Running <==> job.lease.Some?)
    && (job.status.Terminal() <==> job.finishedAt.Some?)
    && (job.status == Pending ==> job.attempts == 0 && job.startedAt.None?)
    && (job.status == Running ==> job.attempts >= 1)
    && (ProtectedCase(job.dsl) ==> job.attempts <= 1)
  }

  /** A running job has only running runs, and a running run has no report yet. */
  ghost predicate RunOk(q: State, r: int)
    requires r in q.runs && q.runs[r].job in q.jobs
  {
    && (q.runs[r].status == Running ==> q.runs[r].report.None?)
    && (q.jobs[q.runs[r].job].status == Running ==> q.runs[r].status == Running)
    && q.jobs[q.runs[r].job].attempts >= 1
  }

  ghost predicate HasActiveJob(q: State, b: int) { HasJob(q, b, Pending) || HasJob(q, b, Running) }

  ghost predicate NonEmpty(q: State, b: int) { exists j :: j in q.jobs && InBatch(q, j, b) }

  /** Batch status against its jobs. Cancelled is the one status that says nothing about
      finished jobs: CancelBatch writes it over any terminal status. */
  ghost predicate BatchOk(q: State, b: int)
    requires b in q.batches
  {
    var status := q.batches[b].status;
    && (NonEmpty(q, b) ==> (q.batches[b].Active() <==> HasActiveJob(q, b)))
    && (status == Pending ==> !HasJob(q, b, Running) && q.batches[b].startedAt.None?)
    && (status == Running ==> HasActiveJob(q, b) && q.batches[b].startedAt.Some?)
    && (status == NeedsIntervention ==> HasJob(q, b, NeedsIntervention))
    && (status == Failed ==> HasJob(q, b, Failed) && !HasJob(q, b, NeedsIntervention))
    && (status == Passed ==> HasJob(q, b, Passed) && !HasJob(q, b, Failed) && !HasJob(q, b, NeedsIntervention))
  }

  /** Never more running jobs with an unexpired lease than the batch allows. */
  ghost predicate CapOk(q: State, b: int)
    requires b in q.batches
  {
    |LiveJobs(q, b)| <= q.batches[b].concurrency
  }

  ghost predicate SameSession(q: State, b: int, c: int) {
    && b in q.batches && c in q.batches
    && q.batches[b].session.Some? && q.batches[b].session == q.batches[c].session
  }

  ghost predicate SessionsOk(q: State) {
    forall b, c :: SameSession(q, b, c) && q.batches[b].Active() && q.batches[c].Active() ==> b == c
  }

  ghost predicate KeysOk(q: State) {
    forall b, c, key :: b in q.batches && HasKey(q, c, q.batches[b].actor, key) && q.batches[b].key == Some(key) ==> b == c
  }

  ghost predicate Inv(q: State) {
    && Rows(q)
    && (forall j :: j in q.jobs ==> JobOk(q.jobs[j]))
    && (forall r :: r in q.runs ==> RunOk(q, r))
    && (forall b :: b in q.batches ==> BatchOk(q, b))
    && (forall b :: b in q.batches ==> CapOk(q, b))
    && SessionsOk(q) && KeysOk(q)
  }

  /** What no transaction undoes: a terminal job row is frozen, an inactive batch stays
      inactive, attempts only grow, and a job keeps its batch and its DSL. */
  ghost predicate Onward(q: State, q': State) {
    && q.now <= q'.now
    && (forall j :: j in q.jobs ==> j in q'.jobs && OnwardJob(q.jobs[j], q'.jobs[j]))
    && (forall b :: b in q.batches ==> b in q'.batches && OnwardBatch(q.batches[b], q'.batches[b]))
  }

  ghost predicate OnwardJob(job: Job, job': Job) {
    && job'.batch == job.batch && job'.dsl == job.dsl && job.attempts <= job'.attempts
    && (job.status.Terminal() ==> job' == job)
    && (job.status != Pending ==> job'.status != Pending)
    && (job.cancelRequested ==> job'.cancelRequested && job'.attempts == job.attempts)
  }

  ghost predicate OnwardBatch(batch: Batch, batch': Batch) {
    && batch'.session == batch.session && batch'.actor == batch.actor && batch'.key == batch.key
    && batch'.concurrency == batch.concurrency
    && (!batch.Active() ==> !batch'.Active())
  }

  // --- Framing ------------------------------------------------------------------

  /** Batch `b` sees the same jobs with the same statuses in both states. */
  ghost predicate SameJobs(q: State, q': State, b: int) {
    && (forall j :: InBatch(q, j, b) ==> InBatch(q', j, b) && q'.jobs[j].status == q.jobs[j].status)
    && (forall j :: InBatch(q', j, b) ==> InBatch(q, j, b))
  }

  lemma FrameBatch(q: State, q': State, b: int)
    requires b in q.batches && b in q'.batches && q'.batches[b].status == q.batches[b].status
    requires q'.batches[b].startedAt == q.batches[b].startedAt
    requires SameJobs(q, q', b) && BatchOk(q, b)
    ensures BatchOk(q', b)
  {
    forall status ensures HasJob(q', b, status) == HasJob(q, b, status) {
      if HasJob(q, b, status) {
        var j :| j in q.jobs && InBatch(q, j, b) && q.jobs[j].status == status;
        assert InBatch(q', j, b);
      }
      if HasJob(q', b, status) {
        var j :| j in q'.jobs && InBatch(q', j, b) && q'.jobs[j].status == status;
        assert InBatch(q, j, b);
      }
    }
    if NonEmpty(q', b) {
      var j :| j in q'.jobs && InBatch(q', j, b);
      assert InBatch(q, j, b);
    }
    if NonEmpty(q, b) {
      var j :| j in q.jobs && InBatch(q, j, b);
      assert InBatch(q', j, b);
    }
  }

  /** A refreshed batch that once started agrees with its jobs, whatever it said before. */
  lemma RefreshedOk(q: State, b: int, changed: set<int>)
    requires b in q.batches && b in changed && NonEmpty(q, b) && q.batches[b].startedAt.Some?
    ensures BatchOk(Refresh(q, changed), b)
  {
    var q' := Refresh(q, changed);
    forall status ensures HasJob(q', b, status) == HasJob(q, b, status) {
      assert forall j :: InBatch(q', j, b) == InBatch(q, j, b);
    }
    var k :| k in q.jobs && InBatch(q, k, b);
    assert InBatch(q', k, b);
    assert HasJob(q, b, q.jobs[k].status);
    if !HasActiveJob(q, b) && !HasJob(q, b, NeedsIntervention) && !HasJob(q, b, Failed) && !HasJob(q, b, Passed) {
      forall j | j in q.jobs && InBatch(q, j, b) ensures q.jobs[j].status == Cancelled {
        assert HasJob(q, b, q.jobs[j].status);
      }
    }
  }

  lemma SubsetSize(a: set<int>, b: set<int>)
    requires a <= b
    ensures |a| <= |b|
  {
    assert b * a == a;
    assert |b - a| == |b| - |b * a|;
  }

  lemma FrameCap(q: State, q': State, b: int)
    requires b in q.batches && b in q'.batches && q'.batches[b].concurrency == q.batches[b].concurrency
    requires CapOk(q, b)
    requires forall j :: j in q'.jobs && Live(q', j, b) ==> j in q.jobs && Live(q, j, b)
    ensures CapOk(q', b)
  {
    SubsetSize(LiveJobs(q', b), LiveJobs(q, b));
  }

  lemma FrameSessions(q: State, q': State)
    requires SessionsOk(q) && KeysOk(q)
    requires forall b :: b in q'.batches ==> b in q.batches && OnwardBatch(q.batches[b], q'.batches[b])
    ensures SessionsOk(q') && KeysOk(q')
  {
    forall b, c | SameSession(q', b, c) && q'.batches[b].Active() && q'.batches[c].Active() ensures b == c {
      assert SameSession(q, b, c);
    }
    forall b, c, key | b in q'.batches && HasKey(q', c, q'.batches[b].actor, key) && q'.batches[b].key == Some(key)
      ensures b == c
    {
      assert HasKey(q, c, q.batches[b].actor, key);
    }
  }

  // --- One lemma per transaction --------------------------------------------------

  /** Under the invariant the recovery decision does not depend on map order: exactly
      the expired jobs with a protected case are quarantined. */
  lemma QuarantineDecided(q: State, unsafe: set<int>)
    requires Inv(q) && Decides(q, unsafe)
    ensures forall j :: j in unsafe <==> j in q.jobs && Expired(q, j) && ProtectedCase(q.jobs[j].dsl)
  {
    forall j | j in q.jobs && Expired(q, j)
      ensures (j in unsafe) == ProtectedCase(q.jobs[j].dsl)
    {
      assert MayQuarantine(q, j, j in unsafe);
      if r :| Latest(q, j, r) {
        forall r | Latest(q, j, r) && MayAnswer(q.jobs[j].dsl, Some(q.runs[r].status), q.runs[r].report, j in unsafe)
          ensures (j in unsafe) == ProtectedCase(q.jobs[j].dsl)
        {
          assert RunOk(q, r);
          DecidedWithoutReport(q.jobs[j].dsl, Some(q.runs[r].status), q.runs[r].report, j in unsafe);
        }
      } else {
        DecidedWithoutReport(q.jobs[j].dsl, None, None, j in unsafe);
      }
    }
  }

  /** Job rows in `changed` become terminal and their batches are refreshed. */
  ghost predicate Ends(q: State, q': State, changed: set<int>) {
    && q'.now == q.now && q'.nextBatch == q.nextBatch && q'.nextJob == q.nextJob && q'.nextRun == q.nextRun
    && q'.batches == q.batches && q'.jobs.Keys == q.jobs.Keys && q'.runs.Keys == q.runs.Keys
    && (forall j :: j in q.jobs && j !in changed ==> q'.jobs[j] == q.jobs[j])
    && (forall j :: j in changed ==> j in q.jobs && EndsJob(q.jobs[j], q'.jobs[j]))
    && (forall r :: r in q.runs ==> EndsRun(q, q', r, changed))
  }

  ghost predicate EndsJob(job: Job, job': Job) {
    && job.status == Running && job'.status.Terminal()
    && job' == job.(status := job'.status, finishedAt := job'.finishedAt, owner := None, lease := None)
    && job'.finishedAt.Some?
  }

  ghost predicate EndsRun(q: State, q': State, r: int, changed: set<int>)
    requires r in q.runs && r in q'.runs
  {
    || q'.runs[r] == q.runs[r]
    || (q'.runs[r].job == q.runs[r].job && q.runs[r].job in changed && q'.runs[r].status.Terminal())
  }

  lemma EndsBatch(q: State, q': State, changed: set<int>, b: int)
    requires Inv(q) && Ends(q, q', changed) && b in q.batches
    ensures var q2 := Refresh(q', BatchesOf(q, changed));
            BatchOk(q2, b) && CapOk(q2, b) && OnwardBatch(q.batches[b], q2.batches[b])
  {
    var touched := BatchesOf(q, changed);
    var q2 := Refresh(q', touched);
    assert BatchOk(q, b) && CapOk(q, b);
    FrameCap(q, q2, b);
    if b in touched {
      var j :| j in changed && j in q.jobs && q.jobs[j].batch == b;
      assert InBatch(q', j, b) && InBatch(q, j, b);
      assert HasJob(q, b, Running);
      RefreshedOk(q', b, touched);
    } else {
      forall j | InBatch(q, j, b) ensures InBatch(q2, j, b) && q2.jobs[j].status == q.jobs[j].status {
        assert j !in changed;
      }
      FrameBatch(q, q2, b);
    }
  }

  lemma EndsRows(q: State, q': State, changed: set<int>)
    requires Inv(q) && Ends(q, q', changed)
    ensures var q2 := Refresh(q', BatchesOf(q, changed)); Rows(q2) && forall r :: r in q2.runs ==> RunOk(q2, r)
  {
    var q2 := Refresh(q', BatchesOf(q, changed));
    forall r | r in q2.runs ensures q2.runs[r].job in q2.jobs && RunOk(q2, r) {
      assert RunOk(q, r) && EndsRun(q, q', r, changed);
    }
    forall b | b in q2.batches ensures q2.batches[b].concurrency >= 1 {
      assert q.batches[b].concurrency >= 1;
    }
  }

  lemma EndsJobs(q: State, q': State, changed: set<int>)
    requires Inv(q) && Ends(q, q', changed)
    ensures forall j :: j in q.jobs ==> JobOk(q'.jobs[j]) && OnwardJob(q.jobs[j], q'.jobs[j])
  {
    forall j | j in q.jobs ensures JobOk(q'.jobs[j]) && OnwardJob(q.jobs[j], q'.jobs[j]) {
      assert JobOk(q.jobs[j]);
    }
  }

  lemma EndsKeeps(q: State, q': State, changed: set<int>)
    requires Inv(q) && Ends(q, q', changed)
    ensures Inv(Refresh(q', BatchesOf(q, changed)))
    ensures Onward(q, Refresh(q', BatchesOf(q, changed)))
  {
    var q2 := Refresh(q', BatchesOf(q, changed));
    assert q2.jobs == q'.jobs && q2.batches.Keys == q.batches.Keys;
    forall b | b in q2.batches
      ensures BatchOk(q2, b) && CapOk(q2, b) && OnwardBatch(q.batches[b], q2.batches[b])
    {
      EndsBatch(q, q', changed, b);
    }
    EndsRows(q, q', changed);
    EndsJobs(q, q', changed);
    FrameSessions(q, q2);
  }

  lemma QuarantineKeeps(q: State, unsafe: set<int>)
    requires Inv(q) && Decides(q, unsafe)
    ensures Inv(Quarantine(q, unsafe)) && Onward(q, Quarantine(q, unsafe))
  {
    EndsKeeps(q, QuarantineRows(q, unsafe), unsafe);
  }

  lemma FinishKeeps(q: State, j: int, batch: int, run: int, worker: Worker, status: Status, report: Json.Value)
    requires Inv(q) && status.Terminal() && (j in q.jobs ==> q.jobs[j].batch == batch)
    ensures Inv(Finish(q, j, batch, run, worker, status, report))
    ensures Onward(q, Finish(q, j, batch, run, worker, status, report))
  {
    if OwnedBy(q, j, worker) {
      assert JobOk(q.jobs[j]);
      assert BatchesOf(q, {j}) == {batch};
      EndsKeeps(q, FinishRows(q, j, run, status, report), {j});
    }
  }

  /** The claim adds at most its own job to the live ones, and only below the limit. */
  lemma ClaimCap(q: State, j: int, project: Option<int>, worker: Worker, leaseSeconds: int)
    requires Inv(q) && Claimable(q, j, project)
    ensures CapOk(Claim(q, j, worker, leaseSeconds), q.jobs[j].batch)
  {
    var q' := Claim(q, j, worker, leaseSeconds);
    var b := q.jobs[j].batch;
    assert LiveJobs(q', b) <= LiveJobs(q, b) + {j};
    SubsetSize(LiveJobs(q', b), LiveJobs(q, b) + {j});
  }

  lemma ClaimBatch(q: State, j: int, project: Option<int>, worker: Worker, leaseSeconds: int, b: int)
    requires Inv(q) && Claimable(q, j, project) && b in q.batches
    ensures BatchOk(Claim(q, j, worker, leaseSeconds), b) && CapOk(Claim(q, j, worker, leaseSeconds), b)
  {
    var q' := Claim(q, j, worker, leaseSeconds);
    assert BatchOk(q, b) && CapOk(q, b);
    if b == q.jobs[j].batch {
      assert InBatch(q', j, b);
      assert HasJob(q', b, Running);
      ClaimCap(q, j, project, worker, leaseSeconds);
    } else {
      FrameCap(q, q', b);
      FrameBatch(q, q', b);
    }
  }

  lemma ClaimJobs(q: State, j: int, project: Option<int>, worker: Worker, leaseSeconds: int)
    requires Inv(q) && Claimable(q, j, project)
    requires Expired(q, j) ==> !ProtectedCase(q.jobs[j].dsl)
    ensures var q' := Claim(q, j, worker, leaseSeconds);
            && (forall i :: i in q'.jobs ==> JobOk(q'.jobs[i])) && Onward(q, q')
            && forall b :: b in q'.batches ==> q'.batches[b].concurrency >= 1
  {
    var q' := Claim(q, j, worker, leaseSeconds);
    assert JobOk(q.jobs[j]);
    forall i | i in q.jobs ensures JobOk(q'.jobs[i]) && OnwardJob(q.jobs[i], q'.jobs[i]) {
      assert JobOk(q.jobs[i]);
    }
  }

  /** A claim takes a job that no one holds, or one whose lease ran out; a protected
      case qualifies only the first time. */
  lemma ClaimKeeps(q: State, j: int, project: Option<int>, worker: Worker, leaseSeconds: int)
    requires Inv(q) && Claimable(q, j, project)
    requires Expired(q, j) ==> !ProtectedCase(q.jobs[j].dsl)
    ensures Inv(Claim(q, j, worker, leaseSeconds)) && Onward(q, Claim(q, j, worker, leaseSeconds))
  {
    var q' := Claim(q, j, worker, leaseSeconds);
    forall b | b in q'.batches ensures BatchOk(q', b) && CapOk(q', b) {
      ClaimBatch(q, j, project, worker, leaseSeconds, b);
    }
    ClaimJobs(q, j, project, worker, leaseSeconds);
    ClaimRuns(q, j, worker, leaseSeconds);
    FrameSessions(q, q');
  }

  lemma ClaimRuns(q: State, j: int, worker: Worker, leaseSeconds: int)
    requires Inv(q) && j in q.jobs && q.jobs[j].batch in q.batches
    requires q.jobs[j].status == Pending || q.jobs[j].status == Running
    ensures var q' := Claim(q, j, worker, leaseSeconds);
            forall r :: r in q'.runs ==> q'.runs[r].job in q'.jobs && RunOk(q', r)
  {
    var q' := Claim(q, j, worker, leaseSeconds);
    assert JobOk(q.jobs[j]);
    forall r | r in q'.runs ensures q'.runs[r].job in q'.jobs && RunOk(q', r) {
      assert RunOk(q, r);
    }
  }

  lemma InsertRunKeeps(q: State, j: int, attempt: nat)
    requires Inv(q) && j in q.jobs && q.jobs[j].attempts >= 1
    ensures Inv(InsertRun(q, j, attempt)) && Onward(q, InsertRun(q, j, attempt))
  {
    var q' := InsertRun(q, j, attempt);
    forall r | r in q'.runs ensures q'.runs[r].job in q'.jobs && RunOk(q', r) {
      if r != q.nextRun {
        assert RunOk(q, r);
      }
    }
    Untouched(q, q');
  }

  /** Batches and jobs as before, at a time that is not earlier. */
  lemma Untouched(q: State, q': State)
    requires Inv(q) && q'.jobs == q.jobs && q'.batches == q.batches && q.now <= q'.now
    ensures forall b :: b in q'.batches ==> BatchOk(q', b) && CapOk(q', b)
    ensures SessionsOk(q') && KeysOk(q')
  {
    forall b | b in q'.batches ensures BatchOk(q', b) && CapOk(q', b) {
      assert BatchOk(q, b) && CapOk(q, b);
      FrameCap(q, q', b);
      FrameBatch(q, q', b);
    }
    FrameSessions(q, q');
  }

  lemma TickKeeps(q: State, delta: nat)
    requires Inv(q)
    ensures Inv(q.(now := q.now + delta)) && Onward(q, q.(now := q.now + delta))
  {
    var q' := q.(now := q.now + delta);
    forall r | r in q'.runs ensures RunOk(q', r) {
      assert RunOk(q, r);
    }
    Untouched(q, q');
  }

  lemma DeleteRunKeeps(q: State, run: int)
    requires Inv(q)
    ensures Inv(q.(runs := q.runs - {run})) && Onward(q, q.(runs := q.runs - {run}))
  {
    var q' := q.(runs := q.runs - {run});
    forall r | r in q'.runs ensures q'.runs[r].job in q'.jobs && RunOk(q', r) {
      assert RunOk(q, r);
    }
    Untouched(q, q');
  }

  lemma CancelBatch(q: State, b: int, c: int)
    requires Inv(q) && b in q.batches && c in q.batches
    ensures var q' := Cancel(q, b);
            BatchOk(q', c) && CapOk(q', c) && OnwardBatch(q.batches[c], q'.batches[c])
  {
    var q' := Cancel(q, b);
    assert BatchOk(q, c) && CapOk(q, c);
    FrameCap(q, q', c);
    if c != b {
      FrameBatch(q, q', c);
    } else {
      CancelledBatch(q, b);
    }
  }

  lemma CancelRuns(q: State, b: int)
    requires Inv(q) && b in q.batches
    ensures var q' := Cancel(q, b);
            forall r :: r in q'.runs ==> q'.runs[r].job in q'.jobs && RunOk(q', r)
  {
    forall r | r in q.runs ensures RunOk(Cancel(q, b), r) {
      assert RunOk(q, r);
    }
  }

  lemma CancelKeeps(q: State, b: int)
    requires Inv(q)
    ensures Inv(Cancel(q, b)) && Onward(q, Cancel(q, b))
  {
    var q' := Cancel(q, b);
    if b in q.batches {
      forall c | c in q'.batches
        ensures BatchOk(q', c) && CapOk(q', c) && OnwardBatch(q.batches[c], q'.batches[c])
      {
        CancelBatch(q, b, c);
      }
      CancelRuns(q, b);
      forall j | j in q.jobs ensures JobOk(q'.jobs[j]) && OnwardJob(q.jobs[j], q'.jobs[j]) {
        assert JobOk(q.jobs[j]);
      }
      FrameSessions(q, q');
    }
  }

  lemma CancelledBatch(q: State, b: int)
    requires b in q.batches && BatchOk(q, b)
    ensures BatchOk(Cancel(q, b), b) && OnwardBatch(q.batches[b], Cancel(q, b).batches[b])
  {
    var q' := Cancel(q, b);
    assert !HasJob(q', b, Pending);
    if HasJob(q, b, Running) {
      var j :| j in q.jobs && InBatch(q, j, b) && q.jobs[j].status == Running;
      assert InBatch(q', j, b);
    } else {
      forall j | j in q'.jobs && InBatch(q', j, b) ensures q'.jobs[j].status != Running {
        assert InBatch(q, j, b);
      }
    }
  }

  lemma CreateBatches(q: State, request: CreateRequest, b: int)
    requires Inv(q) && b in q.batches
    ensures BatchOk(CreateRows(q, request), b) && CapOk(CreateRows(q, request), b)
  {
    var q' := CreateRows(q, request);
    assert BatchOk(q, b) && CapOk(q, b);
    FrameCap(q, q', b);
    FrameBatch(q, q', b);
  }

  lemma CreatedJobs(q: State, request: CreateRequest)
    requires Inv(q)
    ensures var q' := CreateRows(q, request);
            && Rows(q') && (forall j :: j in q'.jobs ==> JobOk(q'.jobs[j])) && Onward(q, q')
  {
    var q' := CreateRows(q, request);
    forall j | j in q'.jobs ensures JobOk(q'.jobs[j]) && j < q'.nextJob && q'.jobs[j].batch in q'.batches {
      assert j in q.jobs ==> q'.jobs[j] == q.jobs[j] && JobOk(q.jobs[j]);
    }
    forall j | j in q.jobs ensures j in q'.jobs && OnwardJob(q.jobs[j], q'.jobs[j]) {
      assert q'.jobs[j] == q.jobs[j];
    }
  }

  lemma CreateKeeps(q: State, request: CreateRequest)
    requires Inv(q)
    ensures Inv(Create(q, request)) && Onward(q, Create(q, request))
  {
    if Admitted(q, request) {
      var q' := CreateRows(q, request);
      forall b | b in q'.batches ensures BatchOk(q', b) && CapOk(q', b) {
        if b == q.nextBatch {
          CreatedBatch(q, request);
        } else {
          CreateBatches(q, request, b);
        }
      }
      CreatedJobs(q, request);
      CreatedRuns(q, request);
      CreatedSessions(q, request);
    }
  }

  lemma CreatedRuns(q: State, request: CreateRequest)
    requires Inv(q)
    ensures var q' := CreateRows(q, request);
            forall r :: r in q'.runs ==> q'.runs[r].job in q'.jobs && RunOk(q', r)
  {
    var q' := CreateRows(q, request);
    forall r | r in q'.runs ensures q'.runs[r].job in q'.jobs && RunOk(q', r) {
      assert RunOk(q, r) && q'.jobs[q.runs[r].job] == q.jobs[q.runs[r].job];
    }
  }

  lemma CreatedBatch(q: State, request: CreateRequest)
    requires Rows(q)
    ensures BatchOk(CreateRows(q, request), q.nextBatch) && CapOk(CreateRows(q, request), q.nextBatch)
  {
    var q' := CreateRows(q, request);
    var b := q.nextBatch;
    assert forall j :: InBatch(q', j, b) ==> q'.jobs[j].status == Pending;
    if NonEmpty(q', b) {
      var j :| j in q'.jobs && InBatch(q', j, b);
      assert HasJob(q', b, Pending);
    }
    assert LiveJobs(q', b) == {};
  }

  lemma CreatedSessions(q: State, request: CreateRequest)
    requires Inv(q) && Admitted(q, request)
    ensures SessionsOk(CreateRows(q, request)) && KeysOk(CreateRows(q, request))
  {
    var q' := CreateRows(q, request);
    forall b, c | SameSession(q', b, c) && q'.batches[b].Active() && q'.batches[c].Active() ensures b == c {
      if b != q.nextBatch && c != q.nextBatch {
        assert SameSession(q, b, c);
      } else {
        assert request.session.Some? ==> !SessionBusy(q, request.session.value);
      }
    }
    forall b, c, key | b in q'.batches && HasKey(q', c, q'.batches[b].actor, key) && q'.batches[b].key == Some(key)
      ensures b == c
    {
      if b != q.nextBatch && c != q.nextBatch {
        assert HasKey(q, c, q.batches[b].actor, key);
      } else {
        assert forall d :: d in q.batches ==> !HasKey(q, d, request.actor, key);
      }
    }
  }
}
