/** What the queue's transactions do to the rows, column by column and in their own terms:
    no clause of this module names the function it is about, or the helpers it uses. */
module QueueMeaning {
  import opened Wrappers
  import opened Json
  import opened Recovery
  import opened Queue

  // --- Batch status -----------------------------------------------------------------

  ghost predicate SomeJob(jobs: map<int, Job>, b: int, status: Status) {
    exists j :: j in jobs && jobs[j].batch == b && jobs[j].status == status
  }

  lemma SomeJobIs(q: State, b: int, status: Status)
    ensures SomeJob(q.jobs, b, status) <==> HasJob(q, b, status)
  {
    if HasJob(q, b, status) {
      var j :| j in q.jobs && InBatch(q, j, b) && q.jobs[j].status == status;
      assert j in q.jobs && q.jobs[j].batch == b && q.jobs[j].status == status;
    }
    if SomeJob(q.jobs, b, status) {
      var j :| j in q.jobs && q.jobs[j].batch == b && q.jobs[j].status == status;
      assert InBatch(q, j, b);
    }
  }

  /** The status of a refreshed batch row against its jobs, one clause per status. */
  ghost predicate StatusReads(jobs: map<int, Job>, b: int, started: bool, status: Status) {
    var running, pending := SomeJob(jobs, b, Running), SomeJob(jobs, b, Pending);
    var intervention, failed := SomeJob(jobs, b, NeedsIntervention), SomeJob(jobs, b, Failed);
    && (status == Running <==> running || (pending && started))
    && (status == Pending <==> !running && pending && !started)
    && (status == NeedsIntervention <==> !running && !pending && intervention)
    && (status == Failed <==> !running && !pending && !intervention && failed)
    && (status == Cancelled <==> forall j :: j in jobs && jobs[j].batch == b ==> jobs[j].status == Cancelled)
    && (status == Passed <==>
          !running && !pending && !intervention && !failed && SomeJob(jobs, b, Passed))
  }

  /** A refresh changes two columns of the named batches: the status, and the finish time
      of one that has just ended. */
  ghost predicate BatchesRefreshed(was: map<int, Batch>, now: map<int, Batch>, jobs: map<int, Job>, changed: set<int>,
                                   clock: int) {
    && now.Keys == was.Keys
    && forall b :: b in was ==>
         if b !in changed then now[b] == was[b]
         else
           && now[b] == was[b].(status := now[b].status, finishedAt := now[b].finishedAt)
           && StatusReads(jobs, b, was[b].startedAt.Some?, now[b].status)
           && now[b].finishedAt
              == if SomeJob(jobs, b, Pending) || SomeJob(jobs, b, Running) || was[b].finishedAt.Some?
                 then was[b].finishedAt else Some(clock)
  }

  lemma RefreshedReads(q: State, b: int)
    requires b in q.batches
    ensures StatusReads(q.jobs, b, q.batches[b].startedAt.Some?, RefreshedStatus(q, b))
  {
    forall status ensures SomeJob(q.jobs, b, status) <==> HasJob(q, b, status) {
      SomeJobIs(q, b, status);
    }
    forall j | j in q.jobs && q.jobs[j].batch == b ensures SomeJob(q.jobs, b, q.jobs[j].status) {
    }
    assert forall j :: InBatch(q, j, b) <==> j in q.jobs && q.jobs[j].batch == b;
    if exists j :: j in q.jobs && q.jobs[j].batch == b && q.jobs[j].status != Cancelled {
      var j :| j in q.jobs && q.jobs[j].batch == b && q.jobs[j].status != Cancelled;
      assert SomeJob(q.jobs, b, q.jobs[j].status);
    }
  }

  lemma RefreshMeans(q: State, changed: set<int>)
    ensures var q' := Refresh(q, changed);
            && q' == q.(batches := q'.batches) && BatchesRefreshed(q.batches, q'.batches, q.jobs, changed, q.now)
  {
    forall b | b in q.batches && b in changed
      ensures StatusReads(q.jobs, b, q.batches[b].startedAt.Some?, Refresh(q, changed).batches[b].status)
      ensures SomeJob(q.jobs, b, Pending) == HasJob(q, b, Pending) && SomeJob(q.jobs, b, Running) == HasJob(q, b, Running)
    {
      RefreshedReads(q, b);
      SomeJobIs(q, b, Pending);
      SomeJobIs(q, b, Running);
    }
  }

  // --- Quarantine and claim ---------------------------------------------------------

  /** Exactly the quarantined jobs and their running runs change. */
  ghost predicate RowsQuarantined(was: State, now: State, unsafe: set<int>) {
    && now.jobs.Keys == was.jobs.Keys && now.runs.Keys == was.runs.Keys && now.now == was.now
    && (forall j :: j in was.jobs ==>
          now.jobs[j] == if j in unsafe
                         then was.jobs[j].(status := NeedsIntervention, finishedAt := Some(was.now), owner := None,
                                           lease := None)
                         else was.jobs[j])
    && (forall r :: r in was.runs ==>
          now.runs[r] == if was.runs[r].job in unsafe && was.runs[r].status == Running
                         then was.runs[r].(status := NeedsIntervention,
                                           finishedAt := if was.runs[r].finishedAt.Some? then was.runs[r].finishedAt
                                                         else Some(was.now))
                         else was.runs[r])
    && BatchesRefreshed(was.batches, now.batches, now.jobs, set j | j in unsafe && j in was.jobs :: was.jobs[j].batch,
                        was.now)
  }

  lemma QuarantineMeans(q: State, unsafe: set<int>)
    ensures RowsQuarantined(q, Quarantine(q, unsafe), unsafe)
  {
    var rows := QuarantineRows(q, unsafe);
    RefreshMeans(rows, BatchesOf(q, unsafe));
    assert BatchesOf(q, unsafe) == set j | j in unsafe && j in q.jobs :: q.jobs[j].batch;
  }

  /** What a claim demands of the job row it takes, as the row stands after quarantine. */
  ghost predicate MayTake(q: State, j: int, project: Option<int>) {
    && j in q.jobs && q.jobs[j].batch in q.batches
    && q.batches[q.jobs[j].batch].status in {Pending, Running}
    && (q.jobs[j].status == Pending
        || (q.jobs[j].status == Running && q.jobs[j].lease.Some? && q.jobs[j].lease.value < q.now))
    && !q.jobs[j].cancelRequested && q.jobs[j].attempts < q.jobs[j].maxAttempts
    && (project.Some? ==> q.jobs[j].project == project.value)
    && |set i | i in q.jobs && q.jobs[i].batch == q.jobs[j].batch && q.jobs[i].status == Running
                && q.jobs[i].lease.Some? && q.now <= q.jobs[i].lease.value|
       < q.batches[q.jobs[j].batch].concurrency
  }

  lemma ClaimableMeans(q: State, j: int, project: Option<int>)
    ensures Claimable(q, j, project) <==> MayTake(q, j, project)
  {
    if j in q.jobs {
      var b := q.jobs[j].batch;
      assert LiveJobs(q, b) == set i | i in q.jobs && q.jobs[i].batch == b && q.jobs[i].status == Running
                                       && q.jobs[i].lease.Some? && q.now <= q.jobs[i].lease.value;
    }
  }

  /** The claimed job is leased from the clock for the requested time, 1800 seconds when
      none is requested; its batch runs; nothing else changes. */
  ghost predicate Taken(was: State, now: State, j: int, worker: Worker, leaseSeconds: int)
    requires j in was.jobs && was.jobs[j].batch in was.batches
  {
    var job, b := was.jobs[j], was.jobs[j].batch;
    && now == was.(jobs := now.jobs, batches := now.batches)
    && now.jobs == was.jobs[j := job.(
         status := Running, attempts := job.attempts + 1, owner := Some(worker),
         lease := Some(was.now + if leaseSeconds < 1 then 1800 else leaseSeconds),
         startedAt := if job.startedAt.Some? then job.startedAt else Some(was.now), finishedAt := None)]
    && now.batches == was.batches[b := was.batches[b].(
         status := Running, finishedAt := None,
         startedAt := if was.batches[b].startedAt.Some? then was.batches[b].startedAt else Some(was.now))]
  }

  lemma ClaimMeans(q: State, j: int, worker: Worker, leaseSeconds: int)
    requires j in q.jobs && q.jobs[j].batch in q.batches
    ensures Taken(q, Claim(q, j, worker, leaseSeconds), j, worker, leaseSeconds)
  {
  }

  /** The claim order: oldest batch first, then batch id, position in the batch, job id. */
  ghost predicate Earlier(q: State, i: int, j: int)
    requires i in q.jobs && q.jobs[i].batch in q.batches && j in q.jobs && q.jobs[j].batch in q.batches
  {
    var p, r := q.batches[q.jobs[i].batch].createdAt, q.batches[q.jobs[j].batch].createdAt;
    p < r || (p == r && (q.jobs[i].batch < q.jobs[j].batch
                         || (q.jobs[i].batch == q.jobs[j].batch
                             && (q.jobs[i].orderIndex < q.jobs[j].orderIndex
                                 || (q.jobs[i].orderIndex == q.jobs[j].orderIndex && i <= j)))))
  }

  lemma FirstMeans(q: State, j: int, project: Option<int>)
    requires First(q, j, project)
    ensures MayTake(q, j, project) && forall i :: MayTake(q, i, project) ==> Earlier(q, j, i)
  {
    ClaimableMeans(q, j, project);
    forall i | MayTake(q, i, project) ensures Earlier(q, j, i) {
      ClaimableMeans(q, i, project);
      assert Before(q, j, i);
    }
  }

  // --- Start, finish, cancel --------------------------------------------------------

  /** The job ends with the status the worker reports, its own run takes status and report,
      and the batch is refreshed; the other rows stay. */
  ghost predicate Finished(was: State, now: State, j: int, batch: int, run: int, status: Status, report: Value)
    requires j in was.jobs
  {
    && now == was.(jobs := now.jobs, runs := now.runs, batches := now.batches)
    && now.jobs == was.jobs[j := was.jobs[j].(status := status, finishedAt := Some(was.now), owner := None, lease := None)]
    && now.runs == (if run in was.runs && was.runs[run].job == j
                    then was.runs[run := was.runs[run].(status := status, report := Some(report),
                                                        finishedAt := Some(was.now))]
                    else was.runs)
    && BatchesRefreshed(was.batches, now.batches, now.jobs, {batch}, was.now)
  }

  lemma FinishMeans(q: State, j: int, batch: int, run: int, worker: Worker, status: Status, report: Value)
    ensures var q' := Finish(q, j, batch, run, worker, status, report);
            if j in q.jobs && q.jobs[j].owner == Some(worker) then Finished(q, q', j, batch, run, status, report)
            else q' == q
  {
    if OwnedBy(q, j, worker) {
      RefreshMeans(FinishRows(q, j, run, status, report), {batch});
    }
  }

  /** Pending jobs of the batch are cancelled, running ones flagged, finished ones left; the
      batch reads cancelled at once unless one of its jobs still runs. */
  ghost predicate BatchCancelledRows(was: State, now: State, b: int)
    requires b in was.batches
  {
    && now == was.(jobs := now.jobs, batches := now.batches) && now.jobs.Keys == was.jobs.Keys
    && (forall j :: j in was.jobs ==>
          now.jobs[j] == if was.jobs[j].batch == b && was.jobs[j].status == Pending
                         then was.jobs[j].(cancelRequested := true, status := Cancelled, finishedAt := Some(was.now))
                         else if was.jobs[j].batch == b && was.jobs[j].status == Running
                         then was.jobs[j].(cancelRequested := true)
                         else was.jobs[j])
    && now.batches == was.batches[b := if SomeJob(was.jobs, b, Running) then was.batches[b].(status := Running)
                                       else was.batches[b].(status := Cancelled, finishedAt := Some(was.now))]
  }

  lemma CancelMeans(q: State, b: int)
    ensures if b in q.batches then BatchCancelledRows(q, Cancel(q, b), b) else Cancel(q, b) == q
  {
    SomeJobIs(q, b, Running);
  }

  // --- Creation ---------------------------------------------------------------------

  /** The batch row of a request: pending, at most 16 jobs at once, one when the request
      asks for nothing usable. */
  ghost predicate BatchInserted(was: State, now: State, request: CreateRequest) {
    && was.nextBatch in now.batches
    && (forall b :: b in was.batches && b != was.nextBatch ==> b in now.batches && now.batches[b] == was.batches[b])
    && now.batches.Keys == was.batches.Keys + {was.nextBatch}
    && now.batches[was.nextBatch]
       == Batch(request.project, request.session, request.actor, request.key,
                if 1 <= request.concurrency <= 16 then request.concurrency else 1, Pending, was.now, None, None)
    && now.nextBatch == was.nextBatch + 1
  }

  /** Job `was.nextJob + i` is for case `ids[i]`: pending, two attempts, with the DSL the
      request bound to the case, or else the stored one. */
  ghost predicate JobsInserted(was: State, now: State, request: CreateRequest, ids: seq<int>) {
    && now.nextJob == was.nextJob + |ids|
    && (forall j :: j in now.jobs <==> j in was.jobs || was.nextJob <= j < was.nextJob + |ids|)
    && (forall j :: j in was.jobs && !(was.nextJob <= j < was.nextJob + |ids|) ==> now.jobs[j] == was.jobs[j])
    && forall i :: 0 <= i < |ids| ==> JobInserted(was, now, request, ids[i], i)
  }

  ghost predicate JobInserted(was: State, now: State, request: CreateRequest, caseId: int, i: int) {
    && was.nextJob + i in now.jobs
    && now.jobs[was.nextJob + i]
       == Job(was.nextBatch, request.project, caseId, i, Pending, 0, 2, false, None, None, None, None,
              if caseId in request.bound then Some(request.bound[caseId])
              else if caseId in request.persisted then Some(request.persisted[caseId]) else None)
  }

  lemma CreateMeans(q: State, request: CreateRequest)
    ensures var q' := CreateRows(q, request);
            && q' == q.(batches := q'.batches, jobs := q'.jobs, nextBatch := q'.nextBatch, nextJob := q'.nextJob)
            && BatchInserted(q, q', request) && JobsInserted(q, q', request, UniqueIds(request.caseIds))
  {
    var q', ids := CreateRows(q, request), UniqueIds(request.caseIds);
    forall i | 0 <= i < |ids| ensures JobInserted(q, q', request, ids[i], i) {
      assert q.nextJob + i in NewJobs(q, request, ids);
    }
  }

  // --- What is protected ------------------------------------------------------------

  /** A case whose replay could repeat an effect: one that cannot be read, a research case
      with a step that is not idempotent or touches state outside, a legacy case with a
      click. */
  ghost predicate Unrepeatable(dsl: Option<Value>) {
    match dsl
    case Some(Object(f)) =>
      var steps := AsArray(At(f, "steps"));
      if At(f, "profile") in {String("research-v1"), String("research-v2")} then
        exists i :: 0 <= i < |steps|
                 && (At(AsObject(steps[i]), "idempotency") == String("non_idempotent")
                     || At(AsObject(steps[i]), "side_effect") in {String("external_state"), String("unknown")})
      else exists i :: 0 <= i < |steps| && At(AsObject(steps[i]), "action") == String("click")
    case Some(Null) => false
    case _ => true
  }

  lemma ProtectedMeans(dsl: Option<Value>)
    ensures ProtectedCase(dsl) <==> Unrepeatable(dsl)
  {
    var fields := CaseFields(dsl);
    if fields.Some? {
      var steps := AsArray(At(fields.value, "steps"));
      if ProtectedIndices(steps) != {} {
        var i :| i in ProtectedIndices(steps);
        assert ProtectedStep(steps[i]);
      }
      forall i | 0 <= i < |steps| && ProtectedStep(steps[i]) ensures i in ProtectedIndices(steps) {
      }
      forall i | 0 <= i < |steps|
        ensures IsClick(steps[i]) <==> At(AsObject(steps[i]), "action") == String("click")
        ensures ProtectedStep(steps[i]) <==>
                  At(AsObject(steps[i]), "idempotency") == String("non_idempotent")
                  || At(AsObject(steps[i]), "side_effect") in {String("external_state"), String("unknown")}
      {
      }
    }
  }
}
