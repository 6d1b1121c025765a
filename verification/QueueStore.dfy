/** The queue's transactions as the store runs them: row by row and loop by loop over
    mutable tables. Each one is proved to do exactly what its function in Queue says. */
module QueueStore {
  import opened Wrappers
  import opened Json
  import opened Recovery
  import opened Queue
  import opened QueueMeaning

  /** `ids` are the values, each once, in the order they first occur. */
  ghost predicate Firsts(values: seq<int>, ids: seq<int>) {
    && (forall v :: v in ids <==> v in values)
    && (forall i, j :: 0 <= i < j < |ids| ==> ids[i] != ids[j])
    && (forall i, j, n :: 0 <= i < j < |ids| && 0 <= n < |values| && values[n] == ids[j] ==> ids[i] in values[..n])
  }

  lemma {:induction false} UniqueIdsFirsts(values: seq<int>)
    ensures Firsts(values, UniqueIds(values))
  {
    if values != [] {
      var n := |values| - 1;
      var earlier, ids := UniqueIds(values[..n]), UniqueIds(values);
      UniqueIdsFirsts(values[..n]);
      assert values == values[..n] + [values[n]];
      forall i, j, m | 0 <= i < j < |ids| && 0 <= m < |values| && values[m] == ids[j] ensures ids[i] in values[..m] {
        assert ids[i] == earlier[i];
        if m < n {
          assert values[..n][..m] == values[..m] && values[..n][m] == values[m];
          assert j < |earlier|;
        } else {
          assert ids[i] in values[..n];
        }
      }
    }
  }

  /** The rows of jobs other than the claimed one. */
  ghost predicate OthersKept(was: State, now: State, unsafe: set<int>, claimed: Option<int>) {
    forall i :: i in was.jobs && claimed != Some(i) ==>
      && i in now.jobs
      && now.jobs[i] == if i in unsafe
                        then was.jobs[i].(status := NeedsIntervention, finishedAt := Some(was.now), owner := None,
                                          lease := None)
                        else was.jobs[i]
  }

  lemma NothingToTake(q: State, project: Option<int>)
    requires forall j :: j in q.jobs ==> !Claimable(q, j, project)
    ensures forall j :: !MayTake(q, j, project)
  {
    forall j ensures !MayTake(q, j, project) {
      ClaimableMeans(q, j, project);
    }
  }

  lemma NothingTaken(was: State, q: State, unsafe: set<int>)
    requires RowsQuarantined(was, q, unsafe)
    ensures OthersKept(was, q, unsafe, None)
  {
  }

  lemma ClaimedRow(was: State, q: State, now: State, unsafe: set<int>, j: int, worker: Worker, leaseSeconds: int)
    requires RowsQuarantined(was, q, unsafe) && MayTake(q, j, None)
    requires Taken(q, now, j, worker, leaseSeconds)
    ensures j in was.jobs && j !in unsafe && j in now.jobs && now.jobs[j].batch in now.batches
    ensures now.jobs[j].status == Running && now.jobs[j].owner == Some(worker)
    ensures now.jobs[j].lease == Some(was.now + if leaseSeconds < 1 then 1800 else leaseSeconds)
    ensures now.jobs[j].attempts == was.jobs[j].attempts + 1 && now.batches[now.jobs[j].batch].status == Running
    ensures OthersKept(was, now, unsafe, Some(j))
  {
  }

  /** uniqueInt64s: first occurrences, in order. */
  method UniqueInt64s(values: seq<int>) returns (result: seq<int>)
    ensures result == UniqueIds(values)
    ensures Firsts(values, result)
  {
    var seen: set<int> := {};
    result := [];
    for n := 0 to |values|
      invariant result == UniqueIds(values[..n])
      invariant forall v :: v in seen <==> v in result
      invariant forall v :: v in result <==> v in values[..n]
      invariant forall i, j :: 0 <= i < j < |result| ==> result[i] != result[j]
    {
      assert values[..n + 1][..n] == values[..n];
      if values[n] !in seen {
        seen := seen + {values[n]};
        result := result + [values[n]];
      }
    }
    assert values[..|values|] == values;
    UniqueIdsFirsts(values);
  }

  lemma {:induction false} UniqueIdsMember(ids: seq<int>, v: int)
    ensures v in UniqueIds(ids) <==> v in ids
  {
    if ids != [] {
      UniqueIdsMember(ids[..|ids| - 1], v);
      assert ids == ids[..|ids| - 1] + [ids[|ids| - 1]];
    }
  }

  /** Some job can be claimed exactly when one comes first. */
  lemma {:induction false} FirstExists(q: State, from: set<int>) returns (j: int)
    requires from != {} && forall i :: i in from ==> i in q.jobs && q.jobs[i].batch in q.batches
    ensures j in from && forall i :: i in from ==> Before(q, j, i)
    decreases from
  {
    Inhabited(from);
    j :| j in from;
    if from == {j} {
      assert forall i :: i in from ==> i == j;
    } else {
      var k := FirstExists(q, from - {j});
      var least := if Before(q, j, k) then j else k;
      forall i | i in from ensures Before(q, least, i) {
        assert i != j ==> i in from - {j} && Before(q, k, i);
      }
      j := least;
    }
  }

  lemma FirstUnique(q: State, i: int, j: int, project: Option<int>)
    requires First(q, i, project) && First(q, j, project)
    ensures i == j
  {
    assert Before(q, i, j) && Before(q, j, i);
  }

  lemma RefreshOneMore(q: State, done: set<int>, b: int)
    ensures Refresh(Refresh(q, done - {b}), {b}) == Refresh(q, done + {b})
  {
    var q1 := Refresh(q, done - {b});
    if b in q.batches {
      forall status ensures HasJob(q1, b, status) == HasJob(q, b, status) {
        assert forall j :: InBatch(q1, j, b) == InBatch(q, j, b);
      }
      assert forall j :: InBatch(q1, j, b) == InBatch(q, j, b);
      assert RefreshedBatch(q1, b) == RefreshedBatch(q, b);
    }
    assert Refresh(q1, {b}).batches == Refresh(q, done + {b}).batches;
  }

  lemma NewJobsGrow(q: State, request: CreateRequest, ids: seq<int>, n: nat)
    requires n < |ids|
    ensures q.jobs + NewJobs(q, request, ids[..n + 1])
         == (q.jobs + NewJobs(q, request, ids[..n]))[q.nextJob + n := NewJob(q.nextBatch, request, ids[n], n)]
  {
    var few, more := NewJobs(q, request, ids[..n]), NewJobs(q, request, ids[..n + 1]);
    var last := q.nextJob + n;
    assert more.Keys == few.Keys + {last};
    forall j | j in few ensures more[j] == few[j] {
      assert NewJobAt(q, request, ids[..n], j) == NewJobAt(q, request, ids[..n + 1], j);
    }
    assert more[last] == NewJob(q.nextBatch, request, ids[n], n);
  }

  lemma QuarantineNone(q: State)
    ensures QuarantineRows(q, {}) == q
  {
    assert QuarantineRows(q, {}).jobs == q.jobs && QuarantineRows(q, {}).runs == q.runs;
  }

  lemma QuarantineOneMore(q: State, unsafe: set<int>, j: int)
    requires j in q.jobs && j !in unsafe
    ensures var q1, q2 := QuarantineRows(q, unsafe), QuarantineRows(q, unsafe + {j});
            && q2.jobs == q1.jobs[j := QuarantinedJob(q1.jobs[j], q.now)]
            && q2.runs == map r | r in q1.runs ::
                            if q1.runs[r].job == j && q1.runs[r].status == Running
                            then QuarantinedRun(q1.runs[r], q.now) else q1.runs[r]
    ensures BatchesOf(q, unsafe + {j}) == BatchesOf(q, unsafe) + {q.jobs[j].batch}
  {
    var q1, q2 := QuarantineRows(q, unsafe), QuarantineRows(q, unsafe + {j});
    forall r | r in q.runs
      ensures q2.runs[r] == if q1.runs[r].job == j && q1.runs[r].status == Running
                            then QuarantinedRun(q1.runs[r], q.now) else q1.runs[r]
    {
    }
    assert forall k :: k in BatchesOf(q, unsafe + {j}) <==> k in BatchesOf(q, unsafe) + {q.jobs[j].batch};
  }

  lemma RefreshNone(q: State)
    ensures Refresh(q, {}) == q
  {
    assert Refresh(q, {}).batches == q.batches;
  }

  /** Quarantining other jobs leaves job `j` and its runs as the query read them. */
  lemma SameLatest(q: State, unsafe: set<int>, j: int)
    requires j in q.jobs && j !in unsafe
    ensures var q1 := QuarantineRows(q, unsafe);
            && q1.jobs.Keys == q.jobs.Keys && q1.jobs[j] == q.jobs[j] && q1.runs.Keys == q.runs.Keys
            && (forall r :: r in q.runs ==> q1.runs[r].job == q.runs[r].job)
            && (forall r :: r in q.runs && q.runs[r].job == j ==> q1.runs[r] == q.runs[r])
            && (forall r :: Latest(q1, j, r) <==> Latest(q, j, r))
  {
  }

  lemma LatestDecides(q: State, unsafe: set<int>, j: int, status: Option<Status>, report: Option<Value>, answer: bool)
    requires j in q.jobs && j !in unsafe && MayAnswer(q.jobs[j].dsl, status, report, answer)
    requires var q1 := QuarantineRows(q, unsafe);
             if status.None? then report.None? && forall r :: r in q1.runs ==> q1.runs[r].job != j
             else exists r :: Latest(q1, j, r) && status == Some(q1.runs[r].status) && report == q1.runs[r].report
    ensures MayQuarantine(q, j, answer)
  {
    SameLatest(q, unsafe, j);
    if status.None? {
      assert forall r :: !Latest(q, j, r);
    } else {
      var r :| Latest(q, j, r) && status == Some(q.runs[r].status) && report == q.runs[r].report;
      assert forall r' :: Latest(q, j, r') ==> r' == r;
    }
  }

  lemma CancelRunning(q: State, b: int)
    requires b in q.batches
    ensures HasJob(q.(jobs := Cancel(q, b).jobs), b, Running) == HasJob(q, b, Running)
  {
    var q1 := q.(jobs := Cancel(q, b).jobs);
    assert forall j :: InBatch(q1, j, b) == InBatch(q, j, b);
    if HasJob(q, b, Running) {
      var j :| j in q.jobs && InBatch(q, j, b) && q.jobs[j].status == Running;
      assert InBatch(q1, j, b);
    }
  }

  class Store {
    var now: int
    var batches: map<int, Batch>
    var jobs: map<int, Job>
    var runs: map<int, Run>
    var nextBatch: int
    var nextJob: int
    var nextRun: int

    constructor ()
      ensures Snapshot() == EMPTY
    {
      now, batches, jobs, runs := 0, map[], map[], map[];
      nextBatch, nextJob, nextRun := 1, 1, 1;
    }

    function Snapshot(): State
      reads this
    {
      State(now, batches, jobs, runs, nextBatch, nextJob, nextRun)
    }

    method RefreshBatchStatus(b: int)
      modifies this`batches
      ensures Snapshot() == Refresh(old(Snapshot()), {b})
      ensures BatchesRefreshed(old(batches), batches, jobs, {b}, now)
    {
      ghost var q := Snapshot();
      RefreshMeans(q, {b});
      if b in batches {
        batches := batches[b := RefreshedBatch(Snapshot(), b)];
      }
      assert batches == Refresh(q, {b}).batches;
    }

    /** The lateral join: status and report of the job's run with the largest id. */
    method LatestRun(j: int) returns (status: Option<Status>, report: Option<Value>)
      requires j in jobs
      ensures status.None? ==> report.None? && forall r :: r in runs ==> runs[r].job != j
      ensures status.Some? ==> exists r :: Latest(Snapshot(), j, r)
                                        && status == Some(runs[r].status) && report == runs[r].report
    {
      status, report := None, None;
      var latest: Option<int> := None;
      var rest := runs.Keys;
      while rest != {}
        decreases |rest|
        invariant rest <= runs.Keys
        invariant latest.None? ==> status.None? && report.None? && forall r :: r in runs && r !in rest ==> runs[r].job != j
        invariant latest.Some? ==>
                    && latest.value in runs && runs[latest.value].job == j
                    && status == Some(runs[latest.value].status) && report == runs[latest.value].report
                    && forall r :: r in runs && r !in rest && runs[r].job == j ==> r <= latest.value
      {
        Inhabited(rest);
        var r :| r in rest;
        rest := rest - {r};
        if runs[r].job == j && (latest.None? || latest.value < r) {
          latest, status, report := Some(r), Some(runs[r].status), runs[r].report;
        }
      }
      if latest.Some? {
        assert Latest(Snapshot(), j, latest.value);
      }
    }

    method QuarantineJob(j: int)
      requires j in jobs
      modifies this`jobs, this`runs
      ensures jobs == old(jobs)[j := QuarantinedJob(old(jobs)[j], now)]
      ensures runs == map r | r in old(runs) ::
                        if old(runs)[r].job == j && old(runs)[r].status == Running
                        then QuarantinedRun(old(runs)[r], now) else old(runs)[r]
    {
      jobs := jobs[j := jobs[j].(status := NeedsIntervention, finishedAt := Some(now), owner := None, lease := None)];
      runs := map r | r in runs ::
                if runs[r].job == j && runs[r].status == Running
                then runs[r].(status := NeedsIntervention, finishedAt := Coalesce(runs[r].finishedAt, now)) else runs[r];
    }

    /** The recovery decision for one expired row, as the query at state `q` read it. */
    method Decide(q: State, unsafe: set<int>, j: int) returns (answer: bool)
      requires j in q.jobs && j !in unsafe && Snapshot() == QuarantineRows(q, unsafe)
      ensures MayQuarantine(q, j, answer)
    {
      SameLatest(q, unsafe, j);
      var status, report := LatestRun(j);
      answer := RequiresManualRecovery(jobs[j].dsl, status, report);
      LatestDecides(q, unsafe, j, status, report, answer);
    }

    method RefreshAll(changed: set<int>)
      modifies this`batches
      ensures Snapshot() == Refresh(old(Snapshot()), changed)
    {
      ghost var q := Snapshot();
      var rest := changed;
      RefreshNone(q);
      while rest != {}
        invariant rest <= changed
        invariant Snapshot() == Refresh(q, changed - rest)
        decreases |rest|
      {
        Inhabited(rest);
        var b :| b in rest;
        RefreshOneMore(q, changed - rest, b);
        assert changed - rest - {b} == changed - rest;
        assert changed - (rest - {b}) == changed - rest + {b};
        RefreshBatchStatus(b);
        rest := rest - {b};
      }
      assert changed - rest == changed;
    }

    /** Rows are visited in an arbitrary order, as are the batches to refresh. */
    method QuarantineUnsafeExpiredJobs() returns (unsafe: set<int>)
      modifies this`jobs, this`runs, this`batches
      ensures Decides(old(Snapshot()), unsafe)
      ensures Snapshot() == Quarantine(old(Snapshot()), unsafe)
      ensures RowsQuarantined(old(Snapshot()), Snapshot(), unsafe)
    {
      ghost var before := Snapshot();
      var q := Snapshot();
      var expired := set j | j in jobs && Expired(q, j);
      var rest := expired;
      var changedBatches: set<int> := {};
      unsafe := {};
      QuarantineNone(q);
      while rest != {}
        invariant rest <= expired && unsafe <= expired - rest
        invariant forall j :: j in expired - rest ==> MayQuarantine(q, j, j in unsafe)
        invariant Snapshot() == QuarantineRows(q, unsafe)
        invariant changedBatches == BatchesOf(q, unsafe)
        decreases |rest|
      {
        Inhabited(rest);
        var j :| j in rest;
        rest := rest - {j};
        var answer := Decide(q, unsafe, j);
        if answer {
          QuarantineOneMore(q, unsafe, j);
          QuarantineJob(j);
          changedBatches := changedBatches + {jobs[j].batch};
          unsafe := unsafe + {j};
        }
      }
      RefreshAll(changedBatches);
      QuarantineMeans(before, unsafe);
    }

    method TakeJob(j: int, worker: Worker, leaseSeconds: int)
      requires j in jobs && jobs[j].batch in batches
      modifies this`jobs, this`batches
      ensures Snapshot() == Claim(old(Snapshot()), j, worker, leaseSeconds)
      ensures Taken(old(Snapshot()), Snapshot(), j, worker, leaseSeconds)
    {
      var seconds := if leaseSeconds < 1 then 1800 else leaseSeconds;
      var b := jobs[j].batch;
      jobs := jobs[j := jobs[j].(status := Running, attempts := jobs[j].attempts + 1, owner := Some(worker),
                                 lease := Some(now + seconds), startedAt := Coalesce(jobs[j].startedAt, now),
                                 finishedAt := None)];
      batches := batches[b := batches[b].(status := Running, startedAt := Coalesce(batches[b].startedAt, now),
                                          finishedAt := None)];
    }

    /** The SELECT ... ORDER BY ... LIMIT 1 of a claim. */
    method FirstClaimable(project: Option<int>) returns (found: Option<int>)
      ensures found.None? ==> forall j :: j in jobs ==> !Claimable(Snapshot(), j, project)
      ensures found.Some? ==> First(Snapshot(), found.value, project)
    {
      var q := Snapshot();
      var candidates := set j | j in jobs && Claimable(q, j, project);
      if candidates == {} {
        assert forall j :: j in q.jobs && Claimable(q, j, project) ==> j in candidates;
        return None;
      }
      ghost var least := FirstExists(q, candidates);
      assert First(q, least, project);
      var j :| j in candidates && First(q, j, project);
      found := Some(j);
    }

    /** The oldest claimable job after the quarantine, or none when there is none. */
    method ClaimNextJob(worker: Worker, leaseSeconds: int, project: Option<int>)
      returns (r: Result<Option<int>, string>, unsafe: set<int>)
      modifies this`jobs, this`runs, this`batches
      ensures r.Err? <==> worker == ""
      ensures r.Err? ==> Snapshot() == old(Snapshot())
      ensures r.Ok? ==> Decides(old(Snapshot()), unsafe)
      ensures r.Ok? ==>
                var q := Quarantine(old(Snapshot()), unsafe);
                match r.value
                case None => Snapshot() == q && forall j :: j in q.jobs ==> !Claimable(q, j, project)
                case Some(j) => First(q, j, project) && Snapshot() == Claim(q, j, worker, leaseSeconds)
      ensures r.Ok? && r.value.Some? ==>
                var j := r.value.value;
                && j in old(jobs) && j !in unsafe && j in jobs
                && jobs[j].status == Running && jobs[j].owner == Some(worker)
                && jobs[j].lease == Some(now + if leaseSeconds < 1 then 1800 else leaseSeconds)
                && jobs[j].attempts == old(jobs)[j].attempts + 1
                && jobs[j].batch in batches && batches[jobs[j].batch].status == Running
      ensures r.Ok? ==> OthersKept(old(Snapshot()), Snapshot(), unsafe, r.value)
      ensures r.Ok? ==>
                var q := Quarantine(old(Snapshot()), unsafe);
                match r.value
                case None => forall j :: !MayTake(q, j, project)
                case Some(j) =>
                  && MayTake(q, j, project) && (forall i :: MayTake(q, i, project) ==> Earlier(q, j, i))
                  && Taken(q, Snapshot(), j, worker, leaseSeconds)
    {
      unsafe := {};
      if worker == "" {
        r := Err("worker_id is required");
        return;
      }
      ghost var before := Snapshot();
      unsafe := QuarantineUnsafeExpiredJobs();
      ghost var q := Snapshot();
      var found := FirstClaimable(project);
      if found.Some? {
        FirstMeans(q, found.value, project);
        TakeJob(found.value, worker, leaseSeconds);
        ClaimedRow(before, q, Snapshot(), unsafe, found.value, worker, leaseSeconds);
      } else {
        NothingToTake(q, project);
        NothingTaken(before, q, unsafe);
      }
      r := Ok(found);
    }

    /** A job whose DSL fails validation starts no run. */
    method StartClaimedJobRun(j: int, attempt: nat, valid: bool) returns (r: Result<int, string>)
      modifies this`runs, this`nextRun
      ensures r.Ok? <==> valid
      ensures r.Ok? ==> r.value == old(nextRun) && Snapshot() == InsertRun(old(Snapshot()), j, attempt)
      ensures r.Err? ==> Snapshot() == old(Snapshot())
      ensures r.Ok? ==>
                && runs == old(runs)[r.value := Run(j, attempt, Running, None, None)] && nextRun == r.value + 1
                && jobs == old(jobs) && batches == old(batches)
    {
      if !valid {
        return Err("conflict");
      }
      r := Ok(nextRun);
      runs := runs[nextRun := Run(j, attempt, Running, None, None)];
      nextRun := nextRun + 1;
    }

    /** The run row is written first; losing the lease rolls it back. */
    method FinishClaimedJobRun(worker: Worker, j: int, batch: int, run: int, status: Status, report: Option<Value>)
      returns (ok: bool)
      modifies this`jobs, this`runs, this`batches
      ensures ok == (status.Terminal() && report.Some? && OwnedBy(old(Snapshot()), j, worker))
      ensures status.Terminal() && report.Some? ==>
                Snapshot() == Finish(old(Snapshot()), j, batch, run, worker, status, report.value)
      ensures !ok ==> Snapshot() == old(Snapshot())
      ensures ok ==> Finished(old(Snapshot()), Snapshot(), j, batch, run, status, report.value)
    {
      if !status.Terminal() || report.None? {
        return false;
      }
      ghost var q := Snapshot();
      var saved := runs;
      if run in runs && runs[run].job == j {
        runs := runs[run := runs[run].(status := status, report := report, finishedAt := Some(now))];
      }
      if j !in jobs || jobs[j].owner != Some(worker) {
        runs := saved;
        return false;
      }
      jobs := jobs[j := jobs[j].(status := status, finishedAt := Some(now), owner := None, lease := None)];
      assert Snapshot() == FinishRows(q, j, run, status, report.value);
      RefreshBatchStatus(batch);
      FinishMeans(q, j, batch, run, worker, status, report.value);
      ok := true;
    }

    method CancelBatch(b: int) returns (found: bool)
      modifies this`jobs, this`batches
      ensures found == (b in old(batches))
      ensures Snapshot() == Cancel(old(Snapshot()), b)
      ensures if found then BatchCancelledRows(old(Snapshot()), Snapshot(), b) else Snapshot() == old(Snapshot())
    {
      found := b in batches;
      if !found {
        return;
      }
      ghost var q := Snapshot();
      jobs := map j | j in jobs :: if InBatch(Snapshot(), j, b) then CancelledJob(jobs[j], now) else jobs[j];
      assert jobs == Cancel(q, b).jobs;
      var running := HasJob(Snapshot(), b, Running);
      CancelRunning(q, b);
      batches := batches[b := batches[b].(status := if running then Running else Cancelled,
                                          finishedAt := if running then batches[b].finishedAt else Some(now))];
      CancelMeans(q, b);
    }

    method InsertJob(b: int, request: CreateRequest, caseId: int, index: int)
      modifies this`jobs, this`nextJob
      ensures jobs == old(jobs)[old(nextJob) := NewJob(b, request, caseId, index)] && nextJob == old(nextJob) + 1
    {
      var dsl := if caseId in request.bound then Some(request.bound[caseId])
                 else if caseId in request.persisted then Some(request.persisted[caseId]) else None;
      jobs := jobs[nextJob := Job(b, request.project, caseId, index, Pending, 0, 2, false, None, None, None, None, dsl)];
      nextJob := nextJob + 1;
    }

    method InsertJobs(b: int, request: CreateRequest, ids: seq<int>, ghost q: State)
      requires jobs == q.jobs && nextJob == q.nextJob && b == q.nextBatch
      modifies this`jobs, this`nextJob
      ensures jobs == q.jobs + NewJobs(q, request, ids) && nextJob == q.nextJob + |ids|
    {
      for index := 0 to |ids|
        invariant nextJob == q.nextJob + index
        invariant jobs == q.jobs + NewJobs(q, request, ids[..index])
      {
        NewJobsGrow(q, request, ids, index);
        InsertJob(b, request, ids[index], index);
      }
      assert ids[..|ids|] == ids;
    }

    /** The INSERTs: the batch row, then a job row per case in selection order. */
    method InsertBatch(request: CreateRequest, ids: seq<int>)
      requires ids == UniqueIds(request.caseIds)
      modifies this`batches, this`jobs, this`nextBatch, this`nextJob
      ensures Snapshot() == CreateRows(old(Snapshot()), request)
    {
      ghost var q := Snapshot();
      var b := nextBatch;
      batches := batches[b := NewBatch(Snapshot(), request)];
      nextBatch := nextBatch + 1;
      InsertJobs(b, request, ids, q);
    }

    /** One batch row and one job row per distinct selected case, or no row at all. */
    method CreateBatch(request: CreateRequest) returns (outcome: CreateOutcome)
      modifies this`batches, this`jobs, this`nextBatch, this`nextJob
      ensures Snapshot() == Create(old(Snapshot()), request)
      ensures if Admitted(old(Snapshot()), request) then outcome == Created(old(nextBatch))
              else Refuses(old(Snapshot()), request, outcome)
      ensures outcome.Created? ==>
                && BatchInserted(old(Snapshot()), Snapshot(), request)
                && exists ids :: Firsts(request.caseIds, ids) && JobsInserted(old(Snapshot()), Snapshot(), request, ids)
      ensures !outcome.Created? ==> Snapshot() == old(Snapshot())
    {
      ghost var q := Snapshot();
      if !request.member {
        return AccessDenied;
      }
      if request.key.Some? {
        if exists b :: b in batches && HasKey(Snapshot(), b, request.actor, request.key.value) {
          var b :| b in batches && HasKey(Snapshot(), b, request.actor, request.key.value);
          return if batches[b].project != request.project then Conflict else Replayed(b);
        }
      }
      if request.session.Some? {
        if !request.sessionOwned {
          return NotFound;
        }
        if SessionBusy(Snapshot(), request.session.value) {
          return Conflict;
        }
      }
      var ids := UniqueInt64s(request.caseIds);
      if !request.bindingsValid {
        return Conflict;
      }
      if exists i :: 0 <= i < |ids| && ids[i] !in request.persisted {
        ghost var i :| 0 <= i < |ids| && ids[i] !in request.persisted;
        UniqueIdsMember(request.caseIds, ids[i]);
        return NotFound;
      }
      forall i | 0 <= i < |request.caseIds| ensures request.caseIds[i] in request.persisted {
        UniqueIdsMember(request.caseIds, request.caseIds[i]);
        var k :| 0 <= k < |ids| && ids[k] == request.caseIds[i];
      }
      if !request.casesValid {
        return Conflict;
      }
      outcome := Created(nextBatch);
      InsertBatch(request, ids);
      CreateMeans(q, request);
      assert Firsts(request.caseIds, ids);
    }
  }
}
