/** Any number of workers against the queue: every worker repeats claim, start,
    dispatch, finish (cmd/execution-worker/main.go, runOnce), while the clock
    advances, clients create and cancel batches, run rows are deleted, and a worker
    may be lost between any two of its steps. One event is one transaction. */
module QueueProtocol {
  import opened Wrappers
  import opened Json
  import opened Recovery
  import opened Queue
  import opened QueueInvariant

  datatype ClaimedJob = ClaimedJob(id: int, batch: int, attempt: nat)

  /** Where a worker is in runOnce. */
  datatype Local =
    | Idle
    | Holding(job: ClaimedJob)
    | Started(job: ClaimedJob, run: int)
    | Reporting(job: ClaimedJob, run: int, status: Status, report: Value)

  /** `dispatched` is the history of cases handed to the browser, as (job, attempt). */
  datatype System = System(q: State, workers: map<Worker, Local>, dispatched: seq<(int, nat)>)

  datatype Event =
    | Ticked(delta: nat)
    | BatchRequested(request: CreateRequest)
    | BatchCancelled(batch: int)
    | RunDeleted(run: int)
    | WorkerLost(worker: Worker)
    | JobClaimed(worker: Worker, leaseSeconds: int, project: Option<int>, unsafe: set<int>,
                 job: Option<int>, acknowledged: bool)
    | RunStarted(worker: Worker, valid: bool)
    | CaseDispatched(worker: Worker, status: Status, report: Value)
    | JobFinished(worker: Worker)

  const INITIAL := System(EMPTY, map[], [])

  const FAILED_REPORT := Object(map["status" := String("failed"), "steps" := Array([])])

  function At(s: System, w: Worker): Local { if w in s.workers then s.workers[w] else Idle }

  function Place(s: System, q: State, w: Worker, local: Local): System {
    s.(q := q, workers := s.workers[w := local])
  }

  /** A claim quarantines first, then takes any claimable job: rows another transaction
      holds are skipped, so the first one in order is not the only possibility. */
  ghost predicate Enabled(s: System, e: Event) {
    match e
    case JobClaimed(w, _, project, unsafe, job, _) =>
      && At(s, w).Idle? && Decides(s.q, unsafe)
      && (job.Some? ==> Claimable(Quarantine(s.q, unsafe), job.value, project))
    case RunStarted(w, _) => At(s, w).Holding?
    case CaseDispatched(w, status, _) => At(s, w).Started? && status.Terminal()
    case JobFinished(w) => At(s, w).Reporting?
    case _ => true
  }

  ghost function Next(s: System, e: Event): System
    requires Enabled(s, e)
  {
    match e
    case Ticked(delta) => s.(q := s.q.(now := s.q.now + delta))
    case BatchRequested(request) => s.(q := Create(s.q, request))
    case BatchCancelled(b) => s.(q := Cancel(s.q, b))
    case RunDeleted(r) => s.(q := s.q.(runs := s.q.runs - {r}))
    case WorkerLost(w) => s.(workers := s.workers[w := Idle])
    case JobClaimed(w, leaseSeconds, project, unsafe, job, acknowledged) =>
      var q := Quarantine(s.q, unsafe);
      if job.None? then s.(q := q)
      else
        var held := ClaimedJob(job.value, q.jobs[job.value].batch, q.jobs[job.value].attempts + 1);
        Place(s, Claim(q, job.value, w, leaseSeconds), w, if acknowledged then Holding(held) else Idle)
    case RunStarted(w, valid) =>
      var job := At(s, w).job;
      if valid then Place(s, InsertRun(s.q, job.id, job.attempt), w, Started(job, s.q.nextRun))
      else Place(s, s.q, w, Reporting(job, 0, Failed, FAILED_REPORT))
    case CaseDispatched(w, status, report) =>
      var local := At(s, w);
      Place(s, s.q, w, Reporting(local.job, local.run, status, report))
        .(dispatched := s.dispatched + [(local.job.id, local.job.attempt)])
    case JobFinished(w) =>
      var local := At(s, w);
      Place(s, Finish(s.q, local.job.id, local.job.batch, local.run, w, local.status, local.report), w, Idle)
  }

  // --- The invariant ---------------------------------------------------------------

  /** The worker holds a claim of the job; if it still owns the row, it is the latest. */
  ghost predicate ClaimOk(q: State, w: Worker, job: ClaimedJob) {
    && job.id in q.jobs && q.jobs[job.id].batch == job.batch
    && 1 <= job.attempt <= q.jobs[job.id].attempts
    && (q.jobs[job.id].owner == Some(w) ==> job.attempt == q.jobs[job.id].attempts)
  }

  ghost predicate Undispatched(local: Local) { local.Holding? || local.Started? }

  ghost predicate SameClaim(a: Local, b: Local) {
    !a.Idle? && !b.Idle? && a.job.id == b.job.id && a.job.attempt == b.job.attempt
  }

  ghost predicate Workers(s: System) {
    && (forall w :: !At(s, w).Idle? ==> ClaimOk(s.q, w, At(s, w).job))
    && (forall w, v :: w != v ==> !SameClaim(At(s, w), At(s, v)))
    && (forall w :: At(s, w).Reporting? ==> At(s, w).status.Terminal())
  }

  ghost predicate DispatchedOk(s: System, i: int)
    requires 0 <= i < |s.dispatched|
  {
    && s.dispatched[i].0 in s.q.jobs
    && 1 <= s.dispatched[i].1 <= s.q.jobs[s.dispatched[i].0].attempts
  }

  /** Every claim is dispatched at most once. */
  ghost predicate Dispatches(s: System) {
    && (forall i :: 0 <= i < |s.dispatched| ==> DispatchedOk(s, i))
    && (forall i, j :: 0 <= i < j < |s.dispatched| ==> s.dispatched[i] != s.dispatched[j])
    && (forall w, i :: 0 <= i < |s.dispatched| && Undispatched(At(s, w)) ==>
          s.dispatched[i] != (At(s, w).job.id, At(s, w).job.attempt))
  }

  ghost predicate SystemInv(s: System) { Inv(s.q) && Workers(s) && Dispatches(s) }

  /** No job changes hands and no claim is made. */
  ghost predicate Steady(q: State, q': State) {
    forall j :: j in q.jobs ==> SteadyJob(q, q', j)
  }

  ghost predicate SteadyJob(q: State, q': State, j: int)
    requires j in q.jobs
  {
    && j in q'.jobs && q'.jobs[j].batch == q.jobs[j].batch && q'.jobs[j].attempts == q.jobs[j].attempts
    && (q'.jobs[j].owner.Some? ==> q'.jobs[j].owner == q.jobs[j].owner)
  }

  lemma SteadyKeeps(s: System, s': System)
    requires Workers(s) && Dispatches(s) && Steady(s.q, s'.q)
    requires s'.workers == s.workers && s'.dispatched == s.dispatched
    ensures Workers(s') && Dispatches(s')
  {
    assert forall w :: At(s', w) == At(s, w);
    forall w | !At(s', w).Idle? ensures ClaimOk(s'.q, w, At(s', w).job) {
      assert ClaimOk(s.q, w, At(s, w).job) && SteadyJob(s.q, s'.q, At(s, w).job.id);
    }
    forall i | 0 <= i < |s'.dispatched| ensures DispatchedOk(s', i) {
      assert DispatchedOk(s, i) && SteadyJob(s.q, s'.q, s.dispatched[i].0);
    }
  }

  lemma QuietStep(s: System, q: State)
    requires SystemInv(s) && Inv(q) && Onward(s.q, q) && Steady(s.q, q)
    ensures SystemInv(s.(q := q)) && Onward(s.q, q)
  {
    SteadyKeeps(s, s.(q := q));
  }

  lemma CreateStep(s: System, request: CreateRequest)
    requires SystemInv(s)
    ensures SystemInv(s.(q := Create(s.q, request))) && Onward(s.q, Create(s.q, request))
  {
    var q := Create(s.q, request);
    CreateKeeps(s.q, request);
    forall j | j in s.q.jobs ensures SteadyJob(s.q, q, j) {
      assert q.jobs[j] == s.q.jobs[j];
    }
    QuietStep(s, q);
  }

  lemma CancelStep(s: System, b: int)
    requires SystemInv(s)
    ensures SystemInv(s.(q := Cancel(s.q, b))) && Onward(s.q, Cancel(s.q, b))
  {
    CancelKeeps(s.q, b);
    QuietStep(s, Cancel(s.q, b));
  }

  lemma TickStep(s: System, delta: nat)
    requires SystemInv(s)
    ensures SystemInv(s.(q := s.q.(now := s.q.now + delta))) && Onward(s.q, s.q.(now := s.q.now + delta))
  {
    TickKeeps(s.q, delta);
    QuietStep(s, s.q.(now := s.q.now + delta));
  }

  lemma DeleteRunStep(s: System, r: int)
    requires SystemInv(s)
    ensures SystemInv(s.(q := s.q.(runs := s.q.runs - {r}))) && Onward(s.q, s.q.(runs := s.q.runs - {r}))
  {
    DeleteRunKeeps(s.q, r);
    QuietStep(s, s.q.(runs := s.q.runs - {r}));
  }

  /** Worker `w` moves to `local`, holding the same claim or none. */
  lemma MoveKeeps(s: System, w: Worker, local: Local)
    requires Workers(s) && Dispatches(s)
    requires local.Idle? || (!At(s, w).Idle? && local.job == At(s, w).job)
    requires Undispatched(local) ==> Undispatched(At(s, w))
    requires local.Reporting? ==> local.status.Terminal()
    ensures Workers(Place(s, s.q, w, local)) && Dispatches(Place(s, s.q, w, local))
  {
    var s' := Place(s, s.q, w, local);
    assert forall v :: v != w ==> At(s', v) == At(s, v);
    assert At(s', w) == local;
    forall i | 0 <= i < |s'.dispatched| ensures DispatchedOk(s', i) {
      assert DispatchedOk(s, i);
    }
  }

  /** Before a claim: quarantine spares every worker's claim. */
  lemma QuarantineSystem(s: System, unsafe: set<int>)
    requires SystemInv(s) && Decides(s.q, unsafe)
    ensures SystemInv(s.(q := Quarantine(s.q, unsafe)))
    ensures Onward(s.q, Quarantine(s.q, unsafe))
    ensures forall j :: j in s.q.jobs && Expired(Quarantine(s.q, unsafe), j) ==>
              !ProtectedCase(Quarantine(s.q, unsafe).jobs[j].dsl)
  {
    QuarantineKeeps(s.q, unsafe);
    QuarantineDecided(s.q, unsafe);
    SteadyKeeps(s, s.(q := Quarantine(s.q, unsafe)));
  }

  lemma TakeKeeps(s: System, j: int, project: Option<int>, w: Worker, leaseSeconds: int, local: Local)
    requires SystemInv(s) && At(s, w).Idle? && Claimable(s.q, j, project)
    requires local.Idle? || local == Holding(ClaimedJob(j, s.q.jobs[j].batch, s.q.jobs[j].attempts + 1))
    ensures Workers(Place(s, Claim(s.q, j, w, leaseSeconds), w, local))
    ensures Dispatches(Place(s, Claim(s.q, j, w, leaseSeconds), w, local))
  {
    var s' := Place(s, Claim(s.q, j, w, leaseSeconds), w, local);
    assert forall v :: v != w ==> At(s', v) == At(s, v);
    assert At(s', w) == local;
    forall v | !At(s', v).Idle? ensures ClaimOk(s'.q, v, At(s', v).job) {
      assert v != w ==> ClaimOk(s.q, v, At(s, v).job);
    }
    forall v | v != w ensures !SameClaim(At(s', w), At(s', v)) && !SameClaim(At(s', v), At(s', w)) {
      assert !At(s, v).Idle? ==> ClaimOk(s.q, v, At(s, v).job);
    }
    forall i | 0 <= i < |s'.dispatched|
      ensures DispatchedOk(s', i)
      ensures local.Holding? ==> s'.dispatched[i] != (local.job.id, local.job.attempt)
    {
      assert DispatchedOk(s, i);
    }
  }

  /** The second half of a claim transaction, after the quarantine took `q0` to `s.q`. */
  lemma TakeStep(q0: State, s: System, j: int, project: Option<int>, w: Worker, leaseSeconds: int, local: Local)
    requires SystemInv(s) && Onward(q0, s.q) && At(s, w).Idle? && Claimable(s.q, j, project)
    requires Expired(s.q, j) ==> !ProtectedCase(s.q.jobs[j].dsl)
    requires local.Idle? || local == Holding(ClaimedJob(j, s.q.jobs[j].batch, s.q.jobs[j].attempts + 1))
    ensures SystemInv(Place(s, Claim(s.q, j, w, leaseSeconds), w, local))
    ensures Onward(q0, Claim(s.q, j, w, leaseSeconds))
  {
    ClaimKeeps(s.q, j, project, w, leaseSeconds);
    TakeKeeps(s, j, project, w, leaseSeconds, local);
    OnwardTwice(q0, s.q, Claim(s.q, j, w, leaseSeconds));
  }

  lemma ClaimIsTake(s: System, e: Event)
    requires Enabled(s, e) && e.JobClaimed? && e.job.Some?
    ensures var q := Quarantine(s.q, e.unsafe);
            var j := e.job.value;
            && Claimable(q, j, e.project) && j in s.q.jobs
            && Next(s, e) == Place(s.(q := q), Claim(q, j, e.worker, e.leaseSeconds), e.worker,
                 if e.acknowledged then Holding(ClaimedJob(j, q.jobs[j].batch, q.jobs[j].attempts + 1)) else Idle)
  {
  }

  lemma ClaimStep(s: System, e: Event)
    requires SystemInv(s) && Enabled(s, e) && e.JobClaimed?
    ensures SystemInv(Next(s, e)) && Onward(s.q, Next(s, e).q)
  {
    QuarantineSystem(s, e.unsafe);
    if e.job.Some? {
      ClaimIsTake(s, e);
      var q := Quarantine(s.q, e.unsafe);
      var j := e.job.value;
      TakeStep(s.q, s.(q := q), j, e.project, e.worker, e.leaseSeconds,
        if e.acknowledged then Holding(ClaimedJob(j, q.jobs[j].batch, q.jobs[j].attempts + 1)) else Idle);
    }
  }

  lemma OnwardTwice(q0: State, q1: State, q2: State)
    requires Onward(q0, q1) && Onward(q1, q2)
    ensures Onward(q0, q2)
  {
    forall j | j in q0.jobs ensures j in q2.jobs && OnwardJob(q0.jobs[j], q2.jobs[j]) {
      assert OnwardJob(q0.jobs[j], q1.jobs[j]) && OnwardJob(q1.jobs[j], q2.jobs[j]);
    }
    forall b | b in q0.batches ensures b in q2.batches && OnwardBatch(q0.batches[b], q2.batches[b]) {
      assert OnwardBatch(q0.batches[b], q1.batches[b]) && OnwardBatch(q1.batches[b], q2.batches[b]);
    }
  }

  lemma StartStep(s: System, e: Event)
    requires SystemInv(s) && Enabled(s, e) && e.RunStarted?
    ensures SystemInv(Next(s, e)) && Onward(s.q, Next(s, e).q)
  {
    var job := At(s, e.worker).job;
    assert ClaimOk(s.q, e.worker, job);
    if e.valid {
      var q := InsertRun(s.q, job.id, job.attempt);
      InsertRunKeeps(s.q, job.id, job.attempt);
      SteadyKeeps(s, s.(q := q));
      MoveKeeps(s.(q := q), e.worker, Started(job, s.q.nextRun));
    } else {
      MoveKeeps(s, e.worker, Reporting(job, 0, Failed, FAILED_REPORT));
      TickKeeps(s.q, 0);
    }
  }

  lemma DispatchStep(s: System, e: Event)
    requires SystemInv(s) && Enabled(s, e) && e.CaseDispatched?
    ensures SystemInv(Next(s, e)) && Onward(s.q, Next(s, e).q)
  {
    var local := At(s, e.worker);
    var pair := (local.job.id, local.job.attempt);
    var moved := Place(s, s.q, e.worker, Reporting(local.job, local.run, e.status, e.report));
    MoveKeeps(s, e.worker, At(moved, e.worker));
    TickKeeps(s.q, 0);
    var s' := Next(s, e);
    assert ClaimOk(s.q, e.worker, local.job);
    assert forall v :: At(s', v) == At(moved, v);
    forall i | 0 <= i < |s'.dispatched| ensures DispatchedOk(s', i) {
      if i < |s.dispatched| {
        assert DispatchedOk(s, i);
      }
    }
    forall v, i | 0 <= i < |s'.dispatched| && Undispatched(At(s', v))
      ensures s'.dispatched[i] != (At(s', v).job.id, At(s', v).job.attempt)
    {
      assert v != e.worker && At(s', v) == At(s, v) && !SameClaim(At(s, e.worker), At(s, v));
    }
  }

  lemma FinishStep(s: System, e: Event)
    requires SystemInv(s) && Enabled(s, e) && e.JobFinished?
    ensures SystemInv(Next(s, e)) && Onward(s.q, Next(s, e).q)
  {
    var local := At(s, e.worker);
    assert ClaimOk(s.q, e.worker, local.job);
    var q := Finish(s.q, local.job.id, local.job.batch, local.run, e.worker, local.status, local.report);
    FinishKeeps(s.q, local.job.id, local.job.batch, local.run, e.worker, local.status, local.report);
    SteadyKeeps(s, s.(q := q));
    MoveKeeps(s.(q := q), e.worker, Idle);
  }

  lemma StepKeeps(s: System, e: Event)
    requires SystemInv(s) && Enabled(s, e)
    ensures SystemInv(Next(s, e)) && Onward(s.q, Next(s, e).q)
  {
    match e
    case JobClaimed(_, _, _, _, _, _) => ClaimStep(s, e);
    case RunStarted(_, _) => StartStep(s, e);
    case CaseDispatched(_, _, _) => DispatchStep(s, e);
    case JobFinished(_) => FinishStep(s, e);
    case WorkerLost(w) =>
      MoveKeeps(s, w, Idle);
      TickKeeps(s.q, 0);
    case Ticked(delta) => TickStep(s, delta);
    case BatchRequested(request) => CreateStep(s, request);
    case BatchCancelled(b) => CancelStep(s, b);
    case RunDeleted(r) => DeleteRunStep(s, r);
  }
}
