/** The execution queue as a value: rows of execution_batches, execution_jobs and
    test_case_runs, and one function per database transaction that changes them. */
module Queue {
  import opened Wrappers
  import opened Json
  import opened Recovery

  type Worker = string

  datatype Batch = Batch(
    project: int, session: Option<int>, actor: int, key: Option<string>, concurrency: int,
    status: Status, createdAt: int, startedAt: Option<int>, finishedAt: Option<int>)
  {
    predicate Active() { status == Pending || status == Running }
  }

  /** `dsl` is fixed when the job is created. */
  datatype Job = Job(
    batch: int, project: int, caseId: int, orderIndex: int, status: Status,
    attempts: nat, maxAttempts: nat, cancelRequested: bool,
    owner: Option<Worker>, lease: Option<int>,
    startedAt: Option<int>, finishedAt: Option<int>, dsl: Option<Value>)

  datatype Run = Run(job: int, attempt: nat, status: Status, report: Option<Value>, finishedAt: Option<int>)

  datatype State = State(
    now: int, batches: map<int, Batch>, jobs: map<int, Job>, runs: map<int, Run>,
    nextBatch: int, nextJob: int, nextRun: int)

  const EMPTY := State(0, map[], map[], map[], 1, 1, 1)

  function Coalesce(t: Option<int>, now: int): Option<int> {
    if t.Some? then t else Some(now)
  }

  // --- refreshBatchStatus -------------------------------------------------------

  predicate InBatch(q: State, j: int, b: int) { j in q.jobs && q.jobs[j].batch == b }

  predicate HasJob(q: State, b: int, status: Status) {
    exists j :: j in q.jobs && InBatch(q, j, b) && q.jobs[j].status == status
  }

  function RefreshedStatus(q: State, b: int): Status
    requires b in q.batches
  {
    if HasJob(q, b, Running) then Running
    else if HasJob(q, b, Pending) then (if q.batches[b].startedAt.None? then Pending else Running)
    else if HasJob(q, b, NeedsIntervention) then NeedsIntervention
    else if HasJob(q, b, Failed) then Failed
    else if forall j :: j in q.jobs && InBatch(q, j, b) ==> q.jobs[j].status == Cancelled then Cancelled
    else Passed
  }

  function RefreshedBatch(q: State, b: int): Batch
    requires b in q.batches
  {
    var row := q.batches[b];
    row.(status := RefreshedStatus(q, b),
         finishedAt := if HasJob(q, b, Pending) || HasJob(q, b, Running) then row.finishedAt
                       else Coalesce(row.finishedAt, q.now))
  }

  function Refresh(q: State, changed: set<int>): State {
    q.(batches := map b | b in q.batches :: if b in changed then RefreshedBatch(q, b) else q.batches[b])
  }

  // --- quarantineUnsafeExpiredJobs ----------------------------------------------

  predicate Expired(q: State, j: int) {
    j in q.jobs && q.jobs[j].status == Running && q.jobs[j].lease.Some? && q.jobs[j].lease.value < q.now
  }

  /** `r` is the row LEFT JOIN LATERAL picks for job `j`: the one with the largest id. */
  predicate Latest(q: State, j: int, r: int) {
    r in q.runs && q.runs[r].job == j && forall r' :: r' in q.runs && q.runs[r'].job == j ==> r' <= r
  }

  ghost predicate MayQuarantine(q: State, j: int, answer: bool)
    requires j in q.jobs
  {
    if r :| Latest(q, j, r)
    then MayAnswer(q.jobs[j].dsl, Some(q.runs[r].status), q.runs[r].report, answer)
    else MayAnswer(q.jobs[j].dsl, None, None, answer)
  }

  /** `unsafe` is one possible outcome of the recovery decision for every expired job. */
  ghost predicate Decides(q: State, unsafe: set<int>) {
    && (forall j :: j in unsafe ==> Expired(q, j))
    && (forall j :: j in q.jobs && Expired(q, j) ==> MayQuarantine(q, j, j in unsafe))
  }

  function QuarantinedJob(job: Job, now: int): Job {
    job.(status := NeedsIntervention, finishedAt := Some(now), owner := None, lease := None)
  }

  function QuarantinedRun(run: Run, now: int): Run {
    run.(status := NeedsIntervention, finishedAt := Coalesce(run.finishedAt, now))
  }

  function QuarantineRows(q: State, unsafe: set<int>): State {
    q.(jobs := map j | j in q.jobs :: if j in unsafe then QuarantinedJob(q.jobs[j], q.now) else q.jobs[j],
       runs := map r | r in q.runs ::
                 if q.runs[r].job in unsafe && q.runs[r].status == Running
                 then QuarantinedRun(q.runs[r], q.now) else q.runs[r])
  }

  function BatchesOf(q: State, jobs: set<int>): set<int> {
    set j | j in jobs && j in q.jobs :: q.jobs[j].batch
  }

  function Quarantine(q: State, unsafe: set<int>): State {
    Refresh(QuarantineRows(q, unsafe), BatchesOf(q, unsafe))
  }

  // --- claimNextJob -------------------------------------------------------------

  predicate Live(q: State, j: int, b: int) {
    && InBatch(q, j, b) && q.jobs[j].status == Running
    && q.jobs[j].lease.Some? && q.jobs[j].lease.value >= q.now
  }

  function LiveJobs(q: State, b: int): set<int> { set j | j in q.jobs && Live(q, j, b) }

  predicate Claimable(q: State, j: int, project: Option<int>) {
    && j in q.jobs && q.jobs[j].batch in q.batches
    && var job := q.jobs[j];
    var batch := q.batches[job.batch];
    && batch.Active()
    && (job.status == Pending || Expired(q, j))
    && !job.cancelRequested
    && job.attempts < job.maxAttempts
    && (project.Some? ==> job.project == project.value)
    && |LiveJobs(q, job.batch)| < batch.concurrency
  }

  /** ORDER BY b.created_at, b.id, j.order_index, j.id. */
  predicate Before(q: State, i: int, j: int)
    requires i in q.jobs && q.jobs[i].batch in q.batches
    requires j in q.jobs && q.jobs[j].batch in q.batches
  {
    var x, y := q.jobs[i], q.jobs[j];
    var p, r := q.batches[x.batch].createdAt, q.batches[y.batch].createdAt;
    || p < r
    || (p == r && x.batch < y.batch)
    || (p == r && x.batch == y.batch && x.orderIndex < y.orderIndex)
    || (p == r && x.batch == y.batch && x.orderIndex == y.orderIndex && i <= j)
  }

  predicate First(q: State, j: int, project: Option<int>) {
    && Claimable(q, j, project)
    && forall i :: i in q.jobs && Claimable(q, i, project) ==> Before(q, j, i)
  }

  function LeaseSeconds(requested: int): int { if requested < 1 then 1800 else requested }

  function Claim(q: State, j: int, worker: Worker, leaseSeconds: int): State
    requires j in q.jobs && q.jobs[j].batch in q.batches
  {
    var job := q.jobs[j];
    var batch := q.batches[job.batch];
    q.(jobs := q.jobs[j := job.(status := Running, attempts := job.attempts + 1, owner := Some(worker),
                                lease := Some(q.now + LeaseSeconds(leaseSeconds)),
                                startedAt := Coalesce(job.startedAt, q.now), finishedAt := None)],
       batches := q.batches[job.batch := batch.(status := Running,
                                                startedAt := Coalesce(batch.startedAt, q.now),
                                                finishedAt := None)])
  }

  // --- StartClaimedJobRun, FinishClaimedJobRun ----------------------------------

  function InsertRun(q: State, j: int, attempt: nat): State {
    q.(runs := q.runs[q.nextRun := Run(j, attempt, Running, None, None)], nextRun := q.nextRun + 1)
  }

  predicate OwnedBy(q: State, j: int, worker: Worker) {
    j in q.jobs && q.jobs[j].owner == Some(worker)
  }

  function FinishRows(q: State, j: int, run: int, status: Status, report: Value): State
    requires j in q.jobs
  {
    q.(jobs := q.jobs[j := q.jobs[j].(status := status, finishedAt := Some(q.now), owner := None, lease := None)],
       runs := if run in q.runs && q.runs[run].job == j
               then q.runs[run := q.runs[run].(status := status, report := Some(report), finishedAt := Some(q.now))]
               else q.runs)
  }

  /** A finish whose worker no longer holds the lease rolls back. */
  function Finish(q: State, j: int, batch: int, run: int, worker: Worker, status: Status, report: Value): State {
    if OwnedBy(q, j, worker) then Refresh(FinishRows(q, j, run, status, report), {batch}) else q
  }

  // --- CancelBatch --------------------------------------------------------------

  function CancelledJob(job: Job, now: int): Job {
    if job.status == Pending then job.(cancelRequested := true, status := Cancelled, finishedAt := Some(now))
    else if job.status == Running then job.(cancelRequested := true)
    else job
  }

  function Cancel(q: State, b: int): State {
    if b !in q.batches then q
    else
      var row := q.batches[b];
      var running := HasJob(q, b, Running);
      q.(jobs := map j | j in q.jobs :: if InBatch(q, j, b) then CancelledJob(q.jobs[j], q.now) else q.jobs[j],
         batches := q.batches[b := row.(status := if running then Running else Cancelled,
                                        finishedAt := if running then row.finishedAt else Some(q.now))])
  }

  // --- CreateBatch --------------------------------------------------------------

  /** `bound` are the canonical DSL bindings, `persisted` the selected test cases that
      exist. Membership, session ownership and DSL validation are decided elsewhere. */
  datatype CreateRequest = CreateRequest(
    actor: int, project: int, caseIds: seq<int>, session: Option<int>, key: Option<string>,
    concurrency: int, bound: map<int, Value>, persisted: map<int, Value>,
    member: bool, sessionOwned: bool, bindingsValid: bool, casesValid: bool)

  datatype CreateOutcome = AccessDenied | Conflict | NotFound | Replayed(id: int) | Created(id: int)

  function UniqueIds(ids: seq<int>): seq<int> {
    if ids == [] then []
    else
      var kept := UniqueIds(ids[..|ids| - 1]);
      var last := ids[|ids| - 1];
      if last in kept then kept else kept + [last]
  }

  predicate HasKey(q: State, b: int, actor: int, key: string) {
    b in q.batches && q.batches[b].actor == actor && q.batches[b].key == Some(key)
  }

  predicate SessionBusy(q: State, session: int) {
    exists b :: b in q.batches && q.batches[b].session == Some(session) && q.batches[b].Active()
  }

  function NewBatch(q: State, request: CreateRequest): Batch {
    Batch(request.project, request.session, request.actor, request.key,
          if request.concurrency < 1 || request.concurrency > 16 then 1 else request.concurrency,
          Pending, q.now, None, None)
  }

  function NewJob(b: int, request: CreateRequest, caseId: int, index: int): Job {
    Job(b, request.project, caseId, index, Pending, 0, 2, false, None, None, None, None,
        if caseId in request.bound then Some(request.bound[caseId])
        else if caseId in request.persisted then Some(request.persisted[caseId]) else None)
  }

  function NewJobs(q: State, request: CreateRequest, ids: seq<int>): map<int, Job> {
    map j | q.nextJob <= j < q.nextJob + |ids| :: NewJobAt(q, request, ids, j)
  }

  function NewJobAt(q: State, request: CreateRequest, ids: seq<int>, j: int): Job
    requires q.nextJob <= j < q.nextJob + |ids|
  {
    NewJob(q.nextBatch, request, ids[j - q.nextJob], j - q.nextJob)
  }

  function CreateRows(q: State, request: CreateRequest): State {
    var ids := UniqueIds(request.caseIds);
    q.(batches := q.batches[q.nextBatch := NewBatch(q, request)],
       jobs := q.jobs + NewJobs(q, request, ids),
       nextBatch := q.nextBatch + 1, nextJob := q.nextJob + |ids|)
  }

  /** The checks of CreateBatch in source order; None means the batch is created. */
  ghost predicate Refuses(q: State, request: CreateRequest, outcome: CreateOutcome) {
    if !request.member then outcome == AccessDenied
    else if request.key.Some? && exists b :: HasKey(q, b, request.actor, request.key.value) then
      exists b :: HasKey(q, b, request.actor, request.key.value)
               && outcome == if q.batches[b].project != request.project then Conflict else Replayed(b)
    else if request.session.Some? && !request.sessionOwned then outcome == NotFound
    else if request.session.Some? && SessionBusy(q, request.session.value) then outcome == Conflict
    else if !request.bindingsValid then outcome == Conflict
    else if exists i :: 0 <= i < |request.caseIds| && request.caseIds[i] !in request.persisted then outcome == NotFound
    else if !request.casesValid then outcome == Conflict
    else false
  }

  predicate Admitted(q: State, request: CreateRequest) {
    && request.member
    && (request.key.Some? ==> forall b :: b in q.batches ==> !HasKey(q, b, request.actor, request.key.value))
    && (request.session.Some? ==> request.sessionOwned && !SessionBusy(q, request.session.value))
    && request.bindingsValid && request.casesValid
    && (forall i :: 0 <= i < |request.caseIds| ==> request.caseIds[i] in request.persisted)
  }

  function Create(q: State, request: CreateRequest): State {
    if Admitted(q, request) then CreateRows(q, request) else q
  }

  /** A replayed request with the same key names the same batch and changes nothing. */
  lemma CreateReplay(q: State, request: CreateRequest, again: CreateRequest, outcome: CreateOutcome)
    requires Admitted(q, request) && request.key.Some? && (forall b :: b in q.batches ==> b < q.nextBatch)
    requires again.member && again.actor == request.actor && again.key == request.key
    ensures var q' := Create(q, request);
            && Create(q', again) == q'
            && (Refuses(q', again, outcome) <==>
                outcome == if again.project != request.project then Conflict else Replayed(q.nextBatch))
  {
    var q' := Create(q, request);
    assert HasKey(q', q.nextBatch, again.actor, again.key.value);
    forall b | HasKey(q', b, again.actor, again.key.value) ensures b == q.nextBatch {
      if b != q.nextBatch {
        assert HasKey(q, b, request.actor, request.key.value);
      }
    }
  }
}
