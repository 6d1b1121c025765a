/** The research control plane (internal/research/service.go over postgres.go): every
    service call is a sequence of repository transactions, and any number of calls run
    interleaved. The checks made in one transaction still hold in a later one. */
module ResearchControl {
  import opened Wrappers

  datatype RunStatus = Pending | Running | Completed | Failed | Cancelled {
    predicate Terminal() { this == Completed || this == Failed || this == Cancelled }

    predicate CanTransition(to: RunStatus) {
      || this == to
      || (this == Pending && (to == Running || to == Cancelled))
      || (this == Running && (to == Completed || to == Failed || to == Cancelled))
    }
  }

  datatype ExperimentStatus = Draft | Active | Complete | Abandoned

  datatype Links = Links(agentRun: Option<string>, generation: Option<int>, batch: Option<int>,
                         execution: Option<int>, dsl: Option<string>)

  datatype Metrics = Metrics(source: string, sha: string)

  datatype Run = Run(experiment: int, status: RunStatus, links: Links, metrics: Option<Metrics>, started: bool)

  /** `schedule` are the ids of its warmup and measured repetitions. */
  datatype Experiment = Experiment(status: ExperimentStatus, schedule: seq<int>)

  /** `listing[e]` is the order in which ListRuns returns the runs of `e`. */
  datatype Db = Db(experiments: map<int, Experiment>, runs: map<int, Run>, listing: map<int, seq<int>>)

  const NO_LINKS := Links(None, None, None, None, None)

  predicate CompleteLinks(l: Links) {
    l.agentRun.Some? && l.generation.Some? && l.batch.Some? && l.execution.Some? && l.dsl.Some?
  }

  predicate PointerExtends<T(==)>(current: Option<T>, next: Option<T>) { current.Some? ==> next == current }

  predicate LinksExtend(current: Links, next: Links) {
    && PointerExtends(current.agentRun, next.agentRun) && PointerExtends(current.generation, next.generation)
    && PointerExtends(current.batch, next.batch) && PointerExtends(current.execution, next.execution)
    && PointerExtends(current.dsl, next.dsl)
  }

  // --- Transactions -----------------------------------------------------------------

  /** CompareAndSwapRunStatus. */
  function SwapRun(db: Db, r: int, from: RunStatus, to: RunStatus): Db {
    if r in db.runs && db.runs[r].status == from && from.CanTransition(to) then
      db.(runs := db.runs[r := db.runs[r].(status := to, started := db.runs[r].started || (from != to && to == Running))])
    else db
  }

  predicate Swaps(db: Db, r: int, from: RunStatus, to: RunStatus) {
    r in db.runs && db.runs[r].status == from && from.CanTransition(to)
  }

  /** CompareAndSwapExperimentStatus. */
  function SwapExperiment(db: Db, e: int, from: ExperimentStatus, to: ExperimentStatus): Db {
    if e in db.experiments && db.experiments[e].status == from
    then db.(experiments := db.experiments[e := db.experiments[e].(status := to)]) else db
  }

  /** UpdateRunLinks: links are only ever added. */
  function ExtendLinks(db: Db, r: int, links: Links): Db {
    if r in db.runs && LinksExtend(db.runs[r].links, links)
    then db.(runs := db.runs[r := db.runs[r].(links := links)]) else db
  }

  /** CompareAndSwapRunMetrics: stored once; the same source and hash may be replayed. */
  function StoreMetrics(db: Db, r: int, expected: string, m: Metrics): Db {
    if r in db.runs && db.runs[r].metrics.None? && expected == ""
    then db.(runs := db.runs[r := db.runs[r].(metrics := Some(m))]) else db
  }

  predicate StoresMetrics(db: Db, r: int, expected: string, m: Metrics) {
    && r in db.runs
    && match db.runs[r].metrics
       case None => expected == ""
       case Some(stored) => stored == m
  }

  /** CreateRun: a replay returns the existing run, a new one may sort anywhere. */
  function CreateRun(db: Db, e: int, r: int, position: nat): Db
    requires e in db.listing && position <= |db.listing[e]|
  {
    if r in db.runs then db
    else
      var order := db.listing[e];
      db.(runs := db.runs[r := Run(e, Pending, NO_LINKS, None, false)],
          listing := db.listing[e := order[..position] + [r] + order[position..]])
  }

  /** The request names another value, or none, for a link that is already set. */
  predicate Contradicts(current: Links, request: Links) {
    || (current.agentRun.Some? && request.agentRun != current.agentRun)
    || (current.generation.Some? && request.generation != current.generation)
    || (current.batch.Some? && request.batch != current.batch)
    || (current.execution.Some? && request.execution != current.execution)
    || (current.dsl.Some? && request.dsl != current.dsl)
  }

  /** Each of the five links that was set is set to the same value. */
  predicate SameLinks(was: Links, now: Links) {
    && (was.agentRun.Some? ==> now.agentRun == was.agentRun)
    && (was.generation.Some? ==> now.generation == was.generation)
    && (was.batch.Some? ==> now.batch == was.batch)
    && (was.execution.Some? ==> now.execution == was.execution)
    && (was.dsl.Some? ==> now.dsl == was.dsl)
  }

  /** The repository as it runs those transactions. */
  class Repository {
    var db: Db

    constructor ()
      ensures db == Db(map[], map[], map[])
    {
      db := Db(map[], map[], map[]);
    }

    method CompareAndSwapRunStatus(r: int, from: RunStatus, to: RunStatus) returns (ok: bool)
      modifies this
      ensures ok == Swaps(old(db), r, from, to) && db == SwapRun(old(db), r, from, to)
      ensures ok <==> r in old(db).runs && old(db).runs[r].status == from
                      && (from == to || (from == Pending && to in {Running, Cancelled})
                          || (from == Running && to in {Completed, Failed, Cancelled}))
      ensures ok ==> db == old(db).(runs := old(db).runs[r := old(db).runs[r].(
                       status := to, started := old(db).runs[r].started || (from == Pending && to == Running))])
      ensures !ok ==> db == old(db)
    {
      if !from.CanTransition(to) || r !in db.runs {
        return false;
      }
      var row := db.runs[r];
      if row.status != from {
        return false;
      }
      if from != to && to == Running {
        row := row.(started := true);
      }
      db := db.(runs := db.runs[r := row.(status := to)]);
      ok := true;
    }

    method UpdateRunLinks(r: int, links: Links) returns (ok: bool)
      modifies this
      ensures ok == (r in old(db).runs && LinksExtend(old(db).runs[r].links, links))
      ensures db == ExtendLinks(old(db), r, links)
      ensures ok <==> r in old(db).runs && !Contradicts(old(db).runs[r].links, links)
      ensures ok ==> db == old(db).(runs := old(db).runs[r := old(db).runs[r].(links := links)])
      ensures !ok ==> db == old(db)
      ensures r in old(db).runs ==> r in db.runs && SameLinks(old(db).runs[r].links, db.runs[r].links)
    {
      if r !in db.runs {
        return false;
      }
      var current := db.runs[r];
      ok := LinksExtend(current.links, links);
      if ok {
        db := db.(runs := db.runs[r := current.(links := links)]);
      }
    }

    method CompareAndSwapRunMetrics(r: int, expected: string, m: Metrics) returns (ok: bool)
      modifies this
      ensures db == StoreMetrics(old(db), r, expected, m)
      ensures ok == StoresMetrics(old(db), r, expected, m)
      ensures ok ==> r in db.runs && db.runs[r].metrics == Some(m)
      ensures ok <==> r in old(db).runs
                      && (if old(db).runs[r].metrics.None? then expected == "" else old(db).runs[r].metrics == Some(m))
      ensures r in old(db).runs && old(db).runs[r].metrics.Some? ==> db == old(db)
      ensures !ok ==> db == old(db)
    {
      if r !in db.runs {
        return false;
      }
      var current := db.runs[r];
      if current.metrics.Some? {
        return current.metrics.value.source == m.source && current.metrics.value.sha == m.sha;
      }
      if expected != "" {
        return false;
      }
      db := db.(runs := db.runs[r := current.(metrics := Some(m))]);
      ok := true;
    }
  }

  // --- Service calls as programs ----------------------------------------------------

  datatype Call = Start(run: int) | Finish(run: int, status: RunStatus) | Cancel(run: int)

  /** Where a call is: what it has read, and what it will do next. */
  datatype Op =
    | Idle
    | Seeding(experiment: int, draft: bool, next: nat)
    | HasRun(call: Call, row: Run)
    | HasBoth(call: Call, row: Run, active: bool)
    | Projected(run: int, metrics: Metrics)
    | Scanning(experiment: int, seen: nat)
    | Counted(experiment: int)

  datatype System = System(db: Db, ops: map<int, Op>)

  datatype Event =
    | ExperimentCreated(experiment: int, schedule: seq<int>)
    | SeedBegun(op: int, experiment: int)
    | RunSeeded(op: int, position: nat)
    | SeedFinished(op: int)
    | CallBegun(op: int, call: Call)
    | ExperimentRead(op: int)
    | RunDecided(op: int, valid: bool)
    | PageScanned(op: int)
    | ExperimentDecided(op: int)
    | LinksUpdated(run: int, links: Links)
    | MetricsProjected(op: int, run: int, metrics: Metrics)
    | MetricsStored(op: int)
    | CallLost(op: int)

  const PAGE := 500

  function At(s: System, w: int): Op { if w in s.ops then s.ops[w] else Idle }

  function Place(s: System, db: Db, w: int, op: Op): System { s.(db := db, ops := s.ops[w := op]) }

  predicate Distinct(ids: seq<int>) { forall i, j :: 0 <= i < j < |ids| ==> ids[i] != ids[j] }

  ghost predicate Enabled(s: System, e: Event) {
    match e
    case ExperimentCreated(x, schedule) =>
      x !in s.db.experiments && Distinct(schedule) && forall y, i :: Scheduled(s.db, y, i) ==> i !in schedule
    case SeedBegun(w, x) =>
      At(s, w).Idle? && x in s.db.experiments && s.db.experiments[x].status in {Draft, Active}
    case RunSeeded(w, position) =>
      && At(s, w).Seeding? && At(s, w).experiment in s.db.experiments && At(s, w).experiment in s.db.listing
      && At(s, w).next < |s.db.experiments[At(s, w).experiment].schedule|
      && position <= |s.db.listing[At(s, w).experiment]|
    case SeedFinished(w) =>
      && At(s, w).Seeding? && At(s, w).experiment in s.db.experiments
      && At(s, w).next == |s.db.experiments[At(s, w).experiment].schedule|
    case CallBegun(w, call) =>
      At(s, w).Idle? && call.run in s.db.runs && (call.Finish? ==> call.status in {Completed, Failed})
    case ExperimentRead(w) => At(s, w).HasRun? && At(s, w).row.experiment in s.db.experiments
    case RunDecided(w, _) => At(s, w).HasBoth?
    case PageScanned(w) =>
      && At(s, w).Scanning? && At(s, w).experiment in s.db.experiments && At(s, w).experiment in s.db.listing
    case ExperimentDecided(w) => At(s, w).Counted?
    case MetricsProjected(w, r, _) => At(s, w).Idle? && r in s.db.runs && CompleteLinks(s.db.runs[r].links)
    case MetricsStored(w) => At(s, w).Projected?
    case _ => true
  }

  predicate Scheduled(db: Db, x: int, r: int) { x in db.experiments && r in db.experiments[x].schedule }

  /** After a run settled, the experiment is scanned if it was active when read. */
  function AfterRun(op: Op): Op
    requires op.HasBoth?
  {
    if op.active then Scanning(op.row.experiment, 0) else Idle
  }

  /** The decision of StartRun, FinishRun or CancelRun on what it read, and its swap. */
  function Decided(db: Db, op: Op, valid: bool): (Db, Op)
    requires op.HasBoth?
  {
    match op.call
    case Start(r) => (if op.active && op.row.status == Pending then SwapRun(db, r, Pending, Running) else db, Idle)
    case Finish(r, status) =>
      if !op.row.started || (status == Completed && !(CompleteLinks(op.row.links) && op.row.metrics.Some? && valid))
      then (db, Idle)
      else if op.row.status == status then (db, AfterRun(op))
      else if op.row.status != Running || !Swaps(db, r, Running, status) then (db, Idle)
      else (SwapRun(db, r, Running, status), AfterRun(op))
    case Cancel(r) =>
      if op.row.status == Cancelled then (db, AfterRun(op))
      else if op.row.status.Terminal() || !Swaps(db, r, op.row.status, Cancelled) then (db, Idle)
      else (SwapRun(db, r, op.row.status, Cancelled), AfterRun(op))
  }

  function Page(db: Db, x: int, seen: nat): seq<int>
    requires x in db.listing
  {
    var order := db.listing[x];
    if seen >= |order| then [] else if |order| - seen <= PAGE then order[seen..] else order[seen..seen + PAGE]
  }

  predicate AllTerminal(db: Db, ids: seq<int>) {
    forall i :: 0 <= i < |ids| ==> IsTerminal(db, ids[i])
  }

  predicate IsTerminal(db: Db, r: int) { r in db.runs && db.runs[r].status.Terminal() }

  /** One page of completeExperimentIfAllRunsTerminal. */
  function Scanned(db: Db, x: int, seen: nat): Op
    requires x in db.listing && x in db.experiments
  {
    var page := Page(db, x, seen);
    if !AllTerminal(db, page) then Idle
    else if |page| == PAGE then Scanning(x, seen + PAGE)
    else if seen + |page| == |db.experiments[x].schedule| then Counted(x)
    else Idle
  }

  ghost function Next(s: System, e: Event): System
    requires Enabled(s, e)
  {
    match e
    case ExperimentCreated(x, schedule) =>
      s.(db := s.db.(experiments := s.db.experiments[x := Experiment(Draft, schedule)], listing := s.db.listing[x := []]))
    case SeedBegun(w, x) => Place(s, s.db, w, Seeding(x, s.db.experiments[x].status == Draft, 0))
    case RunSeeded(w, position) =>
      var op := At(s, w);
      var r := s.db.experiments[op.experiment].schedule[op.next];
      Place(s, CreateRun(s.db, op.experiment, r, position), w, op.(next := op.next + 1))
    case SeedFinished(w) =>
      var op := At(s, w);
      Place(s, if op.draft then SwapExperiment(s.db, op.experiment, Draft, Active) else s.db, w, Idle)
    case CallBegun(w, call) => Place(s, s.db, w, HasRun(call, s.db.runs[call.run]))
    case ExperimentRead(w) =>
      var op := At(s, w);
      Place(s, s.db, w, HasBoth(op.call, op.row, s.db.experiments[op.row.experiment].status == Active))
    case RunDecided(w, valid) =>
      var (db, op) := Decided(s.db, At(s, w), valid);
      Place(s, db, w, op)
    case PageScanned(w) => Place(s, s.db, w, Scanned(s.db, At(s, w).experiment, At(s, w).seen))
    case ExperimentDecided(w) => Place(s, SwapExperiment(s.db, At(s, w).experiment, Active, Complete), w, Idle)
    case LinksUpdated(r, links) => s.(db := ExtendLinks(s.db, r, links))
    case MetricsProjected(w, r, m) => Place(s, s.db, w, Projected(r, m))
    case MetricsStored(w) => Place(s, StoreMetrics(s.db, At(s, w).run, "", At(s, w).metrics), w, Idle)
    case CallLost(w) => Place(s, s.db, w, Idle)
  }

  const INITIAL := System(Db(map[], map[], map[]), map[])

  // --- What never goes back -----------------------------------------------------------

  /** Links extend, metrics are written once, a terminal status is final. */
  ghost predicate RunOnward(r: Run, r': Run) {
    && r'.experiment == r.experiment && LinksExtend(r.links, r'.links)
    && (r.metrics.Some? ==> r'.metrics == r.metrics) && (r.status.Terminal() ==> r'.status == r.status)
    && (r.started ==> r'.started)
  }

  ghost predicate ExperimentOnward(x: Experiment, x': Experiment) {
    x'.schedule == x.schedule && (x.status == Active ==> x'.status != Draft) && (x.status == Complete ==> x' == x)
  }

  /** All scheduled runs exist, so the listing can no longer grow. */
  ghost predicate Populated(db: Db, x: int) {
    && x in db.experiments && x in db.listing
    && forall i :: 0 <= i < |db.experiments[x].schedule| ==> db.experiments[x].schedule[i] in db.runs
  }

  ghost predicate RunStays(db: Db, db': Db, r: int)
    requires r in db.runs
  {
    r in db'.runs && RunOnward(db.runs[r], db'.runs[r])
  }

  ghost predicate ExperimentStays(db: Db, db': Db, x: int)
    requires x in db.experiments
  {
    x in db'.experiments && ExperimentOnward(db.experiments[x], db'.experiments[x])
  }

  ghost predicate Onward(db: Db, db': Db) {
    && (forall r :: r in db.runs ==> RunStays(db, db', r))
    && (forall x :: x in db.experiments ==> ExperimentStays(db, db', x))
    && (forall x :: x in db.listing ==> x in db'.listing)
    && (forall x :: Populated(db, x) ==> db'.listing[x] == db.listing[x])
  }

  // --- The invariant ------------------------------------------------------------------

  ghost predicate RunOk(r: Run) { r.status == Completed ==> CompleteLinks(r.links) && r.metrics.Some? }

  /** The listing of an experiment holds exactly its runs, each once, all scheduled. */
  ghost predicate ListingOk(db: Db, x: int)
    requires x in db.experiments && x in db.listing
  {
    && Distinct(db.listing[x])
    && (forall i :: 0 <= i < |db.listing[x]| ==> InListing(db, x, db.listing[x][i]))
    && (forall r :: r in db.runs && db.runs[r].experiment == x ==> r in db.listing[x])
  }

  ghost predicate InListing(db: Db, x: int, r: int)
    requires x in db.experiments
  {
    r in db.runs && db.runs[r].experiment == x && r in db.experiments[x].schedule
  }

  ghost predicate ExperimentOk(db: Db, x: int)
    requires x in db.experiments
  {
    && x in db.listing && Distinct(db.experiments[x].schedule) && ListingOk(db, x)
    && (db.experiments[x].status in {Active, Complete} ==> Populated(db, x))
    && (db.experiments[x].status == Complete ==> Finished(db, x))
  }

  ghost predicate Finished(db: Db, x: int) {
    && Populated(db, x) && AllTerminal(db, db.listing[x]) && |db.listing[x]| == |db.experiments[x].schedule|
  }

  ghost predicate OneExperiment(db: Db) {
    forall x, y, r :: Scheduled(db, x, r) && Scheduled(db, y, r) ==> x == y
  }

  ghost predicate DbOk(db: Db) {
    && (forall r :: r in db.runs ==> RunOk(db.runs[r]) && Scheduled(db, db.runs[r].experiment, r))
    && (forall x :: x in db.experiments ==> ExperimentOk(db, x))
    && OneExperiment(db)
  }

  /** What a call has read is still a lower bound of what is stored. */
  ghost predicate OpOk(db: Db, op: Op) {
    match op
    case Idle => true
    case Seeding(x, _, next) =>
      && x in db.experiments && next <= |db.experiments[x].schedule|
      && forall i :: 0 <= i < next ==> db.experiments[x].schedule[i] in db.runs
    case HasRun(call, row) => ReadOk(db, call, row)
    case HasBoth(call, row, active) => ReadOk(db, call, row) && (active ==> Populated(db, row.experiment))
    case Projected(r, _) => r in db.runs && CompleteLinks(db.runs[r].links)
    case Scanning(x, seen) => Populated(db, x) && seen <= |db.listing[x]| && AllTerminal(db, db.listing[x][..seen])
    case Counted(x) => Finished(db, x)
  }

  ghost predicate ReadOk(db: Db, call: Call, row: Run) {
    call.run in db.runs && RunOnward(row, db.runs[call.run]) && (call.Finish? ==> call.status in {Completed, Failed})
  }

  ghost predicate Inv(s: System) { DbOk(s.db) && forall w :: w in s.ops ==> OpOk(s.db, s.ops[w]) }

  lemma RunOnwardTwice(a: Run, b: Run, c: Run)
    requires RunOnward(a, b) && RunOnward(b, c)
    ensures RunOnward(a, c)
  {
  }

  /** What a call knows stays true while others work. */
  lemma OpStays(db: Db, db': Db, op: Op)
    requires OpOk(db, op) && Onward(db, db')
    ensures OpOk(db', op)
  {
    match op
    case HasRun(call, row) => ReadStays(db, db', call, row);
    case HasBoth(call, row, active) =>
      ReadStays(db, db', call, row);
      if active {
        PopulatedStays(db, db', row.experiment);
      }
    case Seeding(x, _, next) =>
      assert ExperimentStays(db, db', x);
      forall i | 0 <= i < next ensures db'.experiments[x].schedule[i] in db'.runs {
        assert RunStays(db, db', db.experiments[x].schedule[i]);
      }
    case Projected(r, _) => assert RunStays(db, db', r);
    case Scanning(x, seen) =>
      PopulatedStays(db, db', x);
      TerminalStays(db, db', db.listing[x][..seen]);
    case Counted(x) =>
      PopulatedStays(db, db', x);
      TerminalStays(db, db', db.listing[x]);
    case Idle =>
  }

  lemma ReadStays(db: Db, db': Db, call: Call, row: Run)
    requires ReadOk(db, call, row) && Onward(db, db')
    ensures ReadOk(db', call, row)
  {
    assert RunStays(db, db', call.run);
    RunOnwardTwice(row, db.runs[call.run], db'.runs[call.run]);
  }

  lemma PopulatedStays(db: Db, db': Db, x: int)
    requires Populated(db, x) && Onward(db, db')
    ensures Populated(db', x) && db'.listing[x] == db.listing[x]
    ensures db'.experiments[x].schedule == db.experiments[x].schedule
  {
    assert ExperimentStays(db, db', x);
    forall i | 0 <= i < |db.experiments[x].schedule| ensures db.experiments[x].schedule[i] in db'.runs {
      assert RunStays(db, db', db.experiments[x].schedule[i]);
    }
  }

  lemma TerminalStays(db: Db, db': Db, ids: seq<int>)
    requires AllTerminal(db, ids) && Onward(db, db')
    ensures AllTerminal(db', ids)
  {
    forall i | 0 <= i < |ids| ensures IsTerminal(db', ids[i]) {
      assert IsTerminal(db, ids[i]) && RunStays(db, db', ids[i]);
    }
  }

  lemma PlaceKeeps(s: System, db: Db, w: int, op: Op)
    requires Inv(s) && DbOk(db) && Onward(s.db, db) && OpOk(db, op)
    ensures Inv(Place(s, db, w, op))
  {
    forall v | v in s.ops ensures OpOk(db, s.ops[v]) {
      OpStays(s.db, db, s.ops[v]);
    }
  }

  lemma Same(db: Db)
    ensures Onward(db, db)
  {
  }

  // --- One lemma per transaction ------------------------------------------------------

  /** A change to one run row that goes onward keeps everything else. */
  lemma RunChange(db: Db, r: int, row: Run)
    requires DbOk(db) && r in db.runs && RunOnward(db.runs[r], row) && RunOk(row)
    ensures DbOk(db.(runs := db.runs[r := row])) && Onward(db, db.(runs := db.runs[r := row]))
  {
    var db' := db.(runs := db.runs[r := row]);
    forall k | k in db.runs ensures RunStays(db, db', k) {
    }
    forall x | x in db'.experiments ensures ExperimentOk(db', x) {
      assert ExperimentOk(db, x);
      ExperimentFrame(db, db', x);
    }
    forall k | k in db'.runs ensures RunOk(db'.runs[k]) && Scheduled(db', db'.runs[k].experiment, k) {
      assert RunOk(db.runs[k]) && Scheduled(db, db.runs[k].experiment, k);
    }
    assert forall x, k :: Scheduled(db', x, k) ==> Scheduled(db, x, k);
  }

  /** Same experiments and listings, same run ids, rows gone onward. */
  lemma ExperimentFrame(db: Db, db': Db, x: int)
    requires x in db.experiments && ExperimentOk(db, x)
    requires db'.experiments == db.experiments && db'.listing == db.listing && db'.runs.Keys == db.runs.Keys
    requires forall r :: r in db.runs ==> RunStays(db, db', r)
    ensures ExperimentOk(db', x)
  {
    forall i | 0 <= i < |db.listing[x]| ensures InListing(db', x, db.listing[x][i]) {
      assert InListing(db, x, db.listing[x][i]) && RunStays(db, db', db.listing[x][i]);
    }
    forall r | r in db'.runs && db'.runs[r].experiment == x ensures r in db'.listing[x] {
      assert RunStays(db, db', r);
    }
    if db.experiments[x].status == Complete {
      forall i | 0 <= i < |db.listing[x]| ensures IsTerminal(db', db.listing[x][i]) {
        assert IsTerminal(db, db.listing[x][i]) && RunStays(db, db', db.listing[x][i]);
      }
    }
  }

  lemma SwapRunKeeps(db: Db, r: int, from: RunStatus, to: RunStatus)
    requires DbOk(db)
    requires r in db.runs && to == Completed ==> CompleteLinks(db.runs[r].links) && db.runs[r].metrics.Some?
    ensures DbOk(SwapRun(db, r, from, to)) && Onward(db, SwapRun(db, r, from, to))
  {
    if Swaps(db, r, from, to) {
      assert RunOk(db.runs[r]);
      RunChange(db, r, SwapRun(db, r, from, to).runs[r]);
    } else {
      Same(db);
    }
  }

  lemma ExtendLinksKeeps(db: Db, r: int, links: Links)
    requires DbOk(db)
    ensures DbOk(ExtendLinks(db, r, links)) && Onward(db, ExtendLinks(db, r, links))
  {
    if r in db.runs && LinksExtend(db.runs[r].links, links) {
      assert RunOk(db.runs[r]);
      RunChange(db, r, db.runs[r].(links := links));
    } else {
      Same(db);
    }
  }

  lemma StoreMetricsKeeps(db: Db, r: int, m: Metrics)
    requires DbOk(db)
    ensures DbOk(StoreMetrics(db, r, "", m)) && Onward(db, StoreMetrics(db, r, "", m))
  {
    if r in db.runs && db.runs[r].metrics.None? {
      assert RunOk(db.runs[r]);
      RunChange(db, r, db.runs[r].(metrics := Some(m)));
    } else {
      Same(db);
    }
  }

  /** Activation needs the whole schedule; completion needs every run terminal. */
  lemma SwapExperimentKeeps(db: Db, x: int, from: ExperimentStatus, to: ExperimentStatus)
    requires DbOk(db) && x in db.experiments
    requires (from == Draft && to == Active && Populated(db, x)) || (from == Active && to == Complete && Finished(db, x))
    ensures DbOk(SwapExperiment(db, x, from, to)) && Onward(db, SwapExperiment(db, x, from, to))
  {
    var db' := SwapExperiment(db, x, from, to);
    forall y | y in db.experiments ensures ExperimentStays(db, db', y) {
    }
    forall r | r in db.runs ensures RunStays(db, db', r) {
    }
    forall y | y in db'.experiments ensures ExperimentOk(db', y) {
      assert ExperimentOk(db, y);
      assert forall i :: 0 <= i < |db.listing[y]| ==> InListing(db, y, db.listing[y][i]);
      assert forall i :: 0 <= i < |db'.listing[y]| ==> InListing(db', y, db'.listing[y][i]);
      assert AllTerminal(db, db.listing[y]) ==> AllTerminal(db', db'.listing[y]) by {
        assert forall i :: 0 <= i < |db.listing[y]| ==>
          IsTerminal(db', db.listing[y][i]) == IsTerminal(db, db.listing[y][i]);
      }
    }
    assert forall y, r :: Scheduled(db', y, r) <==> Scheduled(db, y, r);
  }

  lemma InsertDistinct(ids: seq<int>, r: int, position: nat)
    requires Distinct(ids) && r !in ids && position <= |ids|
    ensures Distinct(ids[..position] + [r] + ids[position..])
    ensures forall k :: k in ids[..position] + [r] + ids[position..] <==> k in ids || k == r
  {
    assert ids == ids[..position] + ids[position..];
  }

  lemma Listed(db: Db, x: int, r: int)
    requires x in db.experiments && x in db.listing && ListingOk(db, x) && r in db.listing[x]
    ensures InListing(db, x, r)
  {
    var i :| 0 <= i < |db.listing[x]| && db.listing[x][i] == r;
    assert InListing(db, x, db.listing[x][i]);
  }

  lemma CreateRunListing(db: Db, x: int, r: int, position: nat)
    requires DbOk(db) && Scheduled(db, x, r) && r !in db.runs && position <= |db.listing[x]|
    ensures ListingOk(CreateRun(db, x, r, position), x)
  {
    var db' := CreateRun(db, x, r, position);
    assert ExperimentOk(db, x);
    forall k | k in db.listing[x] ensures InListing(db, x, k) {
      Listed(db, x, k);
    }
    InsertDistinct(db.listing[x], r, position);
    forall i | 0 <= i < |db'.listing[x]| ensures InListing(db', x, db'.listing[x][i]) {
      var k := db'.listing[x][i];
      assert k in db'.listing[x];
      assert k != r ==> InListing(db, x, k);
    }
  }

  lemma CreateRunOthers(db: Db, x: int, r: int, position: nat, y: int)
    requires DbOk(db) && Scheduled(db, x, r) && r !in db.runs && position <= |db.listing[x]|
    requires y in db.experiments && y != x
    ensures ExperimentOk(CreateRun(db, x, r, position), y)
  {
    var db' := CreateRun(db, x, r, position);
    assert ExperimentOk(db, y);
    forall i | 0 <= i < |db.listing[y]| ensures InListing(db', y, db'.listing[y][i]) {
      assert InListing(db, y, db.listing[y][i]);
    }
    if db.experiments[y].status == Complete {
      forall i | 0 <= i < |db.listing[y]| ensures IsTerminal(db', db.listing[y][i]) {
        assert IsTerminal(db, db.listing[y][i]);
      }
    }
  }

  /** A new run belongs to an experiment that is not populated yet, so no populated
      experiment's listing grows. */
  lemma CreateRunKeeps(db: Db, x: int, r: int, position: nat)
    requires DbOk(db) && Scheduled(db, x, r) && x in db.listing && position <= |db.listing[x]|
    ensures DbOk(CreateRun(db, x, r, position)) && Onward(db, CreateRun(db, x, r, position))
  {
    var db' := CreateRun(db, x, r, position);
    if r in db.runs {
      Same(db);
    } else {
      assert !Populated(db, x);
      CreateRunListing(db, x, r, position);
      forall y | y in db'.experiments ensures ExperimentOk(db', y) {
        if y != x {
          CreateRunOthers(db, x, r, position, y);
        } else {
          assert ExperimentOk(db, x);
        }
      }
      forall k | k in db'.runs ensures RunOk(db'.runs[k]) && Scheduled(db', db'.runs[k].experiment, k) {
        assert k != r ==> RunOk(db.runs[k]) && Scheduled(db, db.runs[k].experiment, k);
      }
      assert forall y, k :: Scheduled(db', y, k) <==> Scheduled(db, y, k);
    }
  }

  lemma CreateExperimentKeeps(db: Db, x: int, schedule: seq<int>)
    requires DbOk(db) && x !in db.experiments && Distinct(schedule)
    requires forall y, r :: Scheduled(db, y, r) ==> r !in schedule
    ensures var db' := db.(experiments := db.experiments[x := Experiment(Draft, schedule)], listing := db.listing[x := []]);
            DbOk(db') && Onward(db, db')
  {
    var db' := db.(experiments := db.experiments[x := Experiment(Draft, schedule)], listing := db.listing[x := []]);
    forall r | r in db'.runs ensures RunOk(db'.runs[r]) && Scheduled(db', db'.runs[r].experiment, r) {
      assert RunOk(db.runs[r]) && Scheduled(db, db.runs[r].experiment, r);
    }
    forall y | y in db'.experiments ensures ExperimentOk(db', y) {
      if y != x {
        assert ExperimentOk(db, y);
        forall i | 0 <= i < |db.listing[y]| ensures InListing(db', y, db'.listing[y][i]) {
          assert InListing(db, y, db.listing[y][i]);
        }
        if db.experiments[y].status == Complete {
          forall i | 0 <= i < |db.listing[y]| ensures IsTerminal(db', db.listing[y][i]) {
            assert IsTerminal(db, db.listing[y][i]);
          }
        }
      } else {
        forall r | r in db'.runs ensures db'.runs[r].experiment != x {
          assert Scheduled(db, db.runs[r].experiment, r);
        }
      }
    }
    forall y, z, r | Scheduled(db', y, r) && Scheduled(db', z, r) ensures y == z {
      assert y != x ==> Scheduled(db, y, r);
      assert z != x ==> Scheduled(db, z, r);
    }
  }

  /** The paged, non-atomic scan: pages already seen stay terminal, and a short last page
      means the whole listing was seen. */
  lemma ScanKeeps(db: Db, x: int, seen: nat)
    requires DbOk(db) && OpOk(db, Scanning(x, seen))
    ensures OpOk(db, Scanned(db, x, seen))
  {
    var order, page := db.listing[x], Page(db, x, seen);
    if AllTerminal(db, page) {
      var to := seen + |page|;
      assert order[seen..to] == page;
      forall i | 0 <= i < to ensures IsTerminal(db, order[..to][i]) {
        if i < seen {
          assert IsTerminal(db, order[..seen][i]);
        } else {
          assert IsTerminal(db, page[i - seen]);
        }
      }
      if |page| != PAGE {
        assert order[..to] == order;
      }
    }
  }

  lemma DecidedKeeps(db: Db, op: Op, valid: bool)
    requires DbOk(db) && op.HasBoth? && OpOk(db, op)
    ensures DbOk(Decided(db, op, valid).0) && Onward(db, Decided(db, op, valid).0)
    ensures OpOk(Decided(db, op, valid).0, Decided(db, op, valid).1)
  {
    Same(db);
    match op.call
    case Start(r) => SwapRunKeeps(db, r, Pending, Running);
    case Finish(r, status) => FinishDecided(db, op, valid);
    case Cancel(r) => CancelDecided(db, op, valid);
  }

  lemma FinishDecided(db: Db, op: Op, valid: bool)
    requires DbOk(db) && op.HasBoth? && op.call.Finish? && OpOk(db, op) && Onward(db, db)
    ensures DbOk(Decided(db, op, valid).0) && Onward(db, Decided(db, op, valid).0)
    ensures OpOk(Decided(db, op, valid).0, Decided(db, op, valid).1)
  {
    var r, status := op.call.run, op.call.status;
    if op.row.started && (status == Completed ==> CompleteLinks(op.row.links) && op.row.metrics.Some?) {
      SwapRunKeeps(db, r, Running, status);
      AfterRunOk(db, SwapRun(db, r, Running, status), op);
      AfterRunOk(db, db, op);
    }
  }

  lemma CancelDecided(db: Db, op: Op, valid: bool)
    requires DbOk(db) && op.HasBoth? && op.call.Cancel? && OpOk(db, op) && Onward(db, db)
    ensures DbOk(Decided(db, op, valid).0) && Onward(db, Decided(db, op, valid).0)
    ensures OpOk(Decided(db, op, valid).0, Decided(db, op, valid).1)
  {
    var r := op.call.run;
    if op.row.status == Cancelled {
      AfterRunOk(db, db, op);
    } else if !op.row.status.Terminal() && Swaps(db, r, op.row.status, Cancelled) {
      SwapRunKeeps(db, r, op.row.status, Cancelled);
      AfterRunOk(db, SwapRun(db, r, op.row.status, Cancelled), op);
    }
  }

  lemma AfterRunOk(db: Db, db': Db, op: Op)
    requires op.HasBoth? && OpOk(db, op) && Onward(db, db')
    ensures OpOk(db', AfterRun(op))
  {
    if op.active {
      PopulatedStays(db, db', op.row.experiment);
    }
  }

  lemma SeedStep(s: System, e: Event)
    requires Inv(s) && Enabled(s, e) && e.RunSeeded?
    ensures Inv(Next(s, e)) && Onward(s.db, Next(s, e).db)
  {
    var op := At(s, e.op);
    var r := s.db.experiments[op.experiment].schedule[op.next];
    assert Scheduled(s.db, op.experiment, r);
    CreateRunKeeps(s.db, op.experiment, r, e.position);
    var db := CreateRun(s.db, op.experiment, r, e.position);
    OpStays(s.db, db, op);
    PlaceKeeps(s, db, e.op, op.(next := op.next + 1));
  }

  lemma SeedFinishedStep(s: System, e: Event)
    requires Inv(s) && Enabled(s, e) && e.SeedFinished?
    ensures Inv(Next(s, e)) && Onward(s.db, Next(s, e).db)
  {
    var op := At(s, e.op);
    assert ExperimentOk(s.db, op.experiment);
    Same(s.db);
    if op.draft {
      SwapExperimentKeeps(s.db, op.experiment, Draft, Active);
      PlaceKeeps(s, SwapExperiment(s.db, op.experiment, Draft, Active), e.op, Idle);
    } else {
      PlaceKeeps(s, s.db, e.op, Idle);
    }
  }

  lemma WriteStep(s: System, e: Event)
    requires Inv(s) && Enabled(s, e)
    requires e.RunDecided? || e.ExperimentDecided? || e.MetricsStored? || e.LinksUpdated? || e.ExperimentCreated?
    ensures Inv(Next(s, e)) && Onward(s.db, Next(s, e).db)
  {
    match e
    case RunDecided(w, valid) =>
      DecidedKeeps(s.db, At(s, w), valid);
      var (db, op) := Decided(s.db, At(s, w), valid);
      PlaceKeeps(s, db, w, op);
    case ExperimentDecided(w) =>
      var x := At(s, w).experiment;
      SwapExperimentKeeps(s.db, x, Active, Complete);
      PlaceKeeps(s, SwapExperiment(s.db, x, Active, Complete), w, Idle);
    case MetricsStored(w) =>
      var op := At(s, w);
      StoreMetricsKeeps(s.db, op.run, op.metrics);
      PlaceKeeps(s, StoreMetrics(s.db, op.run, "", op.metrics), w, Idle);
    case LinksUpdated(r, links) =>
      ExtendLinksKeeps(s.db, r, links);
      OthersKeep(s, ExtendLinks(s.db, r, links));
    case ExperimentCreated(x, schedule) =>
      CreateExperimentKeeps(s.db, x, schedule);
      OthersKeep(s, s.db.(experiments := s.db.experiments[x := Experiment(Draft, schedule)],
                          listing := s.db.listing[x := []]));
  }

  lemma OthersKeep(s: System, db: Db)
    requires Inv(s) && DbOk(db) && Onward(s.db, db)
    ensures Inv(s.(db := db))
  {
    forall v | v in s.ops ensures OpOk(db, s.ops[v]) {
      OpStays(s.db, db, s.ops[v]);
    }
  }

  lemma ReadStep(s: System, e: Event)
    requires Inv(s) && Enabled(s, e)
    requires e.SeedBegun? || e.CallBegun? || e.ExperimentRead? || e.PageScanned? || e.MetricsProjected? || e.CallLost?
    ensures Inv(Next(s, e)) && Onward(s.db, Next(s, e).db)
  {
    Same(s.db);
    match e
    case SeedBegun(w, x) => PlaceKeeps(s, s.db, w, Seeding(x, s.db.experiments[x].status == Draft, 0));
    case CallBegun(w, call) => PlaceKeeps(s, s.db, w, HasRun(call, s.db.runs[call.run]));
    case ExperimentRead(w) =>
      var op := At(s, w);
      assert ExperimentOk(s.db, op.row.experiment);
      PlaceKeeps(s, s.db, w, HasBoth(op.call, op.row, s.db.experiments[op.row.experiment].status == Active));
    case PageScanned(w) =>
      ScanKeeps(s.db, At(s, w).experiment, At(s, w).seen);
      PlaceKeeps(s, s.db, w, Scanned(s.db, At(s, w).experiment, At(s, w).seen));
    case MetricsProjected(w, r, m) => PlaceKeeps(s, s.db, w, Projected(r, m));
    case CallLost(w) => PlaceKeeps(s, s.db, w, Idle);
  }

  lemma StepKeeps(s: System, e: Event)
    requires Inv(s) && Enabled(s, e)
    ensures Inv(Next(s, e)) && Onward(s.db, Next(s, e).db)
  {
    match e
    case RunSeeded(_, _) => SeedStep(s, e);
    case SeedFinished(_) => SeedFinishedStep(s, e);
    case RunDecided(_, _) => WriteStep(s, e);
    case ExperimentDecided(_) => WriteStep(s, e);
    case MetricsStored(_) => WriteStep(s, e);
    case LinksUpdated(_, _) => WriteStep(s, e);
    case ExperimentCreated(_, _) => WriteStep(s, e);
    case _ => ReadStep(s, e);
  }

  // --- Whole runs -----------------------------------------------------------------------

  ghost predicate Behavior(states: seq<System>, events: seq<Event>) {
    && |states| == |events| + 1 && states[0] == INITIAL
    && forall k :: 0 <= k < |events| ==> Enabled(states[k], events[k]) && states[k + 1] == Next(states[k], events[k])
  }

  lemma {:induction false} Reachable(states: seq<System>, events: seq<Event>, k: nat)
    requires Behavior(states, events) && k < |states|
    ensures Inv(states[k])
  {
    if k > 0 {
      Reachable(states, events, k - 1);
      StepKeeps(states[k - 1], events[k - 1]);
    }
  }

  /** In every interleaving of service calls a completed run has all five links and its
      metrics, although the check and the status change are separate transactions. */
  lemma CompletedRunsComplete(states: seq<System>, events: seq<Event>, k: nat, r: int)
    requires Behavior(states, events) && k < |states| && r in states[k].db.runs
    ensures var row := states[k].db.runs[r];
            row.status == Completed ==>
              && row.links.agentRun.Some? && row.links.generation.Some? && row.links.batch.Some?
              && row.links.execution.Some? && row.links.dsl.Some? && row.metrics.Some?
  {
    Reachable(states, events, k);
    assert RunOk(states[k].db.runs[r]);
  }

  /** A completed experiment has exactly its scheduled runs, each listed once, all of them
      terminal, although the scan that completed it read them page by page. */
  lemma CompletedExperimentsComplete(states: seq<System>, events: seq<Event>, k: nat, x: int)
    requires Behavior(states, events) && k < |states| && x in states[k].db.experiments
    requires states[k].db.experiments[x].status == Complete
    ensures var db := states[k].db;
            && x in db.listing && |db.listing[x]| == |db.experiments[x].schedule|
            && (forall i, j :: 0 <= i < j < |db.listing[x]| ==> db.listing[x][i] != db.listing[x][j])
            && (forall r :: (r in db.runs && db.runs[r].experiment == x) <==> r in db.listing[x])
            && (forall r :: r in db.listing[x] ==>
                  && r in db.experiments[x].schedule && r in db.runs
                  && db.runs[r].status in {Completed, Failed, Cancelled})
  {
    Reachable(states, events, k);
    var db := states[k].db;
    assert ExperimentOk(db, x);
    forall r | r in db.listing[x]
      ensures r in db.runs && db.runs[r].experiment == x && r in db.experiments[x].schedule && IsTerminal(db, r)
    {
      var i :| 0 <= i < |db.listing[x]| && db.listing[x][i] == r;
      assert InListing(db, x, db.listing[x][i]) && IsTerminal(db, db.listing[x][i]);
    }
  }

  lemma {:induction false} NothingLost(states: seq<System>, events: seq<Event>, i: nat, k: nat)
    requires Behavior(states, events) && i <= k < |states|
    ensures forall r :: r in states[i].db.runs ==> RunStays(states[i].db, states[k].db, r)
    ensures forall x :: x in states[i].db.experiments && states[i].db.experiments[x].status == Complete ==>
              ExperimentStays(states[i].db, states[k].db, x)
    decreases k
  {
    if i < k {
      NothingLost(states, events, i, k - 1);
      Reachable(states, events, k - 1);
      StepKeeps(states[k - 1], events[k - 1]);
      var a, b, c := states[i].db, states[k - 1].db, states[k].db;
      forall r | r in a.runs ensures RunStays(a, c, r) {
        assert RunStays(a, b, r) && RunStays(b, c, r);
        RunOnwardTwice(a.runs[r], b.runs[r], c.runs[r]);
      }
      forall x | x in a.experiments && a.experiments[x].status == Complete ensures ExperimentStays(a, c, x) {
        assert ExperimentStays(a, b, x) && ExperimentStays(b, c, x);
      }
    }
  }

  /** Between any two states of any interleaving: no run disappears or changes its
      experiment, a link that is set keeps its value, metrics are written once, and the
      status of a terminal run or a completed experiment is final. */
  lemma NothingUndone(states: seq<System>, events: seq<Event>, i: nat, k: nat, r: int)
    requires Behavior(states, events) && i <= k < |states| && r in states[i].db.runs
    ensures r in states[k].db.runs
    ensures var was, now := states[i].db.runs[r], states[k].db.runs[r];
            && now.experiment == was.experiment && (was.started ==> now.started)
            && (was.links.agentRun.Some? ==> now.links.agentRun == was.links.agentRun)
            && (was.links.generation.Some? ==> now.links.generation == was.links.generation)
            && (was.links.batch.Some? ==> now.links.batch == was.links.batch)
            && (was.links.execution.Some? ==> now.links.execution == was.links.execution)
            && (was.links.dsl.Some? ==> now.links.dsl == was.links.dsl)
            && (was.metrics.Some? ==> now.metrics == was.metrics)
            && (was.status in {Completed, Failed, Cancelled} ==> now.status == was.status)
    ensures forall x :: x in states[i].db.experiments && states[i].db.experiments[x].status == Complete ==>
              x in states[k].db.experiments && states[k].db.experiments[x] == states[i].db.experiments[x]
  {
    NothingLost(states, events, i, k);
    assert RunStays(states[i].db, states[k].db, r);
    forall x | x in states[i].db.experiments && states[i].db.experiments[x].status == Complete
      ensures x in states[k].db.experiments && states[k].db.experiments[x] == states[i].db.experiments[x]
    {
      assert ExperimentStays(states[i].db, states[k].db, x);
    }
  }

  // --- Who changes a run --------------------------------------------------------------

  /** The status a call may give a run, given what it read of it. */
  ghost predicate MaySettle(op: Op, r: int, was: RunStatus, now: RunStatus, valid: bool) {
    && op.HasBoth? && op.call.run == r
    && match op.call
       case Start(_) => was == Pending && now == Running && op.row.status == Pending && op.active
       case Finish(_, status) =>
         && was == Running && now == status && op.row.status == Running && op.row.started
         && (status == Completed ==>
               && op.row.links.agentRun.Some? && op.row.links.generation.Some? && op.row.links.batch.Some?
               && op.row.links.execution.Some? && op.row.links.dsl.Some? && op.row.metrics.Some? && valid)
       case Cancel(_) => was == op.row.status && was in {Pending, Running} && now == Cancelled
  }

  /** A run's status changes only when a call decides, and then as that call may settle it:
      started from pending in an active experiment, finished from running with complete
      links, metrics and valid provenance when it is to be completed, or cancelled while
      nothing had settled it. */
  lemma StatusChanges(s: System, e: Event, r: int)
    requires Enabled(s, e) && r in s.db.runs
    ensures r in Next(s, e).db.runs
    ensures Next(s, e).db.runs[r].status != s.db.runs[r].status ==>
              && e.RunDecided?
              && MaySettle(At(s, e.op), r, s.db.runs[r].status, Next(s, e).db.runs[r].status, e.valid)
  {
    match e
    case RunDecided(w, valid) => DecidedSettles(s.db, At(s, w), valid, r);
    case RunSeeded(w, position) =>
      var op := At(s, w);
      var created := s.db.experiments[op.experiment].schedule[op.next];
      assert CreateRun(s.db, op.experiment, created, position).runs[r] == s.db.runs[r];
    case _ =>
  }

  lemma DecidedSettles(db: Db, op: Op, valid: bool, r: int)
    requires op.HasBoth? && r in db.runs
    ensures r in Decided(db, op, valid).0.runs
    ensures Decided(db, op, valid).0.runs[r].status != db.runs[r].status ==>
              MaySettle(op, r, db.runs[r].status, Decided(db, op, valid).0.runs[r].status, valid)
  {
  }

  /** Conversely the call that finds the run as it read it does settle it. */
  lemma DecidedTakesEffect(db: Db, op: Op, valid: bool, to: RunStatus)
    requires op.HasBoth? && op.call.run in db.runs && db.runs[op.call.run].status != to
    requires MaySettle(op, op.call.run, db.runs[op.call.run].status, to, valid)
    requires op.call.Finish? ==> to in {Completed, Failed}
    ensures Decided(db, op, valid).0.runs == db.runs[op.call.run := Decided(db, op, valid).0.runs[op.call.run]]
    ensures Decided(db, op, valid).0.runs[op.call.run].status == to
  {
  }
}
