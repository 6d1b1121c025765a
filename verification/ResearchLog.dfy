/** The transition log of a research run: append with idempotent replay, compare-and-swap
    replacement, and keyset paging (internal/research/postgres.go,
    projection_repository.go, exporter.go, service.go). */
module ResearchLog {
  import opened Wrappers

  datatype Cursor = Cursor(agentRun: string, eventSeq: int)

  /** The projection envelope of a payload; a legacy payload has none. */
  datatype Manifest = Manifest(sha: string, projector: string, cursor: Cursor, source: string, count: int)

  /** What ReplaceProjection locks and views of the research run and its agent run. */
  datatype RunSource = RunSource(schema: string, projector: string, agentRun: Option<string>, lastEventSeq: int)

  const SCHEMA_VERSION := "research.persistence.v1"

  datatype Transition = Transition(ordinal: int, key: string, content: string, payload: string, manifest: Option<Manifest>)

  datatype Item = Item(ordinal: int, key: string, content: string)

  datatype ProjectionState = ProjectionState(cursor: Option<Cursor>, source: Option<string>, sha: string, count: int)

  /** `valid` is NormalizeAndValidate of a transition with its payload, `sound` that of a
      manifest, `rehash` the content hash of a payload, `hash` the canonical hash of
      manifest and items. */
  datatype Lib = Lib(
    valid: Transition -> bool, sound: Manifest -> bool, rehash: Transition -> string,
    hash: (Option<Manifest>, seq<Item>) -> string)

  type Log = seq<Transition>

  /** Ordinals are exactly 0, 1, ..., and append keys are unique. */
  predicate Dense(log: Log) {
    && (forall i :: 0 <= i < |log| ==> log[i].ordinal == i)
    && (forall i, j :: 0 <= i < j < |log| ==> log[i].key != log[j].key)
  }

  predicate HasKey(log: Log, key: string) { exists i :: 0 <= i < |log| && log[i].key == key }

  function IndexOf(log: Log, key: string): nat
    requires HasKey(log, key)
    ensures IndexOf(log, key) < |log| && log[IndexOf(log, key)].key == key
  {
    if log[0].key == key then 0
    else
      assert HasKey(log[1..], key) by {
        var i :| 0 <= i < |log| && log[i].key == key;
        assert log[1..][i - 1].key == key;
      }
      1 + IndexOf(log[1..], key)
  }

  // --- AppendTransitions ------------------------------------------------------------

  predicate Contiguous(batch: seq<Transition>) {
    forall i :: 0 < i < |batch| ==> batch[i].ordinal == batch[i - 1].ordinal + 1
  }

  predicate Submittable(lib: Lib, batch: seq<Transition>) {
    Contiguous(batch) && forall i :: 0 <= i < |batch| ==> lib.valid(batch[i])
  }

  /** One transition: an accepted replay, a fresh row, or a conflict. */
  function AppendOne(log: Log, t: Transition): Option<(Log, Transition)> {
    if HasKey(log, t.key) then
      var existing := log[IndexOf(log, t.key)];
      if existing.ordinal == t.ordinal && existing.content == t.content then Some((log, existing)) else None
    else if t.ordinal == |log| then Some((log + [t], t))
    else None
  }

  function AppendAll(log: Log, batch: seq<Transition>): Option<(Log, seq<Transition>)> {
    if batch == [] then Some((log, []))
    else
      var earlier := AppendAll(log, batch[..|batch| - 1]);
      if earlier.None? then None
      else
        var next := AppendOne(earlier.value.0, batch[|batch| - 1]);
        if next.None? then None else Some((next.value.0, earlier.value.1 + [next.value.1]))
  }

  // --- The projection state ---------------------------------------------------------

  function Items(log: Log): seq<Item> {
    seq(|log|, i requires 0 <= i < |log| => Item(log[i].ordinal, log[i].key, log[i].content))
  }

  predicate Legacy(log: Log) { forall i :: 0 <= i < |log| ==> log[i].manifest.None? }

  predicate OneManifest(log: Log) {
    && log != [] && log[0].manifest.Some?
    && forall i :: 0 <= i < |log| ==> log[i].manifest.Some? && log[i].manifest.value.sha == log[0].manifest.value.sha
  }

  predicate SoundAt(lib: Lib, log: Log, i: int)
    requires 0 <= i < |log|
  {
    log[i].manifest.Some? ==> lib.sound(log[i].manifest.value)
  }

  /** projectionStateFromTransitions; None when the persisted rows are inconsistent. */
  function StateOf(lib: Lib, log: Log): Option<ProjectionState> {
    if log == [] then Some(ProjectionState(None, None, lib.hash(None, []), 0))
    else if exists i :: 0 <= i < |log| && log[i].ordinal != i then None
    else if exists i :: 0 <= i < |log| && !SoundAt(lib, log, i) then None
    else if Legacy(log) then Some(ProjectionState(None, None, lib.hash(None, Items(log)), |log|))
    else if OneManifest(log) && log[0].manifest.value.count == |log| then
      var m := log[0].manifest.value;
      Some(ProjectionState(Some(m.cursor), Some(m.source), lib.hash(Some(m), Items(log)), |log|))
    else None
  }

  method StateFromTransitions(lib: Lib, log: Log) returns (r: Option<ProjectionState>)
    ensures r == StateOf(lib, log)
  {
    if log == [] {
      return Some(ProjectionState(None, None, lib.hash(None, []), 0));
    }
    for index := 0 to |log|
      invariant forall i :: 0 <= i < index ==> log[i].ordinal == i
    {
      if log[index].ordinal != index {
        return None;
      }
    }
    var manifest: Option<Manifest> := None;
    var legacy := false;
    for index := 0 to |log|
      invariant manifest.None? <==> forall i :: 0 <= i < index ==> log[i].manifest.None?
      invariant legacy <==> exists i :: 0 <= i < index && log[i].manifest.None?
      invariant forall i :: 0 <= i < index ==> SoundAt(lib, log, i)
      invariant manifest.Some? && !legacy ==> manifest == log[0].manifest
      invariant manifest.Some? ==>
                  forall i :: 0 <= i < index && log[i].manifest.Some? ==> log[i].manifest.value.sha == manifest.value.sha
    {
      var projection := log[index].manifest;
      if projection.None? {
        legacy := true;
        continue;
      }
      if !lib.sound(projection.value) {
        assert !SoundAt(lib, log, index);
        return None;
      }
      if manifest.None? {
        manifest := projection;
      } else if manifest.value.sha != projection.value.sha {
        assert !Legacy(log) && !OneManifest(log);
        return None;
      }
    }
    if legacy && manifest.Some? {
      assert !Legacy(log) && !OneManifest(log);
      return None;
    }
    var items := Items(log);
    if manifest.None? {
      return Some(ProjectionState(None, None, lib.hash(None, items), |log|));
    }
    assert OneManifest(log) && log[0].manifest == manifest;
    if manifest.value.count != |log| {
      return None;
    }
    r := Some(ProjectionState(Some(manifest.value.cursor), Some(manifest.value.source), lib.hash(manifest, items), |log|));
  }

  /** ReplaceProjection's rewriting of its input before the transaction. */
  function Renumbered(lib: Lib, t: Transition, index: int): Transition {
    var numbered := t.(ordinal := index);
    numbered.(content := lib.rehash(numbered))
  }

  function RenumberAll(lib: Lib, ts: seq<Transition>): seq<Transition> {
    seq(|ts|, i requires 0 <= i < |ts| => Renumbered(lib, ts[i], i))
  }

  predicate Replaceable(lib: Lib, manifest: Manifest, ts: seq<Transition>) {
    && lib.sound(manifest) && ts != [] && manifest.count == |ts|
    && forall i :: 0 <= i < |ts| ==>
         ts[i].manifest.Some? && ts[i].manifest.value.sha == manifest.sha && lib.valid(Renumbered(lib, ts[i], i))
  }

  predicate UniqueKeys(ts: seq<Transition>) { forall i, j :: 0 <= i < j < |ts| ==> ts[i].key != ts[j].key }

  /** The run still has the versions the manifest was projected for, and its agent run, if
      any, has logged no event since. */
  predicate SourceCurrent(run: RunSource, m: Manifest) {
    && run.schema == SCHEMA_VERSION && run.projector == m.projector
    && (run.agentRun.Some? ==> run.agentRun.value == m.cursor.agentRun && run.lastEventSeq == m.cursor.eventSeq)
  }

  function Replace(lib: Lib, log: Log, expected: ProjectionState, manifest: Manifest, ts: seq<Transition>,
                   run: RunSource): Option<Log> {
    if !Replaceable(lib, manifest, ts) || !SourceCurrent(run, manifest) || StateOf(lib, log) != Some(expected) then None
    else
      var next := RenumberAll(lib, ts);
      if UniqueKeys(next) && StateOf(lib, next).Some? then Some(next) else None
  }

  // --- The table ----------------------------------------------------------------------

  /** The rows of one run, in ordinal order. A transaction that fails restores them. */
  class Table {
    var rows: Log

    constructor ()
      ensures rows == [] && Dense(rows)
    {
      rows := [];
    }

    method FindByAppendKey(key: string) returns (found: Option<Transition>)
      ensures found == if HasKey(rows, key) then Some(rows[IndexOf(rows, key)]) else None
    {
      if HasKey(rows, key) {
        return Some(rows[IndexOf(rows, key)]);
      }
      found := None;
    }

    /** All transitions are appended or replayed, or the log is left as it was. */
    method AppendTransitions(lib: Lib, batch: seq<Transition>) returns (r: Option<seq<Transition>>)
      requires Dense(rows)
      modifies this
      ensures r.Some? <==> batch == [] || (Submittable(lib, batch) && AppendAll(old(rows), batch).Some?)
      ensures r.Some? && batch != [] ==> Some((rows, r.value)) == AppendAll(old(rows), batch)
      ensures r.None? || batch == [] ==> rows == old(rows)
      ensures Dense(rows)
    {
      if batch == [] {
        return Some([]);
      }
      if !Submittable(lib, batch) {
        return None;
      }
      var saved := rows;
      var lastOrdinal := |rows| - 1;
      var result: seq<Transition> := [];
      for n := 0 to |batch|
        invariant Dense(rows) && lastOrdinal == |rows| - 1
        invariant AppendAll(saved, batch[..n]) == Some((rows, result))
      {
        assert batch[..n + 1][..n] == batch[..n];
        var t := batch[n];
        var existing := FindByAppendKey(t.key);
        if existing.Some? {
          if existing.value.ordinal != t.ordinal || existing.value.content != t.content {
            AppendFails(saved, batch, n + 1);
            rows := saved;
            return None;
          }
          result := result + [existing.value];
          continue;
        }
        if t.ordinal != lastOrdinal + 1 {
          AppendFails(saved, batch, n + 1);
          rows := saved;
          return None;
        }
        rows := rows + [t];
        lastOrdinal := t.ordinal;
        result := result + [t];
      }
      assert batch[..|batch|] == batch;
      r := Some(result);
    }

    /** Inserts row by row; the unique index on append keys may refuse one. */
    method Reinsert(transitions: seq<Transition>) returns (ok: bool)
      modifies this
      ensures ok <==> UniqueKeys(transitions)
      ensures ok ==> rows == transitions
    {
      rows := [];
      for n := 0 to |transitions|
        invariant rows == transitions[..n] && UniqueKeys(rows)
      {
        var clash := FindByAppendKey(transitions[n].key);
        if clash.Some? {
          assert transitions[IndexOf(rows, transitions[n].key)].key == transitions[n].key;
          return false;
        }
        rows := rows + [transitions[n]];
      }
      ok := true;
    }

    /** Deletes and reinserts the rows if the caller read the current state. */
    method ReplaceProjection(lib: Lib, expected: ProjectionState, manifest: Manifest, source: seq<Transition>,
                             run: RunSource)
      returns (r: Result<(seq<Transition>, ProjectionState), Failure>)
      requires Dense(rows)
      modifies this
      ensures r.Ok? <==> Replace(lib, old(rows), expected, manifest, source, run).Some?
      ensures r.Ok? ==> && Some(rows) == Replace(lib, old(rows), expected, manifest, source, run)
                        && r.value.0 == rows && Some(r.value.1) == StateOf(lib, rows)
      ensures r.Err? ==> rows == old(rows)
      ensures r == Err(Conflict) <==>
                && Replaceable(lib, manifest, source) && SourceCurrent(run, manifest) && StateOf(lib, old(rows)).Some?
                && (StateOf(lib, old(rows)) != Some(expected) || !UniqueKeys(source))
      ensures Dense(rows)
    {
      var transitions := Renumber(lib, manifest, source);
      if transitions.None? {
        return Err(Invalid);
      }
      if run.schema != SCHEMA_VERSION || run.projector != manifest.projector {
        return Err(Unsupported);
      }
      if run.agentRun.Some? &&
         (run.agentRun.value != manifest.cursor.agentRun || run.lastEventSeq != manifest.cursor.eventSeq) {
        return Err(SourceChanged);
      }
      var current := StateFromTransitions(lib, rows);
      if current.None? {
        return Err(SourceChanged);
      }
      if current != Some(expected) {
        return Err(Conflict);
      }
      var saved := rows;
      var ok := Reinsert(transitions.value);
      RenumberedKeys(lib, source);
      if !ok {
        rows := saved;
        return Err(Conflict);
      }
      var next := StateFromTransitions(lib, rows);
      if next.None? {
        rows := saved;
        return Err(SourceChanged);
      }
      r := Ok((rows, next.value));
    }
  }

  datatype Failure = Invalid | Unsupported | SourceChanged | Conflict

  lemma RenumberedKeys(lib: Lib, ts: seq<Transition>)
    ensures UniqueKeys(RenumberAll(lib, ts)) <==> UniqueKeys(ts)
  {
    var next := RenumberAll(lib, ts);
    assert forall i :: 0 <= i < |ts| ==> next[i].key == ts[i].key;
    if UniqueKeys(next) {
      forall i, j | 0 <= i < j < |ts| ensures ts[i].key != ts[j].key {
        assert next[i].key != next[j].key;
      }
    }
  }

  /** Every transition gets its index as ordinal and its content hash recomputed. */
  method Renumber(lib: Lib, manifest: Manifest, source: seq<Transition>) returns (r: Option<seq<Transition>>)
    ensures r.Some? <==> Replaceable(lib, manifest, source)
    ensures r.Some? ==> r.value == RenumberAll(lib, source)
  {
    if !lib.sound(manifest) || source == [] || manifest.count != |source| {
      return None;
    }
    var transitions := source;
    for index := 0 to |source|
      invariant |transitions| == |source|
      invariant forall i :: 0 <= i < index ==>
                  && source[i].manifest.Some? && source[i].manifest.value.sha == manifest.sha
                  && transitions[i] == Renumbered(lib, source[i], i) && lib.valid(transitions[i])
      invariant forall i :: index <= i < |source| ==> transitions[i] == source[i]
    {
      var t := transitions[index].(ordinal := index);
      if t.manifest.None? || t.manifest.value.sha != manifest.sha {
        return None;
      }
      t := t.(content := lib.rehash(t));
      if !lib.valid(t) {
        return None;
      }
      transitions := transitions[index := t];
    }
    assert transitions == RenumberAll(lib, source);
    r := Some(transitions);
  }

  lemma {:induction false} AppendFails(log: Log, batch: seq<Transition>, n: nat)
    requires n <= |batch| && AppendAll(log, batch[..n]).None?
    ensures AppendAll(log, batch).None?
    decreases |batch| - n
  {
    if n == |batch| {
      assert batch[..n] == batch;
    } else {
      assert batch[..n + 1][..n] == batch[..n];
      AppendFails(log, batch, n + 1);
    }
  }

  // --- What the two operations keep -------------------------------------------------

  lemma IndexUnique(log: Log, i: nat)
    requires Dense(log) && i < |log|
    ensures HasKey(log, log[i].key) && IndexOf(log, log[i].key) == i
  {
    var k := IndexOf(log, log[i].key);
  }

  lemma AppendOneKeeps(log: Log, t: Transition)
    requires Dense(log) && AppendOne(log, t).Some?
    ensures var (next, row) := AppendOne(log, t).value;
            && Dense(next) && log <= next && 0 <= t.ordinal < |next| && next[t.ordinal] == row
            && row.key == t.key && row.content == t.content && row.ordinal == t.ordinal
            && (next == log || (next == log + [t] && !HasKey(log, t.key)))
  {
    if !HasKey(log, t.key) {
      forall i | 0 <= i < |log| ensures log[i].key != t.key {
      }
    }
  }

  /** An accepted batch only extends the log, and every transition of the batch is then
      the row at its ordinal, with its key and content. */
  lemma {:induction false} AppendAllKeeps(log: Log, batch: seq<Transition>)
    requires Dense(log) && AppendAll(log, batch).Some?
    ensures var (next, result) := AppendAll(log, batch).value;
            && Dense(next) && log <= next && |result| == |batch|
            && forall i :: 0 <= i < |batch| ==>
                 && 0 <= batch[i].ordinal < |next| && next[batch[i].ordinal] == result[i]
                 && result[i].key == batch[i].key && result[i].content == batch[i].content
                 && result[i].ordinal == batch[i].ordinal
  {
    if batch != [] {
      var rest, last := batch[..|batch| - 1], batch[|batch| - 1];
      AppendAllKeeps(log, rest);
      AppendOneKeeps(AppendAll(log, rest).value.0, last);
    }
  }

  lemma {:induction false} ReplayRows(later: Log, batch: seq<Transition>, result: seq<Transition>)
    requires Dense(later) && |result| == |batch|
    requires forall i :: 0 <= i < |batch| ==>
               && 0 <= batch[i].ordinal < |later| && later[batch[i].ordinal] == result[i]
               && result[i].key == batch[i].key && result[i].content == batch[i].content
               && result[i].ordinal == batch[i].ordinal
    ensures AppendAll(later, batch) == Some((later, result))
  {
    if batch == [] {
      assert result == [];
    } else {
      var n := |batch| - 1;
      ReplayRows(later, batch[..n], result[..n]);
      IndexUnique(later, batch[n].ordinal);
      assert result[..n] + [result[n]] == result;
    }
  }

  /** Replaying an accepted batch, at once or after any further appends, returns the same
      rows and changes nothing. */
  lemma ReplayIdempotent(log: Log, batch: seq<Transition>, later: Log)
    requires Dense(log) && AppendAll(log, batch).Some? && Dense(later) && AppendAll(log, batch).value.0 <= later
    ensures AppendAll(later, batch) == Some((later, AppendAll(log, batch).value.1))
  {
    AppendAllKeeps(log, batch);
    var (next, result) := AppendAll(log, batch).value;
    ReplayRows(later, batch, result);
  }

  /** The canonical hash of two different projections differs. */
  ghost predicate Injective(lib: Lib) {
    forall m1, s1, m2, s2 :: lib.hash(m1, s1) == lib.hash(m2, s2) ==> m1 == m2 && s1 == s2
  }

  /** A replacement succeeds only against the exact state its caller read: same ordinals,
      keys and contents, and so no append or replacement happened in between that changed
      any of them. */
  lemma ReplaceIsExact(lib: Lib, read: Log, log: Log, expected: ProjectionState, manifest: Manifest,
                       ts: seq<Transition>, run: RunSource)
    requires Injective(lib) && StateOf(lib, read) == Some(expected)
    requires Replace(lib, log, expected, manifest, ts, run).Some?
    ensures Items(log) == Items(read)
    ensures var next := Replace(lib, log, expected, manifest, ts, run).value;
            && Dense(next) && |next| == |ts| && StateOf(lib, next).Some?
            && forall i :: 0 <= i < |ts| ==> next[i].key == ts[i].key && next[i].payload == ts[i].payload
  {
    assert |log| == |read|;
    if log == [] {
      assert read == [];
    }
  }

  /** Conversely an unchanged log accepts it, so the swap fails only on a real change, a
      moved source or unusable input. */
  lemma ReplaceSucceeds(lib: Lib, log: Log, manifest: Manifest, ts: seq<Transition>, run: RunSource)
    requires StateOf(lib, log).Some? && Replaceable(lib, manifest, ts) && UniqueKeys(ts)
    requires forall i :: 0 <= i < |ts| ==> ts[i].manifest == Some(manifest)
    ensures Replace(lib, log, StateOf(lib, log).value, manifest, ts, run)
         == if SourceCurrent(run, manifest) then Some(RenumberAll(lib, ts)) else None
  {
    var next := RenumberAll(lib, ts);
    assert forall i :: 0 <= i < |next| ==> next[i].manifest == Some(manifest) && next[i].ordinal == i;
    assert OneManifest(next) && !Legacy(next) by {
      assert next[0].manifest == Some(manifest);
    }
  }

  datatype Event =
    | Appended(batch: seq<Transition>)
    | Replaced(expected: ProjectionState, manifest: Manifest, transitions: seq<Transition>, run: RunSource)

  function Next(lib: Lib, log: Log, e: Event): Log {
    match e
    case Appended(batch) =>
      if Submittable(lib, batch) && AppendAll(log, batch).Some? then AppendAll(log, batch).value.0 else log
    case Replaced(expected, manifest, ts, run) =>
      var r := Replace(lib, log, expected, manifest, ts, run);
      if r.Some? then r.value else log
  }

  function LogAfter(lib: Lib, events: seq<Event>): Log {
    if events == [] then [] else Next(lib, LogAfter(lib, events[..|events| - 1]), events[|events| - 1])
  }

  /** Under any interleaving of appends and replacements the ordinals are exactly
      0, ..., n-1 and the keys unique; an append alone only extends the log. */
  lemma {:induction false} AlwaysDense(lib: Lib, events: seq<Event>)
    ensures Dense(LogAfter(lib, events))
    ensures events != [] && events[|events| - 1].Appended? ==>
              LogAfter(lib, events[..|events| - 1]) <= LogAfter(lib, events)
  {
    if events != [] {
      var log, e := LogAfter(lib, events[..|events| - 1]), events[|events| - 1];
      AlwaysDense(lib, events[..|events| - 1]);
      if e.Appended? && AppendAll(log, e.batch).Some? {
        AppendAllKeeps(log, e.batch);
      }
    }
  }

  // --- Paging -------------------------------------------------------------------------

  function Limit(requested: int): (r: nat)
    ensures 1 <= r <= 500
  {
    if requested <= 0 || requested > 500 then 100 else requested
  }

  /** ListTransitions: the rows after an ordinal, at most `limit` of them. */
  function Rest(log: Log, after: Option<int>): Log {
    if log == [] then []
    else if after.None? || log[0].ordinal > after.value then log
    else Rest(log[1..], after)
  }

  function ListTransitions(log: Log, after: Option<int>, limit: int): Log {
    var rest := Rest(log, after);
    if |rest| <= Limit(limit) then rest else rest[..Limit(limit)]
  }

  /** Rows `k` and later are those after the ordinal. */
  lemma {:induction false} RestFrom(log: Log, after: int) returns (k: nat)
    requires forall i, j :: 0 <= i < j < |log| ==> log[i].ordinal < log[j].ordinal
    ensures k <= |log| && Rest(log, Some(after)) == log[k..]
    ensures k > 0 ==> log[k - 1].ordinal <= after
    ensures k < |log| ==> log[k].ordinal > after
  {
    if log == [] || log[0].ordinal > after {
      k := 0;
    } else {
      k := RestFrom(log[1..], after);
      assert log[1..][k..] == log[k + 1..];
      k := k + 1;
    }
  }

  /** On a dense log a page is the next rows in order. */
  lemma PageAt(log: Log, from: nat, limit: int)
    requires Dense(log) && from <= |log|
    ensures var page := ListTransitions(log, if from == 0 then None else Some(from - 1), limit);
            page == if |log| - from <= Limit(limit) then log[from..] else log[from..from + Limit(limit)]
  {
    if from == 0 {
      assert log[0..] == log;
    } else {
      var k := RestFrom(log, from - 1);
      assert k == from;
    }
  }

  /** The inner loop of exportRun: one line per transition, each with the expected ordinal. */
  method WritePage(lines: Log, page: Log, expectedOrdinal: int) returns (written: Log, ok: bool)
    ensures ok <==> forall n :: 0 <= n < |page| ==> page[n].ordinal == expectedOrdinal + n
    ensures ok ==> written == lines + page
  {
    written := lines;
    for n := 0 to |page|
      invariant written == lines + page[..n]
      invariant forall i :: 0 <= i < n ==> page[i].ordinal == expectedOrdinal + i
    {
      if page[n].ordinal != expectedOrdinal + n {
        return written, false;
      }
      written := written + [page[n]];
    }
    ok := true;
  }

  /** exportRun: writes page after page and checks the ordinals. With a page size the
      repository honours it writes the whole log once, in order; with a larger one the
      repository falls back to 100 rows and the export stops after the first page. The
      field is not exported and the constructor always sets it to 100, so only code of the
      package itself can reach the failing side. */
  method ExportRun(log: Log, pageSize: int) returns (r: Option<Log>)
    requires Dense(log)
    ensures r.None? <==> log == []
    ensures r == Some(log) <==> log != [] && (pageSize <= 500 || |log| <= 100)
  {
    var lines: Log := [];
    var after: Option<int> := None;
    var expectedOrdinal := 0;
    while true
      invariant 0 <= expectedOrdinal <= |log| && lines == log[..expectedOrdinal]
      invariant after == if expectedOrdinal == 0 then None else Some(expectedOrdinal - 1)
      invariant pageSize > 500 ==> expectedOrdinal == 0
      decreases |log| - expectedOrdinal
    {
      PageAt(log, expectedOrdinal, pageSize);
      var page := ListTransitions(log, after, pageSize);
      if |page| == 0 {
        assert expectedOrdinal == |log|;
        break;
      }
      var ok: bool;
      lines, ok := WritePage(lines, page, expectedOrdinal);
      assert ok;
      expectedOrdinal := expectedOrdinal + |page|;
      after := Some(page[|page| - 1].ordinal);
      if |page| < pageSize {
        assert expectedOrdinal == |log| <==> pageSize <= 500 || |log| <= 100;
        break;
      }
    }
    assert lines == log <==> expectedOrdinal == |log|;
    if expectedOrdinal == 0 {
      return None;
    }
    r := Some(lines);
  }

  /** A read in pages of 500, while others write: page `n` finds the log `views(n)`. Pages
      0, ..., last - 1 were full, the last was short, and every row is the one its own page
      found. */
  ghost predicate Loaded(views: nat -> Log, result: Log, last: nat) {
    && 500 * last <= |result| < 500 * (last + 1)
    && (|views(last)| <= 500 * last ==> |result| == 500 * last)
    && (|views(last)| > 500 * last ==> |result| == |views(last)|)
    && forall i :: 0 <= i < |result| ==> FoundAt(views, result, i)
  }

  ghost predicate FoundAt(views: nat -> Log, result: Log, i: nat)
    requires i < |result|
  {
    i < |views(i / 500)| && result[i] == views(i / 500)[i]
  }

  /** Every page read meets a dense log of at most `bound` rows. */
  ghost predicate Readable(views: nat -> Log, bound: nat) {
    forall n: nat :: Dense(views(n)) && |views(n)| <= bound
  }

  lemma PageAfter(log: Log, from: nat)
    requires Dense(log)
    ensures ListTransitions(log, if from == 0 then None else Some(from - 1), 500)
         == if |log| <= from then [] else if |log| - from <= 500 then log[from..] else log[from..from + 500]
  {
    if from <= |log| {
      PageAt(log, from, 500);
    } else {
      var k := RestFrom(log, from - 1);
      assert k == |log|;
    }
  }

  /** The read loop of loadOrRebuildTransitions, whoever writes between its pages. */
  method LoadTransitions(views: nat -> Log, ghost bound: nat) returns (result: Log, last: nat)
    requires Readable(views, bound)
    ensures Loaded(views, result, last)
  {
    result := [];
    last := 0;
    var after: Option<int> := None;
    while true
      invariant |result| == 500 * last
      invariant after == if |result| == 0 then None else Some(|result| - 1)
      invariant forall i :: 0 <= i < |result| ==> FoundAt(views, result, i)
      invariant last > 0 ==> 500 * last <= bound
      decreases bound + 1 - 500 * last
    {
      PageAfter(views(last), |result|);
      assert |views(last)| <= bound;
      var page := ListTransitions(views(last), after, 500);
      ghost var before := result;
      result := result + page;
      forall i | 0 <= i < |result| ensures FoundAt(views, result, i) {
        if i < |before| {
          assert FoundAt(views, before, i);
        } else {
          assert i / 500 == last;
        }
      }
      if |page| < 500 {
        break;
      }
      after := Some(page[|page| - 1].ordinal);
      last := last + 1;
    }
  }

  /** Rows before the last page are what the last page's log has there. */
  ghost predicate Untorn(views: nat -> Log, result: Log, last: nat)
    requires |result| >= 500 * last
  {
    500 * last <= |views(last)| && result[..500 * last] == views(last)[..500 * last]
  }

  /** What was read is the log as the last page found it exactly when no earlier row was
      replaced or removed meanwhile. */
  lemma LoadedIff(views: nat -> Log, result: Log, last: nat)
    requires Loaded(views, result, last)
    ensures result == views(last) <==> Untorn(views, result, last)
  {
    var log := views(last);
    if Untorn(views, result, last) {
      assert |result| == |log|;
      forall i | 0 <= i < |result| ensures result[i] == log[i] {
        if i < 500 * last {
          assert result[..500 * last][i] == log[..500 * last][i];
        } else {
          assert i / 500 == last && FoundAt(views, result, i);
        }
      }
    }
  }

  /** With nothing but appends between the pages, the read is never torn: it returns
      exactly the log as its last page found it, also at a multiple of the page size. */
  lemma AppendsNeverTear(views: nat -> Log, result: Log, last: nat)
    requires Loaded(views, result, last)
    requires forall m: nat, n: nat :: m <= n ==> views(m) <= views(n)
    ensures result == views(last)
  {
    if last > 0 {
      var i := 500 * last - 1;
      assert FoundAt(views, result, i) && i / 500 == last - 1;
      assert views(last - 1) <= views(last);
    }
    forall i | 0 <= i < 500 * last ensures result[i] == views(last)[i] {
      assert FoundAt(views, result, i) && views(i / 500) <= views(last);
    }
    LoadedIff(views, result, last);
  }

  /** loadOrRebuildTransitions with the state `seen` read earlier: an empty projection is
      rebuilt, and losing that race to another writer falls back to reading what is stored,
      page by page, while others may write. */
  method LoadOrRebuild(lib: Lib, table: Table, seen: ProjectionState, manifest: Manifest, projected: seq<Transition>,
                       run: RunSource, views: nat -> Log, ghost bound: nat)
    returns (r: Result<Log, Failure>, last: nat, rebuilt: bool)
    requires Dense(table.rows) && Readable(views, bound)
    modifies table
    ensures Dense(table.rows)
    ensures rebuilt <==> seen.count == 0 && Replace(lib, old(table.rows), seen, manifest, projected, run).Some?
    ensures rebuilt ==> Some(table.rows) == Replace(lib, old(table.rows), seen, manifest, projected, run)
                        && r == Ok(table.rows)
    ensures !rebuilt ==> table.rows == old(table.rows)
    ensures r.Ok? && !rebuilt ==> Loaded(views, r.value, last)
    ensures r.Err? ==> seen.count == 0 && r != Err(Conflict)
  {
    last, rebuilt := 0, false;
    if seen.count == 0 {
      var persisted := table.ReplaceProjection(lib, seen, manifest, projected, run);
      if persisted.Ok? {
        r, rebuilt := Ok(persisted.value.0), true;
        return;
      }
      if persisted != Err(Conflict) {
        r := Err(persisted.error);
        return;
      }
    }
    var log: Log;
    log, last := LoadTransitions(views, bound);
    r := Ok(log);
  }
}
