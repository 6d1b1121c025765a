/** Which batches a transition log accepts and what they leave, which rows make a projection
    state, and when a replacement goes through: each in closed form, read off the rows. */
module ResearchLogMeaning {
  import opened Wrappers
  import opened ResearchLog

  // --- Appending ------------------------------------------------------------------------

  /** The ordinals of the batch follow each other. */
  predicate Consecutive(batch: seq<Transition>) {
    forall i :: 0 <= i < |batch| ==> batch[i].ordinal == batch[0].ordinal + i
  }

  lemma {:induction false} ConsecutiveAt(batch: seq<Transition>, i: nat)
    requires Contiguous(batch) && i < |batch|
    ensures batch[i].ordinal == batch[0].ordinal + i
  {
    if i > 0 {
      ConsecutiveAt(batch, i - 1);
    }
  }

  lemma ConsecutiveIff(batch: seq<Transition>)
    ensures Contiguous(batch) <==> Consecutive(batch)
  {
    if Contiguous(batch) {
      forall i | 0 <= i < |batch| ensures batch[i].ordinal == batch[0].ordinal + i {
        ConsecutiveAt(batch, i);
      }
    }
  }

  /** Transition `i` repeats the row at its ordinal; beyond the log its key is new. */
  predicate Fits(log: Log, batch: seq<Transition>, i: int)
    requires 0 <= i < |batch|
  {
    var t := batch[i];
    if t.ordinal < |log| then 0 <= t.ordinal && log[t.ordinal].key == t.key && log[t.ordinal].content == t.content
    else
      && (forall k :: 0 <= k < |log| ==> log[k].key != t.key)
      && (forall j :: 0 <= j < i ==> batch[j].key != t.key)
  }

  /** The batch starts in the log or right behind it, and every transition fits. */
  predicate Accepts(log: Log, batch: seq<Transition>) {
    batch != [] ==> 0 <= batch[0].ordinal <= |log| && forall i :: 0 <= i < |batch| ==> Fits(log, batch, i)
  }

  /** The row a transition is answered with: the stored one, or itself. */
  function Row(log: Log, t: Transition): Transition {
    if 0 <= t.ordinal < |log| then log[t.ordinal] else t
  }

  /** The transitions behind the log. */
  function Fresh(log: Log, batch: seq<Transition>): (r: seq<Transition>)
    requires batch != [] ==> 0 <= batch[0].ordinal <= |log|
  {
    if batch == [] || |batch| <= |log| - batch[0].ordinal then [] else batch[|log| - batch[0].ordinal..]
  }

  /** Within the log only the very row is accepted. */
  lemma AppendInside(log: Log, t: Transition)
    requires Dense(log) && t.ordinal < |log|
    ensures AppendOne(log, t).Some? <==> 0 <= t.ordinal && log[t.ordinal].key == t.key && log[t.ordinal].content == t.content
    ensures AppendOne(log, t).Some? ==> AppendOne(log, t) == Some((log, log[t.ordinal]))
  {
    if 0 <= t.ordinal && log[t.ordinal].key == t.key {
      IndexUnique(log, t.ordinal);
    }
  }

  /** Behind the log only the next ordinal under a new key is. */
  lemma AppendBehind(log: Log, t: Transition)
    requires Dense(log) && t.ordinal >= |log|
    ensures AppendOne(log, t).Some? <==> t.ordinal == |log| && forall k :: 0 <= k < |log| ==> log[k].key != t.key
    ensures AppendOne(log, t).Some? ==> AppendOne(log, t) == Some((log + [t], t))
  {
  }

  lemma NewKey(log: Log, batch: seq<Transition>, n: nat)
    requires n < |batch| && Consecutive(batch) && 0 <= batch[0].ordinal <= |log| <= batch[n].ordinal
    requires forall i :: 0 <= i < n ==> Fits(log, batch, i)
    ensures var cur := log + Fresh(log, batch[..n]);
            && |cur| == batch[n].ordinal
            && (Fits(log, batch, n) <==> forall k :: 0 <= k < |cur| ==> cur[k].key != batch[n].key)
            && Fresh(log, batch[..n]) + [batch[n]] == Fresh(log, batch[..n + 1])
  {
    var added := Fresh(log, batch[..n]);
    var cur, from := log + added, |log| - batch[0].ordinal;
    assert added == batch[from..n];
    if Fits(log, batch, n) {
      forall k | 0 <= k < |cur| ensures cur[k].key != batch[n].key {
        if k >= |log| {
          assert cur[k] == batch[from + k - |log|];
        }
      }
    }
    if forall k :: 0 <= k < |cur| ==> cur[k].key != batch[n].key {
      forall k | 0 <= k < |log| ensures log[k].key != batch[n].key {
        assert cur[k] == log[k];
      }
      forall j | 0 <= j < n ensures batch[j].key != batch[n].key {
        if j < from {
          assert Fits(log, batch, j) && cur[batch[j].ordinal] == log[batch[j].ordinal];
        } else {
          assert cur[|log| + j - from] == batch[j];
        }
      }
    }
  }

  function Rows(log: Log, batch: seq<Transition>): seq<Transition> {
    seq(|batch|, i requires 0 <= i < |batch| => Row(log, batch[i]))
  }

  lemma NextAccepted(log: Log, batch: seq<Transition>, n: nat)
    requires Dense(log) && n < |batch| && Consecutive(batch) && 0 <= batch[0].ordinal <= |log|
    requires forall i :: 0 <= i < n ==> Fits(log, batch, i)
    requires Dense(log + Fresh(log, batch[..n]))
    ensures var next := AppendOne(log + Fresh(log, batch[..n]), batch[n]);
            && (next.Some? <==> Fits(log, batch, n))
            && (next.Some? ==> next == Some((log + Fresh(log, batch[..n + 1]), Row(log, batch[n]))))
  {
    var cur := log + Fresh(log, batch[..n]);
    if batch[n].ordinal < |log| {
      assert cur == log && Fresh(log, batch[..n + 1]) == [];
      AppendInside(log, batch[n]);
    } else {
      NewKey(log, batch, n);
      AppendBehind(cur, batch[n]);
      assert cur + [batch[n]] == log + Fresh(log, batch[..n + 1]);
    }
  }

  lemma {:induction false} PrefixAccepted(log: Log, batch: seq<Transition>, n: nat)
    requires Dense(log) && n <= |batch| && Consecutive(batch) && 0 < |batch| && 0 <= batch[0].ordinal <= |log|
    requires forall i :: 0 <= i < n ==> Fits(log, batch, i)
    ensures AppendAll(log, batch[..n]) == Some((log + Fresh(log, batch[..n]), Rows(log, batch[..n])))
    ensures Dense(log + Fresh(log, batch[..n]))
  {
    if n == 0 {
      assert log + [] == log && Rows(log, batch[..0]) == [];
    } else {
      assert batch[..n][..n - 1] == batch[..n - 1];
      PrefixAccepted(log, batch, n - 1);
      NextAccepted(log, batch, n - 1);
      RowsNext(log, batch, n - 1);
      AppendAllKeeps(log, batch[..n]);
    }
  }

  lemma RowsNext(log: Log, batch: seq<Transition>, n: nat)
    requires n < |batch|
    ensures Rows(log, batch[..n]) + [Row(log, batch[n])] == Rows(log, batch[..n + 1])
  {
  }

  lemma {:induction false} FirstMisfit(log: Log, batch: seq<Transition>, n: nat) returns (m: nat)
    requires n < |batch| && !Fits(log, batch, n)
    ensures m <= n && !Fits(log, batch, m) && forall i :: 0 <= i < m ==> Fits(log, batch, i)
    decreases n
  {
    m := n;
    if i: nat :| i < n && !Fits(log, batch, i) {
      m := FirstMisfit(log, batch, i);
    }
  }

  lemma MisfitRefused(log: Log, batch: seq<Transition>, n: nat)
    requires Dense(log) && n < |batch| && Consecutive(batch) && 0 <= batch[0].ordinal <= |log| && !Fits(log, batch, n)
    ensures AppendAll(log, batch).None?
  {
    var m := FirstMisfit(log, batch, n);
    PrefixAccepted(log, batch, m);
    NextAccepted(log, batch, m);
    assert batch[..m + 1][..m] == batch[..m];
    AppendFails(log, batch, m + 1);
  }

  lemma {:induction false} OutsideRefused(log: Log, batch: seq<Transition>, n: nat)
    requires Dense(log) && 0 < n <= |batch| && !(0 <= batch[0].ordinal <= |log|)
    ensures AppendAll(log, batch[..n]).None?
  {
    assert batch[..n][..n - 1] == batch[..n - 1];
    if n == 1 {
      assert AppendAll(log, batch[..0]) == Some((log, []));
    } else {
      OutsideRefused(log, batch, n - 1);
    }
  }

  /** A batch of consecutive ordinals is accepted exactly when it starts in the log or right
      behind it, repeats the rows it overlaps, and brings new keys beyond; the log grows by
      exactly the transitions beyond it, and every transition is answered with its row. */
  lemma AppendAllIff(log: Log, batch: seq<Transition>)
    requires Dense(log) && Consecutive(batch)
    ensures AppendAll(log, batch).Some? <==> Accepts(log, batch)
    ensures Accepts(log, batch) ==> AppendAll(log, batch) == Some((log + Fresh(log, batch), Rows(log, batch)))
  {
    assert batch[..|batch|] == batch;
    if batch == [] {
      assert log + [] == log && Rows(log, batch) == [];
    } else if 0 <= batch[0].ordinal <= |log| {
      if n: nat :| n < |batch| && !Fits(log, batch, n) {
        MisfitRefused(log, batch, n);
      } else {
        PrefixAccepted(log, batch, |batch|);
      }
    } else {
      OutsideRefused(log, batch, |batch|);
    }
  }

  /** A submitted batch goes through exactly when, in addition, each of its transitions is
      valid. */
  lemma SubmittedIff(lib: Lib, log: Log, batch: seq<Transition>)
    requires Dense(log)
    ensures Submittable(lib, batch) && AppendAll(log, batch).Some? <==>
              Consecutive(batch) && (forall i :: 0 <= i < |batch| ==> lib.valid(batch[i])) && Accepts(log, batch)
  {
    ConsecutiveIff(batch);
    if Consecutive(batch) {
      AppendAllIff(log, batch);
    }
  }

  // --- The projection state -----------------------------------------------------------------

  /** Every row carries a manifest with one hash that counts all rows. */
  predicate Projected(log: Log) {
    forall i :: 0 <= i < |log| ==>
      && log[i].manifest.Some? && log[0].manifest.Some?
      && log[i].manifest.value.sha == log[0].manifest.value.sha && log[0].manifest.value.count == |log|
  }

  /** The rows are numbered from 0, their manifests are sound, and all or none carry one. */
  predicate Consistent(lib: Lib, log: Log) {
    && (forall i :: 0 <= i < |log| ==> log[i].ordinal == i)
    && (forall i :: 0 <= i < |log| && log[i].manifest.Some? ==> lib.sound(log[i].manifest.value))
    && (Projected(log) || forall i :: 0 <= i < |log| ==> log[i].manifest.None?)
  }

  function FirstManifest(log: Log): Option<Manifest> { if log == [] then None else log[0].manifest }

  /** Rows make a state exactly when they are consistent; it counts them, hashes their
      ordinals, keys and contents with the manifest, and shows the manifest's cursor and
      source. */
  lemma StateMeans(lib: Lib, log: Log)
    ensures StateOf(lib, log).Some? <==> Consistent(lib, log)
    ensures StateOf(lib, log).Some? ==>
              var s, m := StateOf(lib, log).value, FirstManifest(log);
              && s.count == |log|
              && s.sha == lib.hash(m, seq(|log|, i requires 0 <= i < |log| =>
                                            Item(log[i].ordinal, log[i].key, log[i].content)))
              && s.cursor == (if m.Some? then Some(m.value.cursor) else None)
              && s.source == (if m.Some? then Some(m.value.source) else None)
  {
    assert Items(log) == seq(|log|, i requires 0 <= i < |log| => Item(log[i].ordinal, log[i].key, log[i].content));
    assert log == [] ==> Items(log) == [];
    if Consistent(lib, log) && log != [] {
      assert forall i :: 0 <= i < |log| ==> SoundAt(lib, log, i);
      assert Projected(log) ==> log[0].manifest.Some? && OneManifest(log);
    }
    if StateOf(lib, log).Some? && log != [] {
      assert forall i :: 0 <= i < |log| ==> log[i].ordinal == i;
      forall i | 0 <= i < |log| && log[i].manifest.Some? ensures lib.sound(log[i].manifest.value) {
        assert SoundAt(lib, log, i);
      }
      if !Legacy(log) {
        assert Projected(log);
      }
    }
  }

  // --- Replacing ------------------------------------------------------------------------------

  /** The run is at the manifest's versions, and its agent run has logged nothing since. */
  predicate Unmoved(run: RunSource, m: Manifest) {
    && run.schema == "research.persistence.v1" && run.projector == m.projector
    && (run.agentRun.None? || (run.agentRun == Some(m.cursor.agentRun) && run.lastEventSeq == m.cursor.eventSeq))
  }

  /** Row `i` of the replacement: the submitted one at its place, its content hashed anew. */
  predicate Rehashed(lib: Lib, t: Transition, i: int, row: Transition) {
    row == Transition(i, t.key, lib.rehash(t.(ordinal := i)), t.payload, t.manifest)
  }

  predicate Replaced(lib: Lib, manifest: Manifest, ts: seq<Transition>, next: Log) {
    && |next| == |ts| && (forall i :: 0 <= i < |ts| ==> Rehashed(lib, ts[i], i, next[i]))
    && lib.sound(manifest) && |ts| > 0 && manifest.count == |ts| && Projected(next)
    && (forall i :: 0 <= i < |ts| ==>
          && ts[i].manifest.Some? && ts[i].manifest.value.sha == manifest.sha && lib.sound(ts[i].manifest.value)
          && lib.valid(next[i]))
    && forall i, j :: 0 <= i < j < |ts| ==> ts[i].key != ts[j].key
  }

  /** A replacement goes through exactly when its source has not moved, the stored state is
      the expected one, and the new rows are valid, distinct and all of one sound manifest
      that counts them; these rows are then the log. */
  lemma ReplaceIff(lib: Lib, log: Log, expected: ProjectionState, manifest: Manifest, ts: seq<Transition>,
                   run: RunSource, next: Log)
    ensures Replace(lib, log, expected, manifest, ts, run) == Some(next) <==>
              Unmoved(run, manifest) && StateOf(lib, log) == Some(expected) && Replaced(lib, manifest, ts, next)
  {
    var rows := RenumberAll(lib, ts);
    RenumberedKeys(lib, ts);
    StateMeans(lib, rows);
    assert forall i :: 0 <= i < |ts| ==> Rehashed(lib, ts[i], i, rows[i]);
    if |next| == |ts| && forall i :: 0 <= i < |ts| ==> Rehashed(lib, ts[i], i, next[i]) {
      assert next == rows;
    }
  }
}
