/** Leases over whole runs: until the lease of a claim has ended, the job stays with the
    worker that claimed it, and no transaction claims or quarantines it. */
module QueueLease {
  import opened Wrappers
  import opened Recovery
  import opened Queue
  import opened QueueInvariant
  import opened QueueProtocol
  import opened QueueRuns
  import opened QueueMeaning

  /** Job `j` is leased to `w` until `until`: while the clock has not passed it, the job is
      finished or still runs under this very lease; afterwards a running job has a later one. */
  ghost predicate Held(q: State, j: int, w: Worker, until: int) {
    && j in q.jobs && q.jobs[j].status != Pending
    && (q.jobs[j].status == Running ==> q.jobs[j].lease.Some? && until <= q.jobs[j].lease.value)
    && (q.jobs[j].status == Running && q.now <= until ==>
          q.jobs[j].owner == Some(w) && q.jobs[j].lease == Some(until))
  }

  lemma QuarantineHolds(q: State, unsafe: set<int>, j: int, w: Worker, until: int)
    requires Decides(q, unsafe) && Held(q, j, w, until)
    ensures Held(Quarantine(q, unsafe), j, w, until)
    ensures j in unsafe ==> until < q.now
  {
    QuarantineMeans(q, unsafe);
  }

  lemma TakeHolds(q: State, i: int, project: Option<int>, v: Worker, leaseSeconds: int, j: int, w: Worker, until: int)
    requires Claimable(q, i, project) && Held(q, j, w, until)
    ensures Held(Claim(q, i, v, leaseSeconds), j, w, until)
    ensures i == j ==> until < q.now
  {
    ClaimableMeans(q, i, project);
    ClaimMeans(q, i, v, leaseSeconds);
  }

  lemma ClaimHolds(s: System, e: Event, j: int, w: Worker, until: int)
    requires Enabled(s, e) && e.JobClaimed? && Held(s.q, j, w, until)
    ensures Held(Next(s, e).q, j, w, until)
    ensures e.job == Some(j) || j in e.unsafe ==> until < s.q.now
  {
    QuarantineHolds(s.q, e.unsafe, j, w, until);
    QuarantineMeans(s.q, e.unsafe);
    if e.job.Some? {
      ClaimIsTake(s, e);
      TakeHolds(Quarantine(s.q, e.unsafe), e.job.value, e.project, e.worker, e.leaseSeconds, j, w, until);
    }
  }

  lemma FinishHolds(s: System, e: Event, j: int, w: Worker, until: int)
    requires Enabled(s, e) && e.JobFinished? && SystemInv(s) && Held(s.q, j, w, until)
    ensures Held(Next(s, e).q, j, w, until)
  {
    var local := QueueProtocol.At(s, e.worker);
    FinishMeans(s.q, local.job.id, local.job.batch, local.run, e.worker, local.status, local.report);
  }

  lemma EventHolds(s: System, e: Event, j: int, w: Worker, until: int)
    requires SystemInv(s) && Enabled(s, e) && Held(s.q, j, w, until)
    ensures Held(Next(s, e).q, j, w, until)
  {
    match e
    case JobClaimed(_, _, _, _, _, _) => ClaimHolds(s, e, j, w, until);
    case JobFinished(_) => FinishHolds(s, e, j, w, until);
    case BatchCancelled(b) => CancelMeans(s.q, b);
    case BatchRequested(request) =>
      CreateKeeps(s.q, request);
      assert Create(s.q, request).jobs[j] == s.q.jobs[j];
    case _ =>
  }

  /** The state right after a claim holds the lease it asked for, from the clock on. */
  lemma ClaimGrants(s: System, e: Event, j: int)
    requires Enabled(s, e) && e.JobClaimed? && e.job == Some(j)
    ensures Held(Next(s, e).q, j, e.worker, s.q.now + if e.leaseSeconds < 1 then 1800 else e.leaseSeconds)
  {
    ClaimIsTake(s, e);
    TakeGrants(Quarantine(s.q, e.unsafe), j, e.worker, e.leaseSeconds);
  }

  lemma TakeGrants(q: State, j: int, w: Worker, leaseSeconds: int)
    requires j in q.jobs && q.jobs[j].batch in q.batches
    ensures Held(Claim(q, j, w, leaseSeconds), j, w, q.now + if leaseSeconds < 1 then 1800 else leaseSeconds)
  {
    ClaimMeans(q, j, w, leaseSeconds);
  }

  /** The clock value until which event `e`, at state `s`, leases the job it claims. */
  function LeaseEnd(s: System, e: Event): int
    requires e.JobClaimed?
  {
    s.q.now + if e.leaseSeconds < 1 then 1800 else e.leaseSeconds
  }

  lemma NextHeld(states: seq<System>, events: seq<Event>, k: nat, j: int, w: Worker, until: int)
    requires Behavior(states, events) && k < |events| && Held(states[k].q, j, w, until)
    ensures Held(states[k + 1].q, j, w, until)
  {
    assert Follows(states, events, k);
    Reachable(states, events, k);
    EventHolds(states[k], events[k], j, w, until);
  }

  lemma FirstHeld(states: seq<System>, events: seq<Event>, i: nat, j: int)
    requires Behavior(states, events) && i < |events| && events[i].JobClaimed? && events[i].job == Some(j)
    ensures Held(states[i + 1].q, j, events[i].worker, LeaseEnd(states[i], events[i]))
  {
    assert Follows(states, events, i);
    ClaimGrants(states[i], events[i], j);
  }

  lemma {:induction false} LeaseHeld(states: seq<System>, events: seq<Event>, i: nat, k: nat, j: int)
    requires Behavior(states, events) && i < k < |states| && events[i].JobClaimed? && events[i].job == Some(j)
    ensures Held(states[k].q, j, events[i].worker, LeaseEnd(states[i], events[i]))
    decreases k
  {
    if i == k - 1 {
      FirstHeld(states, events, i, j);
    } else {
      LeaseHeld(states, events, i, k - 1, j);
      NextHeld(states, events, k - 1, j, events[i].worker, LeaseEnd(states[i], events[i]));
    }
  }

  /** Until the lease of a claim has ended, the job has finished or is still running under
      that lease for the worker that claimed it. */
  lemma LeaseExclusive(states: seq<System>, events: seq<Event>, i: nat, k: nat, j: int)
    requires Behavior(states, events) && i < k < |states| && events[i].JobClaimed? && events[i].job == Some(j)
    requires states[k].q.now <= states[i].q.now + if events[i].leaseSeconds < 1 then 1800 else events[i].leaseSeconds
    ensures j in states[k].q.jobs && states[k].q.jobs[j].status != Pending
    ensures states[k].q.jobs[j].status == Running ==>
              && states[k].q.jobs[j].owner == Some(events[i].worker)
              && states[k].q.jobs[j].lease
                 == Some(states[i].q.now + if events[i].leaseSeconds < 1 then 1800 else events[i].leaseSeconds)
  {
    LeaseHeld(states, events, i, k, j);
  }

  /** A job claimed at clock c for s seconds is claimed again, or quarantined, only at a
      clock after c + s (1800 seconds when none were asked for). */
  lemma LeaseRespected(states: seq<System>, events: seq<Event>, i: nat, k: nat, j: int)
    requires Behavior(states, events) && i < k < |events|
    requires events[i].JobClaimed? && events[i].job == Some(j)
    requires events[k].JobClaimed? && (events[k].job == Some(j) || j in events[k].unsafe)
    ensures states[k].q.now > states[i].q.now + if events[i].leaseSeconds < 1 then 1800 else events[i].leaseSeconds
  {
    LeaseHeld(states, events, i, k, j);
    assert Follows(states, events, k);
    ClaimHolds(states[k], events[k], j, events[i].worker, LeaseEnd(states[i], events[i]));
  }
}
