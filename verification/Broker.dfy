/** The wake-up broker (internal/agentservice/broker.go): one-slot channels under a
    read-write lock. A reader that subscribes, lists, then waits never misses an event. */
module Broker {
  import opened Wrappers

  datatype Channel = Channel(token: bool, closed: bool)

  type Subscribers = map<string, set<int>>

  function SubscribersOf(subscribers: Subscribers, run: string): set<int> {
    if run in subscribers then subscribers[run] else {}
  }

  lemma Added(subscribers: Subscribers, run: string, id: int)
    ensures var after := subscribers[run := SubscribersOf(subscribers, run) + {id}];
            forall r :: SubscribersOf(after, r) == SubscribersOf(subscribers, r) + if r == run then {id} else {}
  {
  }

  /** Subscribed channels are open and belong to one run; ids were all handed out; a run
      without subscribers has no entry. */
  ghost predicate Sound(subscribers: Subscribers, channels: map<int, Channel>, nextId: int) {
    && (forall run :: run in subscribers ==> subscribers[run] != {})
    && (forall run, id :: id in SubscribersOf(subscribers, run) ==> id in channels && !channels[id].closed)
    && (forall run, other, id ::
          id in SubscribersOf(subscribers, run) && id in SubscribersOf(subscribers, other) ==> run == other)
    && (forall id :: id in channels ==> 1 <= id <= nextId)
  }

  class EventBroker {
    var nextId: nat
    var subscribers: map<string, set<int>>
    var channels: map<int, Channel>

    constructor ()
      ensures Valid() && nextId == 0 && forall run :: Subscribed(run) == {}
    {
      nextId, subscribers, channels := 0, map[], map[];
    }

    function Subscribed(run: string): set<int>
      reads this
    {
      SubscribersOf(subscribers, run)
    }

    ghost predicate Valid()
      reads this
    {
      Sound(subscribers, channels, nextId)
    }

    method Subscribe(run: string) returns (id: int)
      requires Valid()
      modifies this
      ensures Valid() && id == old(nextId) + 1 && id !in old(channels)
      ensures Subscribed(run) == old(Subscribed(run)) + {id}
      ensures forall other :: other != run ==> Subscribed(other) == old(Subscribed(other))
      ensures channels == old(channels)[id := Channel(false, false)]
    {
      nextId := nextId + 1;
      id := nextId;
      ghost var before := subscribers;
      assert forall r, k :: k in SubscribersOf(before, r) ==> k in channels && k < id;
      channels := channels[id := Channel(false, false)];
      subscribers := subscribers[run := Subscribed(run) + {id}];
      Added(before, run, id);
    }

    /** Every channel of the run holds a token afterwards; a full one is left as it is, and
        none is closed when it is sent to. */
    method Publish(run: string)
      requires Valid()
      modifies this`channels
      ensures Valid() && channels.Keys == old(channels).Keys
      ensures forall id :: id in channels ==>
                channels[id] == if id in Subscribed(run) then Channel(true, false) else old(channels)[id]
    {
      var rest := Subscribed(run);
      while rest != {}
        invariant rest <= Subscribed(run) && Valid() && channels.Keys == old(channels).Keys
        invariant forall id :: id in channels ==>
                    channels[id] == if id in Subscribed(run) - rest then Channel(true, false) else old(channels)[id]
        decreases |rest|
      {
        Inhabited(rest);
        var id :| id in rest;
        rest := rest - {id};
        assert id in SubscribersOf(subscribers, run) && !channels[id].closed;
        if !channels[id].token {
          channels := channels[id := channels[id].(token := true)];
        }
      }
    }

    /** Cancel of one subscription; only the first call does anything. */
    method Cancel(run: string, id: int, done: bool) returns (done': bool)
      requires Valid() && (!done ==> id in Subscribed(run)) && id in channels
      modifies this
      ensures Valid() && done' && nextId == old(nextId)
      ensures done ==> channels == old(channels) && subscribers == old(subscribers)
      ensures !done ==> channels == old(channels)[id := old(channels)[id].(closed := true)]
      ensures !done ==> Subscribed(run) == old(Subscribed(run)) - {id}
      ensures forall other :: other != run ==> Subscribed(other) == old(Subscribed(other))
    {
      done' := true;
      if done {
        return;
      }
      var left := subscribers[run] - {id};
      ghost var before := subscribers;
      assert forall r :: r != run ==> id !in SubscribersOf(before, r);
      subscribers := if left == {} then subscribers - {run} else subscribers[run := left];
      channels := channels[id := channels[id].(closed := true)];
      assert forall r :: SubscribersOf(subscribers, r) == SubscribersOf(before, r) - if r == run then {id} else {};
    }
  }

  // --- Publishers, readers and cancels, step by step ------------------------------------

  /** Where the publication of an event is: appended but not started, sending under the
      read lock, or done. */
  datatype Phase = Queued | Sending(rest: set<int>) | Done

  /** What a subscriber does next: list from its cursor, or wait for its channel. */
  datatype Reader = Reader(cursor: nat, waiting: bool)

  /** `phases[n]` belongs to event n + 1; `readers` are the live subscriptions by id. */
  datatype System = System(phases: seq<Phase>, readers: map<int, Reader>, channels: map<int, Channel>, nextId: nat)

  datatype Event =
    | EventAppended
    | PublishStarted(n: nat)
    | TokenSent(n: nat, id: int)
    | PublishEnded(n: nat)
    | ReaderSubscribed(cursor: nat)
    | EventsListed(id: int)
    | ReaderWoken(id: int)
    | ReaderCancelled(id: int)

  predicate Publishing(s: System) { exists n :: 0 <= n < |s.phases| && s.phases[n].Sending? }

  /** Publishers share the lock; subscribing and cancelling need it alone. */
  predicate Enabled(s: System, e: Event) {
    match e
    case EventAppended => true
    case PublishStarted(n) => n < |s.phases| && s.phases[n] == Queued
    case TokenSent(n, id) => n < |s.phases| && s.phases[n].Sending? && id in s.phases[n].rest
    case PublishEnded(n) => n < |s.phases| && s.phases[n] == Sending({})
    case ReaderSubscribed(_) => !Publishing(s)
    case EventsListed(id) => id in s.readers && !s.readers[id].waiting
    case ReaderWoken(id) => id in s.readers && s.readers[id].waiting && id in s.channels && s.channels[id].token
    case ReaderCancelled(id) => id in s.readers && !Publishing(s)
  }

  function Next(s: System, e: Event): System
    requires Enabled(s, e)
  {
    match e
    case EventAppended => s.(phases := s.phases + [Queued])
    case PublishStarted(n) => s.(phases := s.phases[n := Sending(s.readers.Keys)])
    case TokenSent(n, id) =>
      s.(phases := s.phases[n := Sending(s.phases[n].rest - {id})],
         channels := if id in s.channels then s.channels[id := s.channels[id].(token := true)] else s.channels)
    case PublishEnded(n) => s.(phases := s.phases[n := Done])
    case ReaderSubscribed(cursor) =>
      s.(nextId := s.nextId + 1, readers := s.readers[s.nextId + 1 := Reader(cursor, false)],
         channels := s.channels[s.nextId + 1 := Channel(false, false)])
    case EventsListed(id) =>
      var last := if |s.phases| > s.readers[id].cursor then |s.phases| else s.readers[id].cursor;
      s.(readers := s.readers[id := Reader(last, true)])
    case ReaderWoken(id) =>
      s.(readers := s.readers[id := s.readers[id].(waiting := false)],
         channels := s.channels[id := s.channels[id].(token := false)])
    case ReaderCancelled(id) =>
      s.(readers := s.readers - {id},
         channels := if id in s.channels then s.channels[id := s.channels[id].(closed := true)] else s.channels)
  }

  /** Event n + 1 still has its send to this channel ahead of it. */
  predicate SendAhead(s: System, n: nat, id: int)
    requires n < |s.phases|
  {
    s.phases[n] == Queued || (s.phases[n].Sending? && id in s.phases[n].rest)
  }

  predicate Open(s: System, id: int) { id in s.channels && !s.channels[id].closed }

  /** A waiting reader has a token, or every event beyond its cursor will still send one. */
  ghost predicate WillWake(s: System, id: int)
    requires id in s.readers && id in s.channels
  {
    s.readers[id].waiting && !s.channels[id].token ==>
      forall n :: s.readers[id].cursor <= n < |s.phases| ==> SendAhead(s, n, id)
  }

  ghost predicate Inv(s: System) {
    && (forall id :: id in s.readers ==> Open(s, id) && id <= s.nextId)
    && (forall id :: id in s.channels ==> id <= s.nextId)
    && (forall n :: 0 <= n < |s.phases| && s.phases[n].Sending? ==> s.phases[n].rest <= s.readers.Keys)
    && (forall id :: id in s.readers ==> WillWake(s, id))
  }

  lemma StepKeeps(s: System, e: Event)
    requires Inv(s) && Enabled(s, e)
    ensures Inv(Next(s, e))
  {
    var s' := Next(s, e);
    forall id | id in s'.readers ensures WillWake(s', id) {
      if id in s.readers && s.readers[id] == s'.readers[id] && s'.readers[id].waiting && !s'.channels[id].token {
        assert WillWake(s, id) && !s.channels[id].token;
        forall n | s'.readers[id].cursor <= n < |s'.phases| ensures SendAhead(s', n, id) {
          assert n < |s.phases| ==> SendAhead(s, n, id);
        }
      }
    }
  }

  const INITIAL := System([], map[], map[], 0)

  ghost predicate Behavior(states: seq<System>, events: seq<Event>) {
    && |states| == |events| + 1 && states[0] == INITIAL
    && forall k :: 0 <= k < |events| ==> Enabled(states[k], events[k]) && states[k + 1] == Next(states[k], events[k])
  }

  lemma {:induction false} Reachable(states: seq<System>, events: seq<Event>, k: nat)
    requires Behavior(states, events) && k < |states|
    ensures Inv(states[k])
  {
    if k > 0 {
      Reachable(states, events, k - 1);
      StepKeeps(states[k - 1], events[k - 1]);
    }
  }

  /** No lost wake-up: for any number of publishers, readers and cancels, when a reader
      waits and a published event lies beyond its cursor, its channel holds a token. */
  lemma NoLostWakeUp(states: seq<System>, events: seq<Event>, k: nat, id: int, n: nat)
    requires Behavior(states, events) && k < |states| && id in states[k].readers && states[k].readers[id].waiting
    requires states[k].readers[id].cursor <= n < |states[k].phases| && states[k].phases[n] == Done
    ensures id in states[k].channels && states[k].channels[id].token
  {
    Reachable(states, events, k);
    var s := states[k];
    assert WillWake(s, id);
    assert !s.channels[id].token ==> SendAhead(s, n, id);
  }

  /** No send reaches a closed channel, and a cancelled channel never holds a live reader. */
  lemma NoSendOnClosed(states: seq<System>, events: seq<Event>, k: nat)
    requires Behavior(states, events) && k < |events| && events[k].TokenSent?
    ensures Open(states[k], events[k].id)
  {
    Reachable(states, events, k);
    var s := states[k];
    assert events[k].id in s.readers;
  }
}
