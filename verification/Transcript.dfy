/** Messages of an agent run (internal/agent). */
module Transcript {
  datatype Call = Call(id: string, name: string, arguments: string)

  datatype Message = Message(role: string, content: string, callId: string, calls: seq<Call>, boundary: bool)

  /** The messages from the last segment boundary on; all of them when there is none. */
  function FromBoundary(messages: seq<Message>): seq<Message> {
    if messages == [] then []
    else if messages[|messages| - 1].boundary then [messages[|messages| - 1]]
    else FromBoundary(messages[..|messages| - 1]) + [messages[|messages| - 1]]
  }

  /** `k` is the last boundary, or 0 when there is none. */
  predicate SegmentStart(messages: seq<Message>, k: nat) {
    && k <= |messages| && (k == 0 || (k < |messages| && messages[k].boundary))
    && forall i :: k < i < |messages| ==> !messages[i].boundary
  }

  /** ModelContext: a backward scan for the boundary. */
  method ModelContext(transcript: seq<Message>) returns (context: seq<Message>)
    ensures context == FromBoundary(transcript)
    ensures exists k: nat :: SegmentStart(transcript, k) && context == transcript[k..]
  {
    var index := |transcript| - 1;
    while index >= 0
      invariant -1 <= index < |transcript|
      invariant forall i :: index < i < |transcript| ==> !transcript[i].boundary
    {
      if transcript[index].boundary {
        BoundaryAt(transcript, index);
        assert SegmentStart(transcript, index);
        return transcript[index..];
      }
      index := index - 1;
    }
    NoBoundary(transcript);
    assert SegmentStart(transcript, 0) && transcript[0..] == transcript;
    context := transcript;
  }

  /** The segment is the suffix that starts at the last boundary. */
  lemma {:induction false} BoundaryAt(messages: seq<Message>, k: nat)
    requires k < |messages| && messages[k].boundary
    requires forall i :: k < i < |messages| ==> !messages[i].boundary
    ensures FromBoundary(messages) == messages[k..]
  {
    var n := |messages| - 1;
    if k < n {
      assert !messages[n].boundary;
      BoundaryAt(messages[..n], k);
      assert messages[..n][k..] + [messages[n]] == messages[k..];
    }
  }

  lemma {:induction false} NoBoundary(messages: seq<Message>)
    requires forall i :: 0 <= i < |messages| ==> !messages[i].boundary
    ensures FromBoundary(messages) == messages
  {
    if messages != [] {
      NoBoundary(messages[..|messages| - 1]);
    }
  }

  /** Appending to a transcript appends to its segment, unless a new one starts. */
  lemma FromBoundaryAppend(messages: seq<Message>, m: Message)
    ensures FromBoundary(messages + [m]) == if m.boundary then [m] else FromBoundary(messages) + [m]
  {
    assert (messages + [m])[..|messages|] == messages;
  }
}
