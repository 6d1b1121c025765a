/** CompactExplorationTranscript: old exploration summaries are rewritten in place until
    the transcript's exploration bytes fit a budget (internal/agent/tool_result.go). */
module Compaction {
  import opened Wrappers
  import opened Summary
  import opened Transcript

  const BUDGET_BYTES := 48 * 1024

  type Decoder = string -> Option<ToolSummary>

  /** Decoding what was marshalled gives it back. */
  ghost predicate RoundTrip(lib: Lib, decode: Decoder) {
    forall s :: lib.marshal(s).Some? ==> decode(lib.marshal(s).value) == Some(s)
  }

  ghost predicate NeverFails(lib: Lib) { forall s :: lib.marshal(s).Some? }

  predicate IsExploration(decode: Decoder, m: Message) {
    decode(m.content).Some? && IsExplorationTool(decode(m.content).value.tool)
  }

  predicate IsToolSummary(decode: Decoder, m: Message) { m.role == "tool" && decode(m.content).Some? }

  function BytesIf(counted: bool, m: Message): int { if counted then |m.content| else 0 }

  function ExplorationBytes(decode: Decoder, ms: seq<Message>): int {
    if ms == [] then 0
    else
      var last := ms[|ms| - 1];
      ExplorationBytes(decode, ms[..|ms| - 1]) + BytesIf(IsExploration(decode, last), last)
  }

  /** The bytes of every message that is no exploration summary. */
  function OtherBytes(decode: Decoder, ms: seq<Message>): int {
    if ms == [] then 0
    else
      var last := ms[|ms| - 1];
      OtherBytes(decode, ms[..|ms| - 1]) + BytesIf(!IsExploration(decode, last), last)
  }

  function Bytes(ms: seq<Message>): int {
    if ms == [] then 0 else Bytes(ms[..|ms| - 1]) + |ms[|ms| - 1].content|
  }

  lemma {:induction false} BytesSplit(decode: Decoder, ms: seq<Message>)
    ensures Bytes(ms) == ExplorationBytes(decode, ms) + OtherBytes(decode, ms)
  {
    if ms != [] {
      BytesSplit(decode, ms[..|ms| - 1]);
    }
  }

  lemma {:induction false} BytesUpdate(ms: seq<Message>, k: nat, m: Message)
    requires k < |ms|
    ensures Bytes(ms[k := m]) == Bytes(ms) - |ms[k].content| + |m.content|
  {
    var n := |ms| - 1;
    if k < n {
      BytesUpdate(ms[..n], k, m);
      assert ms[k := m][..n] == ms[..n][k := m];
    } else {
      assert ms[k := m][..n] == ms[..n];
    }
  }

  method ExplorationSummaryBytes(decode: Decoder, ms: array<Message>) returns (total: int)
    ensures total == ExplorationBytes(decode, ms[..])
  {
    total := 0;
    for n := 0 to ms.Length
      invariant total == ExplorationBytes(decode, ms[..n])
    {
      assert ms[..n + 1][..n] == ms[..n];
      var summary := decode(ms[n].content);
      if summary.Some? && IsExplorationTool(summary.value.tool) {
        total := total + |ms[n].content|;
      }
    }
    assert ms[..] == ms[..ms.Length];
  }

  // --- What rewriting a message keeps -----------------------------------------------

  /** A tool summary's message may only change to a shrunk summary; nothing else changes. */
  ghost predicate Rewritten(decode: Decoder, m: Message, m': Message) {
    && m' == m.(content := m'.content)
    && if IsToolSummary(decode, m) then
         decode(m'.content).Some? && Shrunk(decode(m.content).value, decode(m'.content).value)
       else m' == m
  }

  ghost predicate AllRewritten(decode: Decoder, ms: seq<Message>, ms': seq<Message>) {
    |ms'| == |ms| && forall i :: 0 <= i < |ms| ==> Rewritten(decode, ms[i], ms'[i])
  }

  /** Some tool summary of a later event shows the same page. */
  ghost predicate Superseded(decode: Decoder, ms: seq<Message>, eventSeq: int, url: string, pageState: string) {
    exists n :: 0 <= n < |ms| && Shows(decode, ms[n], url, pageState) && decode(ms[n].content).value.eventSeq > eventSeq
  }

  predicate Shows(decode: Decoder, m: Message, url: string, pageState: string) {
    IsToolSummary(decode, m) && HasPage(decode(m.content).value.pages, url, pageState)
  }

  predicate HasPage(pages: seq<Page>, url: string, pageState: string) {
    exists p :: 0 <= p < |pages| && pages[p].url == url && pages[p].pageState == pageState
  }

  /** Page by page, `t` is `s` except where a later event superseded the page (an event
      sequence starts at 1, so a negative one never occurs). */
  ghost predicate OnlySuperseded(decode: Decoder, ms: seq<Message>, s: ToolSummary, t: ToolSummary) {
    && |t.pages| == |s.pages|
    && forall p :: 0 <= p < |s.pages| ==>
         || t.pages[p] == s.pages[p]
         || s.eventSeq < 0 || Superseded(decode, ms, s.eventSeq, s.pages[p].url, s.pages[p].pageState)
  }

  // --- The located summaries and the newest event per page ---------------------------

  datatype Located = Located(index: nat, summary: ToolSummary)

  type Newest = map<(string, string), int>

  function NewestAt(latest: Newest, page: Page): int {
    if (page.url, page.pageState) in latest then latest[(page.url, page.pageState)] else 0
  }

  /** Every recorded sequence number belongs to some tool summary showing that page. */
  ghost predicate Witnessed(decode: Decoder, ms: seq<Message>, latest: Newest) {
    forall key :: key in latest ==>
      exists n :: 0 <= n < |ms| && Shows(decode, ms[n], key.0, key.1) && decode(ms[n].content).value.eventSeq == latest[key]
  }

  /** No recorded number is behind a summary that shows the page, and all are positive. */
  ghost predicate Dominates(decode: Decoder, ms: seq<Message>, latest: Newest, n: nat) {
    && n <= |ms| && (forall key :: key in latest ==> latest[key] > 0)
    && forall i, p :: 0 <= i < n && PageAt(decode, ms, i, p) ==>
         decode(ms[i].content).value.eventSeq <= NewestAt(latest, decode(ms[i].content).value.pages[p])
  }

  predicate PageAt(decode: Decoder, ms: seq<Message>, i: int, p: int) {
    0 <= i < |ms| && IsToolSummary(decode, ms[i]) && 0 <= p < |decode(ms[i].content).value.pages|
  }

  /** `located` lists exactly the tool summaries, in order. */
  ghost predicate Locates(decode: Decoder, ms: seq<Message>, located: seq<Located>) {
    && (forall k :: 0 <= k < |located| ==>
          located[k].index < |ms| && IsToolSummary(decode, ms[located[k].index]))
    && (forall j, k :: 0 <= j < k < |located| ==> located[j].index < located[k].index)
    && (forall i :: 0 <= i < |ms| && IsToolSummary(decode, ms[i]) ==> HasIndex(located, i))
  }

  predicate HasIndex(located: seq<Located>, i: int) { exists k :: 0 <= k < |located| && located[k].index == i }

  /** `located` lists the tool summaries among the first `n` messages. */
  ghost predicate LocatesUpTo(decode: Decoder, ms: seq<Message>, located: seq<Located>, n: nat) {
    && n <= |ms|
    && (forall k :: 0 <= k < |located| ==>
          && located[k].index < n && IsToolSummary(decode, ms[located[k].index])
          && decode(ms[located[k].index].content) == Some(located[k].summary))
    && (forall j, k :: 0 <= j < k < |located| ==> located[j].index < located[k].index)
    && (forall i :: 0 <= i < n && IsToolSummary(decode, ms[i]) ==> HasIndex(located, i))
  }

  lemma LocatesSkip(decode: Decoder, ms: seq<Message>, located: seq<Located>, n: nat)
    requires LocatesUpTo(decode, ms, located, n) && n < |ms| && !IsToolSummary(decode, ms[n])
    ensures LocatesUpTo(decode, ms, located, n + 1)
  {
  }

  lemma LocatesMore(decode: Decoder, ms: seq<Message>, located: seq<Located>, n: nat, summary: ToolSummary)
    requires LocatesUpTo(decode, ms, located, n) && n < |ms| && IsToolSummary(decode, ms[n])
    requires decode(ms[n].content) == Some(summary)
    ensures LocatesUpTo(decode, ms, located + [Located(n, summary)], n + 1)
  {
    var more := located + [Located(n, summary)];
    forall i | 0 <= i <= n && IsToolSummary(decode, ms[i]) ensures HasIndex(more, i) {
      if i < n {
        var k :| 0 <= k < |located| && located[k].index == i;
        assert more[k].index == i;
      } else {
        assert more[|located|].index == n;
      }
    }
  }

  method Locate(decode: Decoder, ms: array<Message>) returns (located: seq<Located>, latest: Newest)
    ensures Locates(decode, ms[..], located) && Witnessed(decode, ms[..], latest)
    ensures Dominates(decode, ms[..], latest, ms.Length)
    ensures Pristine(decode, ms[..], located, 0)
  {
    located := [];
    latest := map[];
    for index := 0 to ms.Length
      invariant Witnessed(decode, ms[..], latest) && Dominates(decode, ms[..], latest, index)
      invariant LocatesUpTo(decode, ms[..], located, index)
    {
      var decoded := decode(ms[index].content);
      if decoded.None? || ms[index].role != "tool" {
        LocatesSkip(decode, ms[..], located, index);
        continue;
      }
      LocatesMore(decode, ms[..], located, index, decoded.value);
      located := located + [Located(index, decoded.value)];
      latest := Note(decode, ms[..], index, decoded.value, latest);
    }
  }

  method Note(decode: Decoder, ghost ms: seq<Message>, index: nat, summary: ToolSummary, latest: Newest)
    returns (latest': Newest)
    requires index < |ms| && IsToolSummary(decode, ms[index]) && decode(ms[index].content) == Some(summary)
    requires Witnessed(decode, ms, latest) && Dominates(decode, ms, latest, index)
    ensures Witnessed(decode, ms, latest') && Dominates(decode, ms, latest', index + 1)
  {
    latest' := latest;
    for p := 0 to |summary.pages|
      invariant Witnessed(decode, ms, latest') && Dominates(decode, ms, latest', index)
      invariant forall q :: 0 <= q < p ==> summary.eventSeq <= NewestAt(latest', summary.pages[q])
    {
      if summary.eventSeq > NewestAt(latest', summary.pages[p]) {
        var key := (summary.pages[p].url, summary.pages[p].pageState);
        assert HasPage(summary.pages, key.0, key.1);
        assert Shows(decode, ms[index], key.0, key.1);
        latest' := latest'[key := summary.eventSeq];
      }
    }
  }

  // --- Rewriting ----------------------------------------------------------------------

  lemma StrippedShrinks(s: ToolSummary, p: nat, t: ToolSummary)
    requires p < |s.pages|
    requires t == s.(pages := s.pages[p := Stripped(s.pages[p])], omitted := AddOmissions(s.omitted, Dropped(s.pages[p])),
                     truncated := true, reason := "superseded_revision")
    ensures Shrunk(s, t)
  {
    SplitPages(s.pages, p, Stripped(s.pages[p]));
    StrippedKept(s.pages[p]);
    KeptAt(s.pages, p, Stripped(s.pages[p]));
  }

  /** A tool summary of a later event shows the page (an event sequence starts at 1, so a
      negative one never occurs). */
  ghost predicate Outdated(decode: Decoder, ms: seq<Message>, eventSeq: int, page: Page) {
    eventSeq < 0 || exists n, q :: ShownLater(decode, ms, eventSeq, page, n, q)
  }

  predicate ShownLater(decode: Decoder, ms: seq<Message>, eventSeq: int, page: Page, n: int, q: int) {
    && 0 <= n < |ms| && ms[n].role == "tool" && decode(ms[n].content).Some?
    && decode(ms[n].content).value.eventSeq > eventSeq
    && 0 <= q < |decode(ms[n].content).value.pages|
    && decode(ms[n].content).value.pages[q].url == page.url
    && decode(ms[n].content).value.pages[q].pageState == page.pageState
  }

  /** The recorded newest number is ahead of an event exactly when the event is outdated. */
  lemma NewerEvent(decode: Decoder, ms: seq<Message>, latest: Newest, eventSeq: int, page: Page)
    requires Witnessed(decode, ms, latest) && Dominates(decode, ms, latest, |ms|)
    ensures eventSeq < NewestAt(latest, page) <==> Outdated(decode, ms, eventSeq, page)
    ensures eventSeq < NewestAt(latest, page) ==>
              eventSeq < 0 || Superseded(decode, ms, eventSeq, page.url, page.pageState)
  {
    var key := (page.url, page.pageState);
    if eventSeq < NewestAt(latest, page) && key in latest {
      var n :| 0 <= n < |ms| && Shows(decode, ms[n], key.0, key.1) && decode(ms[n].content).value.eventSeq == latest[key];
      var pages := decode(ms[n].content).value.pages;
      var q :| 0 <= q < |pages| && pages[q].url == page.url && pages[q].pageState == page.pageState;
      assert ShownLater(decode, ms, eventSeq, page, n, q);
    }
    if n, q :| ShownLater(decode, ms, eventSeq, page, n, q) {
      assert PageAt(decode, ms, n, q);
      assert NewestAt(latest, decode(ms[n].content).value.pages[q]) == NewestAt(latest, page);
    }
  }

  /** One page of `before`, still as in `source`, is stripped. */
  lemma StripStep(decode: Decoder, ms: seq<Message>, source: ToolSummary, before: ToolSummary, p: nat, t: ToolSummary)
    requires Shrunk(source, before) && OnlySuperseded(decode, ms, source, before)
    requires p < |before.pages| && before.pages[p] == source.pages[p]
    requires source.eventSeq < 0
             || Superseded(decode, ms, source.eventSeq, source.pages[p].url, source.pages[p].pageState)
    requires t == before.(pages := before.pages[p := Stripped(before.pages[p])],
                          omitted := AddOmissions(before.omitted, Dropped(before.pages[p])),
                          truncated := true, reason := "superseded_revision")
    ensures Shrunk(source, t) && OnlySuperseded(decode, ms, source, t)
  {
    StrippedShrinks(before, p, t);
    ShrunkTwice(source, before, t);
  }

  /** A page without its details. */
  predicate Referenced(page: Page, was: Page) {
    && page.referenceOnly && page.nodes == [] && page.actions == []
    && page.url == was.url && page.pageState == was.pageState && page.detail == was.detail
  }

  /** Of the pages of `s` exactly the outdated ones that still have details lose them. */
  ghost predicate StripsOutdated(decode: Decoder, ms: seq<Message>, s: ToolSummary, t: ToolSummary) {
    && |t.pages| == |s.pages|
    && forall p :: 0 <= p < |s.pages| ==>
         if Outdated(decode, ms, s.eventSeq, s.pages[p]) && !s.pages[p].referenceOnly
         then Referenced(t.pages[p], s.pages[p]) else t.pages[p] == s.pages[p]
  }

  /** Of the first `n` pages exactly these, and of the others none. */
  ghost predicate StripsUpTo(decode: Decoder, ms: seq<Message>, s: ToolSummary, t: ToolSummary, n: nat) {
    && |t.pages| == |s.pages|
    && forall p :: 0 <= p < |s.pages| ==>
         if p < n && Outdated(decode, ms, s.eventSeq, s.pages[p]) && !s.pages[p].referenceOnly
         then Referenced(t.pages[p], s.pages[p]) else t.pages[p] == s.pages[p]
  }

  lemma StripsNext(decode: Decoder, ms: seq<Message>, s: ToolSummary, before: ToolSummary, t: ToolSummary, n: nat)
    requires n < |s.pages| && StripsUpTo(decode, ms, s, before, n)
    requires if Outdated(decode, ms, s.eventSeq, s.pages[n]) && !s.pages[n].referenceOnly
             then t.pages == before.pages[n := Stripped(before.pages[n])] else t == before
    ensures StripsUpTo(decode, ms, s, t, n + 1)
  {
  }

  /** The inner loop of pass one: strips the pages a later event has superseded. */
  method StripPages(decode: Decoder, ghost ms: seq<Message>, latest: Newest, source: ToolSummary)
    returns (s: ToolSummary, changed: bool)
    requires Witnessed(decode, ms, latest) && Dominates(decode, ms, latest, |ms|)
    ensures Shrunk(source, s) && OnlySuperseded(decode, ms, source, s)
    ensures !changed ==> s == source
    ensures StripsOutdated(decode, ms, source, s)
  {
    s, changed := source, false;
    ShrunkBody(s, s);
    for p := 0 to |source.pages|
      invariant Shrunk(source, s) && OnlySuperseded(decode, ms, source, s)
      invariant StripsUpTo(decode, ms, source, s, p)
      invariant !changed ==> s == source
    {
      var page := s.pages[p];
      ghost var before := s;
      NewerEvent(decode, ms, latest, source.eventSeq, page);
      if s.eventSeq >= NewestAt(latest, page) || page.referenceOnly {
        StripsNext(decode, ms, source, before, s, p);
        continue;
      }
      var stripped, omitted := MakePageReferenceOnly(page);
      s := s.(pages := s.pages[p := stripped], omitted := AddOmissions(s.omitted, omitted),
              truncated := true, reason := "superseded_revision");
      changed := true;
      StripStep(decode, ms, source, before, p, s);
      StripsNext(decode, ms, source, before, s, p);
    }
  }

  method StripSuperseded(decode: Decoder, ghost ms: seq<Message>, latest: Newest, source: ToolSummary)
    returns (s: ToolSummary, changed: bool)
    requires Witnessed(decode, ms, latest) && Dominates(decode, ms, latest, |ms|)
    ensures Shrunk(source, s) && OnlySuperseded(decode, ms, source, s)
    ensures !changed ==> s == source
    ensures StripsOutdated(decode, ms, source, s)
    ensures changed ==> (s.referenceOnly <==> forall p :: 0 <= p < |s.pages| ==> s.pages[p].referenceOnly)
  {
    s, changed := StripPages(decode, ms, latest, source);
    if changed {
      var all := AllReferenceOnly(s.pages);
      s := s.(referenceOnly := all);
    }
  }

  method AllReferenceOnly(pages: seq<Page>) returns (all: bool)
    ensures all <==> forall p :: 0 <= p < |pages| ==> pages[p].referenceOnly
  {
    for p := 0 to |pages|
      invariant forall i :: 0 <= i < p ==> pages[i].referenceOnly
    {
      if !pages[p].referenceOnly {
        return false;
      }
    }
    all := true;
  }

  /** The message at a located index, and the summary held for it, against the original;
      the two agree while no encoding fails. */
  ghost predicate Tracks(reliable: bool, decode: Decoder, was: seq<Message>, now: seq<Message>, item: Located)
    requires |now| == |was|
  {
    && item.index < |was| && IsToolSummary(decode, was[item.index])
    && Shrunk(decode(was[item.index].content).value, item.summary)
    && (reliable ==> decode(now[item.index].content) == Some(item.summary))
  }

  ghost predicate AllTrack(reliable: bool, decode: Decoder, was: seq<Message>, now: seq<Message>, located: seq<Located>) {
    |now| == |was| && forall k :: 0 <= k < |located| ==> Tracks(reliable, decode, was, now, located[k])
  }

  lemma RewrittenSelf(decode: Decoder, ms: seq<Message>)
    ensures AllRewritten(decode, ms, ms)
  {
    forall i | 0 <= i < |ms| ensures Rewritten(decode, ms[i], ms[i]) {
      if IsToolSummary(decode, ms[i]) {
        ShrunkBody(decode(ms[i].content).value, decode(ms[i].content).value);
      }
    }
  }

  /** Re-encodes `s` into the message at `index`; an encoding error leaves it alone. */
  method Write(lib: Lib, decode: Decoder, ms: array<Message>, ghost was: seq<Message>, index: nat, s: ToolSummary,
               total: int)
    returns (written: ToolSummary, total': int)
    requires RoundTrip(lib, decode) && AllRewritten(decode, was, ms[..]) && index < ms.Length
    requires IsToolSummary(decode, was[index]) && Shrunk(decode(was[index].content).value, s)
    modifies ms
    ensures AllRewritten(decode, was, ms[..]) && SameBody(s, written)
    ensures Shrunk(decode(was[index].content).value, written)
    ensures total' - total == Bytes(ms[..]) - Bytes(old(ms[..]))
    ensures forall i :: 0 <= i < ms.Length && i != index ==> ms[i] == old(ms[i])
    ensures NeverFails(lib) ==> decode(ms[index].content) == Some(written)
    ensures decode(ms[index].content) == Some(written) || ms[index] == old(ms[index])
  {
    var cell := new Cell(s);
    ghost var attempt;
    var encoded: Option<string>;
    encoded, attempt := cell.Reencode(lib);
    written := cell.s;
    ShrunkBody(s, written);
    ShrunkTwice(decode(was[index].content).value, s, written);
    total' := total;
    if encoded.Some? {
      total' := total - |ms[index].content|;
      BytesUpdate(ms[..], index, ms[index].(content := encoded.value));
      ghost var before := ms[..];
      ms[index] := ms[index].(content := encoded.value);
      assert ms[..] == before[index := ms[index]];
      total' := total' + |encoded.value|;
      assert Rewritten(decode, was[index], ms[index]);
    }
  }

  // --- The two passes -----------------------------------------------------------------

  /** What the located entries still stand for after some were rewritten. */
  ghost predicate SameIndices(located: seq<Located>, located': seq<Located>) {
    |located'| == |located| && forall k :: 0 <= k < |located| ==> located'[k].index == located[k].index
  }

  /** Every message after pass one shows its original pages, except superseded ones. */
  ghost predicate NewestKept(decode: Decoder, was: seq<Message>, now: seq<Message>) {
    && |now| == |was|
    && forall i :: 0 <= i < |was| && IsToolSummary(decode, was[i]) ==>
         decode(now[i].content).Some?
         && OnlySuperseded(decode, was, decode(was[i].content).value, decode(now[i].content).value)
  }

  lemma NewestKeptSelf(decode: Decoder, ms: seq<Message>)
    ensures NewestKept(decode, ms, ms)
  {
  }

  lemma TracksOthers(reliable: bool, decode: Decoder, was: seq<Message>, before: seq<Message>, now: seq<Message>,
                     located: seq<Located>, k: nat, item: Located)
    requires AllTrack(reliable, decode, was, before, located) && k < |located| && |now| == |before|
    requires item.index == located[k].index && Tracks(reliable, decode, was, now, item)
    requires forall i :: 0 <= i < |now| && i != item.index ==> now[i] == before[i]
    requires DistinctIndices(located)
    ensures AllTrack(reliable, decode, was, now, located[k := item]) && DistinctIndices(located[k := item])
  {
    var located' := located[k := item];
    forall j | 0 <= j < |located'| ensures Tracks(reliable, decode, was, now, located'[j]) {
      if j != k {
        assert Tracks(reliable, decode, was, before, located[j]);
      }
    }
  }

  ghost predicate DistinctIndices(located: seq<Located>) {
    forall j, k :: 0 <= j < k < |located| ==> located[j].index != located[k].index
  }

  /** From `k` on, the located summaries are still those of the original transcript. */
  ghost predicate Pristine(decode: Decoder, was: seq<Message>, located: seq<Located>, k: nat) {
    && k <= |located|
    && forall j :: k <= j < |located| ==>
         && located[j].index < |was| && IsToolSummary(decode, was[located[j].index])
         && decode(was[located[j].index].content) == Some(located[j].summary)
  }

  /** One round of pass one. */
  method StripOne(lib: Lib, ghost reliable: bool, decode: Decoder, ms: array<Message>, ghost was: seq<Message>,
                  located: seq<Located>, latest: Newest, k: nat, total: int)
    returns (located': seq<Located>, total': int)
    requires RoundTrip(lib, decode) && (reliable ==> NeverFails(lib))
    requires Witnessed(decode, was, latest) && Dominates(decode, was, latest, |was|)
    requires DistinctIndices(located) && k < |located|
    requires AllRewritten(decode, was, ms[..]) && NewestKept(decode, was, ms[..])
    requires located[k].index < ms.Length && ms[located[k].index] == was[located[k].index]
    requires AllTrack(reliable, decode, was, ms[..], located) && Pristine(decode, was, located, k)
    modifies ms
    ensures AllRewritten(decode, was, ms[..]) && NewestKept(decode, was, ms[..])
    ensures AllTrack(reliable, decode, was, ms[..], located') && Pristine(decode, was, located', k + 1)
    ensures SameIndices(located, located') && DistinctIndices(located')
    ensures total' - total == Bytes(ms[..]) - Bytes(old(ms[..]))
    ensures forall i :: 0 <= i < ms.Length && i != located[k].index ==> ms[i] == old(ms[i])
    ensures OutdatedStripped(reliable, decode, was, ms[..], located[k].index)
  {
    located', total' := located, total;
    var item := located[k];
    var s, changed := StripSuperseded(decode, was, latest, item.summary);
    StrippedSame(reliable, decode, was, ms[..], item.index, s);
    if changed {
      located', total' := WriteStripped(lib, reliable, decode, ms, was, located, k, s, total);
    }
  }

  /** Writes the stripped summary `s` of the `k`th located message. */
  method WriteStripped(lib: Lib, ghost reliable: bool, decode: Decoder, ms: array<Message>, ghost was: seq<Message>,
                       located: seq<Located>, k: nat, s: ToolSummary, total: int)
    returns (located': seq<Located>, total': int)
    requires RoundTrip(lib, decode) && (reliable ==> NeverFails(lib))
    requires DistinctIndices(located) && k < |located|
    requires AllRewritten(decode, was, ms[..]) && NewestKept(decode, was, ms[..])
    requires located[k].index < ms.Length && ms[located[k].index] == was[located[k].index]
    requires AllTrack(reliable, decode, was, ms[..], located) && Pristine(decode, was, located, k)
    requires Shrunk(located[k].summary, s) && OnlySuperseded(decode, was, located[k].summary, s)
    requires StripsOutdated(decode, was, located[k].summary, s)
    modifies ms
    ensures AllRewritten(decode, was, ms[..]) && NewestKept(decode, was, ms[..])
    ensures AllTrack(reliable, decode, was, ms[..], located') && Pristine(decode, was, located', k + 1)
    ensures SameIndices(located, located') && DistinctIndices(located')
    ensures total' - total == Bytes(ms[..]) - Bytes(old(ms[..]))
    ensures forall i :: 0 <= i < ms.Length && i != located[k].index ==> ms[i] == old(ms[i])
    ensures OutdatedStripped(reliable, decode, was, ms[..], located[k].index)
  {
    var item := located[k];
    ghost var before := ms[..];
    var written;
    written, total' := Write(lib, decode, ms, was, item.index, s, total);
    TracksOthers(reliable, decode, was, before, ms[..], located, k, Located(item.index, written));
    located' := located[k := Located(item.index, written)];
    NewestStep(decode, was, before, ms[..], item.index, s, written);
    StrippedWritten(reliable, decode, was, ms[..], item.index, s, written);
  }

  /** The summary at `i` lost exactly its outdated pages, or could not be written. */
  ghost predicate OutdatedStripped(reliable: bool, decode: Decoder, was: seq<Message>, now: seq<Message>, i: nat)
    requires i < |was| == |now|
  {
    && IsToolSummary(decode, was[i])
    && (reliable || now[i] != was[i] ==>
          && decode(now[i].content).Some?
          && StripsOutdated(decode, was, decode(was[i].content).value, decode(now[i].content).value))
  }

  lemma StrippedSame(reliable: bool, decode: Decoder, was: seq<Message>, now: seq<Message>, i: nat, s: ToolSummary)
    requires i < |was| == |now| && IsToolSummary(decode, was[i]) && now[i] == was[i]
    requires StripsOutdated(decode, was, decode(was[i].content).value, s)
    ensures s == decode(was[i].content).value ==> OutdatedStripped(reliable, decode, was, now, i)
  {
  }

  lemma StrippedWritten(reliable: bool, decode: Decoder, was: seq<Message>, now: seq<Message>, i: nat, s: ToolSummary,
                        written: ToolSummary)
    requires i < |was| == |now| && IsToolSummary(decode, was[i])
    requires StripsOutdated(decode, was, decode(was[i].content).value, s) && SameBody(s, written)
    requires decode(now[i].content) == Some(written) || (now[i] == was[i] && !reliable)
    ensures OutdatedStripped(reliable, decode, was, now, i)
  {
  }

  // --- How far a pass goes --------------------------------------------------------------

  /** The bytes the first `k` located messages have gained; negative when they shrank. */
  ghost function Spent(was: seq<Message>, now: seq<Message>, located: seq<Located>, k: nat): int
    requires |now| == |was| && k <= |located| && Inside(located, |was|)
  {
    if k == 0 then 0
    else
      var i := located[k - 1].index;
      Spent(was, now, located, k - 1) + |now[i].content| - |was[i].content|
  }

  ghost predicate Inside(located: seq<Located>, n: nat) { forall k :: 0 <= k < |located| ==> located[k].index < n }

  ghost predicate Reached(located: seq<Located>, n: nat, i: nat) {
    exists k :: 0 <= k < n <= |located| && located[k].index == i
  }

  /** Every summary before `n` was over the budget when its turn came, and no message but
      theirs changed. */
  ghost predicate OverBudget(was: seq<Message>, now: seq<Message>, located: seq<Located>, initial: int, n: nat) {
    && |now| == |was| && n <= |located| && Inside(located, |was|)
    && (forall k :: 0 <= k < n ==> initial + Spent(was, now, located, k) > 48 * 1024)
    && forall i: nat :: i < |was| && !Reached(located, n, i) ==> now[i] == was[i]
  }

  /** A pass stops at the first summary whose turn finds the budget met. */
  ghost predicate StopsAt(was: seq<Message>, now: seq<Message>, located: seq<Located>, initial: int, n: nat) {
    && OverBudget(was, now, located, initial, n)
    && (n < |located| ==> initial + Spent(was, now, located, n) <= 48 * 1024)
  }

  lemma {:induction false} SpentFrame(was: seq<Message>, a: seq<Message>, b: seq<Message>, x: seq<Located>,
                                      y: seq<Located>, k: nat)
    requires |a| == |b| == |was| && SameIndices(x, y) && k <= |x| && Inside(x, |was|) && Inside(y, |was|)
    requires forall j :: 0 <= j < k ==> |a[x[j].index].content| == |b[x[j].index].content|
    ensures Spent(was, a, x, k) == Spent(was, b, y, k)
  {
    if k > 0 {
      SpentFrame(was, a, b, x, y, k - 1);
    }
  }

  /** One more summary of the pass is done. */
  lemma PassGrows(was: seq<Message>, before: seq<Message>, now: seq<Message>, located: seq<Located>, initial: int,
                  n: nat)
    requires OverBudget(was, before, located, initial, n) && n < |located| && DistinctIndices(located)
    requires initial + Spent(was, before, located, n) > 48 * 1024
    requires |now| == |before| && forall i :: 0 <= i < |now| && i != located[n].index ==> now[i] == before[i]
    ensures OverBudget(was, now, located, initial, n + 1)
    ensures Spent(was, now, located, n + 1) - Spent(was, before, located, n)
         == |now[located[n].index].content| - |before[located[n].index].content|
  {
    assert before[located[n].index] == was[located[n].index];
    forall k | 0 <= k <= n ensures Spent(was, now, located, k) == Spent(was, before, located, k) {
      SpentFrame(was, now, before, located, located, k);
    }
    forall i: nat | i < |was| && !Reached(located, n + 1, i) ensures now[i] == was[i] {
      assert i != located[n].index;
      assert !Reached(located, n, i);
    }
  }

  lemma PristineTracks(reliable: bool, decode: Decoder, was: seq<Message>, located: seq<Located>)
    requires Pristine(decode, was, located, 0)
    ensures AllTrack(reliable, decode, was, was, located)
  {
    forall k | 0 <= k < |located| ensures Tracks(reliable, decode, was, was, located[k]) {
      ShrunkBody(located[k].summary, located[k].summary);
    }
  }

  /** What pass one does: the summaries it reaches lose exactly their outdated pages, and it
      reaches no summary once the budget is met. */
  ghost predicate PassedOne(reliable: bool, decode: Decoder, was: seq<Message>, now: seq<Message>,
                            located: seq<Located>, initial: int, n: nat) {
    && StopsAt(was, now, located, initial, n)
    && forall k :: 0 <= k < n ==> OutdatedStripped(reliable, decode, was, now, located[k].index)
  }

  lemma StrippedFrame(reliable: bool, decode: Decoder, was: seq<Message>, before: seq<Message>, now: seq<Message>,
                      located: seq<Located>, n: nat)
    requires |before| == |now| == |was| && n < |located| && Inside(located, |was|) && DistinctIndices(located)
    requires forall k :: 0 <= k < n ==> OutdatedStripped(reliable, decode, was, before, located[k].index)
    requires OutdatedStripped(reliable, decode, was, now, located[n].index)
    requires forall i :: 0 <= i < |now| && i != located[n].index ==> now[i] == before[i]
    ensures forall k :: 0 <= k <= n ==> OutdatedStripped(reliable, decode, was, now, located[k].index)
  {
    forall k | 0 <= k < n ensures OutdatedStripped(reliable, decode, was, now, located[k].index) {
      assert OutdatedStripped(reliable, decode, was, before, located[k].index);
    }
  }

  /** What the loop knows before round `k`. */
  ghost predicate OneUpTo(reliable: bool, decode: Decoder, was: seq<Message>, now: seq<Message>, source: seq<Located>,
                          located: seq<Located>, initial: int, total: int, k: nat) {
    && |now| == |was| && AllRewritten(decode, was, now) && NewestKept(decode, was, now)
    && SameIndices(source, located) && DistinctIndices(located) && DistinctIndices(source)
    && AllTrack(reliable, decode, was, now, located) && Pristine(decode, was, located, k)
    && OverBudget(was, now, source, initial, k) && total == initial + Spent(was, now, source, k)
    && total - initial == Bytes(now) - Bytes(was)
    && forall j :: 0 <= j < k ==> OutdatedStripped(reliable, decode, was, now, source[j].index)
  }

  lemma OneStarts(reliable: bool, decode: Decoder, was: seq<Message>, source: seq<Located>, initial: int)
    requires DistinctIndices(source) && Pristine(decode, was, source, 0)
    ensures OneUpTo(reliable, decode, was, was, source, source, initial, initial, 0)
  {
    RewrittenSelf(decode, was);
    NewestKeptSelf(decode, was);
    PristineTracks(reliable, decode, was, source);
  }

  lemma OneGrows(reliable: bool, decode: Decoder, was: seq<Message>, before: seq<Message>, now: seq<Message>,
                 source: seq<Located>, located: seq<Located>, located': seq<Located>, initial: int, total: int,
                 total': int, k: nat)
    requires OneUpTo(reliable, decode, was, before, source, located, initial, total, k)
    requires k < |source| && total > BUDGET_BYTES && |now| == |was|
    requires AllRewritten(decode, was, now) && NewestKept(decode, was, now)
    requires AllTrack(reliable, decode, was, now, located') && Pristine(decode, was, located', k + 1)
    requires SameIndices(located, located') && DistinctIndices(located')
    requires total' - total == Bytes(now) - Bytes(before)
    requires forall i :: 0 <= i < |now| && i != located[k].index ==> now[i] == before[i]
    requires OutdatedStripped(reliable, decode, was, now, located[k].index)
    ensures OneUpTo(reliable, decode, was, now, source, located', initial, total', k + 1)
  {
    var i := source[k].index;
    NotReached(source, k);
    SameIndicesTwice(source, located, located');
    BytesUpdate(before, i, now[i]);
    assert now == before[i := now[i]];
    PassGrows(was, before, now, source, initial, k);
    StrippedFrame(reliable, decode, was, before, now, source, k);
  }

  /** One round of the pass, with its bookkeeping. */
  method StripNext(lib: Lib, ghost reliable: bool, decode: Decoder, ms: array<Message>, ghost was: seq<Message>,
                   ghost source: seq<Located>, located: seq<Located>, latest: Newest, k: nat, ghost initial: int,
                   total: int)
    returns (located': seq<Located>, total': int)
    requires RoundTrip(lib, decode) && (reliable ==> NeverFails(lib)) && k < |located|
    requires Witnessed(decode, was, latest) && Dominates(decode, was, latest, |was|)
    requires OneUpTo(reliable, decode, was, ms[..], source, located, initial, total, k) && total > BUDGET_BYTES
    modifies ms
    ensures OneUpTo(reliable, decode, was, ms[..], source, located', initial, total', k + 1)
  {
    ghost var before := ms[..];
    NotReached(source, k);
    Untouched(was, before, source, initial, k);
    located', total' := StripOne(lib, reliable, decode, ms, was, located, latest, k, total);
    OneGrows(reliable, decode, was, before, ms[..], source, located, located', initial, total, total', k);
  }

  lemma Untouched(was: seq<Message>, now: seq<Message>, located: seq<Located>, initial: int, k: nat)
    requires OverBudget(was, now, located, initial, k) && k < |located| && !Reached(located, k, located[k].index)
    ensures located[k].index < |was| && now[located[k].index] == was[located[k].index]
  {
  }

  lemma NotReached(located: seq<Located>, k: nat)
    requires DistinctIndices(located) && k < |located|
    ensures !Reached(located, k, located[k].index)
  {
  }

  /** Strips superseded pages, oldest summary first, until the budget is met. */
  method PassOne(lib: Lib, ghost reliable: bool, decode: Decoder, ms: array<Message>, ghost was: seq<Message>,
                 source: seq<Located>, latest: Newest, initial: int)
    returns (located: seq<Located>, total: int, ghost reached: nat)
    requires RoundTrip(lib, decode) && (reliable ==> NeverFails(lib))
    requires was == ms[..] && Witnessed(decode, was, latest) && Dominates(decode, was, latest, |was|)
    requires DistinctIndices(source) && Pristine(decode, was, source, 0)
    modifies ms
    ensures AllRewritten(decode, was, ms[..]) && NewestKept(decode, was, ms[..])
    ensures SameIndices(source, located) && AllTrack(reliable, decode, was, ms[..], located)
    ensures total - initial == Bytes(ms[..]) - Bytes(was)
    ensures PassedOne(reliable, decode, was, ms[..], source, initial, reached)
  {
    located, total, reached := source, initial, 0;
    OneStarts(reliable, decode, was, source, initial);
    for k := 0 to |source|
      invariant reached == k && |located| == |source|
      invariant OneUpTo(reliable, decode, was, ms[..], source, located, initial, total, k)
    {
      if total <= BUDGET_BYTES {
        break;
      }
      located, total := StripNext(lib, reliable, decode, ms, was, source, located, latest, k, initial, total);
      reached := k + 1;
    }
    OneStops(reliable, decode, was, ms[..], source, located, initial, total, reached);
  }

  lemma OneStops(reliable: bool, decode: Decoder, was: seq<Message>, now: seq<Message>, source: seq<Located>,
                 located: seq<Located>, initial: int, total: int, k: nat)
    requires OneUpTo(reliable, decode, was, now, source, located, initial, total, k)
    requires k == |source| || total <= BUDGET_BYTES
    ensures AllRewritten(decode, was, now) && NewestKept(decode, was, now) && SameIndices(source, located)
    ensures AllTrack(reliable, decode, was, now, located) && total - initial == Bytes(now) - Bytes(was)
    ensures PassedOne(reliable, decode, was, now, source, initial, k)
  {
  }

  lemma NewestStep(decode: Decoder, was: seq<Message>, before: seq<Message>, now: seq<Message>, index: nat,
                   s: ToolSummary, written: ToolSummary)
    requires NewestKept(decode, was, before) && |now| == |before| && index < |was|
    requires IsToolSummary(decode, was[index]) && SameBody(s, written)
    requires OnlySuperseded(decode, was, decode(was[index].content).value, s)
    requires forall i :: 0 <= i < |now| && i != index ==> now[i] == before[i]
    requires decode(now[index].content) == Some(written) || now[index] == before[index]
    ensures NewestKept(decode, was, now)
  {
    forall i | 0 <= i < |was| && IsToolSummary(decode, was[i])
      ensures decode(now[i].content).Some?
      ensures OnlySuperseded(decode, was, decode(was[i].content).value, decode(now[i].content).value)
    {
      if i != index || now[index] == before[index] {
        assert now[i] == before[i];
      }
    }
  }

  ghost predicate ReferencesUpTo(located: seq<Located>, n: nat) {
    n <= |located| && forall j :: 0 <= j < n ==> located[j].summary.referenceOnly
  }

  lemma ReferencesNext(located: seq<Located>, k: nat)
    requires k < |located| && ReferencesUpTo(located, k) && located[k].summary.referenceOnly
    ensures ReferencesUpTo(located, k + 1)
  {
  }

  lemma SameIndicesTwice(a: seq<Located>, b: seq<Located>, c: seq<Located>)
    requires SameIndices(a, b) && SameIndices(b, c)
    ensures SameIndices(a, c)
  {
  }

  /** A summary that keeps no page's details. */
  predicate OnlyReferences(s: ToolSummary) {
    s.referenceOnly && forall p :: 0 <= p < |s.pages| ==> s.pages[p].nodes == [] && s.pages[p].actions == []
  }

  method ReferenceOne(lib: Lib, ghost reliable: bool, decode: Decoder, ms: array<Message>,
                      ghost was: seq<Message>, located: seq<Located>, k: nat, total: int)
    returns (located': seq<Located>, total': int)
    requires RoundTrip(lib, decode) && (reliable ==> NeverFails(lib))
    requires AllRewritten(decode, was, ms[..]) && k < |located|
    requires AllTrack(reliable, decode, was, ms[..], located) && DistinctIndices(located) && ReferencesUpTo(located, k)
    modifies ms
    ensures AllRewritten(decode, was, ms[..])
    ensures AllTrack(reliable, decode, was, ms[..], located') && DistinctIndices(located')
    ensures SameIndices(located, located') && ReferencesUpTo(located', k + 1)
    ensures forall j :: 0 <= j < |located| && j != k ==> located'[j] == located[j]
    ensures total' - total == Bytes(ms[..]) - Bytes(old(ms[..]))
    ensures forall i :: 0 <= i < ms.Length && i != located[k].index ==> ms[i] == old(ms[i])
    ensures located[k].index < ms.Length
    ensures reliable ==> decode(ms[located[k].index].content).Some?
                         && OnlyReferences(decode(ms[located[k].index].content).value)
  {
    var item := located[k];
    assert Tracks(reliable, decode, was, ms[..], item);
    ghost var before := ms[..];
    var stripped := ReferenceSummary(item.summary);
    ShrunkTwice(decode(was[item.index].content).value, item.summary, stripped);
    var written;
    written, total' := Write(lib, decode, ms, was, item.index, stripped, total);
    BareReferences(stripped, written);
    located' := located[k := Located(item.index, written)];
    TracksOthers(reliable, decode, was, before, ms[..], located, k, located'[k]);
  }

  method ReferenceSummary(source: ToolSummary) returns (s: ToolSummary)
    ensures AllReferenced(source, s, "aggregate_budget") && Shrunk(source, s) && s.referenceOnly && AllBare(s.pages)
  {
    var cell := new Cell(source);
    cell.MakeSummaryReferenceOnly("aggregate_budget");
    s := cell.s;
  }

  lemma BareReferences(s: ToolSummary, written: ToolSummary)
    requires s.referenceOnly && AllBare(s.pages) && SameBody(s, written)
    ensures OnlyReferences(written)
  {
    forall p | 0 <= p < |s.pages| ensures s.pages[p].nodes == [] && s.pages[p].actions == [] {
      assert Bare(s.pages[p]);
    }
  }

  /** What pass two does: the summaries it reaches keep only references, those that already
      did are left alone, and it reaches no summary once the budget is met. */
  ghost predicate PassedTwo(reliable: bool, decode: Decoder, was: seq<Message>, now: seq<Message>,
                            located: seq<Located>, initial: int, n: nat) {
    && StopsAt(was, now, located, initial, n)
    && forall k :: 0 <= k < n ==> MadeReference(reliable, decode, was, now, located[k].index)
  }

  ghost predicate MadeReference(reliable: bool, decode: Decoder, was: seq<Message>, now: seq<Message>, i: nat)
    requires i < |was| == |now|
  {
    reliable ==>
      && decode(was[i].content).Some? && decode(now[i].content).Some?
      && if decode(was[i].content).value.referenceOnly then now[i] == was[i]
         else OnlyReferences(decode(now[i].content).value)
  }

  lemma MadeFrame(reliable: bool, decode: Decoder, was: seq<Message>, before: seq<Message>, now: seq<Message>,
                  located: seq<Located>, n: nat)
    requires |before| == |now| == |was| && n < |located| && Inside(located, |was|) && DistinctIndices(located)
    requires forall k :: 0 <= k < n ==> MadeReference(reliable, decode, was, before, located[k].index)
    requires MadeReference(reliable, decode, was, now, located[n].index)
    requires forall i :: 0 <= i < |now| && i != located[n].index ==> now[i] == before[i]
    ensures forall k :: 0 <= k <= n ==> MadeReference(reliable, decode, was, now, located[k].index)
  {
    forall k | 0 <= k < n ensures MadeReference(reliable, decode, was, now, located[k].index) {
      assert MadeReference(reliable, decode, was, before, located[k].index);
    }
  }

  /** What the loop knows before round `k`: `mid` is the transcript when the pass began. */
  ghost predicate TwoUpTo(reliable: bool, decode: Decoder, was: seq<Message>, mid: seq<Message>, now: seq<Message>,
                          source: seq<Located>, located: seq<Located>, initial: int, total: int, k: nat) {
    && |was| == |mid| == |now|
    && AllRewritten(decode, was, now) && SameIndices(source, located) && DistinctIndices(located)
    && AllTrack(reliable, decode, was, now, located) && ReferencesUpTo(located, k)
    && (forall j :: k <= j < |located| ==> located[j] == source[j])
    && OverBudget(mid, now, source, initial, k) && total == initial + Spent(mid, now, source, k)
    && total - initial == Bytes(now) - Bytes(mid)
    && forall j :: 0 <= j < k ==> MadeReference(reliable, decode, mid, now, source[j].index)
  }

  lemma TwoStarts(reliable: bool, decode: Decoder, was: seq<Message>, mid: seq<Message>, source: seq<Located>,
                  initial: int)
    requires AllRewritten(decode, was, mid) && DistinctIndices(source) && AllTrack(reliable, decode, was, mid, source)
    ensures TwoUpTo(reliable, decode, was, mid, mid, source, source, initial, initial, 0)
  {
    TrackedInside(reliable, decode, was, mid, source);
  }

  lemma TwoGrows(reliable: bool, decode: Decoder, was: seq<Message>, mid: seq<Message>, before: seq<Message>,
                 now: seq<Message>, source: seq<Located>, located: seq<Located>, located': seq<Located>, initial: int,
                 total: int, total': int, k: nat)
    requires TwoUpTo(reliable, decode, was, mid, before, source, located, initial, total, k)
    requires k < |source| && total > BUDGET_BYTES && |now| == |was| && DistinctIndices(source)
    requires AllRewritten(decode, was, now) && AllTrack(reliable, decode, was, now, located')
    requires SameIndices(located, located') && DistinctIndices(located') && ReferencesUpTo(located', k + 1)
    requires forall j :: 0 <= j < |located| && j != k ==> located'[j] == located[j]
    requires total' - total == Bytes(now) - Bytes(before)
    requires forall i :: 0 <= i < |now| && i != source[k].index ==> now[i] == before[i]
    requires source[k].index < |was| && MadeReference(reliable, decode, mid, now, source[k].index)
    ensures TwoUpTo(reliable, decode, was, mid, now, source, located', initial, total', k + 1)
  {
    var i := source[k].index;
    SameIndicesTwice(source, located, located');
    BytesUpdate(before, i, now[i]);
    assert now == before[i := now[i]];
    PassGrows(mid, before, now, source, initial, k);
    MadeFrame(reliable, decode, mid, before, now, source, k);
  }

  /** Round `k` finds the summary of the message as pass one left it. */
  lemma TwoFinds(reliable: bool, decode: Decoder, was: seq<Message>, mid: seq<Message>, now: seq<Message>,
                 source: seq<Located>, located: seq<Located>, initial: int, total: int, k: nat)
    requires TwoUpTo(reliable, decode, was, mid, now, source, located, initial, total, k)
    requires k < |source| && DistinctIndices(source) && AllTrack(reliable, decode, was, mid, source)
    ensures source[k].index < |was| && now[source[k].index] == mid[source[k].index] && located[k] == source[k]
    ensures reliable ==> decode(mid[source[k].index].content) == Some(source[k].summary)
  {
    assert Tracks(reliable, decode, was, mid, source[k]);
    NotReached(source, k);
    Untouched(mid, now, source, initial, k);
  }

  /** One round of pass two. */
  method ReferenceNext(lib: Lib, ghost reliable: bool, decode: Decoder, ms: array<Message>, ghost was: seq<Message>,
                       ghost mid: seq<Message>, ghost source: seq<Located>, located: seq<Located>, k: nat,
                       ghost initial: int, total: int)
    returns (located': seq<Located>, total': int)
    requires RoundTrip(lib, decode) && (reliable ==> NeverFails(lib)) && DistinctIndices(source) && k < |located|
    requires AllTrack(reliable, decode, was, mid, source)
    requires TwoUpTo(reliable, decode, was, mid, ms[..], source, located, initial, total, k) && total > BUDGET_BYTES
    modifies ms
    ensures TwoUpTo(reliable, decode, was, mid, ms[..], source, located', initial, total', k + 1)
  {
    ghost var before := ms[..];
    TwoFinds(reliable, decode, was, mid, ms[..], source, located, initial, total, k);
    if located[k].summary.referenceOnly {
      located', total' := located, total;
      ReferencesNext(located, k);
    } else {
      located', total' := ReferenceOne(lib, reliable, decode, ms, was, located, k, total);
    }
    TwoGrows(reliable, decode, was, mid, before, ms[..], source, located, located', initial, total, total', k);
  }

  /** The loop of pass two. */
  method ReferenceUntil(lib: Lib, ghost reliable: bool, decode: Decoder, ms: array<Message>, ghost was: seq<Message>,
                        ghost mid: seq<Message>, source: seq<Located>, initial: int)
    returns (located: seq<Located>, total: int, ghost reached: nat)
    requires RoundTrip(lib, decode) && (reliable ==> NeverFails(lib)) && DistinctIndices(source)
    requires AllTrack(reliable, decode, was, mid, source)
    requires TwoUpTo(reliable, decode, was, mid, ms[..], source, source, initial, initial, 0)
    modifies ms
    ensures TwoUpTo(reliable, decode, was, mid, ms[..], source, located, initial, total, reached)
    ensures reached == |source| || total <= BUDGET_BYTES
  {
    located, total, reached := source, initial, 0;
    for k := 0 to |source|
      invariant reached == k && |located| == |source|
      invariant TwoUpTo(reliable, decode, was, mid, ms[..], source, located, initial, total, k)
    {
      if total <= BUDGET_BYTES {
        break;
      }
      located, total := ReferenceNext(lib, reliable, decode, ms, was, mid, source, located, k, initial, total);
      reached := k + 1;
    }
  }

  /** Makes whole summaries reference-only, oldest first, until the budget is met. */
  method PassTwo(lib: Lib, ghost reliable: bool, decode: Decoder, ms: array<Message>, ghost was: seq<Message>,
                 source: seq<Located>, initial: int)
    returns (located: seq<Located>, total: int, ghost reached: nat)
    requires RoundTrip(lib, decode) && (reliable ==> NeverFails(lib))
    requires AllRewritten(decode, was, ms[..]) && DistinctIndices(source)
    requires AllTrack(reliable, decode, was, ms[..], source)
    modifies ms
    ensures AllRewritten(decode, was, ms[..])
    ensures SameIndices(source, located) && AllTrack(reliable, decode, was, ms[..], located)
    ensures total - initial == Bytes(ms[..]) - Bytes(old(ms[..]))
    ensures total <= BUDGET_BYTES || ReferencesUpTo(located, |located|)
    ensures PassedTwo(reliable, decode, old(ms[..]), ms[..], source, initial, reached)
  {
    ghost var mid := ms[..];
    TwoStarts(reliable, decode, was, mid, source, initial);
    located, total, reached := ReferenceUntil(lib, reliable, decode, ms, was, mid, source, initial);
    TwoStops(reliable, decode, was, mid, ms[..], source, located, initial, total, reached);
  }

  lemma TwoStops(reliable: bool, decode: Decoder, was: seq<Message>, mid: seq<Message>, now: seq<Message>,
                 source: seq<Located>, located: seq<Located>, initial: int, total: int, k: nat)
    requires TwoUpTo(reliable, decode, was, mid, now, source, located, initial, total, k)
    requires k == |source| || total <= BUDGET_BYTES
    ensures AllRewritten(decode, was, now) && SameIndices(source, located)
    ensures AllTrack(reliable, decode, was, now, located) && total - initial == Bytes(now) - Bytes(mid)
    ensures total <= BUDGET_BYTES || ReferencesUpTo(located, |located|)
    ensures PassedTwo(reliable, decode, mid, now, source, initial, k)
  {
  }

  lemma TrackedInside(reliable: bool, decode: Decoder, was: seq<Message>, now: seq<Message>, located: seq<Located>)
    requires AllTrack(reliable, decode, was, now, located)
    ensures Inside(located, |was|)
  {
    forall k | 0 <= k < |located| ensures located[k].index < |was| {
      assert Tracks(reliable, decode, was, now, located[k]);
    }
  }

  ghost predicate AllReferences(decode: Decoder, ms: seq<Message>) {
    forall i :: 0 <= i < |ms| && IsToolSummary(decode, ms[i]) ==> decode(ms[i].content).value.referenceOnly
  }

  /** A page that no later event shows is as it was. */
  ghost predicate NewestStay(decode: Decoder, was: seq<Message>, now: seq<Message>) {
    && |now| == |was|
    && forall i, p :: PageAt(decode, was, i, p) ==>
         Outdated(decode, was, decode(was[i].content).value.eventSeq, decode(was[i].content).value.pages[p])
         || SamePage(decode, was[i], now[i], p)
  }

  predicate SamePage(decode: Decoder, m: Message, m': Message, p: nat) {
    && decode(m.content).Some? && decode(m'.content).Some?
    && p < |decode(m.content).value.pages| && p < |decode(m'.content).value.pages|
    && decode(m'.content).value.pages[p] == decode(m.content).value.pages[p]
  }

  lemma PassOneStays(reliable: bool, decode: Decoder, was: seq<Message>, now: seq<Message>, located: seq<Located>,
                     initial: int, n: nat)
    requires PassedOne(reliable, decode, was, now, located, initial, n)
    ensures NewestStay(decode, was, now)
  {
    forall i, p | PageAt(decode, was, i, p)
      ensures Outdated(decode, was, decode(was[i].content).value.eventSeq, decode(was[i].content).value.pages[p])
              || SamePage(decode, was[i], now[i], p)
    {
      if Reached(located, n, i) {
        var k :| 0 <= k < n && located[k].index == i;
        assert OutdatedStripped(reliable, decode, was, now, located[k].index);
      } else {
        assert now[i] == was[i];
      }
    }
  }

  lemma FirstTurn(was: seq<Message>, now: seq<Message>, located: seq<Located>, initial: int, n: nat)
    requires OverBudget(was, now, located, initial, n)
    ensures n > 0 ==> initial > 48 * 1024
  {
    assert Spent(was, now, located, 0) == 0;
  }

  lemma PassTwoIdle(reliable: bool, decode: Decoder, mid: seq<Message>, now: seq<Message>, located: seq<Located>,
                    initial: int, n: nat)
    requires PassedTwo(reliable, decode, mid, now, located, initial, n) && initial <= 48 * 1024
    ensures now == mid
  {
    FirstTurn(mid, now, located, initial, n);
    forall i | 0 <= i < |mid| ensures now[i] == mid[i] {
      assert !Reached(located, n, i);
    }
  }

  lemma PassedTwoSame(reliable: bool, decode: Decoder, mid: seq<Message>, now: seq<Message>, x: seq<Located>,
                      y: seq<Located>, initial: int, n: nat)
    requires PassedTwo(reliable, decode, mid, now, x, initial, n) && SameIndices(x, y)
    ensures PassedTwo(reliable, decode, mid, now, y, initial, n)
  {
    assert Inside(y, |mid|);
    forall k: nat | k <= |x| ensures Spent(mid, now, x, k) == Spent(mid, now, y, k) {
      SpentFrame(mid, now, now, x, y, k);
    }
    forall i: nat | Reached(x, n, i) ensures Reached(y, n, i) {
      var k :| 0 <= k < n && x[k].index == i;
      assert y[k].index == i;
    }
    forall k | 0 <= k < n ensures MadeReference(reliable, decode, mid, now, y[k].index) {
      assert MadeReference(reliable, decode, mid, now, x[k].index);
    }
  }

  /** The whole compaction. The running total is the real exploration bytes plus the size
      change of the other summaries it rewrote; on exit it is within the budget, or every
      tool summary is reference-only. Nothing more is destroyed than that takes: `mid` is
      the transcript between the passes, which reach the first `one` and the first `two` of
      the located summaries, each only while the budget was still exceeded. */
  method CompactExplorationTranscript(lib: Lib, decode: Decoder, ms: array<Message>)
    returns (total: int, ghost mid: seq<Message>, ghost located: seq<Located>, ghost one: nat, ghost two: nat)
    requires RoundTrip(lib, decode)
    modifies ms
    ensures AllRewritten(decode, old(ms[..]), ms[..])
    ensures ExplorationBytes(decode, old(ms[..])) <= 48 * 1024 ==> ms[..] == old(ms[..])
    ensures total == ExplorationBytes(decode, ms[..]) + OtherBytes(decode, ms[..]) - OtherBytes(decode, old(ms[..]))
    ensures total <= 48 * 1024 || (NeverFails(lib) ==> AllReferences(decode, ms[..]))
    ensures ExplorationBytes(decode, old(ms[..])) > 48 * 1024 ==>
              var initial := ExplorationBytes(decode, old(ms[..]));
              && Locates(decode, old(ms[..]), located)
              && PassedOne(NeverFails(lib), decode, old(ms[..]), mid, located, initial, one)
              && PassedTwo(NeverFails(lib), decode, mid, ms[..], located, initial + Bytes(mid) - Bytes(old(ms[..])), two)
    ensures NewestStay(decode, old(ms[..]), mid)
    ensures ExplorationBytes(decode, old(ms[..])) + Bytes(mid) - Bytes(old(ms[..])) <= 48 * 1024 ==> ms[..] == mid
  {
    ghost var was := ms[..];
    mid, located, one, two := was, [], 0, 0;
    RewrittenSelf(decode, was);
    BytesSplit(decode, was);
    total := ExplorationSummaryBytes(decode, ms);
    if total <= BUDGET_BYTES {
      return;
    }
    var items, latest := Locate(decode, ms);
    located := items;
    ghost var reliable := NeverFails(lib);
    ghost var initial := total;
    items, total, one := PassOne(lib, reliable, decode, ms, was, items, latest, total);
    mid := ms[..];
    PassOneStays(reliable, decode, was, mid, located, initial, one);
    ghost var stripped, between := items, total;
    items, total, two := PassTwo(lib, reliable, decode, ms, was, items, total);
    PassedTwoSame(reliable, decode, mid, ms[..], stripped, located, between, two);
    if between <= 48 * 1024 {
      PassTwoIdle(reliable, decode, mid, ms[..], located, between, two);
    }
    BytesSplit(decode, ms[..]);
    SameIndicesTwice(located, stripped, items);
    if total > BUDGET_BYTES && reliable {
      ReferencesAll(decode, was, ms[..], located, items);
    }
  }

  lemma ReferencesAll(decode: Decoder, was: seq<Message>, now: seq<Message>, source: seq<Located>,
                      located: seq<Located>)
    requires Locates(decode, was, source) && SameIndices(source, located)
    requires AllTrack(true, decode, was, now, located) && AllRewritten(decode, was, now)
    requires ReferencesUpTo(located, |located|)
    ensures AllReferences(decode, now)
  {
    forall i | 0 <= i < |now| && IsToolSummary(decode, now[i]) ensures decode(now[i].content).value.referenceOnly {
      assert Rewritten(decode, was[i], now[i]);
      assert IsToolSummary(decode, was[i]);
      var k :| 0 <= k < |source| && source[k].index == i;
      assert Tracks(true, decode, was, now, located[k]);
    }
  }
}
