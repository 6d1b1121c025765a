/** Bounded tool summaries (internal/agent/tool_result.go): details are dropped until the
    encoding fits, and every drop is booked in an omission ledger. */
module Summary {
  import opened Wrappers

  const TARGET_BYTES := 16 * 1024
  const HARD_LIMIT_BYTES := 32 * 1024

  datatype Omitted = Omitted(pages: int, actions: int, nodes: int, evidence: int, selectors: int, candidates: int)

  datatype Node = Node(detail: string, selectors: seq<string>)

  datatype Action = Action(detail: string, evidence: seq<Node>, omittedEvidence: int)

  datatype Page = Page(
    url: string, pageState: string, status: string, failed: bool, detail: string,
    nodes: seq<Node>, actions: seq<Action>, omitted: Omitted, referenceOnly: bool)

  datatype PlanRef = PlanRef(id: string, version: int)

  datatype ToolSummary = ToolSummary(
    tool: string, eventSeq: int, sha: string, success: Option<bool>, taskPlan: Option<PlanRef>,
    observation: string, detail: string, pages: seq<Page>,
    truncated: bool, reason: string, summaryBytes: int, omitted: Omitted, referenceOnly: bool)

  /** json.Marshal (None is its error), SHA-256, and the structured observation that an
      exploration summary is given anew before every encoding. */
  datatype Lib = Lib(
    marshal: ToolSummary -> Option<string>, sha: string -> string, observe: (seq<Page>, string, int) -> string)

  predicate IsExplorationTool(tool: string) { tool == "explore_page" || tool == "explore_flow" }

  // --- encodeSummary --------------------------------------------------------------

  function Observed(lib: Lib, s: ToolSummary): ToolSummary {
    var cleared := s.(sha := "");
    if IsExplorationTool(s.tool) then cleared.(observation := lib.observe(s.pages, s.detail, s.eventSeq)) else cleared
  }

  /** One of the three size passes; 84 bytes are kept for the signature. */
  function Sized(lib: Lib, s: ToolSummary): ToolSummary {
    var encoded := lib.marshal(s);
    if encoded.None? then s else s.(summaryBytes := |encoded.value| + 84)
  }

  function Sha(lib: Lib, s: ToolSummary): string {
    var encoded := lib.marshal(s.(sha := ""));
    if encoded.None? then "" else lib.sha(encoded.value)
  }

  /** The summary as encodeSummary leaves it when no marshalling fails. */
  function Signed(lib: Lib, s: ToolSummary): ToolSummary {
    var sized := Sized(lib, Sized(lib, Sized(lib, Observed(lib, s))));
    var signed := sized.(sha := Sha(lib, sized));
    var encoded := lib.marshal(signed);
    var final := if encoded.None? then signed else signed.(summaryBytes := |encoded.value|);
    final.(sha := Sha(lib, final))
  }

  /** The signature is the hash of the summary without it, and an exploration summary shows
      the observation of its own pages. */
  predicate Attested(lib: Lib, s: ToolSummary) {
    && lib.marshal(s.(sha := "")).Some? && s.sha == lib.sha(lib.marshal(s.(sha := "")).value)
    && (IsExplorationTool(s.tool) ==> s.observation == lib.observe(s.pages, s.detail, s.eventSeq))
  }

  /** What an encoding that leaves `t` and answers `r` has done: nothing but seal the summary,
      and failed only if marshalling failed. */
  ghost predicate EncodedAs(lib: Lib, s: ToolSummary, t: ToolSummary, r: Option<string>) {
    && SameBody(s, t)
    && (r.Some? ==> lib.marshal(t) == r && Attested(lib, t))
    && (r.None? ==> exists u :: SameBody(s, u) && lib.marshal(u).None?)
  }

  predicate Encodes(lib: Lib, s: ToolSummary) {
    var first := Observed(lib, s);
    var second := Sized(lib, first);
    var third := Sized(lib, second);
    var sized := Sized(lib, third);
    var signed := sized.(sha := Sha(lib, sized));
    && lib.marshal(first).Some? && lib.marshal(second).Some? && lib.marshal(third).Some?
    && lib.marshal(sized).Some? && lib.marshal(signed).Some?
    && lib.marshal(Signed(lib, s).(sha := "")).Some? && lib.marshal(Signed(lib, s)).Some?
  }

  function Encode(lib: Lib, s: ToolSummary): Option<string> {
    if Encodes(lib, s) then lib.marshal(Signed(lib, s)) else None
  }

  // --- Counting -------------------------------------------------------------------

  function Nodes(pages: seq<Page>): nat {
    if pages == [] then 0 else Nodes(pages[..|pages| - 1]) + |pages[|pages| - 1].nodes|
  }

  function ActionEvidence(actions: seq<Action>): nat {
    if actions == [] then 0 else ActionEvidence(actions[..|actions| - 1]) + |actions[|actions| - 1].evidence|
  }

  function Evidence(pages: seq<Page>): nat {
    if pages == [] then 0 else Evidence(pages[..|pages| - 1]) + ActionEvidence(pages[|pages| - 1].actions)
  }

  function Actions(pages: seq<Page>): nat {
    if pages == [] then 0 else Actions(pages[..|pages| - 1]) + |pages[|pages| - 1].actions|
  }

  function Weight(s: ToolSummary): nat { Nodes(s.pages) + Evidence(s.pages) + Actions(s.pages) }

  /** What is kept plus what is booked as omitted has not changed. */
  predicate Conserved(s: ToolSummary, t: ToolSummary) {
    && Nodes(t.pages) + t.omitted.nodes == Nodes(s.pages) + s.omitted.nodes
    && Evidence(t.pages) + t.omitted.evidence == Evidence(s.pages) + s.omitted.evidence
    && Actions(t.pages) + t.omitted.actions == Actions(s.pages) + s.omitted.actions
    && |t.pages| + t.omitted.pages == |s.pages| + s.omitted.pages
  }

  /** Each remaining page keeps a prefix of its nodes and actions, and its own ledger
      balances too. */
  predicate PageKept(p: Page, q: Page) {
    && q.url == p.url && q.pageState == p.pageState && q.failed == p.failed && q.detail == p.detail
    && q.nodes <= p.nodes && |q.actions| <= |p.actions|
    && |q.nodes| + q.omitted.nodes == |p.nodes| + p.omitted.nodes
    && |q.actions| + q.omitted.actions == |p.actions| + p.omitted.actions
    && ActionEvidence(q.actions) + q.omitted.evidence == ActionEvidence(p.actions) + p.omitted.evidence
    && forall i :: 0 <= i < |q.actions| ==> ActionKept(p.actions[i], q.actions[i])
  }

  predicate ActionKept(a: Action, b: Action) {
    && b.detail == a.detail && b.evidence <= a.evidence
    && |b.evidence| + b.omittedEvidence == |a.evidence| + a.omittedEvidence
  }

  predicate PagesKept(s: seq<Page>, t: seq<Page>) {
    |t| <= |s| && forall i :: 0 <= i < |t| ==> PageKept(s[i], t[i])
  }

  /** Nothing outside pages, ledger and encoding fields changes. */
  predicate SameIdentity(s: ToolSummary, t: ToolSummary) {
    && t.tool == s.tool && t.eventSeq == s.eventSeq && t.success == s.success
    && t.taskPlan == s.taskPlan && t.detail == s.detail
  }

  /** Only the encoding's own fields differ: hash, size and observation. */
  predicate SameBody(s: ToolSummary, t: ToolSummary) {
    t == s.(sha := t.sha, summaryBytes := t.summaryBytes, observation := t.observation)
  }

  lemma SizedBody(lib: Lib, s: ToolSummary)
    ensures SameBody(s, Sized(lib, s)) && SameBody(s, Observed(lib, s))
  {
  }

  lemma SignedBody(lib: Lib, s: ToolSummary)
    ensures SameBody(s, Signed(lib, s))
  {
    var first := Observed(lib, s);
    SizedBody(lib, s);
    SizedBody(lib, first);
    SizedBody(lib, Sized(lib, first));
    SizedBody(lib, Sized(lib, Sized(lib, first)));
  }

  // --- omitOneSummaryDetail -------------------------------------------------------

  /** A quarter, and at least one. */
  function OmitCount(n: nat): (r: nat)
    ensures n > 0 ==> 1 <= r <= n
    ensures n < 8 ==> r == 1
    ensures n >= 8 ==> 4 * r <= n < 4 * r + 4
  {
    if n / 4 > 1 then n / 4 else 1
  }

  /** The first page with the most nodes, or -1 when no page has any. */
  predicate MostNodes(pages: seq<Page>, index: int) {
    && -1 <= index < |pages|
    && (index == -1 ==> forall i :: 0 <= i < |pages| ==> pages[i].nodes == [])
    && (index >= 0 ==>
          && |pages[index].nodes| > 0
          && (forall i :: 0 <= i < |pages| ==> |pages[i].nodes| <= |pages[index].nodes|)
          && forall i :: 0 <= i < index ==> |pages[i].nodes| < |pages[index].nodes|)
  }

  lemma SplitPages(pages: seq<Page>, k: nat, p: Page)
    requires k < |pages|
    ensures Nodes(pages[k := p]) + |pages[k].nodes| == Nodes(pages) + |p.nodes|
    ensures Actions(pages[k := p]) + |pages[k].actions| == Actions(pages) + |p.actions|
    ensures Evidence(pages[k := p]) + ActionEvidence(pages[k].actions) == Evidence(pages) + ActionEvidence(p.actions)
  {
    var n := |pages| - 1;
    if k < n {
      SplitPages(pages[..n], k, p);
      assert pages[k := p][..n] == pages[..n][k := p];
    } else {
      assert pages[k := p][..n] == pages[..n];
    }
  }

  lemma SplitActions(actions: seq<Action>, k: nat, a: Action)
    requires k < |actions|
    ensures ActionEvidence(actions[k := a]) + |actions[k].evidence| == ActionEvidence(actions) + |a.evidence|
  {
    var n := |actions| - 1;
    if k < n {
      SplitActions(actions[..n], k, a);
      assert actions[k := a][..n] == actions[..n][k := a];
    } else {
      assert actions[k := a][..n] == actions[..n];
    }
  }

  lemma NoEvidence(actions: seq<Action>, n: nat)
    requires n <= |actions| && forall i :: 0 <= i < |actions| ==> actions[i].evidence == []
    ensures ActionEvidence(actions[..n]) == 0 && ActionEvidence(actions) == 0
  {
    if actions != [] {
      NoEvidence(actions[..|actions| - 1], if n < |actions| then n else |actions| - 1);
      if n < |actions| {
        assert actions[..|actions| - 1][..n] == actions[..n];
      } else {
        assert actions[..n] == actions;
      }
    }
  }

  function AddOmissions(target: Omitted, added: Omitted): Omitted {
    target.(pages := target.pages + added.pages, actions := target.actions + added.actions,
            nodes := target.nodes + added.nodes, evidence := target.evidence + added.evidence,
            selectors := target.selectors + added.selectors)
  }

  function NodeSelectors(nodes: seq<Node>): nat {
    if nodes == [] then 0 else NodeSelectors(nodes[..|nodes| - 1]) + |nodes[|nodes| - 1].selectors|
  }

  function ActionSelectors(actions: seq<Action>): nat {
    if actions == [] then 0
    else ActionSelectors(actions[..|actions| - 1]) + NodeSelectors(actions[|actions| - 1].evidence)
  }

  function Selectors(pages: seq<Page>): nat {
    if pages == [] then 0
    else
      var last := pages[|pages| - 1];
      Selectors(pages[..|pages| - 1]) + NodeSelectors(last.nodes) + ActionSelectors(last.actions)
  }

  /** `q` is `p` reduced to a reference, and its ledger says what that cost. */
  predicate PageReferenced(p: Page, q: Page) {
    && q.nodes == [] && q.actions == [] && q.referenceOnly
    && q.url == p.url && q.pageState == p.pageState && q.failed == p.failed && q.detail == p.detail
    && q.status == (if p.status == "" && !p.failed then "referenced" else p.status)
    && q.omitted.pages == p.omitted.pages && q.omitted.candidates == p.omitted.candidates
    && q.omitted.nodes == p.omitted.nodes + |p.nodes|
    && q.omitted.actions == p.omitted.actions + |p.actions|
    && q.omitted.evidence == p.omitted.evidence + ActionEvidence(p.actions)
    && q.omitted.selectors == p.omitted.selectors + NodeSelectors(p.nodes) + ActionSelectors(p.actions)
  }

  /** `t` is `s` with every page reduced to a reference, and the ledger grown by all of it. */
  predicate AllReferenced(s: ToolSummary, t: ToolSummary, reason: string) {
    && t.referenceOnly && t.truncated && t.reason == reason
    && t == s.(pages := t.pages, omitted := t.omitted, referenceOnly := true, truncated := true, reason := reason)
    && |t.pages| == |s.pages|
    && (forall i :: 0 <= i < |t.pages| ==> PageReferenced(s.pages[i], t.pages[i]))
    && t.omitted.pages == s.omitted.pages && t.omitted.candidates == s.omitted.candidates
    && t.omitted.nodes == s.omitted.nodes + Nodes(s.pages)
    && t.omitted.actions == s.omitted.actions + Actions(s.pages)
    && t.omitted.evidence == s.omitted.evidence + Evidence(s.pages)
    && t.omitted.selectors == s.omitted.selectors + Selectors(s.pages)
  }

  /** makePageReferenceOnly: the page without nodes and actions, and what that omits. */
  function Dropped(page: Page): Omitted {
    Omitted(0, |page.actions|, |page.nodes|, ActionEvidence(page.actions),
            NodeSelectors(page.nodes) + ActionSelectors(page.actions), 0)
  }

  function Stripped(page: Page): Page {
    page.(nodes := [], actions := [], referenceOnly := true, omitted := AddOmissions(page.omitted, Dropped(page)),
          status := if !page.failed && page.status == "" then "referenced" else page.status)
  }

  lemma StrippedKept(page: Page)
    ensures PageKept(page, Stripped(page)) && PageReferenced(page, Stripped(page)) && Bare(Stripped(page))
  {
  }

  method MakePageReferenceOnly(page: Page) returns (stripped: Page, omitted: Omitted)
    ensures stripped == Stripped(page) && omitted == Dropped(page)
    ensures PageReferenced(page, stripped)
  {
    var selectors, evidence := 0, 0;
    for n := 0 to |page.nodes|
      invariant selectors == NodeSelectors(page.nodes[..n])
    {
      assert page.nodes[..n + 1][..n] == page.nodes[..n];
      selectors := selectors + |page.nodes[n].selectors|;
    }
    assert page.nodes[..|page.nodes|] == page.nodes;
    for n := 0 to |page.actions|
      invariant evidence == ActionEvidence(page.actions[..n])
      invariant selectors == NodeSelectors(page.nodes) + ActionSelectors(page.actions[..n])
    {
      assert page.actions[..n + 1][..n] == page.actions[..n];
      var items := page.actions[n].evidence;
      evidence := evidence + |items|;
      var found := 0;
      for k := 0 to |items|
        invariant found == NodeSelectors(items[..k])
      {
        assert items[..k + 1][..k] == items[..k];
        found := found + |items[k].selectors|;
      }
      assert items[..|items|] == items;
      selectors := selectors + found;
    }
    assert page.actions[..|page.actions|] == page.actions;
    omitted := Omitted(0, |page.actions|, |page.nodes|, evidence, selectors, 0);
    stripped := page.(nodes := [], actions := [], referenceOnly := true, omitted := AddOmissions(page.omitted, omitted),
                      status := if !page.failed && page.status == "" then "referenced" else page.status);
  }

  /** The ledger after the first `n` pages. */
  predicate Booked(s: ToolSummary, omitted: Omitted, n: nat)
    requires n <= |s.pages|
  {
    omitted == s.omitted.(nodes := s.omitted.nodes + Nodes(s.pages[..n]),
                          actions := s.omitted.actions + Actions(s.pages[..n]),
                          evidence := s.omitted.evidence + Evidence(s.pages[..n]),
                          selectors := s.omitted.selectors + Selectors(s.pages[..n]))
  }

  lemma BookedNext(s: ToolSummary, omitted: Omitted, n: nat)
    requires n < |s.pages| && Booked(s, omitted, n)
    ensures Booked(s, AddOmissions(omitted, Dropped(s.pages[n])), n + 1)
  {
    assert s.pages[..n + 1][..n] == s.pages[..n];
  }

  predicate Bare(p: Page) { p.nodes == [] && p.actions == [] }

  predicate AllBare(pages: seq<Page>) { forall i :: 0 <= i < |pages| ==> Bare(pages[i]) }

  lemma BareWeight(pages: seq<Page>)
    requires AllBare(pages)
    ensures Nodes(pages) == 0 && Evidence(pages) == 0 && Actions(pages) == 0
  {
    if pages != [] {
      BareWeight(pages[..|pages| - 1]);
    }
  }

  lemma KeptTwice(s: seq<Page>, t: seq<Page>, u: seq<Page>)
    requires PagesKept(s, t) && PagesKept(t, u)
    ensures PagesKept(s, u)
  {
    forall i | 0 <= i < |u| ensures PageKept(s[i], u[i]) {
      PageKeptTwice(s[i], t[i], u[i]);
    }
  }

  lemma PageKeptTwice(p: Page, q: Page, r: Page)
    requires PageKept(p, q) && PageKept(q, r)
    ensures PageKept(p, r)
  {
    forall i | 0 <= i < |r.actions| ensures ActionKept(p.actions[i], r.actions[i]) {
      assert ActionKept(p.actions[i], q.actions[i]) && ActionKept(q.actions[i], r.actions[i]);
    }
  }

  lemma KeptSelf(pages: seq<Page>)
    ensures PagesKept(pages, pages)
  {
    forall i | 0 <= i < |pages| ensures PageKept(pages[i], pages[i]) {
      assert forall k :: 0 <= k < |pages[i].actions| ==> ActionKept(pages[i].actions[k], pages[i].actions[k]);
    }
  }

  /** `t` is `s` with details omitted and everything omitted booked: identity, prefixes
      and ledgers; and a summary that lost anything says so. */
  ghost predicate Shrunk(s: ToolSummary, t: ToolSummary) {
    && SameIdentity(s, t) && Conserved(s, t) && PagesKept(s.pages, t.pages)
    && (t.omitted != s.omitted ==> t.truncated)
    && (s.truncated ==> t.truncated)
  }

  lemma ShrunkTwice(s: ToolSummary, t: ToolSummary, u: ToolSummary)
    requires Shrunk(s, t) && Shrunk(t, u)
    ensures Shrunk(s, u)
  {
    KeptTwice(s.pages, t.pages, u.pages);
  }

  lemma ShrunkBody(s: ToolSummary, t: ToolSummary)
    requires SameBody(s, t)
    ensures Shrunk(s, t)
  {
    KeptSelf(s.pages);
  }

  // --- One batch at a time ----------------------------------------------------------

  /** A batch of the nodes of page `p`: the first page with the most nodes loses its last
      quarter. */
  predicate LosesNodes(s: ToolSummary, t: ToolSummary, p: nat) {
    && p < |s.pages| && MostNodes(s.pages, p)
    && var page := s.pages[p];
    var lost := OmitCount(|page.nodes|);
    t == s.(pages := s.pages[p := page.(nodes := page.nodes[..|page.nodes| - lost],
                                        omitted := page.omitted.(nodes := page.omitted.nodes + lost))],
            omitted := s.omitted.(nodes := s.omitted.nodes + lost))
  }

  /** A batch of evidence, once no nodes are left: the last action with evidence loses its
      last quarter. */
  predicate LosesEvidence(s: ToolSummary, t: ToolSummary, p: nat, a: nat) {
    && NoNodes(s.pages) && LastEvidence(s.pages, p, a)
    && var page, action := s.pages[p], s.pages[p].actions[a];
    var lost := OmitCount(|action.evidence|);
    var left := action.(evidence := action.evidence[..|action.evidence| - lost],
                        omittedEvidence := action.omittedEvidence + lost);
    t == s.(pages := s.pages[p := page.(actions := page.actions[a := left],
                                        omitted := page.omitted.(evidence := page.omitted.evidence + lost))],
            omitted := s.omitted.(evidence := s.omitted.evidence + lost))
  }

  /** A batch of actions, once no nodes and no evidence are left: the last page that has any
      loses its last quarter. */
  predicate LosesActions(s: ToolSummary, t: ToolSummary, p: nat) {
    && NoNodes(s.pages) && NoPageEvidence(s.pages, 0) && LastActions(s.pages, p)
    && var page := s.pages[p];
    var lost := OmitCount(|page.actions|);
    t == s.(pages := s.pages[p := page.(actions := page.actions[..|page.actions| - lost],
                                        omitted := page.omitted.(actions := page.omitted.actions + lost))],
            omitted := s.omitted.(actions := s.omitted.actions + lost))
  }

  predicate NoNodes(pages: seq<Page>) { forall i :: 0 <= i < |pages| ==> pages[i].nodes == [] }

  /** No action of page `n` or a later one has evidence. */
  predicate NoPageEvidence(pages: seq<Page>, n: nat) {
    forall i :: n <= i < |pages| ==> Evidenceless(pages[i].actions)
  }

  predicate LastEvidence(pages: seq<Page>, p: nat, a: nat) {
    && p < |pages| && a < |pages[p].actions| && pages[p].actions[a].evidence != []
    && NoPageEvidence(pages, p + 1)
    && forall k :: a < k < |pages[p].actions| ==> pages[p].actions[k].evidence == []
  }

  predicate LastActions(pages: seq<Page>, p: nat) {
    && p < |pages| && pages[p].actions != []
    && forall i :: p < i < |pages| ==> pages[i].actions == []
  }

  ghost predicate OneBatch(s: ToolSummary, t: ToolSummary) {
    || (exists p: nat :: LosesNodes(s, t, p))
    || (exists p: nat, a: nat :: LosesEvidence(s, t, p, a))
    || (exists p: nat :: LosesActions(s, t, p))
  }

  /** One encoding: of `input`, which it leaves as `output`. */
  datatype Attempt = Attempt(input: ToolSummary, output: ToolSummary, encoded: Option<string>)

  predicate Over(a: Attempt, limit: int) { a.encoded.Some? && |a.encoded.value| > limit }

  ghost predicate AllEncoded(lib: Lib, tried: seq<Attempt>) {
    forall i :: 0 <= i < |tried| ==> EncodedAs(lib, tried[i].input, tried[i].output, tried[i].encoded)
  }

  /** The encodings on the way to the target: each but the last is over it, and the next
      encodes what it left, less one batch. */
  ghost predicate Retried(lib: Lib, source: ToolSummary, tried: seq<Attempt>) {
    && AllEncoded(lib, tried) && (tried != [] ==> tried[0].input == source)
    && forall i :: 0 <= i < |tried| - 1 ==> Over(tried[i], TARGET_BYTES) && Retry(tried[i].output, tried[i + 1].input)
  }

  ghost predicate Retry(s: ToolSummary, t: ToolSummary) {
    && t.truncated && t.reason == "per_summary_target"
    && OneBatch(s, t.(truncated := s.truncated, reason := s.reason))
  }

  /** `s` is what the next round encodes. */
  ghost predicate NextTry(source: ToolSummary, tried: seq<Attempt>, s: ToolSummary) {
    if tried == [] then s == source
    else Over(tried[|tried| - 1], TARGET_BYTES) && Retry(tried[|tried| - 1].output, s)
  }

  /** The encodings once only references are left: each but the last is over the hard limit,
      and the next encodes one page less. */
  ghost predicate Cropped(lib: Lib, tried: seq<Attempt>) {
    && AllEncoded(lib, tried) && tried != []
    && forall i :: 0 <= i < |tried| - 1 ==> Over(tried[i], HARD_LIMIT_BYTES) && Crop(tried[i].output, tried[i + 1].input)
  }

  predicate Crop(s: ToolSummary, t: ToolSummary) { s.pages != [] && t == WithoutLast(s) }

  /** The summary without its last page, which the ledger books. */
  function WithoutLast(s: ToolSummary): (t: ToolSummary)
    requires s.pages != []
    ensures t.pages + [s.pages[|s.pages| - 1]] == s.pages && t.omitted.pages == s.omitted.pages + 1
    ensures t == s.(pages := t.pages, omitted := s.omitted.(pages := t.omitted.pages))
  {
    s.(omitted := s.omitted.(pages := s.omitted.pages + 1), pages := s.pages[..|s.pages| - 1])
  }

  lemma NodesLost(s: ToolSummary, t: ToolSummary, p: nat)
    requires LosesNodes(s, t, p)
    ensures Conserved(s, t) && PagesKept(s.pages, t.pages) && Weight(t) < Weight(s)
  {
    var page, left := s.pages[p], t.pages[p];
    SplitPages(s.pages, p, left);
    assert forall i :: 0 <= i < |left.actions| ==> ActionKept(page.actions[i], left.actions[i]);
    KeptAt(s.pages, p, left);
  }

  lemma EvidenceLost(s: ToolSummary, t: ToolSummary, p: nat, a: nat)
    requires LosesEvidence(s, t, p, a)
    ensures Conserved(s, t) && PagesKept(s.pages, t.pages) && Weight(t) < Weight(s)
  {
    var page, left := s.pages[p], t.pages[p];
    SplitActions(page.actions, a, left.actions[a]);
    SplitPages(s.pages, p, left);
    KeptAt(s.pages, p, left);
  }

  lemma ActionsLost(s: ToolSummary, t: ToolSummary, p: nat)
    requires LosesActions(s, t, p)
    ensures Conserved(s, t) && PagesKept(s.pages, t.pages) && Weight(t) < Weight(s)
  {
    var page, left := s.pages[p], t.pages[p];
    NoEvidence(page.actions, |left.actions|);
    SplitPages(s.pages, p, left);
    assert forall i :: 0 <= i < |left.actions| ==> ActionKept(page.actions[i], left.actions[i]);
    KeptAt(s.pages, p, left);
  }

  /** A batch books what it drops, and leaves everything else. */
  lemma BatchBooked(s: ToolSummary, t: ToolSummary)
    requires OneBatch(s, t)
    ensures Conserved(s, t) && PagesKept(s.pages, t.pages) && Weight(t) < Weight(s)
    ensures t == s.(pages := t.pages, omitted := t.omitted)
  {
    if p: nat :| LosesNodes(s, t, p) {
      NodesLost(s, t, p);
    } else if p: nat, a: nat :| LosesEvidence(s, t, p, a) {
      EvidenceLost(s, t, p, a);
    } else {
      var p: nat :| LosesActions(s, t, p);
      ActionsLost(s, t, p);
    }
  }

  /** One more round: what the last encoding left loses a batch, and says it was cut. */
  lemma BatchNext(tried: seq<Attempt>, source: ToolSummary, left: ToolSummary, t: ToolSummary)
    requires tried != [] && Over(tried[|tried| - 1], TARGET_BYTES) && OneBatch(tried[|tried| - 1].output, left)
    requires t == left.(truncated := true, reason := "per_summary_target")
    ensures NextTry(source, tried, t) && Weight(t) < Weight(tried[|tried| - 1].output)
  {
    var before := tried[|tried| - 1].output;
    BatchBooked(before, left);
    assert left == t.(truncated := before.truncated, reason := before.reason);
  }

  lemma BatchShrinks(source: ToolSummary, before: ToolSummary, t: ToolSummary)
    requires Shrunk(source, before) && t.truncated
    requires OneBatch(before, t.(truncated := before.truncated, reason := before.reason))
    ensures Shrunk(source, t)
  {
    BatchBooked(before, t.(truncated := before.truncated, reason := before.reason));
    ShrunkTwice(source, before, t);
  }

  lemma {:induction false} RetriedTrace(lib: Lib, source: ToolSummary, tried: seq<Attempt>, n: nat)
    requires Retried(lib, source, tried) && n < |tried|
    ensures Shrunk(source, tried[n].output)
  {
    var a := tried[n];
    if n == 0 {
      ShrunkBody(source, a.output);
    } else {
      RetriedTrace(lib, source, tried, n - 1);
      assert Retry(tried[n - 1].output, a.input);
      BatchShrinks(source, tried[n - 1].output, a.input);
      ShrunkBody(a.input, a.output);
      ShrunkTwice(source, a.input, a.output);
    }
  }

  lemma RetriedNext(lib: Lib, source: ToolSummary, tried: seq<Attempt>, a: Attempt)
    requires Retried(lib, source, tried) && NextTry(source, tried, a.input)
    requires EncodedAs(lib, a.input, a.output, a.encoded)
    ensures Retried(lib, source, tried + [a]) && Shrunk(source, a.output)
  {
    RetriedTrace(lib, source, tried + [a], |tried|);
  }

  /** A reference-only summary cut down from another. */
  ghost predicate CroppedFrom(source: ToolSummary, s: ToolSummary) {
    Shrunk(source, s) && AllBare(s.pages) && s.truncated && s.referenceOnly
  }

  lemma CroppedOnce(source: ToolSummary, s: ToolSummary)
    requires s.pages != [] && CroppedFrom(source, s)
    ensures CroppedFrom(source, WithoutLast(s))
  {
    BareWeight(s.pages);
    BareWeight(WithoutLast(s).pages);
    KeptSelf(s.pages);
    ShrunkTwice(source, s, WithoutLast(s));
  }

  lemma CroppedBody(source: ToolSummary, s: ToolSummary, t: ToolSummary)
    requires CroppedFrom(source, s) && SameBody(s, t)
    ensures CroppedFrom(source, t)
  {
    ShrunkBody(s, t);
    ShrunkTwice(source, s, t);
  }

  lemma {:induction false} CroppedTrace(lib: Lib, source: ToolSummary, tried: seq<Attempt>, n: nat)
    requires Cropped(lib, tried) && n < |tried| && CroppedFrom(source, tried[0].input)
    ensures CroppedFrom(source, tried[n].output)
  {
    if n > 0 {
      CroppedTrace(lib, source, tried, n - 1);
      assert Crop(tried[n - 1].output, tried[n].input);
      CroppedOnce(source, tried[n - 1].output);
    }
    CroppedBody(source, tried[n].input, tried[n].output);
  }

  lemma CroppedNext(lib: Lib, tried: seq<Attempt>, a: Attempt)
    requires Cropped(lib, tried) && Over(tried[|tried| - 1], HARD_LIMIT_BYTES) && Crop(tried[|tried| - 1].output, a.input)
    requires EncodedAs(lib, a.input, a.output, a.encoded)
    ensures Cropped(lib, tried + [a])
  {
  }

  /** Where the last of these encodings ends: with an error when it fails, or when it is over
      the hard limit and no page is left. */
  predicate CroppedAnswer(last: Attempt, r: Option<string>) {
    if Over(last, HARD_LIMIT_BYTES) then r.None? && last.output.pages == [] else r == last.encoded
  }

  /** The first `n` pages are references, and the ledger has grown by them. */
  predicate StrippedUpTo(source: ToolSummary, s: ToolSummary, n: nat)
    requires n <= |source.pages|
  {
    && |s.pages| == |source.pages| && s == source.(pages := s.pages, omitted := s.omitted)
    && (forall i :: 0 <= i < n ==> s.pages[i] == Stripped(source.pages[i]))
    && (forall i :: n <= i < |s.pages| ==> s.pages[i] == source.pages[i])
    && Booked(source, s.omitted, n)
  }

  lemma StrippedNext(source: ToolSummary, s: ToolSummary, n: nat)
    requires n < |source.pages| && StrippedUpTo(source, s, n)
    ensures StrippedUpTo(source, s.(pages := s.pages[n := Stripped(s.pages[n])],
                                    omitted := AddOmissions(s.omitted, Dropped(s.pages[n]))), n + 1)
  {
    BookedNext(source, s.omitted, n);
  }

  lemma AllStripped(source: ToolSummary, s: ToolSummary)
    requires StrippedUpTo(source, s, |source.pages|)
    ensures AllBare(s.pages) && Conserved(source, s) && PagesKept(source.pages, s.pages)
    ensures forall i :: 0 <= i < |s.pages| ==> PageReferenced(source.pages[i], s.pages[i])
    ensures s.omitted == source.omitted.(nodes := source.omitted.nodes + Nodes(source.pages),
                                         actions := source.omitted.actions + Actions(source.pages),
                                         evidence := source.omitted.evidence + Evidence(source.pages),
                                         selectors := source.omitted.selectors + Selectors(source.pages))
  {
    assert source.pages[..|source.pages|] == source.pages;
    forall i | 0 <= i < |s.pages|
      ensures PageKept(source.pages[i], s.pages[i]) && PageReferenced(source.pages[i], s.pages[i]) && Bare(s.pages[i])
    {
      StrippedKept(source.pages[i]);
    }
    BareWeight(s.pages);
  }

  /** A pointer to a summary, edited in place. */
  class Cell {
    var s: ToolSummary

    constructor (source: ToolSummary)
      ensures s == source
    {
      s := source;
    }

    method PageWithMostNodes() returns (index: int)
      ensures MostNodes(s.pages, index)
    {
      index := -1;
      var count := 0;
      for candidate := 0 to |s.pages|
        invariant -1 <= index < candidate
        invariant index == -1 ==> count == 0 && forall i :: 0 <= i < candidate ==> s.pages[i].nodes == []
        invariant index >= 0 ==>
                    && count == |s.pages[index].nodes| > 0
                    && (forall i :: 0 <= i < candidate ==> |s.pages[i].nodes| <= count)
                    && forall i :: 0 <= i < index ==> |s.pages[i].nodes| < count
      {
        if |s.pages[candidate].nodes| > count {
          index := candidate;
          count := |s.pages[candidate].nodes|;
        }
      }
    }

    method OmitNodes(index: nat)
      requires index < |s.pages| && s.pages[index].nodes != [] && MostNodes(s.pages, index)
      modifies this
      ensures LosesNodes(old(s), s, index)
    {
      var page := s.pages[index];
      var omitCount := OmitCount(|page.nodes|);
      page := page.(nodes := page.nodes[..|page.nodes| - omitCount],
                    omitted := page.omitted.(nodes := page.omitted.nodes + omitCount));
      s := s.(pages := s.pages[index := page], omitted := s.omitted.(nodes := s.omitted.nodes + omitCount));
    }

    method OmitEvidence(pageIndex: nat, actionIndex: nat)
      requires NoNodes(s.pages) && LastEvidence(s.pages, pageIndex, actionIndex)
      modifies this
      ensures LosesEvidence(old(s), s, pageIndex, actionIndex)
    {
      var page := s.pages[pageIndex];
      var action := page.actions[actionIndex];
      var omitCount := OmitCount(|action.evidence|);
      action := action.(evidence := action.evidence[..|action.evidence| - omitCount],
                        omittedEvidence := action.omittedEvidence + omitCount);
      page := page.(actions := page.actions[actionIndex := action],
                    omitted := page.omitted.(evidence := page.omitted.evidence + omitCount));
      s := s.(pages := s.pages[pageIndex := page],
              omitted := s.omitted.(evidence := s.omitted.evidence + omitCount));
    }

    /** Only reached when no action has evidence left, so no evidence goes unbooked. */
    method OmitActions(index: nat)
      requires NoNodes(s.pages) && NoPageEvidence(s.pages, 0) && LastActions(s.pages, index)
      modifies this
      ensures LosesActions(old(s), s, index)
    {
      var page := s.pages[index];
      var omitCount := OmitCount(|page.actions|);
      page := page.(actions := page.actions[..|page.actions| - omitCount],
                    omitted := page.omitted.(actions := page.omitted.actions + omitCount));
      s := s.(pages := s.pages[index := page], omitted := s.omitted.(actions := s.omitted.actions + omitCount));
    }

    /** Drops a quarter of the most voluminous detail left: nodes, else evidence, else
        actions. False only when nothing is left to drop. */
    method OmitOneSummaryDetail() returns (more: bool)
      modifies this
      ensures more ==> OneBatch(old(s), s)
      ensures !more ==> s == old(s) && AllBare(s.pages)
    {
      var pageIndex := PageWithMostNodes();
      if pageIndex >= 0 {
        OmitNodes(pageIndex);
        return true;
      }
      assert NoNodes(s.pages);
      var p := |s.pages| - 1;
      while p >= 0
        invariant -1 <= p < |s.pages| && s == old(s) && NoPageEvidence(s.pages, p + 1)
      {
        var a := |s.pages[p].actions| - 1;
        while a >= 0
          invariant -1 <= a < |s.pages[p].actions| && s == old(s)
          invariant forall k :: a < k < |s.pages[p].actions| ==> s.pages[p].actions[k].evidence == []
        {
          if s.pages[p].actions[a].evidence != [] {
            OmitEvidence(p, a);
            return true;
          }
          a := a - 1;
        }
        p := p - 1;
      }
      p := |s.pages| - 1;
      while p >= 0
        invariant -1 <= p < |s.pages| && s == old(s)
        invariant forall i :: p < i < |s.pages| ==> s.pages[i].actions == []
      {
        if s.pages[p].actions != [] {
          OmitActions(p);
          return true;
        }
        p := p - 1;
      }
      more := false;
    }

    method MakeSummaryReferenceOnly(reason: string)
      modifies this
      ensures Shrunk(old(s), s) && AllBare(s.pages) && AllReferenced(old(s), s, reason)
    {
      ghost var source := s;
      for index := 0 to |s.pages|
        invariant |s.pages| == |source.pages| && StrippedUpTo(source, s, index)
      {
        var stripped, omitted := MakePageReferenceOnly(s.pages[index]);
        StrippedNext(source, s, index);
        s := s.(pages := s.pages[index := stripped], omitted := AddOmissions(s.omitted, omitted));
      }
      AllStripped(source, s);
      s := s.(referenceOnly := true, truncated := true, reason := reason);
    }

    /** encodeSummary: three size passes, then sign, resize and sign again. */
    method EncodeSummary(lib: Lib) returns (r: Option<string>)
      modifies this
      ensures r == Encode(lib, old(s)) && (r.Some? ==> s == Signed(lib, old(s)))
      ensures EncodedAs(lib, old(s), s, r)
    {
      ghost var source := s;
      SignedBody(lib, source);
      s := s.(sha := "");
      if IsExplorationTool(s.tool) {
        s := s.(observation := lib.observe(s.pages, s.detail, s.eventSeq));
      }
      var encoded := lib.marshal(s);
      if encoded.None? { return None; }
      s := s.(summaryBytes := |encoded.value| + 84);
      encoded := lib.marshal(s);
      if encoded.None? { return None; }
      s := s.(summaryBytes := |encoded.value| + 84);
      encoded := lib.marshal(s);
      if encoded.None? { return None; }
      s := s.(summaryBytes := |encoded.value| + 84);
      var unsigned := lib.marshal(s);
      if unsigned.None? { return None; }
      s := s.(sha := lib.sha(unsigned.value));
      encoded := lib.marshal(s);
      if encoded.None? { return None; }
      s := s.(summaryBytes := |encoded.value|);
      unsigned := lib.marshal(s.(sha := ""));
      if unsigned.None? { return None; }
      s := s.(sha := lib.sha(unsigned.value));
      r := lib.marshal(s);
    }

    /** encodeSummary, with what the loops below rely on. */
    method Reencode(lib: Lib) returns (r: Option<string>, ghost a: Attempt)
      modifies this
      ensures a == Attempt(old(s), s, r) && EncodedAs(lib, old(s), s, r)
    {
      r := EncodeSummary(lib);
      a := Attempt(old(s), s, r);
    }

    /** Drops whole pages from the end until the reference-only summary fits. */
    method DropPages(lib: Lib, ghost start: Attempt, first: Option<string>)
      returns (r: Option<string>, ghost tried: seq<Attempt>)
      requires first.Some? && start.output == s && start.encoded == first && Cropped(lib, [start])
      modifies this
      ensures Cropped(lib, tried) && tried[0] == start && tried[|tried| - 1].output == s
      ensures CroppedAnswer(tried[|tried| - 1], r)
    {
      r, tried := first, [start];
      while |r.value| > HARD_LIMIT_BYTES && |s.pages| > 0
        invariant r.Some? && Cropped(lib, tried) && tried[0] == start
        invariant tried[|tried| - 1].output == s && tried[|tried| - 1].encoded == r
        decreases |s.pages|
      {
        s := s.(omitted := s.omitted.(pages := s.omitted.pages + 1), pages := s.pages[..|s.pages| - 1]);
        ghost var a;
        r, a := Reencode(lib);
        CroppedNext(lib, tried, a);
        tried := tried + [a];
        if r.None? {
          return;
        }
      }
      if |r.value| > HARD_LIMIT_BYTES {
        r := None;
      }
    }

    /** The last resort: references only, and then fewer pages. */
    method EncodeReferences(lib: Lib) returns (r: Option<string>, ghost tried: seq<Attempt>)
      modifies this
      ensures Cropped(lib, tried) && AllReferenced(old(s), tried[0].input, "per_summary_hard_limit")
      ensures CroppedAnswer(tried[|tried| - 1], r) && s == tried[|tried| - 1].output
      ensures CroppedFrom(old(s), s)
    {
      ghost var source := s;
      MakeSummaryReferenceOnly("per_summary_hard_limit");
      ghost var a;
      r, a := Reencode(lib);
      tried := [a];
      if r.Some? {
        r, tried := DropPages(lib, a, r);
      }
      CroppedTrace(lib, source, tried, |tried| - 1);
    }

    /** Whatever sizes marshalling reports, the loop ends, everything dropped is booked, and
        a returned summary is within the hard limit: within the target, or reference-only.
        `tried` are the encodings on the way to the target, `bare` those once no detail was
        left: details go one batch at a time, pages one at a time, and neither goes on once
        the limit is met. The answer is None only for a failed encoding or for a summary over
        the hard limit that has no page left. */
    method EncodeBoundedSummary(lib: Lib)
      returns (r: Option<string>, ghost tried: seq<Attempt>, ghost bare: seq<Attempt>)
      modifies this
      ensures Shrunk(old(s), s)
      ensures r.Some? ==> lib.marshal(s) == r && |r.value| <= HARD_LIMIT_BYTES
      ensures r.Some? && |r.value| > TARGET_BYTES ==> s.referenceOnly && AllBare(s.pages)
      ensures tried != [] && Retried(lib, old(s), tried)
      ensures !Over(tried[|tried| - 1], TARGET_BYTES) ==>
                bare == [] && r == tried[|tried| - 1].encoded && s == tried[|tried| - 1].output
      ensures Over(tried[|tried| - 1], TARGET_BYTES) ==>
                && AllBare(tried[|tried| - 1].output.pages) && Cropped(lib, bare)
                && AllReferenced(tried[|tried| - 1].output, bare[0].input, "per_summary_hard_limit")
                && CroppedAnswer(bare[|bare| - 1], r) && s == bare[|bare| - 1].output
    {
      ghost var source := s;
      tried, bare := [], [];
      while true
        invariant Retried(lib, source, tried) && NextTry(source, tried, s)
        decreases Weight(s)
      {
        ghost var a;
        r, a := Reencode(lib);
        RetriedNext(lib, source, tried, a);
        tried := tried + [a];
        if r.None? || |r.value| <= TARGET_BYTES {
          return;
        }
        ghost var before := s;
        var more := OmitOneSummaryDetail();
        if more {
          ghost var left := s;
          s := s.(truncated := true, reason := "per_summary_target");
          BatchNext(tried, source, left, s);
          continue;
        }
        r, bare := EncodeReferences(lib);
        ShrunkTwice(source, before, s);
        return;
      }
    }
  }

  predicate Evidenceless(actions: seq<Action>) { forall k :: 0 <= k < |actions| ==> actions[k].evidence == [] }

  lemma KeptAt(pages: seq<Page>, k: nat, p: Page)
    requires k < |pages| && PageKept(pages[k], p)
    ensures PagesKept(pages, pages[k := p])
  {
    forall i | 0 <= i < |pages| ensures PageKept(pages[i], pages[k := p][i]) {
    }
  }
}
