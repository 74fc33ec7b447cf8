/** What extension/src/navigation-receipts.js computes.  Every method of NavigationReceiptStore has
    here a function on the value of the store; the class itself is in NavigationReceiptStore.dfy.
    The clock is an argument, URL parsing is a function `canon` given by the environment, and the
    field-by-field checks of extension/src/security-result.js are the flags `wellFormed`. */
module NavigationReceipts {
  import opened Basics

  const MAX_DOCUMENTS := 96
  const MAX_URL_RECEIPTS := 96
  const MAX_TABS := 64
  const MAX_PENDING_REQUESTS := 32
  const MAX_NATIVE_CONNECT_DECISIONS := 32
  const MAX_IDENTIFIER_LENGTH := 160
  const MAX_URL_LENGTH := 4096
  const MAX_COMPLETION_CLOCK_SKEW_MS := 60000.0
  const MAX_BROWSER_CLOCK_SKEW_MS := 300000.0
  const MAX_CONNECT_DECISION_CLOCK_SKEW_MS := 300000.0
  const EARLIEST_TIMESTAMP_MS := 1577836800000.0

  // ---- data ----

  datatype Runtime = Runtime(session: string, generation: int, policy: int)

  datatype Scheme = Http | Https

  /** A canonical URL with the parts that URL parsing gives. */
  datatype Target = Target(url: string, origin: string, host: string, port: int, scheme: Scheme)

  type Canon = string -> Option<Target>

  datatype Method = Get | Head | OtherMethod

  datatype Namespace = HnsNamespace | IcannNamespace | NoNamespace

  /** A native main-frame response observation. */
  datatype SecurityResult = SecurityResult(
    wellFormed: bool, runtime: Runtime, eventSequence: int, host: string, mainFrame: bool,
    statusCode: Option<int>, namespace: Namespace, network: string, fingerprint: Option<string>)

  /** A native CONNECT decision; `evidence` stands for the 25 compared fields beside the fingerprint. */
  datatype ConnectDecision = ConnectDecision(
    wellFormed: bool, runtime: Runtime, epoch: int, eventSequence: int, host: string, port: int,
    observedAt: real, network: string, fingerprint: string, evidence: string)

  datatype ConnectReceipt = ConnectReceipt(decision: ConnectDecision, status: int, completedAt: real)

  datatype Source =
    | RustHttpResponse
    | RustHttpResponseCache
    | WebPkiPassthrough
    | WebPkiConnectionReuse
    | WebPkiCacheReceipt

  datatype Reason =
    | RuntimeGenerationUnavailable
    | RuntimeGenerationChanged
    | HeaderMaintenanceInvalidatedNavigation
    | AmbiguousMainFrameObservation
    | UnsupportedMainFrameMethod
    | MainFrameSecurityReceiptMismatch
    | ConnectSecurityDecisionUnavailable
    | AmbiguousConnectSecurityDecision
    | BrowserCacheReceiptUnavailable
    | MainFrameSecurityReceiptUnavailable
    | MainFrameSecurityPending
    | UnsupportedMainFrame
    | HistoryOriginMismatch
    | HistoryDocumentReceiptUnavailable
    | MainFrameNavigationFailed
    | NoActiveBrowserTab
    | ActiveDocumentReceiptUnavailable

  datatype Completion = Completion(
    receipt: Option<SecurityResult>, connect: Option<ConnectReceipt>, epoch: Option<int>,
    source: Option<Source>, reason: Option<Reason>)

  datatype Pending = Pending(
    tabId: nat, documentId: Option<string>, target: Target, verb: Method, startedAt: Option<real>,
    eventFloor: int, epoch: int, ambiguous: bool, completion: Option<Completion>, sequence: nat)

  datatype Document = Document(
    tabId: nat, target: Target, receipt: Option<SecurityResult>, connect: Option<ConnectReceipt>,
    receiptEpoch: Option<int>, source: Option<Source>, restored: bool, reason: Option<Reason>, sequence: nat)

  datatype Tab = Tab(documentId: Option<string>, url: Option<string>, reason: Option<Reason>, sequence: nat)

  datatype UrlReceipt = UrlReceipt(completion: Completion, sequence: nat)

  datatype Store = Store(
    runtime: Option<Runtime>, epoch: int, maintenancePending: bool, sequence: nat, floor: int,
    tabs: map<nat, Tab>, documents: map<string, Document>, urlReceipts: map<string, UrlReceipt>,
    pending: map<string, Pending>)

  const EMPTY := Store(None, 0, false, 0, 0, map[], map[], map[], map[])

  /** The native status that accompanies an operation, with the fields the store reads. */
  datatype Status = Status(
    runtime: Option<Runtime>, epoch: Option<int>, latest: Option<SecurityResult>,
    decisions: Option<seq<ConnectDecision>>, active: bool, proxyActive: bool, treeRootReady: bool,
    blocksUntilTreeRoot: Option<int>, evidenceExpired: Option<bool>, validUntil: Option<int>)

  /** The fields of a browser event; an absent string is "". */
  datatype Details = Details(
    requestId: string, tabId: int, documentId: string, url: string, redirectUrl: string,
    mainFrameType: bool, frameId: int, lifecycleActive: bool, forwardBack: bool, verb: Method,
    timeStamp: Option<real>, fromCache: bool, statusCode: Option<int>)

  // ---- checks on inputs ----

  function BoundedIdentifier(s: string): Option<string> {
    if 1 <= |s| <= MAX_IDENTIFIER_LENGTH then Some(s) else None
  }

  function ValidTabId(i: int): Option<nat> {
    if 0 <= i <= MAX_SAFE_INTEGER then Some(i) else None
  }

  function ValidEpoch(e: Option<int>): Option<int> {
    if e.Some? && 1 <= e.value <= MAX_SAFE_INTEGER then e else None
  }

  function RuntimeTuple(r: Option<Runtime>): Option<Runtime> {
    if r.Some? && 1 <= |r.value.session| <= MAX_IDENTIFIER_LENGTH &&
       1 <= r.value.generation <= MAX_SAFE_INTEGER && 1 <= r.value.policy <= MAX_SAFE_INTEGER
    then r else None
  }

  predicate ValidHttpStatus(status: Option<int>) {
    status.Some? && 100 <= status.value <= 599
  }

  function ValidBrowserTimestamp(t: Option<real>, now: real): Option<real> {
    if t.Some? && EARLIEST_TIMESTAMP_MS <= t.value <= now + MAX_BROWSER_CLOCK_SKEW_MS then t else None
  }

  function MaxInt(a: int, b: int): int {
    if a < b then b else a
  }

  function MaxReal(a: real, b: real): real {
    if a < b then b else a
  }

  // ---- security-result.js ----

  predicate CurrentResult(r: SecurityResult, runtime: Option<Runtime>) {
    r.wellFormed && runtime == Some(r.runtime) && 1 <= r.eventSequence <= MAX_SAFE_INTEGER
  }

  function CurrentSecurityResult(r: Option<SecurityResult>, runtime: Option<Runtime>): Option<SecurityResult> {
    if r.Some? && CurrentResult(r.value, runtime) then r else None
  }

  predicate CurrentDecision(d: ConnectDecision, runtime: Option<Runtime>, epoch: Option<int>, now: real) {
    d.wellFormed && runtime == Some(d.runtime) && epoch == Some(d.epoch) && 1 <= d.epoch <= MAX_SAFE_INTEGER &&
    1 <= d.eventSequence <= MAX_SAFE_INTEGER && EARLIEST_TIMESTAMP_MS <= d.observedAt &&
    d.observedAt <= now + MAX_CONNECT_DECISION_CLOCK_SKEW_MS
  }

  predicate CurrentConnect(
    c: ConnectReceipt, runtime: Option<Runtime>, epoch: Option<int>, target: Target, now: real)
  {
    ValidHttpStatus(Some(c.status)) && ValidBrowserTimestamp(Some(c.completedAt), now).Some? &&
    target.scheme == Https && ValidEpoch(epoch).Some? &&
    CurrentDecision(c.decision, runtime, epoch, MaxReal(now, c.completedAt)) &&
    c.decision.host == target.host && c.decision.port == target.port &&
    c.decision.observedAt <= c.completedAt + MAX_COMPLETION_CLOCK_SKEW_MS
  }

  function CurrentConnectReceipt(
    c: Option<ConnectReceipt>, runtime: Option<Runtime>, epoch: Option<int>, target: Target, now: real)
    : Option<ConnectReceipt>
  {
    if c.Some? && CurrentConnect(c.value, runtime, epoch, target, now) then c else None
  }

  predicate IsRust(s: Source) {
    s.RustHttpResponse? || s.RustHttpResponseCache?
  }

  predicate IsConnect(s: Source) {
    !IsRust(s)
  }

  // ---- small steps ----

  function NextSequence(s: Store): (r: Store)
    ensures r == s.(sequence := r.sequence) && 1 <= r.sequence <= MAX_SAFE_INTEGER
  {
    s.(sequence := if s.sequence < MAX_SAFE_INTEGER then s.sequence + 1 else 1)
  }

  function NoteDecisions(floor: int, ds: seq<ConnectDecision>, runtime: Option<Runtime>, epoch: int, now: real): int {
    if ds == [] then
      floor
    else
      var rest := NoteDecisions(floor, ds[..|ds| - 1], runtime, epoch, now);
      var d := ds[|ds| - 1];
      if CurrentDecision(d, runtime, Some(epoch), now) then MaxInt(rest, d.eventSequence) else rest
  }

  function NoteNativeEvent(s: Store, st: Status, now: real): (r: Store)
    ensures r == s.(floor := r.floor)
  {
    var latest := CurrentSecurityResult(st.latest, s.runtime);
    var floor := if latest.Some? then MaxInt(s.floor, latest.value.eventSequence) else s.floor;
    if st.decisions.None? || |st.decisions.value| > MAX_NATIVE_CONNECT_DECISIONS then
      s.(floor := floor)
    else
      s.(floor := NoteDecisions(floor, st.decisions.value, s.runtime, s.epoch, now))
  }

  /** The result of an operation before the store is pruned, and how much is then pruned. */
  datatype Pruning = NoPruning | PendingOnly | Everything

  datatype Out<R> = Out(store: Store, result: R, pruning: Pruning)

  function EnsureRuntime(s: Store, st: Status, now: real): Out<bool> {
    var runtime, epoch := RuntimeTuple(st.runtime), ValidEpoch(st.epoch);
    if runtime.None? || epoch.None? then
      Out(s, false, NoPruning)
    else if s.runtime != runtime then
      Out(NoteNativeEvent(EMPTY.(runtime := runtime, epoch := epoch.value), st, now), true, NoPruning)
    else if epoch.value < s.epoch then
      Out(s, false, NoPruning)
    else if epoch.value > s.epoch then
      Out(NoteNativeEvent(s.(epoch := epoch.value, pending := map[]), st, now), true, NoPruning)
    else
      Out(NoteNativeEvent(s, st, now), true, NoPruning)
  }

  predicate Conflicts(pending: map<string, Pending>, id: string, host: string, k: string)
    requires id in pending
  {
    k in pending && k != id && pending[k].epoch == pending[id].epoch && pending[k].target.host == host
  }

  function MarkHostConflicts(pending: map<string, Pending>, id: string, host: string): (r: map<string, Pending>)
    requires id in pending
    ensures r.Keys == pending.Keys
  {
    var conflicted := exists k :: k in pending && Conflicts(pending, id, host, k);
    map k | k in pending ::
      if Conflicts(pending, id, host, k) || (k == id && conflicted) then pending[k].(ambiguous := true)
      else pending[k]
  }

  // ---- requests ----

  function Begin(canon: Canon, s: Store, d: Details, st: Status, now: real): Out<bool> {
    var ensured := EnsureRuntime(s, st, now);
    var s1 := ensured.store;
    var id, tab, target := BoundedIdentifier(d.requestId), ValidTabId(d.tabId), canon(d.url);
    if !ensured.result || s1.maintenancePending || id.None? || tab.None? || target.None? || !d.mainFrameType then
      Out(s1, false, NoPruning)
    else if id.value in s1.pending then
      var p := s1.pending[id.value];
      var q := p.(target := target.value, verb := d.verb,
                  documentId := p.documentId.OrElse(BoundedIdentifier(d.documentId)));
      Out(s1.(pending := MarkHostConflicts(s1.pending[id.value := q], id.value, target.value.host)), true, NoPruning)
    else
      var s2 := NextSequence(s1);
      var p := Pending(tab.value, BoundedIdentifier(d.documentId), target.value, d.verb,
                       ValidBrowserTimestamp(d.timeStamp, now), s1.floor, s1.epoch, false, None, s2.sequence);
      Out(s2.(pending := MarkHostConflicts(s2.pending[id.value := p], id.value, target.value.host)), true, PendingOnly)
  }

  function Redirect(canon: Canon, s: Store, d: Details): Out<bool> {
    var id, target := BoundedIdentifier(d.requestId), canon(d.redirectUrl);
    if id.None? || id.value !in s.pending || target.None? then
      Out(s, false, NoPruning)
    else
      var p := s.pending[id.value];
      var q := p.(target := target.value, documentId := p.documentId.OrElse(BoundedIdentifier(d.documentId)));
      Out(s.(pending := MarkHostConflicts(s.pending[id.value := q], id.value, target.value.host)), true, NoPruning)
  }

  // ---- completions ----

  function Unavailable(reason: Reason): Completion {
    Completion(None, None, None, None, Some(reason))
  }

  datatype Completed = Completed(store: Store, completion: Completion)

  predicate SafeMethod(m: Method) {
    m.Get? || m.Head?
  }

  function Cached(s: Store, p: Pending, d: Details, st: Status, now: real): Completed {
    var ensured := EnsureRuntime(s, st, now);
    if RuntimeTuple(st.runtime).None? || ValidEpoch(st.epoch).None? || s.runtime != RuntimeTuple(st.runtime) then
      Completed(ensured.store, Unavailable(RuntimeGenerationChanged))
    else if !ensured.result then
      Completed(s, Unavailable(RuntimeGenerationUnavailable))
    else
      Completed(ensured.store, CachedEvidence(ensured.store, p, d, now))
  }

  function CachedEvidence(s: Store, p: Pending, d: Details, now: real): Completion {
    if s.maintenancePending || p.epoch != s.epoch || p.target.url !in s.urlReceipts ||
       s.urlReceipts[p.target.url].completion.epoch != Some(s.epoch) || !SafeMethod(p.verb)
    then
      Unavailable(BrowserCacheReceiptUnavailable)
    else
      var cached := s.urlReceipts[p.target.url].completion;
      var receipt := CurrentSecurityResult(cached.receipt, s.runtime);
      var connect := CurrentConnectReceipt(cached.connect, s.runtime, Some(s.epoch), p.target, now);
      if receipt.Some? && receipt.value.mainFrame && receipt.value.host == p.target.host &&
         receipt.value.statusCode.Some? && receipt.value.statusCode == d.statusCode
      then
        Completion(receipt, None, Some(s.epoch), Some(RustHttpResponseCache), None)
      else if connect.Some? && Some(connect.value.status) == d.statusCode then
        Completion(None, connect, Some(s.epoch), Some(WebPkiCacheReceipt), None)
      else
        Unavailable(BrowserCacheReceiptUnavailable)
  }

  predicate MatchingResponse(candidate: Option<SecurityResult>, p: Pending, d: Details) {
    candidate.Some? && candidate.value.mainFrame && candidate.value.host == p.target.host &&
    candidate.value.eventSequence > p.eventFloor && candidate.value.statusCode.Some? &&
    candidate.value.statusCode == d.statusCode
  }

  /** The store after a network completion's status was read: the floor covers the response. */
  function Observed(s: Store, st: Status): Store {
    var candidate := CurrentSecurityResult(st.latest, s.runtime);
    if candidate.Some? then s.(floor := MaxInt(s.floor, candidate.value.eventSequence)) else s
  }

  function Network(s: Store, p: Pending, d: Details, st: Status, now: real): Completed {
    var ensured := EnsureRuntime(s, st, now);
    if RuntimeTuple(st.runtime).None? || ValidEpoch(st.epoch).None? then
      Completed(s, Unavailable(RuntimeGenerationUnavailable))
    else if s.runtime != RuntimeTuple(st.runtime) then
      Completed(ensured.store, Unavailable(RuntimeGenerationChanged))
    else if !ensured.result || ensured.store.maintenancePending then
      Completed(ensured.store, Unavailable(HeaderMaintenanceInvalidatedNavigation))
    else
      var s1 := Observed(ensured.store, st);
      var completion := NetworkEvidence(s1, p, d, st, now);
      if completion.receipt.None? && completion.connect.None? then
        Completed(s1, completion)
      else
        var s2 := NextSequence(s1);
        Completed(s2.(urlReceipts := s2.urlReceipts[p.target.url := UrlReceipt(completion, s2.sequence)]), completion)
  }

  function NetworkEvidence(s: Store, p: Pending, d: Details, st: Status, now: real): Completion {
    var candidate := CurrentSecurityResult(st.latest, s.runtime);
    if p.epoch != s.epoch then
      Unavailable(HeaderMaintenanceInvalidatedNavigation)
    else if p.ambiguous then
      Unavailable(AmbiguousMainFrameObservation)
    else if !SafeMethod(p.verb) then
      Unavailable(UnsupportedMainFrameMethod)
    else if MatchingResponse(candidate, p, d) then
      Completion(candidate, None, Some(s.epoch), Some(RustHttpResponse), None)
    else
      var connect := ConnectEvidence(s, p, d, st, now);
      if connect.connect.None? && candidate.Some? then Unavailable(MainFrameSecurityReceiptMismatch) else connect
  }

  function Matching(
    ds: seq<ConnectDecision>, s: Store, p: Pending, completedAt: real, now: real): seq<ConnectDecision>
  {
    if ds == [] then
      []
    else
      var rest := Matching(ds[..|ds| - 1], s, p, completedAt, now);
      var d := ds[|ds| - 1];
      if CurrentDecision(d, s.runtime, Some(s.epoch), MaxReal(now, completedAt)) &&
         d.host == p.target.host && d.port == p.target.port &&
         d.observedAt <= completedAt + MAX_COMPLETION_CLOCK_SKEW_MS
      then rest + [d] else rest
  }

  function Fresh(ds: seq<ConnectDecision>, floor: int, startedAt: real): seq<ConnectDecision> {
    if ds == [] then
      []
    else
      var rest := Fresh(ds[..|ds| - 1], floor, startedAt);
      var d := ds[|ds| - 1];
      if d.eventSequence > floor && d.observedAt >= startedAt then rest + [d] else rest
  }

  function Retained(ds: seq<ConnectDecision>, startedAt: real): seq<ConnectDecision> {
    if ds == [] then
      []
    else
      var rest := Retained(ds[..|ds| - 1], startedAt);
      var d := ds[|ds| - 1];
      if d.observedAt < startedAt then rest + [d] else rest
  }

  datatype Selection = NoDecision | AmbiguousDecision | Selected(decision: ConnectDecision)

  predicate SameEvidence(a: ConnectDecision, b: ConnectDecision) {
    a.fingerprint != "" && a.fingerprint == b.fingerprint && a.evidence == b.evidence && a.network == b.network
  }

  function Newer(newest: ConnectDecision, candidate: ConnectDecision): ConnectDecision {
    if candidate.eventSequence != newest.eventSequence then
      if candidate.eventSequence > newest.eventSequence then candidate else newest
    else if candidate.observedAt > newest.observedAt then candidate else newest
  }

  function Newest(ds: seq<ConnectDecision>): (r: ConnectDecision)
    requires ds != []
    ensures r in ds
    ensures forall d :: d in ds ==> d.eventSequence <= r.eventSequence
  {
    if |ds| == 1 then ds[0] else Newer(Newest(ds[..|ds| - 1]), ds[|ds| - 1])
  }

  function NewestEquivalent(ds: seq<ConnectDecision>): (r: Selection)
    ensures r.Selected? ==> r.decision in ds
  {
    if ds == [] then NoDecision
    else if exists i :: 0 <= i < |ds| && !SameEvidence(ds[0], ds[i]) then AmbiguousDecision
    else Selected(Newest(ds))
  }

  function ConnectEvidence(s: Store, p: Pending, d: Details, st: Status, now: real): Completion {
    var completedAt := ValidBrowserTimestamp(d.timeStamp, now);
    if p.target.scheme != Https || p.startedAt.None? || completedAt.None? ||
       completedAt.value + MAX_COMPLETION_CLOCK_SKEW_MS < p.startedAt.value || !ValidHttpStatus(d.statusCode) ||
       st.decisions.None? || |st.decisions.value| > MAX_NATIVE_CONNECT_DECISIONS
    then
      Unavailable(ConnectSecurityDecisionUnavailable)
    else
      var matches := Matching(st.decisions.value, s, p, completedAt.value, now);
      var newest := NewestEquivalent(Fresh(matches, p.eventFloor, p.startedAt.value));
      var retained := NewestEquivalent(Retained(matches, p.startedAt.value));
      match newest
      case AmbiguousDecision => Unavailable(AmbiguousConnectSecurityDecision)
      case Selected(c) =>
        Completion(None, Some(ConnectReceipt(c, d.statusCode.value, completedAt.value)), Some(s.epoch),
                   Some(WebPkiPassthrough), None)
      case NoDecision =>
        match retained
        case AmbiguousDecision => Unavailable(AmbiguousConnectSecurityDecision)
        case NoDecision => Unavailable(ConnectSecurityDecisionUnavailable)
        case Selected(c) =>
          Completion(None, Some(ConnectReceipt(c, d.statusCode.value, completedAt.value)), Some(s.epoch),
                     Some(WebPkiConnectionReuse), None)
  }

  function Bound(s: Store, doc: Document, c: Completion, sequence: nat, now: real): Document {
    if c.source.Some? && IsRust(c.source.value) && c.receipt.Some? && CurrentResult(c.receipt.value, s.runtime) &&
       c.receipt.value.host == doc.target.host
    then
      doc.(receipt := c.receipt, connect := None, receiptEpoch := c.epoch, source := c.source, reason := None,
           sequence := sequence)
    else if c.source.Some? && IsConnect(c.source.value) &&
            CurrentConnectReceipt(c.connect, s.runtime, c.epoch, doc.target, now).Some?
    then
      doc.(receipt := None, connect := c.connect, receiptEpoch := c.epoch, source := c.source, reason := None,
           sequence := sequence)
    else
      doc.(receipt := None, connect := None, receiptEpoch := None, source := None,
           reason := c.reason.OrElse(Some(MainFrameSecurityReceiptUnavailable)), sequence := sequence)
  }

  function Bind(s: Store, documentId: string, c: Completion, now: real): Store
    requires documentId in s.documents
  {
    var s1 := NextSequence(s);
    s1.(documents := s1.documents[documentId := Bound(s, s.documents[documentId], c, s1.sequence, now)])
  }

  function DocumentIdForTabAndUrl(s: Store, tab: nat, url: string): Option<string> {
    if tab in s.tabs && s.tabs[tab].url == Some(url) then s.tabs[tab].documentId else None
  }

  /** The pending request as a completion event leaves it, before its evidence is sought. */
  function Completing(p: Pending, target: Target, d: Details): Pending {
    p.(target := target, documentId := p.documentId.OrElse(BoundedIdentifier(d.documentId)))
  }

  /** A completion reaches its document, or is parked with its request until the document commits. */
  function Concluded(s: Store, id: string, p: Pending, c: Completion, now: real): Store {
    var documentId := p.documentId.OrElse(DocumentIdForTabAndUrl(s, p.tabId, p.target.url));
    if documentId.Some? && documentId.value in s.documents then
      var bound := Bind(s, documentId.value, c, now);
      bound.(pending := bound.pending - {id})
    else if id in s.pending then
      s.(pending := s.pending[id := p.(completion := Some(c))])
    else
      s
  }

  function Evidence(s: Store, p: Pending, d: Details, st: Status, now: real): Completed {
    if d.fromCache then Cached(s, p, d, st, now) else Network(s, p, d, st, now)
  }

  function Complete(canon: Canon, s: Store, d: Details, st: Status, now: real): Out<bool> {
    var id, target := BoundedIdentifier(d.requestId), canon(d.url);
    if id.None? || id.value !in s.pending then
      Out(s, false, NoPruning)
    else if target.None? || ValidTabId(d.tabId) != Some(s.pending[id.value].tabId) then
      Out(s.(pending := s.pending - {id.value}), false, NoPruning)
    else
      var p := Completing(s.pending[id.value], target.value, d);
      var completed := Evidence(s.(pending := s.pending[id.value := p]), p, d, st, now);
      var c := completed.completion;
      Out(Concluded(completed.store, id.value, p, c, now), c.receipt.Some? || c.connect.Some?, Everything)
  }

  function FailRequest(s: Store, d: Details): Out<bool> {
    var id := BoundedIdentifier(d.requestId);
    if id.None? || id.value !in s.pending then Out(s, false, NoPruning)
    else Out(s.(pending := s.pending - {id.value}), true, NoPruning)
  }

  // ---- documents and tabs ----

  predicate IsCandidate(s: Store, tab: nat, documentId: string, url: string, k: string) {
    k in s.pending && s.pending[k].tabId == tab &&
    (s.pending[k].documentId == Some(documentId) || s.pending[k].target.url == url)
  }

  /** The request that a committed document belongs to: the latest begun of those that fit. */
  predicate IsPendingForDocument(s: Store, tab: nat, documentId: string, url: string, pick: Option<string>) {
    match pick
    case None => forall k :: k in s.pending ==> !IsCandidate(s, tab, documentId, url, k)
    case Some(k) =>
      IsCandidate(s, tab, documentId, url, k) &&
      forall j :: j in s.pending && IsCandidate(s, tab, documentId, url, j) ==>
        s.pending[j].sequence <= s.pending[k].sequence
  }

  function WithTab(s: Store, tab: nat, t: Tab): Store {
    s.(tabs := s.tabs[tab := t])
  }

  /** A document that commits again: evidence of another origin is dropped. */
  function Recommit(s: Store, id: string, target: Target, tab: nat, forwardBack: bool): Store
    requires id in s.documents
  {
    var doc := s.documents[id];
    var kept :=
      if doc.target.origin != target.origin then
        doc.(receipt := None, connect := None, receiptEpoch := None, source := None,
             reason := Some(HistoryOriginMismatch))
      else doc;
    var s1 := NextSequence(s);
    var doc1 := kept.(tabId := tab, target := target, restored := kept.restored ||
        forwardBack, sequence := s1.sequence);
    WithTab(s1.(documents := s1.documents[id := doc1]), tab, Tab(Some(id), Some(target.url), None, s1.sequence))
  }

  function NewDocument(s: Store, id: string, target: Target, tab: nat, forwardBack: bool, reason: Reason): Store {
    var s1 := NextSequence(s);
    var doc := Document(tab, target, None, None, None, None, forwardBack, Some(reason), s1.sequence);
    WithTab(s1.(documents := s1.documents[id := doc]), tab, Tab(Some(id), Some(target.url), None, s1.sequence))
  }

  /** A new document: a completion parked with its request is bound to it. */
  function CommitNew(
    s: Store, id: string, target: Target, tab: nat, forwardBack: bool, reason: Reason, pick: Option<string>, now: real)
    : Store
    requires pick.Some? ==> pick.value in s.pending
  {
    var s2 := NewDocument(s, id, target, tab, forwardBack, if pick.Some? then MainFrameSecurityPending else reason);
    if pick.None? then
      s2
    else
      var p := s2.pending[pick.value];
      if p.completion.Some? then
        var s3 := Bind(s2, id, p.completion.value, now);
        s3.(pending := s3.pending - {pick.value})
      else
        s2.(pending := s2.pending[pick.value := p.(documentId := Some(id))])
  }

  function WithoutDocument(s: Store, target: Option<Target>, tab: nat, reason: Reason): Store {
    var s1 := NextSequence(s);
    WithTab(s1, tab, Tab(None, if target.Some? then Some(target.value.url) else None, Some(reason), s1.sequence))
  }

  /** `pick` is the request that IsPendingForDocument finds; it matters for a new document only. */
  function Commit(canon: Canon, s: Store, d: Details, reason: Reason, pick: Option<string>, now: real): Out<bool>
    requires pick.Some? ==> pick.value in s.pending
  {
    var tab, id, target := ValidTabId(d.tabId), BoundedIdentifier(d.documentId), canon(d.url);
    if tab.None? || !d.lifecycleActive then
      Out(s, false, NoPruning)
    else if id.None? || target.None? || d.frameId != 0 then
      Out(WithoutDocument(s, target, tab.value, UnsupportedMainFrame), false, Everything)
    else if id.value in s.documents then
      Out(Recommit(s, id.value, target.value, tab.value, d.forwardBack), true, Everything)
    else
      Out(CommitNew(s, id.value, target.value, tab.value, d.forwardBack, reason, pick, now), true, Everything)
  }

  function FailNavigation(canon: Canon, s: Store, d: Details): Out<bool> {
    var tab := ValidTabId(d.tabId);
    if tab.None? || d.frameId != 0 then
      Out(s, false, NoPruning)
    else
      var s1 := s.(pending := map k | k in s.pending && s.pending[k].tabId != tab.value :: s.pending[k]);
      Out(WithoutDocument(s1, canon(d.url), tab.value, MainFrameNavigationFailed), true, Everything)
  }

  function RemoveTab(s: Store, tabId: int): Out<bool> {
    var tab := ValidTabId(tabId);
    if tab.None? then
      Out(s, false, NoPruning)
    else
      Out(s.(tabs := s.tabs - {tab.value},
             documents := map k | k in s.documents && s.documents[k].tabId != tab.value :: s.documents[k],
             pending := map k | k in s.pending && s.pending[k].tabId != tab.value :: s.pending[k]),
          true, NoPruning)
  }

  function MoveTab(s: Store, added: nat, removed: nat): Store
    requires removed in s.tabs
  {
    var n := NextSequence(s);
    var tab := s.tabs[removed].(sequence := n.sequence);
    var moved := n.(tabs := (n.tabs - {removed})[added := tab]);
    if tab.documentId.Some? && tab.documentId.value in moved.documents then
      moved.(documents := moved.documents[tab.documentId.value :=
        moved.documents[tab.documentId.value].(tabId := added)])
    else moved
  }

  function ReplaceTab(s: Store, addedId: int, removedId: int): Out<bool> {
    var added, removed := ValidTabId(addedId), ValidTabId(removedId);
    if added.None? || removed.None? then
      Out(s, false, NoPruning)
    else
      var s1 := if removed.value in s.tabs then MoveTab(s, added.value, removed.value) else s;
      Out(s1.(pending := map k | k in s1.pending ::
                if s1.pending[k].tabId == removed.value then s1.pending[k].(tabId := added.value) else s1.pending[k]),
          true, NoPruning)
  }

  // ---- maintenance ----

  function BeginMaintenance(s: Store, st: Status, now: real): Out<bool> {
    var ensured := EnsureRuntime(s, st, now);
    if !ensured.result then ensured
    else Out(ensured.store.(maintenancePending := true, pending := map[]), true, NoPruning)
  }

  predicate MaintenanceCompletionReady(st: Status, nowSeconds: int) {
    0 <= nowSeconds <= MAX_SAFE_INTEGER && st.active && st.proxyActive && st.treeRootReady &&
    st.blocksUntilTreeRoot == Some(0) && st.evidenceExpired == Some(false) && st.validUntil.Some? &&
    nowSeconds < st.validUntil.value <= MAX_SAFE_INTEGER
  }

  function CompleteMaintenance(s: Store, st: Status, nowSeconds: int, now: real): Out<bool> {
    var ensured := EnsureRuntime(s, st, now);
    if !s.maintenancePending || !MaintenanceCompletionReady(st, nowSeconds) then
      Out(s, false, NoPruning)
    else if !ensured.result then
      ensured
    else
      Out(ensured.store.(maintenancePending := false, pending := map[]), true, NoPruning)
  }

  // ---- queries ----

  datatype ViewState =
    | NotAvailable | CurrentDocument | CommittedBeforeHeaderMaintenance | BrowserCache | RestoredView

  datatype ReceiptView = ReceiptView(
    receipt: Option<SecurityResult>, connect: Option<ConnectReceipt>, reason: Option<Reason>,
    state: ViewState, source: Option<Source>)

  function NoReceipt(reason: Reason): ReceiptView {
    ReceiptView(None, None, Some(reason), NotAvailable, None)
  }

  function DocumentView(s: Store, doc: Document, now: real): ReceiptView {
    var receipt := CurrentSecurityResult(doc.receipt, s.runtime);
    var connect := CurrentConnectReceipt(doc.connect, s.runtime, doc.receiptEpoch, doc.target, now);
    if (receipt.None? || !receipt.value.mainFrame) && connect.None? then
      NoReceipt(if doc.reason.Some? then doc.reason.value else MainFrameSecurityReceiptUnavailable)
    else
      var state :=
        if s.maintenancePending || doc.receiptEpoch.None? || doc.receiptEpoch.value < s.epoch then
          CommittedBeforeHeaderMaintenance
        else if doc.source == Some(RustHttpResponseCache) || doc.source == Some(WebPkiCacheReceipt) then BrowserCache
        else if doc.restored then RestoredView
        else CurrentDocument;
      ReceiptView(receipt, connect, None, state, doc.source)
  }

  function TabView(s: Store, tabId: int, now: real): ReceiptView {
    var tab := ValidTabId(tabId);
    if tab.None? then
      NoReceipt(NoActiveBrowserTab)
    else if tab.value !in s.tabs then
      NoReceipt(ActiveDocumentReceiptUnavailable)
    else
      var t := s.tabs[tab.value];
      if t.documentId.None? then
        NoReceipt(if t.reason.Some? then t.reason.value else ActiveDocumentReceiptUnavailable)
      else if t.documentId.value !in s.documents then
        NoReceipt(ActiveDocumentReceiptUnavailable)
      else
        DocumentView(s, s.documents[t.documentId.value], now)
  }

  function ReceiptForTab(s: Store, tabId: int, st: Status, now: real): Out<ReceiptView> {
    var ensured := EnsureRuntime(s, st, now);
    if !ensured.result then Out(ensured.store, NoReceipt(RuntimeGenerationUnavailable), NoPruning)
    else Out(ensured.store, TabView(ensured.store, tabId, now), NoPruning)
  }

  datatype Authority = Authority(
    origin: string, namespace: Namespace, network: string, runtime: Runtime, navigationGeneration: nat,
    documentId: string, fingerprint: Option<string>)

  datatype Query = Query(tabId: int, documentId: string, origin: string, url: Option<string>)

  /** What providerAuthorityForDocument takes for its decision: a native response, or the record that wraps a
      native CONNECT decision. */
  datatype Deciding = Response(result: SecurityResult) | Wrapper(receipt: ConnectReceipt)

  function DecidingEvidence(s: Store, doc: Document, now: real): Option<Deciding> {
    var receipt := CurrentSecurityResult(doc.receipt, s.runtime);
    var connect := CurrentConnectReceipt(doc.connect, s.runtime, doc.receiptEpoch, doc.target, now);
    if receipt.Some? then Some(Response(receipt.value))
    else if connect.Some? then Some(Wrapper(connect.value))
    else None
  }

  /** The wrapper has no field canonicalStatus, so it is refused like a status that is not available. */
  function DocumentAuthority(s: Store, documentId: string, doc: Document, now: real): Option<Authority> {
    match DecidingEvidence(s, doc, now)
    case Some(Response(r)) =>
      if r.namespace.NoNamespace? || r.host != doc.target.host || s.runtime != Some(r.runtime) then
        None
      else
        Some(Authority(doc.target.origin, r.namespace, r.network, r.runtime, doc.sequence, documentId, r.fingerprint))
    case _ => None
  }

  function AuthorityIn(canon: Canon, s: Store, q: Query, now: real): Option<Authority> {
    var tab, id := ValidTabId(q.tabId), BoundedIdentifier(q.documentId);
    if tab.None? || id.None? || tab.value !in s.tabs || s.tabs[tab.value].documentId != id ||
       id.value !in s.documents
    then
      None
    else
      var doc := s.documents[id.value];
      if doc.tabId != tab.value || doc.target.origin != q.origin ||
         (q.url.Some? && (canon(q.url.value).None? || canon(q.url.value).value.url != doc.target.url)) ||
         doc.target.scheme != Https || doc.restored || doc.receiptEpoch != Some(s.epoch)
      then
        None
      else
        DocumentAuthority(s, id.value, doc, now)
  }

  function ProviderAuthority(canon: Canon, s: Store, q: Query, st: Status, now: real): Out<Option<Authority>> {
    var ensured := EnsureRuntime(s, st, now);
    if !ensured.result || !st.active || !st.proxyActive || ensured.store.maintenancePending then
      Out(ensured.store, None, NoPruning)
    else
      Out(ensured.store, AuthorityIn(canon, ensured.store, q, now), NoPruning)
  }

  // ---- snapshot and restore ----

  /** A stored snapshot: the entries of its objects in their order. */
  datatype Snapshot =
    | NoSnapshot
    | Snapshot(
        runtime: Option<Runtime>, epoch: int, maintenancePending: bool, sequence: int, floor: int,
        tabs: seq<(int, Tab)>, documents: seq<(string, Document)>, urlReceipts: seq<(string, UrlReceipt)>)

  function ValidSequence(n: int): nat {
    if 0 <= n <= MAX_SAFE_INTEGER then n else 0
  }

  function FirstEntries<E>(entries: seq<E>, limit: nat): seq<E> {
    if |entries| <= limit then entries else entries[..limit]
  }

  predicate SourceMatches(source: Option<Source>, receipt: Option<SecurityResult>, connect: Option<ConnectReceipt>) {
    source.Some? &&
    ((receipt.Some? && connect.None? && IsRust(source.value)) ||
     (receipt.None? && connect.Some? && IsConnect(source.value)))
  }

  /** The condition under which stored evidence for a target is taken back. */
  predicate Restorable(
    receipt: Option<SecurityResult>, connect: Option<ConnectReceipt>, epoch: Option<int>, source: Option<Source>,
    target: Target)
  {
    ValidEpoch(epoch).Some? &&
    ((receipt.Some? && receipt.value.mainFrame && receipt.value.host == target.host) || connect.Some?) &&
    SourceMatches(source, receipt, connect)
  }

  function RestoredDocument(
    canon: Canon, id: string, doc: Document, runtime: Option<Runtime>, now: real): Option<Document>
  {
    var target := canon(doc.target.url);
    if BoundedIdentifier(id).None? || target.None? || ValidTabId(doc.tabId).None? then
      None
    else
      var receipt := CurrentSecurityResult(doc.receipt, runtime);
      var connect := CurrentConnectReceipt(doc.connect, runtime, doc.receiptEpoch, target.value, now);
      if Restorable(receipt, connect, doc.receiptEpoch, doc.source, target.value) then
        Some(Document(doc.tabId, target.value, receipt, connect, doc.receiptEpoch, doc.source, doc.restored, None,
                      ValidSequence(doc.sequence)))
      else None
  }

  function RestoredUrlReceipt(
    canon: Canon, url: string, u: UrlReceipt, runtime: Option<Runtime>, now: real): Option<UrlReceipt>
  {
    var target := canon(url);
    if target.None? || target.value.url != url then
      None
    else
      var c := u.completion;
      var receipt := CurrentSecurityResult(c.receipt, runtime);
      var connect := CurrentConnectReceipt(c.connect, runtime, c.epoch, target.value, now);
      if Restorable(receipt, connect, c.epoch, c.source, target.value) then
        Some(UrlReceipt(Completion(receipt, connect, c.epoch, c.source, None), ValidSequence(u.sequence)))
      else None
  }

  function EventSequence(receipt: Option<SecurityResult>, connect: Option<ConnectReceipt>): int {
    if receipt.Some? then receipt.value.eventSequence
    else if connect.Some? then connect.value.decision.eventSequence
    else 0
  }

  function RestoreDocuments(canon: Canon, s: Store, entries: seq<(string, Document)>, now: real): Store {
    if entries == [] then
      s
    else
      var s1 := RestoreDocuments(canon, s, entries[..|entries| - 1], now);
      var (id, candidate) := entries[|entries| - 1];
      var doc := RestoredDocument(canon, id, candidate, s.runtime, now);
      if doc.None? || doc.value.receiptEpoch.value > s.epoch then s1
      else s1.(documents := s1.documents[id := doc.value],
               floor := MaxInt(s1.floor, EventSequence(doc.value.receipt, doc.value.connect)))
  }

  function RestoreUrlReceipts(canon: Canon, s: Store, entries: seq<(string, UrlReceipt)>, now: real): Store {
    if entries == [] then
      s
    else
      var s1 := RestoreUrlReceipts(canon, s, entries[..|entries| - 1], now);
      var (url, candidate) := entries[|entries| - 1];
      var u := RestoredUrlReceipt(canon, url, candidate, s.runtime, now);
      if u.None? || u.value.completion.epoch.value > s.epoch then s1
      else s1.(urlReceipts := s1.urlReceipts[url := u.value],
               floor := MaxInt(s1.floor, EventSequence(u.value.completion.receipt, u.value.completion.connect)))
  }

  function RestoreTabs(s: Store, entries: seq<(int, Tab)>): Store {
    if entries == [] then
      s
    else
      var s1 := RestoreTabs(s, entries[..|entries| - 1]);
      var (key, candidate) := entries[|entries| - 1];
      if ValidTabId(key).None? || candidate.documentId.None? || BoundedIdentifier(candidate.documentId.value).None? ||
         candidate.documentId.value !in s.documents
      then s1
      else WithTab(s1, key, Tab(candidate.documentId, Some(s.documents[candidate.documentId.value].target.url), None,
                                ValidSequence(candidate.sequence)))
  }

  function Restore(canon: Canon, snap: Snapshot, now: real): Out<bool> {
    if snap.NoSnapshot? || RuntimeTuple(snap.runtime).None? || ValidEpoch(Some(snap.epoch)).None? then
      Out(EMPTY, false, NoPruning)
    else
      var s0 := Store(snap.runtime, snap.epoch, snap.maintenancePending, ValidSequence(snap.sequence),
                      ValidSequence(snap.floor), map[], map[], map[], map[]);
      var s1 := RestoreDocuments(canon, s0, FirstEntries(snap.documents, MAX_DOCUMENTS), now);
      var s2 := RestoreUrlReceipts(canon, s1, FirstEntries(snap.urlReceipts, MAX_URL_RECEIPTS), now);
      Out(RestoreTabs(s2, FirstEntries(snap.tabs, MAX_TABS)), true, Everything)
  }

  /** The entries of an object, in some order. */
  ghost predicate Enumerates<K, V>(entries: seq<(K, V)>, m: map<K, V>) {
    |entries| == |m| &&
    (forall i :: 0 <= i < |entries| ==> entries[i].0 in m && m[entries[i].0] == entries[i].1) &&
    (forall k :: k in m ==> exists i :: 0 <= i < |entries| && entries[i].0 == k)
  }

  ghost predicate IsSnapshotOf(snap: Snapshot, s: Store) {
    snap.Snapshot? && snap.runtime == s.runtime && snap.epoch == s.epoch &&
    snap.maintenancePending == s.maintenancePending && snap.sequence == s.sequence && snap.floor == s.floor &&
    Enumerates(snap.documents, s.documents) && Enumerates(snap.urlReceipts, s.urlReceipts) &&
    |snap.tabs| == |s.tabs| &&
    (forall i :: 0 <= i < |snap.tabs| ==>
      0 <= snap.tabs[i].0 && snap.tabs[i].0 in s.tabs && s.tabs[snap.tabs[i].0] == snap.tabs[i].1) &&
    (forall k :: k in s.tabs ==> exists i :: 0 <= i < |snap.tabs| && snap.tabs[i].0 == k)
  }

  // ---- pruning ----

  /** `after` is `before` less the entries that pruneObject evicts for a limit: unprotected ones first,
      and lower ranks before higher ones among equally protected ones.  Ties are left open. */
  ghost predicate Evicted<K, V>(before: map<K, V>, after: map<K, V>, limit: nat, protected: set<K>, rank: V -> int) {
    (forall k :: k in after ==> k in before && after[k] == before[k]) &&
    |after| == (if |before| <= limit then |before| else limit) &&
    forall e, k :: e in before && e !in after && k in after ==>
      (k in protected || e !in protected) &&
      ((k in protected <==> e in protected) ==> rank(before[e]) <= rank(before[k]))
  }

  function ActiveDocuments(tabs: map<nat, Tab>): set<string> {
    set k | k in tabs && tabs[k].documentId.Some? :: tabs[k].documentId.value
  }

  function PendingRank(p: Pending): int { ValidSequence(p.sequence) }
  function DocumentRank(d: Document): int { ValidSequence(d.sequence) }
  function UrlRank(u: UrlReceipt): int { ValidSequence(u.sequence) }
  function TabRank(t: Tab): int { ValidSequence(t.sequence) }

  ghost predicate PendingPruned(before: Store, after: Store) {
    after == before.(pending := after.pending) &&
    Evicted(before.pending, after.pending, MAX_PENDING_REQUESTS, {}, PendingRank)
  }

  ghost predicate Pruned(before: Store, after: Store) {
    after == before.(pending := after.pending, documents := after.documents, urlReceipts := after.urlReceipts,
                     tabs := after.tabs) &&
    Evicted(before.documents, after.documents, MAX_DOCUMENTS, ActiveDocuments(before.tabs), DocumentRank) &&
    Evicted(before.urlReceipts, after.urlReceipts, MAX_URL_RECEIPTS, {}, UrlRank) &&
    Evicted(before.tabs, after.tabs, MAX_TABS, {}, TabRank) &&
    Evicted(before.pending, after.pending, MAX_PENDING_REQUESTS, {}, PendingRank)
  }

  /** The store an operation leaves. */
  ghost predicate Settled<R>(out: Out<R>, after: Store) {
    match out.pruning
    case NoPruning => after == out.store
    case PendingOnly => PendingPruned(out.store, after)
    case Everything => Pruned(out.store, after)
  }
}
