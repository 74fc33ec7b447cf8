/** What the operations of extension/src/navigation-receipts.js come to, on the fields of the store, the request, the
    browser's event and the native status: exactly when a completion gives evidence and which, which document it
    reaches, what a tab is shown, and exactly when a document has provider authority.  The limits are the source's. */
module NavigationOutcomes {
  import opened Basics
  import opened NavigationReceipts

  // ---- what is accepted ----

  ghost predicate AcceptedIdentifier(id: string) {
    1 <= |id| <= 160
  }

  ghost predicate AcceptedNumber(n: int) {
    1 <= n <= 0x1F_FFFF_FFFF_FFFF
  }

  ghost predicate AcceptedTab(tab: int) {
    0 <= tab <= 0x1F_FFFF_FFFF_FFFF
  }

  ghost predicate AcceptedRuntime(r: Option<Runtime>) {
    r.Some? && AcceptedIdentifier(r.value.session) && AcceptedNumber(r.value.generation) &&
    AcceptedNumber(r.value.policy)
  }

  /** A status that the store follows: for its runtime, of an epoch that is not behind. */
  ghost predicate Follows(s: Store, st: Status) {
    AcceptedRuntime(st.runtime) && st.epoch.Some? && AcceptedNumber(st.epoch.value) && s.runtime == st.runtime &&
    s.epoch <= st.epoch.value
  }

  /** A status that starts the store anew. */
  ghost predicate Replaces(s: Store, st: Status) {
    AcceptedRuntime(st.runtime) && st.epoch.Some? && AcceptedNumber(st.epoch.value) && s.runtime != st.runtime
  }

  /** A native response of this runtime. */
  ghost predicate ResponseOf(r: SecurityResult, runtime: Option<Runtime>) {
    r.wellFormed && Some(r.runtime) == runtime && AcceptedNumber(r.eventSequence)
  }

  /** A native CONNECT decision of this runtime and epoch for a target, as it is taken at a completion. */
  ghost predicate DecisionOf(
    x: ConnectDecision, runtime: Option<Runtime>, epoch: Option<int>, host: string, port: int, completedAt: real,
    now: real)
  {
    x.wellFormed && Some(x.runtime) == runtime && Some(x.epoch) == epoch && AcceptedNumber(x.epoch) &&
    AcceptedNumber(x.eventSequence) && x.host == host && x.port == port && 1577836800000.0 <= x.observedAt &&
    x.observedAt <= completedAt + 60000.0 &&
    (x.observedAt <= now + 300000.0 || x.observedAt <= completedAt + 300000.0)
  }

  /** A kept CONNECT receipt that still counts for a target. */
  ghost predicate ReceiptOf(
    c: ConnectReceipt, runtime: Option<Runtime>, epoch: Option<int>, target: Target, now: real)
  {
    100 <= c.status <= 599 && 1577836800000.0 <= c.completedAt && c.completedAt <= now + 300000.0 &&
    target.scheme == Https && DecisionOf(c.decision, runtime, epoch, target.host, target.port, c.completedAt, now)
  }

  // ---- a completion from the network ----

  /** The native response that answers a request. */
  ghost predicate Answers(r: SecurityResult, st: Status, p: Pending, d: Details) {
    ResponseOf(r, st.runtime) && r.mainFrame && r.host == p.target.host && r.eventSequence > p.eventFloor &&
    r.statusCode.Some? && r.statusCode == d.statusCode
  }

  ghost predicate Answered(st: Status, p: Pending, d: Details) {
    st.latest.Some? && Answers(st.latest.value, st, p, d)
  }

  /** CONNECT evidence is sought at all. */
  ghost predicate Timely(st: Status, p: Pending, d: Details, now: real) {
    p.target.scheme == Https && p.startedAt.Some? && d.timeStamp.Some? && 1577836800000.0 <= d.timeStamp.value &&
    d.timeStamp.value <= now + 300000.0 && p.startedAt.value <= d.timeStamp.value + 60000.0 &&
    d.statusCode.Some? && 100 <= d.statusCode.value <= 599 && st.decisions.Some? && |st.decisions.value| <= 32
  }

  ghost predicate ReportedFor(x: ConnectDecision, st: Status, p: Pending, d: Details, now: real)
    requires Timely(st, p, d, now)
  {
    x in st.decisions.value &&
    DecisionOf(x, st.runtime, st.epoch, p.target.host, p.target.port, d.timeStamp.value, now)
  }

  /** Observed since the request began, and above its floor. */
  ghost predicate FreshFor(x: ConnectDecision, st: Status, p: Pending, d: Details, now: real)
    requires Timely(st, p, d, now)
  {
    ReportedFor(x, st, p, d, now) && x.eventSequence > p.eventFloor && x.observedAt >= p.startedAt.value
  }

  /** Observed before the request began. */
  ghost predicate RetainedFor(x: ConnectDecision, st: Status, p: Pending, d: Details, now: real)
    requires Timely(st, p, d, now)
  {
    ReportedFor(x, st, p, d, now) && x.observedAt < p.startedAt.value
  }

  ghost predicate SameStatement(x: ConnectDecision, y: ConnectDecision) {
    x.fingerprint != "" && x.fingerprint == y.fingerprint && x.network == y.network && x.evidence == y.evidence
  }

  ghost predicate NotNewer(y: ConnectDecision, x: ConnectDecision) {
    y.eventSequence < x.eventSequence || (y.eventSequence == x.eventSequence && y.observedAt <= x.observedAt)
  }

  /** Fresh decisions decide, and without one the retained ones; any two of them must say the same. */
  ghost predicate Decided(st: Status, p: Pending, d: Details, now: real) {
    Timely(st, p, d, now) &&
    if exists x :: FreshFor(x, st, p, d, now) then
      forall x, y :: FreshFor(x, st, p, d, now) && FreshFor(y, st, p, d, now) ==> SameStatement(x, y)
    else
      (exists x :: RetainedFor(x, st, p, d, now)) &&
      forall x, y :: RetainedFor(x, st, p, d, now) && RetainedFor(y, st, p, d, now) ==> SameStatement(x, y)
  }

  /** The decision that is bound: the newest of those that decide. */
  ghost predicate Decides(x: ConnectDecision, source: Source, st: Status, p: Pending, d: Details, now: real)
    requires Timely(st, p, d, now)
  {
    if exists y :: FreshFor(y, st, p, d, now) then
      source == WebPkiPassthrough && FreshFor(x, st, p, d, now) &&
      forall y :: FreshFor(y, st, p, d, now) ==> NotNewer(y, x)
    else
      source == WebPkiConnectionReuse && RetainedFor(x, st, p, d, now) &&
      forall y :: RetainedFor(y, st, p, d, now) ==> NotNewer(y, x)
  }

  /** The request may be bound at all under this status. */
  ghost predicate Bindable(s: Store, p: Pending, st: Status) {
    Follows(s, st) && !s.maintenancePending && st.epoch == Some(p.epoch) && !p.ambiguous &&
      (p.verb.Get? || p.verb.Head?)
  }

  lemma {:induction false} InMatching(
    ds: seq<ConnectDecision>, s: Store, p: Pending, completedAt: real, now: real, x: ConnectDecision)
    ensures x in Matching(ds, s, p, completedAt, now) <==>
              x in ds && DecisionOf(x, s.runtime, Some(s.epoch), p.target.host, p.target.port, completedAt, now)
  {
    if ds != [] {
      InMatching(ds[..|ds| - 1], s, p, completedAt, now, x);
      assert ds == ds[..|ds| - 1] + [ds[|ds| - 1]];
    }
  }

  lemma {:induction false} InFresh(ds: seq<ConnectDecision>, floor: int, startedAt: real, x: ConnectDecision)
    ensures x in Fresh(ds, floor, startedAt) <==> x in ds && x.eventSequence > floor && x.observedAt >= startedAt
  {
    if ds != [] {
      InFresh(ds[..|ds| - 1], floor, startedAt, x);
      assert ds == ds[..|ds| - 1] + [ds[|ds| - 1]];
    }
  }

  lemma {:induction false} InRetained(ds: seq<ConnectDecision>, startedAt: real, x: ConnectDecision)
    ensures x in Retained(ds, startedAt) <==> x in ds && x.observedAt < startedAt
  {
    if ds != [] {
      InRetained(ds[..|ds| - 1], startedAt, x);
      assert ds == ds[..|ds| - 1] + [ds[|ds| - 1]];
    }
  }

  lemma {:induction false} NewestIs(ds: seq<ConnectDecision>)
    requires ds != []
    ensures Newest(ds) in ds && forall y :: y in ds ==> NotNewer(y, Newest(ds))
  {
    if |ds| > 1 {
      NewestIs(ds[..|ds| - 1]);
      assert ds == ds[..|ds| - 1] + [ds[|ds| - 1]];
    }
  }

  /** No candidate, candidates that do not all say the same, or the newest of those that do. */
  lemma SelectionIs(ds: seq<ConnectDecision>)
    ensures NewestEquivalent(ds).NoDecision? <==> ds == []
    ensures NewestEquivalent(ds).AmbiguousDecision? <==> exists x, y :: x in ds && y in ds && !SameStatement(x, y)
    ensures NewestEquivalent(ds).Selected? ==>
              NewestEquivalent(ds).decision in ds && forall y :: y in ds ==> NotNewer(y, NewestEquivalent(ds).decision)
  {
    if ds != [] {
      NewestIs(ds);
      assert ds[0] in ds;
      if i :| 0 <= i < |ds| && !SameEvidence(ds[0], ds[i]) {
        assert ds[i] in ds && !SameStatement(ds[0], ds[i]);
      }
    }
  }

  lemma Ensured(s: Store, st: Status, now: real)
    ensures var r := EnsureRuntime(s, st, now);
            if Follows(s, st) then
              r.result && r.store == s.(epoch := st.epoch.value, floor := r.store.floor,
                                        pending := if s.epoch < st.epoch.value then map[] else s.pending)
            else if Replaces(s, st) then
              r.result && r.store == EMPTY.(runtime := st.runtime, epoch := st.epoch.value, floor := r.store.floor)
            else !r.result && r.store == s
  {
  }

  lemma ConnectDecides(s: Store, p: Pending, d: Details, st: Status, now: real)
    requires s.runtime == st.runtime && Some(s.epoch) == st.epoch
    ensures var c := ConnectEvidence(s, p, d, st, now);
            c.receipt.None? && (c.connect.Some? <==> Decided(st, p, d, now)) &&
            (c.connect.Some? ==>
              var x := c.connect.value.decision;
              c == Completion(None, Some(ConnectReceipt(x, d.statusCode.value, d.timeStamp.value)), st.epoch, c.source,
                None) &&
              c.source.Some? && Decides(x, c.source.value, st, p, d, now))
    ensures var c := ConnectEvidence(s, p, d, st, now);
            c.connect.None? ==>
              c == Completion(None, None, None, None, Some(
                if Timely(st, p, d, now) && exists x :: FreshFor(x, st, p, d, now) || RetainedFor(x, st, p, d, now)
                then AmbiguousConnectSecurityDecision else ConnectSecurityDecisionUnavailable))
  {
    if Timely(st, p, d, now) {
      var started := p.startedAt.value;
      var matches := Matching(st.decisions.value, s, p, d.timeStamp.value, now);
      var since, before := Fresh(matches, p.eventFloor, started), Retained(matches, started);
      forall x ensures x in since <==> FreshFor(x, st, p, d, now) {
        InMatching(st.decisions.value, s, p, d.timeStamp.value, now, x);
        InFresh(matches, p.eventFloor, started, x);
      }
      forall x ensures x in before <==> RetainedFor(x, st, p, d, now) {
        InMatching(st.decisions.value, s, p, d.timeStamp.value, now, x);
        InRetained(matches, started, x);
      }
      SelectionIs(since);
      SelectionIs(before);
      assert since != [] ==> since[0] in since;
      assert before != [] ==> before[0] in before;
    }
  }

  /** The evidence that a completion from the network gives: the response if one answers, and otherwise the newest of
      the decisions that decide. */
  ghost predicate GivenBy(c: Completion, p: Pending, d: Details, st: Status, now: real)
    requires Answered(st, p, d) || Decided(st, p, d, now)
  {
    if Answered(st, p, d) then c == Completion(st.latest, None, st.epoch, Some(RustHttpResponse), None)
    else
      c.connect.Some? && c.source.Some? && Decides(c.connect.value.decision, c.source.value, st, p, d, now) &&
      c == Completion(
        None, Some(ConnectReceipt(c.connect.value.decision, d.statusCode.value, d.timeStamp.value)), st.epoch, c.source,
        None)
  }

  lemma EvidenceGives(s: Store, p: Pending, d: Details, st: Status, now: real)
    requires s.runtime == st.runtime && Some(s.epoch) == st.epoch
    ensures var c := NetworkEvidence(s, p, d, st, now);
            var bindable := p.epoch == s.epoch && !p.ambiguous && (p.verb.Get? || p.verb.Head?);
            if bindable && (Answered(st, p, d) || Decided(st, p, d, now)) then GivenBy(c, p, d, st, now)
            else c.reason.Some? && c == Completion(None, None, None, None, c.reason)
  {
    hide FreshFor, RetainedFor, Decides, ConnectEvidence, Timely, Decided;
    ConnectDecides(s, p, d, st, now);
  }

  /** A completion from the network gives evidence exactly when the request may be bound and either a native response
      answers it or the reported CONNECT decisions decide it; then that response, or the newest decision, is bound,
      and it is cached under the request's URL. */
  lemma NetworkGives(s: Store, p: Pending, d: Details, st: Status, now: real)
    ensures var c := Network(s, p, d, st, now).completion;
            if Bindable(s, p, st) && (Answered(st, p, d) || Decided(st, p, d, now)) then GivenBy(c, p, d, st, now)
            else c.reason.Some? && c == Completion(None, None, None, None, c.reason)
    ensures var r := Network(s, p, d, st, now);
            r.store.urlReceipts ==
            if Replaces(s, st) then map[]
            else if Bindable(s, p, st) && (Answered(st, p, d) || Decided(st, p, d, now)) then
              s.urlReceipts[p.target.url := UrlReceipt(r.completion, r.store.sequence)]
            else s.urlReceipts
  {
    hide FreshFor, RetainedFor, Decides, NetworkEvidence, EnsureRuntime, Timely, Decided, Answers;
    Ensured(s, st, now);
    if Follows(s, st) {
      EvidenceGives(Observed(EnsureRuntime(s, st, now).store, st), p, d, st, now);
    }
  }

  /** Why a completion from the network gives nothing. */
  ghost predicate Refuses(reason: Reason, s: Store, p: Pending, d: Details, st: Status, now: real) {
    if !AcceptedRuntime(st.runtime) || st.epoch.None? || !AcceptedNumber(st.epoch.value) then
      reason == RuntimeGenerationUnavailable
    else if s.runtime != st.runtime then reason == RuntimeGenerationChanged
    else if st.epoch.value < s.epoch || s.maintenancePending || p.epoch != st.epoch.value then
      reason == HeaderMaintenanceInvalidatedNavigation
    else if p.ambiguous then reason == AmbiguousMainFrameObservation
    else if !p.verb.Get? && !p.verb.Head? then reason == UnsupportedMainFrameMethod
    else if st.latest.Some? && ResponseOf(st.latest.value, st.runtime) then reason == MainFrameSecurityReceiptMismatch
    else if Timely(st, p, d, now) && exists x :: FreshFor(x, st, p, d, now) || RetainedFor(x, st, p, d, now) then
      reason == AmbiguousConnectSecurityDecision
    else reason == ConnectSecurityDecisionUnavailable
  }

  lemma NetworkRefuses(s: Store, p: Pending, d: Details, st: Status, now: real)
    ensures var c := Network(s, p, d, st, now).completion;
            c.reason.Some? ==> Refuses(c.reason.value, s, p, d, st, now)
  {
    hide FreshFor, RetainedFor, Decides, NoteNativeEvent, Timely, Decided, ConnectEvidence;
    Ensured(s, st, now);
    if Follows(s, st) {
      var s1 := Observed(EnsureRuntime(s, st, now).store, st);
      ConnectDecides(s1, p, d, st, now);
    }
  }

  // ---- a completion from the browser's cache ----

  /** The URL's receipt was bound in the epoch of the request and of the status. */
  ghost predicate Kept(s: Store, p: Pending, st: Status) {
    Follows(s, st) && !s.maintenancePending && st.epoch == Some(p.epoch) && (p.verb.Get? || p.verb.Head?) &&
    p.target.url in s.urlReceipts && s.urlReceipts[p.target.url].completion.epoch == st.epoch
  }

  /** It is a response of the request's host with this status code. */
  ghost predicate CacheAnswers(s: Store, p: Pending, d: Details, st: Status)
    requires Kept(s, p, st)
  {
    var kept := s.urlReceipts[p.target.url].completion;
    kept.receipt.Some? && ResponseOf(kept.receipt.value, s.runtime) && kept.receipt.value.mainFrame &&
    kept.receipt.value.host == p.target.host && kept.receipt.value.statusCode.Some? &&
    kept.receipt.value.statusCode == d.statusCode
  }

  /** It is a CONNECT receipt of the request's target with this status code. */
  ghost predicate CacheDecides(s: Store, p: Pending, d: Details, st: Status, now: real)
    requires Kept(s, p, st)
  {
    var kept := s.urlReceipts[p.target.url].completion;
    kept.connect.Some? && ReceiptOf(kept.connect.value, s.runtime, st.epoch, p.target, now) &&
    Some(kept.connect.value.status) == d.statusCode
  }

  /** A cached completion gives evidence exactly when the URL has such a receipt, and then that one. */
  lemma CachedGives(s: Store, p: Pending, d: Details, st: Status, now: real)
    ensures var c := Cached(s, p, d, st, now).completion;
            if Kept(s, p, st) && CacheAnswers(s, p, d, st) then
              c == Completion(s.urlReceipts[p.target.url].completion.receipt, None, st.epoch,
                              Some(RustHttpResponseCache), None)
            else if Kept(s, p, st) && CacheDecides(s, p, d, st, now) then
              c == Completion(None, s.urlReceipts[p.target.url].completion.connect, st.epoch, Some(WebPkiCacheReceipt),
                  None)
            else c.reason.Some? && c == Completion(None, None, None, None, c.reason)
    ensures Cached(s, p, d, st, now).store.urlReceipts == if Replaces(s, st) then map[] else s.urlReceipts
  {
    Ensured(s, st, now);
  }

  // ---- where a completion goes ----

  ghost predicate Known(canon: Canon, s: Store, d: Details) {
    AcceptedIdentifier(d.requestId) && d.requestId in s.pending && canon(d.url).Some? && AcceptedTab(d.tabId) &&
    d.tabId == s.pending[d.requestId].tabId
  }

  /** The request as the completion finds it: at the final URL, and of the document that the event names if none was
      known. */
  ghost function Final(canon: Canon, s: Store, d: Details): Pending
    requires Known(canon, s, d)
  {
    var p := s.pending[d.requestId];
    p.(target := canon(d.url).value,
       documentId := if p.documentId.Some? then p.documentId
                     else if AcceptedIdentifier(d.documentId) then Some(d.documentId) else None)
  }

  /** What a completion leaves of a document: its evidence if it is for the document, and nothing otherwise. */
  ghost predicate BoundTo(before: Document, after: Document, c: Completion, runtime: Option<Runtime>, now: real) {
    after == before.(receipt := after.receipt, connect := after.connect, receiptEpoch := after.receiptEpoch,
                     source := after.source, reason := after.reason, sequence := after.sequence) &&
    var response := c.source.Some? && (c.source.value.RustHttpResponse? || c.source.value.RustHttpResponseCache?);
    if response && c.receipt.Some? && ResponseOf(c.receipt.value, runtime) && c.receipt.value.host == before.target.host
    then
      after.receipt == c.receipt && after.connect.None? && after.receiptEpoch == c.epoch && after.source == c.source &&
      after.reason.None?
    else if c.source.Some? && !response && c.connect.Some? &&
            ReceiptOf(c.connect.value, runtime, c.epoch, before.target, now)
    then
      after.receipt.None? && after.connect == c.connect && after.receiptEpoch == c.epoch && after.source == c.source &&
      after.reason.None?
    else
      after.receipt.None? && after.connect.None? && after.receiptEpoch.None? && after.source.None? &&
      after.reason == Some(if c.reason.Some? then c.reason.value else MainFrameSecurityReceiptUnavailable)
  }

  /** A completion reaches the request's document, or that of the tab at the same URL, and no other; without one it
      waits with its request.  An unknown request, or one of another tab, changes no document. */
  lemma CompletionReaches(canon: Canon, s: Store, d: Details, st: Status, now: real)
    ensures var r := Complete(canon, s, d, st, now);
            if !Known(canon, s, d) then
              !r.result && r.store == s.(pending := r.store.pending) &&
              r.store.pending == if AcceptedIdentifier(d.requestId) then s.pending - {d.requestId} else s.pending
            else
              var id, p := d.requestId, Final(canon, s, d);
              var s1 := s.(pending := s.pending[id := p]);
              var evidence := if d.fromCache then Cached(s1, p, d, st, now) else Network(s1, p, d, st, now);
              var found, c := evidence.store, evidence.completion;
              var document := if p.documentId.Some? then p.documentId
                              else if p.tabId in found.tabs && found.tabs[p.tabId].url == Some(p.target.url)
                              then found.tabs[p.tabId].documentId else None;
              (r.result <==> c.receipt.Some? || c.connect.Some?) &&
              r.store.tabs == found.tabs && r.store.urlReceipts == found.urlReceipts &&
              if document.Some? && document.value in found.documents then
                r.store.pending == found.pending - {id} && r.store.documents.Keys == found.documents.Keys &&
                BoundTo(found.documents[document.value], r.store.documents[document.value], c, found.runtime, now) &&
                r.store.documents[document.value].sequence == r.store.sequence &&
                forall k :: k in found.documents && k != document.value ==> r.store.documents[k] == found.documents[k]
              else
                r.store.documents == found.documents &&
                r.store.pending == if id in found.pending then found.pending[id := p.(completion := Some(c))]
                                   else found.pending
  {
    hide Cached, Network, Concluded, BoundTo;
    if Known(canon, s, d) {
      var p := Final(canon, s, d);
      var s1 := s.(pending := s.pending[d.requestId := p]);
      var evidence := Evidence(s1, p, d, st, now);
      ConclusionReaches(evidence.store, d.requestId, p, evidence.completion, now);
    }
  }

  lemma ConclusionReaches(s: Store, id: string, p: Pending, c: Completion, now: real)
    ensures var r := Concluded(s, id, p, c, now);
            var document := if p.documentId.Some? then p.documentId
                            else if p.tabId in s.tabs && s.tabs[p.tabId].url == Some(p.target.url)
                            then s.tabs[p.tabId].documentId else None;
            r.tabs == s.tabs && r.urlReceipts == s.urlReceipts &&
            if document.Some? && document.value in s.documents then
              r.pending == s.pending - {id} && r.documents.Keys == s.documents.Keys &&
              BoundTo(s.documents[document.value], r.documents[document.value], c, s.runtime, now) &&
              r.documents[document.value].sequence == r.sequence &&
              forall k :: k in s.documents && k != document.value ==> r.documents[k] == s.documents[k]
            else
              r.documents == s.documents &&
              r.pending == if id in s.pending then s.pending[id := p.(completion := Some(c))] else s.pending
  {
    hide Bound, BoundTo;
    var document := p.documentId.OrElse(DocumentIdForTabAndUrl(s, p.tabId, p.target.url));
    if document.Some? && document.value in s.documents {
      BindingIs(s, s.documents[document.value], c, NextSequence(s).sequence, now);
    }
  }

  lemma BindingIs(s: Store, doc: Document, c: Completion, sequence: nat, now: real)
    ensures BoundTo(doc, Bound(s, doc, c, sequence, now), c, s.runtime, now)
    ensures Bound(s, doc, c, sequence, now).sequence == sequence
  {
  }

  /** A completion event gives evidence. */
  ghost predicate Gives(canon: Canon, s: Store, d: Details, st: Status, now: real) {
    Known(canon, s, d) &&
    var p := Final(canon, s, d);
    if d.fromCache then Kept(s, p, st) && (CacheAnswers(s, p, d, st) || CacheDecides(s, p, d, st, now))
    else Bindable(s, p, st) && (Answered(st, p, d) || Decided(st, p, d, now))
  }

  /** A completion succeeds exactly when it gives evidence; from the network that is then cached under the final URL,
      and otherwise what is cached stays as it is. */
  lemma CompletionSucceeds(canon: Canon, s: Store, d: Details, st: Status, now: real)
    ensures var r := Complete(canon, s, d, st, now);
            (r.result <==> Gives(canon, s, d, st, now)) &&
            if !Known(canon, s, d) then r.store.urlReceipts == s.urlReceipts
            else
              var p := Final(canon, s, d);
              if Replaces(s, st) then r.store.urlReceipts == map[]
              else if r.result && !d.fromCache then
                p.target.url in r.store.urlReceipts &&
                r.store.urlReceipts == s.urlReceipts[p.target.url := r.store.urlReceipts[p.target.url]] &&
                GivenBy(r.store.urlReceipts[p.target.url].completion, p, d, st, now)
              else r.store.urlReceipts == s.urlReceipts
  {
    hide Cached, Network, Concluded, BoundTo, Timely, Decided, Decides, Answers, FreshFor, RetainedFor, ReceiptOf;
    CompletionReaches(canon, s, d, st, now);
    if Known(canon, s, d) {
      var p := Final(canon, s, d);
      var s1 := s.(pending := s.pending[d.requestId := p]);
      if d.fromCache {
        CachedGives(s1, p, d, st, now);
      } else {
        NetworkGives(s1, p, d, st, now);
      }
    }
  }

  lemma CompletionResult(canon: Canon, s: Store, d: Details, st: Status, now: real)
    ensures Complete(canon, s, d, st, now).result <==> Gives(canon, s, d, st, now)
  {
    hide Complete, Gives;
    CompletionSucceeds(canon, s, d, st, now);
  }

  // ---- what a tab is shown ----

  ghost predicate ShowsResponse(doc: Document, runtime: Option<Runtime>) {
    doc.receipt.Some? && ResponseOf(doc.receipt.value, runtime)
  }

  ghost predicate ShowsConnect(doc: Document, runtime: Option<Runtime>, now: real) {
    doc.connect.Some? && ReceiptOf(doc.connect.value, runtime, doc.receiptEpoch, doc.target, now)
  }

  /** The document that a tab shows in a store. */
  ghost predicate Shown(s: Store, tabId: int) {
    AcceptedTab(tabId) && tabId in s.tabs && s.tabs[tabId].documentId.Some? &&
    s.tabs[tabId].documentId.value in s.documents
  }

  /** A tab is shown the evidence of its document as far as it still counts, with its source, and whether it is from
      before header maintenance, from the browser's cache, of a restored document or current; without evidence it is
      shown the reason. */
  lemma TabIsShown(s: Store, tabId: int, st: Status, now: real)
    ensures var r := ReceiptForTab(s, tabId, st, now);
            var after := EnsureRuntime(s, st, now).store;
            var v := r.result;
            r.store == after &&
            if !Follows(s, st) && !Replaces(s, st) then
              v == ReceiptView(None, None, Some(RuntimeGenerationUnavailable), NotAvailable, None)
            else if !Shown(after, tabId) then
              v == ReceiptView(None, None, v.reason, NotAvailable, None) && v.reason.Some? &&
              v.reason.value ==
              if !AcceptedTab(tabId) then NoActiveBrowserTab
              else if tabId in after.tabs && after.tabs[tabId].documentId.None? && after.tabs[tabId].reason.Some?
              then after.tabs[tabId].reason.value
              else ActiveDocumentReceiptUnavailable
            else
              var doc := after.documents[after.tabs[tabId].documentId.value];
              var response, connect := ShowsResponse(doc, after.runtime), ShowsConnect(doc, after.runtime, now);
              if !(response && doc.receipt.value.mainFrame) && !connect then
                v == ReceiptView(
                  None, None, Some(if doc.reason.Some? then doc.reason.value else MainFrameSecurityReceiptUnavailable),
                  NotAvailable, None)
              else
                v.receipt == (if response then doc.receipt else None) &&
                v.connect == (if connect then doc.connect else None) &&
                v.reason.None? && v.source == doc.source &&
                v.state ==
                if after.maintenancePending || doc.receiptEpoch.None? || doc.receiptEpoch.value < after.epoch then
                  CommittedBeforeHeaderMaintenance
                else if doc.source == Some(RustHttpResponseCache) ||
                  doc.source == Some(WebPkiCacheReceipt) then BrowserCache
                else if doc.restored then RestoredView
                else CurrentDocument
  {
    Ensured(s, st, now);
  }

  // ---- provider authority ----

  /** The status is followed and active behind the proxy, and no maintenance is pending. */
  ghost predicate Serving(s: Store, st: Status) {
    st.active && st.proxyActive && (Replaces(s, st) || (Follows(s, st) && !s.maintenancePending))
  }

  /** The tab shows the document that the query names, of its tab, origin and URL, over https and not restored. */
  ghost predicate Asked(canon: Canon, s: Store, q: Query) {
    AcceptedTab(q.tabId) && AcceptedIdentifier(q.documentId) && q.tabId in s.tabs &&
    s.tabs[q.tabId].documentId == Some(q.documentId) && q.documentId in s.documents &&
    var doc := s.documents[q.documentId];
    doc.tabId == q.tabId && doc.target.origin == q.origin && doc.target.scheme == Https && !doc.restored &&
    (q.url.Some? ==> canon(q.url.value).Some? && canon(q.url.value).value.url == doc.target.url)
  }

  /** The document's response vouches for it in the status's runtime and epoch. */
  ghost predicate Vouched(doc: Document, st: Status) {
    doc.receipt.Some? && doc.receiptEpoch == st.epoch &&
    var r := doc.receipt.value;
    ResponseOf(r, st.runtime) && r.host == doc.target.host && (r.namespace.HnsNamespace? || r.namespace.IcannNamespace?)
  }

  /** Authority is given exactly for the document that the tab shows under a serving status, vouched for by a current
      response of its host that was selected in one of the two namespaces; its fields are the document's and the
      response's. */
  lemma AuthorityIsGiven(canon: Canon, s: Store, q: Query, st: Status, now: real)
    ensures ProviderAuthority(canon, s, q, st, now).result ==
            if Serving(s, st) && s.runtime == st.runtime && Asked(canon, s, q) && Vouched(s.documents[q.documentId], st)
            then
              var doc := s.documents[q.documentId];
              var r := doc.receipt.value;
              Some(Authority(doc.target.origin, r.namespace, r.network, r.runtime, doc.sequence, q.documentId,
                             r.fingerprint))
            else None
  {
    Ensured(s, st, now);
  }
}
