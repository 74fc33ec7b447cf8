/** Provider authority is never stale: it rests on evidence that a main-frame request, begun and
    completed in the current runtime and maintenance epoch, obtained from the native status. */
module NavigationAuthority {
  import opened Basics
  import opened NavigationReceipts
  import opened NavigationRuns
  import Freshness = NavigationFreshness

  /** Evidence from one network completion: the epochs in which its request was begun and completed, and
      the native status that was read. */
  datatype Entry = Entry(
    runtime: Option<Runtime>, began: int, completed: int, status: Status, receipt: Option<SecurityResult>,
    connect: Option<ConnectReceipt>)

  /** The history of the current runtime. */
  datatype Ledger = Ledger(began: map<string, int>, entries: set<Entry>)

  const START := Ledger(map[], {})

  ghost function Obtained(canon: Canon, l: Ledger, s: Store, e: Event, now: real): set<Entry> {
    match e
    case CompleteEvent(d, st) =>
      var id, target := BoundedIdentifier(d.requestId), canon(d.url);
      if id.None? || id.value !in s.pending || id.value !in l.began || target.None? ||
         ValidTabId(d.tabId) != Some(s.pending[id.value].tabId) || d.fromCache
      then
        {}
      else
        var p := Completing(s.pending[id.value], target.value, d);
        var r := Network(s.(pending := s.pending[id.value := p]), p, d, st, now);
        if r.completion.receipt.Some? || r.completion.connect.Some? then
          {Entry(r.store.runtime, l.began[id.value], r.store.epoch, st, r.completion.receipt, r.completion.connect)}
        else {}
    case _ => {}
  }

  /** The requests still pending, with the epochs of their beginnings. */
  ghost function Began(l: Ledger, s: Store, e: Event, now: real, after: Store): map<string, int> {
    map k | k in after.pending ::
      if k in l.began && k in s.pending && !(e.BeginEvent? && k !in EnsureRuntime(s, e.st, now).store.pending)
      then l.began[k] else after.epoch
  }

  ghost function Record(canon: Canon, l: Ledger, s: Store, e: Event, now: real, after: Store): Ledger {
    Ledger(Began(l, s, e, now, after),
           if after.runtime != s.runtime then {} else l.entries + Obtained(canon, l, s, e, now))
  }

  ghost function LedgerOf(canon: Canon, steps: seq<Step>): Ledger {
    if steps == [] then
      START
    else
      var n := |steps| - 1;
      Record(canon, LedgerOf(canon, steps[..n]), Last(EMPTY, steps[..n]), steps[n].event, steps[n].now, steps[n].after)
  }

  // ---- every piece of stored evidence has its entry ----

  ghost predicate Supported(
    entries: set<Entry>, receipt: Option<SecurityResult>, connect: Option<ConnectReceipt>, epoch: Option<int>)
  {
    if epoch.None? then receipt.None? && connect.None?
    else exists e :: e in entries && e.receipt == receipt && e.connect == connect && e.completed == epoch.value
  }

  ghost predicate Backed(entries: set<Entry>, c: Completion) {
    Supported(entries, c.receipt, c.connect, c.epoch)
  }

  ghost predicate BackedDocument(entries: set<Entry>, doc: Document) {
    Supported(entries, doc.receipt, doc.connect, doc.receiptEpoch)
  }

  ghost predicate AllBacked(entries: set<Entry>, s: Store) {
    (forall k :: k in s.documents ==> BackedDocument(entries, s.documents[k])) &&
    (forall k :: k in s.urlReceipts ==> Backed(entries, s.urlReceipts[k].completion)) &&
    (forall k :: k in s.pending && s.pending[k].completion.Some? ==> Backed(entries, s.pending[k].completion.value))
  }

  /** The evidence is of the runtime and was reported by the native status, a response only as one of a main
      frame. */
  ghost predicate Reported(e: Entry) {
    if e.receipt.Some? then
      e.connect.None? && e.receipt == e.status.latest && e.receipt.value.mainFrame &&
        e.runtime == Some(e.receipt.value.runtime)
    else
      e.connect.Some? && e.status.decisions.Some? && e.connect.value.decision in e.status.decisions.value &&
      e.runtime == Some(e.connect.value.decision.runtime)
  }

  ghost predicate Proper(e: Entry, s: Store) {
    e.runtime.Some? && e.runtime == s.runtime == RuntimeTuple(e.status.runtime) &&
    e.began == e.completed <= s.epoch && Some(e.completed) == ValidEpoch(e.status.epoch) && Reported(e)
  }

  ghost predicate Dated(l: Ledger, s: Store) {
    l.began.Keys == s.pending.Keys && forall k :: k in s.pending ==> l.began[k] == s.pending[k].epoch
  }

  ghost predicate Inv(l: Ledger, s: Store) {
    Dated(l, s) && AllBacked(l.entries, s) && forall e :: e in l.entries ==> Proper(e, s)
  }

  lemma BackedGrows(entries: set<Entry>, more: set<Entry>, s: Store)
    requires AllBacked(entries, s)
    ensures AllBacked(entries + more, s)
  {
    forall r: Option<SecurityResult>, c: Option<ConnectReceipt>, e: Option<int>
      ensures Supported(entries, r, c, e) ==> Supported(entries + more, r, c, e)
    {
      if Supported(entries, r, c, e) && e.Some? {
        var x :| x in entries && x.receipt == r && x.connect == c && x.completed == e.value;
        assert x in entries + more;
      }
    }
  }

  ghost predicate SameEvidenceDocument(a: Document, b: Document) {
    a.receipt == b.receipt && a.connect == b.connect && a.receiptEpoch == b.receiptEpoch
  }

  ghost predicate SameEvidenceCompletion(a: Completion, b: Completion) {
    a.receipt == b.receipt && a.connect == b.connect && a.epoch == b.epoch
  }

  /** `after` holds only evidence that `s` held, or none. */
  ghost predicate Inherits(s: Store, after: Store) {
    (forall k :: k in after.documents ==> InheritsEvidence(s, k, after.documents[k])) &&
    (forall k :: k in after.urlReceipts ==>
      k in s.urlReceipts && after.urlReceipts[k].completion == s.urlReceipts[k].completion) &&
    (forall k :: k in after.pending && after.pending[k].completion.Some? ==>
      k in s.pending && after.pending[k].completion == s.pending[k].completion)
  }

  ghost predicate InheritsEvidence(s: Store, k: string, doc: Document) {
    (doc.receipt.None? && doc.connect.None? && doc.receiptEpoch.None?) ||
    (k in s.documents && SameEvidenceDocument(s.documents[k], doc)) ||
    FromPending(s, doc)
  }

  ghost predicate FromPending(s: Store, doc: Document) {
    exists j :: j in s.pending && s.pending[j].completion.Some? &&
      doc.receipt == s.pending[j].completion.value.receipt && doc.connect == s.pending[j].completion.value.connect &&
      doc.receiptEpoch == s.pending[j].completion.value.epoch
  }

  lemma InheritedIsBacked(entries: set<Entry>, s: Store, after: Store)
    requires AllBacked(entries, s) && Inherits(s, after)
    ensures AllBacked(entries, after)
  {
    hide Supported;
    forall k | k in after.documents ensures BackedDocument(entries, after.documents[k]) {
      InheritedDocument(entries, s, k, after.documents[k]);
    }
  }

  lemma InheritedIsClean(s: Store, after: Store)
    requires AllClean(s) && Inherits(s, after)
    ensures AllClean(after)
  {
    forall k | k in after.documents
      ensures Clean(after.documents[k].receipt, after.documents[k].connect, after.documents[k].receiptEpoch)
    {
      assert InheritsEvidence(s, k, after.documents[k]);
    }
  }

  lemma InheritedDocument(entries: set<Entry>, s: Store, k: string, doc: Document)
    requires AllBacked(entries, s) && InheritsEvidence(s, k, doc)
    ensures BackedDocument(entries, doc)
  {
  }

  // ---- evidence is of one kind ----

  ghost predicate Clean(receipt: Option<SecurityResult>, connect: Option<ConnectReceipt>, epoch: Option<int>) {
    if epoch.None? then receipt.None? && connect.None? else receipt.Some? <==> connect.None?
  }

  ghost predicate AllClean(s: Store) {
    (forall k :: k in s.documents ==> Clean(s.documents[k].receipt, s.documents[k].connect,
      s.documents[k].receiptEpoch)) &&
    (forall k :: k in s.urlReceipts ==>
      var c := s.urlReceipts[k].completion; Clean(c.receipt, c.connect, c.epoch)) &&
    (forall k :: k in s.pending && s.pending[k].completion.Some? ==>
      var c := s.pending[k].completion.value; Clean(c.receipt, c.connect, c.epoch))
  }

  lemma InvIsClean(l: Ledger, s: Store)
    requires Inv(l, s)
    ensures AllClean(s)
  {
  }

  // ---- operations that bring no new evidence ----

  lemma BindInherits(s: Store, id: string, k: string, now: real)
    requires id in s.documents && k in s.pending && s.pending[k].completion.Some? && AllClean(s)
    ensures Inherits(s, Bind(s, id, s.pending[k].completion.value, now))
  {
    var c := s.pending[k].completion.value;
    var doc := Bind(s, id, c, now).documents[id];
    assert (doc.receipt, doc.connect, doc.receiptEpoch) == (c.receipt, c.connect, c.epoch) || doc.receiptEpoch.None?;
  }

  lemma InheritsTransitive(s: Store, mid: Store, after: Store)
    requires Inherits(s, mid) && Inherits(mid, after)
    ensures Inherits(s, after)
  {
    forall k | k in after.documents ensures InheritsEvidence(s, k, after.documents[k]) {
      assert InheritsEvidence(mid, k, after.documents[k]);
    }
  }

  lemma EnsureInherits(s: Store, st: Status, now: real)
    ensures Inherits(s, EnsureRuntime(s, st, now).store)
  {
    hide EnsureRuntime;
    EnsureCases(s, st, now);
  }

  lemma MarkedInherits(s: Store, id: string, p: Pending, n: nat)
    requires if id in s.pending then p.completion == s.pending[id].completion else p.completion.None?
    ensures Inherits(s, s.(sequence := n, pending := MarkHostConflicts(s.pending[id := p], id, p.target.host)))
  {
    hide FromPending;
  }

  lemma BeginInherits(canon: Canon, s: Store, d: Details, st: Status, now: real)
    ensures Inherits(s, Begin(canon, s, d, st, now).store)
  {
    hide EnsureRuntime, Inherits, MarkHostConflicts, NextSequence;
    EnsureInherits(s, st, now);
    var mid, after := EnsureRuntime(s, st, now).store, Begin(canon, s, d, st, now).store;
    if Begin(canon, s, d, st, now).result {
      var target := canon(d.url).value;
      if d.requestId in mid.pending {
        var p := mid.pending[d.requestId];
        MarkedInherits(mid, d.requestId,
          p.(target := target, verb := d.verb, documentId := p.documentId.OrElse(BoundedIdentifier(d.documentId))),
          mid.sequence);
      } else {
        var n := NextSequence(mid).sequence;
        MarkedInherits(mid, d.requestId,
          Pending(d.tabId, BoundedIdentifier(d.documentId), target, d.verb, ValidBrowserTimestamp(d.timeStamp, now),
                  mid.floor, mid.epoch, false, None, n), n);
      }
      InheritsTransitive(s, mid, after);
    }
  }

  lemma RedirectInherits(canon: Canon, s: Store, d: Details)
    ensures Inherits(s, Redirect(canon, s, d).store)
  {
    hide FromPending;
  }

  ghost predicate PendingFrom(s: Store, after: Store) {
    forall k :: k in after.pending ==> k in s.pending && after.pending[k].completion == s.pending[k].completion
  }

  lemma DocumentInherits(s: Store, after: Store, id: string, doc: Document)
    requires after.documents == s.documents[id := doc] && after.urlReceipts == s.urlReceipts && PendingFrom(s, after)
    requires (doc.receipt.None? && doc.connect.None? && doc.receiptEpoch.None?) ||
             (id in s.documents && SameEvidenceDocument(s.documents[id], doc))
    ensures Inherits(s, after)
  {
    hide FromPending;
  }

  lemma DocumentsInherited(s: Store, after: Store)
    requires after.documents == s.documents && after.urlReceipts == s.urlReceipts && PendingFrom(s, after)
    ensures Inherits(s, after)
  {
    hide FromPending;
  }

  lemma DroppedInherits(s: Store, mid: Store, after: Store)
    requires Inherits(s, mid) && after.documents == mid.documents && after.urlReceipts == mid.urlReceipts
    requires PendingFrom(mid, after)
    ensures Inherits(s, after)
  {
    hide FromPending;
  }

  lemma RecommitInherits(s: Store, id: string, target: Target, tab: nat, forwardBack: bool)
    requires id in s.documents
    ensures Inherits(s, Recommit(s, id, target, tab, forwardBack))
  {
    hide NextSequence, Inherits;
    var r := Recommit(s, id, target, tab, forwardBack);
    DocumentInherits(s, r, id, r.documents[id]);
  }

  lemma CommitNewInherits(
    s: Store, id: string, target: Target, tab: nat, forwardBack: bool, reason: Reason, pick: Option<string>, now: real)
    requires AllClean(s) && (pick.Some? ==> pick.value in s.pending) && id !in s.documents
    ensures Inherits(s, CommitNew(s, id, target, tab, forwardBack, reason, pick, now))
  {
    hide NewDocument, Bind, AllClean, Inherits;
    var r := CommitNew(s, id, target, tab, forwardBack, reason, pick, now);
    var why := if pick.Some? then MainFrameSecurityPending else reason;
    NewDocumentShape(s, id, target, tab, forwardBack, why);
    var s2 := NewDocument(s, id, target, tab, forwardBack, why);
    if pick.Some? && s.pending[pick.value].completion.Some? {
      BindNewInherits(s, s2, id, s2.documents[id], pick.value, now);
      DroppedInherits(s, Bind(s2, id, s.pending[pick.value].completion.value, now), r);
    } else {
      DocumentInherits(s, r, id, s2.documents[id]);
    }
  }

  lemma CommitInherits(canon: Canon, s: Store, d: Details, reason: Reason, pick: Option<string>, now: real)
    requires AllClean(s) && (pick.Some? ==> pick.value in s.pending)
    ensures Inherits(s, Commit(canon, s, d, reason, pick, now).store)
  {
    hide Recommit, CommitNew, WithoutDocument, AllClean, Inherits;
    var tab, id, target := ValidTabId(d.tabId), BoundedIdentifier(d.documentId), canon(d.url);
    DocumentsInherited(s, s);
    if tab.Some? {
      WithoutDocumentShape(s, target, tab.value, UnsupportedMainFrame);
      DocumentsInherited(s, WithoutDocument(s, target, tab.value, UnsupportedMainFrame));
    }
    if tab.Some? && id.Some? && target.Some? {
      if id.value in s.documents {
        RecommitInherits(s, id.value, target.value, tab.value, d.forwardBack);
      } else {
        CommitNewInherits(s, id.value, target.value, tab.value, d.forwardBack, reason, pick, now);
      }
    }
  }

  lemma BindNewInherits(s: Store, s2: Store, id: string, doc: Document, k: string, now: real)
    requires AllClean(s) && k in s.pending && s.pending[k].completion.Some? && id !in s.documents
    requires s2.documents == s.documents[id := doc] && s2.pending == s.pending && s2.urlReceipts == s.urlReceipts
    requires doc.receipt.None? && doc.connect.None? && doc.receiptEpoch.None?
    ensures Inherits(s, Bind(s2, id, s.pending[k].completion.value, now))
  {
    assert AllClean(s2);
    BindInherits(s2, id, k, now);
    hide Bind, FromPending;
    assert Inherits(s, s2);
    InheritsTransitive(s, s2, Bind(s2, id, s.pending[k].completion.value, now));
  }

  lemma FailuresInherit(canon: Canon, s: Store, d: Details)
    ensures Inherits(s, FailNavigation(canon, s, d).store)
    ensures Inherits(s, FailRequest(s, d).store)
  {
    hide FromPending;
  }

  lemma RemoveTabInherits(s: Store, tabId: int)
    ensures Inherits(s, RemoveTab(s, tabId).store)
  {
    hide FromPending;
  }

  lemma ReplaceTabInherits(s: Store, tabId: int, otherId: int)
    ensures Inherits(s, ReplaceTab(s, tabId, otherId).store)
  {
    hide FromPending;
  }

  lemma MaintenanceInherits(s: Store, st: Status, seconds: int, now: real)
    ensures Inherits(s, BeginMaintenance(s, st, now).store)
    ensures Inherits(s, CompleteMaintenance(s, st, seconds, now).store)
  {
    hide EnsureRuntime;
    EnsureCases(s, st, now);
  }

  lemma RestartInherits(canon: Canon, s: Store, snap: Snapshot, now: real)
    requires IsSnapshotOf(snap, s) && AllClean(s)
    ensures var r := Restore(canon, snap, now).store;
            r.runtime == s.runtime ==> AllBackedAfterRestart(s, r)
  {
    hide RestoreDocuments, RestoreUrlReceipts, RestoreTabs, AllClean, IsSnapshotOf;
    SnapshotRuntime(snap, s);
    if RuntimeTuple(snap.runtime).Some? && ValidEpoch(Some(snap.epoch)).Some? {
      var s0 := Store(snap.runtime, snap.epoch, snap.maintenancePending, ValidSequence(snap.sequence),
                      ValidSequence(snap.floor), map[], map[], map[], map[]);
      var docs, urls := FirstEntries(snap.documents, MAX_DOCUMENTS), FirstEntries(snap.urlReceipts, MAX_URL_RECEIPTS);
      var s1 := RestoreDocuments(canon, s0, docs, now);
      var s2 := RestoreUrlReceipts(canon, s1, urls, now);
      RestoreDocumentsKeeps(canon, s0, docs, now);
      RestoreUrlReceiptsKeeps(canon, s1, urls, now);
      RestoreTabsKeeps(s2, FirstEntries(snap.tabs, MAX_TABS));
      forall k | k in s1.documents ensures k in s.documents && SameEvidenceDocument(s.documents[k], s1.documents[k]) {
        RestartedDocument(canon, s, snap, s0, now, k);
      }
      forall k | k in s2.urlReceipts
        ensures k in s.urlReceipts && SameEvidenceCompletion(s.urlReceipts[k].completion, s2.urlReceipts[k].completion)
      {
        RestartedUrlReceipt(canon, s, snap, s1, now, k);
      }
    }
  }

  lemma SnapshotRuntime(snap: Snapshot, s: Store)
    requires IsSnapshotOf(snap, s)
    ensures snap.Snapshot? && snap.runtime == s.runtime
  {
  }

  lemma RestartedDocument(canon: Canon, s: Store, snap: Snapshot, s0: Store, now: real, k: string)
    requires IsSnapshotOf(snap, s) && AllClean(s) && s0.documents == map[] && s0.runtime == s.runtime
    requires k in RestoreDocuments(canon, s0, FirstEntries(snap.documents, MAX_DOCUMENTS), now).documents
    ensures k in s.documents && SameEvidenceDocument(
              s.documents[k], RestoreDocuments(canon, s0, FirstEntries(snap.documents, MAX_DOCUMENTS),
                  now).documents[k])
  {
    hide RestoredDocument, RestoreDocuments;
    RestoredDocumentsAre(canon, s0, FirstEntries(snap.documents, MAX_DOCUMENTS), now, k);
    RestoredDocumentSame(canon, k, s.documents[k], s.runtime, now);
  }

  lemma RestartedUrlReceipt(canon: Canon, s: Store, snap: Snapshot, s1: Store, now: real, k: string)
    requires IsSnapshotOf(snap, s) && AllClean(s) && s1.urlReceipts == map[] && s1.runtime == s.runtime
    requires k in RestoreUrlReceipts(canon, s1, FirstEntries(snap.urlReceipts, MAX_URL_RECEIPTS), now).urlReceipts
    ensures k in s.urlReceipts && SameEvidenceCompletion(
              s.urlReceipts[k].completion,
              RestoreUrlReceipts(canon, s1, FirstEntries(snap.urlReceipts, MAX_URL_RECEIPTS),
                  now).urlReceipts[k].completion)
  {
    hide RestoredUrlReceipt, RestoreUrlReceipts;
    RestoredUrlReceiptsAre(canon, s1, FirstEntries(snap.urlReceipts, MAX_URL_RECEIPTS), now, k);
    RestoredUrlReceiptSame(canon, k, s.urlReceipts[k], s.runtime, now);
  }

  ghost predicate AllBackedAfterRestart(s: Store, r: Store) {
    (forall k :: k in r.documents ==> k in s.documents && SameEvidenceDocument(s.documents[k], r.documents[k])) &&
    (forall k :: k in r.urlReceipts ==>
      k in s.urlReceipts && SameEvidenceCompletion(s.urlReceipts[k].completion, r.urlReceipts[k].completion)) &&
    r.pending == map[]
  }

  lemma RestoredDocumentSame(canon: Canon, id: string, doc: Document, runtime: Option<Runtime>, now: real)
    requires Clean(doc.receipt, doc.connect, doc.receiptEpoch)
    ensures var r := RestoredDocument(canon, id, doc, runtime, now);
            r.Some? ==> SameEvidenceDocument(doc, r.value)
  {
  }

  lemma RestoredUrlReceiptSame(canon: Canon, url: string, u: UrlReceipt, runtime: Option<Runtime>, now: real)
    requires Clean(u.completion.receipt, u.completion.connect, u.completion.epoch)
    ensures var r := RestoredUrlReceipt(canon, url, u, runtime, now);
            r.Some? ==> SameEvidenceCompletion(u.completion, r.value.completion)
  {
  }

  // ---- completions ----

  lemma {:induction false} MatchingFrom(
    ds: seq<ConnectDecision>, s: Store, p: Pending, completedAt: real, now: real, x: ConnectDecision)
    requires x in Matching(ds, s, p, completedAt, now)
    ensures x in ds && CurrentDecision(x, s.runtime, Some(s.epoch), MaxReal(now, completedAt))
    ensures x.host == p.target.host && x.port == p.target.port
    ensures x.observedAt <= completedAt + MAX_COMPLETION_CLOCK_SKEW_MS
  {
    hide CurrentDecision;
    if x != ds[|ds| - 1] {
      MatchingFrom(ds[..|ds| - 1], s, p, completedAt, now, x);
    } else if x in Matching(ds[..|ds| - 1], s, p, completedAt, now) {
      MatchingFrom(ds[..|ds| - 1], s, p, completedAt, now, x);
    }
  }

  lemma {:induction false} FreshFrom(ds: seq<ConnectDecision>, floor: int, startedAt: real, x: ConnectDecision)
    requires x in Fresh(ds, floor, startedAt)
    ensures x in ds && x.eventSequence > floor && x.observedAt >= startedAt
  {
    if x in Fresh(ds[..|ds| - 1], floor, startedAt) {
      FreshFrom(ds[..|ds| - 1], floor, startedAt, x);
    }
  }

  lemma {:induction false} RetainedFrom(ds: seq<ConnectDecision>, startedAt: real, x: ConnectDecision)
    requires x in Retained(ds, startedAt)
    ensures x in ds && x.observedAt < startedAt
  {
    if x in Retained(ds[..|ds| - 1], startedAt) {
      RetainedFrom(ds[..|ds| - 1], startedAt, x);
    }
  }

  /** A CONNECT receipt made by a completion is current, and its decision is one the status reports. */
  lemma ConnectFromStatus(s: Store, p: Pending, d: Details, st: Status, now: real)
    requires ConnectEvidence(s, p, d, st, now).connect.Some?
    ensures var c := ConnectEvidence(s, p, d, st, now);
            c.receipt.None? && c.epoch == Some(s.epoch) && st.decisions.Some? &&
            c.connect.value.decision in st.decisions.value && s.runtime == Some(c.connect.value.decision.runtime) &&
            c.source.Some? && IsConnect(c.source.value) &&
            (ValidEpoch(Some(s.epoch)).Some? ==>
              CurrentConnect(c.connect.value, s.runtime, Some(s.epoch), p.target, now))
  {
    hide Matching, Fresh, Retained, NewestEquivalent, CurrentDecision;
    var completedAt := d.timeStamp.value;
    var matches := Matching(st.decisions.value, s, p, completedAt, now);
    var x := ConnectEvidence(s, p, d, st, now).connect.value.decision;
    if x in Fresh(matches, p.eventFloor, p.startedAt.value) {
      FreshFrom(matches, p.eventFloor, p.startedAt.value, x);
    } else {
      RetainedFrom(matches, p.startedAt.value, x);
    }
    MatchingFrom(st.decisions.value, s, p, completedAt, now, x);
    CurrentIsOfRuntime(x, s.runtime, Some(s.epoch), MaxReal(now, completedAt));
  }

  lemma CurrentIsOfRuntime(x: ConnectDecision, runtime: Option<Runtime>, epoch: Option<int>, now: real)
    requires CurrentDecision(x, runtime, epoch, now)
    ensures runtime == Some(x.runtime)
  {
  }

  ghost predicate NoEvidence(c: Completion) {
    c.receipt.None? && c.connect.None? && c.epoch.None?
  }

  lemma EvidenceReports(s: Store, p: Pending, d: Details, st: Status, now: real)
    ensures var c := NetworkEvidence(s, p, d, st, now);
            NoEvidence(c) ||
            (p.epoch == s.epoch && c.epoch == Some(s.epoch) &&
              Reported(Entry(s.runtime, 0, 0, st, c.receipt, c.connect)))
  {
    hide ConnectEvidence;
    if ConnectEvidence(s, p, d, st, now).connect.Some? {
      ConnectFromStatus(s, p, d, st, now);
    }
    ConnectUnavailable(s, p, d, st, now);
  }

  /** What a network completion that found evidence says about it. */
  lemma NetworkReports(s: Store, p: Pending, d: Details, st: Status, now: real)
    ensures var r := Network(s, p, d, st, now); var c := r.completion;
            NoEvidence(c) ||
            (s.runtime.Some? && r.store.runtime == s.runtime == RuntimeTuple(st.runtime) &&
             p.epoch == r.store.epoch && c.epoch == Some(r.store.epoch) == ValidEpoch(st.epoch) &&
             Reported(Entry(s.runtime, 0, 0, st, c.receipt, c.connect)))
  {
    hide EnsureRuntime, NetworkEvidence, Reported;
    EnsureCases(s, st, now);
    EvidenceReports(Observed(EnsureRuntime(s, st, now).store, st), p, d, st, now);
  }

  lemma ConnectUnavailable(s: Store, p: Pending, d: Details, st: Status, now: real)
    ensures var c := ConnectEvidence(s, p, d, st, now);
            c.receipt.None? && (c.connect.None? ==> c.reason.Some? && c == Unavailable(c.reason.value))
  {
    hide Matching, Fresh, Retained, NewestEquivalent;
  }

  lemma CachedReports(s: Store, p: Pending, d: Details, now: real)
    requires AllClean(s)
    ensures var c := CachedEvidence(s, p, d, now);
            NoEvidence(c) ||
            (p.target.url in s.urlReceipts && SameEvidenceCompletion(s.urlReceipts[p.target.url].completion, c))
  {
    hide CurrentResult, CurrentConnect;
  }

  ghost predicate Emptied(s: Store) {
    s.documents == map[] && s.urlReceipts == map[] && s.pending == map[]
  }

  ghost predicate EvidenceHeld(entries: set<Entry>, s: Store, r: Completed) {
    if r.store.runtime == s.runtime then
      AllBacked(entries, r.store) && Backed(entries, r.completion) &&
      Clean(r.completion.receipt, r.completion.connect, r.completion.epoch)
    else Emptied(r.store) && NoEvidence(r.completion)
  }

  lemma CachedKeeps(entries: set<Entry>, s: Store, p: Pending, d: Details, st: Status, now: real)
    requires AllBacked(entries, s) && AllClean(s)
    ensures EvidenceHeld(entries, s, Cached(s, p, d, st, now))
  {
    hide EnsureRuntime, CachedEvidence, Supported, AllBacked, AllClean, Inherits;
    var t := EnsureRuntime(s, st, now).store;
    EnsureCases(s, st, now);
    EnsureInherits(s, st, now);
    InheritedIsBacked(entries, s, t);
    if t.runtime == s.runtime {
      InheritedIsClean(s, t);
      CachedBacked(entries, t, p, d, now);
    }
    Unsupported(entries);
  }

  lemma Unsupported(entries: set<Entry>)
    ensures forall c: Completion :: NoEvidence(c) ==> Backed(entries, c) && Clean(c.receipt, c.connect, c.epoch)
  {
  }

  lemma CachedBacked(entries: set<Entry>, s: Store, p: Pending, d: Details, now: real)
    requires AllBacked(entries, s) && AllClean(s)
    ensures var c := CachedEvidence(s, p, d, now); Backed(entries, c) && Clean(c.receipt, c.connect, c.epoch)
  {
    hide CachedEvidence;
    CachedReports(s, p, d, now);
  }

  lemma NetworkKeeps(entries: set<Entry>, s: Store, p: Pending, d: Details, st: Status, now: real)
    requires AllBacked(entries, s)
    requires var r := Network(s, p, d, st, now); var c := r.completion;
             NoEvidence(c) ||
             exists e :: e in entries && e.receipt == c.receipt && e.connect == c.connect &&
               e.completed == r.store.epoch
    ensures EvidenceHeld(entries, s, Network(s, p, d, st, now))
  {
    hide EnsureRuntime, NetworkEvidence, AllBacked, Inherits;
    var r := Network(s, p, d, st, now);
    var t := EnsureRuntime(s, st, now).store;
    EnsureCases(s, st, now);
    EnsureInherits(s, st, now);
    InheritedIsBacked(entries, s, t);
    NetworkReports(s, p, d, st, now);
    EvidenceReports(Observed(t, st), p, d, st, now);
    if r.store.runtime == s.runtime {
      if RuntimeTuple(st.runtime).Some? && ValidEpoch(st.epoch).Some? {
        CachingBacked(entries, t, r.store, p.target.url, r.completion);
      }
    }
  }

  lemma CachingBacked(entries: set<Entry>, s: Store, after: Store, url: string, c: Completion)
    requires AllBacked(entries, s) && Backed(entries, c)
    requires after.documents == s.documents && after.pending == s.pending
    requires forall k :: k in after.urlReceipts ==>
               (k in s.urlReceipts && after.urlReceipts[k] == s.urlReceipts[k]) ||
               (k == url && after.urlReceipts[k].completion == c)
    ensures AllBacked(entries, after)
  {
    hide Supported;
  }

  lemma ConcludedBacked(entries: set<Entry>, s: Store, id: string, p: Pending, c: Completion, now: real)
    requires AllBacked(entries, s) && Backed(entries, c) && Clean(c.receipt, c.connect, c.epoch)
    ensures AllBacked(entries, Concluded(s, id, p, c, now))
  {
    hide Bound, Supported;
    var documentId := p.documentId.OrElse(DocumentIdForTabAndUrl(s, p.tabId, p.target.url));
    if documentId.Some? && documentId.value in s.documents {
      BoundBacked(entries, s, s.documents[documentId.value], c, NextSequence(s).sequence, now);
    }
  }

  lemma BoundBacked(entries: set<Entry>, s: Store, doc: Document, c: Completion, sequence: nat, now: real)
    requires Backed(entries, c) && Clean(c.receipt, c.connect, c.epoch)
    ensures BackedDocument(entries, Bound(s, doc, c, sequence, now))
  {
    hide CurrentResult, CurrentConnect;
    var b := Bound(s, doc, c, sequence, now);
    assert b.receiptEpoch.None? || (b.receipt == c.receipt && b.connect == c.connect && b.receiptEpoch == c.epoch);
  }

  lemma CompleteKeeps(canon: Canon, entries: set<Entry>, s: Store, d: Details, st: Status, now: real)
    requires AllBacked(entries, s) && AllClean(s)
    requires var id, target := BoundedIdentifier(d.requestId), canon(d.url);
             id.Some? && id.value in s.pending && target.Some? && !d.fromCache &&
             ValidTabId(d.tabId) == Some(s.pending[id.value].tabId) ==>
               var p := Completing(s.pending[id.value], target.value, d);
               var r := Network(s.(pending := s.pending[id.value := p]), p, d, st, now); var c := r.completion;
               NoEvidence(c) ||
               exists e :: e in entries && e.receipt == c.receipt && e.connect == c.connect &&
                 e.completed == r.store.epoch
    ensures var after := Complete(canon, s, d, st, now).store;
            if after.runtime == s.runtime then AllBacked(entries, after) else Emptied(after)
  {
    hide Evidence, Concluded, AllBacked, AllClean, Network, Cached;
    var id, target := BoundedIdentifier(d.requestId), canon(d.url);
    if id.None? || id.value !in s.pending || target.None? || ValidTabId(d.tabId) != Some(s.pending[id.value].tabId) {
      DroppedBacked(entries, s, if id.Some? then id.value else "");
    } else {
      var p := Completing(s.pending[id.value], target.value, d);
      var s1 := s.(pending := s.pending[id.value := p]);
      RetargetedBacked(entries, s, id.value, p);
      var r := Evidence(s1, p, d, st, now);
      EvidenceKeeps(entries, s1, p, d, st, now);
      ConcludedRuntime(r.store, id.value, p, r.completion, now);
      if r.store.runtime == s.runtime {
        ConcludedBacked(entries, r.store, id.value, p, r.completion, now);
      }
    }
  }

  lemma EvidenceKeeps(entries: set<Entry>, s: Store, p: Pending, d: Details, st: Status, now: real)
    requires AllBacked(entries, s) && AllClean(s)
    requires !d.fromCache ==>
               var r := Network(s, p, d, st, now); var c := r.completion;
               NoEvidence(c) ||
               exists e :: e in entries && e.receipt == c.receipt && e.connect == c.connect &&
                 e.completed == r.store.epoch
    ensures EvidenceHeld(entries, s, Evidence(s, p, d, st, now))
  {
    hide Network, Cached, AllBacked, AllClean, Backed;
    if d.fromCache { CachedKeeps(entries, s, p, d, st, now); } else { NetworkKeeps(entries, s, p, d, st, now); }
  }

  lemma ConcludedRuntime(s: Store, id: string, p: Pending, c: Completion, now: real)
    ensures Concluded(s, id, p, c, now).runtime == s.runtime && Concluded(s, id, p, c, now).epoch == s.epoch
    ensures Emptied(s) ==> Emptied(Concluded(s, id, p, c, now))
  {
    hide Bound;
  }

  lemma DroppedBacked(entries: set<Entry>, s: Store, id: string)
    requires AllBacked(entries, s)
    ensures AllBacked(entries, s.(pending := s.pending - {id}))
  {
    hide Supported;
  }

  lemma RetargetedBacked(entries: set<Entry>, s: Store, id: string, p: Pending)
    requires AllBacked(entries, s) && AllClean(s) && id in s.pending && p.completion == s.pending[id].completion
    ensures AllBacked(entries, s.(pending := s.pending[id := p])) && AllClean(s.(pending := s.pending[id := p]))
  {
    hide Supported, Clean;
  }

  // ---- every step ----

  lemma SettledInherits<R>(out: Out<R>, after: Store)
    requires Settled(out, after)
    ensures Inherits(out.store, after) && after.runtime == out.store.runtime && after.epoch == out.store.epoch
    ensures Emptied(out.store) ==> Emptied(after)
  {
    hide FromPending;
    SettledParts(out, after);
  }

  lemma SettledParts<R>(out: Out<R>, after: Store)
    requires Settled(out, after)
    ensures after.runtime == out.store.runtime && after.epoch == out.store.epoch
    ensures forall k :: k in after.documents ==>
              k in out.store.documents && after.documents[k] == out.store.documents[k]
    ensures forall k :: k in after.urlReceipts ==>
              k in out.store.urlReceipts && after.urlReceipts[k] == out.store.urlReceipts[k]
    ensures forall k :: k in after.pending ==> k in out.store.pending && after.pending[k] == out.store.pending[k]
  {
  }

  lemma RestartBacked(entries: set<Entry>, s: Store, r: Store)
    requires AllBacked(entries, s) && AllBackedAfterRestart(s, r)
    ensures AllBacked(entries, r)
  {
    hide Supported;
  }

  /** With evidence neither gained nor reset, the old entries still back what is stored. */
  lemma OtherBacked(canon: Canon, entries: set<Entry>, s: Store, e: Event, now: real)
    requires AllBacked(entries, s) && AllClean(s) && Sane(s) && Enabled(canon, s, e) && !e.CompleteEvent?
    ensures var r := Effect(canon, s, e, now).store;
            r.runtime == s.runtime ==> AllBacked(entries, r)
  {
    hide AllBacked, AllClean, Inherits, Begin, Redirect, FailRequest, Complete, Commit, FailNavigation, RemoveTab,
      ReplaceTab, BeginMaintenance, CompleteMaintenance, EnsureRuntime, Restore, IsSnapshotOf, IsPendingForDocument,
      AllBackedAfterRestart;
    var r := Effect(canon, s, e, now).store;
    match e {
      case BeginEvent(d, st) => BeginInherits(canon, s, d, st, now); InheritedIsBacked(entries, s, r);
      case RedirectEvent(d) => RedirectInherits(canon, s, d); InheritedIsBacked(entries, s, r);
      case CommitEvent(d, reason, pick) =>
        CommitInherits(canon, s, d, reason, pick, now); InheritedIsBacked(entries, s, r);
      case FailRequestEvent(d) => FailuresInherit(canon, s, d); InheritedIsBacked(entries, s, r);
      case FailNavigationEvent(d) => FailuresInherit(canon, s, d); InheritedIsBacked(entries, s, r);
      case BeginMaintenanceEvent(st) => MaintenanceInherits(s, st, 0, now); InheritedIsBacked(entries, s, r);
      case CompleteMaintenanceEvent(st, seconds) =>
        MaintenanceInherits(s, st, seconds, now); InheritedIsBacked(entries, s, r);
      case RemoveTabEvent(tabId) => RemoveTabInherits(s, tabId); InheritedIsBacked(entries, s, r);
      case ReplaceTabEvent(addedId, removedId) =>
        ReplaceTabInherits(s, addedId, removedId); InheritedIsBacked(entries, s, r);
      case QueryEvent(st) => EnsureInherits(s, st, now); InheritedIsBacked(entries, s, r);
      case RestartEvent(snapshot) =>
        RestartInherits(canon, s, snapshot, now);
        if r.runtime == s.runtime { RestartBacked(entries, s, r); }
    }
  }

  ghost predicate Bare(s: Store) {
    s.documents == map[] && s.urlReceipts == map[] && forall k :: k in s.pending ==> s.pending[k].completion.None?
  }

  /** The epoch never falls without a reset, and a reset drops all evidence. */
  ghost predicate Onward(s: Store, r: Store) {
    if r.runtime == s.runtime then s.runtime.Some? ==> r.epoch >= s.epoch else Bare(r)
  }

  lemma BeginOnward(canon: Canon, s: Store, d: Details, st: Status, now: real)
    ensures Onward(s, Begin(canon, s, d, st, now).store)
  {
    hide EnsureRuntime;
    EnsureCases(s, st, now);
  }

  lemma StatusOnward(s: Store, st: Status, seconds: int, now: real)
    ensures Onward(s, EnsureRuntime(s, st, now).store)
    ensures Onward(s, BeginMaintenance(s, st, now).store)
    ensures Onward(s, CompleteMaintenance(s, st, seconds, now).store)
  {
    hide EnsureRuntime;
    EnsureCases(s, st, now);
  }

  lemma EvidenceOnward(s: Store, p: Pending, d: Details, st: Status, now: real)
    ensures var r := Evidence(s, p, d, st, now).store;
            if r.runtime == s.runtime then r.epoch >= s.epoch else Emptied(r)
  {
    hide EnsureRuntime, NetworkEvidence, CachedEvidence;
    EnsureCases(s, st, now);
  }

  lemma CompleteOnward(canon: Canon, s: Store, d: Details, st: Status, now: real)
    ensures Onward(s, Complete(canon, s, d, st, now).store)
  {
    hide Evidence, Concluded;
    var id, target := BoundedIdentifier(d.requestId), canon(d.url);
    if id.Some? && id.value in s.pending && target.Some? {
      var p := Completing(s.pending[id.value], target.value, d);
      var s1 := s.(pending := s.pending[id.value := p]);
      var r := Evidence(s1, p, d, st, now);
      EvidenceOnward(s1, p, d, st, now);
      ConcludedRuntime(r.store, id.value, p, r.completion, now);
    }
  }

  lemma RequestsOnward(canon: Canon, s: Store, d: Details)
    ensures Onward(s, Redirect(canon, s, d).store)
    ensures Onward(s, FailRequest(s, d).store)
    ensures Onward(s, FailNavigation(canon, s, d).store)
  {
    hide MarkHostConflicts, NextSequence;
  }

  lemma TabsOnward(s: Store, tabId: int, otherId: int)
    ensures Onward(s, RemoveTab(s, tabId).store)
    ensures Onward(s, ReplaceTab(s, tabId, otherId).store)
  {
    hide NextSequence;
  }

  lemma CommitOnward(canon: Canon, s: Store, d: Details, reason: Reason, pick: Option<string>, now: real)
    requires pick.Some? ==> pick.value in s.pending
    ensures Onward(s, Commit(canon, s, d, reason, pick, now).store)
  {
    hide Commit;
    CommitShape(canon, s, d, reason, pick, now);
  }

  lemma RestartOnward(canon: Canon, s: Store, snap: Snapshot, now: real)
    requires IsSnapshotOf(snap, s) && Sane(s)
    ensures Onward(s, Restore(canon, snap, now).store)
  {
    hide Restore;
    if s.runtime.Some? { RestoredParts(canon, snap, now); } else { RestartNothing(canon, snap, now); }
  }

  lemma RestartNothing(canon: Canon, snap: Snapshot, now: real)
    requires snap.Snapshot? && snap.runtime.None?
    ensures Restore(canon, snap, now).store == EMPTY
  {
  }

  lemma EffectOnward(canon: Canon, s: Store, e: Event, now: real)
    requires Enabled(canon, s, e) && Sane(s)
    ensures Onward(s, Effect(canon, s, e, now).store)
  {
    hide Onward, Sane, Begin, Redirect, FailRequest, Complete, Commit, FailNavigation, RemoveTab, ReplaceTab,
      BeginMaintenance, CompleteMaintenance, EnsureRuntime, Restore, IsSnapshotOf, IsPendingForDocument;
    match e {
      case BeginEvent(d, st) => BeginOnward(canon, s, d, st, now);
      case CompleteEvent(d, st) => CompleteOnward(canon, s, d, st, now);
      case BeginMaintenanceEvent(st) => StatusOnward(s, st, 0, now);
      case CompleteMaintenanceEvent(st, seconds) => StatusOnward(s, st, seconds, now);
      case QueryEvent(st) => StatusOnward(s, st, 0, now);
      case RestartEvent(snapshot) => RestartOnward(canon, s, snapshot, now);
      case RedirectEvent(d) => RequestsOnward(canon, s, d);
      case CommitEvent(d, reason, pick) => CommitOnward(canon, s, d, reason, pick, now);
      case FailRequestEvent(d) => RequestsOnward(canon, s, d);
      case FailNavigationEvent(d) => RequestsOnward(canon, s, d);
      case RemoveTabEvent(tabId) => TabsOnward(s, tabId, 0);
      case ReplaceTabEvent(addedId, removedId) => TabsOnward(s, addedId, removedId);
    }
  }

  // ---- the invariant over runs ----

  lemma KeptDates(l: Ledger, s: Store, e: Event, now: real, after: Store)
    requires Dated(l, s) && !e.BeginEvent?
    requires forall k :: k in after.pending ==> k in s.pending && after.pending[k].epoch == s.pending[k].epoch
    ensures forall k :: k in after.pending ==> Began(l, s, e, now, after)[k] == after.pending[k].epoch
  {
  }

  lemma BeginDates(canon: Canon, l: Ledger, s: Store, d: Details, st: Status, now: real, after: Store)
    requires Dated(l, s) && Settled(Begin(canon, s, d, st, now), after)
    ensures forall k :: k in after.pending ==> Began(l, s, BeginEvent(d, st), now, after)[k] == after.pending[k].epoch
  {
    hide EnsureRuntime, MarkHostConflicts, Freshness.Added, Freshness.Subdued;
    var mid := EnsureRuntime(s, st, now).store;
    EnsureCases(s, st, now);
    if !Begin(canon, s, d, st, now).result {
    } else if d.requestId in mid.pending {
      Freshness.BeginRetargets(canon, s, d, st, now);
      SubduedDates(s, after);
    } else {
      var p := Freshness.BeginAdds(canon, s, d, st, now, after);
      AddedDates(mid, after, d.requestId, p);
    }
  }

  lemma SubduedDates(s: Store, after: Store)
    requires Freshness.Subdued(s, after)
    ensures forall k :: k in after.pending ==> k in s.pending && after.pending[k].epoch == s.pending[k].epoch
  {
  }

  lemma AddedDates(mid: Store, after: Store, id: string, p: Pending)
    requires Freshness.Added(mid, after, id, p)
    ensures after.epoch == mid.epoch
    ensures forall k :: k in after.pending ==>
              if k == id then after.pending[k].epoch == mid.epoch
              else k in mid.pending && after.pending[k].epoch == mid.pending[k].epoch
  {
  }

  lemma BeginStepDates(canon: Canon, l: Ledger, s: Store, e: Event, now: real, after: Store)
    requires Dated(l, s) && e.BeginEvent? && Next(canon, s, e, now, after)
    ensures Dated(Record(canon, l, s, e, now, after), after)
  {
    hide Begin, Obtained;
    BeginDates(canon, l, s, e.d, e.st, now, after);
  }

  lemma OtherStepDates(canon: Canon, l: Ledger, s: Store, e: Event, now: real, after: Store)
    requires Dated(l, s) && Sane(s) && !e.BeginEvent? && Next(canon, s, e, now, after)
    ensures Dated(Record(canon, l, s, e, now, after), after)
  {
    hide Effect, Sane, Settled, Freshness.Subdued, Obtained;
    var out := Effect(canon, s, e, now);
    OthersSubdue(canon, s, e, now);
    SettledParts(out, after);
    if out.store.runtime == s.runtime { SubduedDates(s, out.store); }
    KeptDates(l, s, e, now, after);
  }

  lemma StepDates(canon: Canon, l: Ledger, s: Store, e: Event, now: real, after: Store)
    requires Dated(l, s) && Sane(s) && Next(canon, s, e, now, after)
    ensures Dated(Record(canon, l, s, e, now, after), after)
  {
    hide Next, Sane, Dated, Record;
    if e.BeginEvent? {
      BeginStepDates(canon, l, s, e, now, after);
    } else {
      OtherStepDates(canon, l, s, e, now, after);
    }
  }

  lemma OthersSubdue(canon: Canon, s: Store, e: Event, now: real)
    requires Enabled(canon, s, e) && !e.BeginEvent? && Sane(s)
    ensures Freshness.SubdiesOrResets(s, Effect(canon, s, e, now).store)
  {
    hide Freshness.Subdued, Complete, Sane;
    if e.CompleteEvent? {
      Freshness.CompleteSubdues(canon, s, e.d, e.st, now);
    } else {
      Freshness.OtherSubdues(canon, s, e, now);
    }
  }

  lemma ObtainedProper(canon: Canon, l: Ledger, s: Store, e: Event, now: real, after: Store)
    requires Dated(l, s) && Next(canon, s, e, now, after) && after.runtime == s.runtime
    ensures forall x :: x in Obtained(canon, l, s, e, now) ==> Proper(x, after)
  {
    hide Network, Settled, Concluded, Reported;
    if Obtained(canon, l, s, e, now) != {} {
      var id := e.d.requestId;
      var p := Completing(s.pending[id], canon(e.d.url).value, e.d);
      var s1 := s.(pending := s.pending[id := p]);
      NetworkReports(s1, p, e.d, e.st, now);
      var r := Network(s1, p, e.d, e.st, now);
      ConcludedRuntime(r.store, id, p, r.completion, now);
      SettledParts(Effect(canon, s, e, now), after);
      ReportedAlike(s1.runtime, 0, 0, l.began[id], r.store.epoch, e.st, r.completion);
    }
  }

  lemma ReportedAlike(runtime: Option<Runtime>, i: int, j: int, began: int, completed: int, st: Status, c: Completion)
    requires Reported(Entry(runtime, i, j, st, c.receipt, c.connect))
    ensures Reported(Entry(runtime, began, completed, st, c.receipt, c.connect))
  {
  }

  lemma StepProper(canon: Canon, l: Ledger, s: Store, e: Event, now: real, after: Store)
    requires Inv(l, s) && Sane(s) && Next(canon, s, e, now, after)
    ensures forall x :: x in Record(canon, l, s, e, now, after).entries ==> Proper(x, after)
  {
    hide Effect, Sane, Settled, Obtained, AllBacked, Reported;
    if after.runtime == s.runtime {
      ObtainedProper(canon, l, s, e, now, after);
      EffectOnward(canon, s, e, now);
      SettledParts(Effect(canon, s, e, now), after);
    }
  }

  lemma StepBacked(canon: Canon, l: Ledger, s: Store, e: Event, now: real, after: Store)
    requires Inv(l, s) && Sane(s) && Next(canon, s, e, now, after)
    ensures AllBacked(Record(canon, l, s, e, now, after).entries, after)
  {
    hide Sane, Settled, Effect, AllBacked, AllClean, Inherits, Proper, Dated, Obtained, Onward, Supported;
    var out := Effect(canon, s, e, now);
    var entries := Record(canon, l, s, e, now, after).entries;
    InvIsClean(l, s);
    SettledInherits(out, after);
    if after.runtime == s.runtime {
      if e.CompleteEvent? {
        CompleteBacked(canon, l, s, e, now);
      } else {
        ObtainedNothing(canon, l, s, e, now);
        OtherBacked(canon, l.entries, s, e, now);
      }
      InheritedIsBacked(entries, out.store, after);
    } else {
      EffectOnward(canon, s, e, now);
      BareBacked(s, out.store);
      InheritedIsBacked({}, out.store, after);
    }
  }

  lemma ObtainedNothing(canon: Canon, l: Ledger, s: Store, e: Event, now: real)
    requires !e.CompleteEvent?
    ensures l.entries + Obtained(canon, l, s, e, now) == l.entries
  {
  }

  lemma BareBacked(s: Store, r: Store)
    requires Onward(s, r) && r.runtime != s.runtime
    ensures AllBacked({}, r)
  {
  }

  lemma CompleteBacked(canon: Canon, l: Ledger, s: Store, e: Event, now: real)
    requires Inv(l, s) && AllClean(s) && e.CompleteEvent?
    ensures var r := Effect(canon, s, e, now).store;
            r.runtime == s.runtime ==> AllBacked(l.entries + Obtained(canon, l, s, e, now), r)
  {
    hide Network, Complete, AllBacked, AllClean, Proper;
    var entries := l.entries + Obtained(canon, l, s, e, now);
    BackedGrows(l.entries, Obtained(canon, l, s, e, now), s);
    var id, target := BoundedIdentifier(e.d.requestId), canon(e.d.url);
    if id.Some? && id.value in s.pending && target.Some? && !e.d.fromCache &&
       ValidTabId(e.d.tabId) == Some(s.pending[id.value].tabId) {
      var p := Completing(s.pending[id.value], target.value, e.d);
      var s1 := s.(pending := s.pending[id.value := p]);
      var r := Network(s1, p, e.d, e.st, now);
      NetworkReports(s1, p, e.d, e.st, now);
      var x := Entry(r.store.runtime, l.began[id.value], r.store.epoch, e.st, r.completion.receipt,
          r.completion.connect);
      assert NoEvidence(r.completion) || x in entries;
    }
    CompleteKeeps(canon, entries, s, e.d, e.st, now);
  }

  lemma StepKeeps(canon: Canon, l: Ledger, s: Store, e: Event, now: real, after: Store)
    requires Inv(l, s) && Sane(s) && Next(canon, s, e, now, after)
    ensures Inv(Record(canon, l, s, e, now, after), after)
  {
    hide Sane, Next, Record, Proper, AllBacked;
    StepDates(canon, l, s, e, now, after);
    StepProper(canon, l, s, e, now, after);
    StepBacked(canon, l, s, e, now, after);
  }

  lemma {:induction false} RunKeeps(canon: Canon, steps: seq<Step>)
    requires IsRun(canon, EMPTY, steps)
    ensures Inv(LedgerOf(canon, steps), Last(EMPTY, steps)) && Sane(Last(EMPTY, steps))
  {
    hide Next, Record, Sane, Proper;
    RunSane(canon, steps);
    if steps != [] {
      hide AllBacked;
      var n := |steps| - 1;
      RunKeeps(canon, steps[..n]);
      StepKeeps(canon, LedgerOf(canon, steps[..n]), Last(EMPTY, steps[..n]), steps[n].event, steps[n].now,
          steps[n].after);
    }
  }

  // ---- authority ----

  /** The authority is about the document asked for, which its tab shows, is of the origin asked for and was
      not taken from history. */
  ghost predicate Concerns(a: Authority, q: Query, s: Store) {
    a.documentId == q.documentId && a.origin == q.origin && a.documentId in s.documents &&
    var doc := s.documents[a.documentId];
    doc.target.origin == a.origin && doc.target.scheme == Https && !doc.restored && doc.tabId == q.tabId &&
    doc.sequence == a.navigationGeneration && doc.tabId in s.tabs && s.tabs[doc.tabId].documentId == Some(a.documentId)
  }

  /** The document's evidence is that of the entry, obtained in the runtime and epoch of the status, and the
      authority says what this evidence says about the document's host. */
  ghost predicate Vouches(e: Entry, doc: Document, a: Authority, st: Status) {
    e.runtime == RuntimeTuple(st.runtime) && e.runtime == Some(a.runtime) && Reported(e) &&
    Some(e.began) == Some(e.completed) == ValidEpoch(st.epoch) == doc.receiptEpoch &&
    e.receipt == doc.receipt && e.connect == doc.connect && e.receipt.Some? &&
    var r := e.receipt.value;
    r.host == doc.target.host && r.runtime == a.runtime && !r.namespace.NoNamespace? && r.namespace == a.namespace &&
    r.network == a.network && r.fingerprint == a.fingerprint
  }

  lemma BackedAuthority(canon: Canon, l: Ledger, s: Store, q: Query, st: Status, now: real)
    requires Inv(l, s) && AuthorityIn(canon, s, q, now).Some?
    requires s.runtime == RuntimeTuple(st.runtime) && Some(s.epoch) == ValidEpoch(st.epoch)
    ensures var a := AuthorityIn(canon, s, q, now).value;
            Concerns(a, q, s) && exists e :: e in l.entries && Vouches(e, s.documents[a.documentId], a, st)
  {
    hide CurrentConnect;
    var doc := s.documents[q.documentId];
    assert BackedDocument(l.entries, doc);
    var e :| e in l.entries && e.receipt == doc.receipt && e.connect == doc.connect && e.completed == s.epoch;
    assert Proper(e, s);
    assert Vouches(e, doc, AuthorityIn(canon, s, q, now).value, st);
  }

  /** In every run, authority is returned only outside pending maintenance, only about the document asked for,
      and only if that document holds a response for its host that a main-frame request, begun and completed
      in the status's runtime and maintenance epoch, obtained from a native status of that runtime and epoch. */
  lemma AuthorityIsNeverStale(canon: Canon, steps: seq<Step>, q: Query, st: Status, now: real)
    requires IsRun(canon, EMPTY, steps)
    requires ProviderAuthority(canon, Last(EMPTY, steps), q, st, now).result.Some?
    ensures var out := ProviderAuthority(canon, Last(EMPTY, steps), q, st, now); var a := out.result.value;
            !out.store.maintenancePending && st.active && st.proxyActive && Concerns(a, q, out.store) &&
            exists e :: e in LedgerOf(canon, steps).entries && Vouches(e, out.store.documents[a.documentId], a, st)
  {
    hide IsRun, LedgerOf, EnsureRuntime, AuthorityIn, Inv, Sane, Concerns, Vouches;
    var s := Last(EMPTY, steps);
    var l := LedgerOf(canon, steps);
    RunKeeps(canon, steps);
    var t := EnsureRuntime(s, st, now).store;
    EnsureCases(s, st, now);
    QueryKeeps(canon, l, s, st, now);
    BackedAuthority(canon, Record(canon, l, s, QueryEvent(st), now, t), t, q, st, now);
  }

  /** No document that holds a CONNECT receipt gets authority: the wrapper is no decision. */
  lemma ConnectReceiptGivesNoAuthority(canon: Canon, steps: seq<Step>, q: Query, st: Status, now: real)
    requires IsRun(canon, EMPTY, steps)
    requires var t := EnsureRuntime(Last(EMPTY, steps), st, now).store;
             q.documentId in t.documents && t.documents[q.documentId].connect.Some?
    ensures ProviderAuthority(canon, Last(EMPTY, steps), q, st, now).result.None?
  {
    hide IsRun, LedgerOf, EnsureRuntime, AuthorityIn;
    if ProviderAuthority(canon, Last(EMPTY, steps), q, st, now).result.Some? {
      AuthorityIsNeverStale(canon, steps, q, st, now);
      assert false;
    }
  }

  lemma QueryKeeps(canon: Canon, l: Ledger, s: Store, st: Status, now: real)
    requires Inv(l, s) && Sane(s)
    ensures var t := EnsureRuntime(s, st, now).store; var r := Record(canon, l, s, QueryEvent(st), now, t);
            Inv(r, t) && r.entries <= l.entries
  {
    hide Inv, EnsureRuntime, Sane;
    QueryNext(canon, s, st, now);
    StepKeeps(canon, l, s, QueryEvent(st), now, EnsureRuntime(s, st, now).store);
  }

  lemma QueryNext(canon: Canon, s: Store, st: Status, now: real)
    ensures Next(canon, s, QueryEvent(st), now, EnsureRuntime(s, st, now).store)
  {
    hide NoteNativeEvent;
  }

  lemma {:induction false} PrefixIsRun(canon: Canon, steps: seq<Step>, i: nat)
    requires IsRun(canon, EMPTY, steps) && i <= |steps|
    ensures IsRun(canon, EMPTY, steps[..i])
  {
    hide Next;
    if i < |steps| {
      PrefixIsRun(canon, steps[..|steps| - 1], i);
      assert steps[..|steps| - 1][..i] == steps[..i];
    } else {
      assert steps[..i] == steps;
    }
  }

  // ---- evidence of before a change ----

  /** Between the two the epoch advanced or the runtime was reset. */
  ghost predicate Superseded(earlier: Store, later: Store) {
    later.runtime != earlier.runtime || later.epoch > earlier.epoch
  }

  /** The completion of the n-th step obtained the evidence of the entry. */
  ghost predicate ObtainedAt(canon: Canon, steps: seq<Step>, n: nat, e: Entry)
    requires n < |steps|
  {
    e in Obtained(canon, LedgerOf(canon, steps[..n]), Last(EMPTY, steps[..n]), steps[n].event, steps[n].now)
  }

  lemma {:induction false} EntriesSince(canon: Canon, steps: seq<Step>, i: nat, e: Entry)
    requires i <= |steps| && e in LedgerOf(canon, steps).entries
    ensures (e in LedgerOf(canon, steps[..i]).entries && Last(EMPTY, steps).runtime ==
              Last(EMPTY, steps[..i]).runtime) ||
            exists n :: i <= n < |steps| && ObtainedAt(canon, steps, n, e)
  {
    hide Obtained;
    var m := |steps| - 1;
    if i == |steps| {
      assert steps[..i] == steps;
    } else if !ObtainedAt(canon, steps, m, e) {
      EntriesSince(canon, steps[..m], i, e);
      assert steps[..m][..i] == steps[..i];
      assert forall n :: i <= n < m ==> steps[..m][..n] == steps[..n];
      if exists n :: i <= n < m && ObtainedAt(canon, steps[..m], n, e) {
        var n :| i <= n < m && ObtainedAt(canon, steps[..m], n, e);
        assert ObtainedAt(canon, steps, n, e);
      }
    }
  }

  lemma StepOnward(canon: Canon, s: Store, e: Event, now: real, after: Store)
    requires Sane(s) && Next(canon, s, e, now, after) && after.runtime == s.runtime && s.runtime.Some?
    ensures after.epoch >= s.epoch
  {
    hide Sane, Effect, Settled;
    EffectOnward(canon, s, e, now);
    SettledParts(Effect(canon, s, e, now), after);
  }

  /** While an entry of the i-th store lasts, the epoch has not fallen. */
  lemma {:induction false} EpochSince(canon: Canon, steps: seq<Step>, i: nat, e: Entry)
    requires IsRun(canon, EMPTY, steps) && i <= |steps| && e in LedgerOf(canon, steps).entries
    requires forall n :: i <= n < |steps| ==> !ObtainedAt(canon, steps, n, e)
    ensures var s := Last(EMPTY, steps); var before := Last(EMPTY, steps[..i]);
            s.runtime == before.runtime && s.epoch >= before.epoch
  {
    hide Obtained, Next, Sane;
    var m := |steps| - 1;
    if i == |steps| {
      assert steps[..i] == steps;
    } else {
      assert !ObtainedAt(canon, steps, m, e);
      assert steps[..m][..i] == steps[..i];
      assert forall n :: i <= n < m ==> steps[..m][..n] == steps[..n];
      assert forall n :: i <= n < m ==> ObtainedAt(canon, steps, n, e) == ObtainedAt(canon, steps[..m], n, e);
      EpochSince(canon, steps[..m], i, e);
      RunKeeps(canon, steps[..m]);
      assert Proper(e, Last(EMPTY, steps[..m]));
      StepOnward(canon, Last(EMPTY, steps[..m]), steps[m].event, steps[m].now, steps[m].after);
    }
  }

  /** If the epoch advanced or the runtime was reset at any time after the i-th step, then authority rests on
      evidence that a completion of a later step obtained. */
  lemma EarlierEvidenceVouchesNoMore(canon: Canon, steps: seq<Step>, i: nat, j: nat, q: Query, st: Status, now: real)
    requires IsRun(canon, EMPTY, steps) && i <= j <= |steps|
    requires ProviderAuthority(canon, Last(EMPTY, steps), q, st, now).result.Some?
    requires Superseded(Last(EMPTY, steps[..i]), Last(EMPTY, steps[..j])) ||
             Superseded(Last(EMPTY, steps[..i]), ProviderAuthority(canon, Last(EMPTY, steps), q, st, now).store)
    ensures var out := ProviderAuthority(canon, Last(EMPTY, steps), q, st, now); var a := out.result.value;
            a.documentId in out.store.documents &&
            exists n, e :: i <= n < |steps| && ObtainedAt(canon, steps, n, e) &&
              Vouches(e, out.store.documents[a.documentId], a, st)
  {
    hide IsRun, LedgerOf, Obtained, EnsureRuntime, AuthorityIn, Sane, Reported, ObtainedAt;
    AuthorityIsNeverStale(canon, steps, q, st, now);
    var out := ProviderAuthority(canon, Last(EMPTY, steps), q, st, now);
    var e :| e in LedgerOf(canon, steps).entries && Vouches(e, out.store.documents[out.result.value.documentId],
        out.result.value, st);
    if forall n :: i <= n < |steps| ==> !ObtainedAt(canon, steps, n, e) {
      EntriesSince(canon, steps, i, e);
      PrefixIsRun(canon, steps, i);
      RunKeeps(canon, steps[..i]);
      EpochSince(canon, steps, i, e);
      EpochSince(canon, steps, j, e);
      EnsureCases(Last(EMPTY, steps), st, now);
      assert false;
    }
  }

  /** Bound to a document, cached for a URL or parked with a request. */
  ghost predicate Holds(
    s: Store, receipt: Option<SecurityResult>, connect: Option<ConnectReceipt>, epoch: Option<int>)
  {
    (exists k :: k in s.documents && var d := s.documents[k];
    (d.receipt, d.connect, d.receiptEpoch) == (receipt, connect, epoch)) ||
    (exists k :: k in s.urlReceipts && var c := s.urlReceipts[k].completion;
    (c.receipt, c.connect, c.epoch) == (receipt, connect, epoch)) ||
    (exists k :: k in s.pending && s.pending[k].completion.Some? &&
      var c := s.pending[k].completion.value; (c.receipt, c.connect, c.epoch) == (receipt, connect, epoch))
  }

  lemma HeldIsOfItsTime(
    l: Ledger, s: Store, receipt: Option<SecurityResult>, connect: Option<ConnectReceipt>, epoch: int)
    requires Inv(l, s) && Holds(s, receipt, connect, Some(epoch)) && receipt.Some?
    ensures s.runtime == Some(receipt.value.runtime) && epoch <= s.epoch
  {
    assert Supported(l.entries, receipt, connect, Some(epoch));
    var e :| e in l.entries && e.receipt == receipt && e.connect == connect && e.completed == epoch;
    assert Proper(e, s);
  }

  /** No completion that was bound, cached or parked before the epoch advanced or the runtime was reset is what
      a document with authority holds. */
  lemma HeldEvidenceVouchesNoMore(canon: Canon, steps: seq<Step>, i: nat, q: Query, st: Status, now: real)
    requires IsRun(canon, EMPTY, steps) && i <= |steps|
    requires ProviderAuthority(canon, Last(EMPTY, steps), q, st, now).result.Some?
    requires Superseded(Last(EMPTY, steps[..i]), ProviderAuthority(canon, Last(EMPTY, steps), q, st, now).store)
    ensures var out := ProviderAuthority(canon, Last(EMPTY, steps), q, st, now);
            q.documentId in out.store.documents &&
            var doc := out.store.documents[q.documentId];
            !Holds(Last(EMPTY, steps[..i]), doc.receipt, doc.connect, doc.receiptEpoch)
  {
    hide IsRun, LedgerOf, EnsureRuntime, AuthorityIn, Sane, Reported, Inv, Holds;
    AuthorityIsNeverStale(canon, steps, q, st, now);
    EnsureCases(Last(EMPTY, steps), st, now);
    var out := ProviderAuthority(canon, Last(EMPTY, steps), q, st, now);
    var doc := out.store.documents[q.documentId];
    if Holds(Last(EMPTY, steps[..i]), doc.receipt, doc.connect, doc.receiptEpoch) {
      PrefixIsRun(canon, steps, i);
      RunKeeps(canon, steps[..i]);
      HeldIsOfItsTime(LedgerOf(canon, steps[..i]), Last(EMPTY, steps[..i]), doc.receipt, doc.connect,
          doc.receiptEpoch.value);
      assert false;
    }
  }
}
