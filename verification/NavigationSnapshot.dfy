/** Snapshot and restore undo each other for observers: a service worker that restarts from the snapshot
    of its store answers every later query as the store would have, and invents no receipt.  What is lost
    is the evidence under a canonical URL that is too long to be parsed again. */
module NavigationSnapshot {
  import opened Basics
  import opened NavigationReceipts
  import opened NavigationRuns
  import opened NavigationPruning
  import Spec = NavigationReceipts
  import Authority = NavigationAuthority

  /** What URL parsing gives: nothing for a text above the limit, for its own result within the limit that
      result, and the origin determines host, port and scheme. */
  ghost predicate Canonical(canon: Canon) {
    (forall u :: |u| > MAX_URL_LENGTH ==> canon(u).None?) &&
    (forall u :: canon(u).Some? && |canon(u).value.url| <= MAX_URL_LENGTH ==> canon(canon(u).value.url) == canon(u)) &&
    (forall u, v :: canon(u).Some? && canon(v).Some? && canon(u).value.origin == canon(v).value.origin ==>
      SameEndpoint(canon(u).value, canon(v).value))
  }

  ghost predicate SameEndpoint(a: Target, b: Target) {
    a.host == b.host && a.port == b.port && a.scheme == b.scheme
  }

  ghost predicate Parsed(canon: Canon, t: Target) {
    exists u :: canon(u) == Some(t)
  }

  /** Percent-encoding may make a canonical URL longer than what was parsed. */
  predicate Overlong(url: string) {
    |url| > MAX_URL_LENGTH
  }

  lemma ParsedAgain(canon: Canon, t: Target)
    requires Canonical(canon) && Parsed(canon, t)
    ensures canon(t.url) == if Overlong(t.url) then None else Some(t)
  {
  }

  lemma SameOrigin(canon: Canon, a: Target, b: Target)
    requires Canonical(canon) && Parsed(canon, a) && Parsed(canon, b) && a.origin == b.origin
    ensures SameEndpoint(a, b)
  {
    var u :| canon(u) == Some(a);
    var v :| canon(v) == Some(b);
    assert SameEndpoint(canon(u).value, canon(v).value);
  }

  // ---- what the store holds in every run ----

  ghost predicate GoodEvidence(
    receipt: Option<SecurityResult>, connect: Option<ConnectReceipt>, epoch: Option<int>, source: Option<Source>,
    reason: Option<Reason>, runtime: Option<Runtime>, last: int)
  {
    if epoch.None? then
      receipt.None? && connect.None?
    else
      ValidEpoch(epoch).Some? && epoch.value <= last && reason.None? && SourceMatches(source, receipt, connect) &&
      (receipt.Some? ==> CurrentResult(receipt.value, runtime) && receipt.value.mainFrame)
  }

  ghost predicate Fits(
    receipt: Option<SecurityResult>, connect: Option<ConnectReceipt>, epoch: Option<int>, runtime: Option<Runtime>,
    target: Target, now: real)
  {
    (receipt.Some? ==> receipt.value.host == target.host) &&
    (connect.Some? ==> CurrentConnect(connect.value, runtime, epoch, target, now))
  }

  ghost predicate GoodCompletion(s: Store, c: Completion) {
    GoodEvidence(c.receipt, c.connect, c.epoch, c.source, c.reason, s.runtime, s.epoch)
  }

  ghost predicate GoodDocument(canon: Canon, s: Store, id: string, doc: Document, now: real) {
    BoundedIdentifier(id).Some? && Parsed(canon, doc.target) && ValidTabId(doc.tabId).Some? &&
    doc.sequence <= MAX_SAFE_INTEGER &&
    GoodEvidence(doc.receipt, doc.connect, doc.receiptEpoch, doc.source, doc.reason, s.runtime, s.epoch) &&
    Fits(doc.receipt, doc.connect, doc.receiptEpoch, s.runtime, doc.target, now)
  }

  ghost predicate GoodUrlReceipt(canon: Canon, s: Store, url: string, u: UrlReceipt, now: real) {
    u.sequence <= MAX_SAFE_INTEGER && u.completion.epoch.Some? && GoodCompletion(s, u.completion) &&
    exists t :: Parsed(canon, t) && t.url == url &&
      Fits(u.completion.receipt, u.completion.connect, u.completion.epoch, s.runtime, t, now)
  }

  ghost predicate GoodPending(canon: Canon, s: Store, p: Pending) {
    Parsed(canon, p.target) && ValidTabId(p.tabId).Some? &&
    (p.completion.Some? ==> GoodCompletion(s, p.completion.value))
  }

  ghost predicate GoodTab(k: nat, t: Tab) {
    k <= MAX_SAFE_INTEGER && t.sequence <= MAX_SAFE_INTEGER
  }

  ghost predicate Good(canon: Canon, s: Store, now: real) {
    (forall k :: k in s.documents ==> GoodDocument(canon, s, k, s.documents[k], now)) &&
    (forall k :: k in s.urlReceipts ==> GoodUrlReceipt(canon, s, k, s.urlReceipts[k], now)) &&
    (forall k :: k in s.pending ==> GoodPending(canon, s, s.pending[k])) &&
    (forall k :: k in s.tabs ==> GoodTab(k, s.tabs[k]))
  }

  // ---- restoring a snapshot of a good store ----

  /** A document that a restart keeps. */
  ghost predicate Lasting(doc: Document) {
    doc.receiptEpoch.Some? && !Overlong(doc.target.url)
  }

  ghost predicate Linked(s: Store, t: Tab) {
    t.documentId.Some? && t.documentId.value in s.documents && Lasting(s.documents[t.documentId.value])
  }

  /** The store that a restart gives: documents with evidence and the tabs that show them and the cached
      receipts, unless their URLs are overlong; no pending request. */
  ghost predicate Rebuilt(s: Store, r: Store) {
    r == s.(floor := r.floor, documents := r.documents, urlReceipts := r.urlReceipts, tabs := r.tabs,
      pending := map[]) &&
    r.floor >= s.floor &&
    (forall k :: k in r.documents <==> k in s.documents && Lasting(s.documents[k])) &&
    (forall k :: k in r.documents ==> r.documents[k] == s.documents[k]) &&
    (forall k :: k in r.urlReceipts <==> k in s.urlReceipts && !Overlong(k)) &&
    (forall k :: k in r.urlReceipts ==> r.urlReceipts[k] == s.urlReceipts[k]) &&
    (forall k :: k in r.tabs <==> k in s.tabs && Linked(s, s.tabs[k])) &&
    (forall k :: k in r.tabs ==>
      r.tabs[k].documentId == s.tabs[k].documentId && r.tabs[k].sequence == s.tabs[k].sequence)
  }

  lemma RestoredDocumentIsTheDocument(canon: Canon, s: Store, id: string, now: real)
    requires Canonical(canon) && id in s.documents && GoodDocument(canon, s, id, s.documents[id], now)
    ensures RestoredDocument(canon, id, s.documents[id], s.runtime, now) ==
            if Lasting(s.documents[id]) then Some(s.documents[id]) else None
  {
    ParsedAgain(canon, s.documents[id].target);
    hide Canonical, Parsed;
  }

  lemma RestoredUrlReceiptIsTheReceipt(canon: Canon, s: Store, url: string, now: real)
    requires Canonical(canon) && url in s.urlReceipts && GoodUrlReceipt(canon, s, url, s.urlReceipts[url], now)
    ensures RestoredUrlReceipt(canon, url, s.urlReceipts[url], s.runtime, now) ==
            if Overlong(url) then None else Some(s.urlReceipts[url])
  {
    hide Canonical, Parsed;
    var c := s.urlReceipts[url].completion;
    var t :| Parsed(canon, t) && t.url == url && Fits(c.receipt, c.connect, c.epoch, s.runtime, t, now);
    ParsedAgain(canon, t);
  }

  ghost predicate Listed<K, V>(entries: seq<(K, V)>, k: K) {
    exists i :: 0 <= i < |entries| && entries[i].0 == k
  }

  lemma ListedMore<K, V>(entries: seq<(K, V)>, k: K)
    requires entries != []
    ensures Listed(entries, k) <==> Listed(entries[..|entries| - 1], k) || entries[|entries| - 1].0 == k
  {
    var n := |entries| - 1;
    if i :| 0 <= i < n && entries[i].0 == k { assert entries[..n][i].0 == k; }
  }

  lemma DocumentEpochKnown(canon: Canon, s: Store, id: string, now: real)
    requires id in s.documents && GoodDocument(canon, s, id, s.documents[id], now) && s.documents[id].receiptEpoch.Some?
    ensures s.documents[id].receiptEpoch.value <= s.epoch
  {
  }

  lemma UrlEpochKnown(canon: Canon, s: Store, url: string, now: real)
    requires url in s.urlReceipts && GoodUrlReceipt(canon, s, url, s.urlReceipts[url], now)
    ensures s.urlReceipts[url].completion.epoch.Some? && s.urlReceipts[url].completion.epoch.value <= s.epoch
  {
    hide Parsed, Fits;
  }

  lemma RestoreOneDocument(canon: Canon, s: Store, s0: Store, entries: seq<(string, Document)>, now: real)
    requires entries != [] && Canonical(canon) && s0.runtime == s.runtime && s0.epoch == s.epoch
    requires var id := entries[|entries| - 1].0;
             id in s.documents && s.documents[id] == entries[|entries| - 1].1 &&
               GoodDocument(canon, s, id, s.documents[id], now)
    ensures var id := entries[|entries| - 1].0; var rest := RestoreDocuments(canon, s0, entries[..|entries| - 1], now);
            RestoreDocuments(canon, s0, entries, now).documents ==
            if Lasting(s.documents[id]) then rest.documents[id := s.documents[id]] else rest.documents
  {
    hide RestoredDocument, GoodDocument, Canonical, Overlong;
    var id := entries[|entries| - 1].0;
    RestoredDocumentIsTheDocument(canon, s, id, now);
    if Lasting(s.documents[id]) { DocumentEpochKnown(canon, s, id, now); }
  }

  lemma RestoreOneUrlReceipt(canon: Canon, s: Store, s0: Store, entries: seq<(string, UrlReceipt)>, now: real)
    requires entries != [] && Canonical(canon) && s0.runtime == s.runtime && s0.epoch == s.epoch
    requires var url := entries[|entries| - 1].0;
             url in s.urlReceipts && s.urlReceipts[url] == entries[|entries| - 1].1 &&
             GoodUrlReceipt(canon, s, url, s.urlReceipts[url], now)
    ensures var url := entries[|entries| - 1].0; var rest :=
            RestoreUrlReceipts(canon, s0, entries[..|entries| - 1], now);
            RestoreUrlReceipts(canon, s0, entries, now).urlReceipts ==
            if Overlong(url) then rest.urlReceipts else rest.urlReceipts[url := s.urlReceipts[url]]
  {
    hide RestoredUrlReceipt, GoodUrlReceipt, Canonical, Overlong;
    var url := entries[|entries| - 1].0;
    RestoredUrlReceiptIsTheReceipt(canon, s, url, now);
    UrlEpochKnown(canon, s, url, now);
  }

  lemma {:induction false} RestoreDocumentsExactly(
    canon: Canon, s: Store, s0: Store, entries: seq<(string, Document)>, now: real, k: string)
    requires forall i :: 0 <= i < |entries| ==> entries[i].0 in s.documents && s.documents[entries[i].0] == entries[i].1
    requires forall j :: j in s.documents ==> GoodDocument(canon, s, j, s.documents[j], now)
    requires Canonical(canon) && s0.runtime == s.runtime && s0.epoch == s.epoch && s0.documents == map[]
    ensures var r := RestoreDocuments(canon, s0, entries, now);
            (k in r.documents <==> k in s.documents && Lasting(s.documents[k]) && Listed(entries, k)) &&
            (k in r.documents ==> r.documents[k] == s.documents[k])
  {
    if entries != [] {
      hide RestoreDocuments, GoodDocument, Canonical, Lasting, Listed;
      RestoreDocumentsExactly(canon, s, s0, entries[..|entries| - 1], now, k);
      RestoreOneDocument(canon, s, s0, entries, now);
      ListedMore(entries, k);
    }
  }

  lemma {:induction false} RestoreUrlReceiptsExactly(
    canon: Canon, s: Store, s0: Store, entries: seq<(string, UrlReceipt)>, now: real, k: string)
    requires forall i :: 0 <= i < |entries| ==>
               entries[i].0 in s.urlReceipts && s.urlReceipts[entries[i].0] == entries[i].1
    requires forall j :: j in s.urlReceipts ==> GoodUrlReceipt(canon, s, j, s.urlReceipts[j], now)
    requires Canonical(canon) && s0.runtime == s.runtime && s0.epoch == s.epoch && s0.urlReceipts == map[]
    ensures var r := RestoreUrlReceipts(canon, s0, entries, now);
            (k in r.urlReceipts <==> !Overlong(k) && Listed(entries, k)) &&
            (k in r.urlReceipts ==> k in s.urlReceipts && r.urlReceipts[k] == s.urlReceipts[k])
  {
    if entries != [] {
      hide RestoreUrlReceipts, GoodUrlReceipt, Canonical, Overlong, Listed;
      RestoreUrlReceiptsExactly(canon, s, s0, entries[..|entries| - 1], now, k);
      RestoreOneUrlReceipt(canon, s, s0, entries, now);
      ListedMore(entries, k);
    }
  }

  lemma RestoreOneTab(s: Store, s0: Store, entries: seq<(int, Tab)>)
    requires entries != [] && (forall id :: id in s0.documents ==> BoundedIdentifier(id).Some?)
    requires 0 <= entries[|entries| - 1].0 && GoodTab(entries[|entries| - 1].0, entries[|entries| - 1].1)
    ensures var (key, t) := entries[|entries| - 1]; var r := RestoreTabs(s0, entries);
            var rest := RestoreTabs(s0, entries[..|entries| - 1]);
            if t.documentId.Some? && t.documentId.value in s0.documents then
              key in r.tabs && r.tabs == rest.tabs[key := r.tabs[key]] && r.tabs[key].documentId == t.documentId &&
              r.tabs[key].sequence == t.sequence
            else r.tabs == rest.tabs
  {
    hide BoundedIdentifier;
  }

  lemma {:induction false} RestoreTabsExactly(s: Store, s0: Store, entries: seq<(int, Tab)>, k: nat)
    requires forall i :: 0 <= i < |entries| ==>
               0 <= entries[i].0 && entries[i].0 in s.tabs && s.tabs[entries[i].0] == entries[i].1
    requires forall j :: j in s.tabs ==> GoodTab(j, s.tabs[j])
    requires forall id :: id in s0.documents ==> BoundedIdentifier(id).Some?
    requires s0.tabs == map[]
    ensures var r := RestoreTabs(s0, entries);
            (k in r.tabs <==>
               k in s.tabs && s.tabs[k].documentId.Some? && s.tabs[k].documentId.value in s0.documents &&
               Listed(entries, k)) &&
            (k in r.tabs ==> r.tabs[k].documentId == s.tabs[k].documentId && r.tabs[k].sequence == s.tabs[k].sequence)
  {
    if entries != [] {
      hide RestoreTabs, GoodTab, BoundedIdentifier, Listed;
      RestoreTabsExactly(s, s0, entries[..|entries| - 1], k);
      RestoreOneTab(s, s0, entries);
      ListedMore(entries, k as int);
    }
  }

  lemma NotEvicted<K, V>(before: map<K, V>, after: map<K, V>, limit: nat, protected: set<K>, rank: V -> int)
    requires Evicted(before, after, limit, protected, rank) && |before| <= limit
    ensures after == before
  {
    SubsetSize(after.Keys, before.Keys);
  }

  /** Within its limits a store is not changed by pruning. */
  lemma NothingToPrune(before: Store, after: Store)
    requires Pruned(before, after) && Bounded(before)
    ensures after == before
  {
    NotEvicted(before.documents, after.documents, MAX_DOCUMENTS, ActiveDocuments(before.tabs), DocumentRank);
    NotEvicted(before.urlReceipts, after.urlReceipts, MAX_URL_RECEIPTS, {}, UrlRank);
    NotEvicted(before.tabs, after.tabs, MAX_TABS, {}, TabRank);
    NotEvicted(before.pending, after.pending, MAX_PENDING_REQUESTS, {}, PendingRank);
  }

  lemma RebuiltIsBounded(s: Store, r: Store)
    requires Rebuilt(s, r) && Bounded(s)
    ensures Bounded(r)
  {
    PartSize(r.documents, s.documents);
    PartSize(r.urlReceipts, s.urlReceipts);
    PartSize(r.tabs, s.tabs);
  }

  lemma GoodParts(canon: Canon, s: Store, now: real)
    requires Good(canon, s, now)
    ensures forall k :: k in s.documents ==> GoodDocument(canon, s, k, s.documents[k], now)
    ensures forall k :: k in s.urlReceipts ==> GoodUrlReceipt(canon, s, k, s.urlReceipts[k], now)
    ensures forall k :: k in s.tabs ==> GoodTab(k, s.tabs[k])
    ensures forall k :: k in s.documents ==> BoundedIdentifier(k).Some?
  {
  }

  lemma SnapshotEntries(snap: Snapshot, s: Store)
    requires IsSnapshotOf(snap, s) && Bounded(s)
    ensures FirstEntries(snap.documents, MAX_DOCUMENTS) == snap.documents
    ensures FirstEntries(snap.urlReceipts, MAX_URL_RECEIPTS) == snap.urlReceipts
    ensures FirstEntries(snap.tabs, MAX_TABS) == snap.tabs
  {
  }

  lemma SnapshotLists(snap: Snapshot, s: Store)
    requires IsSnapshotOf(snap, s)
    ensures snap.Snapshot?
    ensures forall i :: 0 <= i < |snap.documents| ==>
              snap.documents[i].0 in s.documents && s.documents[snap.documents[i].0] == snap.documents[i].1
    ensures forall i :: 0 <= i < |snap.urlReceipts| ==>
              snap.urlReceipts[i].0 in s.urlReceipts && s.urlReceipts[snap.urlReceipts[i].0] == snap.urlReceipts[i].1
    ensures forall i :: 0 <= i < |snap.tabs| ==>
              0 <= snap.tabs[i].0 && snap.tabs[i].0 in s.tabs && s.tabs[snap.tabs[i].0] == snap.tabs[i].1
    ensures forall k :: k in s.documents ==> Listed(snap.documents, k)
    ensures forall k :: k in s.urlReceipts ==> Listed(snap.urlReceipts, k)
    ensures forall k :: k in s.tabs ==> Listed(snap.tabs, k as int)
    ensures snap.runtime == s.runtime && snap.epoch == s.epoch && snap.maintenancePending == s.maintenancePending &&
            snap.sequence == s.sequence && snap.floor == s.floor
  {
  }

  lemma UrlReceiptIsListed(entries: seq<(string, UrlReceipt)>, s: Store, k: string)
    requires forall i :: 0 <= i < |entries| ==> entries[i].0 in s.urlReceipts
    requires Listed(entries, k)
    ensures k in s.urlReceipts
  {
  }

  lemma RestoreRebuildsUnpruned(canon: Canon, s: Store, snap: Snapshot, now: real)
    requires Canonical(canon) && Good(canon, s, now) && Bounded(s) && Sane(s) && s.runtime.Some? &&
             IsSnapshotOf(snap, s)
    ensures Rebuilt(s, Restore(canon, snap, now).store)
  {
    hide RestoreDocuments, RestoreUrlReceipts, RestoreTabs, GoodDocument, GoodUrlReceipt, GoodPending, Good, Bounded,
      Canonical, Overlong, IsSnapshotOf, Listed, Lasting, GoodTab;
    GoodParts(canon, s, now);
    SnapshotEntries(snap, s);
    SnapshotLists(snap, s);
    var s0 := Store(snap.runtime, snap.epoch, snap.maintenancePending, ValidSequence(snap.sequence),
                    ValidSequence(snap.floor), map[], map[], map[], map[]);
    var s1 := RestoreDocuments(canon, s0, snap.documents, now);
    var s2 := RestoreUrlReceipts(canon, s1, snap.urlReceipts, now);
    RestoreDocumentsKeeps(canon, s0, snap.documents, now);
    RestoreUrlReceiptsKeeps(canon, s1, snap.urlReceipts, now);
    RestoreTabsKeeps(s2, snap.tabs);
    forall k ensures k in s1.documents <==> k in s.documents && Lasting(s.documents[k])
             ensures k in s1.documents ==> s1.documents[k] == s.documents[k]
    {
      RestoreDocumentsExactly(canon, s, s0, snap.documents, now, k);
    }
    forall k ensures k in s2.urlReceipts <==> k in s.urlReceipts && !Overlong(k)
             ensures k in s2.urlReceipts ==> s2.urlReceipts[k] == s.urlReceipts[k]
    {
      RestoreUrlReceiptsExactly(canon, s, s1, snap.urlReceipts, now, k);
      if Listed(snap.urlReceipts, k) { UrlReceiptIsListed(snap.urlReceipts, s, k); }
    }
    var r := RestoreTabs(s2, snap.tabs);
    forall k: nat ensures k in r.tabs <==> k in s.tabs && Linked(s, s.tabs[k])
             ensures k in r.tabs ==>
                       r.tabs[k].documentId == s.tabs[k].documentId && r.tabs[k].sequence == s.tabs[k].sequence
    {
      RestoreTabsExactly(s, s2, snap.tabs, k);
    }
  }

  lemma RestoreRebuilds(canon: Canon, s: Store, snap: Snapshot, now: real, r: Store)
    requires Canonical(canon) && Good(canon, s, now) && Bounded(s) && Sane(s) && s.runtime.Some? &&
             IsSnapshotOf(snap, s)
    requires Settled(Restore(canon, snap, now), r)
    ensures Rebuilt(s, r)
  {
    hide RestoreDocuments, RestoreUrlReceipts, RestoreTabs, Good, Bounded, Pruned, Rebuilt, IsSnapshotOf, Canonical;
    var t := Restore(canon, snap, now).store;
    RestoreRebuildsUnpruned(canon, s, snap, now);
    RebuiltIsBounded(s, t);
    Authority.SnapshotRuntime(snap, s);
    if Restore(canon, snap, now).pruning.Everything? {
      NothingToPrune(t, r);
    }
  }

  // ---- every run keeps the store good ----

  lemma CurrentLater(
    c: ConnectReceipt, runtime: Option<Runtime>, epoch: Option<int>, target: Target, now: real, later: real)
    requires CurrentConnect(c, runtime, epoch, target, now) && now <= later
    ensures CurrentConnect(c, runtime, epoch, target, later)
  {
  }

  lemma GoodLater(canon: Canon, s: Store, now: real, later: real)
    requires Good(canon, s, now) && now <= later
    ensures Good(canon, s, later)
  {
    hide CurrentConnect, GoodEvidence;
    forall c: ConnectReceipt, epoch: Option<int>, target: Target | CurrentConnect(c, s.runtime, epoch, target, now)
      ensures CurrentConnect(c, s.runtime, epoch, target, later)
    {
      CurrentLater(c, s.runtime, epoch, target, now, later);
    }
  }

  /** `after` keeps from `s` what the store holds, perhaps in a later epoch. */
  ghost predicate Keeps(s: Store, after: Store) {
    after.runtime == s.runtime && after.epoch >= s.epoch &&
    (forall k :: k in after.documents ==> k in s.documents && after.documents[k] == s.documents[k]) &&
    (forall k :: k in after.urlReceipts ==> k in s.urlReceipts && after.urlReceipts[k] == s.urlReceipts[k]) &&
    (forall k :: k in after.pending ==> k in s.pending && SamePending(s.pending[k], after.pending[k])) &&
    (forall k :: k in after.tabs ==> k in s.tabs && after.tabs[k] == s.tabs[k])
  }

  ghost predicate SamePending(a: Pending, b: Pending) {
    a.target == b.target && a.tabId == b.tabId && a.completion == b.completion
  }

  lemma KeepsGood(canon: Canon, s: Store, after: Store, now: real)
    requires Good(canon, s, now) && Keeps(s, after)
    ensures Good(canon, after, now)
  {
    hide SourceMatches, CurrentResult, CurrentConnect, BoundedIdentifier;
  }

  lemma EmptyGood(canon: Canon, s: Store, now: real)
    requires Authority.Emptied(s) && s.tabs == map[]
    ensures Good(canon, s, now)
  {
  }

  lemma EnsureGood(canon: Canon, s: Store, st: Status, now: real)
    requires Good(canon, s, now)
    ensures Good(canon, EnsureRuntime(s, st, now).store, now)
  {
    hide EnsureRuntime, Good;
    var r := EnsureRuntime(s, st, now).store;
    EnsureCases(s, st, now);
    if r.runtime == s.runtime { KeepsGood(canon, s, r, now); } else { EmptyGood(canon, r, now); }
  }

  /** Adding or replacing one pending request, and marking conflicts, keeps the store good. */
  lemma RequestGood(canon: Canon, s: Store, id: string, p: Pending, n: nat, now: real)
    requires Good(canon, s, now) && GoodPending(canon, s, p)
    ensures Good(canon, s.(sequence := n, pending := MarkHostConflicts(s.pending[id := p], id, p.target.host)), now)
  {
    var marked := MarkHostConflicts(s.pending[id := p], id, p.target.host);
    hide GoodEvidence, Fits, BoundedIdentifier;
    forall k | k in marked ensures GoodPending(canon, s, marked[k]) {
      assert k == id || GoodPending(canon, s, s.pending[k]);
    }
  }

  lemma BeginGood(canon: Canon, s: Store, d: Details, st: Status, now: real)
    requires Canonical(canon) && Good(canon, s, now)
    ensures Good(canon, Begin(canon, s, d, st, now).store, now)
  {
    hide EnsureRuntime, MarkHostConflicts, Good, GoodCompletion, NextSequence;
    var s1 := EnsureRuntime(s, st, now).store;
    EnsureGood(canon, s, st, now);
    var out := Begin(canon, s, d, st, now);
    if out.result {
      var target := canon(d.url).value;
      assert Parsed(canon, target);
      if d.requestId in s1.pending {
        var p := s1.pending[d.requestId];
        GoodRequest(canon, s1, d.requestId, now);
        RequestGood(canon, s1, d.requestId,
          p.(target := target, verb := d.verb, documentId := p.documentId.OrElse(BoundedIdentifier(d.documentId))),
          s1.sequence, now);
      } else {
        var n := NextSequence(s1).sequence;
        RequestGood(canon, s1, d.requestId,
          Pending(d.tabId, BoundedIdentifier(d.documentId), target, d.verb, ValidBrowserTimestamp(d.timeStamp, now),
                  s1.floor, s1.epoch, false, None, n),
          n, now);
      }
    }
  }

  lemma GoodRequest(canon: Canon, s: Store, id: string, now: real)
    requires Good(canon, s, now) && id in s.pending
    ensures GoodPending(canon, s, s.pending[id])
  {
  }

  lemma RedirectGood(canon: Canon, s: Store, d: Details, now: real)
    requires Canonical(canon) && Good(canon, s, now)
    ensures Good(canon, Redirect(canon, s, d).store, now)
  {
    hide MarkHostConflicts, Good, GoodCompletion;
    if Redirect(canon, s, d).result {
      var p, target := s.pending[d.requestId], canon(d.redirectUrl).value;
      assert Parsed(canon, target);
      GoodRequest(canon, s, d.requestId, now);
      RequestGood(canon, s, d.requestId,
        p.(target := target, documentId := p.documentId.OrElse(BoundedIdentifier(d.documentId))), s.sequence, now);
    }
  }

  lemma FailRequestGood(canon: Canon, s: Store, d: Details, now: real)
    requires Good(canon, s, now)
    ensures Good(canon, FailRequest(s, d).store, now)
  {
    hide Good;
    KeepsGood(canon, s, FailRequest(s, d).store, now);
  }

  lemma MaintenanceGood(canon: Canon, s: Store, st: Status, seconds: int, now: real)
    requires Good(canon, s, now)
    ensures Good(canon, BeginMaintenance(s, st, now).store, now)
    ensures Good(canon, CompleteMaintenance(s, st, seconds, now).store, now)
  {
    hide Good, EnsureRuntime;
    var t := EnsureRuntime(s, st, now).store;
    EnsureGood(canon, s, st, now);
    KeepsGood(canon, t, t.(maintenancePending := true, pending := map[]), now);
    KeepsGood(canon, t, t.(maintenancePending := false, pending := map[]), now);
  }

  /** Giving a tab a new entry and dropping requests keeps the store good. */
  lemma TabGood(canon: Canon, s: Store, after: Store, tab: nat, now: real)
    requires Good(canon, s, now) && tab in after.tabs && GoodTab(tab, after.tabs[tab])
    requires Keeps(s, after.(tabs := s.tabs)) && after.tabs == s.tabs[tab := after.tabs[tab]]
    ensures Good(canon, after, now)
  {
    hide SourceMatches, CurrentResult, CurrentConnect, BoundedIdentifier;
    KeepsGood(canon, s, after.(tabs := s.tabs), now);
  }

  lemma SequenceSafe(s: Store)
    requires s.sequence <= MAX_SAFE_INTEGER
    ensures NextSequence(s).sequence <= MAX_SAFE_INTEGER
  {
  }

  lemma FailNavigationGood(canon: Canon, s: Store, d: Details, now: real)
    requires Good(canon, s, now) && s.sequence <= MAX_SAFE_INTEGER
    ensures Good(canon, FailNavigation(canon, s, d).store, now)
  {
    hide Good, NextSequence;
    if FailNavigation(canon, s, d).result {
      SequenceSafe(s.(pending := map k | k in s.pending && s.pending[k].tabId != d.tabId :: s.pending[k]));
      TabGood(canon, s, FailNavigation(canon, s, d).store, d.tabId, now);
    }
  }

  lemma RemoveTabGood(canon: Canon, s: Store, tabId: int, now: real)
    requires Good(canon, s, now)
    ensures Good(canon, RemoveTab(s, tabId).store, now)
  {
    hide Good;
    KeepsGood(canon, s, RemoveTab(s, tabId).store, now);
  }

  lemma ReplacedDocuments(canon: Canon, s: Store, addedId: int, removedId: int, now: real)
    requires Good(canon, s, now)
    ensures var r := ReplaceTab(s, addedId, removedId).store;
            forall k :: k in r.documents ==> GoodDocument(canon, s, k, r.documents[k], now)
  {
    hide NextSequence, GoodEvidence, Fits, BoundedIdentifier;
    var r := ReplaceTab(s, addedId, removedId).store;
    forall k | k in r.documents ensures GoodDocument(canon, s, k, r.documents[k], now) {
      assert GoodDocument(canon, s, k, s.documents[k], now);
    }
  }

  lemma ReplacedRequests(canon: Canon, s: Store, addedId: int, removedId: int, now: real)
    requires Good(canon, s, now)
    ensures var r := ReplaceTab(s, addedId, removedId).store;
            forall k :: k in r.pending ==> GoodPending(canon, s, r.pending[k])
  {
    hide NextSequence, GoodCompletion, GoodDocument, GoodUrlReceipt;
    var r := ReplaceTab(s, addedId, removedId).store;
    forall k | k in r.pending ensures GoodPending(canon, s, r.pending[k]) {
      assert GoodPending(canon, s, s.pending[k]);
    }
  }

  lemma ReplacedTabEntries(canon: Canon, s: Store, addedId: int, removedId: int, now: real)
    requires Good(canon, s, now) && s.sequence <= MAX_SAFE_INTEGER
    ensures var r := ReplaceTab(s, addedId, removedId).store;
            r.runtime == s.runtime && r.epoch == s.epoch && r.urlReceipts == s.urlReceipts &&
            forall k :: k in r.tabs ==> GoodTab(k, r.tabs[k])
  {
    hide NextSequence, GoodDocument, GoodPending, GoodUrlReceipt;
    SequenceSafe(s);
  }

  lemma ReplaceTabGood(canon: Canon, s: Store, addedId: int, removedId: int, now: real)
    requires Good(canon, s, now) && s.sequence <= MAX_SAFE_INTEGER
    ensures Good(canon, ReplaceTab(s, addedId, removedId).store, now)
  {
    hide ReplaceTab, GoodEvidence, Fits, BoundedIdentifier;
    ReplacedDocuments(canon, s, addedId, removedId, now);
    ReplacedRequests(canon, s, addedId, removedId, now);
    ReplacedTabEntries(canon, s, addedId, removedId, now);
  }

  /** Documents change in one place: the rest of the store is kept, and one tab may be new. */
  lemma DocumentGood(canon: Canon, s: Store, after: Store, id: string, tab: Option<nat>, now: real)
    requires Good(canon, s, now) && id in after.documents && GoodDocument(canon, s, id, after.documents[id], now)
    requires after.runtime == s.runtime && after.epoch == s.epoch && after.urlReceipts == s.urlReceipts
    requires after.documents == s.documents[id := after.documents[id]]
    requires forall k :: k in after.pending ==> k in s.pending && SamePending(s.pending[k], after.pending[k])
    requires if tab.None? then after.tabs == s.tabs
             else tab.value in after.tabs && after.tabs == s.tabs[tab.value := after.tabs[tab.value]] &&
                  GoodTab(tab.value, after.tabs[tab.value])
    ensures Good(canon, after, now)
  {
    hide GoodEvidence, Fits, BoundedIdentifier;
    forall k | k in after.documents ensures GoodDocument(canon, after, k, after.documents[k], now) {
      assert k == id || GoodDocument(canon, s, k, s.documents[k], now);
    }
    forall k | k in after.pending ensures GoodPending(canon, after, after.pending[k]) {
      assert GoodPending(canon, s, s.pending[k]);
    }
  }

  lemma BoundGood(canon: Canon, s: Store, id: string, doc: Document, c: Completion, sequence: nat, now: real)
    requires BoundedIdentifier(id).Some? && Parsed(canon, doc.target) && ValidTabId(doc.tabId).Some?
    requires GoodCompletion(s, c) && sequence <= MAX_SAFE_INTEGER
    ensures GoodDocument(canon, s, id, Bound(s, doc, c, sequence, now), now)
  {
    hide CurrentConnect, CurrentResult;
  }

  lemma BindGood(canon: Canon, s: Store, id: string, c: Completion, now: real)
    requires Good(canon, s, now) && id in s.documents && GoodCompletion(s, c) && s.sequence <= MAX_SAFE_INTEGER
    ensures Good(canon, Bind(s, id, c, now), now)
  {
    hide Good, Bound, NextSequence, GoodCompletion;
    GoodParts(canon, s, now);
    SequenceSafe(s);
    BoundGood(canon, s, id, s.documents[id], c, NextSequence(s).sequence, now);
    DocumentGood(canon, s, Bind(s, id, c, now), id, None, now);
  }

  lemma RecommittedGood(canon: Canon, s: Store, id: string, target: Target, tab: nat, restored: bool, n: nat, now: real)
    requires Canonical(canon) && Good(canon, s, now) && id in s.documents && Parsed(canon, target)
    requires ValidTabId(tab).Some? && n <= MAX_SAFE_INTEGER
    ensures var doc := s.documents[id];
            var kept := if doc.target.origin != target.origin then
                doc.(receipt := None, connect := None, receiptEpoch := None, source := None,
                     reason := Some(HistoryOriginMismatch))
              else doc;
            GoodDocument(canon, s, id, kept.(tabId := tab, target := target, restored := restored, sequence := n), now)
  {
    hide CurrentResult, CurrentDecision;
    var doc := s.documents[id];
    assert GoodDocument(canon, s, id, doc, now);
    if doc.target.origin == target.origin {
      SameOrigin(canon, doc.target, target);
    }
  }

  lemma CommitGood(canon: Canon, s: Store, d: Details, reason: Reason, pick: Option<string>, now: real)
    requires Canonical(canon) && Good(canon, s, now) && (pick.Some? ==> pick.value in s.pending)
    requires s.sequence <= MAX_SAFE_INTEGER
    ensures Good(canon, Commit(canon, s, d, reason, pick, now).store, now)
  {
    hide Good, NextSequence, Recommit, CommitNew, GoodDocument, GoodTab;
    var after := Commit(canon, s, d, reason, pick, now).store;
    var tab, id, target := ValidTabId(d.tabId), BoundedIdentifier(d.documentId), canon(d.url);
    SequenceSafe(s);
    var n := NextSequence(s).sequence;
    if tab.None? || !d.lifecycleActive {
    } else {
      TabEntryGood(tab.value, n);
      if id.None? || target.None? || d.frameId != 0 {
        TabGood(canon, s, after, tab.value, now);
      } else {
        if id.value in s.documents {
          RecommitGood(canon, s, d, reason, pick, now);
        } else {
          NewDocumentGood(canon, s, d, reason, pick, now);
        }
      }
    }
  }

  lemma RecommitGood(canon: Canon, s: Store, d: Details, reason: Reason, pick: Option<string>, now: real)
    requires Canonical(canon) && Good(canon, s, now) && (pick.Some? ==> pick.value in s.pending)
    requires s.sequence <= MAX_SAFE_INTEGER
    requires ValidTabId(d.tabId).Some? && d.lifecycleActive && BoundedIdentifier(d.documentId).Some? &&
             canon(d.url).Some?
    requires d.frameId == 0 && d.documentId in s.documents
    ensures Good(canon, Commit(canon, s, d, reason, pick, now).store, now)
  {
    hide Good, NextSequence, GoodDocument, GoodTab, CommitNew;
    var after := Commit(canon, s, d, reason, pick, now).store;
    SequenceSafe(s);
    var n := NextSequence(s).sequence;
    TabEntryGood(d.tabId, n);
    assert Parsed(canon, canon(d.url).value);
    RecommittedGood(canon, s, d.documentId, canon(d.url).value, d.tabId, after.documents[d.documentId].restored,
      n, now);
    DocumentGood(canon, s, after, d.documentId, Some(d.tabId), now);
  }

  lemma TabEntryGood(tab: nat, n: nat)
    requires ValidTabId(tab).Some? && n <= MAX_SAFE_INTEGER
    ensures forall t: Tab :: t.sequence == n ==> GoodTab(tab, t)
  {
  }

  lemma NewDocumentGood(canon: Canon, s: Store, d: Details, reason: Reason, pick: Option<string>, now: real)
    requires Canonical(canon) && Good(canon, s, now) && (pick.Some? ==> pick.value in s.pending)
    requires s.sequence <= MAX_SAFE_INTEGER
    requires ValidTabId(d.tabId).Some? && d.lifecycleActive && BoundedIdentifier(d.documentId).Some? &&
             canon(d.url).Some?
    requires d.frameId == 0 && d.documentId !in s.documents
    ensures Good(canon, Commit(canon, s, d, reason, pick, now).store, now)
  {
    hide Good, NextSequence, Bind, GoodDocument, GoodTab, GoodPending, GoodCompletion;
    var after := Commit(canon, s, d, reason, pick, now).store;
    var id, target := d.documentId, canon(d.url).value;
    SequenceSafe(s);
    var s1 := NextSequence(s);
    var doc := Document(d.tabId, target, None, None, None, None, d.forwardBack,
                        Some(if pick.Some? then MainFrameSecurityPending else reason), s1.sequence);
    var s2 := WithTab(s1.(documents := s1.documents[id := doc]), d.tabId,
        Tab(Some(id), Some(target.url), None, s1.sequence));
    TabEntryGood(d.tabId, s1.sequence);
    EmptyDocumentGood(canon, s, id, doc, now);
    if pick.Some? && s.pending[pick.value].completion.Some? {
      DocumentGood(canon, s, s2, id, Some(d.tabId), now);
      ParkedGood(canon, s, pick.value, s2, now);
      BindGood(canon, s2, id, s.pending[pick.value].completion.value, now);
      DroppedGood(canon, Bind(s2, id, s.pending[pick.value].completion.value, now), after, now);
    } else {
      DocumentGood(canon, s, after, id, Some(d.tabId), now);
    }
  }

  lemma EmptyDocumentGood(canon: Canon, s: Store, id: string, doc: Document, now: real)
    requires Canonical(canon) && BoundedIdentifier(id).Some? && ValidTabId(doc.tabId).Some?
    requires Parsed(canon, doc.target) && doc.sequence <= MAX_SAFE_INTEGER
    requires doc.receipt.None? && doc.connect.None? && doc.receiptEpoch.None?
    ensures GoodDocument(canon, s, id, doc, now)
  {
  }

  lemma ParkedGood(canon: Canon, s: Store, k: string, other: Store, now: real)
    requires Good(canon, s, now) && k in s.pending && s.pending[k].completion.Some?
    requires other.runtime == s.runtime && other.epoch == s.epoch
    ensures GoodCompletion(other, s.pending[k].completion.value)
  {
    hide GoodEvidence;
    assert GoodPending(canon, s, s.pending[k]);
  }

  lemma DroppedGood(canon: Canon, s: Store, after: Store, now: real)
    requires Good(canon, s, now) && after == s.(pending := after.pending)
    requires forall k :: k in after.pending ==> k in s.pending && after.pending[k] == s.pending[k]
    ensures Good(canon, after, now)
  {
    KeepsGood(canon, s, after, now);
  }

  lemma NetworkEvidenceGood(s: Store, p: Pending, d: Details, st: Status, now: real)
    requires ValidEpoch(Some(s.epoch)).Some?
    ensures var c := NetworkEvidence(s, p, d, st, now);
            GoodCompletion(s, c) && Fits(c.receipt, c.connect, c.epoch, s.runtime, p.target, now) &&
            (c.receipt.Some? || c.connect.Some? ==> c.epoch.Some?)
  {
    hide ConnectEvidence, CurrentDecision, CurrentConnect;
    if ConnectEvidence(s, p, d, st, now).connect.Some? {
      Authority.ConnectFromStatus(s, p, d, st, now);
      ConnectReason(s, p, d, st, now);
    }
    Authority.ConnectUnavailable(s, p, d, st, now);
  }

  lemma ConnectReason(s: Store, p: Pending, d: Details, st: Status, now: real)
    requires ConnectEvidence(s, p, d, st, now).connect.Some?
    ensures ConnectEvidence(s, p, d, st, now).reason.None?
  {
    hide Matching, Fresh, Retained, NewestEquivalent;
  }

  lemma CachedEvidenceGood(canon: Canon, s: Store, p: Pending, d: Details, now: real)
    requires Good(canon, s, now)
    ensures GoodCompletion(s, CachedEvidence(s, p, d, now))
  {
    hide CurrentConnect;
    if p.target.url in s.urlReceipts {
      assert GoodUrlReceipt(canon, s, p.target.url, s.urlReceipts[p.target.url], now);
    }
  }

  /** The store and the completion after evidence was sought. */
  ghost predicate GoodOutcome(canon: Canon, s: Store, r: Completed, now: real) {
    if r.store.runtime == s.runtime then Good(canon, r.store, now) && GoodCompletion(r.store, r.completion)
    else Authority.Emptied(r.store) && r.store.tabs == map[]
  }

  lemma CachedGood(canon: Canon, s: Store, p: Pending, d: Details, st: Status, now: real)
    requires Good(canon, s, now)
    ensures GoodOutcome(canon, s, Cached(s, p, d, st, now), now)
  {
    hide EnsureRuntime, CachedEvidence, Good;
    EnsureCases(s, st, now);
    EnsureGood(canon, s, st, now);
    CachedEvidenceGood(canon, EnsureRuntime(s, st, now).store, p, d, now);
  }

  lemma ObservedGood(canon: Canon, s: Store, st: Status, now: real)
    requires Good(canon, s, now)
    ensures Good(canon, Observed(s, st), now)
  {
    hide Good, CurrentResult;
    KeepsGood(canon, s, Observed(s, st), now);
  }

  lemma CachingGood(canon: Canon, s: Store, p: Pending, c: Completion, n: nat, now: real)
    requires Good(canon, s, now) && Parsed(canon, p.target) && GoodCompletion(s, c) && c.epoch.Some?
    requires Fits(c.receipt, c.connect, c.epoch, s.runtime, p.target, now) && n <= MAX_SAFE_INTEGER
    ensures Good(canon, s.(sequence := n, urlReceipts := s.urlReceipts[p.target.url := UrlReceipt(c, n)]), now)
  {
    hide GoodEvidence, Fits, BoundedIdentifier;
    var after := s.(sequence := n, urlReceipts := s.urlReceipts[p.target.url := UrlReceipt(c, n)]);
    forall k | k in after.urlReceipts ensures GoodUrlReceipt(canon, after, k, after.urlReceipts[k], now) {
      assert k == p.target.url || GoodUrlReceipt(canon, s, k, s.urlReceipts[k], now);
    }
  }

  lemma NetworkGood(canon: Canon, s: Store, p: Pending, d: Details, st: Status, now: real)
    requires Good(canon, s, now) && Sane(s) && Parsed(canon, p.target)
    ensures GoodOutcome(canon, s, Network(s, p, d, st, now), now)
  {
    hide EnsureRuntime, NetworkEvidence, Good, NextSequence, Observed, Fits;
    var t := EnsureRuntime(s, st, now).store;
    EnsureCases(s, st, now);
    EnsureGood(canon, s, st, now);
    if EnsureRuntime(s, st, now).result && t.runtime == s.runtime {
      var s1 := Observed(t, st);
      ObservedGood(canon, t, st, now);
      ObservedParts(t, st);
      NetworkEvidenceGood(s1, p, d, st, now);
      SequenceSafe(s1);
      CachingGoodIfFound(canon, s1, p, NetworkEvidence(s1, p, d, st, now), now);
    }
  }

  lemma ObservedParts(s: Store, st: Status)
    ensures Observed(s, st) == s.(floor := Observed(s, st).floor)
  {
  }

  lemma CachingGoodIfFound(canon: Canon, s: Store, p: Pending, c: Completion, now: real)
    requires Good(canon, s, now) && Parsed(canon, p.target) && GoodCompletion(s, c)
    requires Fits(c.receipt, c.connect, c.epoch, s.runtime, p.target, now) && s.sequence <= MAX_SAFE_INTEGER
    requires c.receipt.Some? || c.connect.Some? ==> c.epoch.Some?
    ensures c.receipt.Some? || c.connect.Some? ==>
              var s2 := NextSequence(s);
              var r := s2.(urlReceipts := s2.urlReceipts[p.target.url := UrlReceipt(c, s2.sequence)]);
              Good(canon, r, now) && GoodCompletion(r, c)
  {
    hide Good, Fits, GoodEvidence, NextSequence;
    SequenceSafe(s);
    if c.epoch.Some? {
      CachingGood(canon, s, p, c, NextSequence(s).sequence, now);
    }
  }

  lemma PendingGood(canon: Canon, s: Store, id: string, p: Pending, now: real)
    requires Good(canon, s, now) && GoodPending(canon, s, p)
    ensures Good(canon, s.(pending := s.pending[id := p]), now)
  {
    hide GoodEvidence, Fits, BoundedIdentifier;
    var after := s.(pending := s.pending[id := p]);
    forall k | k in after.pending ensures GoodPending(canon, after, after.pending[k]) {
      assert k == id || GoodPending(canon, s, s.pending[k]);
    }
  }

  lemma ConcludedGood(canon: Canon, s: Store, id: string, p: Pending, c: Completion, now: real)
    requires Good(canon, s, now) && GoodCompletion(s, c) && s.sequence <= MAX_SAFE_INTEGER
    requires Parsed(canon, p.target) && ValidTabId(p.tabId).Some?
    ensures Good(canon, Concluded(s, id, p, c, now), now)
  {
    hide Good, Bind, GoodCompletion;
    var documentId := p.documentId.OrElse(DocumentIdForTabAndUrl(s, p.tabId, p.target.url));
    if documentId.Some? && documentId.value in s.documents {
      BindGood(canon, s, documentId.value, c, now);
      DroppedGood(canon, Bind(s, documentId.value, c, now), Concluded(s, id, p, c, now), now);
    } else if id in s.pending {
      PendingGood(canon, s, id, p.(completion := Some(c)), now);
    }
  }

  lemma EvidenceGood(canon: Canon, s: Store, p: Pending, d: Details, st: Status, now: real)
    requires Good(canon, s, now) && Sane(s) && Parsed(canon, p.target)
    ensures GoodOutcome(canon, s, Evidence(s, p, d, st, now), now)
  {
    hide GoodOutcome, Good, Sane, Cached, Network;
    if d.fromCache { CachedGood(canon, s, p, d, st, now); } else { NetworkGood(canon, s, p, d, st, now); }
  }

  lemma CompleteGood(canon: Canon, s: Store, d: Details, st: Status, now: real)
    requires Canonical(canon) && Good(canon, s, now) && Sane(s)
    ensures Good(canon, Complete(canon, s, d, st, now).store, now)
  {
    hide Good, Evidence, Concluded, GoodCompletion;
    var id, target := BoundedIdentifier(d.requestId), canon(d.url);
    if id.None? || id.value !in s.pending {
    } else if target.None? || ValidTabId(d.tabId) != Some(s.pending[id.value].tabId) {
      DroppedGood(canon, s, Complete(canon, s, d, st, now).store, now);
    } else {
      var p := Completing(s.pending[id.value], target.value, d);
      var s1 := s.(pending := s.pending[id.value := p]);
      assert Parsed(canon, target.value);
      GoodRequest(canon, s, id.value, now);
      PendingGood(canon, s, id.value, p, now);
      EvidenceGood(canon, s1, p, d, st, now);
      EvidenceSane(s1, p, d, st, now);
      var r := Evidence(s1, p, d, st, now);
      if r.store.runtime == s.runtime {
        ConcludedGood(canon, r.store, id.value, p, r.completion, now);
      } else {
        ConcludedNothing(r.store, id.value, p, r.completion, now);
        EmptyGood(canon, r.store, now);
      }
    }
  }

  lemma ConcludedNothing(s: Store, id: string, p: Pending, c: Completion, now: real)
    requires Authority.Emptied(s)
    ensures Concluded(s, id, p, c, now) == s
  {
  }

  lemma RebuiltGood(canon: Canon, s: Store, r: Store, now: real)
    requires Good(canon, s, now) && Rebuilt(s, r)
    ensures Good(canon, r, now)
  {
    hide GoodEvidence, Fits, BoundedIdentifier;
    forall k | k in r.documents ensures GoodDocument(canon, r, k, r.documents[k], now) {
      assert GoodDocument(canon, s, k, s.documents[k], now);
    }
    forall k | k in r.tabs ensures GoodTab(k, r.tabs[k]) {
      assert GoodTab(k, s.tabs[k]);
    }
  }

  lemma RestartGood(canon: Canon, s: Store, snap: Snapshot, now: real)
    requires Canonical(canon) && Good(canon, s, now) && Bounded(s) && Sane(s) && IsSnapshotOf(snap, s)
    ensures Good(canon, Restore(canon, snap, now).store, now)
  {
    hide Good, Restore, Rebuilt, IsSnapshotOf, Bounded, Canonical;
    if s.runtime.Some? {
      RestoreRebuildsUnpruned(canon, s, snap, now);
      RebuiltGood(canon, s, Restore(canon, snap, now).store, now);
    } else {
      Authority.SnapshotRuntime(snap, s);
      Authority.RestartNothing(canon, snap, now);
      EmptyGood(canon, EMPTY, now);
    }
  }

  lemma EffectGood(canon: Canon, s: Store, e: Event, now: real)
    requires Canonical(canon) && Good(canon, s, now) && Bounded(s) && Sane(s) && Enabled(canon, s, e)
    ensures Good(canon, Effect(canon, s, e, now).store, now)
  {
    hide Canonical, Good, Bounded, Begin, Redirect, FailRequest, Complete, Commit, FailNavigation, RemoveTab,
      ReplaceTab, BeginMaintenance, CompleteMaintenance, EnsureRuntime, Restore, IsSnapshotOf, IsPendingForDocument;
    match e {
      case BeginEvent(d, st) => BeginGood(canon, s, d, st, now);
      case RedirectEvent(d) => RedirectGood(canon, s, d, now);
      case CommitEvent(d, reason, pick) => CommitGood(canon, s, d, reason, pick, now);
      case CompleteEvent(d, st) => CompleteGood(canon, s, d, st, now);
      case FailRequestEvent(d) => FailRequestGood(canon, s, d, now);
      case FailNavigationEvent(d) => FailNavigationGood(canon, s, d, now);
      case BeginMaintenanceEvent(st) => MaintenanceGood(canon, s, st, 0, now);
      case CompleteMaintenanceEvent(st, seconds) => MaintenanceGood(canon, s, st, seconds, now);
      case RemoveTabEvent(tabId) => RemoveTabGood(canon, s, tabId, now);
      case ReplaceTabEvent(addedId, removedId) => ReplaceTabGood(canon, s, addedId, removedId, now);
      case QueryEvent(st) => EnsureGood(canon, s, st, now);
      case RestartEvent(snapshot) => RestartGood(canon, s, snapshot, now);
    }
  }

  lemma SettledGood<R>(canon: Canon, out: Out<R>, after: Store, now: real)
    requires Good(canon, out.store, now) && Settled(out, after)
    ensures Good(canon, after, now)
  {
    hide Good;
    Authority.SettledParts(out, after);
    SettledTabs(out, after);
    KeepsGood(canon, out.store, after, now);
  }

  lemma SettledTabs<R>(out: Out<R>, after: Store)
    requires Settled(out, after)
    ensures forall k :: k in after.tabs ==> k in out.store.tabs && after.tabs[k] == out.store.tabs[k]
  {
  }

  ghost predicate Timely(steps: seq<Step>) {
    forall i, j :: 0 <= i < j < |steps| ==> steps[i].now <= steps[j].now
  }

  lemma {:induction false} RunStaysGood(canon: Canon, steps: seq<Step>, now: real)
    requires Canonical(canon) && IsRun(canon, EMPTY, steps) && Timely(steps)
    requires forall i :: 0 <= i < |steps| ==> steps[i].now <= now
    ensures Good(canon, Last(EMPTY, steps), now)
  {
    hide Canonical, Effect, Enabled, Settled, Good;
    if steps == [] {
      EmptyGood(canon, EMPTY, now);
    } else {
      var n := |steps| - 1;
      var s := Last(EMPTY, steps[..n]);
      RunStaysGood(canon, steps[..n], steps[n].now);
      RunStaysBounded(canon, steps[..n]);
      RunSane(canon, steps[..n]);
      EffectGood(canon, s, steps[n].event, steps[n].now);
      SettledGood(canon, Effect(canon, s, steps[n].event, steps[n].now), steps[n].after, steps[n].now);
      GoodLater(canon, steps[n].after, steps[n].now, now);
    }
  }

  // ---- what observers see after a restart ----

  /** r shows observers what s shows: the same evidence at the same tabs, under the same runtime and epoch. */
  ghost predicate Mirrors(s: Store, r: Store) {
    r.runtime == s.runtime && r.epoch == s.epoch && r.maintenancePending == s.maintenancePending &&
    (forall k :: k in s.tabs && Linked(s, s.tabs[k]) ==>
      k in r.tabs && r.tabs[k].documentId == s.tabs[k].documentId) &&
    (forall k :: k in r.tabs ==> k in s.tabs && Linked(s, s.tabs[k])) &&
    (forall k :: k in s.documents && Lasting(s.documents[k]) ==>
      k in r.documents && r.documents[k] == s.documents[k]) &&
    (forall k :: k in r.documents ==> k in s.documents && Lasting(s.documents[k]))
  }

  /** Documents without an evidence epoch hold no evidence. */
  ghost predicate NoLooseEvidence(s: Store) {
    forall k :: k in s.documents && s.documents[k].receiptEpoch.None? ==>
      s.documents[k].receipt.None? && s.documents[k].connect.None?
  }

  lemma EnsureMirrors(s: Store, r: Store, st: Status, now: real)
    requires Mirrors(s, r) && NoLooseEvidence(s)
    ensures EnsureRuntime(s, st, now).result == EnsureRuntime(r, st, now).result
    ensures Mirrors(EnsureRuntime(s, st, now).store, EnsureRuntime(r, st, now).store)
    ensures NoLooseEvidence(EnsureRuntime(s, st, now).store)
  {
    EnsureAgrees(s, r, st, now);
    EnsureCases(s, st, now);
    EnsureCases(r, st, now);
    hide EnsureRuntime;
    var s1, r1 := EnsureRuntime(s, st, now).store, EnsureRuntime(r, st, now).store;
    if s1.runtime == s.runtime { SameTables(s, r, s1, r1); }
  }

  lemma SameTables(s: Store, r: Store, s1: Store, r1: Store)
    requires Mirrors(s, r) && NoLooseEvidence(s)
    requires s1.documents == s.documents && s1.tabs == s.tabs && r1.documents == r.documents && r1.tabs == r.tabs
    requires r1.runtime == s1.runtime && r1.epoch == s1.epoch && r1.maintenancePending == s1.maintenancePending
    ensures Mirrors(s1, r1) && NoLooseEvidence(s1)
  {
  }

  lemma EnsureOutcome(s: Store, st: Status, now: real)
    ensures var runtime, epoch := RuntimeTuple(st.runtime), ValidEpoch(st.epoch); var a := EnsureRuntime(s, st, now);
            a.result == (runtime.Some? && epoch.Some? && !(s.runtime == runtime && epoch.value < s.epoch)) &&
            a.store.runtime == (if a.result then runtime else s.runtime) &&
            a.store.epoch == (if a.result then epoch.value else s.epoch) &&
            a.store.maintenancePending == (if a.result && s.runtime != runtime then false else s.maintenancePending)
  {
    hide NoteNativeEvent, RuntimeTuple, ValidEpoch;
  }

  lemma EnsureAgrees(s: Store, r: Store, st: Status, now: real)
    requires r.runtime == s.runtime && r.epoch == s.epoch && r.maintenancePending == s.maintenancePending
    ensures var a, b := EnsureRuntime(s, st, now), EnsureRuntime(r, st, now);
            a.result == b.result && a.store.runtime == b.store.runtime && a.store.epoch == b.store.epoch &&
            a.store.maintenancePending == b.store.maintenancePending
  {
    hide EnsureRuntime;
    EnsureOutcome(s, st, now);
    EnsureOutcome(r, st, now);
  }

  /** The tab shows a document that a restart keeps. */
  ghost predicate Shows(s: Store, tabId: int) {
    tabId in s.tabs && Linked(s, s.tabs[tabId])
  }

  /** What a tab's receipt view becomes by a restart: the same, unless the tab is no more. */
  ghost function RestartedView(s: Store, tabId: int, now: real): ReceiptView {
    if ValidTabId(tabId).Some? && !Shows(s, tabId) then NoReceipt(ActiveDocumentReceiptUnavailable)
    else TabView(s, tabId, now)
  }

  lemma MirroredView(s: Store, r: Store, tabId: int, now: real)
    requires Mirrors(s, r)
    ensures TabView(r, tabId, now) == RestartedView(s, tabId, now)
  {
    hide CurrentResult, CurrentConnect, Overlong;
  }

  /** A view with a receipt is lost exactly if the document's URL is overlong. */
  lemma LostView(s: Store, tabId: int, now: real)
    requires NoLooseEvidence(s) && !TabView(s, tabId, now).state.NotAvailable?
    ensures tabId in s.tabs && s.tabs[tabId].documentId.Some? && s.tabs[tabId].documentId.value in s.documents
    ensures RestartedView(s, tabId, now) ==
            if Overlong(s.documents[s.tabs[tabId].documentId.value].target.url)
            then NoReceipt(ActiveDocumentReceiptUnavailable)
            else TabView(s, tabId, now)
  {
    hide CurrentResult, CurrentConnect, Overlong;
  }

  /** What authority a query finds after a restart. */
  ghost function RestartedAuthority(canon: Canon, s: Store, q: Query, now: real): Option<Spec.Authority> {
    if q.documentId in s.documents && Overlong(s.documents[q.documentId].target.url) then None
    else AuthorityIn(canon, s, q, now)
  }

  lemma MirroredAuthority(canon: Canon, s: Store, r: Store, q: Query, now: real)
    requires Mirrors(s, r)
    ensures AuthorityIn(canon, r, q, now) == RestartedAuthority(canon, s, q, now)
  {
    hide CurrentResult, CurrentConnect, Overlong;
  }

  lemma RebuiltMirrors(canon: Canon, s: Store, r: Store, now: real)
    requires Good(canon, s, now) && Rebuilt(s, r)
    ensures Mirrors(s, r) && NoLooseEvidence(s)
  {
    hide SourceMatches, CurrentResult, Fits, BoundedIdentifier;
    forall k | k in s.documents ensures GoodDocument(canon, s, k, s.documents[k], now) {
    }
  }

  /** Whatever the status, tab or query and the later clock, the restarted store gives the same receipt view and the
      same provider authority, except that a tab without a document that lasts gets no receipt and a document under
      an overlong URL no authority. */
  lemma RestartIsUnobservable(
    canon: Canon, steps: seq<Step>, snap: Snapshot, now: real, r: Store, st: Status, later: real, tabId: int, q: Query)
    requires Canonical(canon) && IsRun(canon, EMPTY, steps) && Timely(steps)
    requires forall i :: 0 <= i < |steps| ==> steps[i].now <= now
    requires IsSnapshotOf(snap, Last(EMPTY, steps)) && Settled(Restore(canon, snap, now), r)
    ensures var before, after := ReceiptForTab(Last(EMPTY, steps), tabId, st, later),
            ReceiptForTab(r, tabId, st, later);
            after.result == if EnsureRuntime(r, st, later).result then RestartedView(before.store, tabId, later)
              else before.result
    ensures var before, after := ReceiptForTab(Last(EMPTY, steps), tabId, st, later),
            ReceiptForTab(r, tabId, st, later);
            !before.result.state.NotAvailable? ==>
              tabId in before.store.tabs && var id := before.store.tabs[tabId].documentId;
              id.Some? && id.value in before.store.documents &&
              (after.result == before.result <==> !Overlong(before.store.documents[id.value].target.url))
    ensures var before, after := ProviderAuthority(canon, Last(EMPTY, steps), q, st, later),
            ProviderAuthority(canon, r, q, st, later);
            after.result ==
            if q.documentId in before.store.documents &&
              Overlong(before.store.documents[q.documentId].target.url) then None
            else before.result
    ensures Last(EMPTY, steps).runtime.Some? ==> Rebuilt(Last(EMPTY, steps), r)
  {
    hide IsRun, Canonical, Good, Bounded, Restore, Rebuilt, Mirrors, NoLooseEvidence, EnsureRuntime, TabView,
      AuthorityIn, Sane, IsSnapshotOf, Pruned, Overlong;
    var s := Last(EMPTY, steps);
    RunStaysGood(canon, steps, now);
    RunStaysBounded(canon, steps);
    RunSane(canon, steps);
    if s.runtime.Some? {
      RestoreRebuilds(canon, s, snap, now, r);
      RebuiltMirrors(canon, s, r, now);
      MirroredAnswers(canon, s, r, st, later, tabId, q);
    } else {
      Authority.SnapshotRuntime(snap, s);
      RestartFromNothing(canon, snap, now, r);
      EnsureFromNothing(s, st, later);
      NothingShown(s, r, st, later, tabId);
    }
  }

  lemma NothingShown(s: Store, r: Store, st: Status, now: real, tabId: int)
    requires s.runtime.None?
    ensures var t := EnsureRuntime(s, st, now).store;
            EnsureRuntime(s, st, now).result ==>
            t.tabs == map[] && t.documents == map[] && TabView(t, tabId, now) == RestartedView(t, tabId, now) &&
            TabView(t, tabId, now).state.NotAvailable?
  {
    hide NoteNativeEvent;
  }

  lemma MirroredAnswers(canon: Canon, s: Store, r: Store, st: Status, now: real, tabId: int, q: Query)
    requires Mirrors(s, r) && NoLooseEvidence(s)
    ensures var before, after := ReceiptForTab(s, tabId, st, now), ReceiptForTab(r, tabId, st, now);
            after.result == if EnsureRuntime(r, st, now).result then RestartedView(before.store, tabId, now)
              else before.result
    ensures var before := ReceiptForTab(s, tabId, st, now);
            !before.result.state.NotAvailable? ==>
              tabId in before.store.tabs && var id := before.store.tabs[tabId].documentId;
              id.Some? && id.value in before.store.documents &&
              (RestartedView(before.store, tabId, now) == before.result <==>
               !Overlong(before.store.documents[id.value].target.url))
    ensures var before, after := ProviderAuthority(canon, s, q, st, now), ProviderAuthority(canon, r, q, st, now);
            after.result ==
            if q.documentId in before.store.documents &&
              Overlong(before.store.documents[q.documentId].target.url) then None
            else before.result
  {
    hide EnsureRuntime, TabView, AuthorityIn, NoLooseEvidence, Linked, Overlong, RestartedView;
    var s1, r1 := EnsureRuntime(s, st, now).store, EnsureRuntime(r, st, now).store;
    EnsureMirrors(s, r, st, now);
    MirroredView(s1, r1, tabId, now);
    MirroredAuthority(canon, s1, r1, q, now);
    if EnsureRuntime(s, st, now).result && !TabView(s1, tabId, now).state.NotAvailable? {
      LostView(s1, tabId, now);
    }
  }

  lemma RestartFromNothing(canon: Canon, snap: Snapshot, now: real, r: Store)
    requires snap.Snapshot? && snap.runtime.None? && Settled(Restore(canon, snap, now), r)
    ensures r == EMPTY
  {
  }

  lemma EnsureFromNothing(s: Store, st: Status, now: real)
    requires s.runtime.None?
    ensures var a, b := EnsureRuntime(s, st, now), EnsureRuntime(EMPTY, st, now);
            a.result == b.result && (a.result ==> a.store == b.store)
  {
    hide NoteNativeEvent;
  }

  // ---- the event floor after a restart ----

  ghost predicate FloorCovers(s: Store) {
    (forall k :: k in s.documents ==> EventSequence(s.documents[k].receipt, s.documents[k].connect) <= s.floor) &&
    (forall k :: k in s.urlReceipts ==>
      EventSequence(s.urlReceipts[k].completion.receipt, s.urlReceipts[k].completion.connect) <= s.floor)
  }

  lemma {:induction false} RestoredDocumentsCovered(canon: Canon, s: Store, entries: seq<(string, Document)>, now: real)
    requires FloorCovers(s)
    ensures FloorCovers(RestoreDocuments(canon, s, entries, now))
  {
    hide RestoredDocument;
    if entries != [] {
      RestoredDocumentsCovered(canon, s, entries[..|entries| - 1], now);
    }
  }

  lemma {:induction false} RestoredUrlReceiptsCovered(
    canon: Canon, s: Store, entries: seq<(string, UrlReceipt)>, now: real)
    requires FloorCovers(s)
    ensures FloorCovers(RestoreUrlReceipts(canon, s, entries, now))
  {
    hide RestoredUrlReceipt;
    if entries != [] {
      RestoredUrlReceiptsCovered(canon, s, entries[..|entries| - 1], now);
    }
  }

  /** After restoring any snapshot the floor is at or above every stored receipt. */
  lemma RestoredFloorCovers(canon: Canon, snap: Snapshot, now: real, r: Store)
    requires Settled(Restore(canon, snap, now), r)
    ensures FloorCovers(r)
  {
    hide RestoreDocuments, RestoreUrlReceipts, RestoreTabs;
    if snap.Snapshot? {
      var s0 := Store(snap.runtime, snap.epoch, snap.maintenancePending, ValidSequence(snap.sequence),
                      ValidSequence(snap.floor), map[], map[], map[], map[]);
      var docs := FirstEntries(snap.documents, MAX_DOCUMENTS);
      RestoredDocumentsCovered(canon, s0, docs, now);
      var s1 := RestoreDocuments(canon, s0, docs, now);
      var urls := FirstEntries(snap.urlReceipts, MAX_URL_RECEIPTS);
      RestoredUrlReceiptsCovered(canon, s1, urls, now);
      RestoreTabsKeeps(RestoreUrlReceipts(canon, s1, urls, now), FirstEntries(snap.tabs, MAX_TABS));
    }
    PrunedCovers(Restore(canon, snap, now), r);
  }

  lemma PrunedCovers(out: Out<bool>, after: Store)
    requires Settled(out, after)
    ensures FloorCovers(out.store) ==> FloorCovers(after)
  {
  }

  // ---- the event floor before a restart ----

  /** A decision that noteNativeEvent counts and that is at or above a sequence. */
  ghost predicate Noted(ds: seq<ConnectDecision>, runtime: Option<Runtime>, epoch: int, now: real, sequence: int) {
    exists y :: y in ds && CurrentDecision(y, runtime, Some(epoch), now) && y.eventSequence >= sequence
  }

  /** Noting decisions raises the floor to the highest of those that count, and no further. */
  lemma {:induction false} NotedFloor(
    floor: int, ds: seq<ConnectDecision>, runtime: Option<Runtime>, epoch: int, now: real, sequence: int)
    ensures sequence <= NoteDecisions(floor, ds, runtime, epoch, now) <==>
            sequence <= floor || Noted(ds, runtime, epoch, now, sequence)
  {
    hide CurrentDecision;
    if ds != [] {
      var n := |ds| - 1;
      NotedFloor(floor, ds[..n], runtime, epoch, now, sequence);
      assert forall y :: y in ds <==> y in ds[..n] || y == ds[n];
    }
  }

  /** The floor after a completion read its status. */
  lemma CompletedFloor(s: Store, p: Pending, d: Details, st: Status, now: real, sequence: int)
    requires Network(s, p, d, st, now).completion.connect.Some?
    ensures var r := Network(s, p, d, st, now).store;
            r.runtime == s.runtime && st.decisions.Some? &&
            (sequence <= r.floor <==>
              sequence <= s.floor || Noted(st.decisions.value, s.runtime, r.epoch, now, sequence) ||
              (CurrentSecurityResult(st.latest, s.runtime).Some? && sequence <= st.latest.value.eventSequence))
  {
    hide ConnectEvidence, CurrentDecision, CurrentResult, NoteDecisions, Noted;
    var s1 := Observed(EnsureRuntime(s, st, now).store, st);
    Authority.ConnectUnavailable(s1, p, d, st, now);
    FewDecisions(s1, p, d, st, now);
    var latest := CurrentSecurityResult(st.latest, s.runtime);
    var floor := if latest.Some? then MaxInt(s.floor, latest.value.eventSequence) else s.floor;
    NotedFloor(floor, st.decisions.value, s.runtime, st.epoch.value, now, sequence);
  }

  /** A CONNECT decision that a completion binds is at or below the floor exactly if it was observed within the
      skew that the floor allows, or something else is at or above it: the floor before, the response of the
      status or another decision that counts.  (The completion allows more skew, up to its own time.) */
  lemma BoundDecisionIsCovered(s: Store, p: Pending, d: Details, st: Status, now: real)
    requires Network(s, p, d, st, now).completion.connect.Some?
    ensures var r := Network(s, p, d, st, now); var x := r.completion.connect.value.decision;
            st.decisions.Some? &&
            (x.eventSequence <= r.store.floor <==>
              x.observedAt <= now + MAX_CONNECT_DECISION_CLOCK_SKEW_MS || x.eventSequence <= s.floor ||
              (CurrentSecurityResult(st.latest, s.runtime).Some? && x.eventSequence <= st.latest.value.eventSequence) ||
              Noted(st.decisions.value, s.runtime, r.store.epoch, now, x.eventSequence))
  {
    hide ConnectEvidence, CurrentConnect, NoteNativeEvent, CurrentDecision;
    var r := Network(s, p, d, st, now);
    var x := r.completion.connect.value.decision;
    var s1 := Observed(EnsureRuntime(s, st, now).store, st);
    EnsureCases(s, st, now);
    Authority.ConnectFromStatus(s1, p, d, st, now);
    Authority.ConnectUnavailable(s1, p, d, st, now);
    CompletedFloor(s, p, d, st, now, x.eventSequence);
    if x.observedAt <= now + MAX_CONNECT_DECISION_CLOCK_SKEW_MS {
      CurrentEarlier(x, s1.runtime, s1.epoch, p.target, r.completion.connect.value, now);
    }
  }

  lemma FewDecisions(s: Store, p: Pending, d: Details, st: Status, now: real)
    requires ConnectEvidence(s, p, d, st, now).connect.Some?
    ensures st.decisions.Some? && |st.decisions.value| <= MAX_NATIVE_CONNECT_DECISIONS
  {
    hide Matching, Fresh, Retained, NewestEquivalent;
  }

  lemma CurrentEarlier(
    x: ConnectDecision, runtime: Option<Runtime>, epoch: int, target: Target, c: ConnectReceipt, now: real)
    requires CurrentConnect(c, runtime, Some(epoch), target, now) && c.decision == x
    requires x.observedAt <= now + MAX_CONNECT_DECISION_CLOCK_SKEW_MS
    ensures CurrentDecision(x, runtime, Some(epoch), now)
  {
  }

  /** Beyond that skew it may be bound and yet stay above the floor, until a restart raises the floor. */
  lemma LateDecisionIsNotCovered() returns (s: Store, p: Pending, d: Details, st: Status, now: real)
    ensures var r := Network(s, p, d, st, now);
            r.completion.connect.Some? && r.completion.connect.value.decision.eventSequence > r.store.floor
  {
    now := 1800000000000.0;
    var runtime := Runtime("s", 1, 1);
    var target := Target("https://a/", "https://a", "a", 443, Https);
    var x := ConnectDecision(true, runtime, 1, 7, "a", 443, now + 310000.0, "mainnet", "f", "e");
    s := EMPTY.(runtime := Some(runtime), epoch := 1);
    p := Pending(1, None, target, Get, Some(now), 0, 1, false, None, 1);
    d := Details("r", 1, "", "https://a/", "", true, 0, true, false, Get, Some(now + 300000.0), false, Some(200));
    st := Status(Some(runtime), Some(1), None, Some([x]), true, true, true, None, None, None);
    LateDecisionIsSelected(s, p, d, st, now, x);
    LateDecisionIsNotNoted(s, st, now, x);
  }

  lemma LateDecisionIsSelected(s: Store, p: Pending, d: Details, st: Status, now: real, x: ConnectDecision)
    requires st.decisions == Some([x]) && p.target.scheme == Https && p.startedAt == Some(now) &&
             now >= EARLIEST_TIMESTAMP_MS
    requires d.timeStamp == Some(now + 300000.0) && d.statusCode == Some(200) && p.eventFloor < x.eventSequence
    requires CurrentDecision(x, s.runtime, Some(s.epoch), now + 300000.0) && x.host == p.target.host &&
             x.port == p.target.port
    requires x.observedAt == now + 310000.0 && x.fingerprint != ""
    ensures ConnectEvidence(s, p, d, st, now).connect == Some(ConnectReceipt(x, 200, now + 300000.0))
  {
    hide CurrentDecision, Matching, Spec.Fresh, Retained, NewestEquivalent;
    OneMatches(s, p, now + 300000.0, now, x);
    OneIsSelected(p.eventFloor, now, x);
    SelectedIsBound(s, p, d, st, now, now + 300000.0, x);
  }

  lemma SelectedIsBound(s: Store, p: Pending, d: Details, st: Status, now: real, completedAt: real, x: ConnectDecision)
    requires st.decisions == Some([x]) && p.target.scheme == Https && p.startedAt == Some(now)
    requires now >= EARLIEST_TIMESTAMP_MS && now <= completedAt <= now + MAX_BROWSER_CLOCK_SKEW_MS
    requires d.timeStamp == Some(completedAt) && d.statusCode == Some(200)
    requires Matching([x], s, p, completedAt, now) == [x]
    requires NewestEquivalent(Spec.Fresh([x], p.eventFloor, now)) == Selected(x)
    ensures ConnectEvidence(s, p, d, st, now).connect == Some(ConnectReceipt(x, 200, completedAt))
  {
    hide CurrentDecision, Matching, Spec.Fresh, Retained, NewestEquivalent;
  }

  lemma OneMatches(s: Store, p: Pending, completedAt: real, now: real, x: ConnectDecision)
    requires CurrentDecision(x, s.runtime, Some(s.epoch), completedAt) && now <= completedAt
    requires x.host == p.target.host && x.port == p.target.port
    requires x.observedAt <= completedAt + MAX_COMPLETION_CLOCK_SKEW_MS
    ensures Matching([x], s, p, completedAt, now) == [x]
  {
    hide CurrentDecision;
    assert [x][..0] == [];
  }

  lemma OneIsSelected(floor: int, startedAt: real, x: ConnectDecision)
    requires floor < x.eventSequence && startedAt <= x.observedAt && x.fingerprint != ""
    ensures NewestEquivalent(Spec.Fresh([x], floor, startedAt)) == Selected(x)
  {
    assert [x][..0] == [];
    assert Spec.Fresh([x], floor, startedAt) == [x];
    assert NewestEquivalent([x]) == Selected(x);
  }

  lemma LateDecisionIsNotNoted(s: Store, st: Status, now: real, x: ConnectDecision)
    requires s.runtime.Some? && s.runtime == RuntimeTuple(st.runtime) && Some(s.epoch) == ValidEpoch(st.epoch) &&
             s.floor == 0
    requires st.latest.None? && st.decisions == Some([x]) && x.observedAt == now + 310000.0
    ensures EnsureRuntime(s, st, now).result && EnsureRuntime(s, st, now).store == s
  {
    assert [x][..0] == [];
    assert NoteDecisions(0, [x], s.runtime, s.epoch, now) == 0;
  }
}
