# Verified model of the HNS DANE browser extension

This project models, in Dafny 4.11, the parts of the extension and of its installer that decide whom
to trust, and proves what they keep over every run. `dafny verify dfyconfig.toml` checks all of it.

| file | component |
|---|---|
| `NavigationReceipts.dfy` | what each method of the navigation receipt store computes, as functions on the store's value |
| `NavigationReceiptStore.dfy` | the store as it runs: a class updated in place, each method proved against those functions |
| `NavigationOutcomes.dfy`, `NavigationChanges.dfy` | on the fields: exactly when a completion gives evidence and which, what a tab is shown, who has provider authority, and what each change leaves |
| `NavigationLifetime.dfy` | any calls on the object, with restarts, are a run |
| `NavigationRuns.dfy` | runs: browser events, native statuses, maintenance, queries and worker restarts in any order |
| `NavigationFreshness.dfy` | a response event is bound as fresh evidence once |
| `NavigationRedirects.dfy` | why that statement is about requests that stay on one host, and which others bind a response again |
| `NavigationAuthority.dfy` | provider authority is never stale |
| `NavigationSnapshot.dfy`, `NavigationLongUrls.dfy` | snapshot and restore undo each other for observers, but for overlong URLs; the event floor |
| `NavigationPruning.dfy` | size bounds, and what is not evicted |
| `InstallerRecords.dfy`, `Installer.dfy` | ownership records, trust stores and browser manifests under installs, repairs and uninstalls stopped anywhere |
| `PacController.dfy`, `EpochMutations.dfy`, `NavigationGate.dfy`, `StartRuntime.dfy`, `NativeClient.dfy` | proxy control: serialized PAC and alarm mutations, the navigation gate, the start of a runtime, the native port |
| `WalletProviderRouter.dfy`, `ProviderDocument.dfy`, `WalletApprovals.dfy` | wallet requests: generations, replay and rates, approvals |
| `HeaderStatus.dfy`, `HeaderSyncSchedule.dfy` | header evidence and when to synchronize |
| `Fips202.dfy`, `Keccak.dfy`, `KeccakRefinement.dfy`, `HnsNameHash.dfy` | the name hash against FIPS 202 |
| `PoolStats.dfy` | the pool snapshot decoder |
| `Basics.dfy` | what several of them share |

How the model is built:

- Code that changes state in place is a class with the same fields. Its methods are proved against
  functions of the state before them, or state the new fields outright.
- Asynchronous code is cut at its awaits. Each piece is one method that keeps the class's invariant;
  a `Run`, `Step` or `Await` method takes the pieces in any order, any number of times.
- A crash, a failed call or a decision of the surroundings is a nondeterministic choice
  (`if *`, `x := *`). Clocks, URL parsing, tool output and hash functions are arguments or constant
  fields.
- History that a statement needs, and that the code does not keep, is in `ghost` fields or in
  datatypes computed from a run (`Audit`, `Ledger`, `log`, `history`).

What the proofs brought out about the code:

- A redirected request keeps the event floor of its beginning, and `markHostConflicts` sees only requests
  still pending. Redirected to a host whose request has completed, it may bind that request's response
  once more as fresh: `NavigationRedirects.RedirectedRequestBindsAgain` is such a run, and
  `NavigationRedirects.BindsAgainExactlyIf` says exactly which requests may.
  `NavigationFreshness.FreshResponseBoundOnce` holds for all requests that stay on their host.
- `connectDecisionCompletion` accepts a CONNECT decision observed up to five minutes after the later
  of the clock and the completion's time, while `noteNativeEvent` counts decisions only up to five
  minutes after the clock. A decision in between may be bound although the in-memory event floor stays
  below it (`NavigationSnapshot.LateDecisionIsNotCovered`; `NavigationSnapshot.BoundDecisionIsCovered`
  says exactly when it does); restoring a snapshot raises the floor.
- `canonicalNavigationUrl` limits the length of what it parses, not of what it returns. Evidence under a
  canonical URL that percent-encoding made longer than the limit is kept in memory and lost by a restart:
  `NavigationLongUrls.LongUrlLosesItsReceipt`. This takes an event whose URL text is not canonical yet; a
  browser that reports URLs in canonical form gives no such event.
- `providerAuthorityForDocument` reads `canonicalStatus` and its siblings off the record that wraps a
  CONNECT decision, which has no such fields. A document whose evidence is a CONNECT receipt never gets
  authority: `NavigationAuthority.ConnectReceiptGivesNoAuthority`.
- In its catch clause `startRuntime` looks at the control epoch before it publishes, except after the gate
  could not be reopened and after the blocker could not be confirmed: there a run that was superseded
  meanwhile may still set status and credentials. `StartRuntime.PublishesWhatHappened` says that it publishes
  out of its epoch in these two places only.
- With an urgent interval above the routine one, the next header synchronization may need a third
  re-evaluation (`HeaderSyncSchedule.ThirdReevaluationMatters`); the intervals in use are not of that kind.
- When the mutation revision of the PAC controller is exhausted, a late set call is no longer
  repaired: `PacController.SerializedMandatoryPacController.RepairAfterLateMutation` says that nothing
  is queued then, and `Converged` holds below the last revision.

## Model

| member | source | states |
|---|---|---|
| `NavigationFreshness.FreshResponseBoundOnce` | extension/src/navigation-receipts.js:83-128 | In every run since the last runtime reset, two completions that bound the same response event on the same host as fresh `rustHttpResponse` evidence, each by a request that stayed on that host, were completions of the same request, however begins, redirects, commits, completions, maintenance, pruning and restarts interleave |
| `NavigationFreshness.FreshResponse` | extension/src/navigation-receipts.js:606-659 | A response bound as fresh is of the request's host, above its event floor, covered by the new floor, of the request's and the store's epoch, current for the runtime, of a main frame, and never for an ambiguous request or during maintenance |
| `NavigationAuthority.AuthorityIsNeverStale` | extension/src/navigation-receipts.js:402-461 | In every run provider authority is returned only outside pending maintenance and only about the document asked for, shown by its tab under the origin asked for; and some main-frame request, begun and completed in the status's runtime and maintenance epoch, obtained from a native status of that runtime and epoch the very response the document holds, for the document's host, whose namespace, network, runtime and fingerprint the authority carries |
| `NavigationAuthority.EarlierEvidenceVouchesNoMore` | extension/src/navigation-receipts.js:53-81 | If the epoch advanced or the runtime was reset at any time after a step of the run, then authority returned at its end rests on evidence that the completion of a later step obtained |
| `NavigationAuthority.HeldEvidenceVouchesNoMore` | extension/src/navigation-receipts.js:53-81 | If the epoch advanced since a step or the runtime is another one than then, no completion that was bound to a document, cached or parked at that step is what a document with authority holds (a reset that led back to the same runtime tuple and epoch is the case of `EarlierEvidenceVouchesNoMore`) |
| `NavigationAuthority.ConnectReceiptGivesNoAuthority` | extension/src/navigation-receipts.js:432-450 | A document of a reachable store that holds a CONNECT receipt gets no authority for any query |
| `NavigationAuthority.ConnectFromStatus` | extension/src/navigation-receipts.js:677-744 | A CONNECT receipt made by a completion is current for its target, runtime and epoch, and its decision is one that the status reports |
| `NavigationOutcomes.AuthorityIsGiven` | extension/src/navigation-receipts.js:402-461 | Authority is given if and only if the status is accepted, active and proxying, no maintenance is pending, the tab shows the document that the query names, of its tab, origin and optional URL, over https, not restored and of the status's epoch, and the document holds a response of the status's runtime, for its host, selected in the HNS or the ICANN namespace; every field of the authority is then the document's or that response's |
| `NavigationOutcomes.NetworkGives` | extension/src/navigation-receipts.js:606-675 | A network completion gives evidence if and only if the status is followed without maintenance, the request is of its epoch, not ambiguous and safe, and a reported response answers it or the reported CONNECT decisions decide it. Of the decisions that are current, for the request's host and port and within the time bounds, those above its floor and observed since its start decide, as `WebPkiPassthrough`, and without any those observed before it, as `WebPkiConnectionReuse`; if two of them differ in fingerprint, network or evidence, or one has no fingerprint, nothing is bound; otherwise the one with the highest sequence, and of those the one observed last. The evidence is cached under the request's URL |
| `NavigationOutcomes.ConnectDecides` | extension/src/navigation-receipts.js:677-744 | The same for the CONNECT part alone, with the reason when nothing is bound: ambiguous exactly if some decision was there |
| `NavigationOutcomes.SelectionIs` | extension/src/navigation-receipts.js:1140-1201 | No candidate, two candidates that differ in fingerprint, network or evidence or lack a fingerprint, or the newest of candidates that agree |
| `NavigationOutcomes.NetworkRefuses` | extension/src/navigation-receipts.js:606-675 | When a network completion gives nothing, its reason is that of the first check that fails |
| `NavigationOutcomes.CachedGives` | extension/src/navigation-receipts.js:545-604 | A cached completion gives evidence if and only if the URL's receipt is of the epoch of the status and of the request and is a current response of the request's host, or a CONNECT receipt of its target, with the browser's status code; then it is that one |
| `NavigationOutcomes.CompletionReaches` | extension/src/navigation-receipts.js:239-273 | A completion reaches the document named by the request, or without one that of the tab at the final URL, which keeps it only if it is current and for its host or target and loses its evidence otherwise; no other document changes, and without a document the completion waits with its request. An event of an unknown request or another tab only drops the request |
| `NavigationOutcomes.CompletionSucceeds` | extension/src/navigation-receipts.js:239-273 | A completion succeeds if and only if it gives evidence in the sense of the rows above; the receipt cache then holds that evidence under the final URL, and is otherwise as it was |
| `NavigationOutcomes.TabIsShown` | extension/src/navigation-receipts.js:354-400 | A tab is shown the response or CONNECT receipt of its document as far as it is current, with its source, as committed before maintenance, from the browser's cache, restored or current, in that order; otherwise exactly the reason that the document, the tab or the status gives |
| `NavigationChanges.RequestBegins` | extension/src/navigation-receipts.js:83-128 | A request begins if and only if the status is accepted without maintenance and identifier, tab, URL and type are; a new one records floor, epoch and start, a known one only gets target, method and a first document; it and the others of its epoch on its host become ambiguous, and nothing else changes |
| `NavigationChanges.RequestIsRedirected` | extension/src/navigation-receipts.js:130-144 | A redirect moves a known request to the new target and marks its rivals there; method, floor, epoch and start stay |
| `NavigationChanges.KnownDocumentIsCommitted` | extension/src/navigation-receipts.js:172-203 | A document that commits again keeps its evidence exactly within its origin, and once restored stays so |
| `NavigationChanges.DocumentWithCompletion` | extension/src/navigation-receipts.js:205-230 | A new document gets the evidence parked with its request as if it had come after the commit, and the request goes |
| `NavigationChanges.DocumentIsCommitted` | extension/src/navigation-receipts.js:146-233 | A commit of an active frame 0 gives the tab the document at its URL, and changes no other tab and no other document |
| `NavigationChanges.DocumentIsRefused` | extension/src/navigation-receipts.js:146-170 | Any other commit of an active tab leaves it without a document, with the reason; one of an inactive lifecycle or an invalid tab changes nothing |
| `NavigationChanges.RequestOfDocument` | extension/src/navigation-receipts.js:794-803 | The request taken for a new document is of its tab and for it or its URL, and of those the one begun last; none only if there is none |
| `NavigationChanges.PruningKeepsTheLatest` | extension/src/navigation-receipts.js:863-877 | At most 96 receipts, 64 tabs and 32 requests are left, as many as there were up to that, and none written before one that goes |
| `NavigationChanges.PruningKeepsPointedDocuments` | extension/src/navigation-receipts.js:863-871 | A document goes only above 96; one that a tab points to only if all that stay are pointed to, and never before an equally protected one written earlier |
| `NavigationChanges.MaintenanceEnds` | extension/src/navigation-receipts.js:305-320 | Maintenance ends if and only if it was pending and the status is accepted, active, proxying, with its tree root in place and evidence that is not expired; requests are then dropped |
| `NavigationChanges.DocumentComesBack` | extension/src/navigation-receipts.js:985-1025 | From any snapshot a document comes back if and only if its evidence is of the runtime, for the target that its URL parses to, with a valid epoch, and of the kind that its source says; it then has that target and that evidence |
| `NavigationChanges.UrlReceiptComesBack` | extension/src/navigation-receipts.js:1027-1057 | The same for a cached receipt, under a URL that is canonical |
| `NavigationSnapshot.RestartIsUnobservable` | extension/src/navigation-receipts.js:463-543 | For every reachable store, a clock that does not run back and every tab, query, status and later time: the restored store gives the same receipt view, reason included, and `activeDocumentReceiptUnavailable` for a tab whose document does not last; a view with a receipt stays the same exactly if the document's canonical URL is within the 4096 limit; the authority is the same, and none for a document whose URL is above it |
| `NavigationSnapshot.LostView` | extension/src/navigation-receipts.js:354-401 | A tab's view with a receipt is lost by a restart exactly if the URL of its document is overlong |
| `NavigationLongUrls.LongUrlLosesItsReceipt` | extension/src/navigation-receipts.js:931-955 | For every URL that grows beyond the limit when it is made canonical, a run after which its tab shows a current receipt, and after a restart from any snapshot of it none |
| `NavigationSnapshot.RestoreRebuilds` | extension/src/navigation-receipts.js:477-543 | The restored store is the old one less its pending requests, the documents without evidence, the tabs that show none and what is kept under an overlong URL; sequence, epoch and maintenance flag are the same and the floor is no lower |
| `NavigationSnapshot.RestoredFloorCovers` | extension/src/navigation-receipts.js:501-524 | After restoring any snapshot the event floor is at or above the event of every stored document receipt and cached receipt |
| `NavigationSnapshot.RestoredDocumentIsTheDocument` | extension/src/navigation-receipts.js:985-1025 | restoredDocument takes back a stored document of a reachable store unchanged exactly if it has evidence and its canonical URL is within the limit, and drops it otherwise |
| `NavigationSnapshot.RestoredUrlReceiptIsTheReceipt` | extension/src/navigation-receipts.js:1027-1057 | restoredUrlReceipt takes back a cached receipt of a reachable store unchanged exactly if its canonical URL is within the limit |
| `NavigationSnapshot.BoundDecisionIsCovered` | extension/src/navigation-receipts.js:677-702 | A CONNECT decision that a completion binds is at or below the event floor exactly if it was observed within the skew that the floor's own check allows, or the old floor, the status's current response or a decision that the floor counts is at or above its sequence |
| `NavigationSnapshot.NotedFloor` | extension/src/navigation-receipts.js:826-851 | Noting decisions raises the floor to the highest sequence of those that count and no further |
| `NavigationSnapshot.LateDecisionIsNotCovered` | extension/src/navigation-receipts.js:826-851 | A concrete completion whose decision, observed later than that skew but within the completion's, is bound and stays above the floor: the floor is only raised by a restart |
| `NavigationPruning.RunStaysBounded` | extension/src/navigation-receipts.js:859-877 | After every operation of every run there are at most 96 documents, 96 URL receipts, 64 tabs and 32 pending requests |
| `NavigationPruning.ActiveDocumentsAreNotEvicted` | extension/src/navigation-receipts.js:863-871 | In every run pruning never takes a document from a tab that points to it |
| `NavigationPruning.ProtectedSurvive` | extension/src/navigation-receipts.js:1263-1276 | With no more protected keys than the limit, pruneObject evicts none of them |
| `NavigationRuns.RunSane` | extension/src/navigation-receipts.js:53-81 | Counters stay safe integers, the runtime and epoch stay valid, and without a runtime there is no request, cached receipt or floor |
| `NavigationRuns.EnsureCases` | extension/src/navigation-receipts.js:53-81 | ensureRuntime either resets everything, or keeps everything but the floor (which does not fall), the epoch (which does not fall) and, when the epoch advances, the pending requests |
| `NavigationReceiptStore.NavigationReceiptStore.constructor` | extension/src/navigation-receipts.js:40-51 | A new store is the restored snapshot |
| `NavigationReceiptStore.NavigationReceiptStore.EnsureRuntime` | extension/src/navigation-receipts.js:53-81 | The in-place update and its result are the specification's; refused, it changes nothing |
| `NavigationReceiptStore.NavigationReceiptStore.BeginRequest` | extension/src/navigation-receipts.js:83-128 | The fields after the call are those of `Begin` on the fields before it, with its result, pruned to 32 pending requests |
| `NavigationReceiptStore.NavigationReceiptStore.RedirectRequest` | extension/src/navigation-receipts.js:130-144 | The fields after the call are those of `Redirect` on the fields before it |
| `NavigationReceiptStore.NavigationReceiptStore.CommitDocument` | extension/src/navigation-receipts.js:146-233 | The fields after the call are those of `Commit` for the request found for the document, pruned |
| `NavigationReceiptStore.NavigationReceiptStore.CommitNew` | extension/src/navigation-receipts.js:198-230 | A new document, its tab, and the latest begun fitting request: bound if its completion was parked, otherwise told its document |
| `NavigationReceiptStore.NavigationReceiptStore.Recommit` | extension/src/navigation-receipts.js:168-193 | A document that commits again keeps its evidence only within its origin |
| `NavigationReceiptStore.NavigationReceiptStore.CompleteRequest` | extension/src/navigation-receipts.js:239-273 | The fields after the call are those of `Complete`: the evidence sought, bound to its document or parked, pruned; it succeeds if and only if the completion gives evidence, on the fields of the store, the event and the status before it |
| `NavigationReceiptStore.NavigationReceiptStore.CachedCompletion` | extension/src/navigation-receipts.js:545-604 | Store and completion are those of `Cached` |
| `NavigationReceiptStore.NavigationReceiptStore.NetworkCompletion` | extension/src/navigation-receipts.js:606-675 | Store and completion are those of `Network` |
| `NavigationReceiptStore.NavigationReceiptStore.ConnectDecisionCompletion` | extension/src/navigation-receipts.js:677-744 | The completion is that of `ConnectEvidence`, and changes nothing |
| `NavigationReceiptStore.NavigationReceiptStore.BindCompletion` | extension/src/navigation-receipts.js:746-783 | The document after the call is the one that `Bind` gives |
| `NavigationReceiptStore.NavigationReceiptStore.FailRequest` | extension/src/navigation-receipts.js:275-280 | The request is dropped, and nothing else changes |
| `NavigationReceiptStore.NavigationReceiptStore.FailNavigation` | extension/src/navigation-receipts.js:282-296 | The tab's requests are dropped and the tab loses its document |
| `NavigationReceiptStore.NavigationReceiptStore.BeginMaintenance` | extension/src/navigation-receipts.js:298-303 | Maintenance is pending and all requests are dropped, if the status is accepted |
| `NavigationReceiptStore.NavigationReceiptStore.CompleteMaintenance` | extension/src/navigation-receipts.js:305-320 | Maintenance ends only under a ready status, and drops all requests |
| `NavigationReceiptStore.NavigationReceiptStore.RemoveTab` | extension/src/navigation-receipts.js:322-333 | The tab, its documents and its requests are dropped |
| `NavigationReceiptStore.NavigationReceiptStore.ReplaceTab` | extension/src/navigation-receipts.js:335-352 | The tab's entry, document and requests move to the new tab |
| `NavigationReceiptStore.NavigationReceiptStore.ReceiptForTab` | extension/src/navigation-receipts.js:354-400 | The view returned is the specification's of the store after ensureRuntime |
| `NavigationReceiptStore.NavigationReceiptStore.ProviderAuthorityForDocument` | extension/src/navigation-receipts.js:402-461 | Authority is returned if and only if the status is accepted, active and proxying, no maintenance is pending, the tab shows the document of the query and its current response vouches for it in HNS or ICANN; its fields are that document's and that response's. The store is that after ensureRuntime |
| `NavigationLifetime.AnyCall` | extension/src/navigation-receipts.js:35-543 | Any call on the store object with any arguments, or a restart that makes a new object from its snapshot, extends the run the object has been through by one step |
| `NavigationLifetime.Lifetime` | extension/src/navigation-receipts.js:35-543 | However many calls are made, in whatever order, the fields of the object are the last store of a run |
| `NavigationLifetime.LifetimeThenAsk` | extension/src/navigation-receipts.js:402-461 | At the end of such a lifetime the object's answer and its fields are those of the query on the last store of the run it has been through, and it gives authority only as `NavigationAuthority.AuthorityIsNeverStale` allows |
| `NavigationReceiptStore.NavigationReceiptStore.TakeSnapshot` | extension/src/navigation-receipts.js:463-475 | The snapshot enumerates every tab, document and cached receipt once |
| `NavigationReceiptStore.NavigationReceiptStore.Restore` | extension/src/navigation-receipts.js:477-543 | The fields after the call are those of `Restore` of the snapshot, pruned |
| `NavigationReceiptStore.NavigationReceiptStore.PendingForDocument` | extension/src/navigation-receipts.js:794-803 | The request found fits the tab and the document or URL, and none that fits was begun later |
| `NavigationReceiptStore.NavigationReceiptStore.MarkHostConflicts` | extension/src/navigation-receipts.js:811-824 | Exactly the requests of the same epoch on the host, and the current one if there is any, become ambiguous |
| `NavigationReceiptStore.NavigationReceiptStore.NoteNativeEvent` | extension/src/navigation-receipts.js:826-851 | The floor is raised to the current response and to every current CONNECT decision |
| `NavigationReceiptStore.NavigationReceiptStore.Prune` | extension/src/navigation-receipts.js:863-877 | Each object is evicted to its limit, documents with those of the tabs protected |
| `NavigationReceiptStore.PruneObject` | extension/src/navigation-receipts.js:1263-1276 | What is left has the size of the limit, unprotected entries go before protected ones, and lower ranks before higher ones |
| `NavigationReceiptStore.NewestEquivalentConnectDecision` | extension/src/navigation-receipts.js:1140-1201 | Nothing exactly for no candidate; ambiguous exactly if two candidates differ in fingerprint, network or evidence or one has no fingerprint; otherwise the candidate with the highest sequence, and of those the one observed last |
| `NavigationRedirects.RedirectedRequestBindsAgain` | extension/src/navigation-receipts.js:130-144 | A concrete run in which a request begun on another host, and redirected after the first one completed, completes with the same response as fresh evidence again: the restriction to requests that stay on one host is needed |
| `NavigationRedirects.BindsAgainExactlyIf` | extension/src/navigation-receipts.js:606-659 | In every run, a response that a completion bound can be bound as fresh once more to a pending request, of whatever host, exactly if the request's floor is below the response's event, it is not marked ambiguous, its epoch is current, no maintenance is pending and its method is safe |
| `NavigationRedirects.StayedRequestsDoNotPass` | extension/src/navigation-receipts.js:811-851 | A request that stayed on the response's host fails one of these checks once another such request bound the response |
| `HnsNameHash.HnsNameHash` | extension/src/hns-name-hash.js:27-55 | A text is written exactly for ASCII names of at most 63 bytes; it has 64 characters, and bit i of the 256 that their values as hexadecimal digits stand for, the higher digit of a byte first, is bit i of SHA3-256 of the name |
| `HnsNameHash.TextBit` | extension/src/hns-name-hash.js:48-54 | Bit i of the digits of a text is bit i of the bytes that it was written for |
| `HnsNameHash.DigestIsSha3` | extension/src/hns-name-hash.js:27-55 | The 32 bytes read off the permuted lanes are SHA3-256 as given in sections 3.2, 3.3, 4, 5.1 and 6.1 of FIPS 202 |
| `HnsNameHash.PaddedMessage` | extension/src/hns-name-hash.js:33-36 | The block with its two padding bytes is the message with the suffix 01 and pad10*1 in one rate block |
| `HnsNameHash.AbsorbedBlock` | extension/src/hns-name-hash.js:38-45 | The lanes loaded from the block represent the block absorbed into the zero state |
| `HnsNameHash.HexTextInjective` | extension/src/hns-name-hash.js:48-54 | The text determines the digest bytes |
| `KeccakRefinement.KeccakRefines` | extension/src/hns-name-hash.js:57-91 | 24 rounds on lanes represent KECCAK-f[1600] on the state array that the lanes represent |
| `KeccakRefinement.ThetaRefines` | extension/src/hns-name-hash.js:59-70 | The column parities and deltas are theta |
| `KeccakRefinement.RhoIsTheOffsetTable` | extension/src/hns-name-hash.js:3-9 | The rotation table is rho's walk over the lanes with its triangular offsets |
| `KeccakRefinement.RhoPiRefines` | extension/src/hns-name-hash.js:72-79 | Rotating each lane into its target is rho followed by pi |
| `KeccakRefinement.ChiRefines` | extension/src/hns-name-hash.js:81-88 | The last step on lanes is chi |
| `KeccakRefinement.RoundConstantsAreGenerated` | extension/src/hns-name-hash.js:10-23 | Every bit of every round constant is what the standard's shift register gives |
| `KeccakRefinement.IotaRefines` | extension/src/hns-name-hash.js:89 | Adding the round constant to lane 0 is iota |
| `Keccak.ThetaInPlace` | extension/src/hns-name-hash.js:59-70 | The array after the two loops is theta of the array before them, lane by lane |
| `Keccak.RhoPi` | extension/src/hns-name-hash.js:72-79 | The buffer holds every lane rotated, at its target |
| `Keccak.ChiInPlace` | extension/src/hns-name-hash.js:81-88 | The array after the loop is chi of the buffer |
| `Keccak.KeccakF1600` | extension/src/hns-name-hash.js:57-91 | The array after the call is 24 lane rounds of the array before it |
| `Installer.Installer.Lifetime` | rust/crates/hns-browser-setup/src/installer.rs:228-309 | After any number of installs, repairs, uninstalls and foreign steps, each stopped anywhere, over which the history of added certificates only grows, an uninstall that completes leaves none of them trusted |
| `Installer.Installer.AttemptThenUninstall` | rust/crates/hns-browser-setup/src/installer.rs:378-419 | From a clean or committed installation, one attempt that stops at any step and the uninstall after it: unless that is interrupted no manifest ever written is in place, also if the attempt stopped before its transaction and the uninstall therefore refuses to remove the root; if it completes, nothing added is trusted either |
| `Installer.Installer.Apply` | rust/crates/hns-browser-setup/src/installer.rs:320-567 | Wherever it stops, every added certificate that is trusted is in the history of a record of its store; manifests stay covered by record or master if they were recorded before, or if the master already is this manifest; it replaces or deletes only owned manifests and, without records, those of the legacy loader; completed, exactly the request is installed, recorded and trusted, and nothing stale is |
| `Installer.Installer.Uninstall` | rust/crates/hns-browser-setup/src/installer.rs:207-318 | Certificates stay recorded and manifests covered wherever it stops, it deletes no manifest that is not owned and takes no certificate out of a store but recorded ones and the confirmed one. Unless it is interrupted, no covered manifest is in place any more, also where it refuses a root without a record; there it leaves the root and the trust stores as they were, and nothing that was added is trusted. If it completes, nothing that was added is trusted |
| `Installer.Installer.Register` | rust/crates/hns-browser-setup/src/installer.rs:359-419 | The master manifest is written before any browser manifest; only selected paths change, to the new manifest, and only manifests of this host with a recorded hash or the new one's, or without records those of the legacy loader, are replaced. It refuses only a manifest that is not this host's, or for such a path with any other file, and with one it does not complete |
| `Installer.Installer.Entrust` | rust/crates/hns-browser-setup/src/installer.rs:421-512 | The transaction with the merged histories before any trust; then every manifest in place is recorded |
| `Installer.Installer.Finish` | rust/crates/hns-browser-setup/src/installer.rs:514-542 | The receipt takes the transaction's record over before the transaction is cleared, and unselected manifests and stale certificates are removed by its history |
| `Installer.Installer.WriteSelectedRegistrations` | rust/crates/hns-browser-setup/src/installer.rs:1817-1867 | Only selected paths change, to the manifest, and only over nothing, an owned manifest or a migratable one; completed, all of them hold it and nothing else was in the way; refused, something was |
| `Installer.Installer.RemoveOwnedManifestFile` | rust/crates/hns-browser-setup/src/installer.rs:2066-2102 | The file goes exactly if its hash is owned and it names this host |
| `Installer.Installer.RemoveOwnedManifests` | rust/crates/hns-browser-setup/src/installer.rs:2037-2046 | Completed, no owned manifest is left at the paths; nothing else is deleted |
| `Installer.Installer.CollectOwnership` | rust/crates/hns-browser-setup/src/installer.rs:1972-2021 | The owned hashes are those of both histories and of a master manifest that names this host |
| `Installer.Installer.RemoveTrustAnchors` | rust/crates/hns-browser-setup/src/installer.rs:2782-2947 | Only certificates of the given fingerprints leave the one store; completed, none of them is left in it |
| `Installer.Installer.InstallTrustAnchor` | rust/crates/hns-browser-setup/src/installer.rs:2407-2596 | A certificate is added only under a transaction that lists it for that store; completed, it is trusted under the name by which it would be removed |
| `Installer.Installer.RecordedStoreIsEnough` | rust/crates/hns-browser-setup/src/installer.rs:255-302 | All recorded certificates sit in the one recorded store, so cleaning that store is enough |
| `Installer.Installer.RemoveRecordedTrust` | rust/crates/hns-browser-setup/src/installer.rs:239-302 | Completed, no certificate that was added is trusted; only recorded certificates and the confirmed one leave a store |
| `Installer.Installer.RemoveStaleTrustAnchors` | rust/crates/hns-browser-setup/src/installer.rs:2762-2780 | Completed, no certificate of the history but the current one is trusted, and the current one still is |
| `Installer.Installer.WriteTransaction` | rust/crates/hns-browser-setup/src/installer.rs:454-472 | Replacing the transaction by a record that extends both histories keeps every certificate recorded and makes every covered manifest recorded |
| `Installer.Installer.WriteReceipt` | rust/crates/hns-browser-setup/src/installer.rs:514-532 | Copying the record to the receipt keeps both |
| `Installer.Installer.ClearTransaction` | rust/crates/hns-browser-setup/src/installer.rs:537 | Clearing the transaction under an equal receipt keeps both |
| `Installer.Installer.RemoveRoot` | rust/crates/hns-browser-setup/src/installer.rs:3184-3229 | Also a partial removal of the root keeps the invariants, because nothing is trusted by then |
| `InstallerRecords.MergeOwnedHashes` | rust/crates/hns-browser-setup/src/installer.rs:3860-3875 | The merged history holds both histories and the current value, each once |
| `InstallerRecords.MergedHistoryIsValid` | rust/crates/hns-browser-setup/src/installer.rs:1129-1152 | A merged history passes the check made when it is read back |
| `InstallerRecords.DistinctCount` | rust/crates/hns-browser-setup/src/installer.rs:1143-1150 | As many values after deduplication as before means that no value occurs twice |
| `InstallerRecords.PushUnique` | rust/crates/hns-browser-setup/src/installer.rs:3854-3858 | The value is added once: nothing else changes and nothing is repeated |
| `InstallerRecords.PushAll` | rust/crates/hns-browser-setup/src/installer.rs:247-254 | All values of the other history are added, each once |
| `Installer.Installer.WriteMaster` | rust/crates/hns-browser-setup/src/installer.rs:378-381 | The master manifest covers what the same manifest covered before it, and loses nothing recorded |
| `Installer.Installer.MergeManifests` | rust/crates/hns-browser-setup/src/installer.rs:383-391 | The merged manifest history is the union of both and the current hash, and passes its check |
| `Installer.Installer.MakeRecord` | rust/crates/hns-browser-setup/src/installer.rs:425-471 | The record extends both histories, adds exactly the new fingerprints, stays with the trust store of the transaction or else of the receipt, and passes its check |
| `Installer.Installer.WriteRegistration` | rust/crates/hns-browser-setup/src/installer.rs:1835-1865 | One path: unless it is interrupted, replaced exactly if nothing, an owned or a migratable manifest is there, and covered by the master afterwards |
| `Installer.Installer.MakeRoom` | rust/crates/hns-browser-setup/src/installer.rs:2477-2496 | A foreign certificate under the nickname is refused; otherwise the name for the new one is free |
| `Installer.Installer.CollectFingerprints` | rust/crates/hns-browser-setup/src/installer.rs:239-272 | Exactly the fingerprints of both histories and of the confirmed certificate |
| `Installer.Installer.RemoveTrustAnchor` | rust/crates/hns-browser-setup/src/installer.rs:2818-2870 | Only certificates of the fingerprint go; completed, none of it is left |
| `Installer.Installer.RemoveBrowserManifests` | rust/crates/hns-browser-setup/src/installer.rs:229-230 | Only owned manifests go; completed, if they were covered none written is in place |
| `PacController.SerializedMandatoryPacController.Converged` | extension/src/proxy-lifecycle.js:35-118 | With no operation, set call or reaction outstanding and the epoch unchanged since the most recent install, the browser has that install's script once it took effect, however late earlier set calls landed |
| `PacController.SerializedMandatoryPacController.Run` | extension/src/proxy-lifecycle.js:35-118 | The same after any number of steps of the controller and the browser in any order; set calls that timed out land or fail at any time, also while the set call of a later operation is awaited |
| `PacController.SerializedMandatoryPacController.Enqueue` | extension/src/proxy-lifecycle.js:35-94 | Accepted exactly for a PAC script under the current epoch below the last revision; then it is the desired and the last queued install |
| `PacController.PacScriptNamesItsEntry` | extension/src/proxy-lifecycle.js:35-41 | A PAC script is a text in which the name of the entry point stands somewhere |
| `PacController.SerializedMandatoryPacController.Begin` | extension/src/proxy-lifecycle.js:56-60 | Operations begin in order; a superseded one sets nothing |
| `PacController.SerializedMandatoryPacController.Judge` | extension/src/proxy-lifecycle.js:78-91 | A matching read-back confirms; otherwise the set call will be reacted to |
| `PacController.SerializedMandatoryPacController.LandsLate` | extension/src/proxy-lifecycle.js:79-82 | A set call that no operation waits for any more changes the browser and, if watched, wakes its reaction |
| `PacController.SerializedMandatoryPacController.RepairAfterLateMutation` | extension/src/proxy-lifecycle.js:104-117 | The latest install is made once more unless it is the one that landed, it is superseded, or the revisions are exhausted |
| `PacController.SerializedMandatoryPacController.SetResolves` | extension/src/proxy-lifecycle.js:60-65 | The script is in effect and, in its epoch, confirmed |
| `PacController.SerializedMandatoryPacController.Mismatches` | extension/src/proxy-lifecycle.js:78-88 | The set call is watched, or its reaction runs at once if it has resolved meanwhile |
| `EpochMutations.SerializedEpochMutationController.Run` | extension/src/proxy-lifecycle.js:120-157 | In every interleaving mutations have effect one at a time and in the order of the calls, so none of an earlier epoch has effect after one of a later epoch, however late it lands; every call is settled once, and all are when the queue is empty |
| `EpochMutations.SerializedEpochMutationController.Enqueue` | extension/src/proxy-lifecycle.js:129-137 | A call is queued exactly when its epoch is current; refused, it changes nothing |
| `EpochMutations.SerializedEpochMutationController.TakeTurn` | extension/src/proxy-lifecycle.js:138-140 | The next mutation is begun exactly when its epoch is still current, otherwise it is settled as superseded and not begun |
| `EpochMutations.SerializedEpochMutationController.Settles` | extension/src/proxy-lifecycle.js:141-146 | A mutation is reported done exactly when it resolved and its epoch is still current, and then its effect is the last; a failure leaves the queue running |
| `NavigationGate.NavigationGateController.TakeTurn` | extension/src/navigation-gate.js:173-179 | A call superseded before its turn has no effect; closing withdraws the confirmation first |
| `NavigationGate.NavigationGateController.UpdateResolves` | extension/src/navigation-gate.js:110-153 | A close completes only with the allow rule absent and the redirect present; an opening is confirmed only with both present, under a revision never issued before |
| `NavigationGate.NavigationGateController.UpdateRejects` | extension/src/navigation-gate.js:173-179 | Whatever a rejected update did to its rule, the gate is not confirmed open |
| `NavigationGate.NavigationGateController.Run` | extension/src/navigation-gate.js:89-189 | Under any interleaving of calls, turns, resolved and rejected updates and epoch changes, confirmed open implies both rules installed, and the revisions issued only grow, so that no opening gets one that was issued before |
| `NavigationGate.NavigationGateController.Status` | extension/src/navigation-gate.js:155-164 | Ready is reported only with both rules installed and a revision that was issued |
| `StartRuntime.ServiceWorker.StartRuntime` | extension/src/service-worker.js:628-1065 | Whatever fails and whoever competes at any await, the run's log is disciplined: what it learned of the native host, its PAC installs, disconnects, header checks, gate openings and everything it published were each permitted by what came before |
| `StartRuntime.DisconnectsBehindBlocker` | extension/src/service-worker.js:677-680 | A run disconnects a native connection only in its own control epoch and with a confirmed blocker as its last attempted PAC install |
| `StartRuntime.OpensBehindLivePac` | extension/src/service-worker.js:781-815 | The normal path opens the gate only in its own epoch, for a component that was found ready and a start that reported the local CA installed, with the live PAC confirmed by its last attempt, and straight after header evidence was checked at that time to be corroborated and not yet closed |
| `StartRuntime.LivePacNeedsReadyHost` | extension/src/service-worker.js:694-814 | A live PAC is attempted only with the gate closed, for a component that was found ready and a start that reported the local CA installed, with the credentials of that start |
| `StartRuntime.PublishesWhatHappened` | extension/src/service-worker.js:815-862 | Active is published only in the own epoch, with the run's own connection current, straight after the gate opened for the header that was checked. Blocked is published only in the own epoch, behind a confirmed blocker and without credentials, and its reason is what was learned: another component version, an incompatible component or a missing local CA. Any failure is published only when the run's own connection, or without one that which it was to replace, is not current any more. Out of its epoch a run publishes only after a failed reopening of the gate or a failed blocker |
| `StartRuntime.ServiceWorker.Activate` | extension/src/service-worker.js:734-814 | In the current epoch and connection the live PAC is confirmed and header evidence was just checked ready, before it is left; credentials are those of the start and are set before the PAC is attempted |
| `StartRuntime.ServiceWorker.EstablishHeaderReadiness` | extension/src/service-worker.js:1067-1123 | It succeeds only with the start's own header checked ready at once, or after a synchronization with the header checked ready twice, and leaves the PAC of the last attempt |
| `StartRuntime.ServiceWorker.Recover` | extension/src/service-worker.js:863-1064 | A superseded run does nothing more; with the gate never closed it fails and at most reopens it; with the live PAC confirmed, its own connection current and credentials set it publishes that it waits for headers and keeps everything; any other run fails after an attempt at the blocker, unless that stands, then at most ends one connection, and publishes last |
| `StartRuntime.ServiceWorker.Block` | extension/src/service-worker.js:947-1064 | The last PAC attempt is the blocker, a connection ends only after it, and then the failure is published unless the run was superseded |
| `StartRuntime.ServiceWorker.Tell` | extension/src/service-worker.js:991-1063 | Behind the confirmed blocker the connection ends and the failure is published without credentials: as Blocked exactly if what was learned of the native host explains it, and otherwise as Degraded |
| `StartRuntime.ServiceWorker.KeepUncertain` | extension/src/service-worker.js:967-990 | With the blocker unconfirmed no connection ends, and the status published is degraded |
| `StartRuntime.ServiceWorker.Replace` | extension/src/service-worker.js:656-688 | The gate is closed before the blocker is attempted, and the replaced connection ends only once it is confirmed |
| `StartRuntime.ServiceWorker.Contact` | extension/src/service-worker.js:694-732 | It succeeds only in the current control epoch and connection, with the native component found ready and the local CA reported installed; any failure but those of the calls is the one that the component or the start result stands for |
| `StartRuntime.ServiceWorker.SelectLivePac` | extension/src/service-worker.js:787-813 | Credentials before the PAC; it counts only if confirmed and the native generation did not change |
| `StartRuntime.ServiceWorker.Try` | extension/src/service-worker.js:656-862 | Without a failure the live PAC was the last one attempted, confirmed, the runtime is current and Active was published last; any failure is explained by what was learned of the native host |
| `StartRuntime.ServiceWorker.Restore` | extension/src/service-worker.js:871-918 | It fails, and at most reopens the old gate, in its own epoch, while nothing was changed and the prior header is still ready; the prior status is published again only if that was confirmed |
| `StartRuntime.ServiceWorker.EndConnections` | extension/src/service-worker.js:992-1000 | Behind a confirmed blocker, exactly the connection this run answers for ends, if it is still the current one |
| `StartRuntime.EveryEntryPermitted` | extension/src/service-worker.js:628-1065 | Each entry of a disciplined log was permitted by the entries before it |
| `NativeClient.NativeClient.Request` | extension/src/native-client.js:55-89 | A number never used before is entered, sent or settled as a failed send, or the call is refused for capacity or timeout; the connection epoch changes only if there was no port |
| `NativeClient.NativeClient.HandleMessage` | extension/src/native-client.js:106-150 | Only in-order messages of the current port settle a request or reach an observer; any other message of that port ends the connection and settles everything in the table, and nothing else, as disconnected; one of another port does nothing |
| `NativeClient.NativeClient.Settle` | extension/src/native-client.js:137-149 | An entry leaves the table exactly when its request is settled, for the first time |
| `NativeClient.NativeClient.RejectPending` | extension/src/native-client.js:194-200 | Everything in the table, and nothing else, is settled as disconnected, once |
| `NativeClient.NativeClient.EndConnection` | extension/src/native-client.js:181-192 | The epoch ends with the port, and the table is empty |
| `NativeClient.NativeClient.EpochIsOfOneConnection` | extension/src/native-client.js:42-53 | A connection epoch is current only for the port it was issued for |
| `NativeClient.NativeClient.Run` | extension/src/native-client.js:23-200 | Over any number of steps in any order a settlement is never changed or withdrawn, every request entered is settled or still in the table of the current connection and not both, and no connection epoch that is over becomes current again |
| `NativeClient.NativeClient.Step` | extension/src/native-client.js:23-200 | Every step keeps the table of at most 32 entries of the current connection and each entered request in the table or settled; requests settled before are settled as they were, and no epoch that is over becomes current again |
| `NativeClient.NativeClient.Connect` | extension/src/native-client.js:23-30 | A new port gets an epoch that no connection had |
| `NativeClient.NativeClient.TimerFires` | extension/src/native-client.js:76-79 | Only a request still in the table times out |
| `NativeClient.NativeClient.DisconnectIfCurrent` | extension/src/native-client.js:100-104 | Disconnects exactly the connection of the current epoch, and then settles everything in the table, and nothing else, as disconnected |
| `NativeClient.NativeClient.HandleDisconnect` | extension/src/native-client.js:152-159 | Only the current port's disconnect ends the connection, and then everything in the table, and nothing else, is settled as disconnected |
| `WalletProviderRouter.WalletProviderRouter.Request` | extension/src/wallet-provider-router.js:123-176 | A native result is released only for a method that the document negotiated, only if the browser named the binding's own authority before the request was dispatched and again after the native reply, and only if that document was stored, unchanged and under the same authority generation, in every state since, whatever was initialized, forgotten or invalidated meanwhile |
| `WalletProviderRouter.ActiveThroughout` | extension/src/wallet-provider-router.js:307-325 | An operation active at two moments was active at every moment between: nothing lost comes back |
| `WalletProviderRouter.NoReturn` | extension/src/wallet-provider-router.js:307-325 | The same for three states: generations are not reused |
| `WalletProviderRouter.WalletProviderRouter.StoredDocumentsAreCurrent` | extension/src/wallet-provider-router.js:101-114 | Every stored document carries the current authority generation, and a document generation of its own |
| `WalletProviderRouter.WalletProviderRouter.Store` | extension/src/wallet-provider-router.js:87-115 | Stored only if the authority generation did not change meanwhile; an equal binding keeps its document, another one gets a new generation, and at most the one first inserted of 64 goes |
| `WalletProviderRouter.WalletProviderRouter.InvalidateAuthority` | extension/src/wallet-provider-router.js:193-196 | Every document goes and the generation advances |
| `WalletProviderRouter.WalletProviderRouter.Revalidate` | extension/src/wallet-provider-router.js:327-337 | Succeeds only with the operation active before and after the browser answered, and only if it named the binding's authority |
| `WalletProviderRouter.WalletProviderRouter.Initialize` | extension/src/wallet-provider-router.js:56-121 | A document becomes available only if the browser named the same authority before and after the wallet offered its capabilities and the authority generation did not change; its binding and methods are just that authority and those capabilities |
| `ProviderDocument.ProviderDocument.Admit` | extension/src/wallet-provider-router.js:133-157 | The outcome is decided by method, sequence, identifier, replay window, pending requests and rates, in this order; it is admitted exactly below the rates of the last minute, is then logged, and the clock and the log only go on |
| `ProviderDocument.ProviderDocument.Run` | extension/src/wallet-provider-router.js:117-176 | Over any number of requests and settlements on a clock that does not run back the log only grows, every half-open minute has at most 20 mutations, 120 reads and 10 of any mutating method, sequences strictly increase and no identifier repeats |
| `ProviderDocument.ProviderDocument.RatesPerMinute` | extension/src/wallet-provider-router.js:449-466 | In every half-open minute at most 20 mutations, 120 reads and 10 of any one mutating method were admitted |
| `ProviderDocument.MutatingIs` | extension/src/wallet-provider-router.js:18-42 | The methods under the mutation rates are exactly those of the 23 families |
| `ProviderDocument.ProviderDocument.NothingReplayed` | extension/src/wallet-provider-router.js:139-145 | Admitted sequences strictly increase, and no identifier is admitted twice |
| `ProviderDocument.SpacedMeansBounded` | extension/src/wallet-provider-router.js:449-466 | Times of which the limit-th after any is a minute later have at most the limit in any half-open minute |
| `ProviderDocument.PushKeepsSpacing` | extension/src/wallet-provider-router.js:463-465 | Adding to a window below its limit keeps that spacing |
| `ProviderDocument.PruneWindow` | extension/src/wallet-provider-router.js:478-480 | What is dropped is a minute old, and what is left is not |
| `ProviderDocument.ProviderDocument.EnforceRate` | extension/src/wallet-provider-router.js:449-466 | The request is entered in both windows or in neither, and exactly if fewer of its kind and of its method than the limits were admitted in the last minute |
| `WalletProviderRouter.WalletProviderRouter.Insert` | extension/src/wallet-provider-router.js:101-115 | A document gets a new generation; the one first inserted goes exactly if 64 others were there, and no other |
| `WalletProviderRouter.WalletProviderRouter.Forget` | extension/src/wallet-provider-router.js:187-191 | The document goes, and nothing else changes |
| `WalletApprovals.WalletApprovals.Run` | extension/src/service-worker.js:1358-1616 | Under any interleaving of registration, decision, closing, expiry and invalidation, the histories of native decisions and of settlements only grow and name no context twice |
| `WalletApprovals.WalletApprovals.ResumeChecking` | extension/src/service-worker.js:1478-1488 | The context that is decided is the one in the map after the stored prompt was read, and is taken out of it at once |
| `WalletApprovals.WalletApprovals.ResumeRevalidating` | extension/src/service-worker.js:1489-1499 | The decision is dispatched for a context that had none, or a stale one is rejected |
| `WalletApprovals.WalletApprovals.EndDecision` | extension/src/service-worker.js:1510-1515 | The claim is given up and a promise not settled before is |
| `WalletApprovals.WalletApprovals.Register` | extension/src/service-worker.js:1380-1403 | A new context is made unless storage has the identifier |
| `WalletApprovals.WalletApprovals.CloseWindow` | extension/src/service-worker.js:1534-1537 | A closing window takes the context only if no decision claims it |
| `WalletApprovals.WalletApprovals.RejectClosed` | extension/src/service-worker.js:1543 | The page promise is settled before the native host is asked |
| `WalletApprovals.WalletApprovals.DispatchClosed` | extension/src/service-worker.js:1544-1555 | At most one native rejection, for a context that had no decision |
| `WalletApprovals.WalletApprovals.Expire` | extension/src/service-worker.js:1518-1532 | The context in the map is taken out and rejected |
| `WalletApprovals.WalletApprovals.BeginRegistration` | extension/src/service-worker.js:1368-1379 | Refused at the limits or for an identifier in use |
| `WalletApprovals.WalletApprovals.FinishRegistration` | extension/src/service-worker.js:1404-1436 | A failure drops whatever context has the identifier then |
| `WalletApprovals.WalletApprovals.BeginDecision` | extension/src/service-worker.js:1472-1475 | One decision at a time claims an identifier |
| `WalletApprovals.WalletApprovals.ResumeRemoving` | extension/src/service-worker.js:1484-1489 | Without a context nothing is revalidated or dispatched |
| `WalletApprovals.WalletApprovals.ResumeDispatched` | extension/src/service-worker.js:1490-1503 | A failed dispatch settles the promise, once |
| `HeaderSyncSchedule.FixedWithinTwo` | extension/src/header-sync-schedule.js:118-188 | For timestamps in range and all positive intervals, asking again at the time that was returned reaches a fixed point within three re-evaluations and no time returned is past; within two exactly unless a deadline lies ahead whose urgent window hands over to the retained one, which an urgent interval up to the routine one excludes |
| `HeaderSyncSchedule.AttemptsAreSpaced` | extension/src/header-sync-schedule.js:118-188 | Over a run of attempts at fixed points on a clock that does not run back, attempts i and j are at least j - i minutes apart, and neighbours ten minutes unless the later one is in an urgent window |
| `HeaderSyncSchedule.NextAttemptIs` | extension/src/header-sync-schedule.js:118-188 | The next attempt is exactly at the refresh, ten minutes before the evidence expires, if that lies ahead; otherwise at once or when the routine interval since the last attempt is over, in a started urgent window with room when the urgent interval is over, and at the start of a window that comes before the routine time. The window is the evidence's own, or without one the retained one of its network |
| `HeaderSyncSchedule.NeverInThePast` | extension/src/header-sync-schedule.js:118-188 | A returned time that is not ahead is now |
| `HeaderSyncSchedule.DeadlineStartsWindow` | extension/src/header-sync-schedule.js:11-92 | A deadline ahead is exactly the start of the candidate's own urgent window |
| `HeaderSyncSchedule.StartedIsFixed` | extension/src/header-sync-schedule.js:152-188 | With no window ahead the answer is final exactly unless a window hands over, and then final the second time |
| `HeaderSyncSchedule.ThirdReevaluationMatters` | extension/src/header-sync-schedule.js:118-188 | A concrete status, retained window and pair of intervals for which the third re-evaluation changes the time |
| `HeaderSyncSchedule.WindowsRunOut` | extension/src/header-sync-schedule.js:94-116 | As time goes on the candidate's own window gives way to the retained one and that to none |
| `HeaderStatus.ReadinessIsCorroborated` | extension/src/header-status.js:78-91 | Readiness implies unexpired evidence of three peer groups, the local tree root being the authoritative one, and a freshness that agrees with the true lag |
| `HeaderStatus.ReadyExactly` | extension/src/header-status.js:27-91 | Readiness on the fields, both ways: a known network with its tree interval, well-formed heights, freshness that agrees with the lag, corroborated evidence of three groups that is not expired, and the authoritative tree root in place |
| `PoolStats.DecodeSnapshot` | extension/src/pool-stats.js:136-243 | What is accepted is well formed and encodes to exactly these bytes; the bytes of any well-formed snapshot give it back, last block and signature included |
| `PoolStats.EncodingIsInjective` | extension/src/pool-stats.js:173-205 | The same bytes are the encoding of one record only |
| `PoolStats.BoundedHex` | extension/src/pool-stats.js:123-134 | Accepted exactly for a non-empty text of digit pairs within the length; the bytes' text is the text |
| `PoolStats.HexOfBytes` | extension/src/pool-stats.js:164-171 | Text to bytes and back is the text |
| `PoolStats.BytesOfHex` | extension/src/pool-stats.js:164-171 | Bytes to text and back are the bytes |
| `PoolStats.HexTextAt` | extension/src/pool-stats.js:164-171 | Every byte has its two digits at its place in the text, the higher one first |
| `PoolStats.NumberOfBytes` | extension/src/pool-stats.js:146-163 | Little-endian bytes to number and back are the bytes |
| `PoolStats.BytesOfNumber` | extension/src/pool-stats.js:146-163 | Number to little-endian bytes and back is the number |
| `PoolStats.NumberIsLittleEndian` | extension/src/pool-stats.js:146-163 | Numbers of two, four and eight bytes have their lowest byte first |
| `PoolStats.DecodeHead` | extension/src/pool-stats.js:173-192 | The twenty fixed fields are read in their order |
| `PoolStats.FieldsAt` | extension/src/pool-stats.js:173-192 | Each of the twenty fixed fields stands in the encoding at its byte offset, as a number or as hexadecimal text |
| `PoolStats.EndAt` | extension/src/pool-stats.js:193-205 | Behind them stand the block option, the block, mode, flag, length and signature, and nothing else |
| `PoolStats.DecodeLastBlock` | extension/src/pool-stats.js:193-199 | The option byte decides whether a block follows |
| `PoolStats.DecodeEnd` | extension/src/pool-stats.js:200-204 | Mode, flag and a signature of 1 to 80 bytes |
| `PoolStats.Accept` | extension/src/pool-stats.js:205-219 | Accepted exactly within the modes, non-zero identifiers and counters, and a lifetime of 1 to 120 seconds |
| `PoolStats.Reader.Take` | extension/src/pool-stats.js:139-141 | A read gives the next bytes or fails at the end, and on an encoding gives its pieces in turn |

## Left out

- URL parsing: `canon` is an arbitrary function; only `NavigationSnapshot` and `NavigationLongUrls` need that parsing a canonical URL within the limit gives itself, a longer text gives nothing, and the origin determines host, port and scheme.
- Field-by-field checks of `extension/src/security-result.js`: the checks that do not concern runtime, epoch, event sequence, host, port, time, status code or fingerprint are one flag `wellFormed`, and the compared evidence fields of a CONNECT decision are one string.
- Order of equal sequences in pruning, and which of several equally late requests a commit takes: left open, so the theorems hold for any order. Sequence wrap-around after 2^53 - 1 is modelled; nothing is claimed about age across it.
- When the service worker persists the receipt snapshot: a restart restores the snapshot of the store as it was.
- NavigationFreshness.FreshResponseBoundOnce: speaks of requests whose host is the same from begin to completion, because the code does not keep it for redirected ones (`NavigationRedirects.RedirectedRequestBindsAgain`); which of those bind again is `NavigationRedirects.BindsAgainExactlyIf`.
- Windows installation: registry values, the Windows Root store and its tools. The installer is modelled on Linux and macOS.
- Symbolic links, path equivalence, file modes, the payload, header snapshots, the local-CA marker, legacy extension loaders and the final inspection: no part of ownership; their failures are among the places where an attempt may stop.
- Installer.Installer.AttemptThenUninstall: covers one interrupted attempt. After two attempts interrupted between registration and transaction with different manifests, the manifests of the first are in no record; `Apply` states when coverage is kept.
- The host's certificate report is taken to be true: fingerprints are those of the certificate that is added.
- Other programs change manifests and trust stores between attempts only, and do not put back what the installer wrote or added.
- Timer lengths of the PAC controller, and whether its confirmation is fast: a timeout may come at any time.
- A queued alarm call is taken to have had its effect, if any, before its promise settles.
- In `StartRuntime`, alarms, storage, status fields for the popup and the wording of errors: awaited calls that may fail. `closeNavigationGateAndTransfer` is one such call.
- `now()` and number formatting in gate revisions: a revision is the pair of clock and number.
- Delivery of native wallet events and the approval revalidation of the router: they guard operations as `Request` does.
- Contents of wallet messages, prompts and stored approvals: whether they match is a choice of the surroundings.
- `extension/src/pool-stats.js` reading of response bodies and its JSON document: the decoder is modelled from the bytes on. Kinds of errors are kept, but only acceptance is specified.
- `headerChainView` and other views for pages.
- The Rust resolver, DNSSEC, DANE, Urkel and P2P code is not part of this model.
