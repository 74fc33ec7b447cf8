/** Generation-bound operations of extension/src/wallet-provider-router.js.  A request waits for the browser
    and the native host; meanwhile other calls may initialize, forget or invalidate documents, its own
    included.  The history keeps every state the router was in. */
module WalletProviderRouter {
  import opened Basics

  const MAX_ACTIVE_DOCUMENTS := 64

  /** The navigation authority and the wallet's own part of a binding. */
  datatype Authority = Authority(
    origin: string, namespace: string, session: string, runtimeGeneration: int, policyGeneration: int,
    navigationGeneration: int, documentId: string)

  datatype Binding = Binding(authority: Authority, walletSession: string, permissionGeneration: int)

  /** What the native wallet offers a document. */
  datatype Capabilities = Capabilities(walletSession: string, permissionGeneration: int, methods: set<string>)

  datatype Document = Document(binding: Binding, authorityGeneration: nat, documentGeneration: nat,
      methods: set<string>)

  datatype Operation = Operation(key: string, authorityGeneration: nat, documentGeneration: nat, binding: Binding)

  datatype Router = Router(authorityGeneration: nat, documentGeneration: nat, documents: map<string, Document>)

  datatype Error = StaleContext | UnsupportedMethod | NotAdmitted | NativeFailure

  datatype Released = Result(text: string) | Failed(error: Error)

  // ---- generations ----

  /** requireActiveOperation. */
  predicate Active(r: Router, o: Operation) {
    o.authorityGeneration == r.authorityGeneration && o.key in r.documents &&
    r.documents[o.key].authorityGeneration == o.authorityGeneration &&
    r.documents[o.key].documentGeneration == o.documentGeneration && r.documents[o.key].binding == o.binding
  }

  /** Every stored document has the current authority generation and a document generation of its own. */
  ghost predicate Fresh(r: Router) {
    (forall k :: k in r.documents ==>
      r.documents[k].authorityGeneration == r.authorityGeneration &&
      r.documents[k].documentGeneration <= r.documentGeneration) &&
    forall j, k :: j in r.documents && k in r.documents && j != k ==>
      r.documents[j].documentGeneration != r.documents[k].documentGeneration
  }

  /** A document with an old generation is the one that had it: generations are not reused. */
  ghost predicate Evolves(a: Router, b: Router) {
    a.authorityGeneration <= b.authorityGeneration && a.documentGeneration <= b.documentGeneration &&
    forall k :: k in b.documents && b.documents[k].documentGeneration <= a.documentGeneration ==>
      k in a.documents && a.documents[k] == b.documents[k]
  }

  lemma EvolvesOnward(a: Router, b: Router, c: Router)
    requires Evolves(a, b) && Evolves(b, c) && Fresh(b)
    ensures Evolves(a, c)
  {
  }

  /** What was lost stays lost: an operation active before and after was active in between. */
  lemma NoReturn(a: Router, b: Router, c: Router, o: Operation)
    requires Evolves(a, b) && Evolves(b, c) && Fresh(a) && Fresh(b) && Active(a, o) && Active(c, o)
    ensures Active(b, o)
  {
  }

  /** Successive states of one router. */
  ghost predicate History(h: seq<Router>) {
    (forall i :: 0 <= i < |h| ==> Fresh(h[i])) && forall i :: 0 < i < |h| ==> Evolves(h[i - 1], h[i])
  }

  lemma {:induction false} HistoryEvolves(h: seq<Router>, i: nat, j: nat)
    requires History(h) && i <= j < |h|
    ensures Evolves(h[i], h[j])
    decreases j
  {
    if i < j {
      HistoryEvolves(h, i, j - 1);
      EvolvesOnward(h[i], h[j - 1], h[j]);
    }
  }

  /** If an operation is active at i and at j, the router never was in a state between without it, and its document
      never changed. */
  lemma ActiveThroughout(h: seq<Router>, i: nat, j: nat, o: Operation)
    requires History(h) && i <= j < |h| && Active(h[i], o) && Active(h[j], o)
    ensures forall k :: i <= k <= j ==> Active(h[k], o)
    ensures forall k :: i <= k <= j ==>
              h[k].authorityGeneration == h[i].authorityGeneration && o.key in h[k].documents &&
              h[k].documents[o.key] == h[i].documents[o.key]
  {
    forall k | i <= k <= j
      ensures Active(h[k], o) && h[k].documents[o.key] == h[i].documents[o.key]
    {
      HistoryEvolves(h, i, k);
      HistoryEvolves(h, k, j);
      NoReturn(h[i], h[k], h[j], o);
    }
  }

  predicate Distinct(keys: seq<string>) {
    forall i, j :: 0 <= i < j < |keys| ==> keys[i] != keys[j]
  }

  function Without(keys: seq<string>, key: string): (r: seq<string>)
    ensures forall k :: k in r <==> k in keys && k != key
  {
    if keys == [] then []
    else
      var rest := Without(keys[..|keys| - 1], key);
      if keys[|keys| - 1] == key then rest else rest + [keys[|keys| - 1]]
  }

  lemma {:induction false} WithoutStaysDistinct(keys: seq<string>, key: string)
    requires Distinct(keys)
    ensures Distinct(Without(keys, key))
  {
    if keys != [] {
      var n := |keys| - 1;
      WithoutStaysDistinct(keys[..n], key);
      assert keys[n] !in keys[..n];
    }
  }

  lemma AppendedStaysDistinct(keys: seq<string>, key: string)
    requires Distinct(keys)
    ensures key !in keys ==> Distinct(keys + [key])
  {
  }

  class WalletProviderRouter {
    var authorityGeneration: nat
    var documentGeneration: nat
    var documents: map<string, Document>
    /** The keys in the order of their first insertion. */
    var order: seq<string>
    ghost var history: seq<Router>

    function View(): Router
      reads this`authorityGeneration, this`documentGeneration, this`documents
    {
      Router(authorityGeneration, documentGeneration, documents)
    }

    ghost predicate Listed()
      reads this`documents, this`order
    {
      (forall k :: k in documents <==> k in order) && |documents| <= MAX_ACTIVE_DOCUMENTS && Distinct(order)
    }

    ghost predicate Inv()
      reads this
    {
      history != [] && history[|history| - 1] == View() && History(history) && Listed()
    }

    constructor ()
      ensures Inv() && documents == map[] && authorityGeneration == 1
    {
      authorityGeneration, documentGeneration, documents, order := 1, 0, map[], [];
      history := [Router(1, 0, map[])];
    }

    ghost method Remember(before: Router)
      requires history != [] && history[|history| - 1] == before && History(history)
      requires Fresh(View()) && Evolves(before, View())
      modifies this`history
      ensures history == old(history) + [View()] && History(history)
    {
      history := history + [View()];
    }

    /** No stored document is left from an earlier authority, and no two share a generation. */
    lemma StoredDocumentsAreCurrent(j: string, k: string)
      requires Inv() && j in documents && k in documents
      ensures documents[k].authorityGeneration == authorityGeneration
      ensures j != k ==> documents[j].documentGeneration != documents[k].documentGeneration
    {
      assert Fresh(history[|history| - 1]);
    }

    // ---- calls that change documents ----

    method Forget(key: string)
      requires Inv()
      modifies this`documents, this`order, this`history
      ensures Inv() && old(history) <= history && documents == old(documents) - {key}
    {
      hide History, Fresh, Evolves, Listed;
      ghost var before := View();
      HistoryIsFresh(history);
      if key in documents {
        FewerIsFresh(before, key);
        Drop(key);
      } else {
        NothingDropped(before, key);
      }
      Remember(before);
    }

    method Drop(key: string)
      requires Listed() && key in documents
      modifies this`documents, this`order
      ensures Listed() && documents == old(documents) - {key}
    {
      hide Without;
      DroppedIsListed(documents, order, key);
      documents := documents - {key};
      order := Without(order, key);
    }

    lemma NothingDropped(before: Router, key: string)
      requires Fresh(before) && key !in before.documents
      ensures Evolves(before, before) && before.documents == before.documents - {key}
    {
    }

    lemma DroppedIsListed(stored: map<string, Document>, keys: seq<string>, key: string)
      requires (forall k :: k in stored <==> k in keys) && Distinct(keys) && |stored| <= MAX_ACTIVE_DOCUMENTS
      requires key in stored
      ensures (forall k :: k in stored - {key} <==> k in Without(keys, key)) && Distinct(Without(keys, key))
      ensures |stored - {key}| <= MAX_ACTIVE_DOCUMENTS
    {
      hide Distinct;
      assert (stored - {key}).Keys == stored.Keys - {key};
      WithoutStaysDistinct(keys, key);
    }

    method InvalidateAuthority()
      requires Inv()
      modifies this`authorityGeneration, this`documents, this`order, this`history
      ensures Inv() && old(history) <= history && documents == map[] &&
              authorityGeneration == old(authorityGeneration) + 1
    {
      ghost var before := View();
      authorityGeneration := authorityGeneration + 1;
      documents, order := map[], [];
      Remember(before);
    }

    /** The last piece of initialize: its generation must not have changed while it waited. */
    method Store(key: string, binding: Binding, methods: set<string>, expected: nat) returns (failure: Option<Error>)
      requires Inv()
      modifies this`documentGeneration, this`documents, this`order, this`history
      ensures Inv() && old(history) <= history
      ensures failure.None? <==>
                expected == authorityGeneration &&
                (key in old(documents) && old(documents)[key].binding == binding ==>
                  old(documents)[key].methods == methods)
      ensures failure.Some? || (key in old(documents) && old(documents)[key].binding == binding) ==>
                documents == old(documents) && documentGeneration == old(documentGeneration)
      ensures forall k :: k in old(documents) && k !in documents ==>
                |old(documents)| == 64 && key !in old(documents) && k == old(order)[0]
      ensures failure.None? && !(key in old(documents) && old(documents)[key].binding == binding) ==>
                documentGeneration == old(documentGeneration) + 1 && key in documents &&
                documents[key] == Document(binding, authorityGeneration, documentGeneration, methods) &&
                forall k :: k in documents && k != key ==> k in old(documents) && documents[k] == old(documents)[k]
    {
      if expected != authorityGeneration {
        return Some(StaleContext);
      }
      if key in documents && documents[key].binding == binding {
        return if documents[key].methods == methods then None else Some(StaleContext);
      }
      Insert(key, binding, methods);
      return None;
    }

    /** A new document generation; above the limit the document that was first inserted goes. */
    method Insert(key: string, binding: Binding, methods: set<string>)
      requires Inv()
      modifies this`documentGeneration, this`documents, this`order, this`history
      ensures Inv() && old(history) <= history && documentGeneration == old(documentGeneration) + 1
      ensures key in documents && documents[key] == Document(binding, authorityGeneration, documentGeneration, methods)
      ensures forall k :: k in documents && k != key ==> k in old(documents) && documents[k] == old(documents)[k]
      ensures forall k :: k in old(documents) && k !in documents ==>
                |old(documents)| == 64 && key !in old(documents) && k == old(order)[0]
    {
      hide History, Fresh, Evolves, Distinct;
      ghost var before := View();
      HistoryIsFresh(history);
      documentGeneration := documentGeneration + 1;
      var document := Document(binding, authorityGeneration, documentGeneration, methods);
      order, documents := PlaceLast(key, document);
      InsertedIsFresh(before, View(), key);
      Remember(before);
    }

    method PlaceLast(key: string, document: Document) returns (keys: seq<string>, stored: map<string, Document>)
      requires Listed()
      ensures (forall k :: k in stored <==> k in keys) && Distinct(keys) && |stored| <= MAX_ACTIVE_DOCUMENTS
      ensures key in stored && stored[key] == document
      ensures forall k :: k in stored && k != key ==> k in documents && stored[k] == documents[k]
      ensures forall k :: k in documents && k !in stored ==>
                |documents| == 64 && key !in documents && |order| > 0 && k == order[0]
    {
      hide Distinct;
      keys := if key in documents then order else order + [key];
      AppendedStaysDistinct(order, key);
      stored := documents[key := document];
      assert stored.Keys == documents.Keys + {key};
      if |stored| > MAX_ACTIVE_DOCUMENTS {
        DropFirst(keys, stored, key);
        stored := stored - {keys[0]};
        keys := keys[1..];
      }
    }

    lemma DropFirst(keys: seq<string>, stored: map<string, Document>, key: string)
      requires Distinct(keys) && (forall k :: k in stored <==> k in keys) && |stored| > 0
      ensures keys != [] && Distinct(keys[1..]) && |stored - {keys[0]}| == |stored| - 1
      ensures forall k :: k in stored - {keys[0]} <==> k in keys[1..]
      ensures |stored| > 1 && keys[|keys| - 1] == key ==> keys[0] != key
    {
      var k :| k in stored;
      assert (stored - {keys[0]}).Keys == stored.Keys - {keys[0]};
      if |keys| == 1 { assert stored.Keys == {keys[0]}; }
    }

    lemma InsertedIsFresh(before: Router, after: Router, key: string)
      requires Fresh(before) && after.authorityGeneration == before.authorityGeneration
      requires after.documentGeneration == before.documentGeneration + 1
      requires forall k :: k in after.documents ==>
                 if k == key then after.documents[k].authorityGeneration == after.authorityGeneration &&
                                  after.documents[k].documentGeneration == after.documentGeneration
                 else k in before.documents && after.documents[k] == before.documents[k]
      ensures Fresh(after) && Evolves(before, after)
    {
    }

    lemma FewerIsFresh(before: Router, key: string)
      requires Fresh(before)
      ensures var after := before.(documents := before.documents - {key}); Fresh(after) && Evolves(before, after)
    {
    }

    lemma StoredIsActive(r: Router, key: string)
      requires Fresh(r) && key in r.documents
      ensures var d := r.documents[key];
              Active(r, Operation(key, d.authorityGeneration, d.documentGeneration, d.binding))
    {
    }

    lemma HistoryIsFresh(h: seq<Router>)
      requires History(h) && h != []
      ensures Fresh(h[|h| - 1])
    {
    }

    /** What may happen at an await: any number of other calls' pieces. */
    method Await()
      requires Inv()
      modifies this
      ensures Inv() && old(history) <= history
    {
      var steps: int := *;
      for i := 0 to if steps < 0 then 0 else steps
        invariant Inv() && old(history) <= history
      {
        var choice: nat, key: string := *, *;
        if choice == 0 {
          Forget(key);
        } else if choice == 1 {
          InvalidateAuthority();
        } else {
          var binding: Binding, methods: set<string>, expected: nat := *, *, *;
          var _ := Store(key, binding, methods, expected);
        }
      }
    }

    // ---- initialize ----

    /** The browser's answer, if the authority generation did not change while it was awaited. */
    method Ask(expected: nat) returns (answered: Option<Authority>)
      requires Inv()
      modifies this
      ensures Inv() && old(history) <= history && (answered.Some? ==> authorityGeneration == expected)
    {
      Await();
      answered := *;
      if authorityGeneration != expected { answered := None; }
    }

    /** initialize: a document is available only if the browser named the same authority before and after the wallet
        offered its capabilities, with no invalidation meanwhile; its binding and its methods are just these. */
    method Initialize(key: string)
      returns (failure: Option<Error>, ghost first: Option<Authority>, ghost second: Option<Authority>,
               ghost offered: Option<Capabilities>)
      requires Inv()
      modifies this
      ensures Inv() && old(history) <= history
      ensures failure.None? ==>
                first.Some? && second == first && offered.Some? && authorityGeneration == old(authorityGeneration) &&
                key in documents && documents[key].methods == offered.value.methods &&
                documents[key].binding ==
                Binding(second.value, offered.value.walletSession, offered.value.permissionGeneration)
    {
      first, second, offered := None, None, None;
      if * { return Some(NotAdmitted), first, second, offered; }
      var expected := authorityGeneration;
      var initial := Ask(expected);
      first := initial;
      if !initial.Some? { return Some(StaleContext), first, second, offered; }
      Await();
      var capabilities: Option<Capabilities> := *;
      offered := capabilities;
      if authorityGeneration != expected || !capabilities.Some? {
        return Some(StaleContext), first, second, offered;
      }
      var authority := Ask(expected);
      second := authority;
      if !authority.Some? || authority != initial { return Some(StaleContext), first, second, offered; }
      var binding := Binding(authority.value, capabilities.value.walletSession,
          capabilities.value.permissionGeneration);
      failure := Store(key, binding, capabilities.value.methods, expected);
    }

    // ---- requests ----

    /** revalidateOperation: the browser is asked again, and the operation must be active before and after.  `answered`
        is the authority that it names, if it names one. */
    method Revalidate(o: Operation) returns (failure: Option<Error>, ghost answered: Option<Authority>)
      requires Inv()
      modifies this
      ensures Inv() && old(history) <= history
      ensures failure.None? ==> old(Active(View(), o)) && Active(View(), o) && answered == Some(o.binding.authority)
    {
      if !Active(View(), o) { return Some(StaleContext), None; }
      Await();
      var authority: Option<Authority> := *;
      if !authority.Some? { return Some(StaleContext), None; }
      if !Active(View(), o) { return Some(StaleContext), authority; }
      if authority.value != o.binding.authority { return Some(StaleContext), authority; }
      return None, authority;
    }

    /** request: a native result is released only for a method that the document negotiated, if the document of the
        request was there, unchanged, in every state since it was admitted, and if the browser named the binding's own
        authority both before the request was dispatched and after the native host had replied. */
    method Request(key: string, binding: Binding, verb: string)
      returns (r: Released, ghost o: Operation, ghost admittedAt: nat, ghost sent: Option<Authority>,
               ghost confirmed: Option<Authority>)
      requires Inv()
      modifies this
      ensures Inv() && old(history) <= history && admittedAt == |old(history)| - 1
      ensures r.Result? ==>
                key in old(documents) && old(documents)[key].binding == binding && verb in old(documents)[key].methods
      ensures r.Result? ==> sent == Some(binding.authority) && confirmed == Some(binding.authority)
      ensures r.Result? ==>
                o.key == key && o.binding == binding && old(Active(View(), o)) &&
                forall k :: admittedAt <= k < |history| ==> Active(history[k], o)
      ensures r.Result? ==> forall k :: admittedAt <= k < |history| ==>
                history[k].authorityGeneration == old(authorityGeneration) && key in history[k].documents &&
                history[k].documents[key] == old(documents)[key]
    {
      hide History, Fresh, Evolves, Distinct;
      HistoryIsFresh(history);
      admittedAt, sent, confirmed := |history| - 1, None, None;
      o := Operation(key, 0, 0, binding);
      r := Failed(StaleContext);
      if key !in documents { return; }
      var document := documents[key];
      if binding != document.binding { return; }
      var operation := Operation(key, document.authorityGeneration, document.documentGeneration, document.binding);
      o := operation;
      if verb !in document.methods { r := Failed(UnsupportedMethod); return; }
      if * { r := Failed(NotAdmitted); return; }
      StoredIsActive(View(), key);
      ghost var before := history;
      var failure;
      failure, sent := Revalidate(operation);
      if failure.Some? { r := Failed(failure.value); return; }
      Await();
      if * { r := Failed(NativeFailure); return; }
      failure, confirmed := Revalidate(operation);
      if failure.Some? { r := Failed(failure.value); return; }
      if * { r := Failed(NativeFailure); return; }
      assert history[admittedAt] == before[admittedAt];
      ActiveThroughout(history, admittedAt, |history| - 1, o);
      var text: string := *;
      r := Result(text);
    }
  }
}
