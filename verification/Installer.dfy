/** The write-ahead ownership log of rust/crates/hns-browser-setup/src/installer.rs on Linux and macOS.
    Every durable step may be the last one an attempt makes: `if *` between two steps stands for a crash
    as well as for an error that ends the attempt there.  Two history fields remember what the installer
    ever added to a trust store and wrote as a browser manifest. */
module Installer {
  import opened Basics
  import opened InstallerRecords

  type Bytes = string

  datatype Platform = Linux | MacOs

  datatype Cert = Cert(der: string, sha1: string, sha256: string)

  /** A certificate in a trust store: its name is the NSS nickname, or the keychain item. */
  datatype Anchor = Anchor(store: string, name: string, cert: Cert)

  datatype Outcome = Completed | Refused | Interrupted

  function Nickname(sha256: string): string {
    "HNS DANE Browser Local CA (" + (if |sha256| >= 12 then sha256[..12] else sha256) + ")"
  }

  class Installer {
    const platform: Platform
    const sha256: Bytes -> string
    /** validate_any_owned_host_manifest and validate_legacy_owned_host_manifest for the installed host. */
    const identifies: Bytes -> bool
    const legacy: Bytes -> bool
    const allTargets: set<string>

    var rootExists: bool
    var receipt: Option<Record>
    var transaction: Option<Record>
    var master: Option<Bytes>
    var registrations: map<string, Bytes>
    var stores: map<string, map<string, Cert>>

    // History, which no step of the installer reads.
    var added: set<Anchor>
    var written: set<(string, Bytes)>

    // ---- what is kept ----

    ghost predicate Present(a: Anchor)
      reads this`stores
    {
      a.store in stores && a.name in stores[a.store] && stores[a.store][a.name] == a.cert
    }

    ghost predicate HeldBy(r: Option<Record>, a: Anchor) {
      r.Some? && r.value.store == a.store && a.cert.sha1 in r.value.ownedSha1s && a.cert.sha256 in r.value.ownedSha256s
    }

    /** Every certificate added and still trusted is in the history of a record of its store. */
    ghost predicate CertificatesRecorded()
      reads this`added, this`stores, this`receipt, this`transaction
    {
      forall a :: a in added && Present(a) ==>
        (HeldBy(receipt, a) || HeldBy(transaction, a)) && (platform.Linux? ==> a.name == Nickname(a.cert.sha256))
    }

    ghost predicate Valid()
      reads this`added, this`stores, this`receipt, this`transaction, this`master, this`rootExists
    {
      (forall b :: IsLowerHex(sha256(b), 64)) &&
      (receipt.Some? ==> ValidRecord(receipt.value)) && (transaction.Some? ==> ValidRecord(transaction.value)) &&
      (receipt.Some? && transaction.Some? ==> receipt.value.store == transaction.value.store) &&
      (receipt.Some? || transaction.Some? || master.Some? ==> rootExists) && CertificatesRecorded()
    }

    ghost predicate HashRecorded(hash: string)
      reads this`receipt, this`transaction
    {
      (receipt.Some? && hash in receipt.value.ownedManifests) ||
      (transaction.Some? && hash in transaction.value.ownedManifests)
    }

    ghost predicate HashInMaster(hash: string)
      reads this`master
    {
      master.Some? && identifies(master.value) && hash == sha256(master.value)
    }

    ghost predicate InPlace(w: (string, Bytes))
      reads this`registrations
    {
      w.0 in allTargets && w.0 in registrations && registrations[w.0] == w.1
    }

    /** Every browser manifest written and still in place is in a record's history ... */
    ghost predicate ManifestsRecorded()
      reads this`written, this`registrations, this`receipt, this`transaction
    {
      forall w :: w in written && InPlace(w) ==> identifies(w.1) && HashRecorded(sha256(w.1))
    }

    /** ... or at least is the master manifest. */
    ghost predicate ManifestsCovered()
      reads this`written, this`registrations, this`receipt, this`transaction, this`master
    {
      forall w :: w in written && InPlace(w) ==>
        identifies(w.1) && (HashRecorded(sha256(w.1)) || HashInMaster(sha256(w.1)))
    }

    constructor (platform: Platform, sha256: Bytes -> string, identifies: Bytes -> bool, legacy: Bytes -> bool,
                 allTargets: set<string>, registrations: map<string, Bytes>, stores: map<string, map<string, Cert>>)
      requires forall b :: IsLowerHex(sha256(b), 64)
      ensures Valid() && ManifestsRecorded() && fresh(this)
      ensures this.sha256 == sha256 && this.identifies == identifies && this.allTargets == allTargets
    {
      this.platform, this.sha256, this.identifies, this.legacy := platform, sha256, identifies, legacy;
      this.allTargets, this.registrations, this.stores := allTargets, registrations, stores;
      rootExists, receipt, transaction, master := false, None, None, None;
      added, written := {}, {};
    }

    // ---- browser manifests ----

    /** What write_selected_registrations may replace. */
    predicate Replaceable(existing: Bytes, ownedHashes: seq<string>, allowLegacy: bool) {
      (sha256(existing) in ownedHashes && identifies(existing)) || (allowLegacy && legacy(existing))
    }

    method WriteRegistration(path: string, manifest: Bytes, ownedHashes: seq<string>, allowLegacy: bool)
      returns (o: Outcome)
      requires master == Some(manifest) && identifies(manifest)
      modifies this`registrations, this`written
      ensures old(ManifestsCovered()) ==> ManifestsCovered()
      ensures if o.Completed? then
                registrations == old(registrations)[path := manifest] && written == old(written) + {(path, manifest)} &&
                (path in old(registrations) ==> Replaceable(old(registrations)[path], ownedHashes, allowLegacy))
              else registrations == old(registrations) && written == old(written)
      ensures !o.Interrupted? ==>
                (o.Completed? <==>
                  path !in old(registrations) ||
                  (sha256(old(registrations)[path]) in ownedHashes && identifies(old(registrations)[path])) ||
                  (allowLegacy && legacy(old(registrations)[path])))
    {
      if * { return Interrupted; }
      if path in registrations && !Replaceable(registrations[path], ownedHashes, allowLegacy) {
        return Refused;
      }
      registrations := registrations[path := manifest];
      written := written + {(path, manifest)};
      return Completed;
    }

    /** A manifest in the way that is neither owned nor, where the legacy loader's may go, one of those. */
    ghost predicate InTheWay(existing: Bytes, ownedHashes: seq<string>, allowLegacy: bool) {
      !(sha256(existing) in ownedHashes && identifies(existing)) && !(allowLegacy && legacy(existing))
    }

    /** What a change of registrations may do to the selected paths. */
    ghost predicate Rewritten(
      before: map<string, Bytes>, after: map<string, Bytes>, selected: set<string>, manifest: Bytes,
      ownedHashes: seq<string>, allowLegacy: bool)
    {
      (forall p :: p in before ==> p in after) &&
      (forall p :: p in after && p !in selected ==> p in before && after[p] == before[p]) &&
      (forall p :: p in after && p in selected && (p in before ==> after[p] != before[p]) ==> after[p] == manifest) &&
      (forall p :: p in before && p in after && after[p] != before[p] ==>
        Replaceable(before[p], ownedHashes, allowLegacy))
    }

    method WriteSelectedRegistrations(
      selected: set<string>, manifest: Bytes, ownedHashes: seq<string>, allowLegacy: bool)
      returns (o: Outcome)
      requires master == Some(manifest) && identifies(manifest)
      modifies this`registrations, this`written
      ensures (old(ManifestsCovered()) ==> ManifestsCovered()) && old(written) <= written
      ensures Rewritten(old(registrations), registrations, selected, manifest, ownedHashes, allowLegacy)
      ensures o.Completed? ==> forall p :: p in selected ==> p in registrations && registrations[p] == manifest
      ensures o.Completed? ==> forall p :: p in selected && p in old(registrations) ==>
                !InTheWay(old(registrations)[p], ownedHashes, allowLegacy)
      ensures o.Refused? ==>
                exists p :: p in selected && p in old(registrations) &&
                  InTheWay(old(registrations)[p], ownedHashes, allowLegacy)
    {
      hide ManifestsCovered, Replaceable;
      var rest := selected;
      while rest != {}
        invariant rest <= selected && (old(ManifestsCovered()) ==> ManifestsCovered()) && old(written) <= written
        invariant Rewritten(old(registrations), registrations, selected - rest, manifest, ownedHashes, allowLegacy)
        invariant forall p :: p in selected - rest ==> p in registrations && registrations[p] == manifest
        invariant forall p :: p in selected - rest && p in old(registrations) ==>
                    !InTheWay(old(registrations)[p], ownedHashes, allowLegacy)
      {
        var path :| path in rest;
        ghost var before := registrations;
        o := WriteRegistration(path, manifest, ownedHashes, allowLegacy);
        if !o.Completed? { return; }
        rest := rest - {path};
        assert path in before && path in old(registrations) ==> before[path] == old(registrations)[path];
      }
      return Completed;
    }

    method RemoveOwnedManifestFile(path: string, ownedHashes: seq<string>) returns (o: Outcome)
      modifies this`registrations
      ensures registrations ==
        if !o.Interrupted? && path in old(registrations) && sha256(old(registrations)[path]) in ownedHashes &&
           identifies(old(registrations)[path])
        then old(registrations) - {path} else old(registrations)
    {
      if * { return Interrupted; }
      if path in registrations && sha256(registrations[path]) in ownedHashes && identifies(registrations[path]) {
        registrations := registrations - {path};
      }
      return Completed;
    }

    /** Deletes the owned manifests among the paths, and no others. */
    method RemoveOwnedManifests(paths: set<string>, ownedHashes: seq<string>) returns (o: Outcome)
      modifies this`registrations
      ensures forall p :: p in registrations ==> p in old(registrations) && registrations[p] == old(registrations)[p]
      ensures forall p :: p in old(registrations) && p !in registrations ==>
                p in paths && sha256(old(registrations)[p]) in ownedHashes && identifies(old(registrations)[p])
      ensures o.Completed? ==> forall p :: p in registrations && p in paths ==>
                !(sha256(registrations[p]) in ownedHashes && identifies(registrations[p]))
      ensures !o.Refused?
      ensures old(ManifestsRecorded()) ==> ManifestsRecorded()
      ensures old(ManifestsCovered()) ==> ManifestsCovered()
    {
      var rest := paths;
      while rest != {}
        invariant rest <= paths
        invariant forall p :: p in registrations ==>
                    p in old(registrations) && registrations[p] == old(registrations)[p]
        invariant forall p :: p in old(registrations) && p !in registrations ==>
          p in paths && sha256(old(registrations)[p]) in ownedHashes && identifies(old(registrations)[p])
        invariant forall p :: p in registrations && p in paths - rest ==>
          !(sha256(registrations[p]) in ownedHashes && identifies(registrations[p]))
      {
        var path :| path in rest;
        var removed := RemoveOwnedManifestFile(path, ownedHashes);
        if removed.Interrupted? { return Interrupted; }
        rest := rest - {path};
      }
      return Completed;
    }

    // ---- trust stores ----

    /** The certificates that removal by these histories is about. */
    predicate Listed(name: string, cert: Cert, sha1s: seq<string>, sha256s: seq<string>) {
      if platform.Linux? then cert.sha256 in sha256s && name == Nickname(cert.sha256) else cert.sha1 in sha1s
    }

    /** `after` lacks some listed certificates of one store, and nothing else. */
    ghost predicate Distrusted(
      before: map<string, map<string, Cert>>, after: map<string, map<string, Cert>>, store: string, sha1s: seq<string>,
      sha256s: seq<string>)
    {
      after.Keys == before.Keys && (forall k :: k in after && k != store ==> after[k] == before[k]) &&
      (store in after ==>
        (forall n :: n in after[store] ==> n in before[store] && after[store][n] == before[store][n]) &&
        (forall n :: n in before[store] && n !in after[store] ==> Listed(n, before[store][n], sha1s, sha256s)))
    }

    ghost predicate NoneListed(store: string, sha1s: seq<string>, sha256s: seq<string>)
      reads this`stores
    {
      store in stores ==> forall n :: n in stores[store] ==> !Listed(n, stores[store][n], sha1s, sha256s)
    }

    /** One fingerprint: the tool may delete some of the items it stands for, and is then asked again. */
    method RemoveTrustAnchor(store: string, fingerprint: string) returns (o: Outcome)
      requires store in stores
      modifies this`stores
      ensures var one := [fingerprint]; Distrusted(old(stores), stores, store, one, one)
      ensures o.Completed? ==> NoneListed(store, [fingerprint], [fingerprint])
      ensures old(CertificatesRecorded()) ==> CertificatesRecorded()
    {
      if * { return Interrupted; }
      var one := [fingerprint];
      var found := set n | n in stores[store] && Listed(n, stores[store][n], one, one);
      if found != {} {
        var deleted: set<string> := *;
        stores := stores[store := stores[store] - (found * deleted)];
        if * { return Interrupted; }
        if exists n :: n in stores[store] && Listed(n, stores[store][n], one, one) {
          return Refused;
        }
      } else {
        assert forall n :: n in stores[store] ==> n !in found;
      }
      return Completed;
    }

    method RemoveTrustAnchors(store: string, sha1s: seq<string>, sha256s: seq<string>) returns (o: Outcome)
      modifies this`stores
      ensures Distrusted(old(stores), stores, store, sha1s, sha256s)
      ensures o.Completed? ==> NoneListed(store, sha1s, sha256s)
      ensures old(CertificatesRecorded()) ==> CertificatesRecorded()
    {
      hide CertificatesRecorded;
      var fingerprints := if platform.Linux? then sha256s else sha1s;
      if fingerprints == [] || store !in stores {
        return Completed;
      }
      for i := 0 to |fingerprints|
        invariant Distrusted(old(stores), stores, store, sha1s, sha256s)
        invariant NoneListed(store, fingerprints[..i], fingerprints[..i])
        invariant old(CertificatesRecorded()) ==> CertificatesRecorded()
      {
        assert fingerprints[..i + 1] == fingerprints[..i] + [fingerprints[i]];
        o := RemoveTrustAnchor(store, fingerprints[i]);
        if !o.Completed? { return; }
      }
      assert fingerprints[..|fingerprints|] == fingerprints;
      return Completed;
    }

    /** The tool takes an earlier copy of the certificate out, and the name for the new one is free. */
    method MakeRoom(ca: Cert, store: string) returns (o: Outcome, name: string)
      requires CertificatesRecorded()
      modifies this`stores
      ensures CertificatesRecorded()
      ensures forall k :: k in stores && k != store ==> k in old(stores) && stores[k] == old(stores)[k]
      ensures o.Completed? ==>
                store in stores && name !in stores[store] && (platform.Linux? ==> name == Nickname(ca.sha256))
    {
      name := Nickname(ca.sha256);
      if store !in stores { stores := stores[store := map[]]; }
      if platform.Linux? {
        if name in stores[store] {
          if stores[store][name].sha256 != ca.sha256 { return Refused, name; }
          stores := stores[store := stores[store] - {name}];
        }
      } else {
        var found := set n | n in stores[store] && stores[store][n].sha1 == ca.sha1;
        var deleted: set<string> := *;
        stores := stores[store := stores[store] - (found * deleted)];
        name := *;
        if name in stores[store] { return Refused, name; }
      }
      return Completed, name;
    }

    /** Adds the certificate only after a record of its store lists it. */
    method InstallTrustAnchor(ca: Cert, store: string) returns (o: Outcome)
      requires CertificatesRecorded()
      requires HeldBy(transaction, Anchor(store, "", ca))
      modifies this`stores, this`added
      ensures CertificatesRecorded() && old(added) <= added
      ensures forall k :: k in stores && k != store ==> k in old(stores) && stores[k] == old(stores)[k]
      ensures o.Completed? ==> Trusted(ca, store)
    {
      if * { return Interrupted; }
      var name;
      o, name := MakeRoom(ca, store);
      if !o.Completed? { return; }
      if * { return Interrupted; }
      stores := stores[store := stores[store][name := ca]];
      added := added + {Anchor(store, name, ca)};
      assert Present(Anchor(store, name, ca));
      if * { return Interrupted; }
      return Completed;
    }

    /** The certificate is trusted under the name by which it would be removed. */
    ghost predicate Trusted(ca: Cert, store: string)
      reads this`added, this`stores
    {
      exists a :: a in added && a.store == store && a.cert == ca && Present(a) &&
        (platform.Linux? ==> a.name == Nickname(ca.sha256))
    }

    // ---- records ----

    ghost predicate Extends(t: Record, r: Option<Record>) {
      r.Some? ==>
        t.store == r.value.store && Elements(r.value.ownedManifests) <= Elements(t.ownedManifests) &&
        Elements(r.value.ownedSha1s) <= Elements(t.ownedSha1s) &&
          Elements(r.value.ownedSha256s) <= Elements(t.ownedSha256s)
    }

    /** Listing more under the same store keeps everything listed. */
    lemma ExtendsHolds(t: Record, r: Option<Record>, a: Anchor)
      requires Extends(t, r) && HeldBy(r, a)
      ensures HeldBy(Some(t), a)
    {
      assert a.cert.sha1 in Elements(r.value.ownedSha1s) && a.cert.sha256 in Elements(r.value.ownedSha256s);
    }

    method MakeRecord(selected: set<string>, manifest: Bytes, ca: Cert, resolved: string, ownedManifests: seq<string>)
      returns (t: Record)
      requires Valid() && selected != {} && IsLowerHex(ca.sha1, 40) && IsLowerHex(ca.sha256, 64)
      requires ValidHistory(ownedManifests, 64, sha256(manifest))
      requires HistoryOf(Owned(receipt)) <= Elements(ownedManifests) &&
               HistoryOf(Owned(transaction)) <= Elements(ownedManifests)
      ensures ValidRecord(t) && Extends(t, receipt) && Extends(t, transaction)
      ensures t.manifest == sha256(manifest) && t.sha1 == ca.sha1 && t.sha256 == ca.sha256 && t.targets == selected
      ensures t.ownedManifests == ownedManifests && ca.sha1 in t.ownedSha1s && ca.sha256 in t.ownedSha256s
      ensures t.store == if transaction.Some? then transaction.value.store
                         else if receipt.Some? then receipt.value.store else resolved
      ensures forall v :: v in t.ownedSha1s <==>
                v == ca.sha1 || (receipt.Some? && v in receipt.value.ownedSha1s) ||
                (transaction.Some? && v in transaction.value.ownedSha1s)
      ensures forall v :: v in t.ownedSha256s <==>
                v == ca.sha256 || (receipt.Some? && v in receipt.value.ownedSha256s) ||
                (transaction.Some? && v in transaction.value.ownedSha256s)
    {
      var store := if transaction.Some? then transaction.value.store else if receipt.Some? then receipt.value.store
        else resolved;
      var r1 := if receipt.Some? then Some(receipt.value.ownedSha1s) else None;
      var t1 := if transaction.Some? then Some(transaction.value.ownedSha1s) else None;
      var sha1s := MergeOwnedHashes(r1, t1, ca.sha1);
      MergedHistoryIsValid(r1, t1, ca.sha1, sha1s, 40);
      var r256 := if receipt.Some? then Some(receipt.value.ownedSha256s) else None;
      var t256 := if transaction.Some? then Some(transaction.value.ownedSha256s) else None;
      var sha256s := MergeOwnedHashes(r256, t256, ca.sha256);
      MergedHistoryIsValid(r256, t256, ca.sha256, sha256s, 64);
      MergedMembers(r1, t1, ca.sha1, sha1s);
      MergedMembers(r256, t256, ca.sha256, sha256s);
      t := Record(selected, sha256(manifest), ownedManifests, ca.sha1, ca.sha256, sha1s, sha256s, store);
    }

    lemma MergedMembers(a: Option<seq<string>>, b: Option<seq<string>>, current: string, merged: seq<string>)
      requires Elements(merged) == HistoryOf(a) + HistoryOf(b) + {current}
      ensures forall v :: v in merged <==>
                v == current || (a.Some? && v in a.value) || (b.Some? && v in b.value)
    {
      forall v ensures v in merged <==> v == current || (a.Some? && v in a.value) || (b.Some? && v in b.value) {
        assert v in merged <==> v in Elements(merged);
        assert a.Some? ==> (v in a.value <==> v in Elements(a.value));
        assert b.Some? ==> (v in b.value <==> v in Elements(b.value));
      }
    }

    function Owned(r: Option<Record>): Option<seq<string>> {
      if r.Some? then Some(r.value.ownedManifests) else None
    }

    method MergeManifests(manifest: Bytes) returns (hashes: seq<string>)
      requires Valid()
      ensures ValidHistory(hashes, 64, sha256(manifest))
      ensures Elements(hashes) == HistoryOf(Owned(receipt)) + HistoryOf(Owned(transaction)) + {sha256(manifest)}
    {
      hashes := MergeOwnedHashes(Owned(receipt), Owned(transaction), sha256(manifest));
      MergedHistoryIsValid(Owned(receipt), Owned(transaction), sha256(manifest), hashes, 64);
    }

    // ---- install and repair ----

    /** What a completed attempt leaves: one record, the receipt, of exactly what was asked for. */
    ghost predicate Installed(selected: set<string>, manifest: Bytes, ca: Cert)
      reads this`added, this`stores, this`receipt, this`transaction, this`master, this`registrations
    {
      receipt.Some? && transaction.None? && master == Some(manifest) &&
      receipt.value.manifest == sha256(manifest) && receipt.value.targets == selected &&
      receipt.value.sha1 == ca.sha1 && receipt.value.sha256 == ca.sha256 &&
      (forall p :: p in selected ==> p in registrations && registrations[p] == manifest) &&
      (forall p :: p in registrations && p in allTargets - selected ==>
        !(sha256(registrations[p]) in receipt.value.ownedManifests && identifies(registrations[p]))) &&
      Trusted(ca, receipt.value.store) && NoStaleTrust(receipt.value)
    }

    /** No certificate of the history but the current one is trusted. */
    ghost predicate NoStaleTrust(r: Record)
      reads this`stores
    {
      NoneListed(r.store, Without(r.ownedSha1s, r.sha1), Without(r.ownedSha256s, r.sha256))
    }

    function Without(values: seq<string>, current: string): (r: seq<string>)
      ensures forall v :: v in r <==> v in values && v != current
    {
      if values == [] then []
      else
        var rest := Without(values[..|values| - 1], current);
        if values[|values| - 1] == current then rest else rest + [values[|values| - 1]]
    }

    /** The pre-trust transaction: from here on every manifest in place is recorded. */
    method WriteTransaction(t: Record)
      requires Valid() && ValidRecord(t) && Extends(t, receipt) && Extends(t, transaction) && rootExists
      requires master.Some? ==> sha256(master.value) in t.ownedManifests
      modifies this`transaction
      ensures Valid() && transaction == Some(t)
      ensures old(ManifestsCovered()) ==> ManifestsRecorded()
    {
      ghost var before := transaction;
      forall a | a in added && Present(a) ensures HeldBy(receipt, a) || HeldBy(Some(t), a) {
        if HeldBy(transaction, a) { ExtendsHolds(t, transaction, a); }
      }
      forall hash | HashRecorded(hash) ensures (receipt.Some? && hash in receipt.value.ownedManifests) ||
        hash in t.ownedManifests {
        if transaction.Some? && hash in transaction.value.ownedManifests {
          assert hash in Elements(transaction.value.ownedManifests);
        }
      }
      transaction := Some(t);
    }

    /** The receipt takes the transaction's record over. */
    method WriteReceipt()
      requires Valid() && transaction.Some? && Extends(transaction.value, receipt)
      modifies this`receipt
      ensures Valid() && receipt == transaction
      ensures old(ManifestsRecorded()) ==> ManifestsRecorded()
    {
      forall a | a in added && Present(a) ensures HeldBy(transaction, a) {
        if HeldBy(receipt, a) { ExtendsHolds(transaction.value, receipt, a); }
      }
      forall hash | HashRecorded(hash) ensures hash in transaction.value.ownedManifests {
        if receipt.Some? && hash in receipt.value.ownedManifests {
          assert hash in Elements(receipt.value.ownedManifests);
        }
      }
      receipt := transaction;
    }

    method ClearTransaction()
      requires Valid() && receipt.Some? && transaction == receipt
      modifies this`transaction
      ensures Valid() && transaction.None?
      ensures old(ManifestsRecorded()) ==> ManifestsRecorded()
    {
      transaction := None;
    }

    ghost predicate Repeatable(manifest: Bytes)
      reads this`written, this`registrations, this`receipt, this`transaction, this`master
    {
      ManifestsRecorded() || (ManifestsCovered() && master == Some(manifest))
    }

    /** What an attempt may replace or delete: manifests of this host whose hash is in a record or is that of its
        own manifest, and without records also those of the legacy loader. */
    ghost predicate Changeable(b: Bytes, manifest: Bytes)
      reads this`receipt, this`transaction
    {
      (identifies(b) && (HashRecorded(sha256(b)) || sha256(b) == sha256(manifest))) ||
      (receipt.None? && transaction.None? && legacy(b))
    }

    lemma InTheWayIsNotChangeable(manifest: Bytes, hashes: seq<string>)
      requires Elements(hashes) == HistoryOf(Owned(receipt)) + HistoryOf(Owned(transaction)) + {sha256(manifest)}
      ensures forall b :: InTheWay(b, hashes, receipt.None? && transaction.None?) <==> !Changeable(b, manifest)
    {
      forall h ensures h in hashes <==> HashRecorded(h) || h == sha256(manifest) {
        assert h in hashes <==> h in Elements(hashes);
        assert receipt.Some? ==> (h in receipt.value.ownedManifests <==> h in Elements(receipt.value.ownedManifests));
        assert transaction.Some? ==>
            (h in transaction.value.ownedManifests <==> h in Elements(transaction.value.ownedManifests));
      }
    }

    lemma RewrittenIsChangeable(
      before: map<string, Bytes>, after: map<string, Bytes>, selected: set<string>, manifest: Bytes,
      hashes: seq<string>)
      requires Rewritten(before, after, selected, manifest, hashes, receipt.None? && transaction.None?)
      requires Elements(hashes) == HistoryOf(Owned(receipt)) + HistoryOf(Owned(transaction)) + {sha256(manifest)}
      ensures forall h :: h in hashes ==> HashRecorded(h) || h == sha256(manifest)
      ensures forall p :: p in before ==> p in after && (after[p] != before[p] ==> Changeable(before[p], manifest))
      ensures forall p :: p in after && (p in before ==> after[p] != before[p]) ==>
                p in selected && after[p] == manifest
    {
      forall h | h in hashes ensures HashRecorded(h) || h == sha256(manifest) {
        assert h in Elements(hashes);
      }
    }

    method WriteMaster(manifest: Bytes)
      requires Valid() && identifies(manifest)
      modifies this`rootExists, this`master
      ensures Valid() && rootExists && master == Some(manifest)
      ensures old(Repeatable(manifest)) ==> ManifestsCovered()
    {
      rootExists := true;
      master := Some(manifest);
    }

    method MakeRoot()
      requires Valid()
      modifies this`rootExists
      ensures Valid() && rootExists
      ensures ManifestsRecorded() == old(ManifestsRecorded()) && ManifestsCovered() == old(ManifestsCovered())
    {
      rootExists := true;
    }

    /** The part of an attempt before the transaction. */
    method Register(selected: set<string>, manifest: Bytes) returns (o: Outcome, hashes: seq<string>)
      requires Valid() && selected <= allTargets
      modifies this`rootExists, this`master, this`registrations, this`written
      ensures Valid() && old(written) <= written
      ensures old(Repeatable(manifest)) ==> ManifestsCovered()
      ensures forall p :: p in old(registrations) ==>
                p in registrations &&
                (registrations[p] != old(registrations)[p] ==> Changeable(old(registrations)[p], manifest))
      ensures forall p ::
                p in registrations && (p in old(registrations) ==> registrations[p] != old(registrations)[p]) ==>
                  p in selected && registrations[p] == manifest
      ensures o.Completed? ==>
                rootExists && master == Some(manifest) && identifies(manifest) &&
                ValidHistory(hashes, 64, sha256(manifest)) &&
                Elements(hashes) == HistoryOf(Owned(receipt)) + HistoryOf(Owned(transaction)) + {sha256(manifest)} &&
                (forall h :: h in hashes ==> HashRecorded(h) || h == sha256(manifest)) &&
                forall p :: p in selected ==> p in registrations && registrations[p] == manifest
      ensures o.Completed? ==>
                forall p :: p in selected && p in old(registrations) ==> Changeable(old(registrations)[p], manifest)
      ensures o.Refused? ==>
                !identifies(manifest) ||
                exists p :: p in selected && p in old(registrations) && !Changeable(old(registrations)[p], manifest)
    {
      RecordedIsCovered();
      hide ManifestsRecorded, ManifestsCovered, ValidRecord, ValidHistory, Rewritten, HistoryOf, CertificatesRecorded;
      hashes := [];
      MakeRoot();
      if * { return Interrupted, hashes; }
      if !identifies(manifest) { return Refused, hashes; }
      WriteMaster(manifest);
      if * { return Interrupted, hashes; }
      hashes := MergeManifests(manifest);
      o := WriteSelectedRegistrations(selected, manifest, hashes, receipt.None? && transaction.None?);
      InTheWayIsNotChangeable(manifest, hashes);
      RewrittenIsChangeable(old(registrations), registrations, selected, manifest, hashes);
    }

    lemma RecordedIsCovered()
      ensures ManifestsRecorded() ==> ManifestsCovered()
    {
    }

    /** The write-ahead transaction, and only then the trust. */
    method Entrust(selected: set<string>, manifest: Bytes, ca: Cert, resolved: string, hashes: seq<string>)
      returns (o: Outcome)
      requires Valid() && selected != {} && rootExists && master == Some(manifest)
      requires ValidHistory(hashes, 64, sha256(manifest))
      requires Elements(hashes) == HistoryOf(Owned(receipt)) + HistoryOf(Owned(transaction)) + {sha256(manifest)}
      modifies this`transaction, this`stores, this`added
      ensures Valid() && old(added) <= added && (old(ManifestsCovered()) ==> ManifestsCovered())
      ensures o.Completed? ==>
                (old(ManifestsCovered()) ==> ManifestsRecorded()) && transaction.Some? &&
                RecordFor(transaction.value, selected, manifest, ca, hashes) && Extends(transaction.value, receipt) &&
                Trusted(ca, transaction.value.store)
    {
      hide ManifestsRecorded, ManifestsCovered, ValidRecord, Extends, Trusted;
      if * { return Interrupted; }
      if !IsLowerHex(ca.sha1, 40) || !IsLowerHex(ca.sha256, 64) { return Refused; }
      var t := MakeRecord(selected, manifest, ca, resolved, hashes);
      WriteTransaction(t);
      RecordedIsCovered();
      if * { return Interrupted; }
      o := Trust(t, ca);
    }

    ghost predicate RecordFor(t: Record, selected: set<string>, manifest: Bytes, ca: Cert, hashes: seq<string>) {
      t.targets == selected && t.manifest == sha256(manifest) && t.ownedManifests == hashes &&
      t.sha1 == ca.sha1 && t.sha256 == ca.sha256
    }

    /** The receipt, the end of the transaction, and what the history makes removable. */
    method Finish(selected: set<string>, ca: Cert) returns (o: Outcome)
      requires Valid() && transaction.Some? && Extends(transaction.value, receipt)
      requires Trusted(ca, transaction.value.store) && transaction.value.sha1 == ca.sha1 &&
               transaction.value.sha256 == ca.sha256
      modifies this`receipt, this`transaction, this`registrations, this`stores
      ensures Valid() && (old(ManifestsRecorded()) ==> ManifestsRecorded() && ManifestsCovered())
      ensures forall p :: p in registrations ==> p in old(registrations) && registrations[p] == old(registrations)[p]
      ensures forall p :: p in old(registrations) && p !in registrations ==>
                p in allTargets - selected && identifies(old(registrations)[p]) &&
                sha256(old(registrations)[p]) in old(transaction.value.ownedManifests)
      ensures o.Completed? ==>
                receipt == old(transaction) && transaction.None? && Trusted(ca, receipt.value.store) &&
                NoStaleTrust(receipt.value) &&
                (forall p :: p in selected && p in old(registrations) ==>
                  p in registrations && registrations[p] == old(registrations)[p]) &&
                (forall p :: p in registrations && p in allTargets - selected ==>
                  !(sha256(registrations[p]) in receipt.value.ownedManifests && identifies(registrations[p])))
    {
      hide ManifestsRecorded, ManifestsCovered, ValidRecord, Extends, Trusted;
      RecordedIsCovered();
      WriteReceipt();
      RecordedIsCovered();
      if * { return Interrupted; }
      ClearTransaction();
      RecordedIsCovered();
      if * { return Interrupted; }
      o := RemoveOwnedManifests(allTargets - selected, receipt.value.ownedManifests);
      RecordedIsCovered();
      if !o.Completed? { return; }
      o := RemoveStaleTrustAnchors(ca);
    }

    method RemoveStaleTrustAnchors(ca: Cert) returns (o: Outcome)
      requires Valid() && receipt.Some? && receipt.value.sha1 == ca.sha1 && receipt.value.sha256 == ca.sha256
      requires Trusted(ca, receipt.value.store)
      modifies this`stores
      ensures Valid() && Trusted(ca, receipt.value.store) && (o.Completed? ==> NoStaleTrust(receipt.value))
      ensures ManifestsRecorded() == old(ManifestsRecorded()) && ManifestsCovered() == old(ManifestsCovered())
    {
      var r := receipt.value;
      ghost var a :| a in added && a.store == r.store && a.cert == ca && Present(a) &&
        (platform.Linux? ==> a.name == Nickname(ca.sha256));
      o := RemoveTrustAnchors(r.store, Without(r.ownedSha1s, r.sha1), Without(r.ownedSha256s, r.sha256));
      assert Present(a);
    }

    /** Whatever step it stops at, an attempt leaves every added certificate recorded; and every manifest
        covered, if those before it were recorded or its own manifest is the master already in place. */
    method Apply(selected: set<string>, manifest: Bytes, ca: Cert, resolved: string) returns (o: Outcome)
      requires Valid() && selected <= allTargets
      modifies this
      ensures Valid() && old(added) <= added && old(written) <= written
      ensures old(Repeatable(manifest)) ==> ManifestsCovered()
      ensures forall p ::
                p in old(registrations) && (p in registrations ==> registrations[p] != old(registrations)[p]) ==>
                  p in allTargets && old(Changeable(registrations[p], manifest))
      ensures forall p ::
                p in registrations && (p in old(registrations) ==> registrations[p] != old(registrations)[p]) ==>
                  p in selected && registrations[p] == manifest
      ensures o.Completed? ==> Installed(selected, manifest, ca)
      ensures o.Completed? && old(Repeatable(manifest)) ==> ManifestsRecorded()
    {
      RecordedIsCovered();
      hide ManifestsRecorded, ManifestsCovered, Valid, Trusted, NoStaleTrust, Extends, ValidHistory;
      if selected == {} { return Refused; }
      var hashes;
      o, hashes := Register(selected, manifest);
      if !o.Completed? { return; }
      assert forall b: Bytes :: identifies(b) && sha256(b) in hashes ==> old(Changeable(b, manifest));
      hide Changeable;
      o := Entrust(selected, manifest, ca, resolved, hashes);
      if !o.Completed? { return; }
      o := Finish(selected, ca);
      if !o.Completed? { return; }
      if * { return Refused; }
    }

    /** The certificate is added and the native host marked, under the transaction. */
    method Trust(t: Record, ca: Cert) returns (o: Outcome)
      requires Valid() && transaction == Some(t) && ca.sha1 in t.ownedSha1s && ca.sha256 in t.ownedSha256s
      modifies this`stores, this`added
      ensures Valid() && old(added) <= added && (o.Completed? ==> Trusted(ca, t.store))
      ensures ManifestsRecorded() == old(ManifestsRecorded()) && ManifestsCovered() == old(ManifestsCovered())
    {
      o := InstallTrustAnchor(ca, t.store);
      if !o.Completed? { return; }
      if * { return Interrupted; }
    }

    // ---- uninstall ----

    /** The manifests that uninstall owns, by both histories or by being the master. */
    ghost predicate OwnedManifest(b: Bytes)
      reads this`receipt, this`transaction, this`master
    {
      identifies(b) && (HashRecorded(sha256(b)) || HashInMaster(sha256(b)))
    }

    method CollectOwnership() returns (hashes: seq<string>)
      ensures forall h :: h in hashes <==> HashRecorded(h) || HashInMaster(h)
    {
      hashes := if receipt.Some? then receipt.value.ownedManifests else [];
      if transaction.Some? {
        hashes := PushAll(hashes, transaction.value.ownedManifests);
        assert forall h :: h in hashes <==> h in Elements(hashes);
        assert forall h :: h in transaction.value.ownedManifests <==> h in Elements(transaction.value.ownedManifests);
        assert receipt.Some? ==> forall h :: h in receipt.value.ownedManifests <==>
            h in Elements(receipt.value.ownedManifests);
      }
      if master.Some? && identifies(master.value) {
        hashes := PushUnique(hashes, sha256(master.value));
      }
    }

    ghost predicate NothingTrusted()
      reads this`added, this`stores
    {
      forall a :: a in added ==> !Present(a)
    }

    ghost predicate NothingInPlace()
      reads this`written, this`registrations
    {
      forall w :: w in written ==> !InPlace(w)
    }

    method RemoveBrowserManifests() returns (o: Outcome)
      modifies this`registrations
      ensures forall p :: p in registrations ==> p in old(registrations) && registrations[p] == old(registrations)[p]
      ensures forall p :: p in old(registrations) && p !in registrations ==>
                p in allTargets && OwnedManifest(old(registrations)[p])
      ensures old(ManifestsCovered()) ==> ManifestsCovered() && (o.Completed? ==> NothingInPlace())
      ensures !o.Refused?
    {
      var hashes := CollectOwnership();
      if receipt.None? && transaction.None? && (master.None? || !identifies(master.value)) {
        return Completed;
      }
      o := RemoveOwnedManifests(allTargets, hashes);
    }

    ghost predicate OwnedSha1(v: string, confirmed: Option<Cert>)
      reads this`receipt, this`transaction
    {
      (receipt.Some? && v in receipt.value.ownedSha1s) || (transaction.Some? && v in transaction.value.ownedSha1s) ||
      (confirmed.Some? && v == confirmed.value.sha1)
    }

    ghost predicate OwnedSha256(v: string, confirmed: Option<Cert>)
      reads this`receipt, this`transaction
    {
      (receipt.Some? && v in receipt.value.ownedSha256s) ||
      (transaction.Some? && v in transaction.value.ownedSha256s) ||
      (confirmed.Some? && v == confirmed.value.sha256)
    }

    /** The certificates that uninstall may take out of a store. */
    ghost predicate OwnedCertificate(name: string, cert: Cert, confirmed: Option<Cert>)
      reads this`receipt, this`transaction
    {
      if platform.Linux? then OwnedSha256(cert.sha256, confirmed) && name == Nickname(cert.sha256)
      else OwnedSha1(cert.sha1, confirmed)
    }

    /** The certificates of both histories and, where the installed host is verified, its current one. */
    method CollectFingerprints(confirmed: Option<Cert>) returns (sha1s: seq<string>, sha256s: seq<string>)
      ensures forall v :: v in sha1s <==> OwnedSha1(v, confirmed)
      ensures forall v :: v in sha256s <==> OwnedSha256(v, confirmed)
    {
      sha1s := if receipt.Some? then receipt.value.ownedSha1s else [];
      sha256s := if receipt.Some? then receipt.value.ownedSha256s else [];
      if transaction.Some? {
        sha1s := PushAll(sha1s, transaction.value.ownedSha1s);
        sha256s := PushAll(sha256s, transaction.value.ownedSha256s);
      }
      if confirmed.Some? {
        sha1s := PushUnique(sha1s, confirmed.value.sha1);
        sha256s := PushUnique(sha256s, confirmed.value.sha256);
      }
    }

    ghost predicate RecordStore(store: string)
      reads this`receipt, this`transaction
    {
      (receipt.Some? ==> receipt.value.store == store) && (transaction.Some? ==> transaction.value.store == store)
    }

    /** All recorded certificates sit in the one recorded store, so cleaning that one is enough. */
    lemma RecordedStoreIsEnough(store: string, sha1s: seq<string>, sha256s: seq<string>)
      requires CertificatesRecorded() && RecordStore(store) && NoneListed(store, sha1s, sha256s)
      requires forall a :: HeldBy(receipt, a) || HeldBy(transaction, a) ==>
                 a.cert.sha1 in sha1s && a.cert.sha256 in sha256s
      ensures NothingTrusted()
    {
    }

    method RemoveRecordedTrust(confirmed: Option<Cert>) returns (o: Outcome)
      requires Valid()
      modifies this`stores
      ensures Valid() && (o.Completed? ==> NothingTrusted())
      ensures stores.Keys == old(stores).Keys && forall k, n :: k in stores && n in old(stores)[k] ==>
                if n in stores[k] then stores[k][n] == old(stores)[k][n]
                else OwnedCertificate(n, old(stores)[k][n], confirmed)
    {
      hide NoneListed, ValidRecord;
      var sha1s, sha256s := CollectFingerprints(confirmed);
      if receipt.Some? || transaction.Some? {
        var store := if transaction.Some? then transaction.value.store else receipt.value.store;
        o := RemoveTrustAnchors(store, sha1s, sha256s);
        if o.Completed? { RecordedStoreIsEnough(store, sha1s, sha256s); }
      } else if sha1s != [] || sha256s != [] {
        return Refused;
      } else {
        return Completed;
      }
    }

    /** Recursive removal; a partial one may have deleted any of the files. */
    method RemoveRoot() returns (o: Outcome)
      requires Valid() && NothingTrusted()
      modifies this`receipt, this`transaction, this`master, this`rootExists
      ensures Valid() && (o.Completed? ==> receipt.None? && transaction.None? && master.None? && !rootExists)
      ensures !rootExists ==> receipt.None? && transaction.None? && master.None?
    {
      hide ValidRecord;
      if * { receipt := None; }
      if * { transaction := None; }
      if * { master := None; }
      if * { return Interrupted; }
      receipt, transaction, master, rootExists := None, None, None, false;
      return Completed;
    }

    /** Unless it is interrupted, no manifest that was written is still in place, if they were covered; so also
        where it refuses to remove a root without a record, and then nothing that was added is trusted.  If it
        completes, no certificate that was added is still trusted.  It never deletes a manifest it does not own. */
    method Uninstall(confirmed: Option<Cert>) returns (o: Outcome)
      requires Valid()
      modifies this`registrations, this`stores, this`receipt, this`transaction, this`master, this`rootExists
      ensures Valid() && (old(ManifestsCovered()) ==> ManifestsCovered())
      ensures forall p :: p in registrations ==> p in old(registrations) && registrations[p] == old(registrations)[p]
      ensures forall p :: p in old(registrations) && p !in registrations ==>
                p in allTargets && old(OwnedManifest(registrations[p]))
      ensures o.Completed? ==> NothingTrusted() && !rootExists && receipt.None? && transaction.None? && master.None?
      ensures !o.Interrupted? && old(ManifestsCovered()) ==> NothingInPlace()
      ensures stores.Keys == old(stores).Keys && forall k, n :: k in stores && n in old(stores)[k] ==>
                if n in stores[k] then stores[k][n] == old(stores)[k][n]
                else old(OwnedCertificate(n, stores[k][n], confirmed))
      ensures old(rootExists && receipt.None? && transaction.None?) ==>
                !o.Completed? && NothingTrusted() && rootExists && master == old(master) && stores == old(stores)
    {
      hide ManifestsCovered, NothingTrusted, NothingInPlace, HashRecorded, HashInMaster, OwnedCertificate;
      UnrecordedIsUntrusted();
      o := RemoveBrowserManifests();
      if !o.Completed? { return; }
      if rootExists && receipt.None? && transaction.None? { return Refused; }
      if * { return Interrupted; }
      o := RemoveRecordedTrust(confirmed);
      if !o.Completed? { return; }
      o := RemoveRoot();
      NothingIsCovered();
    }

    lemma UnrecordedIsUntrusted()
      requires Valid()
      ensures receipt.None? && transaction.None? ==> NothingTrusted()
    {
    }

    lemma NothingIsCovered()
      ensures NothingInPlace() ==> ManifestsCovered() && ManifestsRecorded()
    {
    }

    // ---- every sequence of attempts ----

    /** Other programs change manifests and trust stores, but do not put this program's back. */
    predicate Foreign(others: map<string, Bytes>, otherStores: map<string, map<string, Cert>>)
      reads this`registrations, this`stores, this`written, this`added
    {
      (forall w :: w in written && w.0 in others && others[w.0] == w.1 ==>
        w.0 in registrations && registrations[w.0] == w.1) &&
      (forall a :: (a in added && a.store in otherStores && a.name in otherStores[a.store] &&
                    otherStores[a.store][a.name] == a.cert) ==>
        a.store in stores && a.name in stores[a.store] && stores[a.store][a.name] == a.cert)
    }

    method Environment(others: map<string, Bytes>, otherStores: map<string, map<string, Cert>>)
      requires Valid() && Foreign(others, otherStores)
      modifies this`registrations, this`stores
      ensures Valid()
      ensures old(ManifestsRecorded()) ==> ManifestsRecorded()
      ensures old(ManifestsCovered()) ==> ManifestsCovered()
    {
      registrations, stores := others, otherStores;
    }

    method AttemptOrStep() returns (removed: bool)
      requires Valid()
      modifies this
      ensures Valid() && (removed ==> NothingTrusted()) && old(added) <= added && old(written) <= written
    {
      removed := false;
      if * {
        var selected: set<string>, manifest: Bytes, ca: Cert, resolved: string := *, *, *, *;
        if selected <= allTargets {
          var _ := Apply(selected, manifest, ca, resolved);
        }
      } else if * {
        var confirmed: Option<Cert> := *;
        var o := Uninstall(confirmed);
        removed := o.Completed?;
      } else {
        var others: map<string, Bytes>, otherStores: map<string, map<string, Cert>> := *, *;
        if Foreign(others, otherStores) {
          Environment(others, otherStores);
        }
      }
    }

    /** However many attempts and foreign steps come before, in whatever order and wherever each stops, an
        uninstall that completes leaves no certificate trusted that any of them added. */
    method Lifetime(steps: nat, confirmed: Option<Cert>) returns (o: Outcome)
      requires Valid()
      modifies this
      ensures Valid() && (o.Completed? ==> NothingTrusted()) && old(added) <= added && old(written) <= written
    {
      for i := 0 to steps
        invariant Valid() && old(added) <= added && old(written) <= written
      {
        var _ := AttemptOrStep();
      }
      o := Uninstall(confirmed);
    }

    /** From a clean or committed installation, one attempt, stopped at any step, and the uninstall after it: unless
        that is interrupted, no manifest that was ever written is in place, also where it refuses because the attempt
        stopped before its transaction. */
    method AttemptThenUninstall(
      selected: set<string>, manifest: Bytes, ca: Cert, resolved: string, confirmed: Option<Cert>)
      returns (o: Outcome)
      requires Valid() && ManifestsRecorded() && selected <= allTargets
      modifies this
      ensures Valid() && old(added) <= added && old(written) <= written
      ensures !o.Interrupted? ==> NothingInPlace() && ManifestsRecorded()
      ensures o.Completed? ==> NothingTrusted()
    {
      hide ManifestsRecorded, ManifestsCovered, Valid, NothingTrusted, NothingInPlace;
      var _ := Apply(selected, manifest, ca, resolved);
      o := Uninstall(confirmed);
      NothingIsCovered();
    }
  }
}
