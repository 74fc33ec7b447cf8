/** The ownership records of the installer: how their hash histories are merged and checked. */
module InstallerRecords {
  import opened Basics

  /** What a receipt and a pre-trust transaction both hold, as far as ownership goes: `targets` stands for
      the manifest paths of the selected browsers. */
  datatype Record = Record(
    targets: set<string>, manifest: string, ownedManifests: seq<string>, sha1: string, sha256: string,
    ownedSha1s: seq<string>, ownedSha256s: seq<string>, store: string)

  predicate IsLowerHexDigit(c: char) {
    '0' <= c <= '9' || 'a' <= c <= 'f'
  }

  predicate IsLowerHex(s: string, length: nat) {
    |s| == length && forall i :: 0 <= i < |s| ==> IsLowerHexDigit(s[i])
  }

  function Elements(values: seq<string>): set<string> {
    set v | v in values
  }

  /** validate_hash_history: the values sorted and deduplicated are as many as the values. */
  predicate ValidHistory(values: seq<string>, length: nat, current: string) {
    values != [] && (forall v :: v in values ==> IsLowerHex(v, length)) && current in values &&
    |Elements(values)| == |values|
  }

  predicate ValidRecord(r: Record) {
    IsLowerHex(r.manifest, 64) && IsLowerHex(r.sha1, 40) && IsLowerHex(r.sha256, 64) && r.targets != {} &&
    ValidHistory(r.ownedManifests, 64, r.manifest) && ValidHistory(r.ownedSha1s, 40, r.sha1) &&
    ValidHistory(r.ownedSha256s, 64, r.sha256)
  }

  predicate Distinct(values: seq<string>) {
    forall i, j :: 0 <= i < j < |values| ==> values[i] != values[j]
  }

  lemma OneMoreElement(values: seq<string>)
    requires values != []
    ensures var n := |values| - 1;
            Elements(values) == Elements(values[..n]) + {values[n]} &&
            (values[n] in Elements(values[..n]) <==> values[n] in values[..n]) &&
            (Distinct(values) <==> Distinct(values[..n]) && values[n] !in values[..n])
  {
    var n := |values| - 1;
    assert values == values[..n] + [values[n]];
  }

  lemma {:induction false} DistinctCount(values: seq<string>)
    ensures |Elements(values)| <= |values|
    ensures |Elements(values)| == |values| <==> Distinct(values)
  {
    if values != [] {
      hide Elements, Distinct;
      var n := |values| - 1;
      DistinctCount(values[..n]);
      OneMoreElement(values);
      if values[n] in values[..n] {
        assert Elements(values) == Elements(values[..n]);
      }
    }
  }

  method PushUnique(values: seq<string>, value: string) returns (r: seq<string>)
    ensures r == if value in values then values else values + [value]
    ensures Elements(r) == Elements(values) + {value}
    ensures Distinct(values) ==> Distinct(r)
  {
    r := if value in values then values else values + [value];
  }

  method PushAll(values: seq<string>, more: seq<string>) returns (r: seq<string>)
    ensures values <= r && Elements(r) == Elements(values) + Elements(more)
    ensures Distinct(values) ==> Distinct(r)
    ensures forall v :: v in r <==> v in values || v in more
  {
    r := values;
    for i := 0 to |more|
      invariant values <= r && Elements(r) == Elements(values) + Elements(more[..i])
      invariant Distinct(values) ==> Distinct(r)
    {
      assert more[..i + 1] == more[..i] + [more[i]];
      r := PushUnique(r, more[i]);
    }
    assert more[..|more|] == more;
    forall v ensures v in r <==> v in values || v in more {
      assert v in r <==> v in Elements(r);
      assert v in values <==> v in Elements(values);
      assert v in more <==> v in Elements(more);
    }
  }

  function HistoryOf(values: Option<seq<string>>): set<string> {
    if values.Some? then Elements(values.value) else {}
  }

  /** The merged history holds both histories and the current value, each once. */
  method MergeOwnedHashes(receipt: Option<seq<string>>, transaction: Option<seq<string>>, current: string)
    returns (r: seq<string>)
    ensures Elements(r) == HistoryOf(receipt) + HistoryOf(transaction) + {current} && Distinct(r)
  {
    r := [];
    if receipt.Some? { r := PushAll(r, receipt.value); }
    if transaction.Some? { r := PushAll(r, transaction.value); }
    r := PushUnique(r, current);
  }

  predicate WellFormedHistory(values: Option<seq<string>>, length: nat) {
    values.Some? ==> forall v :: v in values.value ==> IsLowerHex(v, length)
  }

  /** A merged history passes the check that reading it back makes. */
  lemma MergedHistoryIsValid(
    receipt: Option<seq<string>>, transaction: Option<seq<string>>, current: string, r: seq<string>, length: nat)
    requires WellFormedHistory(receipt, length) && WellFormedHistory(transaction, length) && IsLowerHex(current, length)
    requires Elements(r) == HistoryOf(receipt) + HistoryOf(transaction) + {current} && Distinct(r)
    ensures ValidHistory(r, length, current)
  {
    DistinctCount(r);
    forall v | v in r ensures IsLowerHex(v, length) {
      assert v in Elements(r);
    }
    assert current in Elements(r);
  }
}
