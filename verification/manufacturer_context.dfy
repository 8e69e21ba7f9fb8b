/** The browser-side table of manufacturer names: display names keyed by
    wallet address, always stored under the `0x`-prefixed form. The table is a
    JavaScript object, so its entries keep insertion order; it is modelled as
    an association list with distinct keys. */
module ManufacturerContext {
  import opened Basics

  type Entry = (string, string)

  /** Adds the `0x` prefix unless the address already has it. */
  function Normalize(address: string): (r: string)
    ensures StartsWith(r, "0x")
    ensures r == address <==> StartsWith(address, "0x")
    ensures !StartsWith(address, "0x") ==> r[2..] == address
  {
    if StartsWith(address, "0x") then address else "0x" + address
  }

  lemma NormalizeIdempotent(address: string)
    ensures Normalize(Normalize(address)) == Normalize(address)
  {
  }

  /** An address typed with or without its prefix names the same entry. */
  lemma NormalizeIgnoresPrefix(address: string)
    requires !StartsWith(address, "0x")
    ensures Normalize("0x" + address) == Normalize(address)
  {
    assert ("0x" + address)[..2] == "0x";
  }

  // ---------------------------------------------------------------------------
  // The object as an association list

  function KeysOf(entries: seq<Entry>): (ks: seq<string>)
    ensures |ks| == |entries|
    ensures forall i :: 0 <= i < |entries| ==> ks[i] == entries[i].0
  {
    if |entries| == 0 then [] else [entries[0].0] + KeysOf(entries[1..])
  }

  ghost predicate DistinctKeys(entries: seq<Entry>)
  {
    forall i, j :: 0 <= i < j < |entries| ==> entries[i].0 != entries[j].0
  }

  /** Every key carries the `0x` prefix, as `addManufacturer` guarantees. */
  ghost predicate AllKeysCanonical(entries: seq<Entry>)
  {
    forall k :: k in KeysOf(entries) ==> StartsWith(k, "0x")
  }

  /** Property lookup: the value of the first entry with this key, if any. */
  function Lookup(entries: seq<Entry>, key: string): (r: Option<string>)
    ensures r.None? <==> key !in KeysOf(entries)
  {
    if |entries| == 0 then None
    else
      assert KeysOf(entries) == [entries[0].0] + KeysOf(entries[1..]);
      if entries[0].0 == key then Some(entries[0].1) else Lookup(entries[1..], key)
  }

  /** With distinct keys, lookup finds the one entry with that key. */
  lemma {:induction false} LookupFindsEntry(entries: seq<Entry>, i: nat)
    requires DistinctKeys(entries) && i < |entries|
    ensures Lookup(entries, entries[i].0) == Some(entries[i].1)
  {
    if i > 0 {
      LookupFindsEntry(entries[1..], i - 1);
    }
  }

  /** `{ ...prev, [key]: value }`: an existing key keeps its position and
      takes the new value; a new key goes last. */
  function Put(entries: seq<Entry>, key: string, value: string): (r: seq<Entry>)
    ensures |r| == |entries| || |r| == |entries| + 1
  {
    if |entries| == 0 then [(key, value)]
    else if entries[0].0 == key then [(key, value)] + entries[1..]
    else [entries[0]] + Put(entries[1..], key, value)
  }

  lemma {:induction false} PutKeys(entries: seq<Entry>, key: string, value: string)
    ensures key in KeysOf(entries) ==> KeysOf(Put(entries, key, value)) == KeysOf(entries)
    ensures key !in KeysOf(entries) ==> KeysOf(Put(entries, key, value)) == KeysOf(entries) + [key]
  {
    if |entries| > 0 {
      var r := Put(entries, key, value);
      assert KeysOf(entries) == [entries[0].0] + KeysOf(entries[1..]);
      assert KeysOf(r) == [r[0].0] + KeysOf(r[1..]);
      if entries[0].0 != key {
        PutKeys(entries[1..], key, value);
        assert r[1..] == Put(entries[1..], key, value);
      } else {
        assert r[1..] == entries[1..];
      }
    }
  }

  lemma {:induction false} PutLookup(entries: seq<Entry>, key: string, value: string, k: string)
    ensures Lookup(Put(entries, key, value), k) == if k == key then Some(value) else Lookup(entries, k)
  {
    if |entries| > 0 {
      var r := Put(entries, key, value);
      if entries[0].0 != key {
        PutLookup(entries[1..], key, value, k);
        assert r[1..] == Put(entries[1..], key, value);
      } else {
        assert r[1..] == entries[1..];
      }
    }
  }

  lemma PutDistinct(entries: seq<Entry>, key: string, value: string)
    ensures DistinctKeys(entries) ==> DistinctKeys(Put(entries, key, value))
  {
    var r := Put(entries, key, value);
    PutKeys(entries, key, value);
    forall i, j | DistinctKeys(entries) && 0 <= i < j < |r|
      ensures r[i].0 != r[j].0
    {
      assert KeysOf(r)[i] == r[i].0 && KeysOf(r)[j] == r[j].0;
      if j < |entries| {
        assert KeysOf(entries)[i] == entries[i].0 && KeysOf(entries)[j] == entries[j].0;
      } else {
        assert KeysOf(entries)[i] == entries[i].0;
      }
    }
  }

  /** `delete obj[key]`: drops the entry with that key and keeps the order of
      the others. */
  function Delete(entries: seq<Entry>, key: string): (r: seq<Entry>)
    ensures |r| <= |entries|
    ensures forall e :: e in r <==> e in entries && e.0 != key
    ensures key !in KeysOf(entries) ==> r == entries
  {
    if |entries| == 0 then []
    else
      assert entries == [entries[0]] + entries[1..];
      if entries[0].0 == key then Delete(entries[1..], key) else [entries[0]] + Delete(entries[1..], key)
  }

  /** `a` is `b` with some entries dropped and the rest in their old order. */
  ghost predicate IsSubsequence(a: seq<Entry>, b: seq<Entry>)
    decreases |b|
  {
    if |a| == 0 then true
    else if |b| == 0 then false
    else if a[0] == b[0] then IsSubsequence(a[1..], b[1..])
    else IsSubsequence(a, b[1..])
  }

  /** Deletion keeps the remaining entries in their old relative order. */
  lemma {:induction false} DeleteKeepsOrder(entries: seq<Entry>, key: string)
    ensures IsSubsequence(Delete(entries, key), entries)
  {
    if |entries| > 0 {
      DeleteKeepsOrder(entries[1..], key);
      if entries[0].0 == key {
        SubsequenceOfTail(Delete(entries, key), entries);
      }
    }
  }

  lemma {:induction false} SubsequenceOfTail(a: seq<Entry>, b: seq<Entry>)
    requires |b| > 0 && IsSubsequence(a, b[1..])
    ensures IsSubsequence(a, b)
    decreases |b|, 0
  {
    if |a| > 0 && a[0] == b[0] {
      SubsequenceDropHead(a, b[1..]);
    }
  }

  lemma {:induction false} SubsequenceDropHead(a: seq<Entry>, b: seq<Entry>)
    requires |a| > 0 && IsSubsequence(a, b)
    ensures IsSubsequence(a[1..], b)
    decreases |b|, 1
  {
    if |b| > 0 {
      if a[0] == b[0] {
        if |a[1..]| > 0 {
          SubsequenceOfTail(a[1..], b);
        }
      } else {
        SubsequenceDropHead(a, b[1..]);
        SubsequenceOfTail(a[1..], b);
      }
    }
  }

  lemma {:induction false} DeleteKeys(entries: seq<Entry>, key: string, k: string)
    ensures k in KeysOf(Delete(entries, key)) <==> k in KeysOf(entries) && k != key
  {
    if |entries| > 0 {
      DeleteKeys(entries[1..], key, k);
      var r := Delete(entries, key);
      assert KeysOf(entries) == [entries[0].0] + KeysOf(entries[1..]);
      if entries[0].0 != key {
        assert r[1..] == Delete(entries[1..], key);
        assert KeysOf(r) == [r[0].0] + KeysOf(r[1..]);
      }
    }
  }

  lemma {:induction false} DeleteLookup(entries: seq<Entry>, key: string, k: string)
    ensures Lookup(Delete(entries, key), k) == if k == key then None else Lookup(entries, k)
  {
    if |entries| > 0 {
      DeleteLookup(entries[1..], key, k);
      var r := Delete(entries, key);
      if entries[0].0 != key {
        assert r[1..] == Delete(entries[1..], key);
      }
      DeleteKeys(entries, key, k);
    } else {
      DeleteKeys(entries, key, k);
    }
  }

  lemma {:induction false} DeleteDistinct(entries: seq<Entry>, key: string)
    ensures DistinctKeys(entries) ==> DistinctKeys(Delete(entries, key))
  {
    if |entries| > 0 && DistinctKeys(entries) {
      DeleteDistinct(entries[1..], key);
      var r := Delete(entries, key);
      if entries[0].0 != key {
        var tail := Delete(entries[1..], key);
        assert r[1..] == tail;
        forall j | 0 <= j < |tail|
          ensures tail[j].0 != entries[0].0
        {
          assert tail[j] in entries[1..];
        }
      }
    }
  }

  // ---------------------------------------------------------------------------
  // The context's operations

  /** `addManufacturer`: sets the name under the prefixed address, keeping
      the keys distinct and prefixed. */
  function AddManufacturer(entries: seq<Entry>, address: string, name: string): (r: seq<Entry>)
    ensures Lookup(r, Normalize(address)) == Some(name)
    ensures DistinctKeys(entries) ==> DistinctKeys(r)
    ensures AllKeysCanonical(entries) ==> AllKeysCanonical(r)
  {
    PutLookup(entries, Normalize(address), name, Normalize(address));
    PutKeys(entries, Normalize(address), name);
    PutDistinct(entries, Normalize(address), name);
    Put(entries, Normalize(address), name)
  }

  /** `removeManufacturer`: deletes the entry under the prefixed address. */
  function RemoveManufacturer(entries: seq<Entry>, address: string): (r: seq<Entry>)
    ensures Lookup(r, Normalize(address)) == None
    ensures forall e :: e in r <==> e in entries && e.0 != Normalize(address)
    ensures Normalize(address) !in KeysOf(entries) ==> r == entries
    ensures IsSubsequence(r, entries)
    ensures DistinctKeys(entries) ==> DistinctKeys(r)
  {
    DeleteKeepsOrder(entries, Normalize(address));
    DeleteLookup(entries, Normalize(address), Normalize(address));
    DeleteDistinct(entries, Normalize(address));
    Delete(entries, Normalize(address))
  }

  /** `getManufacturerName`: no name for a missing or empty address, an
      unknown address, or a stored empty name (`|| null`). */
  function GetManufacturerName(entries: seq<Entry>, address: Option<string>): (r: Option<string>)
    ensures address.None? || address == Some("") ==> r.None?
    ensures r.Some? ==> r.value != "" && Lookup(entries, Normalize(address.value)) == r
    ensures (address.Some? && address.value != "" && Lookup(entries, Normalize(address.value)).Some?
             && Lookup(entries, Normalize(address.value)).value != "") ==> r.Some?
  {
    match address
    case None => None
    case Some(a) =>
      if a == "" then None
      else
        match Lookup(entries, Normalize(a))
        case Some(name) => if name == "" then None else Some(name)
        case None => None
  }

  /** A name added under an address is what that address then reads back,
      typed with or without its prefix; every other address reads as before. */
  lemma GetAfterAdd(entries: seq<Entry>, address: string, name: string, other: string)
    requires address != "" && name != ""
    ensures GetManufacturerName(AddManufacturer(entries, address, name), Some(address)) == Some(name)
    ensures !StartsWith(address, "0x") ==>
              GetManufacturerName(AddManufacturer(entries, address, name), Some("0x" + address)) == Some(name)
    ensures Normalize(other) != Normalize(address) ==>
              GetManufacturerName(AddManufacturer(entries, address, name), Some(other))
              == GetManufacturerName(entries, Some(other))
  {
    if !StartsWith(address, "0x") {
      NormalizeIgnoresPrefix(address);
    }
    PutLookup(entries, Normalize(address), name, Normalize(other));
  }

  /** After a removal the address reads as unknown, with or without prefix,
      and every other address reads as before. */
  lemma GetAfterRemove(entries: seq<Entry>, address: string, other: string)
    ensures GetManufacturerName(RemoveManufacturer(entries, address), Some(address)) == None
    ensures !StartsWith(address, "0x") ==>
              GetManufacturerName(RemoveManufacturer(entries, address), Some("0x" + address)) == None
    ensures Normalize(other) != Normalize(address) ==>
              GetManufacturerName(RemoveManufacturer(entries, address), Some(other))
              == GetManufacturerName(entries, Some(other))
  {
    if !StartsWith(address, "0x") {
      NormalizeIgnoresPrefix(address);
    }
    DeleteLookup(entries, Normalize(address), Normalize(other));
  }

  lemma RemoveKeepsKeysCanonical(entries: seq<Entry>, address: string)
    requires AllKeysCanonical(entries)
    ensures AllKeysCanonical(RemoveManufacturer(entries, address))
  {
    forall k | k in KeysOf(RemoveManufacturer(entries, address))
      ensures StartsWith(k, "0x")
    {
      DeleteKeys(entries, Normalize(address), k);
    }
  }

  datatype ManufacturerRow = ManufacturerRow(address: string, name: string)

  /** `getAllManufacturers`: one row per entry, in the object's order. */
  method GetAllManufacturers(entries: seq<Entry>) returns (rows: seq<ManufacturerRow>)
    ensures |rows| == |entries|
    ensures forall i :: 0 <= i < |rows| ==> rows[i] == ManufacturerRow(entries[i].0, entries[i].1)
    ensures forall i :: 0 <= i < |rows| ==> rows[i].address == KeysOf(entries)[i]
    ensures forall i :: 0 <= i < |rows| ==> Lookup(entries, rows[i].address).Some?
    ensures DistinctKeys(entries) ==>
              forall i :: 0 <= i < |rows| ==> Lookup(entries, rows[i].address) == Some(rows[i].name)
  {
    rows := [];
    var i := 0;
    while i < |entries|
      invariant 0 <= i <= |entries| && |rows| == i
      invariant forall j :: 0 <= j < i ==> rows[j] == ManufacturerRow(entries[j].0, entries[j].1)
    {
      rows := rows + [ManufacturerRow(entries[i].0, entries[i].1)];
      i := i + 1;
    }
    forall j | 0 <= j < |rows|
      ensures Lookup(entries, rows[j].address).Some?
      ensures DistinctKeys(entries) ==> Lookup(entries, rows[j].address) == Some(rows[j].name)
    {
      assert KeysOf(entries)[j] == rows[j].address;
      if DistinctKeys(entries) {
        LookupFindsEntry(entries, j);
      }
    }
  }
}
