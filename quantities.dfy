/** The order form's quantity records (`Record<string, number>`), kept in
    insertion order: the order `Object.entries` gives for keys that are not
    array indices. */
module Quantities {
  import opened JsText
  import opened SeqUtil

  datatype Entry = Entry(key: string, qty: int)

  type Quantities = seq<Entry>

  function Keys(m: Quantities): (ks: seq<string>)
    ensures |ks| == |m| && forall i :: 0 <= i < |m| ==> ks[i] == m[i].key
  {
    if m == [] then [] else [m[0].key] + Keys(m[1..])
  }

  /** A record never holds the same key twice. */
  predicate UniqueKeys(m: Quantities) {
    forall i, j :: 0 <= i < j < |m| ==> m[i].key != m[j].key
  }

  /** `m[k]`; None stands for `undefined`. */
  function Lookup(m: Quantities, k: string): (r: Option<int>)
    ensures r.None? <==> forall i :: 0 <= i < |m| ==> m[i].key != k
    ensures r.Some? ==> Entry(k, r.value) in m
  {
    if m == [] then None
    else if m[0].key == k then Some(m[0].qty)
    else Lookup(m[1..], k)
  }

  /** `{...m, [k]: v}`: an existing key keeps its place, a new key goes last. */
  function Put(m: Quantities, k: string, v: int): (r: Quantities)
    ensures |r| == |m| || |r| == |m| + 1
    ensures Entry(k, v) in r
    ensures forall e :: e in r ==> e in m || e == Entry(k, v)
  {
    if m == [] then [Entry(k, v)]
    else if m[0].key == k then [Entry(k, v)] + m[1..]
    else [m[0]] + Put(m[1..], k, v)
  }

  /** Writing a key sets exactly that key; every other key reads as before. */
  lemma {:induction false} PutLookup(m: Quantities, k: string, v: int, j: string)
    ensures Lookup(Put(m, k, v), j) == if j == k then Some(v) else Lookup(m, j)
  {
    if m != [] && m[0].key != k {
      PutLookup(m[1..], k, v, j);
    }
  }

  /** Writing a key never duplicates one. */
  lemma {:induction false} PutUnique(m: Quantities, k: string, v: int)
    requires UniqueKeys(m)
    ensures UniqueKeys(Put(m, k, v))
  {
    if m != [] && m[0].key != k {
      PutUnique(m[1..], k, v);
      var r := Put(m, k, v);
      forall i | 0 < i < |r|
        ensures r[i].key != m[0].key
      {
        PutLookup(m[1..], k, v, m[0].key);
        assert Lookup(m[1..], m[0].key).None?;
        assert r[i] == Put(m[1..], k, v)[i - 1];
      }
    }
  }

  /** Overwriting keeps the key order; a new key is appended. */
  lemma {:induction false} PutOrder(m: Quantities, k: string, v: int)
    ensures Lookup(m, k).Some? ==> Keys(Put(m, k, v)) == Keys(m)
    ensures Lookup(m, k).None? ==> Put(m, k, v) == m + [Entry(k, v)]
  {
    if m != [] && m[0].key != k {
      PutOrder(m[1..], k, v);
      assert m == [m[0]] + m[1..];
    }
  }

  /** In a record without repeated keys, each entry is what its key reads. */
  lemma {:induction false} LookupEntries(m: Quantities)
    requires UniqueKeys(m)
    ensures forall i :: 0 <= i < |m| ==> Lookup(m, m[i].key) == Some(m[i].qty)
  {
    if m != [] {
      LookupEntries(m[1..]);
      forall i | 1 <= i < |m|
        ensures Lookup(m, m[i].key) == Some(m[i].qty)
      {
        assert m[i] == m[1..][i - 1];
      }
    }
  }

  /** `Object.values(m).some(qty => qty > 0)`: some key reads as a positive
      quantity. */
  predicate HasPositive(m: Quantities)
    ensures (exists k :: Lookup(m, k).Some? && Lookup(m, k).value > 0) ==> HasPositive(m)
  {
    exists i :: 0 <= i < |m| && m[i].qty > 0
  }

  /** In a record without repeated keys, some value is positive exactly when
      some key reads as a positive quantity. */
  lemma HasPositiveLookup(m: Quantities)
    requires UniqueKeys(m)
    ensures HasPositive(m) <==> exists k :: Lookup(m, k).Some? && Lookup(m, k).value > 0
  {
    LookupEntries(m);
    if HasPositive(m) {
      var i :| 0 <= i < |m| && m[i].qty > 0;
      assert Lookup(m, m[i].key).Some? && Lookup(m, m[i].key).value > 0;
    }
  }

  predicate IsPositive(e: Entry) {
    e.qty > 0
  }

  /** `Object.entries(m).filter(([_, qty]) => qty > 0)`: only positive
      entries, and some exactly when the record has a positive value. */
  function Positive(m: Quantities): (r: Quantities)
    ensures |r| <= |m|
    ensures forall i :: 0 <= i < |r| ==> r[i].qty > 0 && r[i] in m
    ensures r != [] <==> HasPositive(m)
  {
    FilterMembers(IsPositive, m);
    assert HasPositive(m) ==> Filter(IsPositive, m) != [] by {
      if HasPositive(m) {
        var i :| 0 <= i < |m| && m[i].qty > 0;
        assert m[i] in Filter(IsPositive, m);
      }
    }
    Filter(IsPositive, m)
  }

  /** The kept entries are exactly the positive ones (zeros and negatives are
      dropped), in the record's order; there are some iff the record has a
      positive value. */
  lemma PositiveEntries(m: Quantities)
    ensures forall e :: e in Positive(m) <==> e in m && e.qty > 0
    ensures IsSubsequence(Positive(m), m)
    ensures Positive(m) != [] <==> HasPositive(m)
  {
    FilterMembers(IsPositive, m);
    if HasPositive(m) {
      var i :| 0 <= i < |m| && m[i].qty > 0;
      assert m[i] in Positive(m);
    }
  }
}
