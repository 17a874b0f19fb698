/**
 * The insertion-ordered JavaScript `Map`, as the sequence of its entries.
 * Setting a key that is present replaces its value in place; setting a new key
 * appends.
 */
module OrderedMap {
  import opened Wrappers

  type Entries<V> = seq<(string, V)>

  function Get<V>(m: Entries<V>, key: string): Option<V> {
    if m == [] then None
    else if m[0].0 == key then Some(m[0].1)
    else Get(m[1..], key)
  }

  predicate Has<V>(m: Entries<V>, key: string) {
    Get(m, key).Some?
  }

  function Put<V>(m: Entries<V>, key: string, value: V): Entries<V> {
    if m == [] then [(key, value)]
    else if m[0].0 == key then [(key, value)] + m[1..]
    else [m[0]] + Put(m[1..], key, value)
  }

  /** `new Map(entries)` continued from `m`: the entries are set one by one. */
  function PutAll<V>(m: Entries<V>, entries: Entries<V>): Entries<V>
    decreases |entries|
  {
    if entries == [] then m
    else PutAll(Put(m, entries[0].0, entries[0].1), entries[1..])
  }

  function FromEntries<V>(entries: Entries<V>): Entries<V> {
    PutAll([], entries)
  }

  /** The entries of `m` whose key `other` does not have, in order. */
  function Without<V, W>(m: Entries<V>, other: Entries<W>): Entries<V> {
    if m == [] then []
    else if Has(other, m[0].0) then Without(m[1..], other)
    else [m[0]] + Without(m[1..], other)
  }

  /** No key occurs twice. */
  predicate Distinct<V>(m: Entries<V>) {
    m != [] ==> !Has(m[1..], m[0].0) && Distinct(m[1..])
  }

  lemma {:induction false} GetOfPut<V>(m: Entries<V>, key: string, value: V, k: string)
    ensures Get(Put(m, key, value), k) == if k == key then Some(value) else Get(m, k)
  {
    if m != [] && m[0].0 != key {
      GetOfPut(m[1..], key, value, k);
      assert Put(m, key, value)[1..] == Put(m[1..], key, value);
    }
  }

  lemma {:induction false} PutKeepsDistinct<V>(m: Entries<V>, key: string, value: V)
    requires Distinct(m)
    ensures Distinct(Put(m, key, value))
  {
    if m != [] && m[0].0 != key {
      PutKeepsDistinct(m[1..], key, value);
      GetOfPut(m[1..], key, value, m[0].0);
      assert Put(m, key, value)[1..] == Put(m[1..], key, value);
    } else if m != [] {
      assert Put(m, key, value)[1..] == m[1..];
    }
  }

  lemma {:induction false} PutOfNewKey<V>(m: Entries<V>, key: string, value: V)
    requires !Has(m, key)
    ensures Put(m, key, value) == m + [(key, value)]
  {
    if m != [] {
      PutOfNewKey(m[1..], key, value);
      assert [m[0]] + (m[1..] + [(key, value)]) == m + [(key, value)];
    }
  }

  lemma {:induction false} GetOfConcat<V>(a: Entries<V>, b: Entries<V>, k: string)
    ensures Get(a + b, k) == if Has(a, k) then Get(a, k) else Get(b, k)
  {
    if a == [] {
      assert a + b == b;
    } else {
      assert (a + b)[1..] == a[1..] + b;
      GetOfConcat(a[1..], b, k);
    }
  }

  /** Two key-disjoint maps with distinct keys concatenate to one. */
  lemma {:induction false} ConcatDistinct<V>(a: Entries<V>, b: Entries<V>)
    requires Distinct(a) && Distinct(b)
    requires forall k :: Has(a, k) ==> !Has(b, k)
    ensures Distinct(a + b)
  {
    if a == [] {
      assert a + b == b;
    } else {
      assert (a + b)[1..] == a[1..] + b;
      forall k | Has(a[1..], k) ensures !Has(b, k) {
        assert Has(a, k);
      }
      ConcatDistinct(a[1..], b);
      GetOfConcat(a[1..], b, a[0].0);
      assert Has(a, a[0].0);
    }
  }

  lemma {:induction false} ConcatDistinctInv<V>(a: Entries<V>, b: Entries<V>)
    requires Distinct(a + b)
    ensures Distinct(a) && Distinct(b)
    ensures forall k :: Has(a, k) ==> !Has(b, k)
  {
    if a == [] {
      assert a + b == b;
    } else {
      assert (a + b)[1..] == a[1..] + b;
      ConcatDistinctInv(a[1..], b);
      GetOfConcat(a[1..], b, a[0].0);
    }
  }

  /** Building a map from entries with distinct keys keeps exactly those entries, in order. */
  lemma {:induction false} PutAllOfDistinct<V>(m: Entries<V>, entries: Entries<V>)
    requires Distinct(m + entries)
    ensures PutAll(m, entries) == m + entries
    decreases |entries|
  {
    if entries == [] {
      assert m + entries == m;
    } else {
      ConcatDistinctInv(m, entries);
      assert Has(entries, entries[0].0);
      PutOfNewKey(m, entries[0].0, entries[0].1);
      assert (m + [(entries[0].0, entries[0].1)]) + entries[1..] == m + entries;
      PutAllOfDistinct(m + [(entries[0].0, entries[0].1)], entries[1..]);
    }
  }

  lemma {:induction false} GetOfWithout<V, W>(m: Entries<V>, other: Entries<W>, k: string)
    ensures Get(Without(m, other), k) == if Has(other, k) then None else Get(m, k)
  {
    if m != [] {
      GetOfWithout(m[1..], other, k);
      if !Has(other, m[0].0) {
        assert Without(m, other)[1..] == Without(m[1..], other);
      }
    }
  }

  lemma {:induction false} WithoutDistinct<V, W>(m: Entries<V>, other: Entries<W>)
    requires Distinct(m)
    ensures Distinct(Without(m, other))
  {
    if m != [] {
      WithoutDistinct(m[1..], other);
      if !Has(other, m[0].0) {
        assert Without(m, other)[1..] == Without(m[1..], other);
        GetOfWithout(m[1..], other, m[0].0);
      }
    }
  }

  /** Removing keys that are absent changes nothing. */
  lemma {:induction false} WithoutAbsent<V, W>(m: Entries<V>, other: Entries<W>)
    requires forall k :: Has(m, k) ==> !Has(other, k)
    ensures Without(m, other) == m
  {
    if m != [] {
      assert Has(m, m[0].0);
      forall k | Has(m[1..], k) ensures !Has(other, k) {
        assert Has(m, k);
      }
      WithoutAbsent(m[1..], other);
    }
  }

  lemma {:induction false} WithoutOfConcat<V, W>(a: Entries<V>, b: Entries<V>, other: Entries<W>)
    ensures Without(a + b, other) == Without(a, other) + Without(b, other)
  {
    if a == [] {
      assert a + b == b;
    } else {
      assert (a + b)[1..] == a[1..] + b;
      WithoutOfConcat(a[1..], b, other);
    }
  }

  /** Removing two sets of keys in turn is removing both at once. */
  lemma {:induction false} WithoutTwice<V, W>(m: Entries<V>, x: Entries<W>, y: Entries<W>)
    ensures Without(Without(m, x), y) == Without(m, y + x)
  {
    if m != [] {
      WithoutTwice(m[1..], x, y);
      GetOfConcat(y, x, m[0].0);
      if !Has(x, m[0].0) {
        assert Without(m, x)[1..] == Without(m[1..], x);
      }
    }
  }

  lemma {:induction false} PutAllSnoc<V>(m: Entries<V>, entries: Entries<V>, key: string, value: V)
    ensures PutAll(m, entries + [(key, value)]) == Put(PutAll(m, entries), key, value)
    decreases |entries|
  {
    var all := entries + [(key, value)];
    if entries == [] {
      assert all[1..] == [];
    } else {
      assert all[1..] == entries[1..] + [(key, value)];
      PutAllSnoc(Put(m, entries[0].0, entries[0].1), entries[1..], key, value);
    }
  }

  /** `new Map([...m.entries(), [key, value]])` sets one key of a copy of `m`. */
  lemma FromEntriesSnoc<V>(m: Entries<V>, key: string, value: V)
    requires Distinct(m)
    ensures FromEntries(m + [(key, value)]) == Put(m, key, value)
  {
    PutAllSnoc([], m, key, value);
    assert [] + m == m;
    PutAllOfDistinct([], m);
  }
}
