/** Finite maps iterated in key order: what a `BTreeMap` or an ordered keyspace
    yields. The order of the keys is a parameter.
 */
module OrderedMaps {

  ghost predicate StrictOrder<K(!new)>(less: (K, K) -> bool) {
    && (forall a :: !less(a, a))
    && (forall a, b, c :: less(a, b) && less(b, c) ==> less(a, c))
    && (forall a, b :: a != b ==> less(a, b) || less(b, a))
  }

  ghost predicate Ascending<K, V>(s: seq<(K, V)>, less: (K, K) -> bool) {
    forall i, j | 0 <= i < j < |s| :: less(s[i].0, s[j].0)
  }

  /** `s` holds exactly the entries of `m`, by ascending key. */
  ghost predicate IsListing<K, V>(m: map<K, V>, s: seq<(K, V)>, less: (K, K) -> bool) {
    && Ascending(s, less)
    && (forall i | 0 <= i < |s| :: s[i].0 in m && m[s[i].0] == s[i].1)
    && (forall k | k in m :: (k, m[k]) in s)
  }

  predicate IsLeast<K(==)>(ks: set<K>, k: K, less: (K, K) -> bool) {
    k in ks && forall j | j in ks :: j == k || less(k, j)
  }

  lemma {:induction false} LeastExists<K(!new)>(ks: set<K>, less: (K, K) -> bool)
    requires StrictOrder(less) && ks != {}
    ensures exists k :: IsLeast(ks, k, less)
  {
    var k :| k in ks;
    if ks == {k} {
      assert IsLeast(ks, k, less);
    } else {
      var rest := ks - {k};
      LeastExists(rest, less);
      var l :| IsLeast(rest, l, less);
      if less(k, l) {
        forall j | j in ks && j != k ensures less(k, j) {
          assert j in rest;
        }
        assert IsLeast(ks, k, less);
      } else {
        assert IsLeast(ks, l, less);
      }
    }
  }

  function Listing<K(!new, ==), V>(m: map<K, V>, less: (K, K) -> bool): (s: seq<(K, V)>)
    requires StrictOrder(less)
    ensures IsListing(m, s, less)
    decreases |m|
  {
    if m == map[] then []
    else
      LeastExists(m.Keys, less);
      var k :| IsLeast(m.Keys, k, less);
      var rest := Listing(m - {k}, less);
      ConsListing(m, k, rest, less);
      [(k, m[k])] + rest
  }

  lemma ConsListing<K(!new), V>(m: map<K, V>, k: K, rest: seq<(K, V)>, less: (K, K) -> bool)
    requires IsLeast(m.Keys, k, less) && IsListing(m - {k}, rest, less)
    ensures IsListing(m, [(k, m[k])] + rest, less)
  {
    var s := [(k, m[k])] + rest;
    forall j | j in m ensures (j, m[j]) in s {
      if j == k {
        assert s[0] == (j, m[j]);
      } else {
        assert (j, (m - {k})[j]) in rest;
      }
    }
    forall i, j | 0 <= i < j < |s| ensures less(s[i].0, s[j].0) {
      assert s[j] == rest[j - 1];
      assert rest[j - 1].0 in m - {k};
    }
  }

  /** A map has only one listing. */
  lemma {:induction false} ListingUnique<K(!new), V>(
    m: map<K, V>, s: seq<(K, V)>, t: seq<(K, V)>, less: (K, K) -> bool)
    requires StrictOrder(less)
    requires IsListing(m, s, less) && IsListing(m, t, less)
    ensures s == t
    decreases |s|
  {
    if s == [] {
      EmptyListing(m, s, less);
    } else {
      SameHead(m, s, t, less);
      hide IsListing, StrictOrder;
      var m' := m - {s[0].0};
      TailListing(m, s, less);
      TailListing(m, t, less);
      ListingUnique(m', s[1..], t[1..], less);
      assert s == [s[0]] + s[1..] && t == [t[0]] + t[1..];
    }
  }

  lemma EmptyListing<K(!new), V>(m: map<K, V>, s: seq<(K, V)>, less: (K, K) -> bool)
    requires IsListing(m, s, less)
    ensures m != map[] ==> s != []
  {
    if m != map[] {
      var k :| k in m;
      assert (k, m[k]) in s;
    }
  }

  lemma HeadIsLeast<K(!new), V>(m: map<K, V>, s: seq<(K, V)>, t: seq<(K, V)>, less: (K, K) -> bool)
    requires StrictOrder(less)
    requires IsListing(m, s, less) && IsListing(m, t, less) && s != [] && t != []
    ensures s[0].0 == t[0].0 || less(s[0].0, t[0].0)
  {
    var k := t[0].0;
    assert (k, m[k]) in s;
    var i :| 0 <= i < |s| && s[i] == (k, m[k]);
  }

  lemma SameHead<K(!new), V>(m: map<K, V>, s: seq<(K, V)>, t: seq<(K, V)>, less: (K, K) -> bool)
    requires StrictOrder(less)
    requires IsListing(m, s, less) && IsListing(m, t, less) && s != []
    ensures t != [] && s[0] == t[0]
  {
    assert (s[0].0, m[s[0].0]) in t;
    HeadIsLeast(m, s, t, less);
    HeadIsLeast(m, t, s, less);
  }

  lemma TailListing<K(!new), V>(m: map<K, V>, s: seq<(K, V)>, less: (K, K) -> bool)
    requires StrictOrder(less)
    requires IsListing(m, s, less) && s != []
    ensures IsListing(m - {s[0].0}, s[1..], less)
  {
    var m' := m - {s[0].0};
    forall k | k in m' ensures (k, m'[k]) in s[1..] {
      assert (k, m[k]) in s;
      var i :| 0 <= i < |s| && s[i] == (k, m[k]);
      assert s[1..][i - 1] == s[i];
    }
  }

  /** The entries of `m` whose key is kept. */
  function Restrict<K, V>(m: map<K, V>, keep: K -> bool): map<K, V> {
    map k | k in m && keep(k) :: m[k]
  }

  /** `filter` on an iterator of entries. */
  function Filter<K, V>(s: seq<(K, V)>, keep: K -> bool): seq<(K, V)> {
    if s == [] then []
    else (if keep(s[0].0) then [s[0]] else []) + Filter(s[1..], keep)
  }

  lemma {:induction false} FilterMember<K, V>(s: seq<(K, V)>, keep: K -> bool, e: (K, V))
    ensures e in Filter(s, keep) <==> e in s && keep(e.0)
  {
    if s != [] {
      FilterMember(s[1..], keep, e);
      assert s == [s[0]] + s[1..];
    }
  }

  lemma {:induction false} FilterAscending<K(!new), V>(s: seq<(K, V)>, keep: K -> bool, less: (K, K) -> bool)
    requires Ascending(s, less)
    ensures Ascending(Filter(s, keep), less)
  {
    if s != [] {
      var rest := s[1..];
      FilterAscending(rest, keep, less);
      var f := Filter(rest, keep);
      forall j | 0 <= j < |f| ensures less(s[0].0, f[j].0) {
        FilterMember(rest, keep, f[j]);
        var i :| 0 <= i < |rest| && rest[i] == f[j];
        assert rest[i] == s[i + 1];
      }
    }
  }

  /** Filtering a listing lists the restricted map. */
  lemma FilterListing<K(!new), V>(m: map<K, V>, keep: K -> bool, less: (K, K) -> bool)
    requires StrictOrder(less)
    ensures Filter(Listing(m, less), keep) == Listing(Restrict(m, keep), less)
  {
    var s := Listing(m, less);
    var f := Filter(s, keep);
    var r := Restrict(m, keep);
    FilterAscending(s, keep, less);
    forall i | 0 <= i < |f| ensures f[i].0 in r && r[f[i].0] == f[i].1 {
      FilterMember(s, keep, f[i]);
    }
    forall k | k in r ensures (k, r[k]) in f {
      FilterMember(s, keep, (k, r[k]));
    }
    ListingUnique(r, f, Listing(r, less), less);
  }

  /** `take(count)` */
  function Take<T>(s: seq<T>, count: nat): seq<T> {
    if count < |s| then s[..count] else s
  }

  /** `rev()` */
  function Reversed<T>(s: seq<T>): (r: seq<T>)
    ensures |r| == |s|
    ensures forall i | 0 <= i < |s| :: r[i] == s[|s| - 1 - i]
  {
    if s == [] then [] else Reversed(s[1..]) + [s[0]]
  }

  lemma {:induction false} FilterReversed<K, V>(s: seq<(K, V)>, keep: K -> bool)
    ensures Filter(Reversed(s), keep) == Reversed(Filter(s, keep))
  {
    if s != [] {
      FilterReversed(s[1..], keep);
      FilterConcat(Reversed(s[1..]), [s[0]], keep);
      assert [s[0]][1..] == [];
      var f := Filter(s[1..], keep);
      assert ([s[0]] + f)[1..] == f;
    }
  }

  lemma {:induction false} FilterConcat<K, V>(s: seq<(K, V)>, t: seq<(K, V)>, keep: K -> bool)
    ensures Filter(s + t, keep) == Filter(s, keep) + Filter(t, keep)
  {
    if s == [] {
      assert s + t == t;
    } else {
      FilterConcat(s[1..], t, keep);
      assert (s + t)[0] == s[0] && (s + t)[1..] == s[1..] + t;
      var head := if keep(s[0].0) then [s[0]] else [];
      var a, b := Filter(s[1..], keep), Filter(t, keep);
      assert head + (a + b) == (head + a) + b;
    }
  }

  lemma {:induction false} FilterShorter<K, V>(s: seq<(K, V)>, keep: K -> bool)
    ensures |Filter(s, keep)| <= |s|
  {
    if s != [] {
      FilterShorter(s[1..], keep);
    }
  }
}
