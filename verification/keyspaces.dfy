/** Contents of an ordered keyspace of formatted keys, the prefix scans over
    it, and the table that the keys of one prefix stand for.
 */
module Keyspaces {
  import opened Wrappers
  import opened PaddedKeys
  import opened OrderedMaps
  import opened Tables

  type Contents = map<string, Bytes>

  lemma LexOrder()
    ensures StrictOrder(LexLess)
  {
    forall a, b, c | LexLess(a, b) && LexLess(b, c) ensures LexLess(a, c) {
      LexTransitive(a, b, c);
    }
    forall a ensures !LexLess(a, a) {
      LexAsymmetric(a, a);
    }
    forall a, b | a != b ensures LexLess(a, b) || LexLess(b, a) {
      LexAsymmetric(a, b);
    }
  }

  function HasPrefix(prefix: string): string -> bool { key => prefix <= key }

  /** `keyspace.prefix(prefix)`: the matching entries in byte order. */
  function PrefixScan(ks: Contents, prefix: string): seq<(string, Bytes)> {
    LexOrder();
    Listing(Restrict(ks, HasPrefix(prefix)), LexLess)
  }

  /** `filter_map(into_key_value(..).ok())`: entries whose key has no number are skipped. */
  function KeyValues(s: seq<(string, Bytes)>): seq<Entry> {
    if s == [] then []
    else
      (match ParseKey(s[0].0)
       case Some(k) => [(k, s[0].1)]
       case None => [])
      + KeyValues(s[1..])
  }

  function PrefixIterator(ks: Contents, prefix: string): seq<Entry> {
    KeyValues(PrefixScan(ks, prefix))
  }

  /** A key that is not stored. */
  datatype Error = EntryNotFound(key: string)

  // ---------- what a store means ----------

  /** The table a store stands for: its own formatted keys, numbered. */
  ghost function View(ks: Contents, prefix: string): Table {
    map k: u64 | FormatKey(prefix, k) in ks :: ks[FormatKey(prefix, k)]
  }

  ghost predicate IsKeyOf(prefix: string, key: string) {
    exists k: u64 :: k < PADDED_LIMIT && key == FormatKey(prefix, k)
  }

  /** Every key the prefix scan meets was written by this store, below the
      padded limit. */
  ghost predicate Clean(ks: Contents, prefix: string) {
    forall key | key in ks && prefix <= key :: IsKeyOf(prefix, key)
  }

  /** A key of a clean scan is the format of the number it parses to. */
  lemma KeyParts(prefix: string, key: string) returns (k: u64)
    requires IsKeyOf(prefix, key)
    ensures k < PADDED_LIMIT && key == FormatKey(prefix, k) && ParseKey(key) == Some(k)
  {
    k :| k < PADDED_LIMIT && key == FormatKey(prefix, k);
    ParseFormat(prefix, k);
  }

  /** What a numbered scan yields, for any keyspace and prefix: exactly the entries
      that start with the prefix and whose key has a number; others are skipped. */
  lemma PrefixIteratorExact(ks: Contents, prefix: string, k: u64, v: Bytes)
    ensures (k, v) in PrefixIterator(ks, prefix) <==>
            exists key :: key in ks && prefix <= key && ParseKey(key) == Some(k) && ks[key] == v
  {
    hide ParseKey, LexLess, KeyValues;
    var s, r := PrefixScan(ks, prefix), Restrict(ks, HasPrefix(prefix));
    ScanContents(ks, prefix);
    KeyValuesMember(s, k, v);
    if i :| 0 <= i < |s| && ParseKey(s[i].0) == Some(k) && s[i].1 == v {
      assert s[i].0 in r;
    }
    if key :| key in ks && prefix <= key && ParseKey(key) == Some(k) && ks[key] == v {
      assert (key, r[key]) in s;
    }
  }

  lemma {:induction false} KeyValuesMember(s: seq<(string, Bytes)>, k: u64, v: Bytes)
    ensures (k, v) in KeyValues(s) <==>
            exists i :: 0 <= i < |s| && ParseKey(s[i].0) == Some(k) && s[i].1 == v
  {
    hide ParseKey;
    if s != [] {
      KeyValuesMember(s[1..], k, v);
      if i :| 0 <= i < |s| && ParseKey(s[i].0) == Some(k) && s[i].1 == v {
        assert i == 0 || s[1..][i - 1] == s[i];
      }
    }
  }

  /** The entries of a scan keep their order. */
  lemma {:induction false} KeyValuesConcat(s: seq<(string, Bytes)>, t: seq<(string, Bytes)>)
    ensures KeyValues(s + t) == KeyValues(s) + KeyValues(t)
  {
    hide KeyValues, ParseKey;
    if s == [] {
      KeyValuesNone();
      assert s + t == t;
    } else {
      KeyValuesConcat(s[1..], t);
      assert (s + t)[0] == s[0] && (s + t)[1..] == s[1..] + t;
      KeyValuesHead(s);
      KeyValuesHead(s + t);
      Regroup(KeyValues([s[0]]), KeyValues(s[1..]), KeyValues(t));
    }
  }

  lemma KeyValuesNone()
    ensures KeyValues([]) == []
  {
  }

  lemma KeyValuesHead(s: seq<(string, Bytes)>)
    requires s != []
    ensures KeyValues(s) == KeyValues([s[0]]) + KeyValues(s[1..])
  {
    hide ParseKey;
    assert [s[0]][1..] == [];
    KeyValuesNone();
  }

  lemma Regroup<T>(a: seq<T>, b: seq<T>, c: seq<T>)
    ensures a + (b + c) == (a + b) + c
  {
  }

  /** Writing one formatted key updates the table. */
  lemma PutView(ks: Contents, p: string, k: u64, v: Bytes)
    requires Clean(ks, p) && k < PADDED_LIMIT
    ensures Clean(ks[FormatKey(p, k) := v], p)
    ensures View(ks[FormatKey(p, k) := v], p) == View(ks, p)[k := v]
  {
    hide FormatKey;
    forall j: u64 ensures FormatKey(p, j) == FormatKey(p, k) <==> j == k {
      FormatInjective(p, j, k);
    }
  }

  /** Removing one removes the number. */
  lemma DelView(ks: Contents, p: string, k: u64)
    requires Clean(ks, p)
    ensures Clean(ks - {FormatKey(p, k)}, p)
    ensures View(ks - {FormatKey(p, k)}, p) == View(ks, p) - {k}
  {
    hide FormatKey;
    forall j: u64 ensures FormatKey(p, j) == FormatKey(p, k) <==> j == k {
      FormatInjective(p, j, k);
    }
  }

  /** `s` holds the formatted keys of the entries `e`. */
  ghost predicate Formatted(prefix: string, s: seq<(string, Bytes)>, e: seq<Entry>) {
    && |e| == |s|
    && forall i | 0 <= i < |s| :: IsFormat(prefix, s[i], e[i])
  }

  ghost predicate IsFormat(prefix: string, x: (string, Bytes), e: Entry) {
    e.0 < PADDED_LIMIT && x.0 == FormatKey(prefix, e.0) && x.1 == e.1
  }

  lemma {:induction false} KeyValuesFormatted(s: seq<(string, Bytes)>, prefix: string)
    requires forall i | 0 <= i < |s| :: IsKeyOf(prefix, s[i].0)
    ensures Formatted(prefix, s, KeyValues(s))
  {
    if s != [] {
      KeyValuesFormatted(s[1..], prefix);
      var k := KeyParts(prefix, s[0].0);
      var e := KeyValues(s);
      assert e == [(k, s[0].1)] + KeyValues(s[1..]);
      forall i | 0 <= i < |s| ensures IsFormat(prefix, s[i], e[i]) {
        if i > 0 {
          assert IsFormat(prefix, s[1..][i - 1], KeyValues(s[1..])[i - 1]);
        }
      }
    }
  }

  lemma FormattedAscending(s: seq<(string, Bytes)>, e: seq<Entry>, prefix: string)
    requires Formatted(prefix, s, e) && Ascending(s, LexLess)
    ensures Ascending(e, NumLess)
  {
    forall i, j | 0 <= i < j < |e| ensures NumLess(e[i].0, e[j].0) {
      assert LexLess(s[i].0, s[j].0);
      assert IsFormat(prefix, s[i], e[i]) && IsFormat(prefix, s[j], e[j]);
      OrderPreserved(prefix, e[i].0, e[j].0);
    }
  }

  lemma ScanContents(ks: Contents, prefix: string)
    ensures IsListing(Restrict(ks, HasPrefix(prefix)), PrefixScan(ks, prefix), LexLess)
  {
    LexOrder();
  }

  lemma ScanFormatted(ks: Contents, prefix: string)
    requires Clean(ks, prefix)
    ensures Formatted(prefix, PrefixScan(ks, prefix), PrefixIterator(ks, prefix))
  {
    var s := PrefixScan(ks, prefix);
    ScanContents(ks, prefix);
    forall i | 0 <= i < |s| ensures IsKeyOf(prefix, s[i].0) {
      assert s[i].0 in Restrict(ks, HasPrefix(prefix));
    }
    KeyValuesFormatted(s, prefix);
  }

  lemma FormattedCovers(ks: Contents, prefix: string, e: seq<Entry>, k: u64)
    requires Formatted(prefix, PrefixScan(ks, prefix), e)
    requires k in View(ks, prefix)
    ensures (k, View(ks, prefix)[k]) in e
  {
    var s := PrefixScan(ks, prefix);
    ScanContents(ks, prefix);
    var key := FormatKey(prefix, k);
    var r := Restrict(ks, HasPrefix(prefix));
    assert key in r;
    assert (key, r[key]) in s;
    var i :| 0 <= i < |s| && s[i] == (key, r[key]);
    assert IsFormat(prefix, s[i], e[i]);
    FormatInjective(prefix, k, e[i].0);
    assert e[i] == (k, r[key]);
  }

  lemma ScanLists(ks: Contents, prefix: string)
    requires Clean(ks, prefix)
    ensures IsListing(View(ks, prefix), PrefixIterator(ks, prefix), NumLess)
    ensures forall i | 0 <= i < |PrefixIterator(ks, prefix)| :: PrefixIterator(ks, prefix)[i].0 < PADDED_LIMIT
  {
    var s, e, t := PrefixScan(ks, prefix), PrefixIterator(ks, prefix), View(ks, prefix);
    ScanContents(ks, prefix);
    ScanFormatted(ks, prefix);
    FormattedAscending(s, e, prefix);
    forall k | k in t ensures (k, t[k]) in e {
      FormattedCovers(ks, prefix, e, k);
    }
    forall i | 0 <= i < |e| ensures e[i].0 in t && t[e[i].0] == e[i].1 && e[i].0 < PADDED_LIMIT {
      assert IsFormat(prefix, s[i], e[i]);
      assert s[i].0 in Restrict(ks, HasPrefix(prefix));
    }
  }

  /** The numbered scan of a clean store lists its table in numeric order:
      parsing undoes formatting and byte order is numeric order. */
  lemma ScanIsTable(ks: Contents, prefix: string)
    requires Clean(ks, prefix)
    ensures PrefixIterator(ks, prefix) == Entries(View(ks, prefix))
    ensures |PrefixIterator(ks, prefix)| <= PADDED_LIMIT as nat
  {
    NumOrder();
    ScanLists(ks, prefix);
    var e, t := PrefixIterator(ks, prefix), View(ks, prefix);
    if e != [] {
      PositionBound(e, |e| - 1);
    }
    hide PrefixIterator, View, Clean, IsListing, StrictOrder;
    ListingUnique(t, e, Entries(t), NumLess);
  }

  /** The last formatted key parses to the last number. */
  lemma LastFormatted(s: seq<(string, Bytes)>, e: seq<Entry>, prefix: string)
    requires Formatted(prefix, s, e) && s != []
    ensures ParseKey(s[|s| - 1].0) == Some(e[|e| - 1].0) && s[|s| - 1].1 == e[|e| - 1].1
  {
    assert IsFormat(prefix, s[|s| - 1], e[|e| - 1]);
    ParseFormat(prefix, e[|e| - 1].0);
  }
}
