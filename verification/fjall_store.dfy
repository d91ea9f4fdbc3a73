/** The Fjall store: all stores of one name share an ordered keyspace, and a
    store scans it by its bare prefix.
 */
module FjallStores {
  import opened Wrappers
  import opened PaddedKeys
  import opened OrderedMaps
  import opened Tables
  import opened Keyspaces

  // ---------- operations on keyspace contents ----------

  function FjallLast(ks: Contents, prefix: string): Option<Entry> {
    var s := PrefixScan(ks, prefix);
    if s == [] then None
    else
      match ParseKey(s[|s| - 1].0)
      case Some(k) => Some((k, s[|s| - 1].1))
      case None => None
  }

  function LastKey(ks: Contents, prefix: string): u64 {
    match FjallLast(ks, prefix) case Some((k, _)) => k case None => 0
  }

  function FjallGet(ks: Contents, prefix: string, key: u64): Option<Bytes> {
    var k := FormatKey(prefix, key);
    if k in ks then Some(ks[k]) else None
  }

  function FjallPut(ks: Contents, prefix: string, key: u64, data: Bytes): Contents {
    ks[FormatKey(prefix, key) := data]
  }

  function FjallDel(ks: Contents, prefix: string, key: u64): Contents {
    ks - {FormatKey(prefix, key)}
  }

  /** The keyspace without the keys that start with the prefix. */
  function FjallPurge(ks: Contents, prefix: string): Contents {
    map k | k in ks && !(prefix <= k) :: ks[k]
  }

  function FjallIter(ks: Contents, prefix: string, o: IteratorOptions): seq<Entry> {
    var iter := PrefixIterator(ks, prefix);
    match o
    case Forward(from, count) =>
      Take(Filter(iter, AtLeast(OrElse(from, 0))), OrElse(count, U64_MAX) as nat)
    case Reverse(from, count) =>
      Take(Filter(Reversed(iter), AtMost(OrElse(from, LastKey(ks, prefix)))), OrElse(count, U64_MAX) as nat)
    case Range(from, to) =>
      Filter(iter, Between(from, OrElse(to, LastKey(ks, prefix))))
  }

  lemma PurgeView(ks: Contents, p: string)
    ensures Clean(FjallPurge(ks, p), p)
    ensures View(FjallPurge(ks, p), p) == map[]
  {
    forall j: u64 ensures p <= FormatKey(p, j) {
    }
  }

  // ---------- the objects ----------

  class Keyspace {
    var entries: Contents

    constructor ()
      ensures entries == map[]
    {
      entries := map[];
    }
  }

  class FjallStore {
    const name: string
    const prefix: string
    const keyspace: Keyspace

    constructor (name: string, prefix: string, keyspace: Keyspace)
      ensures this.name == name && this.prefix == prefix && this.keyspace == keyspace
    {
      this.name := name;
      this.prefix := prefix;
      this.keyspace := keyspace;
    }

    function Get(key: u64): (r: Result<Bytes, Error>)
      reads keyspace
      ensures r == match Lookup(View(keyspace.entries, prefix), key)
                   case Some(v) => Ok(v)
                   case None => Err(EntryNotFound(FormatKey(prefix, key)))
    {
      match FjallGet(keyspace.entries, prefix, key)
      case Some(v) => Ok(v)
      case None => Err(EntryNotFound(FormatKey(prefix, key)))
    }

    function Last(): Option<Entry>
      reads keyspace
    {
      FjallLast(keyspace.entries, prefix)
    }

    function Iter(o: IteratorOptions): seq<Entry>
      reads keyspace
    {
      FjallIter(keyspace.entries, prefix, o)
    }

    method Put(key: u64, data: Bytes)
      modifies keyspace
      ensures keyspace.entries == FjallPut(old(keyspace.entries), prefix, key, data)
      ensures old(Clean(keyspace.entries, prefix)) && key < PADDED_LIMIT ==>
                Clean(keyspace.entries, prefix)
                && View(keyspace.entries, prefix) == old(View(keyspace.entries, prefix))[key := data]
    {
      if Clean(keyspace.entries, prefix) && key < PADDED_LIMIT {
        PutView(keyspace.entries, prefix, key, data);
      }
      keyspace.entries := keyspace.entries[FormatKey(prefix, key) := data];
    }

    method Del(key: u64)
      modifies keyspace
      ensures keyspace.entries == FjallDel(old(keyspace.entries), prefix, key)
      ensures old(Clean(keyspace.entries, prefix)) ==>
                Clean(keyspace.entries, prefix)
                && View(keyspace.entries, prefix) == old(View(keyspace.entries, prefix)) - {key}
    {
      if Clean(keyspace.entries, prefix) {
        DelView(keyspace.entries, prefix, key);
      }
      keyspace.entries := keyspace.entries - {FormatKey(prefix, key)};
    }

    /** Removes the scanned keys one by one. */
    method Purge()
      modifies keyspace
      ensures keyspace.entries == FjallPurge(old(keyspace.entries), prefix)
      ensures Clean(keyspace.entries, prefix) && View(keyspace.entries, prefix) == map[]
    {
      hide PrefixScan, View, Clean;
      PurgeView(keyspace.entries, prefix);
      var iter := PrefixScan(keyspace.entries, prefix);
      for i := 0 to |iter|
        invariant forall k :: k in keyspace.entries <==>
                              k in old(keyspace.entries) && forall j | 0 <= j < i :: iter[j].0 != k
        invariant forall k | k in keyspace.entries :: keyspace.entries[k] == old(keyspace.entries)[k]
      {
        keyspace.entries := keyspace.entries - {iter[i].0};
      }
      ghost var before := old(keyspace.entries);
      forall k | k in before ensures k in keyspace.entries <==> !(prefix <= k) {
        ScanMember(before, prefix, k);
      }
    }
  }

  class FjallDbManager {
    var keyspaces: map<string, Keyspace>

    /** Different names never share a keyspace. */
    ghost predicate Valid()
      reads this
    {
      forall a, b | a in keyspaces && b in keyspaces && a != b :: keyspaces[a] != keyspaces[b]
    }

    constructor ()
      ensures Valid() && keyspaces == map[]
    {
      keyspaces := map[];
    }

    /** Opens the keyspace of that name, shared by all prefixes. */
    method CreateStore(name: string, prefix: string) returns (store: FjallStore)
      requires Valid()
      modifies this
      ensures Valid() && fresh(store)
      ensures store.name == name && store.prefix == prefix
      ensures keyspaces == old(keyspaces)[name := store.keyspace]
      ensures name in old(keyspaces) ==> store.keyspace == old(keyspaces)[name]
      ensures name !in old(keyspaces) ==> fresh(store.keyspace) && store.keyspace.entries == map[]
    {
      if name !in keyspaces {
        var k := new Keyspace();
        keyspaces := keyspaces[name := k];
      }
      store := new FjallStore(name, prefix, keyspaces[name]);
    }
  }

  lemma ScanMember(ks: Contents, prefix: string, k: string)
    requires k in ks
    ensures prefix <= k <==> exists j :: 0 <= j < |PrefixScan(ks, prefix)| && PrefixScan(ks, prefix)[j].0 == k
  {
    hide LexLess;
    LexOrder();
    var s := PrefixScan(ks, prefix);
    var r := Restrict(ks, HasPrefix(prefix));
    if prefix <= k {
      assert (k, r[k]) in s;
    }
  }

  // ---------- answers ----------

  /** What `last` is, for any keyspace and prefix: the entry of the greatest key in
      byte order that starts with the prefix, if that key has a number. */
  lemma FjallLastExact(ks: Contents, prefix: string, k: u64, v: Bytes)
    ensures FjallLast(ks, prefix) == Some((k, v)) <==>
            exists last :: IsGreatestKey(ks, prefix, last) && ParseKey(last) == Some(k) && ks[last] == v
  {
    hide ParseKey, LexLess, PrefixScan;
    var s := PrefixScan(ks, prefix);
    forall last | IsGreatestKey(ks, prefix, last) ensures s != [] {
      ScannedKey(ks, prefix, last);
    }
    if s != [] {
      LastIsGreatestKey(ks, prefix);
      forall last | IsGreatestKey(ks, prefix, last) ensures last == s[|s| - 1].0 {
        LexAsymmetric(last, s[|s| - 1].0);
      }
    }
  }

  lemma LastIsGreatestKey(ks: Contents, prefix: string)
    requires PrefixScan(ks, prefix) != []
    ensures var s := PrefixScan(ks, prefix);
            IsGreatestKey(ks, prefix, s[|s| - 1].0) && ks[s[|s| - 1].0] == s[|s| - 1].1
  {
    hide LexLess;
    var s, r := PrefixScan(ks, prefix), Restrict(ks, HasPrefix(prefix));
    ScanContents(ks, prefix);
    hide PrefixScan;
    var top := s[|s| - 1].0;
    assert top in r && r[top] == s[|s| - 1].1;
    forall key | key in ks && prefix <= key ensures key == top || LexLess(key, top) {
      assert (key, r[key]) in s;
      var i :| 0 <= i < |s| && s[i] == (key, r[key]);
      assert i == |s| - 1 || LexLess(s[i].0, top);
    }
  }

  lemma ScannedKey(ks: Contents, prefix: string, key: string)
    requires key in ks && prefix <= key
    ensures PrefixScan(ks, prefix) != []
  {
    hide PrefixScan, LexLess;
    ScanContents(ks, prefix);
    assert key in Restrict(ks, HasPrefix(prefix));
    EmptyListing(Restrict(ks, HasPrefix(prefix)), PrefixScan(ks, prefix), LexLess);
  }

  /** The last key in byte order of those with the prefix. */
  ghost predicate IsGreatestKey(ks: Contents, prefix: string, last: string) {
    last in ks && prefix <= last && forall key | key in ks && prefix <= key :: key == last || LexLess(key, last)
  }

  /** What an iteration without limit yields, for any keyspace: the entries of the
      numbered scan within the bounds, where a missing upper bound is the number of
      the last key, or zero if it has none. */
  lemma FjallIterAny(ks: Contents, prefix: string, o: IteratorOptions, k: u64, v: Bytes)
    requires |PrefixIterator(ks, prefix)| <= 0xFFFF_FFFF_FFFF_FFFF
    ensures (k, v) in FjallIter(ks, prefix, Unlimited(o)) <==>
            && (k, v) in PrefixIterator(ks, prefix)
            && var top := match FjallLast(ks, prefix) case Some((m, _)) => m case None => 0;
               match o
               case Forward(from, _) => from.None? || from.value <= k
               case Reverse(from, _) => k <= (if from.None? then top else from.value)
               case Range(from, to) => from <= k <= (if to.None? then top else to.value)
  {
    hide PrefixIterator, FjallLast, Filter, Reversed;
    var iter := PrefixIterator(ks, prefix);
    match o
    case Forward(from, _) =>
      FilterMember(iter, AtLeast(OrElse(from, 0)), (k, v));
      FilterShorter(iter, AtLeast(OrElse(from, 0)));
    case Reverse(from, _) =>
      var keep := AtMost(OrElse(from, LastKey(ks, prefix)));
      FilterMember(Reversed(iter), keep, (k, v));
      FilterShorter(Reversed(iter), keep);
      ReversedMember(iter, (k, v));
    case Range(from, to) =>
      FilterMember(iter, Between(from, OrElse(to, LastKey(ks, prefix))), (k, v));
  }

  lemma FjallLastEntry(ks: Contents, prefix: string)
    requires Clean(ks, prefix)
    ensures var e := Entries(View(ks, prefix));
            FjallLast(ks, prefix) == if e == [] then None else Some(e[|e| - 1])
  {
    var s := PrefixScan(ks, prefix);
    ScanIsTable(ks, prefix);
    ScanFormatted(ks, prefix);
    if s != [] {
      LastFormatted(s, PrefixIterator(ks, prefix), prefix);
    }
  }

  /** The last stored key of a clean store carries its greatest number. */
  lemma FjallLastIsLast(ks: Contents, prefix: string)
    requires Clean(ks, prefix)
    ensures IsLast(View(ks, prefix), FjallLast(ks, prefix))
  {
    FjallLastEntry(ks, prefix);
    LastOfEntries(View(ks, prefix));
  }

  /** The default bounds of a scan keep everything. */
  lemma DefaultBounds(ks: Contents, prefix: string)
    requires Clean(ks, prefix)
    ensures forall k | k in View(ks, prefix) :: k <= LastKey(ks, prefix)
  {
    FjallLastIsLast(ks, prefix);
  }

  lemma ForwardAnswer(ks: Contents, prefix: string, from: Option<u64>, count: Option<u64>)
    requires Clean(ks, prefix)
    ensures FjallIter(ks, prefix, Forward(from, count)) == Answer(View(ks, prefix), Forward(from, count))
  {
    var t, iter, keep := View(ks, prefix), PrefixIterator(ks, prefix), AtLeast(OrElse(from, 0));
    ScanIsTable(ks, prefix);
    FilterEntries(t, keep);
    FilterShorter(iter, keep);
    TakeDefault(Filter(iter, keep), count);
  }

  lemma ReverseAnswer(ks: Contents, prefix: string, from: Option<u64>, count: Option<u64>)
    requires Clean(ks, prefix)
    ensures FjallIter(ks, prefix, Reverse(from, count)) == Answer(View(ks, prefix), Reverse(from, count))
  {
    var t, iter := View(ks, prefix), PrefixIterator(ks, prefix);
    var keep := AtMost(OrElse(from, LastKey(ks, prefix)));
    ScanIsTable(ks, prefix);
    DefaultBounds(ks, prefix);
    FilterReversed(iter, keep);
    FilterEntries(t, keep);
    FilterShorter(iter, keep);
    TakeDefault(Reversed(Filter(iter, keep)), count);
    SameRestriction(t, keep, AtMost(OrElse(from, U64_MAX)));
  }

  lemma RangeAnswer(ks: Contents, prefix: string, from: u64, to: Option<u64>)
    requires Clean(ks, prefix)
    ensures FjallIter(ks, prefix, Range(from, to)) == Answer(View(ks, prefix), Range(from, to))
  {
    hide Filter, Clean, View, PrefixIterator, LastKey;
    var t := View(ks, prefix);
    var up := OrElse(to, LastKey(ks, prefix));
    ScanIsTable(ks, prefix);
    DefaultBounds(ks, prefix);
    FilterEntries(t, Between(from, up));
    SameRestriction(t, Between(from, up), Between(from, OrElse(to, U64_MAX)));
    assert FjallIter(ks, prefix, Range(from, to)) == Filter(Entries(t), Between(from, up));
  }

  /** A clean Fjall store answers every iteration as its table does. */
  lemma FjallAnswers(ks: Contents, prefix: string, o: IteratorOptions)
    requires Clean(ks, prefix)
    ensures FjallIter(ks, prefix, o) == Answer(View(ks, prefix), o)
  {
    match o
    case Forward(from, count) => ForwardAnswer(ks, prefix, from, count);
    case Reverse(from, count) => ReverseAnswer(ks, prefix, from, count);
    case Range(from, to) => RangeAnswer(ks, prefix, from, to);
  }

  /** What the iterations of such a store yield: exactly the stored entries within
      the inclusive bounds, ascending, in reverse descending; with a limit, the
      first of them. */
  lemma FjallIterExact(ks: Contents, prefix: string, o: IteratorOptions)
    requires Clean(ks, prefix)
    ensures var t, all := View(ks, prefix), FjallIter(ks, prefix, Unlimited(o));
            && (forall i, j | 0 <= i < j < |all| :: if o.Reverse? then all[j].0 < all[i].0 else all[i].0 < all[j].0)
            && (forall k, v :: (k, v) in all <==>
                  k in t && t[k] == v
                  && match o
                     case Forward(from, _) => from.None? || from.value <= k
                     case Reverse(from, _) => from.None? || k <= from.value
                     case Range(from, to) => from <= k && (to.None? || k <= to.value))
    ensures var r, all := FjallIter(ks, prefix, o), FjallIter(ks, prefix, Unlimited(o));
            if !o.Range? && o.count.Some? && o.count.value as nat < |all| then r == all[..o.count.value as nat]
            else r == all
  {
    hide FjallIter, Answer, View, Clean;
    FjallAnswers(ks, prefix, o);
    FjallAnswers(ks, prefix, Unlimited(o));
    AnswerExact(View(ks, prefix), o);
  }
}
