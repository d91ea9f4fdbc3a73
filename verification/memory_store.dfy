/** The in-memory store: one ordered map for each pair of name and prefix. */
module MemoryStores {
  import opened Wrappers
  import opened PaddedKeys
  import opened OrderedMaps
  import opened Tables
  import opened Keyspaces

  // ---------- operations on the contents of one map ----------

  /** `iter_prefix`: all entries in key order, filtered and numbered. */
  function IterPrefix(data: Contents, prefix: string): seq<Entry> {
    LexOrder();
    KeyValues(Filter(Listing(data, LexLess), HasPrefix(prefix)))
  }

  /** `iter().rev().find_map(..)`: the last key that has a number, whatever its prefix. */
  function LastParsed(s: seq<(string, Bytes)>): Option<Entry> {
    if s == [] then None
    else
      match ParseKey(s[|s| - 1].0)
      case Some(k) => Some((k, s[|s| - 1].1))
      case None => LastParsed(s[..|s| - 1])
  }

  function MemoryLast(data: Contents): Option<Entry> {
    LexOrder();
    LastParsed(Listing(data, LexLess))
  }

  function MemoryIter(data: Contents, prefix: string, o: IteratorOptions): seq<Entry> {
    Select(IterPrefix(data, prefix), o)
  }

  /** The iterator built over the collected entries. */
  function Select(entries: seq<Entry>, o: IteratorOptions): seq<Entry> {
    var size := AsU64(|entries|);
    match o
    case Forward(from, count) =>
      Take(Filter(entries, AtLeast(OrElse(from, 0))), OrElse(count, size) as nat)
    case Reverse(from, count) =>
      if entries == [] then []
      else
        var last := entries[|entries| - 1].0;
        Take(Filter(Reversed(entries), AtMost(OrElse(from, last))), OrElse(count, size) as nat)
    case Range(from, to) =>
      if entries == [] then []
      else
        var to := OrElse(to, entries[|entries| - 1].0);
        if from > to then [] else Filter(entries, Between(from, to))
  }

  // ---------- the objects ----------

  /** The shared, locked map behind every clone of a store. */
  class MemoryData {
    var entries: Contents

    constructor ()
      ensures entries == map[]
    {
      entries := map[];
    }
  }

  class MemoryStore {
    const name: string
    const prefix: string
    const data: MemoryData

    constructor (name: string, prefix: string, data: MemoryData)
      ensures this.name == name && this.prefix == prefix && this.data == data
    {
      this.name := name;
      this.prefix := prefix;
      this.data := data;
    }

    function Get(key: u64): (r: Result<Bytes, Error>)
      reads data
      ensures r == match Lookup(View(data.entries, prefix), key)
                   case Some(v) => Ok(v)
                   case None => Err(EntryNotFound(FormatKey(prefix, key)))
    {
      var k := FormatKey(prefix, key);
      if k in data.entries then Ok(data.entries[k]) else Err(EntryNotFound(k))
    }

    function Last(): Option<Entry>
      reads data
    {
      MemoryLast(data.entries)
    }

    function Iter(o: IteratorOptions): seq<Entry>
      reads data
    {
      MemoryIter(data.entries, prefix, o)
    }

    method Put(key: u64, value: Bytes)
      modifies data
      ensures data.entries == old(data.entries)[FormatKey(prefix, key) := value]
      ensures old(Own(data.entries, prefix)) && key < PADDED_LIMIT ==>
                Own(data.entries, prefix)
                && View(data.entries, prefix) == old(View(data.entries, prefix))[key := value]
    {
      if Own(data.entries, prefix) && key < PADDED_LIMIT {
        OwnIsClean(data.entries, prefix);
        PutView(data.entries, prefix, key, value);
      }
      data.entries := data.entries[FormatKey(prefix, key) := value];
    }

    method Del(key: u64)
      modifies data
      ensures data.entries == old(data.entries) - {FormatKey(prefix, key)}
      ensures old(Own(data.entries, prefix)) ==>
                Own(data.entries, prefix)
                && View(data.entries, prefix) == old(View(data.entries, prefix)) - {key}
    {
      if Own(data.entries, prefix) {
        OwnIsClean(data.entries, prefix);
        DelView(data.entries, prefix, key);
      }
      data.entries := data.entries - {FormatKey(prefix, key)};
    }

    method Purge()
      modifies data
      ensures data.entries == map[] && Own(data.entries, prefix) && View(data.entries, prefix) == map[]
    {
      data.entries := map[];
    }
  }

  class MemoryDbManager {
    var data: map<(string, string), MemoryData>

    /** Different names or prefixes never share a map. */
    ghost predicate Valid()
      reads this
    {
      forall a, b | a in data && b in data && a != b :: data[a] != data[b]
    }

    constructor ()
      ensures Valid() && data == map[]
    {
      data := map[];
    }

    method CreateStore(name: string, prefix: string) returns (store: MemoryStore)
      requires Valid()
      modifies this
      ensures Valid() && fresh(store)
      ensures store.name == name && store.prefix == prefix
      ensures data == old(data)[(name, prefix) := store.data]
      ensures (name, prefix) in old(data) ==> store.data == old(data)[(name, prefix)]
      ensures (name, prefix) !in old(data) ==> fresh(store.data) && store.data.entries == map[]
    {
      if (name, prefix) !in data {
        var d := new MemoryData();
        data := data[(name, prefix) := d];
      }
      store := new MemoryStore(name, prefix, data[(name, prefix)]);
    }
  }

  // ---------- answers ----------

  /** All keys of the map were written by this store, below the padded limit. */
  ghost predicate Own(data: Contents, prefix: string) {
    forall key | key in data :: IsKeyOf(prefix, key)
  }

  lemma OwnIsClean(data: Contents, prefix: string)
    requires Own(data, prefix)
    ensures Clean(data, prefix)
    ensures Restrict(data, HasPrefix(prefix)) == data
  {
    forall key | key in data ensures prefix <= key {
      var k := KeyParts(prefix, key);
    }
  }

  lemma IterPrefixIsTable(data: Contents, prefix: string)
    requires Clean(data, prefix)
    ensures IterPrefix(data, prefix) == Entries(View(data, prefix))
    ensures |IterPrefix(data, prefix)| <= PADDED_LIMIT as nat
  {
    IterPrefixIsScan(data, prefix);
    ScanIsTable(data, prefix);
  }

  lemma TakeSize(s: seq<Entry>, count: Option<u64>, size: u64)
    requires |s| <= size as nat
    ensures Take(s, OrElse(count, size) as nat) == Limit(s, count)
  {
  }

  lemma EntriesEmpty(t: Table)
    ensures Entries(t) == [] <==> t == map[]
  {
    NumOrder();
  }

  lemma SelectForward(t: Table, from: Option<u64>, count: Option<u64>)
    requires |Entries(t)| <= PADDED_LIMIT as nat
    ensures Select(Entries(t), Forward(from, count)) == Answer(t, Forward(from, count))
  {
    var e, keep := Entries(t), AtLeast(OrElse(from, 0));
    FilterEntries(t, keep);
    FilterShorter(e, keep);
    TakeSize(Filter(e, keep), count, AsU64(|e|));
  }

  lemma SelectReverse(t: Table, from: Option<u64>, count: Option<u64>)
    requires |Entries(t)| <= PADDED_LIMIT as nat
    ensures Select(Entries(t), Reverse(from, count)) == Answer(t, Reverse(from, count))
  {
    var e, bound := Entries(t), AtMost(OrElse(from, U64_MAX));
    EntriesEmpty(t);
    if e == [] {
      EntriesEmpty(Restrict(t, bound));
    } else {
      LastOfEntries(t);
      var keep := AtMost(OrElse(from, e[|e| - 1].0));
      FilterReversed(e, keep);
      FilterEntries(t, keep);
      FilterShorter(e, keep);
      SameRestriction(t, keep, bound);
      TakeSize(Reversed(Filter(e, keep)), count, AsU64(|e|));
    }
  }

  lemma SelectRange(t: Table, from: u64, to: Option<u64>)
    ensures Select(Entries(t), Range(from, to)) == Answer(t, Range(from, to))
  {
    var e, bound := Entries(t), Between(from, OrElse(to, U64_MAX));
    if e == [] {
      EntriesEmpty(t);
      EntriesEmpty(Restrict(t, bound));
    } else {
      LastOfEntries(t);
      var last := e[|e| - 1].0;
      var keep := Between(from, OrElse(to, last));
      assert forall k | k in t :: k <= last;
      assert forall k | k in t :: keep(k) == bound(k);
      hide Entries, Filter, IsListing, IsLast;
      SameRestriction(t, keep, bound);
      FilterEntries(t, keep);
      if from > OrElse(to, last) {
        assert Restrict(t, keep) == map[];
        EntriesEmpty(Restrict(t, keep));
      }
    }
  }

  /** A memory store that holds its own keys answers as its table does. */
  lemma MemoryAnswers(data: Contents, prefix: string, o: IteratorOptions)
    requires Own(data, prefix)
    ensures MemoryIter(data, prefix, o) == Answer(View(data, prefix), o)
    ensures IsLast(View(data, prefix), MemoryLast(data))
  {
    var t := View(data, prefix);
    OwnIsClean(data, prefix);
    IterPrefixIsTable(data, prefix);
    match o {
      case Forward(from, count) => SelectForward(t, from, count);
      case Reverse(from, count) => SelectReverse(t, from, count);
      case Range(from, to) => SelectRange(t, from, to);
    }
    MemoryLastIsLast(data, prefix);
  }

  lemma MemoryLastEntry(data: Contents, prefix: string)
    requires Own(data, prefix)
    ensures var e := Entries(View(data, prefix));
            MemoryLast(data) == if e == [] then None else Some(e[|e| - 1])
  {
    var s := PrefixScan(data, prefix);
    OwnIsClean(data, prefix);
    ScanIsTable(data, prefix);
    ScanFormatted(data, prefix);
    if s != [] {
      LastFormatted(s, PrefixIterator(data, prefix), prefix);
    }
  }

  lemma MemoryLastIsLast(data: Contents, prefix: string)
    requires Own(data, prefix)
    ensures IsLast(View(data, prefix), MemoryLast(data))
  {
    MemoryLastEntry(data, prefix);
    LastOfEntries(View(data, prefix));
  }

  /** What `last` is, for any contents: the entry of the greatest key in byte order
      that has a number, whatever its prefix. */
  lemma MemoryLastExact(data: Contents, k: u64, v: Bytes)
    ensures MemoryLast(data) == Some((k, v)) <==>
            exists last :: last in data && ParseKey(last) == Some(k) && data[last] == v
                           && forall key | key in data && ParseKey(key).Some? :: key == last || LexLess(key, last)
  {
    hide ParseKey, LexLess, LastParsed, Listing;
    LexOrder();
    var s := Listing(data, LexLess);
    LastParsedAt(s);
    if i: nat :| LastNumbered(s, i) {
      NumberedIsGreatest(data, s, i);
      forall last | last in data && ParseKey(last) == Some(k)
                    && forall key | key in data && ParseKey(key).Some? :: key == last || LexLess(key, last)
        ensures last == s[i].0
      {
        LexAsymmetric(last, s[i].0);
      }
    } else {
      forall key | key in data ensures ParseKey(key).None? {
        assert (key, data[key]) in s;
      }
    }
  }

  lemma NumberedIsGreatest(data: Contents, s: seq<(string, Bytes)>, i: nat)
    requires IsListing(data, s, LexLess) && LastNumbered(s, i)
    ensures s[i].0 in data && data[s[i].0] == s[i].1
    ensures forall key | key in data && ParseKey(key).Some? :: key == s[i].0 || LexLess(key, s[i].0)
  {
    hide ParseKey, LexLess;
    forall key | key in data && ParseKey(key).Some? ensures key == s[i].0 || LexLess(key, s[i].0) {
      assert (key, data[key]) in s;
      var j :| 0 <= j < |s| && s[j] == (key, data[key]);
      assert j == i || LexLess(s[j].0, s[i].0);
    }
  }

  /** The last entry that has a number. */
  ghost predicate LastNumbered(s: seq<(string, Bytes)>, i: nat) {
    i < |s| && ParseKey(s[i].0).Some? && forall j | i < j < |s| :: ParseKey(s[j].0).None?
  }

  lemma {:induction false} LastParsedAt(s: seq<(string, Bytes)>)
    ensures forall i: nat | LastNumbered(s, i) :: LastParsed(s) == Some((ParseKey(s[i].0).value, s[i].1))
    ensures (forall i: nat :: !LastNumbered(s, i)) ==>
              LastParsed(s) == None && forall j | 0 <= j < |s| :: ParseKey(s[j].0).None?
  {
    hide ParseKey;
    if s != [] {
      var front := s[..|s| - 1];
      LastParsedAt(front);
      if ParseKey(s[|s| - 1].0).Some? {
        assert LastNumbered(s, |s| - 1);
        forall i: nat | LastNumbered(s, i) ensures i == |s| - 1 {
          assert i < |s|;
        }
      } else {
        forall i: nat ensures LastNumbered(front, i) <==> LastNumbered(s, i) {
          assert forall j | 0 <= j < |front| :: front[j] == s[j];
        }
      }
    }
  }

  /** The collected entries are those of the ordered keyspace's scan, for any contents. */
  lemma IterPrefixIsScan(data: Contents, prefix: string)
    ensures IterPrefix(data, prefix) == PrefixIterator(data, prefix)
  {
    LexOrder();
    FilterListing(data, HasPrefix(prefix), LexLess);
  }

  /** What an iteration without limit yields, for any contents: the collected
      entries within the bounds, where a missing upper bound is the number of the
      last collected entry. */
  lemma MemoryIterAny(data: Contents, prefix: string, o: IteratorOptions, k: u64, v: Bytes)
    requires |PrefixIterator(data, prefix)| <= 0xFFFF_FFFF_FFFF_FFFF
    ensures var iter := PrefixIterator(data, prefix);
            var top := if iter == [] then 0 else iter[|iter| - 1].0;
            (k, v) in MemoryIter(data, prefix, Unlimited(o)) <==>
            && (k, v) in iter
            && match o
               case Forward(from, _) => from.None? || from.value <= k
               case Reverse(from, _) => k <= (if from.None? then top else from.value)
               case Range(from, to) => from <= k <= (if to.None? then top else to.value)
  {
    IterPrefixIsScan(data, prefix);
    hide IterPrefix, PrefixIterator, Filter, Reversed;
    var iter := PrefixIterator(data, prefix);
    var top := if iter == [] then 0 else iter[|iter| - 1].0;
    match o
    case Forward(from, _) =>
      FilterMember(iter, AtLeast(OrElse(from, 0)), (k, v));
      FilterShorter(iter, AtLeast(OrElse(from, 0)));
    case Reverse(from, _) =>
      FilterMember(Reversed(iter), AtMost(OrElse(from, top)), (k, v));
      FilterShorter(Reversed(iter), AtMost(OrElse(from, top)));
      ReversedMember(iter, (k, v));
    case Range(from, to) =>
      FilterMember(iter, Between(from, OrElse(to, top)), (k, v));
  }

  /** What the iterations of such a store yield: exactly the stored entries within
      the inclusive bounds, ascending, in reverse descending; with a limit, the
      first of them. */
  lemma MemoryIterExact(data: Contents, prefix: string, o: IteratorOptions)
    requires Own(data, prefix)
    ensures var t, all := View(data, prefix), MemoryIter(data, prefix, Unlimited(o));
            && (forall i, j | 0 <= i < j < |all| :: if o.Reverse? then all[j].0 < all[i].0 else all[i].0 < all[j].0)
            && (forall k, v :: (k, v) in all <==>
                  k in t && t[k] == v
                  && match o
                     case Forward(from, _) => from.None? || from.value <= k
                     case Reverse(from, _) => from.None? || k <= from.value
                     case Range(from, to) => from <= k && (to.None? || k <= to.value))
    ensures var r, all := MemoryIter(data, prefix, o), MemoryIter(data, prefix, Unlimited(o));
            if !o.Range? && o.count.Some? && o.count.value as nat < |all| then r == all[..o.count.value as nat]
            else r == all
  {
    hide MemoryIter, Answer, View, Own;
    MemoryAnswers(data, prefix, o);
    MemoryAnswers(data, prefix, Unlimited(o));
    AnswerExact(View(data, prefix), o);
  }
}
