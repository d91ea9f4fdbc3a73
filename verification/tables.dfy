/** What a store means: one sorted map from sequence numbers to bytes. Each
    iteration is described on the submap it ranges over, not as a pipeline.
 */
module Tables {
  import opened Wrappers
  import opened PaddedKeys
  import opened OrderedMaps

  type Table = map<u64, Bytes>

  type Entry = (u64, Bytes)

  datatype IteratorOptions =
    | Reverse(from: Option<u64>, count: Option<u64>)
    | Forward(from: Option<u64>, count: Option<u64>)
    | Range(lower: u64, to: Option<u64>)

  predicate NumLess(a: u64, b: u64) { a < b }

  lemma NumOrder()
    ensures StrictOrder(NumLess)
  {
  }

  function AtLeast(from: u64): u64 -> bool { k => from <= k }

  function AtMost(to: u64): u64 -> bool { k => k <= to }

  function Between(from: u64, to: u64): u64 -> bool { k => from <= k <= to }

  function OrElse<T>(o: Option<T>, default: T): T {
    match o case Some(v) => v case None => default
  }

  /** All entries by ascending number. */
  function Entries(t: Table): (s: seq<Entry>)
    ensures IsListing(t, s, NumLess)
  {
    NumOrder();
    Listing(t, NumLess)
  }

  /** The first `count` answers, or all of them. */
  function Limit(s: seq<Entry>, count: Option<u64>): seq<Entry> {
    match count case Some(n) => Take(s, n as nat) case None => s
  }

  /** The entries an iteration yields, in order. */
  function Answer(t: Table, o: IteratorOptions): seq<Entry> {
    match o
    case Forward(from, count) => Limit(Entries(Restrict(t, AtLeast(OrElse(from, 0)))), count)
    case Reverse(from, count) => Limit(Reversed(Entries(Restrict(t, AtMost(OrElse(from, U64_MAX))))), count)
    case Range(from, to) => Entries(Restrict(t, Between(from, OrElse(to, U64_MAX))))
  }

  /** The entry with the greatest number. */
  ghost predicate IsLast(t: Table, last: Option<Entry>) {
    match last
    case None => t == map[]
    case Some((k, v)) => k in t && t[k] == v && forall j | j in t :: j <= k
  }

  function Lookup(t: Table, k: u64): Option<Bytes> {
    if k in t then Some(t[k]) else None
  }

  /** The same iteration without a limit on the answers. */
  function Unlimited(o: IteratorOptions): IteratorOptions {
    match o
    case Forward(from, _) => Forward(from, None)
    case Reverse(from, _) => Reverse(from, None)
    case Range(_, _) => o
  }

  /** Which entries an iteration yields, and in which order: those within its
      inclusive bounds, each once, ascending, in reverse descending; a limit keeps
      the first of them. */
  lemma AnswerExact(t: Table, o: IteratorOptions)
    ensures var all := Answer(t, Unlimited(o));
            && (forall i, j | 0 <= i < j < |all| :: if o.Reverse? then all[j].0 < all[i].0 else all[i].0 < all[j].0)
            && (forall k, v :: (k, v) in all <==>
                  k in t && t[k] == v
                  && match o
                     case Forward(from, _) => from.None? || from.value <= k
                     case Reverse(from, _) => from.None? || k <= from.value
                     case Range(from, to) => from <= k && (to.None? || k <= to.value))
    ensures var r, all := Answer(t, o), Answer(t, Unlimited(o));
            if !o.Range? && o.count.Some? && o.count.value as nat < |all| then r == all[..o.count.value as nat]
            else r == all
  {
    hide Answer, Unlimited;
    AnswerLimit(t, o);
    AnswerOrder(t, o);
    forall k, v
      ensures (k, v) in Answer(t, Unlimited(o)) <==>
                k in t && t[k] == v
                && match o
                   case Forward(from, _) => from.None? || from.value <= k
                   case Reverse(from, _) => from.None? || k <= from.value
                   case Range(from, to) => from <= k && (to.None? || k <= to.value)
    {
      AnswerMember(t, o, k, v);
    }
  }

  lemma EntriesMember(t: Table, keep: u64 -> bool, k: u64, v: Bytes)
    ensures (k, v) in Entries(Restrict(t, keep)) <==> k in t && t[k] == v && keep(k)
    ensures (k, v) in Reversed(Entries(Restrict(t, keep))) <==> k in t && t[k] == v && keep(k)
  {
    hide Listing, Reversed;
    var r := Restrict(t, keep);
    var s := Entries(r);
    ReversedMember(s, (k, v));
    assert (k, v) in s <==> k in r && r[k] == v;
  }

  lemma ReversedMember<T>(s: seq<T>, x: T)
    ensures x in Reversed(s) <==> x in s
  {
    var r := Reversed(s);
    if x in s {
      var i :| 0 <= i < |s| && s[i] == x;
      assert r[|s| - 1 - i] == x;
    }
    hide Reversed;
  }

  lemma EntriesAscend(t: Table)
    ensures var s := Entries(t); forall i, j | 0 <= i < j < |s| :: s[i].0 < s[j].0
    ensures var s := Reversed(Entries(t)); forall i, j | 0 <= i < j < |s| :: s[j].0 < s[i].0
  {
    var s := Entries(t);
    hide Entries, Reversed;
    forall i, j | 0 <= i < j < |s| ensures s[i].0 < s[j].0 {
      assert NumLess(s[i].0, s[j].0);
    }
  }

  lemma AnswerMember(t: Table, o: IteratorOptions, k: u64, v: Bytes)
    ensures (k, v) in Answer(t, Unlimited(o)) <==>
              k in t && t[k] == v
              && match o
                 case Forward(from, _) => from.None? || from.value <= k
                 case Reverse(from, _) => from.None? || k <= from.value
                 case Range(from, to) => from <= k && (to.None? || k <= to.value)
  {
    hide Entries, Reversed;
    match o
    case Forward(from, _) => EntriesMember(t, AtLeast(OrElse(from, 0)), k, v);
    case Reverse(from, _) => EntriesMember(t, AtMost(OrElse(from, U64_MAX)), k, v);
    case Range(from, to) => EntriesMember(t, Between(from, OrElse(to, U64_MAX)), k, v);
  }

  lemma AnswerOrder(t: Table, o: IteratorOptions)
    ensures var all := Answer(t, Unlimited(o));
            forall i, j | 0 <= i < j < |all| :: if o.Reverse? then all[j].0 < all[i].0 else all[i].0 < all[j].0
  {
    hide Entries, Reversed;
    match o
    case Forward(from, _) => EntriesAscend(Restrict(t, AtLeast(OrElse(from, 0))));
    case Reverse(from, _) => EntriesAscend(Restrict(t, AtMost(OrElse(from, U64_MAX))));
    case Range(from, to) => EntriesAscend(Restrict(t, Between(from, OrElse(to, U64_MAX))));
  }

  lemma AnswerLimit(t: Table, o: IteratorOptions)
    ensures var r, all := Answer(t, o), Answer(t, Unlimited(o));
            if !o.Range? && o.count.Some? && o.count.value as nat < |all| then r == all[..o.count.value as nat]
            else r == all
  {
    hide Entries, Reversed, Restrict;
  }

  // ---------- facts used by the backends ----------

  /** Ascending numbers are never behind their position. */
  lemma {:induction false} PositionBound(s: seq<Entry>, i: nat)
    requires Ascending(s, NumLess) && i < |s|
    ensures i <= s[i].0 as nat
  {
    if i > 0 {
      PositionBound(s, i - 1);
      assert NumLess(s[i - 1].0, s[i].0);
    }
  }

  lemma LastOfEntries(t: Table)
    ensures var s := Entries(t); IsLast(t, if s == [] then None else Some(s[|s| - 1]))
  {
    var s := Entries(t);
    if s == [] {
      EmptyListing(t, s, NumLess);
    } else {
      forall j | j in t ensures j <= s[|s| - 1].0 {
        assert (j, t[j]) in s;
        var i :| 0 <= i < |s| && s[i] == (j, t[j]);
        assert i == |s| - 1 || NumLess(s[i].0, s[|s| - 1].0);
      }
    }
  }

  lemma LastUnique(t: Table, a: Option<Entry>, b: Option<Entry>)
    requires IsLast(t, a) && IsLast(t, b)
    ensures a == b
  {
  }

  lemma FilterEntries(t: Table, keep: u64 -> bool)
    ensures Filter(Entries(t), keep) == Entries(Restrict(t, keep))
  {
    NumOrder();
    FilterListing(t, keep, NumLess);
  }

  lemma SameRestriction(t: Table, f: u64 -> bool, g: u64 -> bool)
    requires forall k | k in t :: f(k) == g(k)
    ensures Restrict(t, f) == Restrict(t, g)
  {
  }

  lemma TakeDefault(s: seq<Entry>, count: Option<u64>)
    requires |s| <= PADDED_LIMIT as nat
    ensures Take(s, OrElse(count, U64_MAX) as nat) == Limit(s, count)
  {
  }
}
