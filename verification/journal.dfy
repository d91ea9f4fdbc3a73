/** The journal: a dense log of events over a store, numbered from zero. */
module Journals {
  import opened Wrappers
  import opened PaddedKeys
  import opened OrderedMaps
  import opened Tables
  import opened Keyspaces
  import opened FjallStores
  import opened Backends
  import opened Frames

  // ---------- dense contents ----------

  /** The table of a log: event `i` under number `i`. */
  ghost function TableOf(log: seq<Bytes>): Table {
    map k: u64 | Numbers(log, k) :: log[k as nat]
  }

  predicate Numbers(log: seq<Bytes>, k: u64) { k as nat < |log| }

  /** The store holds exactly the events of `log`, numbered from zero. */
  ghost predicate Stores(ks: Contents, prefix: string, log: seq<Bytes>) {
    Clean(ks, prefix) && View(ks, prefix) == TableOf(log) && |log| <= PADDED_LIMIT as nat
  }

  /** Entries `lo` to `hi - 1` of a log with their numbers. */
  function Numbered(log: seq<Bytes>, lo: nat, hi: nat): (s: seq<Entry>)
    requires hi <= |log| <= PADDED_LIMIT as nat
    ensures |s| == if lo < hi then hi - lo else 0
    ensures forall i | 0 <= i < |s| :: s[i] == ((lo + i) as u64, log[lo + i])
  {
    if lo < hi then seq(hi - lo, i requires 0 <= i < hi - lo => ((lo + i) as u64, log[lo + i])) else []
  }

  lemma NumberedIsListing(log: seq<Bytes>, lo: u64, up: u64)
    requires |log| <= PADDED_LIMIT as nat
    ensures Entries(Restrict(TableOf(log), Between(lo, up))) == Numbered(log, lo as nat, Upper(log, up))
  {
    hide TableOf, Restrict, Numbered, IsListing, Between, Listing;
    NumOrder();
    NumberedLists(log, lo, up);
    var t, s := Restrict(TableOf(log), Between(lo, up)), Numbered(log, lo as nat, Upper(log, up));
    ListingUnique(t, s, Entries(t), NumLess);
  }

  lemma NumberedLists(log: seq<Bytes>, lo: u64, up: u64)
    requires |log| <= PADDED_LIMIT as nat
    ensures IsListing(Restrict(TableOf(log), Between(lo, up)), Numbered(log, lo as nat, Upper(log, up)), NumLess)
  {
    var t, s := Restrict(TableOf(log), Between(lo, up)), Numbered(log, lo as nat, Upper(log, up));
    hide Numbered;
    forall k | k in t ensures (k, t[k]) in s {
      assert s[k as nat - lo as nat] == (k, t[k]);
    }
  }

  /** One past the last number of an inclusive bound. */
  function Upper(log: seq<Bytes>, up: u64): nat {
    if up as nat < |log| then up as nat + 1 else |log|
  }

  /** The log held is determined by the keyspace. */
  lemma StoresUnique(ks: Contents, prefix: string, a: seq<Bytes>, b: seq<Bytes>)
    requires Stores(ks, prefix, a) && Stores(ks, prefix, b)
    ensures a == b
  {
    var m := (if |a| < |b| then |a| else |b|) as u64;
    assert m in TableOf(a) <==> m as nat < |a|;
    assert m in TableOf(b) <==> m as nat < |b|;
    forall i | 0 <= i < |a| ensures i < |b| && a[i] == b[i] {
      assert i as u64 in TableOf(a);
    }
  }

  lemma StoresAppend(ks: Contents, prefix: string, log: seq<Bytes>, e: Bytes)
    requires Stores(ks, prefix, log) && |log| < PADDED_LIMIT as nat
    ensures Stores(FjallPut(ks, prefix, |log| as u64, e), prefix, log + [e])
  {
    hide FjallPut, Clean, View;
    OwnPut(ks, prefix, |log| as u64, e);
    TableAppend(log, e);
  }

  lemma TableAppend(log: seq<Bytes>, e: Bytes)
    requires |log| < PADDED_LIMIT as nat
    ensures TableOf(log + [e]) == TableOf(log)[|log| as u64 := e]
  {
    var n := |log| as u64;
    var t, t' := TableOf(log), TableOf(log + [e]);
    forall k: u64 ensures (k in t' <==> k in t || k == n) && (k in t' ==> t'[k] == if k == n then e else t[k]) {
      assert k == n <==> k as nat == |log|;
    }
  }

  lemma StoresReplace(ks: Contents, prefix: string, log: seq<Bytes>, k: u64, e: Bytes)
    requires Stores(ks, prefix, log) && k as nat < |log|
    ensures Stores(FjallPut(ks, prefix, k, e), prefix, log[k as nat := e])
  {
    hide FjallPut, Clean, View;
    OwnPut(ks, prefix, k, e);
    assert TableOf(log[k as nat := e]) == TableOf(log)[k := e];
  }

  lemma StoresPurged(ks: Contents, prefix: string)
    ensures Stores(FjallPurge(ks, prefix), prefix, [])
  {
    PurgeView(ks, prefix);
  }

  /** The number after the last stored one, zero for an empty store. */
  function NextOf(ks: Contents, prefix: string): u64 {
    match FjallLast(ks, prefix)
    case Some((k, _)) => Successor(k)
    case None => 0
  }

  /** `k + 1` in 64 bits. */
  function Successor(k: u64): (r: u64)
    ensures r as nat == (k as nat + 1) % 0x1_0000_0000_0000_0000
  {
    if k == U64_MAX then 0 else k + 1
  }

  /** Opening a dense store finds its length. */
  lemma NextIsLength(ks: Contents, prefix: string, log: seq<Bytes>)
    requires Stores(ks, prefix, log)
    ensures NextOf(ks, prefix) as nat == |log|
  {
    hide FjallLast, Clean, View;
    FjallLastIsLast(ks, prefix);
    if log != [] {
      assert (|log| - 1) as u64 in TableOf(log);
    }
  }

  /** The last key of a scan is a scanned key, and no scanned key follows it. */
  lemma LastScanned(ks: Contents, prefix: string, key: string) returns (last: string)
    requires key in ks && prefix <= key
    ensures last in ks && prefix <= last && (key == last || LexLess(key, last))
    ensures FjallLast(ks, prefix) == match ParseKey(last) case Some(k) => Some((k, ks[last])) case None => None
    ensures PrefixScan(ks, prefix) != [] && last == PrefixScan(ks, prefix)[|PrefixScan(ks, prefix)| - 1].0
  {
    hide ParseKey, LexLess;
    var s := PrefixScan(ks, prefix);
    ScanContents(ks, prefix);
    ScanMember(ks, prefix, key);
    var i :| 0 <= i < |s| && s[i].0 == key;
    last := s[|s| - 1].0;
    assert last in Restrict(ks, HasPrefix(prefix));
    assert i == |s| - 1 || LexLess(s[i].0, s[|s| - 1].0);
  }

  ghost predicate IsFormatted(prefix: string, key: string) {
    exists k: u64 :: key == FormatKey(prefix, k)
  }

  /** Opening a journal with any number of events finds its length exactly when
      its last number is still last in byte order. */
  lemma ReopenExact(ks: Contents, prefix: string, log: seq<Bytes>)
    requires forall key | key in ks && prefix <= key :: IsFormatted(prefix, key)
    requires View(ks, prefix) == TableOf(log) && 0 < |log| <= U64_MAX as nat
    ensures NextOf(ks, prefix) as nat == |log| <==> LastInOrder((|log| - 1) as u64)
  {
    hide LexLess, Padded, PrefixScan, FjallLast, ParseKey, LastInOrder;
    var top := (|log| - 1) as u64;
    assert forall k: u64 :: FormatKey(prefix, k) in ks <==> k in TableOf(log);
    var last := LastScanned(ks, prefix, FormatKey(prefix, top));
    var m: u64 :| last == FormatKey(prefix, m);
    ParseFormat(prefix, m);
    assert m in TableOf(log);
    LastInOrderExact(prefix, top);
    FormatInjective(prefix, m, top);
    LexAsymmetric(last, FormatKey(prefix, top));
    if m == top {
      forall j: u64 | j < top ensures LexLess(FormatKey(prefix, j), FormatKey(prefix, top)) {
        FormatInjective(prefix, j, top);
        assert j in TableOf(log);
        var _ := LastScanned(ks, prefix, FormatKey(prefix, j));
      }
    }
  }

  // ---------- the object ----------

  class BaseJournal {
    const store: FjallStore
    var nextSequence: u64

    /** The journal holds exactly `log`. */
    ghost predicate Holds(log: seq<Bytes>)
      reads this, store.keyspace
    {
      Stores(store.keyspace.entries, store.prefix, log) && nextSequence as nat == |log|
    }

    constructor (store: FjallStore)
      ensures this.store == store
      ensures nextSequence == NextOf(store.keyspace.entries, store.prefix)
      ensures forall log | Stores(store.keyspace.entries, store.prefix, log) :: Holds(log)
    {
      this.store := store;
      nextSequence := NextOf(store.keyspace.entries, store.prefix);
      forall log | Stores(store.keyspace.entries, store.prefix, log)
        ensures NextOf(store.keyspace.entries, store.prefix) as nat == |log|
      {
        NextIsLength(store.keyspace.entries, store.prefix, log);
      }
    }

    function LatestSequence(): u64
      reads this
    {
      if nextSequence == 0 then 0 else nextSequence - 1
    }

    /** Appends an event. Also what the `Put` message does, whose reply is the
        number of the event. */
    method Put(data: Bytes, ghost log: seq<Bytes>) returns (sn: u64)
      modifies this, store.keyspace
      ensures store.keyspace.entries == FjallPut(old(store.keyspace.entries), store.prefix, old(nextSequence), data)
      ensures nextSequence == Successor(old(nextSequence)) && sn == old(nextSequence)
      ensures old(Holds(log)) && |log| < PADDED_LIMIT as nat ==> Holds(log + [data]) && sn as nat == |log|
    {
      if Holds(log) && |log| < PADDED_LIMIT as nat {
        StoresAppend(store.keyspace.entries, store.prefix, log, data);
      }
      store.Put(nextSequence, data);
      nextSequence := Successor(nextSequence);
      sn := if nextSequence == 0 then U64_MAX else nextSequence - 1;
    }

    /** Writes an event under a given number. The journal stays dense exactly
        when the number was already taken. */
    method Insert(sequence: u64, data: Bytes, ghost log: seq<Bytes>)
      modifies store.keyspace
      ensures store.keyspace.entries == FjallPut(old(store.keyspace.entries), store.prefix, sequence, data)
      ensures old(Holds(log)) && sequence as nat < |log| ==> Holds(log[sequence as nat := data])
      ensures old(Holds(log)) && |log| <= sequence as nat ==> forall other :: !Holds(other)
    {
      ghost var ks := store.keyspace.entries;
      store.Put(sequence, data);
      if old(Holds(log)) {
        if sequence as nat < |log| {
          StoresReplace(ks, store.prefix, log, sequence, data);
        } else {
          assert sequence in View(store.keyspace.entries, store.prefix);
          assert forall other | Holds(other) :: sequence !in TableOf(other);
        }
      }
    }

    function Get(sequence: u64): Result<Bytes, Error>
      reads this, store.keyspace
    {
      store.Get(sequence)
    }

    function Last(): Option<Entry>
      reads this, store.keyspace
    {
      match Get(LatestSequence())
      case Ok(e) => Some((LatestSequence(), e))
      case Err(_) => None
    }

    function Range(from: u64, to: Option<u64>): seq<Entry>
      reads this, store.keyspace
    {
      store.Iter(IteratorOptions.Range(from, Some(OrElse(to, LatestSequence()))))
    }

    /** The last event, or none exactly when the log is empty. */
    lemma LastOfLog(log: seq<Bytes>)
      requires Holds(log)
      ensures Last() == if log == [] then None else Some(((|log| - 1) as u64, log[|log| - 1]))
    {
      assert View(store.keyspace.entries, store.prefix) == TableOf(log);
    }

    /** A range is the matching slice of the log, numbered, in order; without an
        upper bound it reaches to the end. */
    lemma RangeOfLog(log: seq<Bytes>, from: u64, to: Option<u64>)
      requires Holds(log)
      ensures Range(from, to) == Numbered(log, from as nat, if to.None? then |log| else Upper(log, to.value))
    {
      var up := OrElse(to, LatestSequence());
      FjallAnswers(store.keyspace.entries, store.prefix, IteratorOptions.Range(from, Some(up)));
      NumberedIsListing(log, from, up);
    }

    /** Writes the frames of all events; fails at the first missing number. */
    method Export(ghost log: seq<Bytes>) returns (r: Result<Bytes, Error>, ghost stop: u64)
      ensures Holds(log) ==> r == Ok(Encode(log))
      ensures r.Err? <==> stop < nextSequence
      ensures r.Err? ==> stop !in View(store.keyspace.entries, store.prefix)
      ensures forall k | k < stop :: k in View(store.keyspace.entries, store.prefix)
    {
      ghost var dense, t := Holds(log), View(store.keyspace.entries, store.prefix);
      assert dense ==> nextSequence as nat == |log| && t == TableOf(log);
      assert dense ==> EncodeFirst(log, 0) == [];
      assert dense ==> forall n: nat :: n < |log| ==> EncodeFirst(log, n + 1) == EncodeFirst(log, n) + Frame(log[n]);
      assert dense ==> forall k | k < nextSequence :: k in t && t[k] == log[k as nat];
      hide Frame, Encode, EncodeFirst, FormatKey, FjallGet, Clean, View, TableOf, Stores, Lookup, Numbers;
      var stream: Bytes := [];
      var seqno: u64 := 0;
      stop := nextSequence;
      while seqno < nextSequence
        invariant seqno <= nextSequence && stop == nextSequence
        invariant forall k: u64 | k < seqno :: k in t
        invariant dense ==> stream == EncodeFirst(log, seqno as nat)
      {
        match Get(seqno) {
          case Err(e) =>
            return Err(e), seqno;
          case Ok(data) =>
            stream := stream + Frame(data);
            seqno := seqno + 1;
        }
      }
      if dense {
        EncodeFirstIsEncode(log, |log|);
        assert log[..|log|] == log;
      }
      r := Ok(stream);
    }

    /** Replaces the log by the events of a stream, up to the first frame that
        cannot be read. A stream that is a byte prefix of the export of `log`, with
        events shorter than 2^32 bytes, gives the events whose frames are complete:
        the whole export gives the whole log, and its length as the next number.
        Other stores of the keyspace are untouched. */
    method Import(stream: Bytes, ghost log: seq<Bytes>)
      modifies this, store.keyspace
      ensures |Decode(stream)| <= PADDED_LIMIT as nat ==> Holds(Decode(stream))
      ensures stream <= Encode(log) && |log| <= PADDED_LIMIT as nat && (forall e | e in log :: |e| < 0x1_0000_0000) ==>
                Holds(log[..Complete(log, |stream|)])
      ensures stream == Encode(log) && |log| <= PADDED_LIMIT as nat && (forall e | e in log :: |e| < 0x1_0000_0000) ==>
                Holds(log)
      ensures OthersSame(old(store.keyspace.entries), store.keyspace.entries, store.prefix)
    {
      if stream <= Encode(log) && forall e | e in log :: |e| < 0x1_0000_0000 {
        assert Encode(log)[..|stream|] == stream;
        TruncatedImport(log, |stream|);
        RoundTripExact(log);
      }
      ghost var before := store.keyspace.entries;
      store.Purge();
      nextSequence := 0;
      StoresPurged(before, store.prefix);
      OthersStep(before, before, store.prefix, StoreOp.Purge);
      ghost var done: seq<Bytes> := [];
      var reader := stream;
      var frame := ReadFrame(reader);
      ProgressStart(stream);
      while frame.Some?
        invariant frame == ReadFrame(reader) && Progress(stream, done, reader)
        invariant |Decode(stream)| <= PADDED_LIMIT as nat ==> Holds(done)
        invariant OthersSame(before, store.keyspace.entries, store.prefix)
        decreases |reader|
      {
        ProgressStep(stream, done, reader);
        OthersStep(before, store.keyspace.entries, store.prefix, StoreOp.Put(nextSequence, frame.value.0));
        var _ := Put(frame.value.0, done);
        done := done + [frame.value.0];
        reader := frame.value.1;
        frame := ReadFrame(reader);
      }
      ProgressEnd(stream, done, reader);
    }
  }
}
