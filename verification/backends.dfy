/** Runs of store operations: both backends behave as one sorted table for each
    store, and stores of one keyspace do not see each other.
 */
module Backends {
  import opened Wrappers
  import opened PaddedKeys
  import opened OrderedMaps
  import opened Tables
  import opened Keyspaces
  import opened FjallStores
  import opened MemoryStores

  datatype StoreOp = Put(key: u64, data: Bytes) | Del(key: u64) | Purge

  function TableStep(t: Table, op: StoreOp): Table {
    match op
    case Put(k, v) => t[k := v]
    case Del(k) => t - {k}
    case Purge => map[]
  }

  /** The contents after one store method: `FjallStore.Put`, `Del`, `Purge`. */
  function FjallStep(ks: Contents, prefix: string, op: StoreOp): Contents {
    match op
    case Put(k, v) => FjallPut(ks, prefix, k, v)
    case Del(k) => FjallDel(ks, prefix, k)
    case Purge => FjallPurge(ks, prefix)
  }

  /** The contents after one store method: `MemoryStore.Put`, `Del`, `Purge`. */
  function MemoryStep(data: Contents, prefix: string, op: StoreOp): Contents {
    match op
    case Put(k, v) => data[FormatKey(prefix, k) := v]
    case Del(k) => data - {FormatKey(prefix, k)}
    case Purge => map[]
  }

  predicate PaddedOp(op: StoreOp) {
    op.Put? ==> op.key < PADDED_LIMIT
  }

  /** Neither prefix is a string prefix of the other. */
  predicate Apart(p: string, q: string) {
    !(p <= q) && !(q <= p)
  }

  // ---------- isolation ----------

  /** Two keyspaces agree on everything the scan of a prefix meets. */
  ghost predicate SameScan(ks: Contents, ks': Contents, prefix: string) {
    Restrict(ks, HasPrefix(prefix)) == Restrict(ks', HasPrefix(prefix))
  }

  /** A scan determines every observation of its store. */
  lemma SameObservations(ks: Contents, ks': Contents, prefix: string, o: IteratorOptions, k: u64)
    requires SameScan(ks, ks', prefix)
    ensures FjallIter(ks, prefix, o) == FjallIter(ks', prefix, o)
    ensures FjallLast(ks, prefix) == FjallLast(ks', prefix)
    ensures FjallGet(ks, prefix, k) == FjallGet(ks', prefix, k)
  {
    hide KeyValues, ParseKey, Filter, LexLess;
    assert PrefixScan(ks, prefix) == PrefixScan(ks', prefix);
    SameScanEntry(ks, ks', prefix, FormatKey(prefix, k));
  }

  lemma SameView(ks: Contents, ks': Contents, prefix: string)
    requires SameScan(ks, ks', prefix)
    ensures View(ks, prefix) == View(ks', prefix)
    ensures Clean(ks, prefix) <==> Clean(ks', prefix)
  {
    forall k: u64 ensures SameEntry(ks, ks', FormatKey(prefix, k)) {
      SameScanEntry(ks, ks', prefix, FormatKey(prefix, k));
    }
    forall key | prefix <= key ensures key in ks <==> key in ks' {
      SameScanEntry(ks, ks', prefix, key);
    }
  }

  ghost predicate SameEntry(ks: Contents, ks': Contents, key: string) {
    (key in ks <==> key in ks') && (key in ks ==> ks[key] == ks'[key])
  }

  lemma SameScanEntry(ks: Contents, ks': Contents, prefix: string, key: string)
    requires SameScan(ks, ks', prefix) && prefix <= key
    ensures SameEntry(ks, ks', key)
  {
    var r, r' := Restrict(ks, HasPrefix(prefix)), Restrict(ks', HasPrefix(prefix));
    assert key in ks <==> key in r;
    assert key in ks' <==> key in r';
  }

  /** Two prefixes of one string are comparable. */
  lemma PrefixesComparable(p: string, q: string, s: string)
    requires p <= s && q <= s
    ensures p <= q || q <= p
  {
  }

  /** Prefixes are apart exactly when they differ in some character both have. */
  lemma ApartExact(p: string, q: string)
    ensures Apart(p, q) <==> exists i :: 0 <= i < |p| && i < |q| && p[i] != q[i]
  {
    if forall i | 0 <= i < |p| && i < |q| :: p[i] == q[i] {
      assert if |p| <= |q| then p == q[..|p|] else q == p[..|q|];
    }
  }

  lemma FormattedApart(p: string, q: string, k: u64)
    requires Apart(p, q)
    ensures !(q <= FormatKey(p, k))
  {
    assert p <= FormatKey(p, k);
  }

  lemma PurgeApart(ks: Contents, p: string, q: string)
    requires Apart(p, q)
    ensures SameScan(ks, FjallPurge(ks, p), q)
  {
  }

  /** Every store apart from `prefix` observes the same in both keyspaces. */
  ghost predicate OthersSame(ks: Contents, ks': Contents, prefix: string) {
    forall q | Apart(prefix, q) :: SameScan(ks, ks', q)
  }

  lemma OthersStep(before: Contents, ks: Contents, prefix: string, op: StoreOp)
    requires OthersSame(before, ks, prefix)
    ensures OthersSame(before, FjallStep(ks, prefix, op), prefix)
  {
    forall q | Apart(prefix, q) ensures SameScan(before, FjallStep(ks, prefix, op), q) {
      StepApart(ks, prefix, q, op);
    }
  }

  function FjallOps(ks: Contents, prefix: string, ops: seq<StoreOp>): Contents {
    if ops == [] then ks
    else FjallStep(FjallOps(ks, prefix, ops[..|ops| - 1]), prefix, ops[|ops| - 1])
  }

  /** Store isolation: any run of operations, with any keys, through one of two
      stores with prefixes apart leaves what the other observes unchanged,
      whatever the keyspace held. */
  lemma Isolation(ks: Contents, p: string, q: string, ops: seq<StoreOp>, o: IteratorOptions, k: u64)
    requires Apart(p, q)
    ensures var ks' := FjallOps(ks, p, ops);
            && FjallIter(ks, q, o) == FjallIter(ks', q, o)
            && FjallLast(ks, q) == FjallLast(ks', q)
            && FjallGet(ks, q, k) == FjallGet(ks', q, k)
            && View(ks, q) == View(ks', q)
  {
    OpsApart(ks, p, q, ops);
    SameObservations(ks, FjallOps(ks, p, ops), q, o, k);
    SameView(ks, FjallOps(ks, p, ops), q);
  }

  lemma {:induction false} OpsApart(ks: Contents, p: string, q: string, ops: seq<StoreOp>)
    requires Apart(p, q)
    ensures SameScan(ks, FjallOps(ks, p, ops), q)
  {
    if ops != [] {
      OpsApart(ks, p, q, ops[..|ops| - 1]);
      StepApart(FjallOps(ks, p, ops[..|ops| - 1]), p, q, ops[|ops| - 1]);
    }
  }

  lemma StepApart(ks: Contents, p: string, q: string, op: StoreOp)
    requires Apart(p, q)
    ensures SameScan(ks, FjallStep(ks, p, op), q)
  {
    match op {
      case Put(k, v) => FormattedApart(p, q, k);
      case Del(k) => FormattedApart(p, q, k);
      case Purge => PurgeApart(ks, p, q);
    }
  }

  /** The stored keys of prefix `p` that a store with prefix `q` can meet:
      decided by the two prefixes alone. */
  predicate Collides(p: string, q: string) {
    || q <= p + ":"
    || (p + ":" <= q && |q| <= |p| + 1 + WIDTH && AllDigits(q[|p| + 1..]))
  }

  /** A put through `p` is invisible to `q`, for every padded key and every
      keyspace, exactly when the prefixes do not collide. */
  lemma IsolationExact(p: string, q: string)
    ensures (forall ks: Contents, k: u64, v: Bytes | k < PADDED_LIMIT :: SameScan(ks, FjallPut(ks, p, k, v), q))
       <==> !Collides(p, q)
  {
    if Collides(p, q) {
      var k := CollidingKey(p, q);
      var ks: Contents := map[];
      var ks' := FjallPut(ks, p, k, []);
      assert FormatKey(p, k) in Restrict(ks', HasPrefix(q));
      assert !SameScan(ks, ks', q);
    } else {
      forall ks: Contents, k: u64, v: Bytes | k < PADDED_LIMIT
        ensures SameScan(ks, FjallPut(ks, p, k, v), q)
      {
        if q <= FormatKey(p, k) {
          MeetingCollides(p, q, k);
        }
      }
    }
  }

  /** A number whose stored key the other store meets. */
  lemma CollidingKey(p: string, q: string) returns (k: u64)
    requires Collides(p, q)
    ensures k < PADDED_LIMIT && q <= FormatKey(p, k)
  {
    if q <= p + ":" {
      k := 0;
      assert q == (p + ":")[..|q|] == FormatKey(p, k)[..|q|];
    } else {
      var digits := q[|p| + 1..];
      var s := digits + Zeros(WIDTH - |digits|);
      PaddedOfValue(s);
      k := Value(s) as u64;
      assert q == (p + ":") + digits;
      assert FormatKey(p, k) == q + Zeros(WIDTH - |digits|);
    }
  }

  lemma MeetingCollides(p: string, q: string, k: u64)
    requires q <= FormatKey(p, k) && k < PADDED_LIMIT
    ensures Collides(p, q)
  {
    hide Padded;
    var head, digits := p + ":", Padded(k as nat);
    PaddedWidth(k as nat);
    assert FormatKey(p, k) == head + digits;
    PrefixesComparable(head, q, FormatKey(p, k));
    if head <= q {
      assert q[|head|..] == digits[..|q| - |head|];
    }
  }

  /** Without that condition a store reads another's entries as its own: a
      store whose table is empty reports the last entry of a longer prefix. */
  lemma ExtensionIsVisible(p: string, q: string, k: u64, v: Bytes)
    requires p < q
    ensures View(FjallPut(map[], q, k, v), p) == map[]
    ensures FjallLast(FjallPut(map[], q, k, v), p) == Some((k, v))
  {
    hide LexLess, Padded;
    var key := FormatKey(q, k);
    var ks: Contents := FjallPut(map[], q, k, v);
    assert p <= key;
    var r := Restrict(ks, HasPrefix(p));
    assert r == map[key := v];
    LexOrder();
    ListingUnique(r, [(key, v)], PrefixScan(ks, p), LexLess);
    ParseFormat(q, k);
    forall j: u64 ensures FormatKey(p, j) != key {
      LastSegmentOfDigits(p, Padded(j as nat));
      LastSegmentOfDigits(q, Padded(k as nat));
    }
  }

  // ---------- one store ----------

  lemma OwnPut(ks: Contents, p: string, k: u64, v: Bytes)
    requires Clean(ks, p) && k < PADDED_LIMIT
    ensures Clean(FjallPut(ks, p, k, v), p)
    ensures View(FjallPut(ks, p, k, v), p) == View(ks, p)[k := v]
  {
    PutView(ks, p, k, v);
  }

  /** A store's own operation acts on its table. */
  lemma OwnStep(ks: Contents, p: string, op: StoreOp)
    requires Clean(ks, p) && PaddedOp(op)
    ensures Clean(FjallStep(ks, p, op), p)
    ensures View(FjallStep(ks, p, op), p) == TableStep(View(ks, p), op)
  {
    match op
    case Put(k, v) => OwnPut(ks, p, k, v);
    case Del(k) => DelView(ks, p, k);
    case Purge => PurgeView(ks, p);
  }

  // ---------- runs over many stores ----------

  /** An operation of one of the stores. */
  datatype Call = Call(store: nat, op: StoreOp)

  ghost predicate AllApart(prefixes: seq<string>) {
    forall i, j | 0 <= i < |prefixes| && 0 <= j < |prefixes| && i != j :: Apart(prefixes[i], prefixes[j])
  }

  ghost predicate ValidCalls(n: nat, calls: seq<Call>) {
    forall c | c in calls :: c.store < n && PaddedOp(c.op)
  }

  /** All stores over one shared keyspace. */
  function FjallRun(prefixes: seq<string>, calls: seq<Call>): Contents
    requires ValidCalls(|prefixes|, calls)
  {
    if calls == [] then map[]
    else
      var c := calls[|calls| - 1];
      FjallStep(FjallRun(prefixes, calls[..|calls| - 1]), prefixes[c.store], c.op)
  }

  /** Store `i` over its own map. */
  function MemoryRun(prefixes: seq<string>, calls: seq<Call>, i: nat): Contents
    requires ValidCalls(|prefixes|, calls) && i < |prefixes|
  {
    if calls == [] then map[]
    else
      var c := calls[|calls| - 1];
      var data := MemoryRun(prefixes, calls[..|calls| - 1], i);
      if c.store == i then MemoryStep(data, prefixes[i], c.op) else data
  }

  /** Store `i` as a sorted table. */
  function TableRun(n: nat, calls: seq<Call>, i: nat): Table
    requires ValidCalls(n, calls) && i < n
  {
    if calls == [] then map[]
    else
      var c := calls[|calls| - 1];
      var t := TableRun(n, calls[..|calls| - 1], i);
      if c.store == i then TableStep(t, c.op) else t
  }

  lemma {:induction false} FjallRunIsTable(prefixes: seq<string>, calls: seq<Call>, i: nat)
    requires AllApart(prefixes) && ValidCalls(|prefixes|, calls) && i < |prefixes|
    ensures Clean(FjallRun(prefixes, calls), prefixes[i])
    ensures View(FjallRun(prefixes, calls), prefixes[i]) == TableRun(|prefixes|, calls, i)
  {
    if calls != [] {
      var before, c := calls[..|calls| - 1], calls[|calls| - 1];
      FjallRunIsTable(prefixes, before, i);
      var ks := FjallRun(prefixes, before);
      assert c in calls;
      if c.store == i {
        OwnStep(ks, prefixes[i], c.op);
      } else {
        StepApart(ks, prefixes[c.store], prefixes[i], c.op);
        SameView(ks, FjallStep(ks, prefixes[c.store], c.op), prefixes[i]);
      }
    }
  }

  lemma {:induction false} MemoryRunIsTable(prefixes: seq<string>, calls: seq<Call>, i: nat)
    requires ValidCalls(|prefixes|, calls) && i < |prefixes|
    ensures Own(MemoryRun(prefixes, calls, i), prefixes[i])
    ensures View(MemoryRun(prefixes, calls, i), prefixes[i]) == TableRun(|prefixes|, calls, i)
  {
    if calls != [] {
      var before, c := calls[..|calls| - 1], calls[|calls| - 1];
      MemoryRunIsTable(prefixes, before, i);
      var data := MemoryRun(prefixes, before, i);
      assert c in calls;
      if c.store == i {
        OwnIsClean(data, prefixes[i]);
        OwnStep(data, prefixes[i], c.op);
      }
    }
  }

  /** Two backends, one meaning: after any run, every query on either backend
      is answered from the same sorted table. */
  lemma BackendsAgree(prefixes: seq<string>, calls: seq<Call>, i: nat, o: IteratorOptions, k: u64)
    requires AllApart(prefixes) && ValidCalls(|prefixes|, calls) && i < |prefixes|
    ensures var p, t := prefixes[i], TableRun(|prefixes|, calls, i);
            var ks, data := FjallRun(prefixes, calls), MemoryRun(prefixes, calls, i);
            && FjallIter(ks, p, o) == Answer(t, o) == MemoryIter(data, p, o)
            && IsLast(t, FjallLast(ks, p)) && FjallLast(ks, p) == MemoryLast(data)
            && FjallGet(ks, p, k) == Lookup(t, k) == Lookup(View(data, p), k)
  {
    hide FjallIter, MemoryIter, Answer, FjallLast, MemoryLast, Clean, Own;
    var p, t := prefixes[i], TableRun(|prefixes|, calls, i);
    var ks, data := FjallRun(prefixes, calls), MemoryRun(prefixes, calls, i);
    FjallRunIsTable(prefixes, calls, i);
    MemoryRunIsTable(prefixes, calls, i);
    FjallAnswers(ks, p, o);
    FjallLastIsLast(ks, p);
    MemoryAnswers(data, p, o);
    LastUnique(t, FjallLast(ks, p), MemoryLast(data));
  }
}
