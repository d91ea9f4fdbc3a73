/** Runs of one persistent actor over the keyspaces of its type: persisting,
    snapshotting, delivery or loss of queued snapshots, crashes, restarts and
    the writes of other actors.

    The state holds the stored bytes; what it means is stated against the
    sequence of events the run persisted.
 */
module Recovery {
  import opened Wrappers
  import opened PaddedKeys
  import opened OrderedMaps
  import opened Tables
  import opened Keyspaces
  import opened FjallStores
  import opened Backends
  import opened Journals

  /** The outcome of `apply_event`: the state it leaves, also when it fails. */
  datatype Applied<+S> = Applied(state: S, ok: bool)

  /** What the implementer of a persistent actor provides. */
  datatype Behaviour<!S, !E> = Behaviour(
    initial: S,
    apply: (S, E) -> Applied<S>,
    encodeEvent: E -> Bytes,
    decodeEvent: Bytes -> Option<E>,
    encodeState: S -> Bytes,
    decodeState: Bytes -> Option<S>)

  /** Decoding undoes encoding. */
  ghost predicate Lossless<S(!new), E(!new)>(b: Behaviour<S, E>) {
    && (forall e :: b.decodeEvent(b.encodeEvent(e)) == Some(e))
    && (forall s :: b.decodeState(b.encodeState(s)) == Some(s))
  }

  /** A snapshot on its way to the snapshotter. `taken` is history: how many
      events the journal held when the snapshot was taken. */
  datatype Saved = Saved(key: u64, data: Bytes, taken: nat)

  datatype Phase<+S, +E> =
    | Down
    | Up(state: S)
    | Applying(state: S, event: E) // the journal has replied, the event is not yet applied

  /** The stored bytes of the two keyspaces, the actor, and the queued
      snapshots. `origin` is history: the `taken` of each stored snapshot. */
  datatype World<+S, +E> = World(
    journal: Contents,
    snapshots: Contents,
    next: u64,
    phase: Phase<S, E>,
    mailbox: seq<Saved>,
    origin: map<u64, nat>)

  datatype Step<+E> =
    | Append(event: E)
    | Apply
    | TakeSnapshot
    | Deliver(i: nat)
    | Lose(i: nat)
    | Crash
    | Restart
    | ForeignJournal(prefix: string, op: StoreOp)
    | ForeignSnapshots(prefix: string, op: StoreOp)

  // ---------- the operations ----------

  /** `latest_sequence` */
  function Latest(next: u64): u64 {
    if next == 0 then 0 else next - 1
  }

  /** Applies the stored events in turn; stops at the first that fails to decode or to apply. */
  function Replay<S, E>(b: Behaviour<S, E>, s: S, events: seq<Entry>): Option<S> {
    if events == [] then Some(s)
    else
      match b.decodeEvent(events[0].1)
      case None => None
      case Some(e) =>
        var a := b.apply(s, e);
        if a.ok then Replay(b, a.state, events[1..]) else None
  }

  /** The last stored snapshot, or number zero with the fresh actor's state. */
  function Base<S, E>(b: Behaviour<S, E>, id: string, snapshots: Contents): Option<(u64, S)> {
    match FjallLast(snapshots, id)
    case None => Some((0, b.initial))
    case Some((k, data)) =>
      match b.decodeState(data)
      case None => None
      case Some(s) => Some((k, s))
  }

  /** `init_state` on a fresh actor: the rebuilt state, if it succeeds. */
  function InitState<S, E>(b: Behaviour<S, E>, id: string, journal: Contents, snapshots: Contents): Option<S> {
    match Base(b, id, snapshots)
    case None => None
    case Some((from, s)) =>
      var up := Latest(NextOf(journal, id));
      Replay(b, s, FjallIter(journal, id, Range(Successor(from), Some(up))))
  }

  function RemoveAt<T>(s: seq<T>, i: nat): seq<T>
    requires i < |s|
  {
    s[..i] + s[i + 1..]
  }

  predicate Enabled<S, E>(id: string, w: World<S, E>, step: Step<E>) {
    match step
    case Append(_) => w.phase.Up?
    case Apply => w.phase.Applying?
    case TakeSnapshot => w.phase.Up?
    case Deliver(i) => i < |w.mailbox|
    case Lose(i) => i < |w.mailbox|
    case Crash => !w.phase.Down?
    case Restart => w.phase.Down?
    case ForeignJournal(p, _) => Apart(p, id)
    case ForeignSnapshots(p, _) => Apart(p, id)
  }

  function Next<S, E>(b: Behaviour<S, E>, id: string, w: World<S, E>, step: Step<E>): World<S, E>
    requires Enabled(id, w, step)
  {
    match step
    case Append(e) =>
      w.(journal := FjallPut(w.journal, id, w.next, b.encodeEvent(e)),
         next := Successor(w.next),
         phase := Applying(w.phase.state, e))
    case Apply =>
      w.(phase := Up(b.apply(w.phase.state, w.phase.event).state))
    case TakeSnapshot =>
      w.(mailbox := w.mailbox + [Saved(Latest(w.next), b.encodeState(w.phase.state), w.next as nat)])
    case Deliver(i) =>
      var m := w.mailbox[i];
      w.(snapshots := FjallPut(w.snapshots, id, m.key, m.data),
         origin := w.origin[m.key := m.taken],
         mailbox := RemoveAt(w.mailbox, i))
    case Lose(i) =>
      w.(mailbox := RemoveAt(w.mailbox, i))
    case Crash =>
      w.(phase := Down)
    case Restart =>
      w.(next := NextOf(w.journal, id),
         phase := match InitState(b, id, w.journal, w.snapshots) case Some(s) => Up(s) case None => Down)
    case ForeignJournal(p, op) =>
      w.(journal := FjallStep(w.journal, p, op))
    case ForeignSnapshots(p, op) =>
      w.(snapshots := FjallStep(w.snapshots, p, op))
  }

  /** Empty keyspaces, no actor yet. */
  function Start<S, E>(): World<S, E> {
    World(map[], map[], 0, Down, [], map[])
  }

  predicate ValidRun<S, E>(b: Behaviour<S, E>, id: string, steps: seq<Step<E>>)
    decreases |steps|, 0
  {
    steps == [] ||
    (ValidRun(b, id, steps[..|steps| - 1])
     && Enabled(id, Run(b, id, steps[..|steps| - 1]), steps[|steps| - 1]))
  }

  function Run<S, E>(b: Behaviour<S, E>, id: string, steps: seq<Step<E>>): World<S, E>
    requires ValidRun(b, id, steps)
    decreases |steps|, 1
  {
    if steps == [] then Start()
    else Next(b, id, Run(b, id, steps[..|steps| - 1]), steps[|steps| - 1])
  }

  /** The events a run persisted, in order. */
  function Persisted<E>(steps: seq<Step<E>>): seq<E> {
    if steps == [] then []
    else
      var before, last := Persisted(steps[..|steps| - 1]), steps[|steps| - 1];
      if last.Append? then before + [last.event] else before
  }

  /** The fold of `apply_event` over events. */
  function Fold<S, E>(b: Behaviour<S, E>, s: S, events: seq<E>): S {
    if events == [] then s
    else b.apply(Fold(b, s, events[..|events| - 1]), events[|events| - 1]).state
  }

  function Encoded<S, E>(b: Behaviour<S, E>, events: seq<E>): (r: seq<Bytes>)
    ensures |r| == |events| && forall i | 0 <= i < |r| :: r[i] == b.encodeEvent(events[i])
  {
    seq(|events|, i requires 0 <= i < |events| => b.encodeEvent(events[i]))
  }

  // ---------- folding and replaying ----------

  lemma {:induction false} FoldConcat<S, E>(b: Behaviour<S, E>, s: S, xs: seq<E>, ys: seq<E>)
    ensures Fold(b, s, xs + ys) == Fold(b, Fold(b, s, xs), ys)
  {
    if ys == [] {
      assert xs + ys == xs;
    } else {
      FoldConcat(b, s, xs, ys[..|ys| - 1]);
      assert (xs + ys)[..|xs + ys| - 1] == xs + ys[..|ys| - 1];
    }
  }

  /** No event of the sequence fails to apply. */
  predicate AllApply<S, E>(b: Behaviour<S, E>, s: S, events: seq<E>) {
    events == [] ||
    (b.apply(s, events[0]).ok && AllApply(b, b.apply(s, events[0]).state, events[1..]))
  }

  lemma FoldHead<S, E>(b: Behaviour<S, E>, s: S, events: seq<E>)
    requires events != []
    ensures Fold(b, s, events) == Fold(b, b.apply(s, events[0]).state, events[1..])
  {
    assert events == [events[0]] + events[1..];
    FoldConcat(b, s, [events[0]], events[1..]);
    assert [events[0]][..0] == [];
  }

  /** Replaying encoded events folds them, and fails exactly when one of them fails. */
  lemma {:induction false} ReplayIsFold<S(!new), E(!new)>(b: Behaviour<S, E>, s: S, stored: seq<Entry>, events: seq<E>)
    requires Lossless(b)
    requires |stored| == |events| && forall i | 0 <= i < |events| :: stored[i].1 == b.encodeEvent(events[i])
    ensures Replay(b, s, stored) == if AllApply(b, s, events) then Some(Fold(b, s, events)) else None
  {
    if events != [] {
      FoldHead(b, s, events);
      ReplayIsFold(b, b.apply(s, events[0]).state, stored[1..], events[1..]);
    }
  }

  lemma {:induction false} ReplayOneMore<S, E>(b: Behaviour<S, E>, s: S, events: seq<Entry>, e: Entry)
    ensures Replay(b, s, events + [e]) == match Replay(b, s, events) case None => None case Some(t) => Replay(b, t, [e])
  {
    if events != [] {
      assert (events + [e])[0] == events[0] && (events + [e])[1..] == events[1..] + [e];
      var event := b.decodeEvent(events[0].1);
      if event.Some? {
        ReplayOneMore(b, b.apply(s, event.value).state, events[1..], e);
      }
    } else {
      assert events + [e] == [e];
    }
  }

  /** The first stored event that cannot be decoded, or not be applied. */
  ghost predicate Breaks<S, E>(b: Behaviour<S, E>, s: S, events: seq<Entry>, i: nat)
    requires i < |events|
  {
    var before := Replay(b, s, events[..i]);
    && before.Some?
    && match b.decodeEvent(events[i].1)
       case None => true
       case Some(e) => !b.apply(before.value, e).ok
  }

  ghost predicate SomeBreaks<S, E>(b: Behaviour<S, E>, s: S, events: seq<Entry>) {
    exists i | 0 <= i < |events| :: Breaks(b, s, events, i)
  }

  /** Whatever bytes are stored, a replay fails exactly when an event breaks it: none
      is skipped. */
  lemma {:induction false} ReplayFailsExact<S, E>(b: Behaviour<S, E>, s: S, events: seq<Entry>)
    ensures Replay(b, s, events) == None <==> SomeBreaks(b, s, events)
    decreases |events|
  {
    if events != [] {
      var n := |events| - 1;
      ReplayFailsExact(b, s, events[..n]);
      assert events == events[..n] + [events[n]];
      ReplayOneMore(b, s, events[..n], events[n]);
      assert [events[n]][1..] == [];
      assert Replay(b, s, events) == None <==> Replay(b, s, events[..n]) == None || Breaks(b, s, events, n);
      hide Replay;
      forall i | 0 <= i < n ensures Breaks(b, s, events[..n], i) <==> Breaks(b, s, events, i) {
        assert events[..n][..i] == events[..i];
      }
      BreaksOneMore(b, s, events);
    }
  }

  lemma BreaksOneMore<S, E>(b: Behaviour<S, E>, s: S, events: seq<Entry>)
    requires events != []
    requires var n := |events| - 1;
             forall i | 0 <= i < n :: Breaks(b, s, events[..n], i) <==> Breaks(b, s, events, i)
    ensures var n := |events| - 1;
            SomeBreaks(b, s, events) <==> SomeBreaks(b, s, events[..n]) || Breaks(b, s, events, n)
  {
    hide Breaks;
  }

  /** Whatever bytes are stored, a restart fails exactly when the last snapshot
      cannot be decoded or an event after its number breaks the replay. */
  lemma RestartFailsExact<S, E>(b: Behaviour<S, E>, id: string, journal: Contents, snapshots: Contents)
    ensures var last := FjallLast(snapshots, id);
            var from := if last.None? then 0 else last.value.0;
            var base := if last.None? then Some(b.initial) else b.decodeState(last.value.1);
            var up := Latest(NextOf(journal, id));
            InitState(b, id, journal, snapshots) == None <==>
              base.None? || SomeBreaks(b, base.value, FjallIter(journal, id, Range(Successor(from), Some(up))))
  {
    hide FjallLast, FjallIter, NextOf, Replay, SomeBreaks;
    var base := Base(b, id, snapshots);
    if base.Some? {
      var up := Latest(NextOf(journal, id));
      ReplayFailsExact(b, base.value.1, FjallIter(journal, id, Range(Successor(base.value.0), Some(up))));
    }
  }

  // ---------- the journal over a whole run ----------

  /** The journal keyspace holds exactly the persisted events, and a running
      actor knows their number. */
  ghost predicate JournalInv<S, E>(b: Behaviour<S, E>, id: string, w: World<S, E>, log: seq<E>) {
    && Stores(w.journal, id, Encoded(b, log))
    && (!w.phase.Down? ==> w.next as nat == |log|)
    && (w.phase.Applying? ==> log != [] && log[|log| - 1] == w.phase.event)
  }

  lemma PersistedPrefix<E>(steps: seq<Step<E>>)
    requires steps != []
    ensures var before, last := Persisted(steps[..|steps| - 1]), steps[|steps| - 1];
            Persisted(steps) == (if last.Append? then before + [last.event] else before)
  {
  }

  lemma EncodedAppend<S, E>(b: Behaviour<S, E>, log: seq<E>, e: E)
    ensures Encoded(b, log + [e]) == Encoded(b, log) + [b.encodeEvent(e)]
  {
  }

  lemma StoresForeign(ks: Contents, id: string, log: seq<Bytes>, p: string, op: StoreOp)
    requires Stores(ks, id, log) && Apart(p, id)
    ensures Stores(FjallStep(ks, p, op), id, log)
  {
    StepApart(ks, p, id, op);
    SameView(ks, FjallStep(ks, p, op), id);
  }

  lemma StoresEmpty(id: string)
    ensures Stores(map[], id, [])
  {
  }

  lemma JournalStep<S, E>(b: Behaviour<S, E>, id: string, w: World<S, E>, step: Step<E>, log: seq<E>)
    requires Enabled(id, w, step) && JournalInv(b, id, w, log)
    requires step.Append? ==> |log| < PADDED_LIMIT as nat
    ensures JournalInv(b, id, Next(b, id, w, step), if step.Append? then log + [step.event] else log)
  {
    hide Stores, InitState, NextOf;
    match step {
      case Append(e) =>
        StoresAppend(w.journal, id, Encoded(b, log), b.encodeEvent(e));
        EncodedAppend(b, log, e);
      case Restart =>
        NextIsLength(w.journal, id, Encoded(b, log));
      case ForeignJournal(p, op) =>
        StoresForeign(w.journal, id, Encoded(b, log), p, op);
      case _ =>
    }
  }

  /** Over every run the journal holds exactly the persisted events. */
  lemma {:induction false} JournalOfRun<S, E>(b: Behaviour<S, E>, id: string, steps: seq<Step<E>>)
    requires ValidRun(b, id, steps) && |Persisted(steps)| <= PADDED_LIMIT as nat
    ensures JournalInv(b, id, Run(b, id, steps), Persisted(steps))
  {
    if steps == [] {
      StoresEmpty(id);
    } else {
      var before, last := steps[..|steps| - 1], steps[|steps| - 1];
      PersistedPrefix(steps);
      JournalOfRun(b, id, before);
      JournalStep(b, id, Run(b, id, before), last, Persisted(before));
    }
  }

  /** The number `persist` returns is the count of events persisted before,
      in this incarnation or any earlier one. */
  lemma ReturnedNumber<S, E>(b: Behaviour<S, E>, id: string, steps: seq<Step<E>>, e: E)
    requires ValidRun(b, id, steps + [Append(e)]) && |Persisted(steps)| <= PADDED_LIMIT as nat
    ensures ValidRun(b, id, steps) && Run(b, id, steps).next as nat == |Persisted(steps)|
  {
    assert (steps + [Append(e)])[..|steps|] == steps;
    JournalOfRun(b, id, steps);
  }

  // ---------- what a restart rebuilds ----------

  /** The events after number `from`. */
  function Tail<E>(log: seq<E>, from: u64): seq<E> {
    if from as nat + 1 <= |log| then log[from as nat + 1..] else []
  }

  /** The range a restart reads holds the events after number `from`. */
  lemma RangeIsTail<S(!new), E(!new)>(b: Behaviour<S, E>, id: string, journal: Contents, log: seq<E>, from: u64)
    requires Stores(journal, id, Encoded(b, log)) && from < U64_MAX
    ensures var stored := FjallIter(journal, id, Range(from + 1, Some(Latest(NextOf(journal, id)))));
            var tail := Tail(log, from);
            |stored| == |tail| && forall i | 0 <= i < |tail| :: stored[i].1 == b.encodeEvent(tail[i])
  {
    var enc := Encoded(b, log);
    RangeIsNumbered(id, journal, enc, from);
    hide FjallIter, NextOf, Stores;
  }

  lemma RangeIsNumbered(id: string, journal: Contents, log: seq<Bytes>, from: u64)
    requires Stores(journal, id, log) && from < U64_MAX
    ensures |log| <= PADDED_LIMIT as nat
    ensures FjallIter(journal, id, Range(from + 1, Some(Latest(NextOf(journal, id)))))
         == Numbered(log, from as nat + 1, |log|)
  {
    hide FjallIter, FjallLast, Clean, View, Entries, NextOf, TableOf, Numbered;
    NextIsLength(journal, id, log);
    FjallAnswers(journal, id, Range(from + 1, Some(Latest(NextOf(journal, id)))));
    NumberedIsListing(log, from + 1, Latest(NextOf(journal, id)));
  }

  /** A restart replays the events after the base snapshot's number. */
  lemma InitStateMeaning<S(!new), E(!new)>(
    b: Behaviour<S, E>, id: string, journal: Contents, snapshots: Contents, log: seq<E>, from: u64, s: S)
    requires Lossless(b) && Stores(journal, id, Encoded(b, log))
    requires Base(b, id, snapshots) == Some((from, s)) && from < U64_MAX
    ensures InitState(b, id, journal, snapshots)
         == if AllApply(b, s, Tail(log, from)) then Some(Fold(b, s, Tail(log, from))) else None
  {
    hide FjallIter, Fold, AllApply, Replay, NextOf, Stores, Tail, Base, Encoded, Lossless, InitState;
    RangeIsTail(b, id, journal, log, from);
    InitStateReplays(b, id, journal, snapshots, from, s);
    ReplayIsFold(b, s, FjallIter(journal, id, Range(from + 1, Some(Latest(NextOf(journal, id))))), Tail(log, from));
  }

  lemma InitStateReplays<S, E>(b: Behaviour<S, E>, id: string, journal: Contents, snapshots: Contents, from: u64, s: S)
    requires Base(b, id, snapshots) == Some((from, s)) && from < U64_MAX
    ensures InitState(b, id, journal, snapshots)
         == Replay(b, s, FjallIter(journal, id, Range(from + 1, Some(Latest(NextOf(journal, id))))))
  {
    hide FjallIter, Replay, NextOf, Base;
  }

  // ---------- every run: at most the first event is lost ----------

  ghost predicate Faithful<S, E>(b: Behaviour<S, E>, log: seq<E>, s: S) {
    s == Fold(b, b.initial, log)
  }

  ghost predicate FirstLost<S, E>(b: Behaviour<S, E>, log: seq<E>, s: S) {
    log != [] && s == Fold(b, b.initial, log[1..])
  }

  ghost predicate StateOk<S, E>(b: Behaviour<S, E>, log: seq<E>, s: S) {
    Faithful(b, log, s) || FirstLost(b, log, s)
  }

  ghost predicate SnapshotOk<S, E>(b: Behaviour<S, E>, log: seq<E>, k: u64, data: Bytes) {
    match b.decodeState(data)
    case None => false
    case Some(s) =>
      || (log == [] && k == 0 && s == b.initial)
      || (k as nat < |log| && StateOk(b, log[..k as nat + 1], s))
  }

  ghost predicate SnapshotInv<S, E>(b: Behaviour<S, E>, id: string, w: World<S, E>, log: seq<E>) {
    && Clean(w.snapshots, id)
    && (forall k | k in View(w.snapshots, id) :: SnapshotOk(b, log, k, View(w.snapshots, id)[k]))
    && (forall m | m in w.mailbox :: SnapshotOk(b, log, m.key, m.data))
    && match w.phase
       case Down => true
       case Up(s) => StateOk(b, log, s)
       case Applying(s, _) => log != [] && StateOk(b, log[..|log| - 1], s)
  }

  lemma SnapshotGrows<S, E>(b: Behaviour<S, E>, log: seq<E>, e: E, k: u64, data: Bytes)
    requires SnapshotOk(b, log, k, data)
    ensures SnapshotOk(b, log + [e], k, data)
  {
    if k as nat < |log| {
      assert (log + [e])[..k as nat + 1] == log[..k as nat + 1];
    } else {
      assert (log + [e])[..1][1..] == [];
    }
  }

  lemma StateApplied<S, E>(b: Behaviour<S, E>, log: seq<E>, s: S)
    requires log != [] && StateOk(b, log[..|log| - 1], s)
    ensures StateOk(b, log, b.apply(s, log[|log| - 1]).state)
    ensures Faithful(b, log[..|log| - 1], s) ==> Faithful(b, log, b.apply(s, log[|log| - 1]).state)
  {
    if |log| > 1 {
      assert log[1..][..|log| - 2] == log[..|log| - 1][1..];
    }
  }

  /** Folding the tail onto a snapshot of the head. */
  lemma FoldSplit<S, E>(b: Behaviour<S, E>, log: seq<E>, k: nat, s: S)
    requires k < |log| && StateOk(b, log[..k + 1], s)
    ensures StateOk(b, log, Fold(b, s, log[k + 1..]))
    ensures Faithful(b, log[..k + 1], s) ==> Faithful(b, log, Fold(b, s, log[k + 1..]))
  {
    hide Fold;
    assert log == log[..k + 1] + log[k + 1..];
    FoldConcat(b, b.initial, log[..k + 1], log[k + 1..]);
    assert log[1..] == log[..k + 1][1..] + log[k + 1..];
    FoldConcat(b, b.initial, log[..k + 1][1..], log[k + 1..]);
  }

  /** The base of a restart comes from a snapshot that holds, or is the fresh state. */
  lemma BaseOk<S, E>(b: Behaviour<S, E>, id: string, w: World<S, E>, log: seq<E>)
    requires SnapshotInv(b, id, w, log) && |log| <= PADDED_LIMIT as nat
    ensures Base(b, id, w.snapshots).Some?
    ensures var (from, s) := Base(b, id, w.snapshots).value;
            && from < PADDED_LIMIT
            && ((from == 0 && s == b.initial) || (from as nat < |log| && StateOk(b, log[..from as nat + 1], s)))
  {
    hide FjallLast, Fold;
    FjallLastIsLast(w.snapshots, id);
  }

  lemma RestartOk<S(!new), E(!new)>(b: Behaviour<S, E>, id: string, w: World<S, E>, log: seq<E>)
    requires Lossless(b) && Stores(w.journal, id, Encoded(b, log)) && SnapshotInv(b, id, w, log)
    ensures var r := InitState(b, id, w.journal, w.snapshots); r.Some? ==> StateOk(b, log, r.value)
  {
    hide InitState, Fold, FjallLast, Base;
    BaseOk(b, id, w, log);
    var (from, s) := Base(b, id, w.snapshots).value;
    InitStateMeaning(b, id, w.journal, w.snapshots, log, from, s);
    if from as nat < |log| && StateOk(b, log[..from as nat + 1], s) {
      FoldSplit(b, log, from as nat, s);
    } else {
      FreshBase(b, log);
    }
  }

  lemma FreshBase<S, E>(b: Behaviour<S, E>, log: seq<E>)
    ensures StateOk(b, log, Fold(b, b.initial, Tail(log, 0)))
    ensures log == [] ==> Faithful(b, log, Fold(b, b.initial, Tail(log, 0)))
  {
    if log == [] {
      assert Tail(log, 0) == log;
    } else {
      assert Tail(log, 0) == log[1..];
    }
  }

  lemma TakenOk<S(!new), E(!new)>(b: Behaviour<S, E>, log: seq<E>, next: u64, s: S)
    requires Lossless(b) && StateOk(b, log, s) && next as nat == |log|
    ensures SnapshotOk(b, log, Latest(next), b.encodeState(s))
  {
    if log != [] {
      assert log[..|log|] == log;
    }
  }

  lemma DeliverOk<S, E>(b: Behaviour<S, E>, id: string, w: World<S, E>, log: seq<E>, i: nat)
    requires SnapshotInv(b, id, w, log) && i < |w.mailbox| && |log| <= PADDED_LIMIT as nat
    ensures SnapshotInv(b, id, Next(b, id, w, Deliver(i)), log)
  {
    hide FjallPut, View, Clean, StateOk;
    assert w.mailbox[i] in w.mailbox;
    OwnPut(w.snapshots, id, w.mailbox[i].key, w.mailbox[i].data);
  }

  lemma SnapshotStep<S(!new), E(!new)>(b: Behaviour<S, E>, id: string, w: World<S, E>, step: Step<E>, log: seq<E>)
    requires Lossless(b) && Enabled(id, w, step) && |log| <= PADDED_LIMIT as nat
    requires JournalInv(b, id, w, log) && SnapshotInv(b, id, w, log)
    ensures SnapshotInv(b, id, Next(b, id, w, step), if step.Append? then log + [step.event] else log)
  {
    hide Clean, View, Stores, StateOk, FjallStep, FjallPut, SnapshotOk, InitState, NextOf;
    match step {
      case Append(e) =>
        assert (log + [e])[..|log|] == log;
        forall k, data | SnapshotOk(b, log, k, data) ensures SnapshotOk(b, log + [e], k, data) {
          SnapshotGrows(b, log, e, k, data);
        }
      case Apply =>
        StateApplied(b, log, w.phase.state);
      case TakeSnapshot =>
        TakenOk(b, log, w.next, w.phase.state);
      case Deliver(i) =>
        DeliverOk(b, id, w, log, i);
      case Restart =>
        RestartOk(b, id, w, log);
      case ForeignSnapshots(p, op) =>
        StepApart(w.snapshots, p, id, op);
        SameView(w.snapshots, FjallStep(w.snapshots, p, op), id);
      case _ =>
    }
  }

  lemma {:induction false} SnapshotsOfRun<S(!new), E(!new)>(b: Behaviour<S, E>, id: string, steps: seq<Step<E>>)
    requires Lossless(b) && ValidRun(b, id, steps) && |Persisted(steps)| <= PADDED_LIMIT as nat
    ensures SnapshotInv(b, id, Run(b, id, steps), Persisted(steps))
  {
    if steps != [] {
      var before, last := steps[..|steps| - 1], steps[|steps| - 1];
      PersistedPrefix(steps);
      SnapshotsOfRun(b, id, before);
      JournalOfRun(b, id, before);
      SnapshotStep(b, id, Run(b, id, before), last, Persisted(before));
    }
  }

  /** In every run whatsoever the state is the fold of all persisted events, or
      of all but the first: nothing else is lost, repeated or reordered. */
  lemma LosesAtMostTheFirst<S(!new), E(!new)>(b: Behaviour<S, E>, id: string, steps: seq<Step<E>>)
    requires Lossless(b) && ValidRun(b, id, steps) && |Persisted(steps)| <= PADDED_LIMIT as nat
    ensures var w, log := Run(b, id, steps), Persisted(steps);
            w.phase.Up? ==>
              w.phase.state == Fold(b, b.initial, log) ||
              (log != [] && w.phase.state == Fold(b, b.initial, log[1..]))
  {
    SnapshotsOfRun(b, id, steps);
  }

  // ---------- guarded runs: nothing is lost ----------

  /** The exact condition of a restart: the journal is empty, or the last stored
      snapshot was taken while it was not. Under key zero the stored data does not
      tell which; under any other key it was. */
  predicate Recoverable<S, E>(id: string, w: World<S, E>, log: seq<E>) {
    log == [] ||
    match FjallLast(w.snapshots, id)
    case None => false
    case Some((k, _)) => k in w.origin && w.origin[k] > 0
  }

  /** A run all of whose restarts find a recoverable world. */
  predicate GuardedRun<S, E>(b: Behaviour<S, E>, id: string, steps: seq<Step<E>>)
    requires ValidRun(b, id, steps)
  {
    steps == [] ||
    var before := steps[..|steps| - 1];
    && GuardedRun(b, id, before)
    && (steps[|steps| - 1].Restart? ==> Recoverable(id, Run(b, id, before), Persisted(before)))
  }

  /** That is: the world is recoverable before every restart of the run. */
  lemma {:induction false} GuardedExact<S, E>(b: Behaviour<S, E>, id: string, steps: seq<Step<E>>)
    requires ValidRun(b, id, steps)
    ensures GuardedRun(b, id, steps) <==>
            forall k | 0 <= k < |steps| && steps[k].Restart? ::
              ValidRun(b, id, steps[..k]) && Recoverable(id, Run(b, id, steps[..k]), Persisted(steps[..k]))
  {
    hide Recoverable, Run, Persisted, Enabled;
    if steps != [] {
      var n := |steps| - 1;
      GuardedExact(b, id, steps[..n]);
      forall k | 0 <= k < n ensures steps[..n][..k] == steps[..k] {
      }
    }
  }

  /** The snapshot is the fold of the events the journal held when it was taken. */
  ghost predicate ExactSnapshot<S, E>(b: Behaviour<S, E>, log: seq<E>, k: u64, data: Bytes, taken: nat) {
    && taken <= |log|
    && k as nat == (if taken == 0 then 0 else taken - 1)
    && b.decodeState(data) == Some(Fold(b, b.initial, log[..taken]))
  }

  ghost predicate ExactInv<S, E>(b: Behaviour<S, E>, id: string, w: World<S, E>, log: seq<E>) {
    && Clean(w.snapshots, id)
    && View(w.snapshots, id).Keys == w.origin.Keys
    && (forall k | k in w.origin :: ExactSnapshot(b, log, k, View(w.snapshots, id)[k], w.origin[k]))
    && (forall m | m in w.mailbox :: ExactSnapshot(b, log, m.key, m.data, m.taken))
    && match w.phase
       case Down => true
       case Up(s) => Faithful(b, log, s)
       case Applying(s, _) => log != [] && Faithful(b, log[..|log| - 1], s)
  }

  lemma ExactGrows<S, E>(b: Behaviour<S, E>, log: seq<E>, e: E, k: u64, data: Bytes, taken: nat)
    requires ExactSnapshot(b, log, k, data, taken)
    ensures ExactSnapshot(b, log + [e], k, data, taken)
  {
    assert (log + [e])[..taken] == log[..taken];
  }

  /** Where a restart starts from: after the last snapshot's events if it was
      taken from a non-empty journal, otherwise from the fresh state but still
      after number zero. */
  lemma ExactBase<S, E>(b: Behaviour<S, E>, id: string, w: World<S, E>, log: seq<E>)
    requires ExactInv(b, id, w, log) && |log| <= PADDED_LIMIT as nat
    ensures Base(b, id, w.snapshots).Some?
    ensures var (from, s) := Base(b, id, w.snapshots).value;
            && from < PADDED_LIMIT
            && (log != [] && Recoverable(id, w, log) ==> from as nat < |log| && Faithful(b, log[..from as nat + 1], s))
            && (log == [] || !Recoverable(id, w, log) ==> from == 0 && s == b.initial)
  {
    hide FjallLast;
    FjallLastIsLast(w.snapshots, id);
    var last := FjallLast(w.snapshots, id);
    if last.Some? {
      var k := last.value.0;
      assert k in w.origin;
      assert ExactSnapshot(b, log, k, View(w.snapshots, id)[k], w.origin[k]);
    }
  }

  /** What a restart rebuilds, exactly: the fold of all events if the world is
      recoverable, of all but the first if it is not; and it fails exactly when
      one of the replayed events fails to apply. */
  lemma RestartExact<S(!new), E(!new)>(b: Behaviour<S, E>, id: string, w: World<S, E>, log: seq<E>)
    requires Lossless(b) && Stores(w.journal, id, Encoded(b, log)) && ExactInv(b, id, w, log)
    ensures Base(b, id, w.snapshots).Some?
    ensures var (from, s) := Base(b, id, w.snapshots).value;
            InitState(b, id, w.journal, w.snapshots) ==
            if !AllApply(b, s, Tail(log, from)) then None
            else Some(Fold(b, b.initial, if Recoverable(id, w, log) then log else log[1..]))
  {
    hide InitState, Fold, FjallLast, Base, Recoverable, Stores, ExactInv, AllApply, Lossless;
    var enough := |log| <= PADDED_LIMIT as nat;
    assert enough by { StoresBounded(w.journal, id, Encoded(b, log)); }
    ExactBase(b, id, w, log);
    EmptyRecoverable(id, w);
    var (from, s) := Base(b, id, w.snapshots).value;
    InitStateMeaning(b, id, w.journal, w.snapshots, log, from, s);
    TailFold(b, log, from, s, Recoverable(id, w, log));
  }

  lemma StoresBounded(ks: Contents, id: string, log: seq<Bytes>)
    requires Stores(ks, id, log)
    ensures |log| <= PADDED_LIMIT as nat
  {
  }

  lemma TailFold<S, E>(b: Behaviour<S, E>, log: seq<E>, from: u64, s: S, whole: bool)
    requires log == [] ==> whole && from == 0 && s == b.initial
    requires log != [] && whole ==> from as nat < |log| && Faithful(b, log[..from as nat + 1], s)
    requires log != [] && !whole ==> from == 0 && s == b.initial
    ensures Fold(b, s, Tail(log, from)) == Fold(b, b.initial, if whole then log else log[1..])
  {
    hide Fold;
    if log != [] && whole {
      FoldSplit(b, log, from as nat, s);
    } else if log == [] {
      FreshBase(b, log);
    } else {
      assert Tail(log, 0) == log[1..];
    }
  }

  lemma EmptyRecoverable<S, E>(id: string, w: World<S, E>)
    ensures Recoverable(id, w, [])
  {
  }

  /** What can be seen in the stored data: an empty journal, or a last snapshot
      under a number greater than zero, is enough. */
  lemma LastKeySuffices<S(!new), E(!new)>(b: Behaviour<S, E>, id: string, steps: seq<Step<E>>)
    requires Lossless(b) && ValidRun(b, id, steps) && GuardedRun(b, id, steps)
    requires |Persisted(steps)| <= PADDED_LIMIT as nat
    ensures var w := Run(b, id, steps);
            match FjallLast(w.snapshots, id)
            case Some((k, _)) => k > 0 ==> Recoverable(id, w, Persisted(steps))
            case None => Recoverable(id, w, Persisted(steps)) <==> Persisted(steps) == []
  {
    ExactOfRun(b, id, steps);
    var w, log := Run(b, id, steps), Persisted(steps);
    hide FjallLast, Fold, Run, Persisted, ValidRun, GuardedRun;
    FjallLastIsLast(w.snapshots, id);
    var last := FjallLast(w.snapshots, id);
    if last.Some? {
      var k := last.value.0;
      assert k in w.origin;
      assert ExactSnapshot(b, log, k, View(w.snapshots, id)[k], w.origin[k]);
    }
  }

  lemma DeliverExact<S, E>(b: Behaviour<S, E>, id: string, w: World<S, E>, log: seq<E>, i: nat)
    requires ExactInv(b, id, w, log) && i < |w.mailbox| && |log| <= PADDED_LIMIT as nat
    ensures ExactInv(b, id, Next(b, id, w, Deliver(i)), log)
  {
    hide FjallPut, View, Clean, Faithful, Fold;
    assert w.mailbox[i] in w.mailbox;
    OwnPut(w.snapshots, id, w.mailbox[i].key, w.mailbox[i].data);
  }

  lemma ExactStep<S(!new), E(!new)>(b: Behaviour<S, E>, id: string, w: World<S, E>, step: Step<E>, log: seq<E>)
    requires Lossless(b) && Enabled(id, w, step) && |log| <= PADDED_LIMIT as nat
    requires JournalInv(b, id, w, log) && ExactInv(b, id, w, log)
    requires step.Restart? ==> Recoverable(id, w, log)
    ensures ExactInv(b, id, Next(b, id, w, step), if step.Append? then log + [step.event] else log)
  {
    hide Clean, View, Stores, FjallStep, FjallPut, ExactSnapshot, InitState, NextOf, Recoverable, Fold;
    match step {
      case Append(e) =>
        assert (log + [e])[..|log|] == log;
        forall k, data, taken | ExactSnapshot(b, log, k, data, taken)
          ensures ExactSnapshot(b, log + [e], k, data, taken)
        {
          ExactGrows(b, log, e, k, data, taken);
        }
      case Apply =>
        StateApplied(b, log, w.phase.state);
      case TakeSnapshot =>
        ExactTaken(b, log, w.next, w.phase.state);
      case Deliver(i) =>
        DeliverExact(b, id, w, log, i);
      case Restart =>
        RestartExact(b, id, w, log);
      case ForeignSnapshots(p, op) =>
        StepApart(w.snapshots, p, id, op);
        SameView(w.snapshots, FjallStep(w.snapshots, p, op), id);
      case _ =>
    }
  }

  lemma ExactTaken<S(!new), E(!new)>(b: Behaviour<S, E>, log: seq<E>, next: u64, s: S)
    requires Lossless(b) && Faithful(b, log, s) && next as nat == |log|
    ensures ExactSnapshot(b, log, Latest(next), b.encodeState(s), next as nat)
  {
    assert log[..|log|] == log;
  }

  lemma {:induction false} ExactOfRun<S(!new), E(!new)>(b: Behaviour<S, E>, id: string, steps: seq<Step<E>>)
    requires Lossless(b) && ValidRun(b, id, steps) && GuardedRun(b, id, steps)
    requires |Persisted(steps)| <= PADDED_LIMIT as nat
    ensures ExactInv(b, id, Run(b, id, steps), Persisted(steps))
  {
    if steps != [] {
      var before, last := steps[..|steps| - 1], steps[|steps| - 1];
      PersistedPrefix(steps);
      ExactOfRun(b, id, before);
      JournalOfRun(b, id, before);
      ExactStep(b, id, Run(b, id, before), last, Persisted(before));
    }
  }

  /** Crash recovery and write-ahead, over every guarded run: the state is the
      fold of all persisted events, or of all but the last one between the
      journal's reply and the apply, whichever queued snapshots survived. */
  lemma CrashRecovery<S(!new), E(!new)>(b: Behaviour<S, E>, id: string, steps: seq<Step<E>>)
    requires Lossless(b) && ValidRun(b, id, steps) && GuardedRun(b, id, steps)
    requires |Persisted(steps)| <= PADDED_LIMIT as nat
    ensures var w, log := Run(b, id, steps), Persisted(steps);
            match w.phase
            case Down => true
            case Up(s) => s == Fold(b, b.initial, log)
            case Applying(s, e) =>
              && log != [] && e == log[|log| - 1]
              && s == Fold(b, b.initial, log[..|log| - 1])
  {
    ExactOfRun(b, id, steps);
    JournalOfRun(b, id, steps);
  }

  // ---------- what a snapshot is good for ----------

  /** Taking a snapshot with events journalled and delivering it: it is the last
      one stored, whatever was stored before. */
  lemma SnapshotStored<S(!new), E(!new)>(b: Behaviour<S, E>, id: string, w: World<S, E>, log: seq<E>)
    requires Lossless(b) && JournalInv(b, id, w, log) && ExactInv(b, id, w, log)
    requires w.phase.Up? && 0 < |log| <= PADDED_LIMIT as nat
    ensures var n, last := |w.mailbox|, (|log| - 1) as u64;
            var taken := Next(b, id, w, TakeSnapshot);
            && Enabled(id, taken, Step<E>.Deliver(n))
            && var stored := Next(b, id, taken, Deliver(n));
               && stored.journal == w.journal && stored.phase == w.phase
               && FjallLast(stored.snapshots, id) == Some((last, b.encodeState(w.phase.state)))
               && last in stored.origin && stored.origin[last] == |log|
  {
    hide FjallLast, FjallPut, View, Clean, Stores, Faithful, Fold, Lossless;
    var last := (|log| - 1) as u64;
    var data := b.encodeState(w.phase.state);
    var after := FjallPut(w.snapshots, id, last, data);
    OwnPut(w.snapshots, id, last, data);
    FjallLastIsLast(after, id);
    forall k | k in View(after, id) ensures k <= last {
      if k != last {
        assert ExactSnapshot(b, log, k, View(w.snapshots, id)[k], w.origin[k]);
      }
    }
    assert IsLast(View(after, id), Some((last, data)));
    LastUnique(View(after, id), FjallLast(after, id), Some((last, data)));
  }

  /** A restart whose last snapshot stands for the whole journal replays nothing. */
  lemma NothingToReplay<S(!new), E(!new)>(b: Behaviour<S, E>, id: string, w: World<S, E>, log: seq<E>, s: S)
    requires Lossless(b) && Stores(w.journal, id, Encoded(b, log)) && 0 < |log| <= PADDED_LIMIT as nat
    requires FjallLast(w.snapshots, id) == Some(((|log| - 1) as u64, b.encodeState(s)))
    ensures InitState(b, id, w.journal, w.snapshots) == Some(s)
  {
    hide InitState, FjallLast, Stores, Encoded;
    InitStateMeaning(b, id, w.journal, w.snapshots, log, (|log| - 1) as u64, s);
    assert Tail(log, (|log| - 1) as u64) == [];
  }

  /** Taking and delivering a snapshot at the end of a run. */
  lemma SnapshotRun<S(!new), E(!new)>(b: Behaviour<S, E>, id: string, steps: seq<Step<E>>)
    requires Lossless(b) && ValidRun(b, id, steps) && GuardedRun(b, id, steps)
    requires 0 < |Persisted(steps)| <= PADDED_LIMIT as nat && Run(b, id, steps).phase.Up?
    ensures var w, log := Run(b, id, steps), Persisted(steps);
            var saved := steps + [TakeSnapshot, Deliver(|w.mailbox|)];
            var last := (|log| - 1) as u64;
            && ValidRun(b, id, saved) && Persisted(saved) == log
            && Run(b, id, saved).phase == w.phase && w.phase.state == Fold(b, b.initial, log)
            && FjallLast(Run(b, id, saved).snapshots, id) == Some((last, b.encodeState(w.phase.state)))
            && last in Run(b, id, saved).origin && Run(b, id, saved).origin[last] == |log|
  {
    hide InitState, NextOf, FjallPut, FjallLast, Run, ValidRun, GuardedRun, Persisted, Fold, Stores, Encoded;
    var w, log := Run(b, id, steps), Persisted(steps);
    JournalOfRun(b, id, steps);
    ExactOfRun(b, id, steps);
    SnapshotStored(b, id, w, log);
    Extend(b, id, steps, TakeSnapshot);
    Extend(b, id, steps + [TakeSnapshot], Deliver(|w.mailbox|));
    assert steps + [TakeSnapshot, Deliver(|w.mailbox|)] == (steps + [TakeSnapshot]) + [Deliver(|w.mailbox|)];
  }

  /** A delivered snapshot makes the world recoverable, whatever was stored
      before: after any guarded run that leaves an actor up with events journalled,
      taking and delivering one stores the actor's state under the number of the
      last event, and a crash and a restart then rebuild every event. */
  lemma SnapshotRestores<S(!new), E(!new)>(b: Behaviour<S, E>, id: string, steps: seq<Step<E>>)
    requires Lossless(b) && ValidRun(b, id, steps) && GuardedRun(b, id, steps)
    requires 0 < |Persisted(steps)| <= PADDED_LIMIT as nat && Run(b, id, steps).phase.Up?
    ensures var w, log := Run(b, id, steps), Persisted(steps);
            var saved := steps + [TakeSnapshot, Deliver(|w.mailbox|), Crash];
            && ValidRun(b, id, saved) && Persisted(saved) == log
            && (match FjallLast(Run(b, id, saved).snapshots, id)
                case Some((k, data)) => k as nat == |log| - 1 && b.decodeState(data) == Some(w.phase.state)
                case None => false)
            && Recoverable(id, Run(b, id, saved), log)
            && ValidRun(b, id, saved + [Restart])
            && Run(b, id, saved + [Restart]).phase == Up(Fold(b, b.initial, log))
  {
    hide InitState, NextOf, FjallPut, FjallLast, Run, ValidRun, GuardedRun, Persisted, Fold, Stores, Encoded;
    var w, log := Run(b, id, steps), Persisted(steps);
    var taken := steps + [TakeSnapshot, Deliver(|w.mailbox|)];
    SnapshotRun(b, id, steps);
    Extend(b, id, taken, Crash);
    assert taken + [Crash] == steps + [TakeSnapshot, Deliver(|w.mailbox|), Crash];
    JournalOfRun(b, id, taken + [Crash]);
    NothingToReplay(b, id, Run(b, id, taken + [Crash]), log, w.phase.state);
    Extend(b, id, taken + [Crash], Restart);
  }

  /** Write-ahead: an event the journal holds when the actor crashes, before it
      was applied, is applied by the restart, which fails exactly when it fails. */
  lemma WriteAhead<S(!new), E(!new)>(b: Behaviour<S, E>, id: string, steps: seq<Step<E>>, e: E)
    requires Lossless(b) && ValidRun(b, id, steps) && GuardedRun(b, id, steps)
    requires 0 < |Persisted(steps)| < PADDED_LIMIT as nat && Run(b, id, steps).phase.Up?
    ensures var w, log := Run(b, id, steps), Persisted(steps);
            var crashed := steps + [TakeSnapshot, Deliver(|w.mailbox|), Append(e), Crash, Restart];
            && ValidRun(b, id, crashed) && Persisted(crashed) == log + [e]
            && Run(b, id, crashed).phase
               == if b.apply(w.phase.state, e).ok then Up(Fold(b, b.initial, log + [e])) else Down
  {
    hide InitState, NextOf, FjallPut, FjallLast, Run, ValidRun, GuardedRun, Persisted, Fold, Stores, Encoded;
    var w, log := Run(b, id, steps), Persisted(steps);
    var taken := steps + [TakeSnapshot, Deliver(|w.mailbox|)];
    var ahead := taken + [Append(e)];
    SnapshotRun(b, id, steps);
    Extend(b, id, taken, Append(e));
    Extend(b, id, ahead, Crash);
    JournalOfRun(b, id, ahead + [Crash]);
    OneToReplay(b, id, Run(b, id, ahead + [Crash]), log, w.phase.state, e);
    Extend(b, id, ahead + [Crash], Restart);
    assert steps + [TakeSnapshot, Deliver(|w.mailbox|), Append(e), Crash, Restart] == (ahead + [Crash]) + [Restart];
  }

  lemma {:induction false} OneToReplay<S(!new), E(!new)>(
    b: Behaviour<S, E>, id: string, w: World<S, E>, log: seq<E>, s: S, e: E)
    requires Lossless(b) && Stores(w.journal, id, Encoded(b, log + [e])) && 0 < |log| < PADDED_LIMIT as nat
    requires FjallLast(w.snapshots, id) == Some(((|log| - 1) as u64, b.encodeState(s)))
    requires s == Fold(b, b.initial, log)
    ensures InitState(b, id, w.journal, w.snapshots)
         == if b.apply(s, e).ok then Some(Fold(b, b.initial, log + [e])) else None
  {
    hide InitState, FjallLast, Stores, Encoded, Fold, AllApply, Base, Lossless, Tail;
    var last := (|log| - 1) as u64;
    SnapshotBase(b, id, w.snapshots, last, s);
    InitStateMeaning(b, id, w.journal, w.snapshots, log + [e], last, s);
    LastOfTail(log, e);
    FoldConcat(b, b.initial, log, [e]);
    OneApplies(b, s, e);
  }

  lemma SnapshotBase<S(!new), E(!new)>(b: Behaviour<S, E>, id: string, snapshots: Contents, k: u64, s: S)
    requires Lossless(b) && FjallLast(snapshots, id) == Some((k, b.encodeState(s)))
    ensures Base(b, id, snapshots) == Some((k, s))
  {
    hide FjallLast;
  }

  lemma LastOfTail<E>(log: seq<E>, e: E)
    requires 0 < |log| < PADDED_LIMIT as nat
    ensures Tail(log + [e], (|log| - 1) as u64) == [e]
  {
  }

  lemma OneApplies<S, E>(b: Behaviour<S, E>, s: S, e: E)
    ensures AllApply(b, s, [e]) == b.apply(s, e).ok
  {
    hide Fold;
    assert [e][1..] == [];
  }

  /** A queued snapshot can be lost, which leaves no trace of it. */
  lemma LostSnapshot<S, E>(b: Behaviour<S, E>, id: string, steps: seq<Step<E>>)
    requires ValidRun(b, id, steps) && Run(b, id, steps).phase.Up?
    ensures var lost := steps + [TakeSnapshot, Lose(|Run(b, id, steps).mailbox|)];
            ValidRun(b, id, lost) && Run(b, id, lost) == Run(b, id, steps)
  {
    hide InitState, NextOf, FjallPut, Run, ValidRun;
    var n := |Run(b, id, steps).mailbox|;
    Extend(b, id, steps, TakeSnapshot);
    Extend(b, id, steps + [TakeSnapshot], Lose(n));
    assert steps + [TakeSnapshot, Lose(n)] == (steps + [TakeSnapshot]) + [Lose(n)];
  }

  /** What another actor of the same type writes is stored, beside everything
      this actor has. */
  lemma ForeignStored<S, E>(b: Behaviour<S, E>, id: string, steps: seq<Step<E>>, p: string, k: u64, v: Bytes)
    requires ValidRun(b, id, steps) && Apart(p, id)
    ensures var put := StoreOp.Put(k, v);
            var run := steps + [ForeignJournal(p, put), ForeignSnapshots(p, put)];
            && ValidRun(b, id, run)
            && FjallGet(Run(b, id, run).journal, p, k) == Some(v)
            && FjallGet(Run(b, id, run).snapshots, p, k) == Some(v)
            && View(Run(b, id, run).journal, id) == View(Run(b, id, steps).journal, id)
            && View(Run(b, id, run).snapshots, id) == View(Run(b, id, steps).snapshots, id)
  {
    hide InitState, NextOf, View, Run, ValidRun;
    var put := StoreOp.Put(k, v);
    var w := Run(b, id, steps);
    Extend(b, id, steps, ForeignJournal(p, put));
    Extend(b, id, steps + [ForeignJournal(p, put)], ForeignSnapshots(p, put));
    assert steps + [ForeignJournal(p, put), ForeignSnapshots(p, put)]
        == (steps + [ForeignJournal(p, put)]) + [ForeignSnapshots(p, put)];
    StepApart(w.journal, p, id, put);
    StepApart(w.snapshots, p, id, put);
    SameView(w.journal, FjallStep(w.journal, p, put), id);
    SameView(w.snapshots, FjallStep(w.snapshots, p, put), id);
  }

  /** The actor that records its events: the state is the list of events applied. */
  ghost predicate Recorder<E(!new)>(b: Behaviour<seq<E>, E>) {
    b.initial == [] && forall s, e :: b.apply(s, e) == Applied(s + [e], true)
  }

  /** Such an actor whose encoding loses nothing: its events are single bytes. */
  function ByteRecorder(): Behaviour<Bytes, byte> {
    Behaviour([], (s: Bytes, e: byte) => Applied(s + [e], true),
              (e: byte) => [e], (data: Bytes) => if |data| == 1 then Some(data[0]) else None,
              (s: Bytes) => s, (data: Bytes) => Some(data))
  }

  lemma ByteRecorderIs()
    ensures Recorder(ByteRecorder()) && Lossless(ByteRecorder())
  {
  }

  lemma {:induction false} RecorderFold<E(!new)>(b: Behaviour<seq<E>, E>, s: seq<E>, events: seq<E>)
    requires Recorder(b)
    ensures Fold(b, s, events) == s + events && AllApply(b, s, events)
    decreases |events|
  {
    if events != [] {
      RecorderFold(b, s + [events[0]], events[1..]);
      FoldHead(b, s, events);
      assert s + events == (s + [events[0]]) + events[1..];
    } else {
      assert s + events == s;
    }
  }

  /** The guard is exact: after a guarded run, restarting the recording actor
      rebuilds the persisted events if and only if the world is recoverable. */
  lemma RecoveryExact<E(!new)>(b: Behaviour<seq<E>, E>, id: string, steps: seq<Step<E>>)
    requires Recorder(b) && Lossless(b) && ValidRun(b, id, steps) && GuardedRun(b, id, steps)
    requires |Persisted(steps)| <= PADDED_LIMIT as nat
    ensures var w, log := Run(b, id, steps), Persisted(steps);
            InitState(b, id, w.journal, w.snapshots) == Some(log) <==> Recoverable(id, w, log)
  {
    hide InitState, Recoverable, Base, Fold, AllApply, Run, ValidRun, GuardedRun, Persisted;
    var w, log := Run(b, id, steps), Persisted(steps);
    ExactOfRun(b, id, steps);
    JournalOfRun(b, id, steps);
    RestartExact(b, id, w, log);
    var (from, s) := Base(b, id, w.snapshots).value;
    RecorderFold(b, s, Tail(log, from));
    EmptyRecoverable(id, w);
    var rebuilt := if Recoverable(id, w, log) then log else log[1..];
    RecorderFold(b, b.initial, rebuilt);
    assert b.initial + rebuilt == rebuilt;
  }

  /** The smallest failing run, for every actor: one event, no snapshot, a
      crash. The restarted actor is in its initial state. */
  lemma FirstEventForgotten<S(!new), E(!new)>(b: Behaviour<S, E>, id: string, e: E)
    requires Lossless(b)
    ensures var steps := [Restart, Append(e), Apply, Crash, Restart];
            ValidRun(b, id, steps) && Persisted(steps) == [e] && Run(b, id, steps).phase == Up(b.initial)
  {
    hide InitState, NextOf, FjallPut, Lossless;
    var r0: seq<Step<E>> := [];
    var r1 := r0 + [Restart];
    var r2 := r1 + [Append(e)];
    var r3 := r2 + [Apply];
    var r4 := r3 + [Crash];
    Extend(b, id, r0, Restart);
    RestartWithoutSnapshot(b, id, r0);
    Extend(b, id, r1, Append(e));
    Extend(b, id, r2, Apply);
    Extend(b, id, r3, Crash);
    Extend(b, id, r4, Restart);
    RestartWithoutSnapshot(b, id, r4);
    assert [Restart, Append(e), Apply, Crash, Restart] == r4 + [Restart];
  }

  lemma Extend<S, E>(b: Behaviour<S, E>, id: string, steps: seq<Step<E>>, step: Step<E>)
    requires ValidRun(b, id, steps) && Enabled(id, Run(b, id, steps), step)
    ensures ValidRun(b, id, steps + [step])
    ensures Run(b, id, steps + [step]) == Next(b, id, Run(b, id, steps), step)
    ensures Persisted(steps + [step]) == if step.Append? then Persisted(steps) + [step.event] else Persisted(steps)
  {
    assert (steps + [step])[..|steps|] == steps;
  }

  /** With no snapshot, at most one event is never replayed. */
  lemma RestartWithoutSnapshot<S(!new), E(!new)>(b: Behaviour<S, E>, id: string, steps: seq<Step<E>>)
    requires Lossless(b) && ValidRun(b, id, steps) && |Persisted(steps)| <= 1
    requires Run(b, id, steps).snapshots == map[]
    ensures var w := Run(b, id, steps); InitState(b, id, w.journal, w.snapshots) == Some(b.initial)
  {
    hide InitState, Run, ValidRun, Persisted, FjallLast;
    var w, log := Run(b, id, steps), Persisted(steps);
    NothingStored(id);
    JournalOfRun(b, id, steps);
    InitStateMeaning(b, id, w.journal, w.snapshots, log, 0, b.initial);
    assert Tail(log, 0) == [];
  }

  lemma NothingStored(id: string)
    ensures FjallLast(map[], id) == None
  {
    var none: Contents := map[];
    LexOrder();
    assert Restrict(none, HasPrefix(id)) == none;
  }
}
