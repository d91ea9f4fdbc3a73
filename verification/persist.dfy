/** The persistent actor as objects: each operation takes the recovery model's
    step on the stored bytes.
 */
module Persistence {
  import opened Wrappers
  import opened PaddedKeys
  import opened Tables
  import opened Keyspaces
  import opened FjallStores
  import opened Journals
  import opened Recovery

  datatype ActorError =
    | JournalNotFound
    | SnapshotterNotFound
    | DeserializationFailed
    | ApplyFailed
    | ManagerNotFound
    | JournalStoreFailed
    | SnapshotStoreFailed
    | JournalNotCreated
    | SnapshotterNotCreated

  /** What the environment grants a start-up: the helper `storage`, that it opens
      the two stores, and that the two child actors start. */
  datatype Startup = Startup(manager: bool, journalStore: bool, snapshotStore: bool, journal: bool, snapshotter: bool)
  {
    /** The error of the first part that is missing. */
    function Error(): Option<ActorError> {
      if !manager then Some(ManagerNotFound)
      else if !journalStore then Some(JournalStoreFailed)
      else if !snapshotStore then Some(SnapshotStoreFailed)
      else if !journal then Some(JournalNotCreated)
      else if !snapshotter then Some(SnapshotterNotCreated)
      else None
    }
  }

  /** A start-up names the first part that is missing, in the order helper, journal
      store, snapshot store, journal, snapshotter; none exactly if all are there. */
  lemma StartupError(s: Startup)
    ensures s.Error().None? <==> s.manager && s.journalStore && s.snapshotStore && s.journal && s.snapshotter
    ensures s.Error().Some? ==>
              match s.Error().value
              case ManagerNotFound => !s.manager
              case JournalStoreFailed => s.manager && !s.journalStore
              case SnapshotStoreFailed => s.manager && s.journalStore && !s.snapshotStore
              case JournalNotCreated => s.manager && s.journalStore && s.snapshotStore && !s.journal
              case SnapshotterNotCreated =>
                s.manager && s.journalStore && s.snapshotStore && s.journal && !s.snapshotter
              case _ => false
  {
  }

  /** The snapshotter with its mailbox: saving is a message handled later. */
  class BaseSnapshotter {
    const store: FjallStore
    var mailbox: seq<Saved>
    ghost var origin: map<u64, nat>

    constructor (store: FjallStore, ghost origin: map<u64, nat>)
      ensures this.store == store && mailbox == [] && this.origin == origin
    {
      this.store := store;
      this.mailbox := [];
      this.origin := origin;
    }

    /** `tell(SaveSnapshot)` */
    method Tell(m: Saved)
      modifies this`mailbox
      ensures mailbox == old(mailbox) + [m]
    {
      mailbox := mailbox + [m];
    }

    /** Handles the oldest message. */
    method HandleNext()
      requires mailbox != []
      modifies this, store.keyspace
      ensures mailbox == RemoveAt(old(mailbox), 0)
      ensures var m := old(mailbox)[0];
              && store.keyspace.entries == FjallPut(old(store.keyspace.entries), store.prefix, m.key, m.data)
              && origin == old(origin)[m.key := m.taken]
              && LoadSnapshot(m.key) == Some(m.data)
              && forall k | k != m.key :: LoadSnapshot(k) == old(LoadSnapshot(k))
    {
      var m := mailbox[0];
      mailbox := mailbox[1..];
      SaveSnapshot(m.key, m.data, m.taken);
    }

    method SaveSnapshot(key: u64, data: Bytes, ghost taken: nat)
      modifies this`origin, store.keyspace
      ensures store.keyspace.entries == FjallPut(old(store.keyspace.entries), store.prefix, key, data)
      ensures origin == old(origin)[key := taken]
      ensures LoadSnapshot(key) == Some(data)
      ensures forall k | k != key :: LoadSnapshot(k) == old(LoadSnapshot(k))
    {
      hide FormatKey;
      forall k: u64 ensures FormatKey(store.prefix, k) == FormatKey(store.prefix, key) <==> k == key {
        FormatInjective(store.prefix, k, key);
      }
      store.Put(key, data);
      origin := origin[key := taken];
    }

    function LoadSnapshot(key: u64): Option<Bytes>
      reads store.keyspace
    {
      match store.Get(key)
      case Ok(data) => Some(data)
      case Err(_) => None
    }

    function LastSnapshot(): Option<Entry>
      reads store.keyspace
    {
      store.Last()
    }

    /** The number of the last snapshot is the greatest saved, and loading it
        gives the same bytes. */
    lemma LastIsGreatest()
      requires Clean(store.keyspace.entries, store.prefix)
      ensures IsLast(View(store.keyspace.entries, store.prefix), LastSnapshot())
      ensures LastSnapshot().Some? ==> LoadSnapshot(LastSnapshot().value.0) == Some(LastSnapshot().value.1)
      ensures LastSnapshot().None? ==> forall k :: LoadSnapshot(k) == None
    {
      FjallLastIsLast(store.keyspace.entries, store.prefix);
    }
  }

  /** The first event that fails, and why. */
  ghost predicate FailsAt<S, E>(b: Behaviour<S, E>, s: S, events: seq<Entry>, i: nat, error: ActorError)
    requires i < |events|
  {
    Breaks(b, s, events, i) && error == if b.decodeEvent(events[i].1).None? then DeserializationFailed else ApplyFailed
  }

  class PersistentActor<S, E> {
    const id: string
    const behaviour: Behaviour<S, E>
    const journals: Keyspace
    const snapshots: Keyspace
    var state: S
    var journal: BaseJournal?
    var snapshotter: BaseSnapshotter?

    /** A fresh actor of this identity, with no children yet. */
    constructor (id: string, behaviour: Behaviour<S, E>, journals: Keyspace, snapshots: Keyspace)
      requires journals != snapshots
      ensures this.id == id && this.behaviour == behaviour
      ensures this.journals == journals && this.snapshots == snapshots
      ensures state == behaviour.initial && journal == null && snapshotter == null
    {
      this.id := id;
      this.behaviour := behaviour;
      this.journals := journals;
      this.snapshots := snapshots;
      state := behaviour.initial;
      journal := null;
      snapshotter := null;
    }

    /** The journal exists and works on this actor's store; so does the
        snapshotter, if it exists. */
    ghost predicate HasJournal()
      reads this, journal, snapshotter
    {
      && journals != snapshots
      && journal != null && journal.store.prefix == id && journal.store.keyspace == journals
      && (snapshotter != null ==> snapshotter.store.prefix == id && snapshotter.store.keyspace == snapshots)
    }

    /** Both children exist. */
    ghost predicate Running()
      reads this, journal, snapshotter
    {
      HasJournal() && snapshotter != null
    }

    /** The world of the recovery model that the objects stand for; without a
        snapshotter no snapshot is queued. */
    ghost function World(): World<S, E>
      reads this, journal, snapshotter, journals, snapshots
      requires HasJournal()
    {
      var mailbox, origin := if snapshotter == null then [] else snapshotter.mailbox,
                             if snapshotter == null then map[] else snapshotter.origin;
      Recovery.World(journals.entries, snapshots.entries, journal.nextSequence, Up(state), mailbox, origin)
    }

    /** The world before a fresh actor starts on keyspaces with this history. */
    ghost function Stopped(origin: map<u64, nat>): World<S, E>
      reads journals, snapshots
    {
      Recovery.World(journals.entries, snapshots.entries, 0, Down, [], origin)
    }

    /** Opens the stores, loads the last snapshot and replays what follows it.
        When it succeeds the objects are in the world after `Restart`; it fails
        exactly when a store or child is missing or the recovery model's restart
        fails, and stores nothing in any case. */
    method InitState(startup: Startup, ghost origin: map<u64, nat>) returns (r: Result<(), ActorError>)
      requires journals != snapshots && state == behaviour.initial
      modifies this
      ensures journals.entries == old(journals.entries) && snapshots.entries == old(snapshots.entries)
      ensures startup.Error().Some? ==> r == Err(startup.Error().value) && state == old(state)
      ensures startup.Error().None? ==> Running() && fresh(journal) && fresh(snapshotter)
      ensures r.Ok? <==> startup.Error().None?
                         && Recovery.InitState(behaviour, id, journals.entries, snapshots.entries).Some?
      ensures r.Ok? ==> World() == Next(behaviour, id, old(Stopped(origin)), Restart)
      ensures r.Err? && startup.Error().None? ==> r.error.DeserializationFailed? || r.error.ApplyFailed?
    {
      hide FjallLast, FjallIter, Replay, FjallPut, NextOf;
      r := CreateStores(startup, origin);
      if r.Err? {
        return;
      }
      var from: u64 := 0;
      match snapshotter.LastSnapshot() {
        case None =>
        case Some((key, data)) =>
          from := key;
          match behaviour.decodeState(data) {
            case None => return Err(DeserializationFailed);
            case Some(s) => state := s;
          }
      }
      var events := journal.Range(Successor(from), None);
      r := ReplayEvents(events);
    }

    /** Applies the stored events in turn, up to the first that fails, and says
        whether that one could not be decoded or not be applied. */
    method ReplayEvents(events: seq<Entry>) returns (r: Result<(), ActorError>)
      modifies this`state
      ensures Replay(behaviour, old(state), events) == if r.Ok? then Some(state) else None
      ensures r.Err? ==> exists i | 0 <= i < |events| :: FailsAt(behaviour, old(state), events, i, r.error)
    {
      assert events[..0] == [];
      for i := 0 to |events|
        invariant Replay(behaviour, old(state), events) == Replay(behaviour, state, events[i..])
        invariant Replay(behaviour, old(state), events[..i]) == Some(state)
      {
        ReplayOneMore(behaviour, old(state), events[..i], events[i]);
        assert events[..i + 1] == events[..i] + [events[i]];
        assert events[i..][1..] == events[i + 1..];
        var event := behaviour.decodeEvent(events[i].1);
        if event.None? {
          assert FailsAt(behaviour, old(state), events, i, DeserializationFailed);
          return Err(DeserializationFailed);
        }
        var a := behaviour.apply(state, event.value);
        state := a.state;
        if !a.ok {
          assert FailsAt(behaviour, old(state), events, i, ApplyFailed);
          return Err(ApplyFailed);
        }
      }
      r := Ok(());
    }

    /** Opens both stores and creates the children, journal first. */
    method CreateStores(startup: Startup, ghost origin: map<u64, nat>) returns (r: Result<(), ActorError>)
      requires journals != snapshots
      modifies this`journal, this`snapshotter
      ensures r == match startup.Error() case Some(e) => Err(e) case None => Ok(())
      ensures r.Ok? ==> Running() && fresh(journal) && fresh(snapshotter)
      ensures r.Ok? ==> journal.nextSequence == NextOf(journals.entries, id)
      ensures r.Ok? ==> snapshotter.mailbox == [] && snapshotter.origin == origin
      ensures r.Err? ==> snapshotter == old(snapshotter) && (r.error.SnapshotterNotCreated? || journal == old(journal))
      ensures r == Err(SnapshotterNotCreated) && old(snapshotter) == null ==>
                HasJournal() && fresh(journal) && journal.nextSequence == NextOf(journals.entries, id)
    {
      if !startup.manager {
        return Err(ManagerNotFound);
      }
      if !startup.journalStore {
        return Err(JournalStoreFailed);
      }
      var journalStore := new FjallStore("Journal", id, journals);
      if !startup.snapshotStore {
        return Err(SnapshotStoreFailed);
      }
      var snapshotStore := new FjallStore("Snapshotter", id, snapshots);
      if !startup.journal {
        return Err(JournalNotCreated);
      }
      journal := new BaseJournal(journalStore);
      if !startup.snapshotter {
        return Err(SnapshotterNotCreated);
      }
      snapshotter := new BaseSnapshotter(snapshotStore, origin);
      r := Ok(());
    }

    /** Journals the event first, applies it after; an apply error is reported
        but the event stays in the journal. */
    method Persist(event: E) returns (r: Result<u64, ActorError>)
      requires journal != null ==> HasJournal()
      modifies this, journal, journals
      ensures old(journal) == null ==> r == Err(JournalNotFound) && unchanged(this) && unchanged(journals)
      ensures old(journal) != null ==>
                && HasJournal() && journal == old(journal) && snapshotter == old(snapshotter)
                && var put := Next(behaviour, id, old(World()), Append(event));
                   && World() == Next(behaviour, id, put, Apply)
                   && r == if behaviour.apply(put.phase.state, event).ok
                           then Ok(old(journal.nextSequence)) else Err(ApplyFailed)
      ensures old(journal) != null ==>
                && state == behaviour.apply(old(state), event).state
                && (r.Ok? <==> behaviour.apply(old(state), event).ok)
                && forall log | old(journal.Holds(log)) && |log| < PADDED_LIMIT as nat ::
                     journal.Holds(log + [behaviour.encodeEvent(event)]) && (r.Ok? ==> r.value as nat == |log|)
    {
      if journal == null {
        return Err(JournalNotFound);
      }
      forall log | journal.Holds(log) && |log| < PADDED_LIMIT as nat
        ensures Stores(FjallPut(journals.entries, id, |log| as u64, behaviour.encodeEvent(event)), id,
                       log + [behaviour.encodeEvent(event)])
      {
        StoresAppend(journals.entries, id, log, behaviour.encodeEvent(event));
      }
      var sn := journal.Put(behaviour.encodeEvent(event), []);
      var a := behaviour.apply(state, event);
      state := a.state;
      r := if a.ok then Ok(sn) else Err(ApplyFailed);
    }

    /** Queues exactly one snapshot, of the current state, under the number of the
        last journalled event, or zero without any. */
    method Snapshot() returns (r: Result<(), ActorError>)
      requires journal != null && snapshotter != null ==> Running()
      modifies snapshotter
      ensures r == if journal == null then Err(JournalNotFound)
                   else if snapshotter == null then Err(SnapshotterNotFound) else Ok(())
      ensures r.Ok? ==> Running() && World() == Next(behaviour, id, old(World()), TakeSnapshot)
      ensures r.Ok? ==>
                && snapshotter.mailbox != []
                && var m := snapshotter.mailbox[|snapshotter.mailbox| - 1];
                   && snapshotter.mailbox == old(if snapshotter == null then [] else snapshotter.mailbox) + [m]
                   && (forall log | journal.Holds(log) :: m.key as nat == if log == [] then 0 else |log| - 1)
                   && (behaviour.decodeState(behaviour.encodeState(state)) == Some(state) ==>
                         behaviour.decodeState(m.data) == Some(state))
    {
      if journal == null {
        return Err(JournalNotFound);
      }
      if snapshotter == null {
        return Err(SnapshotterNotFound);
      }
      var sn := journal.LatestSequence();
      snapshotter.Tell(Saved(sn, behaviour.encodeState(state), journal.nextSequence as nat));
      r := Ok(());
    }

    /** The snapshotter's turn: the oldest queued snapshot is stored. */
    method DeliverSnapshot()
      requires Running() && snapshotter.mailbox != []
      modifies snapshotter, snapshots
      ensures Running() && World() == Next(behaviour, id, old(World()), Deliver(0))
    {
      snapshotter.HandleNext();
    }
  }
}
