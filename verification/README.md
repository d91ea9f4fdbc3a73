# Verified model of the actor and event store crates

This project models, in Dafny, three parts of the repository and proves what
they promise over every input and every run.

* **Event-sourced persistence** (`store/`). A tower of four levels: string keys
  in an ordered keyspace, a sorted map from `u64` to bytes, a dense log, and the
  fold of `apply_event`. Each level is proved to be the one above it, and crash
  recovery is proved over every run of persisting, snapshotting, delivering or
  losing queued snapshots, crashing, restarting, and writes by other actors of
  the same type.
* **Lifecycle and supervision** (`actor/src/runner.rs`, `system.rs`,
  `supervision.rs`). The loop of one actor, the tables of one supervisor, a tree
  of supervisors over one registry, and the stop protocol of a whole tree.
* **Actor paths** (`actor/src/path.rs`). Parser, printer, and ancestry decided
  on printed strings.

| file | contents |
|---|---|
| `padded_keys.dfy` | key format, its parser, byte order against numeric order |
| `ordered_maps.dfy`, `tables.dfy`, `keyspaces.dfy` | maps listed in key order, the reference table, prefix scans |
| `fjall_store.dfy`, `memory_store.dfy`, `backends.dfy` | the two stores, isolation, agreement |
| `frames.dfy`, `journal.dfy` | the export stream, the dense log |
| `recovery.dfy`, `persist.dfy` | runs of a persistent actor; the same operations on objects |
| `path.dfy` | actor paths |
| `strategies.dfy`, `runner.dfy`, `run_loop.dfy` | retry strategies, the lifecycle loop, the loop of a started actor |
| `supervisor.dfy`, `supervision_tree.dfy` | one supervisor, many supervisors over one registry |
| `shutdown.dfy`, `shutdown_invariant.dfy`, `shutdown_order.dfy` | the stop protocol, its invariant, order and progress |
| `shutdown_loop.dfy` | the protocol's steps as turns and calls of one actor's loop |
| `shutdown_progress.dfy` | the protocol's own steps end, and where |
| `shutdown_alone.dfy`, `shutdown_drain.dfy`, `shutdown_stuck.dfy` | when everybody in a tree stops, exactly |
| `shutdown_branch.dfy`, `shutdown_waits.dfy` | how few emissions an actor needs, and for whom it waits |
| `shutdown_reuse.dfy`, `shutdown_runs.dfy` | paths used again; runs from the start that reach the states in question |

Objects whose methods change their fields are classes; each method is proved
against a function on values (`FjallPut`, `Next`, `StopEach`, ...), and the
theorems are about runs of those functions.

## Modelling decisions

* Strings are sequences of Unicode scalar values. UTF-8 keeps their order and
  their prefixes, so byte comparison of stored keys is scalar comparison.
* Sequence numbers are 64-bit. `next_sequence += 1` wraps, as in a release
  build. `usize` has 64 bits.
* `select!` is a free choice among ready branches. Channels are FIFO queues
  without a capacity limit. A queued snapshot may be delivered or lost in any
  order, which includes every order a mailbox can have, and also after a crash.
* `apply_event` may fail. It returns the state it leaves and whether it
  succeeded; `Fold` ignores the failure, since the event is journalled and the
  state kept either way, and a restart fails exactly when a replayed event does.
* A restart is a fresh actor that starts from one initial state and calls
  `init_state`.
* `MemoryStore::prefix`, which `store/src/stores/memory.rs` does not show, returns
  the stored field.
* Actors are told apart by number. Handlers see paths and channels only, so a path
  may be used again as soon as the registry lets it, also while its first actor is
  still stopping. A new actor's number is above all earlier ones.
* An actor that waits for a child's start-up does nothing else meanwhile; the
  system, whose handler is shared by clones, does.
* `taken`, `origin`, `waited`, `behind`, `emitted`, `clean` and the number in a
  signal record history: no operation of the model depends on them. `created` says
  which supervisor an actor reports to.
* In `shutdown.dfy` a whole turn is one step: stopping or restarting all children,
  and the attempts to start or restart an actor, are atomic towards the other
  actors, which in the source may run between two sends.
* In `shutdown.dfy` the queues of an actor exist until its runner is dropped,
  which is a step of its own after Stopped was emitted. A handled action leaves its
  queue at the end of the turn.

## What the proofs found

* **The first event can be lost.** Replay starts at `from + 1` with `from = 0`
  when there is no snapshot, and the first event has number 0. In every run the
  rebuilt state is the fold of all events or of all but the first
  (`LosesAtMostTheFirst`). It is the fold of all when every restart finds an
  empty journal or a last snapshot taken from a non-empty one (`CrashRecovery`);
  that condition cannot be weakened (`RecoveryExact`), and the smallest failing
  run is given (`FirstEventForgotten`). A delivered snapshot always brings it about
  (`SnapshotRestores`), and what was journalled but not applied comes back (`WriteAhead`).
* **Stored order is numeric order exactly below 10^14** (`OrderBoundExact`). Past
  that a reopened journal finds its length only if its last number is still last
  in byte order (`ReopenExact`).
* **Prefix scans have no separator.** A store reads entries of any store whose
  prefix extends its own (`ExtensionIsVisible`); `IsolationExact` states for which
  pairs of prefixes a put through one is visible to the other.
* **Export truncates sizes** of 2^32 bytes and more (`RoundTripExact`), and
  **insert past the end** breaks the density of the log
  (`Journals.BaseJournal.Insert`).
* **A parent waits for one child only.** `stop_children` deregisters all
  children at once, so the first Stopped signal finds none registered
  (`NextSignalEnds`). From every tree at rest the run can go on so that an actor
  emits while only one branch below it has (`BranchStops`, reached from the start in
  `OneChildOnly`). What holds in every tree is that some child has emitted first
  (`SomeChildFirst`). The full order holds if and only if the child is the only one
  (`OrderExact`, `WaitsExactly`, and over whole runs `ShutdownOrder`, `ChainOrder`).
* **A late Stopped signal hits the next actor of its path.** When a parent creates a
  child under a name it has used before, the Stopped signal of the first takes the
  registration and the channel of the second. That one goes on running, and no
  continuation ever tells it to stop (`StaleRun`, `UntoldForever`). It happens if and
  only if an earlier child of that path is still unheard (`StaleIffRival`).
  `ForgottenExact` lists, for every state and step, all ways to lose a channel so: a
  second start-up of the path is one, whether it succeeds or fails.
* **An actor goes with its last child.** Any Stopped signal that leaves no direct child
  registered ends the loop (`StoppedExact`), also of an actor that nobody told to stop:
  one that stops its only child by name stops too (`LastChildTakesParent`).
* **An actor told to stop may stay.** `stop_children` ends at the first child it has
  no live channel for; the remaining ones are not told, and the actor's own Stop is
  consumed (`ToldExact`, `BehindExact`, and from the start `StallRun`, `WaitingRun`).
  No step of the protocol is then left for it, until one of its handlers stops the
  remaining children. Over a tree at rest this is the only reason: in every run of the
  protocol's own steps everybody in the tree stops if and only if every table in
  it names all registered direct children (`EverybodyStopsExact`, from the start
  `EverybodyRun`). Those steps always end (`OwnStepsEnd`, `NotQuiescentGoesOn`).
* **A cancelled system need not wait.** The token stays cancelled, so from every state
  the runner may pick that branch again and again, until nothing is registered, and
  finish with every actor as it was (`NeverWaits`, from the start `SystemRun`).
* **Custom backoff never advances in supervision**: the strategy is made anew for
  each attempt (`WaitNeverAdvances`).
* **Supervisor tables can disagree** when a path is used again while its first actor
  is still stopping, or when a name has several tokens (`ReusedPathFails`,
  `MultiTokenFails`, both runs from the start that end in "not found for stopping").
  Over every run the tables agree throughout if and only if each creation and each
  registration met a condition on the tables (`AgreeExact`). An error that reaches the
  system makes it stop grandchildren through its own table: one is deregistered and
  none is told to stop (`SystemErrorOrphans`).

## Model

| member | source | states |
|---|---|---|
| PaddedKeys.ParseFormat | store/src/stores/fjall.rs:88-99 | the number of a stored key reads back, for every u64 and any prefix, also one with colons |
| PaddedKeys.FormatInjective | store/src/stores/fjall.rs:155 | two numbers of one store have the same key only if they are equal |
| PaddedKeys.FormatExact | store/src/stores/fjall.rs:154-157 | exactly which string is the key of a number: the prefix, a colon, and its decimal digits, fourteen of them or more without a leading zero |
| PaddedKeys.ParseExact | store/src/stores/fjall.rs:88-99 | exactly which number a key denotes: the decimal digits after its last colon, at least one, with at most a plus sign before them, below 2^64 |
| PaddedKeys.PaddedOfValue | store/src/stores/fjall.rs:145 | every fourteen-digit numeral is the padding of the number it denotes, which is below 10^14 |
| PaddedKeys.OrderExact | store/src/stores/fjall.rs:154-157 | for any two u64 keys, the exact arithmetic condition for byte order to agree with numeric order |
| PaddedKeys.OrderPreserved | store/src/stores/fjall.rs:154-157 | below 10^14, byte order of keys is numeric order |
| PaddedKeys.OrderBoundExact | store/src/stores/memory.rs:99-107 | numeric order holds among all keys below n if and only if n is at most 10^14 |
| PaddedKeys.LastInOrderExact | store/src/stores/fjall.rs:164-173 | a number's key is last in byte order among all smaller numbers if and only if it is padded or all but its last digit are nines |
| Keyspaces.ScanIsTable | store/src/stores/fjall.rs:128-132 | a prefix scan of a store's own keys, parsed, lists its numbered table in ascending numeric order |
| Keyspaces.PrefixIteratorExact | store/src/stores/fjall.rs:128-132 | for any keyspace: a numbered scan yields exactly the entries whose key starts with the prefix and has a number |
| Tables.AnswerExact | store/src/stores/mod.rs:195-209 | what an iteration means: the entries within its inclusive bounds, each once, ascending or in reverse descending, and with a limit the first of them |
| FjallStores.FjallAnswers | store/src/stores/fjall.rs:184-232 | every Forward, Reverse and Range iteration yields the matching submap of the table in order |
| FjallStores.FjallIterExact | store/src/stores/fjall.rs:184-232 | an iteration of a clean store yields exactly the stored entries with numbers within the inclusive bounds, in order, and with a limit the first of them |
| FjallStores.FjallIterAny | store/src/stores/fjall.rs:184-232 | for any keyspace: it yields the scanned entries within the bounds, a missing upper bound being the number of the last key, or zero |
| FjallStores.FjallLastIsLast | store/src/stores/fjall.rs:164-173 | `last` is the entry with the greatest number, and none only for an empty table |
| FjallStores.FjallLastExact | store/src/stores/fjall.rs:164-173 | for any keyspace: `last` is the entry of the greatest key in byte order with the prefix, if that key has a number |
| FjallStores.DefaultBounds | store/src/stores/fjall.rs:112-117 | `last_key` bounds every stored number, so the default bounds of an iteration drop nothing |
| FjallStores.FjallStore.Get | store/src/stores/fjall.rs:144-152 | the table's value, or an error naming the missing key |
| FjallStores.FjallStore.Put | store/src/stores/fjall.rs:154-157 | writes one formatted key of the shared keyspace and nothing else |
| FjallStores.FjallStore.Del | store/src/stores/fjall.rs:159-162 | removes one formatted key and nothing else |
| FjallStores.FjallStore.Purge | store/src/stores/fjall.rs:175-182 | removing the scanned keys one by one leaves exactly the entries whose key does not start with the bare prefix |
| FjallStores.FjallDbManager.CreateStore | store/src/stores/fjall.rs:46-56 | stores of one name share a keyspace whatever their prefix; a new name gets a new empty one |
| MemoryStores.MemoryAnswers | store/src/stores/memory.rs:142-193 | the collected iterations and `last` answer as the table does, default bounds and counts included |
| MemoryStores.MemoryIterExact | store/src/stores/memory.rs:142-193 | an iteration of a store's own map yields exactly the stored entries with numbers within the inclusive bounds, in order, and with a limit the first of them |
| MemoryStores.MemoryIterAny | store/src/stores/memory.rs:142-193 | for any contents: it yields the collected entries within the bounds, a missing upper bound being the number of the last of them |
| MemoryStores.IterPrefixIsTable | store/src/stores/memory.rs:47-78 | the filtered, parsed entries are the table in ascending numeric order |
| MemoryStores.MemoryLastIsLast | store/src/stores/memory.rs:119-131 | the reverse search for a parsable key, which ignores the prefix, finds the greatest number of the table |
| MemoryStores.MemoryLastExact | store/src/stores/memory.rs:119-131 | for any contents: `last` is the entry of the greatest key in byte order that has a number, whatever its prefix |
| MemoryStores.MemoryStore.Get | store/src/stores/memory.rs:86-97 | the table's value, or an error naming the missing key |
| MemoryStores.MemoryStore.Put | store/src/stores/memory.rs:99-107 | writes one formatted key |
| MemoryStores.MemoryStore.Del | store/src/stores/memory.rs:109-117 | removes one formatted key |
| MemoryStores.MemoryStore.Purge | store/src/stores/memory.rs:133-140 | empties the map |
| MemoryStores.MemoryDbManager.CreateStore | store/src/stores/memory.rs:20-34 | stores share a map if and only if both name and prefix are equal |
| Backends.BackendsAgree | store/src/stores/mod.rs:91-193 | after any run of put, del and purge over any number of stores with prefixes apart, both backends answer get, last and every iteration from one sorted table per store |
| Backends.FjallRunIsTable | store/src/stores/fjall.rs:154-182 | over every such run the shared keyspace restricted to a store is that store's table |
| Backends.MemoryRunIsTable | store/src/stores/memory.rs:99-140 | over every such run a store's own map is that store's table |
| Backends.OwnStep | store/src/stores/fjall.rs:154-182 | put, del and purge act on a store's table as map update, removal and clearing, and keep its keys parsable |
| Backends.Isolation | store/src/stores/fjall.rs:112-182 | with neither prefix a string prefix of the other, any run of operations with any keys through one store leaves every observation of the other unchanged, whatever the keyspace held |
| Backends.ApartExact | store/src/stores/fjall.rs:112-182 | prefixes are apart if and only if they differ in a character both have |
| Backends.IsolationExact | store/src/persist.rs:139-146 | for any two prefixes, a put through one is invisible to the other for every padded key and keyspace if and only if the prefixes do not collide |
| Backends.ExtensionIsVisible | store/src/stores/fjall.rs:164-173 | an empty store reports as its last entry one written by any store whose prefix extends its own |
| Frames.RoundTripExact | store/src/journal.rs:282-311 | reading back the written frames gives the log if and only if every event is shorter than 2^32 bytes |
| Frames.ReadOfFrame | store/src/journal.rs:303-311 | reading a frame yields the event cut to the low 32 bits of its size, and leaves the remainder in the stream |
| Frames.FrameBytes | store/src/journal.rs:282-300 | the bytes written for an event below 2^32 bytes: its size in four bytes, most significant first, then the event |
| Frames.ReadBytes | store/src/journal.rs:303-311 | the bytes read: four bytes give a size, that many bytes follow, and fewer end the import |
| Frames.TruncatedImport | store/src/journal.rs:239-267 | every byte prefix of an export decodes to exactly the events whose frames are complete |
| Frames.CompleteIsLargest | store/src/journal.rs:303-311 | the number of those events is the largest whose frames fit in the bytes given |
| Journals.BaseJournal.constructor | store/src/journal.rs:53-62 | opening a dense store finds the length of its log |
| Journals.NextIsLength | store/src/journal.rs:53-62 | the number after the last stored one is the length of the log, zero when empty |
| Journals.ReopenExact | store/src/journal.rs:53-62 | for a log of any length, reopening finds its length if and only if its last number is still last in byte order |
| Journals.BaseJournal.Put | store/src/journal.rs:86-92 | appends under `next_sequence`, keeps the log dense, and the number replied is the old length |
| Journals.BaseJournal.Insert | store/src/journal.rs:108-113 | replaces an event when the number is taken; past the end no dense log is left |
| Journals.BaseJournal.LastOfLog | store/src/journal.rs:144-148 | `last` is the last event with its number, and none exactly when the log is empty |
| Journals.BaseJournal.RangeOfLog | store/src/journal.rs:164-168 | `range` is the matching slice of the log, numbered, in order |
| Journals.BaseJournal.Export | store/src/journal.rs:196-226 | a dense journal exports the frames of its log; otherwise it fails exactly at the first missing number |
| Journals.BaseJournal.Import | store/src/journal.rs:238-268 | the journal then holds exactly the events readable from the stream, numbered from zero; stores with prefixes apart are untouched |
| Journals.StoresUnique | store/src/journal.rs:66-71 | a keyspace determines the log it holds, its length included |
| Recovery.JournalOfRun | store/src/persist.rs:221-248 | over every run the journal holds exactly the persisted events and a running actor knows their number |
| Recovery.ReturnedNumber | store/src/journal.rs:388-394 | the number the next `persist` returns counts all events persisted before, across restarts |
| Recovery.ReplayIsFold | store/src/persist.rs:105-113 | replaying stored events is the fold of `apply_event`, and fails exactly when one of them fails |
| Recovery.ReplayFailsExact | store/src/persist.rs:105-113 | whatever bytes are stored, a replay fails if and only if some event cannot be decoded or fails to apply on the state rebuilt so far; none is skipped |
| Recovery.RestartFailsExact | store/src/persist.rs:81-116 | whatever bytes are stored, a restart fails if and only if the last snapshot cannot be decoded or an event after its number breaks the replay |
| Recovery.InitStateMeaning | store/src/persist.rs:81-116 | a restart rebuilds the fold of the events after the base snapshot's number onto that snapshot |
| Recovery.LosesAtMostTheFirst | store/src/persist.rs:81-116 | in every run whatsoever the state is the fold of all persisted events or of all but the first |
| Recovery.CrashRecovery | store/src/persist.rs:81-116 | over every guarded run, whichever queued snapshots survive, the state is the fold of the whole journal, or of all but the last event between reply and apply |
| Recovery.RestartExact | store/src/persist.rs:81-116 | a restart rebuilds the fold of all events if the world is recoverable and of all but the first if not, and fails exactly when a replayed event fails |
| Recovery.RecoveryExact | store/src/persist.rs:83-105 | for the actor that records its events, a restart rebuilds the journal if and only if the world is recoverable |
| Recovery.LastKeySuffices | store/src/persist.rs:83-98 | over every guarded run a last snapshot under a number above zero is enough to recover; without any, only an empty journal is |
| Recovery.FirstEventForgotten | store/src/persist.rs:83-105 | for every actor: start, one event, crash, restart ends in the initial state |
| Recovery.SnapshotRestores | store/src/persist.rs:444-466 | after any guarded run that leaves an actor up with events, a snapshot that is taken and delivered decodes to its state under the last event's number, makes the world recoverable, and a crash and restart rebuild every event |
| Recovery.WriteAhead | store/src/persist.rs:221-248 | an event in the journal that was not applied when the actor crashed is applied by the restart, which fails exactly when applying it fails |
| Recovery.LostSnapshot | store/src/persist.rs:444-466 | a queued snapshot may be lost, which leaves the world as if it had not been taken |
| Recovery.ForeignStored | store/src/persist.rs:139-146 | what another actor of the type writes in both keyspaces is stored, and leaves this actor's tables |
| Recovery.GuardedExact | store/src/persist.rs:81-116 | a run is guarded if and only if the world is recoverable before each of its restarts |
| Recovery.SnapshotsOfRun | store/src/persist.rs:444-466 | over every run each stored or queued snapshot is the fold, up to the first event, of the events up to its number |
| Recovery.ExactOfRun | store/src/snapshotter.rs:59-64 | over every guarded run each stored or queued snapshot is the fold of exactly the events journalled when it was taken |
| Persistence.BaseSnapshotter.SaveSnapshot | store/src/snapshotter.rs:59-64 | stores the bytes under the formatted sequence number, from where they load again; every other number loads what it did |
| Persistence.BaseSnapshotter.LastIsGreatest | store/src/snapshotter.rs:79-99 | `last_snapshot` has the greatest number, and loading that number gives the same bytes |
| Persistence.BaseSnapshotter.HandleNext | store/src/snapshotter.rs:155-179 | handles the oldest message: one put, one message less |
| Persistence.PersistentActor.InitState | store/src/persist.rs:81-116 | on the objects takes exactly the Restart step of the recovery model; fails exactly when the store manager or a child is missing or that step fails, and stores nothing |
| Persistence.PersistentActor.ReplayEvents | store/src/persist.rs:105-113 | the loop computes the replay of the stored events, stops at the first that fails, and says whether that one could not be decoded or not be applied |
| Persistence.PersistentActor.CreateStores | store/src/persist.rs:133-165 | the children work on the shared keyspaces of the type under this actor's identity; the first part that is missing or cannot be opened is the error, and leaves the later ones uncreated |
| Persistence.StartupError | store/src/persist.rs:133-165 | the error of a start-up is that of the first part missing, and there is none if and only if no part is |
| Persistence.PersistentActor.Persist | store/src/persist.rs:221-248 | with a journal, also without a snapshotter, journals first and applies after: the log grows by the event under the number returned, the state is the applied one, and an apply error leaves both |
| Persistence.PersistentActor.Snapshot | store/src/persist.rs:444-466 | queues exactly one snapshot and stores nothing: its number is one less than the count of journalled events, zero without any, and its data decodes to the state |
| Persistence.PersistentActor.DeliverSnapshot | store/src/snapshotter.rs:155-165 | the snapshotter's turn is the Deliver step of the oldest message |
| Paths.BuildersWellFormed | actor/src/path.rs:170-208 | parse, division, root, parent and level of well-formed paths are well-formed |
| Paths.ParseDisplay | actor/src/path.rs:210-218 | parsing a printed path gives it back |
| Paths.NormalForm | actor/src/path.rs:170-179 | printing a parsed string is a normal form that parsing keeps |
| Paths.DisplayInjective | actor/src/path.rs:210-218 | two well-formed paths print alike if and only if they are equal |
| Paths.DivIsConcat | actor/src/path.rs:194-208 | parsing `s` and dividing by `t` is parsing `s/t` |
| Paths.ChildExact | actor/src/path.rs:141-157 | a name makes a direct child if and only if it is a single token, and then dividing by the child's key names it again |
| Paths.EmptyExact | actor/src/path.rs:170-179 | a string denotes the empty path if and only if it consists of slashes and white space |
| Paths.DisplayChild | actor/src/path.rs:210-218 | a child prints as its parent followed by a slash and its name; the empty path prints as a slash |
| Paths.ParentExact | actor/src/path.rs:39-63 | a path is its parent divided by its key; one path is the parent of another if and only if the other has exactly one token more, or both are empty |
| Paths.AtLevelExact | actor/src/path.rs:21-91 | the path at a lower level is the only ancestor there, at any other level the path itself; the root is the one at level one |
| Paths.AncestorExact | actor/src/path.rs:79-129 | ancestry by printed strings is proper prefix of tokens, is the converse of descendance, and is equality at the ancestor's level |
| Paths.AncestorOrder | actor/src/path.rs:111-143 | parents are ancestors, ancestry is transitive, and two ancestors of one path are comparable |
| Strategies.StrategyCell.NextBackoff | actor/src/supervision.rs:62-78 | returns the strategy's wait and drops the first duration of a custom one |
| Strategies.PoppedQueue | actor/src/supervision.rs:213-228 | n calls shorten a custom queue by n or empty it, and change nothing else |
| Strategies.WaitsExact | actor/src/supervision.rs:117-232 | the i-th wait of every strategy: none, always the same, or the i-th duration until they are used up |
| Strategies.RetryAsk | actor/src/actor.rs:629-660 | the first success within `max_retries` asks, otherwise an error after exactly that many; the strategy is advanced once less than it asked |
| Strategies.FreshCustomWaits | actor/src/supervision.rs:213-228 | with a fresh custom strategy the i-th wait is the i-th duration |
| Runners.ActorRunner.Init | actor/src/runner.rs:91-162 | for any outcome of hooks and runs, the loop takes exactly the turns and actions of the lifecycle machine, and ends only terminated |
| Runners.ActorRunner.TakeTurn | actor/src/runner.rs:96-160 | one pass of the loop takes exactly one turn of the lifecycle machine |
| Runners.ActorRunner.ApplySupervisionStrategy | actor/src/runner.rs:270-306 | one attempt while retries remain, otherwise failed |
| Runners.RestartBound | actor/src/runner.rs:270-306 | at most `max_retries` attempts between two runs, exactly that many in a life that ends on a failed restart, none after a stop |
| Runners.TurnsTerminate | actor/src/runner.rs:91-162 | every turn outside `run` decreases a measure of lifecycle rank and remaining retries |
| Runners.FinishedLife | actor/src/runner.rs:91-162 | a finished life answers its creator exactly once, Ok exactly if it ever ran, and ends with one Stopped emission followed by one `post_stop` |
| Runners.TraceOrder | actor/src/runner.rs:91-162 | which action may come right after which: `pre_start` first and only once, the reply tells the outcome of the last hook, `run` follows a success only, an attempt a failure or a run that ended restarted, the Stopped emission a failure or the end of a run |
| Runners.RunsAfterSuccess | actor/src/runner.rs:96-108 | whenever `run` is entered, the last hook called before, at the start or in a restart, has succeeded |
| Runners.SuccessLeadsToRun | actor/src/runner.rs:96-134 | after a hook that succeeded there is no further attempt, no error reply and no stop before `run` is entered |
| Runners.TurnReported | actor/src/runner.rs:96-160 | each turn acts on the outcome of the hook and of the run that it met |
| Runners.WaitNeverAdvances | actor/src/runner.rs:270-306 | every restart attempt waits the strategy's first duration |
| RunLoops.ActorLoop.Handle | actor/src/actor.rs:278-430 | the calls a handler makes on the children of its actor act on the tables in turn, each as specified |
| RunLoops.ActorLoop.Run | actor/src/runner.rs:172-260 | for any order of messages and failed children with any calls of their handlers, signals, actions, and registrations and ends of other actors, the loop takes one turn of the specification for each and ends at the first that ends it |
| RunLoops.ActorLoop.Turn | actor/src/runner.rs:175-250 | each branch changes the registry, the handler's table and the queues as specified, and ends the loop with the specified outcome, for each outcome of the two faults |
| RunLoops.StoppedExact | actor/src/runner.rs:193-235 | a turn ends the loop as stopped if and only if it handles a Stopped signal that leaves no direct child registered or a Stop with none registered; then none is |
| RunLoops.RestartedExact | actor/src/runner.rs:237-249 | a turn ends the loop as restarted if and only if it handles a Restart action and either every channel is live or the fault is emitted |
| RunLoops.FailedExact | actor/src/runner.rs:205-249 | a turn ends the loop as failed if and only if `pre_stop` failed, or the fault could not be emitted after a direct child on Stop, or any channel on Restart, was not live |
| RunLoops.ActionReachesAll | actor/src/runner.rs:205-249 | a Stop that reaches all direct children deregisters exactly those and sends each one Stop; a Restart that reaches all channels sends each one Restart; no other queue changes |
| RunLoops.ChildCreated | actor/src/actor.rs:278-289 | creating a child is refused at level 100 or on a registered path; a failed start leaves the path free; a started child is registered and reachable over a new, empty channel |
| RunLoops.ChildCalled | actor/src/actor.rs:376-413 | a handler that stops a child by name deregisters it and sends one Stop if its channel is live; one that removes a child sends nothing |
| RunLoops.ChildrenCalled | actor/src/actor.rs:388-424 | a handler that stops or restarts all its children, when all can be reached, sends each exactly one action |
| RunLoops.HandlerCalls | actor/src/runner.rs:177-192 | a message or failed child makes exactly the calls of its handler, one after the other, and never ends the loop |
| RunLoops.SignalHandled | actor/src/runner.rs:193-203 | a Stopped signal removes the path of its key and sends nothing; a failed `pre_stop` leaves the tables |
| RunLoops.NextSignalEnds | actor/src/runner.rs:193-203 | after a Stop that reached all children, the next Stopped signal ends the loop, whoever sent it, unless a child is registered anew |
| Supervision.StopEachExact | actor/src/system.rs:559-600 | for any tables and order: exactly the visited children are deregistered, exactly the stopped ones get one more Stop, no other queue changes, and it fails exactly if some child cannot be stopped |
| Supervision.NoChildLeft | actor/src/system.rs:559-571 | success if and only if every child can be stopped, and then no direct child is registered and no other path has gone |
| Supervision.SupervicionHandler.CreateActor | actor/src/system.rs:434-493 | refuses a registered path, undoes a failed start, registers a started child with its channel |
| Supervision.SupervicionHandler.GetChilds | actor/src/system.rs:542-551 | exactly the registered direct children, each once |
| Supervision.SupervicionHandler.StopChild | actor/src/system.rs:583-600 | deregisters before sending, also when it then fails |
| Supervision.SupervicionHandler.StopChildren | actor/src/system.rs:559-571 | stops the children in some order up to the first failure, and says whether there were any |
| Supervision.SupervicionHandler.RemoveChild | actor/src/system.rs:631-634 | removes one path from the registry and from this handler's table |
| Supervision.RestartEachExact | actor/src/system.rs:608-623 | for any tables and order: exactly the channels before the first dead one get one Restart, nothing else changes, and it fails exactly if some channel is dead |
| Supervision.SupervicionHandler.RestartChildren | actor/src/system.rs:608-623 | serves every channel of the handler in some order up to the first dead one |
| SupervisionTrees.AgreeExact | actor/src/system.rs:434-645 | over every run the tables agree at each operation boundary if and only if every creation and every registration met its condition |
| SupervisionTrees.NotFoundExact | actor/src/system.rs:559-600 | a supervisor's table agrees if and only if stopping its own children fails with "not found for stopping" in no order |
| SupervisionTrees.OwnStopNeverNotFound | actor/src/system.rs:559-600 | over every run that met those conditions a supervisor stopping its own children never meets one it has no channel for |
| SupervisionTrees.SpawnExact | actor/src/system.rs:434-465 | a new supervisor keeps the tables in agreement if and only if nothing is registered below its path |
| SupervisionTrees.RegisterExact | actor/src/system.rs:482-493 | registering a child keeps them in agreement if and only if every other live supervisor at its parent path already has a channel for it |
| SupervisionTrees.GuardSuffices | actor/src/system.rs:434-465 | single-token names and paths that no live actor has meet the conditions over every run |
| SupervisionTrees.GuardedExact | actor/src/system.rs:434-465 | a run meets those guards if and only if every creation has a single-token name and finds its path free |
| SupervisionTrees.ReusedPathFails | actor/src/system.rs:583-600 | from the start: a stopped and re-created root actor leaves the first one with a registered child it has no channel for, and stopping it fails as not found |
| SupervisionTrees.MultiTokenFails | actor/src/actor.rs:278-289 | from the start: a root actor created with a two-token name leaves the actor it seems to belong to without a channel for it |
| SupervisionTrees.SystemOwnsRun | actor/src/system.rs:434-493 | over every run with single-token root names the system's table names only root actors |
| SupervisionTrees.SystemErrorOrphans | actor/src/system.rs:200-204 | over every such run an error that reaches the system about an actor with children fails, deregisters exactly one of them, and sends nothing |
| ShutdownInvariants.InvOfRun | actor/src/runner.rs:172-260 | over every run, with paths used again, failed start-ups, faults and restarts: a channel is in one table only, an actor is told to stop at most once and after its start-up was settled, signals come from own children that have emitted, and who waits and left no child behind has a child to wait for |
| ShutdownLoops.StopIsTurn | actor/src/runner.rs:205-235 | over every state: handling a Stop in the protocol is a turn of that actor's loop on its own tables, and the actor is in or out of `run` as that turn ends |
| ShutdownLoops.RestartIsTurn | actor/src/runner.rs:237-249 | so is handling a Restart; the actor runs on if and only if the turn ends restarted and its strategy lets it |
| ShutdownLoops.SignalIsTurn | actor/src/runner.rs:193-203 | so is handling a Stopped signal |
| ShutdownLoops.CallIsStep | actor/src/actor.rs:376-430 | an actor that waits for no start-up may stop, remove or restart children at any time, and such a step is that call of its handler |
| ShutdownLoops.StartUpIsCall | actor/src/system.rs:434-493 | a start-up that succeeds is the call that creates a child, and changes nothing else |
| ShutdownLoops.RefusalIsCall | actor/src/system.rs:434-493 | one that fails is the call that creates a child which does not start: in the end no channel and no runner is left, and the creator has one Stopped signal more |
| ShutdownLoops.SpawnExact | actor/src/actor.rs:278-289 | a supervisor may create a child if and only if it is the system, or an actor above level 100 that starts or runs and waits for no other start-up, and the path is free |
| ShutdownLoops.LifeMay | actor/src/runner.rs:91-162 | when an actor may start, refuse, be settled, emit and end |
| ShutdownLoops.LastChildTakesParent | actor/src/runner.rs:193-203 | from every state with one childless child at rest: stopping it by name makes the actor leave as stopped too, although it was not told |
| ShutdownOrders.LeavesChildless | actor/src/runner.rs:193-235 | over every run the step with which an actor leaves `run` as stopped leaves no direct child of its path registered |
| ShutdownOrders.StaysChildless | actor/src/runner.rs:193-235 | no direct child it created is ever registered again |
| ShutdownOrders.SomeChildFirst | actor/src/runner.rs:193-203 | over every run, an actor that had a registered child when told to stop and left as stopped emits Stopped only after some child it created has |
| ShutdownOrders.ShutdownOrder | actor/src/runner.rs:193-235 | with at most one child, that child is the one that has emitted before |
| ShutdownOrders.ChainOrder | actor/src/runner.rs:193-235 | a chain of single children that all had to wait emits from the leaf up |
| ShutdownOrders.ToldExact | actor/src/system.rs:559-600 | when a Stop is handled, the k-th child is sent a Stop if and only if it and all before it have live channels, and stays registered if and only if one before it has not |
| ShutdownOrders.BehindExact | actor/src/system.rs:559-600 | some order leaves a child behind if and only if a registered child has no channel, or has a dead one and is not the only child |
| ShutdownDrains.EverybodyStops | actor/src/runner.rs:172-260 | over a tree at rest whose tables name all registered children, every run of own steps that ends quiet, with no failing `pre_stop` in the tree, has the whole tree emitted |
| ShutdownStuck.EverybodyStopsExact | actor/src/runner.rs:172-260 | on the state before the Stop: everybody in the tree emits in every such run if and only if every table in the tree names all registered direct children |
| ShutdownStuck.SomeCleanRun | actor/src/runner.rs:172-260 | there always is such a run |
| ShutdownOrders.ProgressExact | actor/src/system.rs:559-571 | when nothing of the protocol is left to do, every actor that was told has emitted if and only if none still waits whose last turn left a child behind |
| ShutdownProgress.OwnStepsEnd | actor/src/runner.rs:172-260 | from every state, start-ups, Stop actions, signals, emissions and ends of runners come to an end within a bound computed from the state |
| ShutdownProgress.NotQuiescentGoesOn | actor/src/runner.rs:172-260 | while anything of the protocol is left to do and no Restart is under way, one of those steps is possible |
| ShutdownOrders.TreeRun | actor/src/system.rs:434-645 | the tables of every run are those of a run of the supervision tree |
| ShutdownBranches.BranchStops | actor/src/runner.rs:193-235 | from every state in which an actor over a tree at rest is about to handle Stop, the run can go on so that it leaves as stopped and emits, while below it only one branch has |
| ShutdownWaits.OneChildWaitedFor | actor/src/runner.rs:193-203 | that branch may go through any of its registered children, and no other child has emitted |
| ShutdownWaits.WaitsExactly | actor/src/runner.rs:193-203 | a waiting actor emits after a given child in every continuation if and only if no other child is outstanding |
| ShutdownWaits.OrderExact | actor/src/system.rs:559-571 | an actor that handles its Stop emits after a given registered child in every continuation if and only if it is the only one |
| ShutdownReuse.UntoldForever | actor/src/system.rs:583-600 | an actor that lost its channel without being told gets no Stop in any continuation |
| ShutdownReuse.ForgottenExact | actor/src/system.rs:434-645 | over every state and step: a live child loses its channel untold if and only if a signal for its path is handled, its creator removes it, a second start-up of its path ends, or the creator's runner goes |
| ShutdownReuse.StaleExact | actor/src/runner.rs:193-203 | a signal takes a child's registration and channel if and only if the removed path is the child's, whoever emitted it |
| ShutdownReuse.StaleIffRival | actor/src/actor.rs:409-412 | with rivals about to stop, some continuation ends with another actor's signal taking the channel of a child if and only if the creator has an unheard child of that path |
| ShutdownRuns.OneChildOnly | actor/src/runner.rs:193-203 | from the start: a root actor with two children emits while one of them runs |
| ShutdownRuns.StaleRun | actor/src/system.rs:583-600 | from the start: a late Stopped deregisters the running second actor of the path, which is never told to stop, and makes the parent leave |
| ShutdownRuns.StallRun | actor/src/system.rs:566-570 | from the start: a root actor told to stop meets a dead channel and has not emitted when none of the protocol's own steps is left, with a child running, registered and untold |
| ShutdownRuns.WaitingRun | actor/src/system.rs:583-600 | from the start: a root actor told to stop meets a registered child it has no channel for, and a run ends quiet for it with nothing emitted |
| ShutdownRuns.EverybodyRun | actor/src/runner.rs:193-235 | from the start: a root actor with two children is told to stop; the protocol can run to its end, and in every such run all three have emitted |
| ShutdownRuns.ToldMeetsOrder | actor/src/runner.rs:193-235 | the premises of the exact shutdown order hold in that reached state |
| ShutdownRuns.AgainMeetsRival | actor/src/system.rs:583-600 | the premises of the exact condition for stale signals hold in a reached state with a rival |
| ShutdownOrders.DoneChildless | actor/src/system.rs:318-367 | in every state the step with which the system runner finishes leaves no root actor registered |
| ShutdownOrders.SystemExact | actor/src/system.rs:311-367 | only a cancellation starts the shutdown of the system; it finishes if and only if a cancellation finds no root actor registered or, once shutting down, a Stopped signal leaves none |
| ShutdownOrders.SystemStops | actor/src/system.rs:200-226 | until then the system may pick a cancellation, an error or a fault at any time, and stops the children concerned with its own table |
| ShutdownOrders.SystemHears | actor/src/system.rs:358-365 | and its oldest Stopped signal, whose path it removes |
| ShutdownRuns.NeverWaits | actor/src/system.rs:318-335 | from every state, whatever channels are missing or dead, a cancelled system can finish by cancellations alone, with nothing emitted and every actor as it was |
| ShutdownRuns.SystemRun | actor/src/system.rs:318-335 | from the start: a system finishes with nothing emitted and two actors still running |

## Left out

- ShutdownOrder: needs at most one child; for more children the order is false, and OrderExact gives the condition.
- OrderExact: both directions are for continuations in which the actor creates no child and leaves as stopped, over trees at rest; a child created after Stop, or a failure, ends the wait early.
- ProgressExact: reads the history of the final state; EverybodyStopsExact, ToldExact and BehindExact give conditions on the state before the Stop.
- EverybodyStopsExact: is for trees at rest with distinct live paths, all start-ups settled, no Restart under way and no child unheard outside the tree; other handlers do nothing meanwhile.
- StaysChildless: the `post_stop` hook gets the context too and could create children after the actor has left; in the model an actor creates children only while it starts or runs.
- OwnStepsEnd: Restart actions are not among the steps counted; a Restart is passed on to all children, so counting it needs the whole tree below.
- StaleIffRival: both directions need the rivals to be about to stop; that a stale signal needs a rival holds in every state (ShutdownReuse.StaleNeedsRival).
- RecoveryExact: both directions are stated for the actor that records its events; for others the rebuilt states may coincide although an event was lost, and RestartExact says what is rebuilt.
- IsolationExact: is about puts; deletions and purges of prefixes apart are in Isolation.
- GuardSuffices: its condition ranges over actors that are no longer registered, so a caller cannot read it from the registry; AgreeExact needs no such guard.
- The tokio runtime, time, sleeping, logging, channel capacities and broadcast lag.
- Fjall, gzip and files: a keyspace is an ordered map and an export file a byte sequence. Durability is not modelled, as the default `flush` does nothing.
- The `rmp_serde` encoding: decoding an encoded event or state is assumed to give it back.
- Lock poisoning and input/output errors, except the end of input that ends an import.
- `insert_event` in recovery runs, and `ChildAction::Restart` of a persistent actor.
- Reading single events or ranges of events back through the journal actor, and the message enums around the journal and the snapshotter.
- `Runners` takes the outcome of `run` as given.
- `SnapshotActor`, the event bus, helpers, downcasts and `handler.rs`: thin wrappers that would only add easy members.
- User hooks (`handle`, `pre_start`, `post_stop`, `on_child_error`): arbitrary outcomes.
