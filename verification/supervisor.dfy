/** Supervision handlers: a registry shared by all, and one table of action
    channels for each supervisor.
 */
module Supervision {
  import opened Wrappers
  import opened Paths

  datatype ChildAction = Stop | Restart

  datatype Error =
    | AlreadyExists(path: ActorPath)
    | NotFound(path: ActorPath)
    | SendFailed(path: ActorPath)
    | StartFailed(path: ActorPath)

  const MAX_ACTOR_DEPTH := 100

  /** What one handler works on: the shared registry with the actor found under
      each path, its own action channels by path, and the queues of the channels
      whose receiver still exists. An actor and its channel have one number. */
  datatype Tables = Tables(
    registry: map<ActorPath, nat>,
    senders: map<ActorPath, nat>,
    queues: map<nat, seq<ChildAction>>)

  function Children(registry: map<ActorPath, nat>, parent: ActorPath): set<ActorPath> {
    set p | p in registry && p.Parent() == parent
  }

  /** The paths of a set in some order, each once. */
  ghost predicate Lists(order: seq<ActorPath>, s: set<ActorPath>) {
    && (forall p :: p in order <==> p in s)
    && Distinct(order)
  }

  ghost predicate Distinct(order: seq<ActorPath>) {
    forall i, j | 0 <= i < j < |order| :: order[i] != order[j]
  }

  // ---------- operations on the tables ----------

  function Deregister(t: Tables, path: ActorPath): Tables {
    t.(registry := t.registry - {path}, senders := t.senders - {path})
  }

  /** The child has an action channel here, and its receiver exists. */
  predicate Stoppable(t: Tables, path: ActorPath) {
    path in t.senders && t.senders[path] in t.queues
  }

  function StopError(t: Tables, path: ActorPath): Error {
    if path in t.senders then SendFailed(path) else NotFound(path)
  }

  /** `stop_child`: deregisters first, then sends. */
  function StopOne(t: Tables, path: ActorPath): (Tables, Result<(), Error>) {
    var t' := Deregister(t, path);
    if Stoppable(t, path) then
      var id := t.senders[path];
      (t'.(queues := t.queues[id := t.queues[id] + [Stop]]), Ok(()))
    else (t', Err(StopError(t, path)))
  }

  /** The loop of `stop_children`: ends at the first child that cannot be stopped. */
  function StopEach(t: Tables, order: seq<ActorPath>): (Tables, Result<(), Error>)
    decreases |order|
  {
    if order == [] then (t, Ok(()))
    else
      var (t', r) := StopOne(t, order[0]);
      if r.Err? then (t', r) else StopEach(t', order[1..])
  }

  // ---------- stopping all children ----------

  /** How many children the loop stops. */
  function Stopped(t: Tables, order: seq<ActorPath>): (n: nat)
    ensures n <= |order|
  {
    if order == [] || !Stoppable(t, order[0]) then 0 else 1 + Stopped(t, order[1..])
  }

  /** The children the loop deregisters: those it stops and the one it fails on. */
  ghost function Visited(t: Tables, order: seq<ActorPath>): set<ActorPath> {
    var n := Stopped(t, order);
    var seen := if n < |order| then order[..n + 1] else order;
    set p | p in seen
  }

  /** No two paths share an action channel. */
  ghost predicate OwnChannels(t: Tables) {
    forall p, q | p in t.senders && q in t.senders && p != q :: t.senders[p] != t.senders[q]
  }

  /** The queue of a channel after a loop: one more action exactly if it belongs
      to a child that was served. */
  ghost predicate QueueAfter(t: Tables, t': Tables, served: seq<ActorPath>, action: ChildAction, id: nat) {
    id in t.queues && id in t'.queues &&
    t'.queues[id] == if Owns(t, served, id) then t.queues[id] + [action] else t.queues[id]
  }

  ghost predicate Owns(t: Tables, served: seq<ActorPath>, id: nat)
  {
    exists p :: p in served && p in t.senders && t.senders[p] == id
  }

  lemma {:induction false} StoppedElsewhere(t: Tables, path: ActorPath, order: seq<ActorPath>)
    requires path !in order
    ensures Stopped(StopOne(t, path).0, order) == Stopped(t, order)
  {
    if order != [] {
      StoppedElsewhere(t, path, order[1..]);
    }
  }

  /** What stopping children one by one does, for any registry, any tables and
      any order: exactly the visited children are deregistered, exactly the
      stopped ones have one more Stop in their queue, no other queue changes,
      and it fails exactly if some child cannot be stopped. */
  lemma StopEachExact(t: Tables, order: seq<ActorPath>)
    requires Distinct(order) && OwnChannels(t)
    ensures var (t', r) := StopEach(t, order);
            var n := Stopped(t, order);
            && t'.registry == t.registry - Visited(t, order)
            && t'.senders == t.senders - Visited(t, order)
            && t'.queues.Keys == t.queues.Keys
            && (forall id | id in t.queues :: QueueAfter(t, t', order[..n], Stop, id))
            && r == if n == |order| then Ok(()) else Err(StopError(t, order[n]))
  {
    StopEachTables(t, order);
    StopEachQueues(t, order);
  }

  lemma {:induction false} StopEachTables(t: Tables, order: seq<ActorPath>)
    requires Distinct(order)
    ensures var (t', r) := StopEach(t, order);
            && t'.registry == t.registry - Visited(t, order)
            && t'.senders == t.senders - Visited(t, order)
            && r == if Stopped(t, order) == |order| then Ok(()) else Err(StopError(t, order[Stopped(t, order)]))
    decreases |order|
  {
    hide Visited;
    if order == [] {
      VisitedNone(t);
    } else if Stoppable(t, order[0]) {
      var path, rest := order[0], order[1..];
      StoppedElsewhere(t, path, rest);
      StopEachTables(StopOne(t, path).0, rest);
      VisitedStep(t, order);
      StopErrorElsewhere(t, path, rest);
    } else {
      VisitedFirst(t, order);
    }
  }

  lemma {:induction false} StopEachQueues(t: Tables, order: seq<ActorPath>)
    requires Distinct(order) && OwnChannels(t)
    ensures var t' := StopEach(t, order).0;
            && t'.queues.Keys == t.queues.Keys
            && (forall id | id in t.queues :: QueueAfter(t, t', order[..Stopped(t, order)], Stop, id))
    decreases |order|
  {
    hide Visited, QueueAfter, StopError;
    if order != [] && Stoppable(t, order[0]) {
      var path, rest := order[0], order[1..];
      var t1 := StopOne(t, path).0;
      StoppedElsewhere(t, path, rest);
      StopEachQueues(t1, rest);
      var t' := StopEach(t1, rest).0;
      forall id | id in t.queues ensures QueueAfter(t, t', order[..Stopped(t, order)], Stop, id) {
        QueueStep(t, t', order, id);
      }
    } else {
      forall id | id in t.queues ensures QueueAfter(t, StopEach(t, order).0, order[..0], Stop, id) {
        QueueSame(t, StopEach(t, order).0, id);
      }
    }
  }

  lemma QueueSame(t: Tables, t': Tables, id: nat)
    requires t'.queues == t.queues && id in t.queues
    ensures QueueAfter(t, t', [], Stop, id)
  {
  }

  lemma VisitedNone(t: Tables)
    ensures Visited(t, []) == {}
  {
  }

  lemma VisitedFirst(t: Tables, order: seq<ActorPath>)
    requires order != [] && !Stoppable(t, order[0])
    ensures Visited(t, order) == {order[0]}
  {
    assert order[..1] == [order[0]];
  }

  lemma StopErrorElsewhere(t: Tables, path: ActorPath, order: seq<ActorPath>)
    requires path !in order
    ensures forall i | 0 <= i < |order| :: StopError(StopOne(t, path).0, order[i]) == StopError(t, order[i])
  {
  }

  lemma VisitedStep(t: Tables, order: seq<ActorPath>)
    requires order != [] && Stoppable(t, order[0]) && order[0] !in order[1..]
    ensures Visited(t, order) == {order[0]} + Visited(StopOne(t, order[0]).0, order[1..])
  {
    var path, rest := order[0], order[1..];
    StoppedElsewhere(t, path, rest);
    var n := Stopped(t, order);
    assert order == [path] + rest;
    if n < |order| {
      assert order[..n + 1] == [path] + rest[..n];
    }
  }

  lemma QueueStep(t: Tables, t': Tables, order: seq<ActorPath>, id: nat)
    requires order != [] && Stoppable(t, order[0]) && order[0] !in order[1..] && OwnChannels(t) && id in t.queues
    requires QueueAfter(StopOne(t, order[0]).0, t', order[1..][..Stopped(t, order) - 1], Stop, id)
    ensures QueueAfter(t, t', order[..Stopped(t, order)], Stop, id)
  {
    var path, n, t1 := order[0], Stopped(t, order), StopOne(t, order[0]).0;
    assert order[..n] == [path] + order[1..][..n - 1];
    if Owns(t, order[..n], id) {
      var p :| p in order[..n] && p in t.senders && t.senders[p] == id;
      if p != path {
        assert p in order[1..][..n - 1] && p in t1.senders;
      }
    }
    if Owns(t1, order[1..][..n - 1], id) {
      var p :| p in order[1..][..n - 1] && p in t1.senders && t1.senders[p] == id;
      assert p in order[..n];
    }
  }

  /** A successful `stop_children` leaves no direct child registered. */
  lemma NoChildLeft(t: Tables, parent: ActorPath, order: seq<ActorPath>)
    requires Lists(order, Children(t.registry, parent)) && OwnChannels(t)
    ensures StopEach(t, order).1.Ok? <==> forall p | p in order :: Stoppable(t, p)
    ensures StopEach(t, order).1.Ok? ==> Children(StopEach(t, order).0.registry, parent) == {}
    ensures StopEach(t, order).1.Ok? ==> StopEach(t, order).0.registry == t.registry - Children(t.registry, parent)
  {
    StopEachExact(t, order);
    StoppedAll(t, order);
  }

  lemma {:induction false} StoppedAll(t: Tables, order: seq<ActorPath>)
    ensures Stopped(t, order) == |order| <==> forall p | p in order :: Stoppable(t, p)
  {
    if order != [] {
      StoppedAll(t, order[1..]);
      assert order == [order[0]] + order[1..];
    }
  }

  // ---------- restarting all children ----------

  /** The loop of `restart_children`: ends at the first channel whose receiver is gone. */
  function RestartEach(t: Tables, order: seq<ActorPath>): (Tables, Result<(), Error>)
    decreases |order|
  {
    if order == [] then (t, Ok(()))
    else if !Stoppable(t, order[0]) then (t, Err(StopError(t, order[0])))
    else
      var id := t.senders[order[0]];
      RestartEach(t.(queues := t.queues[id := t.queues[id] + [Restart]]), order[1..])
  }

  /** What sending Restart over the channels of a table does, for any tables and
      any order: exactly the channels before the first dead one get one Restart,
      nothing else changes, and it fails exactly if some channel is dead. */
  lemma {:induction false} RestartEachExact(t: Tables, order: seq<ActorPath>)
    requires Distinct(order) && OwnChannels(t)
    ensures var (t', r) := RestartEach(t, order);
            var n := Stopped(t, order);
            && t'.registry == t.registry && t'.senders == t.senders && t'.queues.Keys == t.queues.Keys
            && (forall id | id in t.queues :: QueueAfter(t, t', order[..n], Restart, id))
            && r == if n == |order| then Ok(()) else Err(StopError(t, order[n]))
    decreases |order|
  {
    hide QueueAfter;
    if order != [] && Stoppable(t, order[0]) {
      var id, rest := t.senders[order[0]], order[1..];
      var t1 := t.(queues := t.queues[id := t.queues[id] + [Restart]]);
      SameChannels(t, t1, rest);
      RestartEachExact(t1, rest);
      var t' := RestartEach(t1, rest).0;
      forall id | id in t.queues ensures QueueAfter(t, t', order[..Stopped(t, order)], Restart, id) {
        RestartStep(t, t', order, id);
      }
    } else {
      assert order[..0] == [];
      forall id | id in t.queues ensures QueueAfter(t, t, [], Restart, id) {
        assert !Owns(t, [], id);
        QueueUntouched(t, id);
      }
    }
  }

  lemma QueueUntouched(t: Tables, id: nat)
    requires id in t.queues
    ensures QueueAfter(t, t, [], Restart, id)
  {
  }

  lemma {:induction false} SameChannels(t: Tables, t': Tables, order: seq<ActorPath>)
    requires t'.senders == t.senders && t'.queues.Keys == t.queues.Keys
    ensures Stopped(t', order) == Stopped(t, order)
    ensures forall p :: StopError(t', p) == StopError(t, p)
  {
    if order != [] {
      SameChannels(t, t', order[1..]);
    }
  }

  lemma RestartStep(t: Tables, t': Tables, order: seq<ActorPath>, id: nat)
    requires order != [] && Stoppable(t, order[0]) && Distinct(order) && OwnChannels(t) && id in t.queues
    requires var own := t.senders[order[0]];
             var t1 := t.(queues := t.queues[own := t.queues[own] + [Restart]]);
             QueueAfter(t1, t', order[1..][..Stopped(t, order) - 1], Restart, id)
    ensures QueueAfter(t, t', order[..Stopped(t, order)], Restart, id)
  {
    var path, n := order[0], Stopped(t, order);
    var rest := order[1..][..n - 1];
    assert order[..n] == [path] + rest;
    assert Owns(t, order[..n], id) <==> t.senders[path] == id || Owns(t, rest, id) by {
      if Owns(t, rest, id) {
        var p :| p in rest && p in t.senders && t.senders[p] == id;
        assert p in order[..n];
      }
    }
    assert path !in rest;
  }

  lemma {:induction false} RestartEachSucceeds(t: Tables, order: seq<ActorPath>)
    ensures RestartEach(t, order).1.Ok? <==> forall p | p in order :: Stoppable(t, p)
    decreases |order|
  {
    if order != [] && Stoppable(t, order[0]) {
      var id := t.senders[order[0]];
      var t1 := t.(queues := t.queues[id := t.queues[id] + [Restart]]);
      RestartEachSucceeds(t1, order[1..]);
      assert forall p :: Stoppable(t1, p) == Stoppable(t, p);
      assert order == [order[0]] + order[1..];
    }
  }

  lemma StopEachSucceeds(t: Tables, order: seq<ActorPath>)
    requires Distinct(order)
    ensures StopEach(t, order).1.Ok? <==> forall p | p in order :: Stoppable(t, p)
  {
    hide Stoppable, StopEach;
    StopEachTables(t, order);
    StoppedAll(t, order);
  }

  // ---------- reaching all children ----------

  /** One more action in the queue of each of these children, nothing in others. */
  ghost predicate Sent(t: Tables, t': Tables, children: set<ActorPath>, action: ChildAction) {
    && t'.queues.Keys == t.queues.Keys
    && (forall p | p in children && Stoppable(t, p) :: t'.queues[t.senders[p]] == t.queues[t.senders[p]] + [action])
    && (forall id | id in t.queues && (forall p | p in children && p in t.senders :: t.senders[p] != id) ::
          t'.queues[id] == t.queues[id])
  }

  lemma SentAll(t: Tables, t': Tables, order: seq<ActorPath>, action: ChildAction)
    requires t'.queues.Keys == t.queues.Keys
    requires forall id | id in t.queues :: QueueAfter(t, t', order, action, id)
    ensures Sent(t, t', (set p | p in order), action)
  {
    forall p | p in order && Stoppable(t, p)
      ensures t'.queues[t.senders[p]] == t.queues[t.senders[p]] + [action]
    {
      assert Owns(t, order, t.senders[p]);
      assert QueueAfter(t, t', order, action, t.senders[p]);
    }
    forall id | id in t.queues && (forall p | p in (set q | q in order) && p in t.senders :: t.senders[p] != id)
      ensures t'.queues[id] == t.queues[id]
    {
      assert QueueAfter(t, t', order, action, id);
    }
  }

  lemma VisitedAll(t: Tables, order: seq<ActorPath>)
    requires Stopped(t, order) == |order|
    ensures Visited(t, order) == set p | p in order
  {
  }

  /** Stopping children that can all be stopped. */
  lemma StopReachesAll(t: Tables, order: seq<ActorPath>)
    requires Distinct(order) && OwnChannels(t) && forall p | p in order :: Stoppable(t, p)
    ensures var t', all := StopEach(t, order).0, set p | p in order;
            t'.registry == t.registry - all && t'.senders == t.senders - all && Sent(t, t', all, Stop)
  {
    hide StopEach, QueueAfter, Sent, Visited, Stoppable;
    StopEachExact(t, order);
    StoppedAll(t, order);
    assert order[..|order|] == order;
    VisitedAll(t, order);
    SentAll(t, StopEach(t, order).0, order, Stop);
  }

  /** Restarting over channels that are all live. */
  lemma RestartReachesAll(t: Tables, order: seq<ActorPath>)
    requires Distinct(order) && OwnChannels(t) && forall p | p in order :: Stoppable(t, p)
    ensures var t' := RestartEach(t, order).0;
            t'.registry == t.registry && t'.senders == t.senders && Sent(t, t', (set p | p in order), Restart)
  {
    hide RestartEach, QueueAfter, Sent, Stoppable;
    RestartEachExact(t, order);
    StoppedAll(t, order);
    assert order[..|order|] == order;
    SentAll(t, RestartEach(t, order).0, order, Restart);
  }

  // ---------- the object ----------

  /** The elements of a set in arbitrary order. */
  method Collect(s: set<ActorPath>) returns (order: seq<ActorPath>)
    ensures Lists(order, s)
  {
    order := [];
    var rest := s;
    while rest != {}
      invariant forall p :: p in s <==> p in order || p in rest
      invariant forall p | p in order :: p !in rest
      invariant Distinct(order)
      decreases rest
    {
      var p :| p in rest;
      order := order + [p];
      rest := rest - {p};
    }
  }

  class ActorRegistry {
    var actors: map<ActorPath, nat>
  }

  /** The action channels whose receiver exists, by channel. */
  class ActionChannels {
    var queues: map<nat, seq<ChildAction>>
  }

  class SupervicionHandler {
    const registry: ActorRegistry
    const channels: ActionChannels
    var actionSenders: map<ActorPath, nat>

    constructor (registry: ActorRegistry, channels: ActionChannels)
      ensures this.registry == registry && this.channels == channels && actionSenders == map[]
    {
      this.registry := registry;
      this.channels := channels;
      actionSenders := map[];
    }

    function View(): Tables
      reads this, registry, channels
    {
      Tables(registry.actors, actionSenders, channels.queues)
    }

    /** Registers a child that has started; `started` is the reply of its start-up. */
    method CreateActor(path: ActorPath, started: bool, child: nat) returns (r: Result<(), Error>)
      requires child !in channels.queues
      modifies this, registry, channels
      ensures r == if path in old(registry.actors) then Err(AlreadyExists(path))
                   else if !started then Err(StartFailed(path)) else Ok(())
      ensures var t := old(View());
              View() == match r
                        case Err(AlreadyExists(_)) => t
                        case Err(_) => Deregister(t, path)
                        case Ok(_) => Tables(t.registry[path := child], t.senders[path := child], t.queues[child := []])
    {
      if path in registry.actors {
        return Err(AlreadyExists(path));
      }
      if !started {
        registry.actors := registry.actors - {path};
        actionSenders := actionSenders - {path};
        return Err(StartFailed(path));
      }
      registry.actors := registry.actors[path := child];
      actionSenders := actionSenders[path := child];
      channels.queues := channels.queues[child := []];
      r := Ok(());
    }

    /** The registered direct children, in arbitrary order. */
    method GetChilds(parent: ActorPath) returns (childs: seq<ActorPath>)
      ensures Lists(childs, Children(registry.actors, parent))
    {
      childs := Collect(Children(registry.actors, parent));
    }

    method StopChild(path: ActorPath) returns (r: Result<(), Error>)
      modifies this, registry, channels
      ensures (View(), r) == StopOne(old(View()), path)
    {
      registry.actors := registry.actors - {path};
      if path !in actionSenders {
        assert actionSenders - {path} == actionSenders;
        return Err(NotFound(path));
      }
      var sender := actionSenders[path];
      actionSenders := actionSenders - {path};
      if sender !in channels.queues {
        return Err(SendFailed(path));
      }
      channels.queues := channels.queues[sender := channels.queues[sender] + [Stop]];
      r := Ok(());
    }

    /** Stops the children in some order; says whether there were any. */
    method StopChildren(parent: ActorPath) returns (r: Result<bool, Error>, ghost order: seq<ActorPath>)
      modifies this, registry, channels
      ensures Lists(order, Children(old(registry.actors), parent))
      ensures View() == StopEach(old(View()), order).0
      ensures r == match StopEach(old(View()), order).1
                   case Err(e) => Err(e)
                   case Ok(_) => Ok(order != [])
    {
      var childs := GetChilds(parent);
      if childs == [] {
        return Ok(false), [];
      }
      assert childs[0] in Children(registry.actors, parent);
      childs := GetChilds(parent);
      order := childs;
      for i := 0 to |childs|
        invariant order == childs
        invariant StopEach(old(View()), order) == StopEach(View(), childs[i..])
      {
        var stopped := StopChild(childs[i]);
        assert childs[i..][1..] == childs[i + 1..];
        if stopped.Err? {
          return Err(stopped.error), order;
        }
      }
      r := Ok(true);
    }

    method RemoveChild(path: ActorPath)
      modifies this, registry
      ensures View() == Deregister(old(View()), path)
    {
      registry.actors := registry.actors - {path};
      actionSenders := actionSenders - {path};
    }

    /** Sends Restart over every action channel of this handler, in some order;
        ends at the first whose receiver is gone. Nothing is deregistered. */
    method RestartChildren() returns (r: Result<(), Error>, ghost order: seq<ActorPath>)
      modifies channels
      ensures Lists(order, old(actionSenders).Keys)
      ensures (View(), r) == RestartEach(old(View()), order)
    {
      var paths := Collect(actionSenders.Keys);
      order := paths;
      for i := 0 to |paths|
        invariant order == paths
        invariant RestartEach(old(View()), order) == RestartEach(View(), paths[i..])
      {
        var sender := actionSenders[paths[i]];
        assert paths[i..][1..] == paths[i + 1..];
        if sender !in channels.queues {
          return Err(SendFailed(paths[i])), order;
        }
        channels.queues := channels.queues[sender := channels.queues[sender] + [Restart]];
      }
      r := Ok(());
    }
  }
}
