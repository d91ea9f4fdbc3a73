/** A tree at rest is told to stop: everybody in it stops, exactly if every
    table in it names the registered children.
 */
module ShutdownDrains {
  import opened Wrappers
  import opened Paths
  import opened Supervision
  import opened Shutdown
  import opened ShutdownInvariants
  import opened ShutdownOrders
  import opened ShutdownBranches
  import opened ShutdownWaits
  import opened ShutdownProgress
  import opened ShutdownAlone
  import T = SupervisionTrees

  // ---------- the tree before the Stop is handled ----------

  /** `below` holds all actors below `c`. */
  ghost predicate TreeBelow(w: World, c: nat, below: set<nat>) {
    && c in w.tree.created && c !in below && Parent(w, c) !in below + {c}
    && forall d | d in below :: d in w.tree.created && Parent(w, d) in below + {c}
  }

  /** Every other child of an actor of the tree has emitted. */
  ghost predicate NoStrays(w: World, tree: set<nat>) {
    forall d | d in w.tree.created && Parent(w, d) in tree && d !in tree :: d in w.emitted
  }

  /** A registered direct child with a channel. */
  ghost predicate IsKid(w: World, e: nat, d: nat) {
    && d in w.tree.created && e in w.tree.supervisors
    && var p, s := w.tree.created[d].path, w.tree.supervisors[e];
       p in w.tree.registry && p.Parent() == s.path && p in s.senders && s.senders[p] == d
  }

  /** The tree is at rest, and its root is about to handle Stop. */
  ghost predicate RootedAtRest(w: World, c: nat, below: set<nat>) {
    && TreeBelow(w, c, below) && NoStrays(w, below + {c}) && AtRest(w, c, [Stop])
    && forall d | d in below :: AtRest(w, d, []) && IsKid(w, Parent(w, d), d)
  }

  // ---------- the states of its actors meanwhile ----------

  /** The children of `e` in the tree have not been told. */
  ghost predicate KidsUntold(w: World, e: nat, below: set<nat>) {
    forall d | d in below && d in w.tree.created && Parent(w, d) == e ::
      IsKid(w, e, d) && d in w.life && !Told(w, d)
  }

  ghost predicate KidsTold(w: World, e: nat, below: set<nat>) {
    forall d | d in below && d in w.tree.created && Parent(w, d) == e :: d in w.life && Told(w, d)
  }

  /** It has not handled its Stop. */
  ghost predicate Resting(w: World, e: nat, below: set<nat>) {
    && IsRunning(w, e) && e !in w.waited && w.signals[e] == []
    && (w.tree.queues[e] == [] || w.tree.queues[e] == [Stop])
    && Covered(w, e, below) && KidsUntold(w, e, below)
  }

  /** It has handled its Stop: its children are told, none is registered. */
  ghost predicate HasStopped(w: World, e: nat, below: set<nat>) {
    && e in w.life && e in w.tree.created && (e in w.waited || Off(w.life[e])) && KidsTold(w, e, below)
    && (w.life[e].phase == Running ==>
          e !in w.behind && Children(w.tree.registry, w.tree.created[e].path) == {})
  }

  ghost predicate Drains(w: World, c: nat, below: set<nat>) {
    && TreeBelow(w, c, below) && NoStrays(w, below + {c}) && AllSettled(w) && T.PathsDistinct(w.tree)
    && c in w.life && Told(w, c)
    && forall e | e in below + {c} :: Resting(w, e, below) || HasStopped(w, e, below)
  }

  // ---------- steps of others ----------

  lemma ToldKept(w: World, w': World, x: nat, d: nat)
    requires ActsAlone(w, w', x) && d != x && d in w.life && Told(w, d)
    ensures d in w'.life && Told(w', d)
  {
    assert OtherKept(w, w', x, d);
  }

  lemma UntoldKept(w: World, w': World, x: nat, d: nat)
    requires ActsAlone(w, w', x) && d != x && d in w.life && !Told(w, d)
    requires d in w.tree.created && Parent(w, d) != x
    ensures d in w'.life && !Told(w', d)
  {
    assert OtherKept(w, w', x, d);
  }

  /** Nothing registered below another actor's path goes. */
  lemma KidKept(w: World, w': World, x: nat, e: nat, d: nat)
    requires ActsAlone(w, w', x) && T.PathsDistinct(w.tree) && e != x && IsKid(w, e, d)
    ensures IsKid(w', e, d)
  {
    hide ActorPath.Parent;
    assert OtherKept(w, w', x, e);
    assert x in w.tree.supervisors ==> w.tree.supervisors[x].path != w.tree.supervisors[e].path;
  }

  lemma KidsUntoldKept(w: World, w': World, x: nat, e: nat, below: set<nat>)
    requires ActsAlone(w, w', x) && T.PathsDistinct(w.tree) && e != x && KidsUntold(w, e, below)
    requires x in below && x in w.tree.created ==> Parent(w, x) != e
    ensures KidsUntold(w', e, below)
  {
    hide IsKid, Told, T.PathsDistinct, OtherKept;
    forall d | d in below && d in w'.tree.created && Parent(w', d) == e
      ensures IsKid(w', e, d) && d in w'.life && !Told(w', d)
    {
      KidKept(w, w', x, e, d);
      UntoldKept(w, w', x, d);
    }
  }

  lemma CoveredKept(w: World, w': World, x: nat, e: nat, below: set<nat>)
    requires ActsAlone(w, w', x) && e != x && Covered(w, e, below)
    ensures Covered(w', e, below)
  {
    hide ActorPath.Parent;
    assert OtherKept(w, w', x, e);
  }

  lemma RestingKept(w: World, w': World, x: nat, e: nat, below: set<nat>)
    requires ActsAlone(w, w', x) && T.PathsDistinct(w.tree) && e != x && Resting(w, e, below)
    requires x in below && x in w.tree.created ==> Parent(w, x) != e
    requires x in w.life && w.life[x].phase == Left && x in w.tree.created ==> Parent(w, x) != e
    ensures Resting(w', e, below)
  {
    KidsUntoldKept(w, w', x, e, below);
    CoveredKept(w, w', x, e, below);
    hide Covered, KidsUntold, T.PathsDistinct;
    assert OtherKept(w, w', x, e);
  }

  lemma NoneRegisteredKept(w: World, w': World, x: nat, path: ActorPath)
    requires ActsAlone(w, w', x) && Children(w.tree.registry, path) == {}
    ensures Children(w'.tree.registry, path) == {}
  {
    hide ActorPath.Parent, OtherKept;
    forall p ensures p !in Children(w'.tree.registry, path) {
      assert p !in Children(w.tree.registry, path);
    }
  }

  lemma KidsToldKept(w: World, w': World, x: nat, e: nat, below: set<nat>)
    requires ActsAlone(w, w', x) && KidsTold(w, e, below) && (x in below ==> x in w'.life && Told(w', x))
    ensures KidsTold(w', e, below)
  {
    hide Told, OtherKept;
    forall d | d in below && d in w'.tree.created && Parent(w', d) == e ensures d in w'.life && Told(w', d) {
      if d != x {
        ToldKept(w, w', x, d);
      }
    }
  }

  lemma StoppedKept(w: World, w': World, x: nat, e: nat, below: set<nat>)
    requires ActsAlone(w, w', x) && e != x && HasStopped(w, e, below)
    requires x in below ==> x in w'.life && Told(w', x)
    ensures HasStopped(w', e, below)
  {
    KidsToldKept(w, w', x, e, below);
    if w.life[e].phase == Running {
      NoneRegisteredKept(w, w', x, w.tree.created[e].path);
    }
    hide KidsTold, Told, Children;
    assert OtherKept(w, w', x, e);
  }

  // ---------- the actor's own step ----------

  /** An actor of the tree that takes a step was told. */
  lemma ActorTold(w: World, step: Step, below: set<nat>)
    requires Enabled(w, step) && (step.HandleStop? || step.HandleSignal? || step.Emit? || step.Drop?)
    requires Resting(w, Actor(step), below) || HasStopped(w, Actor(step), below)
    ensures Actor(step) in w.life && Told(w, Actor(step))
    ensures step.HandleStop? || HasStopped(w, Actor(step), below)
  {
    hide Enabled, Next, Resting, HasStopped, Told, Children, Idle, T.Enabled, SignalPath;
    match step {
      case HandleStop(x, order, preStop, fault) =>
        StopEnabled(w, x, order, preStop, fault);
        StopTold(w, x);
      case HandleSignal(x) =>
        SignalNext(w, x);
        RestsQuietly(w, x, below);
        StoppedTold(w, x, below);
      case Emit(x) =>
        EmitNext(w, x);
        RestsQuietly(w, x, below);
        StoppedTold(w, x, below);
      case Drop(x) =>
        DropNext(w, x);
        RestsQuietly(w, x, below);
        StoppedTold(w, x, below);
    }
  }

  lemma StopTold(w: World, x: nat)
    requires IsRunning(w, x) && w.tree.queues[x] != [] && w.tree.queues[x][0] == Stop
    ensures Told(w, x)
  {
  }

  lemma RestsQuietly(w: World, x: nat, below: set<nat>)
    requires Resting(w, x, below) || HasStopped(w, x, below)
    requires x in w.life && (w.life[x].phase != Running || (x in w.signals && w.signals[x] != []))
    ensures HasStopped(w, x, below)
  {
    hide Covered, KidsUntold, HasStopped;
  }

  lemma StoppedTold(w: World, x: nat, below: set<nat>)
    requires HasStopped(w, x, below)
    ensures x in w.life && Told(w, x)
  {
    hide KidsTold, Children;
  }

  /** Its children stay told: none of them is the actor itself. */
  lemma OwnKidsTold(w: World, w': World, x: nat, below: set<nat>)
    requires Shape(w) && ActsAlone(w, w', x) && KidsTold(w, x, below)
    ensures KidsTold(w', x, below)
  {
    ParentsBelow(w, x);
    hide Shape, Told, OtherKept;
    forall d | d in below && d in w'.tree.created && Parent(w', d) == x ensures d in w'.life && Told(w', d) {
      ToldKept(w, w', x, d);
    }
  }

  lemma SelfOff(w: World, w': World, x: nat, below: set<nat>)
    requires Shape(w) && ActsAlone(w, w', x) && HasStopped(w, x, below) && x in w'.life && Off(w'.life[x])
    ensures HasStopped(w', x, below)
  {
    OwnKidsTold(w, w', x, below);
    hide Shape, KidsTold, Children, OtherKept;
  }

  lemma SelfHears(w: World, x: nat, below: set<nat>)
    requires Inv(w) && Enabled(w, HandleSignal(x)) && HasStopped(w, x, below)
    ensures x in Next(w, HandleSignal(x)).life && Off(Next(w, HandleSignal(x)).life[x])
  {
    hide KidsTold, Children, ShapeAt, ChannelsOk, QueuesOk, AllWaitedOk, SignalsOk, EmittedOk, OrderOk, BusyOk,
         RegistryOk, PendingOk, AwaitingOk, Enabled, Next, Idle;
    SignalNext(w, x);
    ActorPathIs(w, x);
    LastSignal(w, x);
    LeftOff(w, x);
  }

  lemma LeftOff(w: World, x: nat)
    requires x in w.life && x in w.tree.supervisors && x in w.signals && w.signals[x] != []
    ensures x in LeftOnSignal(w, x).life && Off(LeftOnSignal(w, x).life[x])
  {
    hide SignalPath;
  }

  lemma SelfLater(w: World, step: Step, below: set<nat>)
    requires Inv(w) && Enabled(w, step) && (step.HandleSignal? || step.Emit? || step.Drop?)
    requires HasStopped(w, Actor(step), below) && ActsAlone(w, Next(w, step), Actor(step))
    ensures HasStopped(Next(w, step), Actor(step), below)
  {
    hide Enabled, Next, HasStopped, ActsAlone, Shape, ChannelsOk, QueuesOk, AllWaitedOk, SignalsOk, EmittedOk, OrderOk,
         BusyOk, RegistryOk, PendingOk, AwaitingOk;
    match step {
      case HandleSignal(x) => SelfHears(w, x, below);
      case Emit(x) => EmitNext(w, x);
      case Drop(x) => DropNext(w, x);
    }
    SelfOff(w, Next(w, step), Actor(step), below);
  }

  // ---------- handling the Stop ----------

  /** The queue of a resting actor with a Stop holds nothing else, and all its
      registered children can be told. */
  lemma RestingFacts(w: World, x: nat, below: set<nat>, order: seq<ActorPath>)
    requires Inv(w) && Resting(w, x, below) && Idle(w, x) && w.tree.queues[x] != []
    requires Lists(order, Children(w.tree.registry, w.tree.supervisors[x].path))
    requires forall d | d in below :: d in w.tree.created
    ensures AtRest(w, x, [Stop])
    ensures forall p | p in order :: p in w.tree.supervisors[x].senders
    ensures forall p | p in order :: Stoppable(T.TablesOf(w.tree, x), p) && w.tree.supervisors[x].senders[p] != x
  {
    hide Idle, ActorPath.Parent, QueuesOk, AllWaitedOk, SignalsOk, EmittedOk, OrderOk, BusyOk, RegistryOk, PendingOk,
         AwaitingOk, IsKid;
    forall p | p in order
      ensures p in w.tree.supervisors[x].senders && Stoppable(T.TablesOf(w.tree, x), p)
      ensures w.tree.supervisors[x].senders[p] != x
    {
      assert p in Children(w.tree.registry, w.tree.supervisors[x].path);
      var d := w.tree.supervisors[x].senders[p];
      assert ChannelOk(w, x, p);
      assert ShapeAt(w, d);
    }
  }

  /** A kid is among the listed children. */
  lemma KidListed(w: World, x: nat, order: seq<ActorPath>, d: nat)
    requires IsKid(w, x, d) && Lists(order, Children(w.tree.registry, w.tree.supervisors[x].path))
    requires forall p | p in order :: p in w.tree.supervisors[x].senders
    ensures w.tree.created[d].path in order && d in Channels(w, x, order)
  {
    var p := w.tree.created[d].path;
    hide ActorPath.Parent;
    assert p in Children(w.tree.registry, w.tree.supervisors[x].path);
  }

  /** With all children told, it does not matter whether a fault could be sent. */
  lemma FaultUnused(w: World, x: nat, order: seq<ActorPath>, fault: bool)
    requires Enabled(w, HandleStop(x, order, true, fault)) && StopEach(T.TablesOf(w.tree, x), order).1.Ok?
    ensures Enabled(w, HandleStop(x, order, true, true))
    ensures Next(w, HandleStop(x, order, true, fault)) == Next(w, HandleStop(x, order, true, true))
  {
    hide StopEach, T.Enabled, T.Apply, Took, Leaves, Waits, LeftBehind, Idle;
  }

  lemma StopsAllOk(w: World, x: nat, order: seq<ActorPath>)
    requires ChannelsOk(w) && x in w.tree.supervisors && Distinct(order)
    requires forall p | p in order :: Stoppable(T.TablesOf(w.tree, x), p)
    ensures StopEach(T.TablesOf(w.tree, x), order).1.Ok?
  {
    OwnTables(w, x);
    StopsAllTables(T.TablesOf(w.tree, x), order);
  }

  lemma StopEmpty(w: World, x: nat, fault: bool)
    requires Enabled(w, HandleStop(x, [], true, fault))
    ensures x in w.life && x in Next(w, HandleStop(x, [], true, fault)).life
    ensures Off(Next(w, HandleStop(x, [], true, fault)).life[x])
  {
    hide T.Enabled, T.Apply, Idle, Took;
    TookSame(TreeStep(w, T.Op.StopAllChildren(x, [])), x);
  }

  lemma SelfAlone(w: World, w': World, x: nat, below: set<nat>)
    requires x in w.tree.created && Resting(w, x, below) && ActsAlone(w, w', x) && x in w'.life && Off(w'.life[x])
    requires forall d | d in below && d in w.tree.created :: !IsKid(w, x, d)
    ensures HasStopped(w', x, below)
  {
    hide Covered, OtherKept, IsKid, Told, Children;
  }

  lemma SelfTells(w: World, w1: World, x: nat, order: seq<ActorPath>, below: set<nat>)
    requires Shape(w) && x in w.tree.created && Resting(w, x, below)
    requires Lists(order, Children(w.tree.registry, w.tree.supervisors[x].path))
    requires forall p | p in order :: p in w.tree.supervisors[x].senders
    requires ToldAll(w, w1, x, order)
    ensures HasStopped(w1, x, below)
  {
    ToldParts(w, w1, x, order);
    assert w.tree.supervisors[x].path == w.tree.created[x].path by { SupervisorPath(w, x); }
    hide Shape, Covered, ToldAll, Channels, Lists, Children, IsKid, Idle;
    NoneRegistered(w, w1, x, order);
    forall d | d in below && d in w1.tree.created && Parent(w1, d) == x ensures d in w1.life && Told(w1, d) {
      KidListed(w, x, order, d);
      KidTold(w, w1, x, order, d);
    }
  }

  lemma SupervisorPath(w: World, x: nat)
    requires Shape(w) && x in w.tree.created && x in w.tree.supervisors
    ensures w.tree.supervisors[x].path == w.tree.created[x].path
  {
    assert ShapeAt(w, x);
    hide ActorPath.WellFormed;
  }

  lemma ToldParts(w: World, w1: World, x: nat, order: seq<ActorPath>)
    requires x in w.tree.supervisors && forall p | p in order :: p in w.tree.supervisors[x].senders
    requires ToldAll(w, w1, x, order)
    ensures w1.tree.created == w.tree.created && w1.life == w.life && x in w1.waited && x !in w1.behind
    ensures x in w1.tree.supervisors && w1.tree.supervisors[x].path == w.tree.supervisors[x].path
    ensures w1.tree.registry == w.tree.registry - (set p | p in order)
  {
    hide Channels;
  }

  lemma KidTold(w: World, w1: World, x: nat, order: seq<ActorPath>, d: nat)
    requires x in w.tree.supervisors && forall p | p in order :: p in w.tree.supervisors[x].senders
    requires Shape(w) && ToldAll(w, w1, x, order) && d in Channels(w, x, order) && d in w.life && d != x
    ensures d in w1.life && Told(w1, d)
  {
    assert ShapeAt(w, d);
    hide Channels, ActorPath.WellFormed;
  }

  lemma SelfStops(w: World, x: nat, order: seq<ActorPath>, fault: bool, below: set<nat>)
    requires Inv(w) && Enabled(w, HandleStop(x, order, true, fault)) && Resting(w, x, below) && x in w.tree.created
    requires forall d | d in below :: d in w.tree.created
    requires ActsAlone(w, Next(w, HandleStop(x, order, true, fault)), x)
    ensures HasStopped(Next(w, HandleStop(x, order, true, fault)), x, below)
  {
    StopEnabled(w, x, order, true, fault);
    StopListing(w, x, order);
    hide Enabled, Next, ActsAlone, Resting, HasStopped, Shape, ChannelsOk, QueuesOk, AllWaitedOk, SignalsOk, EmittedOk,
         OrderOk, BusyOk, RegistryOk, PendingOk, AwaitingOk, Idle, T.Enabled, StopEach, Children, Lists, Covered,
         AtRest;
    RestingFacts(w, x, below, order);
    var w' := Next(w, HandleStop(x, order, true, fault));
    if order == [] {
      StopEmpty(w, x, fault);
      NoKids(w, x);
      SelfAlone(w, w', x, below);
    } else {
      StopsAllOk(w, x, order);
      FaultUnused(w, x, order, fault);
      StopsAll(w, x, order);
      SelfTells(w, w', x, order, below);
    }
  }

  lemma StopListing(w: World, x: nat, order: seq<ActorPath>)
    requires IsRunning(w, x) && T.Enabled(w.tree, T.Op.StopAllChildren(x, order))
    ensures Lists(order, Children(w.tree.registry, w.tree.supervisors[x].path)) && Distinct(order)
  {
    hide Children;
  }

  lemma NoKids(w: World, x: nat)
    requires x in w.tree.supervisors && Lists([], Children(w.tree.registry, w.tree.supervisors[x].path))
    ensures forall d | d in w.tree.created :: !IsKid(w, x, d)
  {
    NoneListed(Children(w.tree.registry, w.tree.supervisors[x].path));
    hide ActorPath.Parent, Lists;
    forall d | d in w.tree.created ensures !IsKid(w, x, d) {
      assert w.tree.created[d].path !in Children(w.tree.registry, w.tree.supervisors[x].path);
    }
  }

  // ---------- every step ----------

  /** The step is one of the protocol's own, and actors of the tree prepare for
      their Stop without failing. */
  predicate IsClean(step: Step, tree: set<nat>) {
    IsOwn(step) && (step.HandleStop? && step.id in tree ==> step.preStop)
  }

  /** The actor of the tree that takes a step goes from resting to having
      stopped. */
  lemma SelfKept(w: World, step: Step, below: set<nat>)
    requires Inv(w) && AllSettled(w) && Enabled(w, step) && IsOwn(step) && (step.HandleStop? ==> step.preStop)
    requires Actor(step) in w.tree.created && forall d | d in below :: d in w.tree.created
    requires Resting(w, Actor(step), below) || HasStopped(w, Actor(step), below)
    requires ActsAlone(w, Next(w, step), Actor(step))
    requires step.HandleStop? || step.HandleSignal? || step.Emit? || step.Drop?
    ensures HasStopped(Next(w, step), Actor(step), below)
  {
    hide Enabled, Next, ActsAlone, HasStopped, Resting, Shape, ChannelsOk, QueuesOk, AllWaitedOk, SignalsOk, EmittedOk,
         OrderOk, BusyOk, RegistryOk, PendingOk, AwaitingOk, AllSettled;
    ActorTold(w, step, below);
    if step.HandleStop? {
      StopRests(w, step.id, step.order, step.preStop, step.fault, below);
      SelfStops(w, step.id, step.order, step.fault, below);
    } else {
      SelfLater(w, step, below);
    }
  }

  /** Who has a Stop to handle has not stopped yet. */
  lemma StopRests(w: World, x: nat, order: seq<ActorPath>, preStop: bool, fault: bool, below: set<nat>)
    requires Inv(w) && Enabled(w, HandleStop(x, order, preStop, fault))
    requires Resting(w, x, below) || HasStopped(w, x, below)
    ensures Resting(w, x, below)
  {
    StopEnabled(w, x, order, preStop, fault);
    hide Enabled, Inv, Resting, KidsTold, Children, Idle, T.Enabled;
    StopUnwaited(w, x);
  }

  lemma NoStraysKept(w: World, step: Step, tree: set<nat>)
    requires Enabled(w, step) && NoStrays(w, tree) && Next(w, step).tree.created == w.tree.created
    ensures NoStrays(Next(w, step), tree)
  {
    hide Enabled, Next;
    var w' := Next(w, step);
    forall d | d in w'.tree.created && Parent(w', d) in tree && d !in tree ensures d in w'.emitted {
      EmittedGrows(w, step, d);
    }
  }

  lemma DistinctKept(w: World, w': World, x: nat)
    requires ActsAlone(w, w', x) && T.PathsDistinct(w.tree)
    ensures T.PathsDistinct(w'.tree)
  {
    forall e | e in w'.tree.supervisors
      ensures e in w.tree.supervisors && w'.tree.supervisors[e].path == w.tree.supervisors[e].path
    {
      if e != x {
        assert OtherKept(w, w', x, e);
      }
    }
  }

  /** Another actor of the tree: it is not the creator of one that acts and is
      still resting. */
  lemma OthersKept(w: World, step: Step, c: nat, below: set<nat>, e: nat)
    requires Inv(w) && Drains(w, c, below) && Enabled(w, step) && e in below + {c} && e != Actor(step)
    requires step.HandleStop? || step.HandleSignal? || step.Emit? || step.Drop?
    requires ActsAlone(w, Next(w, step), Actor(step))
    requires Actor(step) in below + {c} ==> HasStopped(Next(w, step), Actor(step), below)
    ensures Resting(Next(w, step), e, below) || HasStopped(Next(w, step), e, below)
  {
    var x, w' := Actor(step), Next(w, step);
    hide Enabled, Next, ActsAlone, HasStopped, Resting, Inv, NoStrays, Told, AllSettled, T.PathsDistinct;
    if x in below + {c} {
      ActorTold(w, step, below);
      StoppedTold(w', x, below);
    }
    if Resting(w, e, below) {
      if x in below && x in w.tree.created && Parent(w, x) == e {
        RestingUntold(w, e, below, x);
      }
      if x in w.life && w.life[x].phase == Left && x in w.tree.created && Parent(w, x) == e {
        LeftInTree(w, c, below, x);
      }
      RestingKept(w, w', x, e, below);
    } else {
      StoppedKept(w, w', x, e, below);
    }
  }

  lemma RestingUntold(w: World, e: nat, below: set<nat>, x: nat)
    requires Resting(w, e, below) && x in below && x in w.tree.created && Parent(w, x) == e
    ensures x in w.life && !Told(w, x)
  {
    hide Covered, Told, IsKid;
  }

  /** Who has left and not emitted is in the tree, if its creator is. */
  lemma LeftInTree(w: World, c: nat, below: set<nat>, x: nat)
    requires Inv(w) && TreeBelow(w, c, below) && NoStrays(w, below + {c})
    requires x in w.life && w.life[x].phase == Left && x in w.tree.created && Parent(w, x) in below + {c}
    ensures x in below
  {
    hide Shape, ChannelsOk, QueuesOk, AllWaitedOk, SignalsOk, OrderOk, BusyOk, RegistryOk, PendingOk, AwaitingOk;
  }

  lemma RootTold(w: World, w': World, x: nat, c: nat, below: set<nat>)
    requires ActsAlone(w, w', x) && c in w.life && Told(w, c) && (x == c ==> HasStopped(w', c, below))
    ensures c in w'.life && Told(w', c)
  {
    hide ActsAlone, Told, HasStopped;
    if x == c {
      StoppedTold(w', c, below);
    } else {
      ToldKept(w, w', x, c);
    }
  }

  lemma MemberKept(w: World, step: Step, c: nat, below: set<nat>, e: nat)
    requires Inv(w) && Drains(w, c, below) && Enabled(w, step) && IsClean(step, below + {c}) && e in below + {c}
    requires ActsAlone(w, Next(w, step), Actor(step))
    requires step.HandleStop? || step.HandleSignal? || step.Emit? || step.Drop?
    ensures Resting(Next(w, step), e, below) || HasStopped(Next(w, step), e, below)
    ensures e == Actor(step) ==> HasStopped(Next(w, step), e, below)
  {
    hide Enabled, Next, ActsAlone, HasStopped, Resting, Inv, NoStrays, Told, AllSettled, T.PathsDistinct;
    if Actor(step) in below + {c} {
      SelfKept(w, step, below);
    }
    if e != Actor(step) {
      OthersKept(w, step, c, below, e);
    }
  }

  lemma TreeSame(w: World, w': World, c: nat, below: set<nat>)
    requires TreeBelow(w, c, below) && w'.tree.created == w.tree.created
    ensures TreeBelow(w', c, below)
  {
  }

  lemma DrainStep(w: World, step: Step, c: nat, below: set<nat>)
    requires Inv(w) && Drains(w, c, below) && Enabled(w, step) && IsClean(step, below + {c})
    ensures Drains(Next(w, step), c, below)
  {
    var x, w' := Actor(step), Next(w, step);
    hide Enabled, Next, ActsAlone, HasStopped, Resting, Inv, NoStrays, Told, AllSettled, T.PathsDistinct, TreeBelow;
    OwnStepAlone(w, step);
    forall e | e in below + {c}
      ensures Resting(w', e, below) || HasStopped(w', e, below)
      ensures e == x ==> HasStopped(w', e, below)
    {
      MemberKept(w, step, c, below, e);
    }
    SameCreation(w, w', x);
    TreeSame(w, w', c, below);
    NoStraysKept(w, step, below + {c});
    DistinctKept(w, w', x);
    RootTold(w, w', x, c, below);
  }

  lemma SameCreation(w: World, w': World, x: nat)
    requires ActsAlone(w, w', x)
    ensures w'.tree.created == w.tree.created
  {
    hide OtherKept;
  }

  lemma {:induction false} DrainRun(w: World, steps: seq<Step>, c: nat, below: set<nat>)
    requires Inv(w) && Drains(w, c, below) && ValidFrom(w, steps) && forall s | s in steps :: IsClean(s, below + {c})
    ensures Drains(AfterFrom(w, steps), c, below) && Inv(AfterFrom(w, steps))
    decreases |steps|
  {
    hide Inv, Enabled, Next, Drains, IsClean;
    if steps != [] {
      assert steps[0] in steps;
      assert forall s | s in steps[1..] :: s in steps;
      DrainStep(w, steps[0], c, below);
      StepKeeps(w, steps[0]);
      DrainRun(Next(w, steps[0]), steps[1..], c, below);
    }
  }

  // ---------- when nothing is left to do ----------

  /** No actor of the tree has anything left to do. */
  ghost predicate QuietTree(w: World, tree: set<nat>) {
    forall e | e in tree :: e in w.life && QuietActor(w, e)
  }

  /** In a quiet tree nobody rests: who was told has stopped, and its children were
      told. */
  lemma {:induction false} NoneRests(w: World, c: nat, below: set<nat>, e: nat)
    requires Inv(w) && Drains(w, c, below) && QuietTree(w, below + {c}) && e in below + {c}
    ensures HasStopped(w, e, below)
    decreases e
  {
    hide Resting, HasStopped, T.PathsDistinct, NoStrays, AllSettled, Inv;
    if e != c {
      CreatorBelow(w, e);
      NoneRests(w, c, below, Parent(w, e));
      StoppedTells(w, Parent(w, e), below, e);
    }
    QuietTold(w, e, below);
  }

  lemma CreatorBelow(w: World, e: nat)
    requires Inv(w) && e in w.tree.created
    ensures Parent(w, e) < e
  {
    hide ChannelsOk, QueuesOk, AllWaitedOk, SignalsOk, EmittedOk, OrderOk, BusyOk, RegistryOk, PendingOk, AwaitingOk;
    assert ShapeAt(w, e);
    hide *;
  }

  lemma StoppedTells(w: World, e: nat, below: set<nat>, d: nat)
    requires HasStopped(w, e, below) && d in below && d in w.tree.created && Parent(w, d) == e
    ensures d in w.life && Told(w, d)
  {
    hide Told, Children;
  }

  lemma QuietTold(w: World, e: nat, below: set<nat>)
    requires e in w.life && QuietActor(w, e) && Told(w, e)
    ensures !Resting(w, e, below)
  {
    hide Covered, KidsUntold;
  }

  /** And everybody has emitted: who still runs waits for a child in the tree that
      still runs. */
  lemma {:induction false} AllEmitted(w: World, c: nat, below: set<nat>, e: nat, bound: nat)
    requires Inv(w) && Drains(w, c, below) && QuietTree(w, below + {c}) && e in below + {c}
    requires forall d | d in w.life :: d < bound
    ensures e in w.emitted
    decreases bound - e
  {
    NoneRests(w, c, below, e);
    hide Resting, HasStopped, T.PathsDistinct, AllSettled, Inv, QuietActor, Told;
    if e in w.life && w.life[e].phase == Running {
      var d := WaitsInTree(w, c, below, e);
      AllEmitted(w, c, below, d, bound);
    } else {
      QuietEmitted(w, e);
    }
  }

  lemma QuietEmitted(w: World, e: nat)
    requires Inv(w) && e in w.life && QuietActor(w, e) && w.life[e].phase != Running
    ensures e in w.emitted
  {
    hide Shape, ChannelsOk, QueuesOk, AllWaitedOk, SignalsOk, OrderOk, BusyOk, RegistryOk, PendingOk, AwaitingOk;
  }

  lemma WaitsInTree(w: World, c: nat, below: set<nat>, e: nat) returns (d: nat)
    requires Inv(w) && TreeBelow(w, c, below) && NoStrays(w, below + {c}) && e in below + {c}
    requires HasStopped(w, e, below) && QuietActor(w, e) && w.life[e].phase == Running
    ensures d in below && d !in w.emitted && d > e && d in w.life
  {
    hide ShapeAt, ChannelsOk, QueuesOk, AllWaitedOk, SignalsOk, EmittedOk, OrderOk, BusyOk, RegistryOk, PendingOk,
         KidsTold, Children, Told;
    d :| Awaited(w, e, d);
    hide AwaitingOk;
    RunningQuiet(w, e);
    CreatorBelow(w, d);
  }

  lemma RunningQuiet(w: World, e: nat)
    requires Shape(w) && e in w.life && QuietActor(w, e) && w.life[e].phase == Running
    ensures e in w.signals && w.signals[e] == []
  {
    assert ShapeAt(w, e);
    hide ActorPath.WellFormed;
  }

  // ---------- tables that agree ----------

  /** A registered child with a channel is in the tree. */
  lemma ChannelBelow(w: World, c: nat, below: set<nat>, e: nat, p: ActorPath)
    requires Inv(w) && RootedAtRest(w, c, below) && e in below + {c} && IsRunning(w, e) && w.signals[e] == []
    requires p in w.tree.supervisors[e].senders && p.Parent() == w.tree.supervisors[e].path
    ensures w.tree.supervisors[e].senders[p] in below
  {
    hide ShapeAt, QueuesOk, AllWaitedOk, SignalsOk, EmittedOk, OrderOk, BusyOk, RegistryOk, AwaitingOk, AtRest, IsKid,
         ActorPath.Parent;
    var d := w.tree.supervisors[e].senders[p];
    assert ChannelOk(w, e, p);
    ActorPathIs(w, e);
    assert Unheard(w, d);
  }

  lemma MemberRuns(w: World, c: nat, below: set<nat>, e: nat)
    requires RootedAtRest(w, c, below) && e in below + {c}
    ensures IsRunning(w, e) && Idle(w, e) && w.signals[e] == [] && e in w.tree.created
    ensures w.tree.queues[e] == if e == c then [Stop] else []
  {
    hide IsKid, Idle, NoStrays;
  }

  lemma AgreeCovers(w: World, c: nat, below: set<nat>, e: nat)
    requires Inv(w) && RootedAtRest(w, c, below) && e in below + {c}
    requires e in w.tree.supervisors && T.AgreeAt(w.tree, e)
    ensures Covered(w, e, below)
  {
    MemberRuns(w, c, below, e);
    hide Inv, RootedAtRest, ActorPath.Parent;
    forall p | p in w.tree.registry && p.Parent() == w.tree.supervisors[e].path
      ensures p in w.tree.supervisors[e].senders && w.tree.supervisors[e].senders[p] in below
    {
      ChannelBelow(w, c, below, e, p);
    }
  }

  lemma RestUnwaited(w: World, c: nat, below: set<nat>, e: nat)
    requires Inv(w) && RootedAtRest(w, c, below) && e in below + {c}
    ensures e !in w.waited
  {
    hide Shape, QueuesOk, AllWaitedOk, SignalsOk, EmittedOk, OrderOk, BusyOk, RegistryOk, PendingOk, AwaitingOk, Idle,
         ActorPath.Parent;
    if e == c {
      StopUnwaited(w, c);
    } else {
      assert ChannelOk(w, Parent(w, e), w.tree.created[e].path);
    }
  }

  lemma RestUntold(w: World, d: nat)
    requires AtRest(w, d, []) && d !in w.waited
    ensures d in w.life && !Told(w, d)
  {
    hide Idle;
  }

  lemma KidAtRest(w: World, c: nat, below: set<nat>, d: nat)
    requires RootedAtRest(w, c, below) && d in below
    ensures AtRest(w, d, []) && d in w.tree.created && Parent(w, d) in below + {c} && IsKid(w, Parent(w, d), d)
  {
    hide AtRest, IsKid, NoStrays;
  }

  /** At first every actor of the tree rests. */
  lemma StartsResting(w: World, c: nat, below: set<nat>, e: nat)
    requires Inv(w) && RootedAtRest(w, c, below) && e in below + {c} && Covered(w, e, below)
    ensures Resting(w, e, below)
  {
    hide Inv, RootedAtRest, Covered, IsKid, AtRest, Told, Idle;
    MemberRuns(w, c, below, e);
    RestUnwaited(w, c, below, e);
    forall d | d in below && d in w.tree.created && Parent(w, d) == e
      ensures IsKid(w, e, d) && d in w.life && !Told(w, d)
    {
      KidAtRest(w, c, below, d);
      RestUnwaited(w, c, below, d);
      RestUntold(w, d);
    }
  }

  lemma StartsDraining(w: World, c: nat, below: set<nat>)
    requires Inv(w) && RootedAtRest(w, c, below) && AllSettled(w) && T.PathsDistinct(w.tree)
    requires forall e | e in below + {c} :: e in w.tree.supervisors && T.AgreeAt(w.tree, e)
    ensures Drains(w, c, below)
  {
    hide Inv, AtRest, IsKid, Told, T.PathsDistinct, AllSettled, T.AgreeAt, Resting, HasStopped, NoStrays, TreeBelow,
         Idle;
    MemberRuns(w, c, below, c);
    StopTold(w, c);
    forall e | e in below + {c} ensures Resting(w, e, below) {
      AgreeCovers(w, c, below, e);
      StartsResting(w, c, below, e);
    }
  }

  /** The continuation consists of clean steps, and ends with nothing left to do in
      the tree. */
  ghost predicate CleanRun(w: World, steps: seq<Step>, tree: set<nat>) {
    ValidFrom(w, steps) && (forall s | s in steps :: IsClean(s, tree)) && QuietTree(AfterFrom(w, steps), tree)
  }

  ghost predicate AllOf(tree: set<nat>, emitted: seq<nat>) {
    forall e | e in tree :: e in emitted
  }

  ghost predicate TablesAgree(w: World, tree: set<nat>) {
    forall e | e in tree :: e in w.tree.supervisors && T.AgreeAt(w.tree, e)
  }

  /** Everybody stops: over a tree at rest whose tables name all registered
      children, every clean run that ends quiet has all of it emitted. */
  lemma EverybodyStops(w: World, c: nat, below: set<nat>, steps: seq<Step>)
    requires Inv(w) && RootedAtRest(w, c, below) && AllSettled(w) && T.PathsDistinct(w.tree)
    requires TablesAgree(w, below + {c}) && CleanRun(w, steps, below + {c})
    ensures AllOf(below + {c}, AfterFrom(w, steps).emitted)
  {
    hide Inv, RootedAtRest, AllSettled, T.PathsDistinct, Drains, ValidFrom, AfterFrom, IsClean, QuietTree, T.AgreeAt;
    StartsDraining(w, c, below);
    DrainRun(w, steps, c, below);
    var w' := AfterFrom(w, steps);
    var bound := Above(w'.life.Keys);
    forall e | e in below + {c} ensures e in w'.emitted {
      AllEmitted(w', c, below, e, bound);
    }
  }
}
