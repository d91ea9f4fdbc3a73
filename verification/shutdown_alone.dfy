/** What one actor's step of the stop protocol leaves of all others. */
module ShutdownAlone {
  import opened Wrappers
  import opened Paths
  import opened Supervision
  import opened Shutdown
  import opened ShutdownInvariants
  import opened ShutdownOrders
  import opened ShutdownBranches
  import opened ShutdownWaits
  import opened ShutdownProgress
  import T = SupervisionTrees

  /** Actor `x` deregisters direct children of its own path only, sends Stop to
      its own children only, and its Stopped to its creator only. */
  ghost predicate ActsAlone(w: World, w': World, x: nat) {
    && w'.tree.created == w.tree.created && w'.life.Keys == w.life.Keys && w'.signals.Keys == w.signals.Keys
    && (forall p | p in w'.tree.registry :: p in w.tree.registry && w'.tree.registry[p] == w.tree.registry[p])
    && (forall p | p in w.tree.registry && p !in w'.tree.registry ::
          x in w.tree.supervisors && p.Parent() == w.tree.supervisors[x].path)
    && (x in w'.tree.supervisors ==>
          x in w.tree.supervisors && w'.tree.supervisors[x].path == w.tree.supervisors[x].path)
    && w.waited <= w'.waited <= w.waited + {x} && w'.behind <= w.behind + {x} && NoNewRestart(w, w', x)
    && forall e | e != x :: OtherKept(w, w', x, e)
  }

  ghost predicate NoNewRestart(w: World, w': World, x: nat) {
    x in w'.tree.queues && Restart in w'.tree.queues[x] ==> x in w.tree.queues && Restart in w.tree.queues[x]
  }

  ghost predicate OtherKept(w: World, w': World, x: nat, e: nat) {
    && (e in w.life ==> e in w'.life && w'.life[e] == w.life[e])
    && (e in w'.tree.supervisors <==> e in w.tree.supervisors)
    && (e in w.tree.supervisors ==> w'.tree.supervisors[e] == w.tree.supervisors[e])
    && (e in w'.tree.queues <==> e in w.tree.queues)
    && (e in w.tree.queues ==> w'.tree.queues[e] == w.tree.queues[e] || ToldBy(w, w', x, e))
    && (e in w.signals ==> e in w'.signals && (w'.signals[e] == w.signals[e] || HeardOf(w, w', x, e)))
  }

  ghost predicate ToldBy(w: World, w': World, x: nat, e: nat)
    requires e in w.tree.queues && e in w'.tree.queues
  {
    && w'.tree.queues[e] == w.tree.queues[e] + [Stop] && Stop !in w.tree.queues[e]
    && e in w.tree.created && Parent(w, e) == x
  }

  ghost predicate HeardOf(w: World, w': World, x: nat, e: nat)
    requires e in w.signals && e in w'.signals
  {
    && x in w.life && w.life[x].phase == Left && x in w.tree.created && Parent(w, x) == e
    && w'.signals[e] == w.signals[e] + [Signal(x, w.tree.created[x].path)]
  }

  // ---------- handling Stop ----------

  lemma AloneServed(w: World, x: nat, t': Tables)
    requires ChannelsOk(w) && x in w.tree.supervisors && Serves(T.TablesOf(w.tree, x), t')
    requires forall p | p in w.tree.registry && p !in t'.registry :: p.Parent() == w.tree.supervisors[x].path
    ensures ActsAlone(w, w.(tree := T.WithTables(w.tree, x, t')), x)
  {
    hide ActorPath.Parent;
    var t, w' := T.TablesOf(w.tree, x), w.(tree := T.WithTables(w.tree, x, t'));
    assert x in t.queues ==> ServedQueue(t, t', x);
    forall e | e != x ensures OtherKept(w, w', x, e) {
      if e in w.tree.queues {
        assert ServedQueue(t, t', e);
        if t'.queues[e] != t.queues[e] {
          var p :| p in t.senders && t.senders[p] == e && p !in t'.senders;
          assert ChannelOk(w, x, p);
        }
      }
    }
  }

  /** Then the actor itself goes on. */
  ghost predicate OnlySelf(w: World, w': World, x: nat) {
    && w'.tree.created == w.tree.created && w'.tree.registry == w.tree.registry
    && w'.tree.supervisors == w.tree.supervisors && w'.tree.queues.Keys == w.tree.queues.Keys
    && (forall e | e in w.tree.queues && e != x :: w'.tree.queues[e] == w.tree.queues[e])
    && w'.life.Keys == w.life.Keys && (forall e | e in w.life && e != x :: w'.life[e] == w.life[e])
    && w'.signals.Keys == w.signals.Keys && (forall e | e in w.signals && e != x :: w'.signals[e] == w.signals[e])
    && w.waited <= w'.waited <= w.waited + {x} && w'.behind <= w.behind + {x} && NoNewRestart(w, w', x)
  }

  lemma AloneThen(w: World, w0: World, w': World, x: nat)
    requires ActsAlone(w, w0, x) && OnlySelf(w0, w', x)
    ensures ActsAlone(w, w', x)
  {
    hide ActorPath.Parent;
    forall e | e != x ensures OtherKept(w, w', x, e) {
      assert OtherKept(w, w0, x, e);
    }
  }

  lemma AloneSame(w: World, x: nat)
    ensures ActsAlone(w, w, x)
  {
  }

  lemma StopDeregisters(w: World, x: nat, order: seq<ActorPath>)
    requires ChannelsOk(w) && T.Enabled(w.tree, T.Op.StopAllChildren(x, order))
    ensures ActsAlone(w, TreeStep(w, T.Op.StopAllChildren(x, order)), x)
  {
    var t := T.TablesOf(w.tree, x);
    OwnTables(w, x);
    StopEachServes(t, order);
    StopEachTables(t, order);
    hide ChannelsOk, StopEach, Serves, OwnChannels, ActorPath.Parent, ActsAlone, Stopped;
    forall p | p in w.tree.registry && p !in StopEach(t, order).0.registry
      ensures p.Parent() == w.tree.supervisors[x].path
    {
      assert p in Visited(t, order);
      assert p in order;
      assert p in Children(w.tree.registry, w.tree.supervisors[x].path);
    }
    AloneServed(w, x, StopEach(t, order).0);
  }

  lemma AloneStop(w: World, x: nat, order: seq<ActorPath>, preStop: bool, fault: bool)
    requires ChannelsOk(w) && Enabled(w, HandleStop(x, order, preStop, fault))
    ensures ActsAlone(w, Next(w, HandleStop(x, order, preStop, fault)), x)
  {
    StopEnabled(w, x, order, preStop, fault);
    hide ChannelsOk, Enabled, Next, ActsAlone, Took, T.Enabled, T.Apply, Idle, StopTables;
    StopNext(w, x, order, preStop, fault);
    var w0, w' := StopTables(w, x, order, preStop), Next(w, HandleStop(x, order, preStop, fault));
    AloneTold(w, x, order, preStop);
    TookSame(w0, x);
    TookNothing(w0, x);
    AloneThen(w, w0, w', x);
  }

  lemma TookNothing(w: World, x: nat)
    ensures NoNewRestart(w, Took(w, x), x)
  {
  }

  lemma AloneTold(w: World, x: nat, order: seq<ActorPath>, preStop: bool)
    requires ChannelsOk(w) && T.Enabled(w.tree, T.Op.StopAllChildren(x, order))
    ensures var w0 := StopTables(w, x, order, preStop);
            && ActsAlone(w, w0, x) && w0 == w.(tree := w0.tree)
  {
    hide ChannelsOk, ActsAlone, T.Apply, T.Enabled;
    if preStop {
      StopDeregisters(w, x, order);
    } else {
      AloneSame(w, x);
    }
  }

  // ---------- signals, emissions, ends ----------

  /** The path removed for a signal is directly below the actor's own. */
  lemma RemovedBelow(w: World, x: nat)
    requires Inv(w) && IsRunning(w, x) && w.signals[x] != []
    ensures SignalPath(w, x).Parent() == w.tree.supervisors[x].path
  {
    hide Shape, ChannelsOk, QueuesOk, AllWaitedOk, SignalsOk, EmittedOk, OrderOk, BusyOk, RegistryOk, PendingOk,
         AwaitingOk, SomeChildEmitted, ActorPath.Div, ActorPath.WellFormed, ActorPath.Parent;
    ActorPathIs(w, x);
    SignalFacts(w, x);
    KeyBelow(w.tree.supervisors[x].path, w.signals[x][0].path);
  }

  lemma KeyBelow(parent: ActorPath, path: ActorPath)
    requires path.WellFormed() && parent.tokens != [] && path.tokens != []
    ensures parent.Div(path.Key()).Parent() == parent
  {
    TokenParses(path.Key());
    ChildExact(parent, path.Key());
  }

  lemma AloneSignal(w: World, x: nat)
    requires Inv(w) && Enabled(w, HandleSignal(x))
    ensures ActsAlone(w, Next(w, HandleSignal(x)), x)
  {
    hide Enabled, Next, ActsAlone, SignalPath, Idle, Shape, ChannelsOk, QueuesOk, AllWaitedOk, SignalsOk, EmittedOk,
         OrderOk, BusyOk, RegistryOk, PendingOk, AwaitingOk, ActorPath.Parent, Children, OnlySelf;
    SignalNext(w, x);
    RemovedBelow(w, x);
    AloneForgets(w, x, SignalPath(w, x));
    HeardSelf(w, x);
    AloneThen(w, TreeStep(w, T.Op.ChildStopped(x, SignalPath(w, x))), Next(w, HandleSignal(x)), x);
  }

  lemma AloneForgets(w: World, x: nat, p: ActorPath)
    requires ChannelsOk(w) && x in w.tree.supervisors && p.Parent() == w.tree.supervisors[x].path
    ensures ActsAlone(w, TreeStep(w, T.Op.ChildStopped(x, p)), x)
  {
    hide ActsAlone, ChannelsOk, Serves, ActorPath.Parent;
    DeregisterServes(T.TablesOf(w.tree, x), p);
    AloneServed(w, x, Deregister(T.TablesOf(w.tree, x), p));
  }

  lemma HeardSelf(w: World, x: nat)
    requires Enabled(w, HandleSignal(x)) && x in w.tree.supervisors && x in w.signals && w.signals[x] != []
    ensures OnlySelf(TreeStep(w, T.Op.ChildStopped(x, SignalPath(w, x))), Next(w, HandleSignal(x)), x)
  {
    hide Enabled, Next, SignalPath, T.Apply, Children, Idle;
    SignalNext(w, x);
    SameRest(w, T.Op.ChildStopped(x, SignalPath(w, x)));
  }

  lemma SameRest(w: World, op: T.Op)
    requires T.Enabled(w.tree, op)
    ensures TreeStep(w, op) == w.(tree := TreeStep(w, op).tree)
  {
    hide T.Apply, T.Enabled;
  }

  lemma AloneEmit(w: World, x: nat)
    requires Enabled(w, Emit(x)) && w.signals.Keys == w.tree.created.Keys + {T.SYSTEM}
    ensures ActsAlone(w, Next(w, Emit(x)), x)
  {
    EmitNext(w, x);
    hide Enabled, Next, ActorPath.Parent;
    var w' := Next(w, Emit(x));
    forall e | e != x ensures OtherKept(w, w', x, e) {
    }
  }

  lemma AloneDrop(w: World, x: nat)
    requires Enabled(w, Drop(x))
    ensures ActsAlone(w, Next(w, Drop(x)), x)
  {
    DropNext(w, x);
    hide Enabled, Next, ActorPath.Parent;
    var w' := Next(w, Drop(x));
    forall e | e != x ensures OtherKept(w, w', x, e) {
    }
  }

  // ---------- all own steps of settled actors ----------

  ghost predicate AllSettled(w: World) {
    forall d | d in w.life :: w.life[d].creation == Settled
  }

  /** The actor whose step it is. */
  function Actor(step: Step): nat {
    match step
    case HandleStop(x, _, _, _) => x
    case HandleSignal(x) => x
    case Emit(x) => x
    case Drop(x) => x
    case _ => T.SYSTEM
  }

  /** When all start-ups are settled, four kinds of own steps are left. */
  lemma NoStartUps(w: World, step: Step)
    requires Shape(w) && AllSettled(w) && Enabled(w, step) && IsOwn(step)
    ensures step.HandleStop? || step.HandleSignal? || step.Emit? || step.Drop?
  {
    hide Idle, Shape;
    if step.Start? || step.Refuse? {
      PendingStart(w, step);
    }
  }

  lemma OwnStepAlone(w: World, step: Step)
    requires Inv(w) && AllSettled(w) && Enabled(w, step) && IsOwn(step)
    ensures ActsAlone(w, Next(w, step), Actor(step)) && AllSettled(Next(w, step))
    ensures step.HandleStop? || step.HandleSignal? || step.Emit? || step.Drop?
  {
    hide Enabled, Next, ActsAlone, AllSettled, IsOwn, Shape, ChannelsOk, QueuesOk, AllWaitedOk, SignalsOk, EmittedOk,
         OrderOk, BusyOk, RegistryOk, PendingOk, AwaitingOk;
    OwnStepSettled(w, step);
    SignalKeys(w);
    NoStartUps(w, step);
    if step.HandleStop? {
      AloneStop(w, step.id, step.order, step.preStop, step.fault);
    } else if step.HandleSignal? {
      AloneSignal(w, step.id);
    } else if step.Emit? {
      AloneEmit(w, step.id);
    } else {
      AloneDrop(w, step.id);
    }
  }

  lemma SignalKeys(w: World)
    requires Inv(w)
    ensures w.signals.Keys == w.tree.created.Keys + {T.SYSTEM}
  {
    hide ShapeAt, ChannelsOk, QueuesOk, AllWaitedOk, SignalsOk, EmittedOk, OrderOk, BusyOk, RegistryOk, PendingOk,
         AwaitingOk;
  }

  lemma OwnStepSettled(w: World, step: Step)
    requires Inv(w) && AllSettled(w) && Enabled(w, step) && IsOwn(step)
    ensures AllSettled(Next(w, step))
  {
    hide Enabled, Next, Shape, ChannelsOk, QueuesOk, AllWaitedOk, SignalsOk, EmittedOk, OrderOk, BusyOk, RegistryOk,
         PendingOk, AwaitingOk;
    NoStartUps(w, step);
    LivesNext(w, step);
    SameLives(w, step);
  }

  lemma SameLives(w: World, step: Step)
    requires Enabled(w, step) && (step.HandleStop? || step.HandleSignal? || step.Emit? || step.Drop?)
    ensures Next(w, step).life.Keys == w.life.Keys
  {
    hide Enabled, Next, T.Apply, T.Enabled, Took, SignalPath, Children, StopTables;
    match step {
      case HandleStop(x, order, preStop, fault) =>
        StopEnabled(w, x, order, preStop, fault);
        StopNext(w, x, order, preStop, fault);
      case HandleSignal(x) => SignalNext(w, x);
      case Emit(x) => EmitNext(w, x);
      case Drop(x) => DropNext(w, x);
    }
  }
}
