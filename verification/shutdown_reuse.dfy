/** What happens when a path is used again before the Stopped signal of its
    first actor has been handled.
 */
module ShutdownReuse {
  import opened Wrappers
  import opened Paths
  import opened Supervision
  import opened Shutdown
  import opened ShutdownInvariants
  import opened ShutdownBranches
  import opened ShutdownWaits
  import T = SupervisionTrees

  /** The creator has a channel for the actor. */
  predicate InTable(w: World, c: nat) {
    && c in w.tree.created
    && var o := w.tree.created[c];
       && o.parent in w.tree.supervisors && o.path in w.tree.supervisors[o.parent].senders
       && w.tree.supervisors[o.parent].senders[o.path] == c
  }

  /** Settled, without a channel, and not told to stop. */
  ghost predicate Untold(w: World, c: nat) {
    && c in w.life && c in w.tree.created && w.life[c].creation == Settled && c !in w.waited
    && (c in w.tree.queues ==> Stop !in w.tree.queues[c]) && !InTable(w, c)
  }

  // ---------- an actor without a channel is never told ----------

  lemma UntoldServed(w: World, s: nat, t': Tables, c: nat)
    requires ChannelsOk(w) && Untold(w, c) && s in w.tree.supervisors && Serves(T.TablesOf(w.tree, s), t')
    ensures Untold(w.(tree := T.WithTables(w.tree, s, t')), c)
  {
    var t := T.TablesOf(w.tree, s);
    forall p | p in t.senders ensures t.senders[p] != c {
      assert ChannelOk(w, s, p);
    }
    assert !Dropped(t, t', c);
    if c in t.queues {
      assert ServedQueue(t, t', c);
    }
  }

  lemma UntoldStopAll(w: World, s: nat, order: seq<ActorPath>, c: nat)
    requires ChannelsOk(w) && Untold(w, c) && s in w.tree.supervisors && Distinct(order)
    ensures Untold(w.(tree := T.WithTables(w.tree, s, StopEach(T.TablesOf(w.tree, s), order).0)), c)
  {
    OwnTables(w, s);
    StopEachServes(T.TablesOf(w.tree, s), order);
    UntoldServed(w, s, StopEach(T.TablesOf(w.tree, s), order).0, c);
  }

  lemma UntoldDropped(w: World, s: nat, p: ActorPath, c: nat)
    requires ChannelsOk(w) && Untold(w, c) && s in w.tree.supervisors
    ensures Untold(w.(tree := T.WithTables(w.tree, s, Deregister(T.TablesOf(w.tree, s), p))), c)
    ensures Untold(w.(tree := T.WithTables(w.tree, s, StopOne(T.TablesOf(w.tree, s), p).0)), c)
  {
    DeregisterServes(T.TablesOf(w.tree, s), p);
    StopOneServes(T.TablesOf(w.tree, s), p);
    UntoldServed(w, s, Deregister(T.TablesOf(w.tree, s), p), c);
    UntoldServed(w, s, StopOne(T.TablesOf(w.tree, s), p).0, c);
  }

  lemma UntoldRestarted(w: World, w': World, c: nat)
    requires Untold(w, c) && Restarted(w, w')
    ensures Untold(w', c)
  {
  }

  /** The parts of a world that say whether the actor is untold. */
  ghost predicate SameFor(w: World, w': World, c: nat) {
    && w'.tree.created == w.tree.created && w'.tree.supervisors == w.tree.supervisors
    && (c in w'.tree.queues ==> c in w.tree.queues && forall a | a in w'.tree.queues[c] :: a in w.tree.queues[c])
    && (c in w'.waited ==> c in w.waited)
    && (c in w.life ==> c in w'.life && (w.life[c].creation == Settled ==> w'.life[c].creation == Settled))
  }

  lemma UntoldSame(w: World, w': World, c: nat)
    requires Untold(w, c) && SameFor(w, w', c)
    ensures Untold(w', c)
  {
  }

  lemma UntoldStop(w: World, x: nat, order: seq<ActorPath>, preStop: bool, fault: bool, c: nat)
    requires ChannelsOk(w) && Enabled(w, HandleStop(x, order, preStop, fault)) && Untold(w, c)
    ensures Untold(Next(w, HandleStop(x, order, preStop, fault)), c)
  {
    StopEnabled(w, x, order, preStop, fault);
    assert Stop in w.tree.queues[x] && x != c;
    hide Enabled, Next, ChannelsOk, Untold, StopEach, Took, Idle, Children, Lists;
    StopNext(w, x, order, preStop, fault);
    UntoldStopAll(w, x, order, c);
    var w0, w' := StopTables(w, x, order, preStop), Next(w, HandleStop(x, order, preStop, fault));
    TookSame(w0, x);
    UntoldSame(w0, w', c);
  }

  lemma UntoldRestart(w: World, x: nat, order: seq<ActorPath>, fault: bool, again: bool, c: nat)
    requires ChannelsOk(w) && Enabled(w, HandleRestart(x, order, fault, again)) && Untold(w, c)
    ensures Untold(Next(w, HandleRestart(x, order, fault, again)), c)
  {
    RestartsRestarted(w, x, order);
    var w0 := TreeStep(w, T.Op.RestartAll(x, order));
    UntoldRestarted(w, w0, c);
    hide ChannelsOk, Untold, RestartEach, Idle, T.Apply, Restarted;
    UntoldSame(w0, Next(w, HandleRestart(x, order, fault, again)), c);
  }

  lemma UntoldSettle(w: World, d: nat, c: nat)
    requires ChannelsOk(w) && Enabled(w, Settle(d)) && Untold(w, c)
    ensures Untold(Next(w, Settle(d)), c)
  {
    var o := w.tree.created[d];
    if w.life[d].creation == Refused {
      UntoldDropped(w, o.parent, o.path, c);
    }
    hide ChannelsOk, StopOne;
  }

  lemma UntoldSpawn(w: World, x: nat, name: string, d: nat, c: nat)
    requires Shape(w) && Enabled(w, Spawn(x, name, d)) && Untold(w, c)
    ensures Untold(Next(w, Spawn(x, name, d)), c)
  {
    SpawnFresh(w, x, name, d);
    SpawnStep(w, x, name, d);
    hide Shape, Enabled, Next, T.ChildPath;
  }

  lemma UntoldStart(w: World, step: Step, c: nat)
    requires Shape(w) && Enabled(w, step) && (step.Start? || step.Refuse?) && Untold(w, c)
    ensures Untold(Next(w, step), c)
  {
    StartNext(w, step);
    assert ShapeAt(w, c);
    hide Shape, Enabled, Next, ActorPath.WellFormed;
  }

  lemma UntoldServe(w: World, step: Step, c: nat)
    requires ChannelsOk(w) && Enabled(w, step) && Untold(w, c)
    requires step.StopChild? || step.RemoveChild? || step.SystemError? || step.SystemFault?
    ensures Untold(Next(w, step), c)
  {
    hide Untold, ChannelsOk, Idle, StopEach, StopOne, Children, T.ChildPath;
    match step {
      case StopChild(x, name) => UntoldDropped(w, x, T.ChildPath(w.tree, x, name), c);
      case RemoveChild(x, name) => UntoldDropped(w, x, T.ChildPath(w.tree, x, name), c);
      case SystemError(path, order) => UntoldStopAll(w, T.SYSTEM, order, c);
      case SystemFault(order) => UntoldStopAll(w, T.SYSTEM, order, c);
    }
  }

  lemma UntoldRestarts(w: World, x: nat, order: seq<ActorPath>, c: nat)
    requires ChannelsOk(w) && Enabled(w, RestartChildren(x, order)) && Untold(w, c)
    ensures Untold(Next(w, RestartChildren(x, order)), c)
  {
    hide Untold, ChannelsOk, Idle, RestartEach, Restarted, T.Apply;
    RestartsRestarted(w, x, order);
    UntoldRestarted(w, Next(w, RestartChildren(x, order)), c);
  }

  lemma UntoldSignal(w: World, x: nat, c: nat)
    requires ChannelsOk(w) && Enabled(w, HandleSignal(x)) && Untold(w, c)
    ensures Untold(Next(w, HandleSignal(x)), c)
  {
    hide Untold, ChannelsOk, Idle, Children, SignalPath, StopOne;
    UntoldDropped(w, x, SignalPath(w, x), c);
    UntoldSame(TreeStep(w, T.Op.ChildStopped(x, SignalPath(w, x))), Next(w, HandleSignal(x)), c);
  }

  lemma UntoldSystem(w: World, step: Step, c: nat)
    requires ChannelsOk(w) && Enabled(w, step) && Untold(w, c) && (step.SystemCancel? || step.SystemSignal?)
    ensures Untold(Next(w, step), c)
  {
    hide Untold, ChannelsOk, StopEach, StopOne, Children;
    match step {
      case SystemCancel(order) =>
        UntoldStopAll(w, T.SYSTEM, order, c);
        UntoldSame(TreeStep(w, T.Op.StopAllChildren(T.SYSTEM, order)), Next(w, step), c);
      case SystemSignal =>
        var p := w.signals[T.SYSTEM][0].path;
        UntoldDropped(w, T.SYSTEM, p, c);
        UntoldSame(TreeStep(w, T.Op.ChildStopped(T.SYSTEM, p)), Next(w, step), c);
    }
  }

  lemma UntoldEmit(w: World, x: nat, c: nat)
    requires Enabled(w, Emit(x)) && Untold(w, c)
    ensures Untold(Next(w, Emit(x)), c)
  {
    hide InTable;
    UntoldSame(w, Next(w, Emit(x)), c);
  }

  lemma UntoldStep(w: World, step: Step, c: nat)
    requires Inv(w) && Enabled(w, step) && Untold(w, c)
    ensures Untold(Next(w, step), c)
  {
    hide Enabled, Next, Untold, ChannelsOk, Shape, QueuesOk, AllWaitedOk, SignalsOk, EmittedOk, OrderOk, BusyOk,
         RegistryOk, PendingOk, AwaitingOk;
    match step {
      case Spawn(x, name, d) => UntoldSpawn(w, x, name, d, c);
      case Start(_) => UntoldStart(w, step, c);
      case Refuse(_) => UntoldStart(w, step, c);
      case Settle(d) => UntoldSettle(w, d, c);
      case RestartChildren(x, order) => UntoldRestarts(w, x, order, c);
      case HandleStop(x, order, preStop, fault) => UntoldStop(w, x, order, preStop, fault, c);
      case HandleRestart(x, order, fault, again) => UntoldRestart(w, x, order, fault, again, c);
      case HandleSignal(x) => UntoldSignal(w, x, c);
      case Emit(x) => UntoldEmit(w, x, c);
      case Drop(x) => UntoldDrop(w, x, c);
      case SystemCancel(_) => UntoldSystem(w, step, c);
      case SystemSignal => UntoldSystem(w, step, c);
      case _ => UntoldServe(w, step, c);
    }
  }

  lemma UntoldDrop(w: World, x: nat, c: nat)
    requires Enabled(w, Drop(x)) && Untold(w, c)
    ensures Untold(Next(w, Drop(x)), c)
  {
  }

  /** Once an actor has lost its channel without being told, no Stop reaches it in
      any continuation: neither a supervisor nor the system can stop it. */
  lemma {:induction false} UntoldForever(w: World, steps: seq<Step>, c: nat)
    requires Inv(w) && Untold(w, c) && ValidFrom(w, steps)
    ensures Untold(AfterFrom(w, steps), c)
    decreases |steps|
  {
    hide Inv, Untold, Enabled, Next;
    if steps != [] {
      UntoldStep(w, steps[0], c);
      StepKeeps(w, steps[0]);
      UntoldForever(Next(w, steps[0]), steps[1..], c);
    }
  }

  // ---------- how a channel is lost without a Stop ----------

  /** The actor lives, its creator has no channel for it, and no Stop waits. */
  predicate Forgotten(w: World, c: nat) {
    c in w.tree.created && !InTable(w, c) && c in w.tree.queues && Stop !in w.tree.queues[c]
  }

  /** Steps that drop the entry of `c` at its creator and send nothing: a signal
      for its path, a handler that forgets that child, the end of a second start-up
      of the path, refused or accepted, and the end of the creator. */
  predicate Forgets(w: World, step: Step, c: nat)
    requires c in w.tree.created
  {
    var o := w.tree.created[c];
    match step
    case HandleSignal(x) =>
      x == o.parent && x in w.tree.supervisors && x in w.signals && w.signals[x] != [] && SignalPath(w, x) == o.path
    case SystemSignal =>
      && T.SYSTEM == o.parent && T.SYSTEM in w.signals && w.signals[T.SYSTEM] != []
      && w.signals[T.SYSTEM][0].path == o.path
    case RemoveChild(x, name) => x == o.parent && x in w.tree.supervisors && T.ChildPath(w.tree, x, name) == o.path
    case Settle(d) => d in w.tree.created && w.tree.created[d] == o
    case Drop(x) => x == o.parent
    case _ => false
  }

  /** Every channel a handler dropped was sent a Stop, if its receiver exists. */
  ghost predicate Tells(t: Tables, t': Tables) {
    forall p | p in t.senders && p !in t'.senders && t.senders[p] in t.queues ::
      t.senders[p] in t'.queues && Stop in t'.queues[t.senders[p]]
  }

  lemma StopOneTells(t: Tables, p: ActorPath)
    ensures Tells(t, StopOne(t, p).0)
  {
  }

  lemma StopEachTells(t: Tables, order: seq<ActorPath>)
    requires Distinct(order) && OwnChannels(t)
    ensures Tells(t, StopEach(t, order).0)
  {
    var t', n := StopEach(t, order).0, Stopped(t, order);
    StopEachExact(t, order);
    StoppedAt(t, order);
    hide StopEach, Stopped;
    forall p | p in t.senders && p !in t'.senders && t.senders[p] in t.queues
      ensures t.senders[p] in t'.queues && Stop in t'.queues[t.senders[p]]
    {
      assert p in Visited(t, order);
      var i :| 0 <= i < |order| && order[i] == p && i <= n;
      assert i < n && p in order[..n];
      assert QueueAfter(t, t', order[..n], Stop, t.senders[p]);
      assert Owns(t, order[..n], t.senders[p]);
    }
  }

  /** A child that was in a table is so still, or was told. */
  lemma KeptOrTold(w: World, s: nat, t': Tables, c: nat)
    requires ChannelsOk(w) && s in w.tree.supervisors && InTable(w, c) && c in w.tree.queues
    requires Serves(T.TablesOf(w.tree, s), t') && Tells(T.TablesOf(w.tree, s), t')
    ensures !Forgotten(w.(tree := T.WithTables(w.tree, s, t')), c)
  {
    var o := w.tree.created[c];
    assert ChannelOk(w, o.parent, o.path);
  }

  lemma StopAllForgetsNone(w: World, s: nat, order: seq<ActorPath>, c: nat)
    requires ChannelsOk(w) && s in w.tree.supervisors && InTable(w, c) && c in w.tree.queues
    requires Distinct(order)
    ensures !Forgotten(w.(tree := T.WithTables(w.tree, s, StopEach(T.TablesOf(w.tree, s), order).0)), c)
  {
    OwnTables(w, s);
    hide ChannelsOk, StopEach, Serves, Tells, OwnChannels;
    StopEachServes(T.TablesOf(w.tree, s), order);
    StopEachTells(T.TablesOf(w.tree, s), order);
    KeptOrTold(w, s, StopEach(T.TablesOf(w.tree, s), order).0, c);
  }

  lemma StopOneForgetsNone(w: World, s: nat, p: ActorPath, c: nat)
    requires ChannelsOk(w) && s in w.tree.supervisors && InTable(w, c) && c in w.tree.queues
    ensures !Forgotten(w.(tree := T.WithTables(w.tree, s, StopOne(T.TablesOf(w.tree, s), p).0)), c)
  {
    hide ChannelsOk, StopOne, Serves, Tells;
    StopOneServes(T.TablesOf(w.tree, s), p);
    StopOneTells(T.TablesOf(w.tree, s), p);
    KeptOrTold(w, s, StopOne(T.TablesOf(w.tree, s), p).0, c);
  }

  lemma DeregisterForgets(w: World, s: nat, p: ActorPath, c: nat)
    requires s in w.tree.supervisors && InTable(w, c) && c in w.tree.queues
    requires Stop !in w.tree.queues[c]
    ensures var o := w.tree.created[c];
            Forgotten(w.(tree := T.WithTables(w.tree, s, Deregister(T.TablesOf(w.tree, s), p))), c)
            <==> s == o.parent && p == o.path
  {
  }

  lemma ForgottenSame(w: World, w': World, c: nat)
    requires w'.tree.created == w.tree.created && w'.tree.supervisors == w.tree.supervisors
    requires c in w'.tree.queues <==> c in w.tree.queues
    requires c in w.tree.queues ==> w'.tree.queues[c] == w.tree.queues[c]
    ensures Forgotten(w', c) <==> Forgotten(w, c)
  {
  }

  lemma ForgetsStop(w: World, x: nat, order: seq<ActorPath>, preStop: bool, fault: bool, c: nat)
    requires ChannelsOk(w) && Enabled(w, HandleStop(x, order, preStop, fault))
    requires InTable(w, c) && c in w.tree.queues && Stop !in w.tree.queues[c]
    ensures !Forgotten(Next(w, HandleStop(x, order, preStop, fault)), c)
    ensures !Forgets(w, HandleStop(x, order, preStop, fault), c)
  {
    StopEnabled(w, x, order, preStop, fault);
    assert Stop in w.tree.queues[x] && x != c;
    assert !Forgotten(w, c);
    hide Enabled, Next, ChannelsOk, Forgotten, StopEach, Took, Idle, InTable, Children, Lists;
    StopNext(w, x, order, preStop, fault);
    StopAllForgetsNone(w, x, order, c);
    var w0 := StopTables(w, x, order, preStop);
    TookSame(w0, x);
    ForgottenSame(w0, Next(w, HandleStop(x, order, preStop, fault)), c);
  }

  lemma ForgetsRestart(w: World, x: nat, order: seq<ActorPath>, fault: bool, again: bool, c: nat)
    requires ChannelsOk(w) && Enabled(w, HandleRestart(x, order, fault, again))
    requires InTable(w, c)
    ensures !Forgotten(Next(w, HandleRestart(x, order, fault, again)), c)
    ensures !Forgets(w, HandleRestart(x, order, fault, again), c)
  {
    RestartsRestarted(w, x, order);
    hide ChannelsOk, RestartEach, Idle, T.Apply;
    assert Next(w, HandleRestart(x, order, fault, again)).tree.supervisors == w.tree.supervisors;
  }

  lemma ForgetsSettle(w: World, d: nat, c: nat)
    requires ChannelsOk(w) && Enabled(w, Settle(d))
    requires InTable(w, c) && c in w.tree.queues && Stop !in w.tree.queues[c]
    ensures Forgotten(Next(w, Settle(d)), c) <==> Forgets(w, Settle(d), c)
  {
    var o := w.tree.created[d];
    assert ChannelOk(w, w.tree.created[c].parent, w.tree.created[c].path);
    hide ChannelsOk, Idle;
    assert d != c;
    if w.life[d].creation == Refused {
      DeregisterForgets(w, o.parent, o.path, c);
    }
  }

  lemma ForgetsSignal(w: World, step: Step, c: nat)
    requires Shape(w) && Enabled(w, step) && (step.HandleSignal? || step.SystemSignal?)
    requires InTable(w, c) && c in w.tree.queues && Stop !in w.tree.queues[c]
    ensures Forgotten(Next(w, step), c) <==> Forgets(w, step, c)
  {
    hide Shape, Children, SignalPath, Idle, Forgotten, InTable, ActorPath.Parent;
    var x := if step.HandleSignal? then step.id else T.SYSTEM;
    var p := if step.HandleSignal? then SignalPath(w, x) else w.signals[x][0].path;
    DeregisterForgets(w, x, p, c);
    ForgottenSame(TreeStep(w, T.Op.ChildStopped(x, p)), Next(w, step), c);
  }

  lemma ForgetsSpawn(w: World, x: nat, name: string, d: nat, c: nat)
    requires Shape(w) && Enabled(w, Spawn(x, name, d)) && InTable(w, c)
    ensures !Forgotten(Next(w, Spawn(x, name, d)), c)
  {
    SpawnFresh(w, x, name, d);
    hide Shape, Enabled;
    SpawnStep(w, x, name, d);
    hide Next, T.ChildPath;
  }

  /** Steps of one actor's life leave the tables. */
  lemma LivesOnly(w: World, step: Step)
    requires Enabled(w, step) && (step.Start? || step.Refuse? || step.Emit?)
    ensures Next(w, step).tree == w.tree
  {
    hide Idle;
  }

  lemma ForgetsDrop(w: World, x: nat, c: nat)
    requires Enabled(w, Drop(x)) && InTable(w, c) && c in w.tree.queues && Stop !in w.tree.queues[c]
    requires w.tree.created[c].parent != c
    ensures Forgotten(Next(w, Drop(x)), c) <==> x == w.tree.created[c].parent
  {
    DropNext(w, x);
    hide Enabled, Next;
  }

  lemma ForgetsQuietly(w: World, step: Step, c: nat)
    requires Shape(w) && Enabled(w, step) && (step.Spawn? || step.Start? || step.Refuse? || step.Emit? || step.Drop?)
    requires InTable(w, c) && c in w.tree.queues && Stop !in w.tree.queues[c]
    ensures Forgotten(Next(w, step), c) <==> Forgets(w, step, c)
  {
    assert w.tree.created[c].parent != c by {
      assert ShapeAt(w, c);
    }
    hide Shape, Enabled, Next, InTable;
    match step {
      case Spawn(x, name, d) => ForgetsSpawn(w, x, name, d, c);
      case Drop(x) => ForgetsDrop(w, x, c);
      case _ => LivesOnly(w, step);
    }
  }

  lemma ForgetsServed(w: World, step: Step, c: nat)
    requires ChannelsOk(w) && Enabled(w, step) && (step.StopChild? || step.SystemError? || step.SystemFault?)
    requires InTable(w, c) && c in w.tree.queues
    ensures !Forgotten(Next(w, step), c) && !Forgets(w, step, c)
  {
    hide Forgotten, InTable, ChannelsOk, Idle, StopEach, StopOne, Children, T.ChildPath;
    match step {
      case StopChild(x, name) => StopOneForgetsNone(w, x, T.ChildPath(w.tree, x, name), c);
      case SystemError(path, order) => StopAllForgetsNone(w, T.SYSTEM, order, c);
      case SystemFault(order) => StopAllForgetsNone(w, T.SYSTEM, order, c);
    }
  }

  lemma ForgetsCancelled(w: World, order: seq<ActorPath>, c: nat)
    requires ChannelsOk(w) && Enabled(w, SystemCancel(order)) && InTable(w, c)
    requires c in w.tree.queues
    ensures !Forgotten(Next(w, SystemCancel(order)), c) && !Forgets(w, SystemCancel(order), c)
  {
    hide Forgotten, InTable, ChannelsOk, Idle, StopEach, Children;
    StopAllForgetsNone(w, T.SYSTEM, order, c);
    ForgottenSame(TreeStep(w, T.Op.StopAllChildren(T.SYSTEM, order)), Next(w, SystemCancel(order)), c);
  }

  lemma ForgetsChild(w: World, x: nat, name: string, c: nat)
    requires Enabled(w, RemoveChild(x, name)) && InTable(w, c) && c in w.tree.queues
    requires Stop !in w.tree.queues[c]
    ensures Forgotten(Next(w, RemoveChild(x, name)), c) <==> Forgets(w, RemoveChild(x, name), c)
  {
    hide Forgotten, InTable, Idle, T.ChildPath;
    DeregisterForgets(w, x, T.ChildPath(w.tree, x, name), c);
  }

  /** Exactly how a live child loses its channel without being told, over all steps
      in all states: no way of stopping does it, a second start-up of its path
      does, whether it succeeds or not. */
  lemma ForgottenExact(w: World, step: Step, c: nat)
    requires Inv(w) && Enabled(w, step) && InTable(w, c) && c in w.tree.queues
    ensures Forgotten(Next(w, step), c) <==> Forgets(w, step, c)
  {
    hide Enabled, Next, Forgotten, Forgets, InTable, ChannelsOk, Shape, QueuesOk, AllWaitedOk, SignalsOk, EmittedOk,
         OrderOk, BusyOk, RegistryOk, PendingOk, AwaitingOk;
    TableUntold(w, c);
    match step {
      case Settle(d) => ForgetsSettle(w, d, c);
      case RemoveChild(x, name) => ForgetsChild(w, x, name, c);
      case RestartChildren(x, order) => ForgetsRestarts(w, x, order, c);
      case HandleStop(x, order, preStop, fault) => ForgetsStop(w, x, order, preStop, fault, c);
      case HandleRestart(x, order, fault, again) => ForgetsRestart(w, x, order, fault, again, c);
      case HandleSignal(x) => ForgetsSignal(w, step, c);
      case SystemSignal => ForgetsSignal(w, step, c);
      case StopChild(_, _) => ForgetsServed(w, step, c);
      case SystemError(_, _) => ForgetsServed(w, step, c);
      case SystemFault(_) => ForgetsServed(w, step, c);
      case SystemCancel(order) => ForgetsCancelled(w, order, c);
      case _ => ForgetsQuietly(w, step, c);
    }
  }

  lemma TableUntold(w: World, c: nat)
    requires ChannelsOk(w) && InTable(w, c) && c in w.tree.queues
    ensures Stop !in w.tree.queues[c]
  {
    assert ChannelOk(w, w.tree.created[c].parent, w.tree.created[c].path);
  }

  lemma ForgetsRestarts(w: World, x: nat, order: seq<ActorPath>, c: nat)
    requires ChannelsOk(w) && Enabled(w, RestartChildren(x, order)) && InTable(w, c)
    ensures !Forgotten(Next(w, RestartChildren(x, order)), c) && !Forgets(w, RestartChildren(x, order), c)
  {
    RestartsRestarted(w, x, order);
    hide ChannelsOk, RestartEach, Idle, T.Apply;
  }

  // ---------- signals of an earlier actor ----------

  /** What an actor removes for a child's signal. */
  function Removed(w: World, x: nat, path: ActorPath): ActorPath
    requires x in w.tree.created
  {
    w.tree.created[x].path.Div(path.Key())
  }

  lemma DroppedFor(w: World, x: nat, p: ActorPath, c: nat)
    requires x in w.tree.supervisors && c in w.tree.created && Parent(w, c) == x && InTable(w, c)
    requires ChannelOk(w, x, w.tree.created[c].path)
    ensures var w0 := w.(tree := T.WithTables(w.tree, x, Deregister(T.TablesOf(w.tree, x), p)));
            && (InTable(w0, c) <==> p != w.tree.created[c].path)
            && (p == w.tree.created[c].path ==> p !in w0.tree.registry && Untold(w0, c))
  {
  }

  lemma HeardSame(w: World, x: nat, c: nat)
    requires Enabled(w, HandleSignal(x)) && c in w.tree.created
    ensures var w0 := TreeStep(w, T.Op.ChildStopped(x, SignalPath(w, x)));
            var w1 := Next(w, HandleSignal(x));
            c in w0.tree.created && w1.tree == w0.tree && SameFor(w0, w1, c)
  {
    CreatedSame(w.tree, T.Op.ChildStopped(x, SignalPath(w, x)));
    hide Children, Idle, SignalPath, T.Apply;
  }

  lemma StaleStep(w: World, x: nat, c: nat)
    requires Enabled(w, HandleSignal(x)) && c in w.tree.created && Parent(w, c) == x && InTable(w, c)
    requires ChannelOk(w, x, w.tree.created[c].path)
    ensures var w1, path := Next(w, HandleSignal(x)), w.tree.created[c].path;
            && c in w1.tree.created && (InTable(w1, c) <==> SignalPath(w, x) != path)
            && (SignalPath(w, x) == path ==> path !in w1.tree.registry && Untold(w1, c))
  {
    DroppedFor(w, x, SignalPath(w, x), c);
    HeardSame(w, x, c);
    var w0, w1 := TreeStep(w, T.Op.ChildStopped(x, SignalPath(w, x))), Next(w, HandleSignal(x));
    assert w1.tree == w0.tree;
    assert w0 == w.(tree := T.WithTables(w.tree, x, Deregister(T.TablesOf(w.tree, x), SignalPath(w, x))));
    hide Next, Untold, SameFor, SignalPath, ChannelOk, T.Apply, T.WithTables, Idle;
    if SignalPath(w, x) == w.tree.created[c].path {
      UntoldSame(w0, w1, c);
    }
  }

  /** A signal takes a child's channel exactly if the paths coincide. If the child
      is not the one that emitted, it goes on running, unregistered, and is never
      told to stop. */
  lemma StaleExact(w: World, x: nat, c: nat)
    requires Inv(w) && Enabled(w, HandleSignal(x)) && x in w.tree.created && x in w.signals && w.signals[x] != []
    requires c in w.tree.created && Parent(w, c) == x && InTable(w, c)
    ensures InTable(Next(w, HandleSignal(x)), c) <==> Removed(w, x, w.signals[x][0].path) != w.tree.created[c].path
    ensures Removed(w, x, w.signals[x][0].path) == w.tree.created[c].path ==>
              && w.tree.created[c].path !in Next(w, HandleSignal(x)).tree.registry
              && Untold(Next(w, HandleSignal(x)), c)
              && (c !in w.emitted ==> w.signals[x][0].id != c)
  {
    StaleParts(w, x, c);
    hide *;
    StaleStep(w, x, c);
  }

  lemma StaleParts(w: World, x: nat, c: nat)
    requires Inv(w) && Enabled(w, HandleSignal(x)) && x in w.tree.created && x in w.signals && w.signals[x] != []
    requires c in w.tree.created && Parent(w, c) == x && InTable(w, c)
    ensures x in w.tree.supervisors && w.tree.created[c].path in w.tree.supervisors[x].senders
    ensures ChannelOk(w, x, w.tree.created[c].path)
    ensures SignalPath(w, x) == Removed(w, x, w.signals[x][0].path) && w.signals[x][0].id in w.emitted
  {
    hide Idle, QueuesOk, AllWaitedOk, EmittedOk, OrderOk, BusyOk, RegistryOk, PendingOk, AwaitingOk, ActorPath.Div;
    ActorPathIs(w, x);
    HeardFrom(w, x);
  }

  /** An actor of the same creator whose pending or coming signal removes the
      path of `c`. */
  ghost predicate Rival(w: World, x: nat, c: nat, d: nat)
    requires x in w.tree.created && c in w.tree.created
  {
    d != c && Outstanding(w, x, d) && Removed(w, x, w.tree.created[d].path) == w.tree.created[c].path
  }

  lemma {:induction false} OutstandingRun(w: World, steps: seq<Step>, x: nat, d: nat)
    requires Inv(w) && ValidFrom(w, steps) && CreatesNone(steps, x) && x in w.life
    requires Outstanding(AfterFrom(w, steps), x, d)
    ensures Outstanding(w, x, d)
    decreases |steps|
  {
    if steps != [] {
      assert steps[0] in steps;
      assert forall s | s in steps[1..] :: s in steps;
      StepKeeps(w, steps[0]);
      LifeStays(w, steps[0], x);
      hide Inv, Enabled, Next, Outstanding;
      OutstandingRun(Next(w, steps[0]), steps[1..], x, d);
      OutstandingShrinks(w, steps[0], x, d);
    }
  }

  lemma LifeStays(w: World, step: Step, x: nat)
    requires Enabled(w, step) && x in w.life
    ensures x in Next(w, step).life
  {
    hide Enabled, Next;
    LivesNext(w, step);
  }

  lemma CreatedStep(w: World, step: Step, c: nat)
    requires Enabled(w, step) && c in w.tree.created
    ensures c in Next(w, step).tree.created && Next(w, step).tree.created[c] == w.tree.created[c]
  {
    hide Next, Enabled;
    if step.Spawn? {
      SpawnGrows(w, step);
    } else {
      NothingCreated(w, step);
    }
  }

  lemma {:induction false} CreatedStays(w: World, steps: seq<Step>, c: nat)
    requires Inv(w) && ValidFrom(w, steps) && c in w.tree.created
    ensures c in AfterFrom(w, steps).tree.created && AfterFrom(w, steps).tree.created[c] == w.tree.created[c]
    decreases |steps|
  {
    hide Inv, Enabled, Next;
    if steps != [] {
      CreatedStep(w, steps[0], c);
      StepKeeps(w, steps[0]);
      CreatedStays(Next(w, steps[0]), steps[1..], c);
    }
  }

  /** If the oldest signal removes the path, it is that of `c`. */
  ghost predicate OwnSignal(w: World, x: nat, path: ActorPath, c: nat) {
    && x in w.tree.created && x in w.signals && w.signals[x] != []
    && (Removed(w, x, w.signals[x][0].path) == path ==> w.signals[x][0].id == c)
  }

  /** A stale signal needs a rival: if the creator has no other outstanding child
      of the path and creates none, then in every continuation the only signal
      that takes the child's channel is its own. */
  lemma StaleNeedsRival(w: World, steps: seq<Step>, x: nat, c: nat)
    requires Inv(w) && x in w.tree.created && c in w.tree.created && Parent(w, c) == x
    requires forall d :: !Rival(w, x, c, d)
    requires ValidFrom(w, steps) && CreatesNone(steps, x)
    requires Enabled(AfterFrom(w, steps), HandleSignal(x))
    ensures OwnSignal(AfterFrom(w, steps), x, w.tree.created[c].path, c)
  {
    var w1 := AfterFrom(w, steps);
    var s := w1.signals[x][0];
    InvFrom(w, steps);
    HeardFrom(w1, x);
    SignalFacts(w1, x);
    CreatedStays(w, steps, x);
    assert x in w.life;
    OutstandingRun(w, steps, x, s.id);
    CreatedStays(w, steps, s.id);
    assert !Rival(w, x, c, s.id);
  }

  // ---------- exactly when a signal is stale ----------

  /** After these steps, in which `x` creates none, the oldest signal of `x` takes
      the channel of `c` although another actor emitted it. */
  ghost predicate StaleAfter(w: World, steps: seq<Step>, x: nat, c: nat) {
    && ValidFrom(w, steps) && CreatesNone(steps, x)
    && var w1 := AfterFrom(w, steps);
       && c in w1.tree.created && InTable(w1, c) && Enabled(w1, HandleSignal(x))
       && !OwnSignal(w1, x, w1.tree.created[c].path, c)
  }

  /** A running actor that has heard everything, with a channel for `c`, whose
      rival children are all about to stop. */
  ghost predicate RivalsCalm(w: World, x: nat, below: set<nat>, c: nat) {
    && x in w.tree.created && IsRunning(w, x) && Idle(w, x) && w.signals[x] == [] && x !in below
    && c in w.tree.created && Parent(w, c) == x && InTable(w, c)
    && forall d | Rival(w, x, c, d) :: AboutToStop(w, d, below)
  }

  /** The waiting actor after a rival's branch has stopped. */
  lemma RivalFrame(w: World, w1: World, x: nat, below: set<nat>, c: nat, d: nat)
    requires Shape(w) && RivalsCalm(w, x, below, c) && d in w.tree.created && Parent(w, d) == x
    requires Frame(w, w1, below, d)
    ensures w1.tree.created == w.tree.created && IsRunning(w1, x) && Idle(w1, x)
    ensures w1.tree.supervisors[x] == w.tree.supervisors[x]
    ensures w1.signals[x] == [Signal(d, w.tree.created[d].path)]
  {
    assert ShapeAt(w, d) && ShapeAt(w, x);
    hide AboutToStop, Rival, InTable, ShapeAt;
    assert SameActor(w, w1, x);
  }

  lemma RivalSignal(w: World, w1: World, x: nat, c: nat, d: nat)
    requires x in w.tree.created && c in w.tree.created && Parent(w, c) == x && InTable(w, c) && d in w.tree.created
    requires d != c && Removed(w, x, w.tree.created[d].path) == w.tree.created[c].path
    requires w1.tree.created == w.tree.created && IsRunning(w1, x) && Idle(w1, x)
    requires w1.tree.supervisors[x] == w.tree.supervisors[x]
    requires w1.signals[x] == [Signal(d, w.tree.created[d].path)]
    ensures Enabled(w1, HandleSignal(x)) && InTable(w1, c)
    ensures !OwnSignal(w1, x, w1.tree.created[c].path, c)
  {
    hide ActorPath.Div, ActorPath.Key, Idle;
  }

  lemma RivalHeard(w: World, w1: World, x: nat, below: set<nat>, c: nat, d: nat)
    requires Inv(w) && RivalsCalm(w, x, below, c) && Rival(w, x, c, d) && Frame(w, w1, below, d)
    ensures Enabled(w1, HandleSignal(x)) && c in w1.tree.created && InTable(w1, c)
    ensures !OwnSignal(w1, x, w1.tree.created[c].path, c)
  {
    hide Shape, ChannelsOk, QueuesOk, AllWaitedOk, SignalsOk, EmittedOk, OrderOk, BusyOk, RegistryOk, PendingOk,
         AwaitingOk, Frame, AboutToStop, Idle, Enabled, InTable, OwnSignal, Removed;
    RivalFrame(w, w1, x, below, c, d);
    RivalSignal(w, w1, x, c, d);
  }

  lemma StaleHappens(w: World, x: nat, below: set<nat>, c: nat, d: nat) returns (steps: seq<Step>)
    requires Inv(w) && RivalsCalm(w, x, below, c) && Rival(w, x, c, d)
    ensures StaleAfter(w, steps, x, c)
  {
    assert AboutToStop(w, d, below);
    hide Inv, RivalsCalm, Rival, AboutToStop, Frame, Branch, ValidFrom, AfterFrom, Enabled, InTable, OwnSignal;
    var branch: seq<nat>;
    steps, branch := BranchStops(w, d, below);
    RivalHeard(w, AfterFrom(w, steps), x, below, c, d);
  }

  lemma StaleHasRival(w: World, x: nat, c: nat, steps: seq<Step>)
    requires Inv(w) && x in w.tree.created && c in w.tree.created && Parent(w, c) == x && StaleAfter(w, steps, x, c)
    ensures exists d :: Rival(w, x, c, d)
  {
    CreatedStays(w, steps, c);
    hide Inv, Rival, ValidFrom, AfterFrom, Enabled, InTable, OwnSignal;
    if forall d :: !Rival(w, x, c, d) {
      StaleNeedsRival(w, steps, x, c);
    }
  }

  /** The exact condition: with every rival about to stop, some continuation in
      which `x` creates no other child ends with a stale signal that takes the
      channel of `c`, if and only if there is a rival. */
  lemma StaleIffRival(w: World, x: nat, below: set<nat>, c: nat)
    requires Inv(w) && RivalsCalm(w, x, below, c)
    ensures (exists steps :: StaleAfter(w, steps, x, c)) <==> (exists d :: Rival(w, x, c, d))
  {
    if d :| Rival(w, x, c, d) {
      var steps := StaleHappens(w, x, below, c, d);
    }
    if steps :| StaleAfter(w, steps, x, c) {
      StaleHasRival(w, x, c, steps);
    }
  }
}
