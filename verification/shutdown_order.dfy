/** What holds of the stop protocol over whole runs. */
module ShutdownOrders {
  import opened Wrappers
  import opened Paths
  import opened Supervision
  import opened Shutdown
  import opened ShutdownInvariants
  import T = SupervisionTrees

  // ---------- leaving ----------

  /** An actor that leaves `run` as stopped leaves it when no direct child of its
      path is registered, whoever registered it. */
  lemma LeavesChildless(steps: seq<Step>, x: nat)
    requires steps != [] && ValidRun(steps) && x in After(steps[..|steps| - 1]).life && x in After(steps).life
    requires !After(steps[..|steps| - 1]).life[x].clean && After(steps).life[x].clean
    ensures x in After(steps).tree.created
    ensures Children(After(steps).tree.registry, After(steps).tree.created[x].path) == {}
  {
    InvOfRun(steps[..|steps| - 1]);
    hide Inv;
    LeavingStep(After(steps[..|steps| - 1]), steps[|steps| - 1], x);
  }

  lemma LeavingStop(w: World, y: nat, order: seq<ActorPath>, preStop: bool, fault: bool, x: nat)
    requires Enabled(w, HandleStop(y, order, preStop, fault)) && x in w.life && !w.life[x].clean
    requires var w' := Next(w, HandleStop(y, order, preStop, fault)); x in w'.life && w'.life[x].clean
    ensures x == y && preStop && order == []
  {
    hide Idle, StopEach, T.Enabled, T.Apply, LeftBehind;
  }

  lemma LeavingSignal(w: World, y: nat, x: nat)
    requires Shape(w) && Enabled(w, HandleSignal(y)) && x in w.life && !w.life[x].clean
    requires var w' := Next(w, HandleSignal(y)); x in w'.life && w'.life[x].clean
    ensures var w' := Next(w, HandleSignal(y));
            x in w'.tree.created && Children(w'.tree.registry, w'.tree.created[x].path) == {}
  {
    hide Enabled, Next, Shape, SignalPath, Children, Idle;
    SignalNext(w, y);
    ActorPathIs(w, y);
    hide ActorPath.Parent;
  }

  lemma LeavingOther(w: World, step: Step, x: nat)
    requires Enabled(w, step) && !step.HandleStop? && !step.HandleSignal? && x in w.life && !w.life[x].clean
    ensures x in Next(w, step).life && !Next(w, step).life[x].clean
  {
    hide Enabled, Next;
    LivesNext(w, step);
  }

  lemma LeavingStep(w: World, step: Step, x: nat)
    requires Inv(w) && Enabled(w, step) && x in w.life && !w.life[x].clean
    requires x in Next(w, step).life && Next(w, step).life[x].clean
    ensures x in Next(w, step).tree.created
    ensures Children(Next(w, step).tree.registry, Next(w, step).tree.created[x].path) == {}
  {
    hide Enabled, Next, Children;
    if step.HandleStop? {
      LeavingStop(w, step.id, step.order, step.preStop, step.fault, x);
      StoppedNone(w, x, step.fault);
    } else if step.HandleSignal? {
      LeavingSignal(w, step.id, x);
    } else {
      LeavingOther(w, step, x);
    }
  }

  lemma StoppedNone(w: World, x: nat, fault: bool)
    requires Shape(w) && Enabled(w, HandleStop(x, [], true, fault))
    ensures var w' := Next(w, HandleStop(x, [], true, fault));
            x in w'.tree.created && Children(w'.tree.registry, w'.tree.created[x].path) == {}
  {
    StopServedNone(w, x);
    hide Idle, Shape, ActorPath.Parent;
  }

  /** After that none of the direct children it created is ever registered again. */
  lemma StaysChildless(steps: seq<Step>, x: nat, p: ActorPath)
    requires ValidRun(steps) && x in After(steps).life && After(steps).life[x].clean
    requires p in After(steps).tree.registry
    ensures var w := After(steps);
            && x in w.tree.created && w.tree.registry[p] in w.tree.created
            && (p.Parent() == w.tree.created[x].path ==> Parent(w, w.tree.registry[p]) != x)
  {
    InvOfRun(steps);
    var w := After(steps);
    assert RegisteredOk(w, p);
    hide ActorPath.Parent;
  }

  // ---------- the order of Stopped signals ----------

  lemma EmittedAfter(w: World, i: nat) returns (j: nat)
    requires Inv(w) && i < |w.emitted|
    requires w.emitted[i] in w.waited && w.emitted[i] in w.life && w.life[w.emitted[i]].clean
    ensures j < i && w.emitted[j] in w.tree.created && Parent(w, w.emitted[j]) == w.emitted[i]
  {
    hide Shape, ChannelsOk, QueuesOk, AllWaitedOk, SignalsOk, EmittedOk, BusyOk, RegistryOk, PendingOk, AwaitingOk;
    assert SomeChildEmitted(w, w.emitted[..i], w.emitted[i]);
    hide OrderOk;
    var c :| c in w.emitted[..i] && c in w.tree.created && Parent(w, c) == w.emitted[i];
    j :| 0 <= j < i && w.emitted[..i][j] == c;
  }

  /** Over every run of any tree, with paths used again, failed start-ups, faults
      and restarts: an actor that had a registered child when told to stop, and
      left `run` as stopped, emits its Stopped only after some child it created
      has emitted its own. */
  lemma SomeChildFirst(steps: seq<Step>, i: nat) returns (j: nat)
    requires ValidRun(steps) && i < |After(steps).emitted|
    requires var w := After(steps); var x := w.emitted[i]; x in w.waited && x in w.life && w.life[x].clean
    ensures var w := After(steps);
            j < i && w.emitted[j] in w.tree.created && Parent(w, w.emitted[j]) == w.emitted[i]
  {
    hide *;
    InvOfRun(steps);
    j := EmittedAfter(After(steps), i);
  }

  /** The actor never created more than one child. */
  ghost predicate AtMostOneChild(w: World, x: nat) {
    forall c, d | c in w.tree.created && d in w.tree.created && Parent(w, c) == x && Parent(w, d) == x :: c == d
  }

  /** Shutdown order: if that actor had at most one child, the child is the one
      that emitted before. */
  lemma ShutdownOrder(steps: seq<Step>, i: nat, child: nat) returns (j: nat)
    requires ValidRun(steps) && i < |After(steps).emitted|
    requires var w := After(steps); var x := w.emitted[i]; x in w.waited && x in w.life && w.life[x].clean
    requires AtMostOneChild(After(steps), After(steps).emitted[i])
    requires child in After(steps).tree.created && Parent(After(steps), child) == After(steps).emitted[i]
    ensures j < i && After(steps).emitted[j] == child
  {
    j := SomeChildFirst(steps, i);
  }

  /** In a hierarchy of single children, a whole chain of actors that all had to
      wait stops from the leaf up: every later member of the chain emits before
      the first. */
  lemma {:induction false} ChainOrder(steps: seq<Step>, i: nat, chain: seq<nat>) returns (j: nat)
    requires ValidRun(steps) && i < |After(steps).emitted| && chain != [] && After(steps).emitted[i] == chain[0]
    requires forall k | 0 <= k < |chain| - 1 :: WaitedForOnly(After(steps), chain[k], chain[k + 1])
    ensures j <= i && After(steps).emitted[j] == chain[|chain| - 1]
    ensures |chain| > 1 ==> j < i
    decreases |chain|
  {
    if |chain| == 1 {
      j := i;
    } else {
      assert WaitedForOnly(After(steps), chain[0], chain[1]);
      j := ShutdownOrder(steps, i, chain[1]);
      forall k | 0 <= k < |chain[1..]| - 1 ensures WaitedForOnly(After(steps), chain[1..][k], chain[1..][k + 1]) {
        assert WaitedForOnly(After(steps), chain[k + 1], chain[k + 2]);
      }
      j := ChainOrder(steps, j, chain[1..]);
    }
  }

  /** The actor waited, left as stopped, and has this one child. */
  ghost predicate WaitedForOnly(w: World, x: nat, child: nat) {
    && x in w.waited && x in w.life && w.life[x].clean && AtMostOneChild(w, x)
    && child in w.tree.created && Parent(w, child) == x
  }

  // ---------- progress ----------

  /** Nothing of the protocol is left to do: nobody starts, has left without
      emitting and going, or runs with an action or a signal to handle. */
  ghost predicate Quiescent(w: World) {
    forall c | c in w.life :: QuietActor(w, c)
  }

  ghost predicate QuietActor(w: World, c: nat)
    requires c in w.life
  {
    && (w.life[c].phase == Running || w.life[c].phase == Gone)
    && w.life[c].creation == Settled
    && (w.life[c].phase == Running && c in w.tree.queues && c in w.signals ==>
          w.tree.queues[c] == [] && w.signals[c] == [])
  }

  /** The actor waits, and its last turn left a child registered or met one
      without a channel. */
  predicate Stalled(w: World, x: nat) {
    x in w.waited && x in w.life && w.life[x].phase == Running && x in w.behind
  }

  /** Whoever waits in a quiescent world waits for a stalled descendant, or is
      stalled itself. */
  lemma {:induction false} StalledBelow(w: World, x: nat, bound: nat) returns (y: nat)
    requires Inv(w) && Quiescent(w) && x in w.waited && x in w.life && w.life[x].phase == Running
    requires forall c | c in w.life :: c < bound
    ensures Stalled(w, y) && x <= y
    decreases bound - x
  {
    if x in w.behind {
      y := x;
    } else {
      var c :| Awaited(w, x, c);
      assert ShapeAt(w, c) && ShapeAt(w, x);
      assert QuietActor(w, c) && QuietActor(w, x);
      hide ShapeAt, ActorPath.WellFormed, OrderOk, BusyOk, PendingOk, AwaitingOk, RegistryOk, ChannelsOk, QueuesOk,
           SomeChildEmitted;
      y := StalledBelow(w, c, bound);
    }
  }

  /** Progress, exactly: when the protocol has nothing left to do, every actor
      that was told to stop has emitted, if and only if nobody is stalled. */
  lemma ProgressExact(steps: seq<Step>)
    requires ValidRun(steps) && Quiescent(After(steps))
    ensures var w := After(steps);
            (forall x | x in w.life && Told(w, x) :: x in w.emitted) <==> (forall x :: !Stalled(w, x))
  {
    InvOfRun(steps);
    var w := After(steps);
    if x :| x in w.life && Told(w, x) && x !in w.emitted {
      assert QuietActor(w, x) && ShapeAt(w, x);
      var bound := Above(w.life.Keys);
      var y := StalledBelow(w, x, bound);
    }
    if x :| Stalled(w, x) {
      assert Told(w, x);
    }
  }

  lemma {:induction false} Above(s: set<nat>) returns (bound: nat)
    ensures forall c | c in s :: c < bound
  {
    if s == {} {
      bound := 0;
    } else {
      var c :| c in s;
      var b := Above(s - {c});
      bound := if c < b then b else c + 1;
      assert forall d | d in s :: d == c || d in s - {c};
    }
  }

  // ---------- whom a Stop reaches ----------

  lemma {:induction false} StoppedPrefix(t: Tables, order: seq<ActorPath>, k: nat)
    requires k < |order|
    ensures k < Stopped(t, order) <==> forall i | 0 <= i <= k :: Stoppable(t, order[i])
  {
    if k > 0 && Stoppable(t, order[0]) {
      StoppedPrefix(t, order[1..], k - 1);
      assert forall i | 0 < i <= k :: order[i] == order[1..][i - 1];
      assert forall i | 0 <= i <= k - 1 :: order[1..][i] == order[i + 1];
    }
  }

  lemma VisitedPrefix(t: Tables, order: seq<ActorPath>, k: nat)
    requires k < |order| && Distinct(order)
    ensures order[k] in Visited(t, order) <==> k <= Stopped(t, order)
  {
    var n := Stopped(t, order);
    var seen := if n < |order| then order[..n + 1] else order;
    if k <= n {
      assert seen[k] == order[k];
    }
  }

  /** The queues and the registry when the children have been told in this order. */
  lemma ToldTables(t: Tables, order: seq<ActorPath>, k: nat)
    requires k < |order| && Distinct(order) && OwnChannels(t)
    ensures var t', p := StopEach(t, order).0, order[k];
            && (p in t.senders && t.senders[p] in t.queues ==>
                  t.senders[p] in t'.queues
                  && t'.queues[t.senders[p]] == t.queues[t.senders[p]]
                                                + if k < Stopped(t, order) then [Stop] else [])
            && (p in t'.registry <==> p in t.registry && k > Stopped(t, order))
  {
    var t', n, p := StopEach(t, order).0, Stopped(t, order), order[k];
    StopEachExact(t, order);
    VisitedPrefix(t, order, k);
    hide StopEach, Visited, Stopped;
    if p in t.senders && t.senders[p] in t.queues {
      assert QueueAfter(t, t', order[..n], Stop, t.senders[p]);
      if k < n {
        assert p in order[..n];
      } else {
        forall q | q in order[..n] && q in t.senders ensures t.senders[q] != t.senders[p] {
          assert q != p;
        }
      }
      assert Owns(t, order[..n], t.senders[p]) <==> k < n;
    }
  }

  /** Whom a Stop reaches, exactly: the k-th child is sent a Stop if and only if it
      and all children before it can be stopped, and it stays registered if and
      only if some child before it cannot. */
  lemma ToldExact(w: World, x: nat, order: seq<ActorPath>, fault: bool, k: nat)
    requires Inv(w) && Enabled(w, HandleStop(x, order, true, fault)) && k < |order| && x in w.tree.supervisors
    ensures var w', t, p := Next(w, HandleStop(x, order, true, fault)), T.TablesOf(w.tree, x), order[k];
            && ((p in t.senders && t.senders[p] in t.queues && t.senders[p] in w'.tree.queues
                 && w'.tree.queues[t.senders[p]] == t.queues[t.senders[p]] + [Stop])
                <==> forall i | 0 <= i <= k :: Stoppable(t, order[i]))
            && (p in w'.tree.registry <==> exists i | 0 <= i < k :: !Stoppable(t, order[i]))
  {
    hide Shape, ChannelsOk, QueuesOk, AllWaitedOk, SignalsOk, EmittedOk, OrderOk, BusyOk, RegistryOk, PendingOk,
         AwaitingOk, Enabled, Next, T.Enabled, Idle, Took, StopEach, OwnChannels, Lists, ActorPath.Parent;
    var t := T.TablesOf(w.tree, x);
    StopEnabled(w, x, order, true, fault);
    StopNext(w, x, order, true, fault);
    TookSame(StopTables(w, x, order, true), x);
    OwnTables(w, x);
    ListedHere(w, x, order);
    ToldTables(t, order, k);
    StoppedPrefix(t, order, k);
    if k > 0 {
      StoppedPrefix(t, order, k - 1);
    }
    if order[k] in w.tree.supervisors[x].senders {
      OthersChannel(w, x, order[k]);
    }
  }

  lemma ListedHere(w: World, x: nat, order: seq<ActorPath>)
    requires T.Enabled(w.tree, T.Op.StopAllChildren(x, order)) && x in w.tree.supervisors
    ensures Distinct(order) && forall p | p in order :: p in w.tree.registry
  {
    hide ActorPath.Parent;
    forall p | p in order ensures p in w.tree.registry {
      assert p in Children(w.tree.registry, w.tree.supervisors[x].path);
    }
  }

  /** No actor has a channel to itself. */
  lemma OthersChannel(w: World, x: nat, p: ActorPath)
    requires ChannelsOk(w) && Shape(w) && x in w.tree.supervisors && p in w.tree.supervisors[x].senders
    ensures w.tree.supervisors[x].senders[p] != x
  {
    hide ShapeAt;
    assert ChannelOk(w, x, p);
    ParentsBelow(w, x);
  }

  /** When handling Stop can leave a child behind: if and only if some registered
      child has no channel, or has a dead one and is not the only child. */
  lemma BehindExact(w: World, x: nat)
    requires ChannelsOk(w) && x in w.tree.supervisors
    ensures var t, children := T.TablesOf(w.tree, x), Children(w.tree.registry, w.tree.supervisors[x].path);
            (exists order :: Lists(order, children) && LeftBehind(w, x, order))
            <==> exists p | p in children :: p !in t.senders || (t.senders[p] !in t.queues && children != {p})
  {
    var t, children := T.TablesOf(w.tree, x), Children(w.tree.registry, w.tree.supervisors[x].path);
    OwnTables(w, x);
    hide ChannelsOk, ActorPath.Parent, OwnChannels;
    if order :| Lists(order, children) && LeftBehind(w, x, order) {
      var p := BehindFails(w, x, order);
    }
    if p :| p in children && (p !in t.senders || (t.senders[p] !in t.queues && children != {p})) {
      var order := T.ListingFrom(children, p);
      FailsBehind(w, x, order);
    }
  }

  lemma BehindFails(w: World, x: nat, order: seq<ActorPath>) returns (p: ActorPath)
    requires x in w.tree.supervisors && OwnChannels(T.TablesOf(w.tree, x)) && LeftBehind(w, x, order)
    requires Lists(order, Children(w.tree.registry, w.tree.supervisors[x].path))
    ensures var t, children := T.TablesOf(w.tree, x), Children(w.tree.registry, w.tree.supervisors[x].path);
            p in children && (p !in t.senders || (t.senders[p] !in t.queues && children != {p}))
  {
    hide ActorPath.Parent, OwnChannels;
    var t := T.TablesOf(w.tree, x);
    StopEachTables(t, order);
    StoppedAt(t, order);
    hide StopEach;
    p := order[Stopped(t, order)];
    assert p in order;
    VisitedPrefix(t, order, Stopped(t, order));
    hide Visited, Stopped;
    if p in t.senders {
      var q :| q in Children(StopEach(t, order).0.registry, w.tree.supervisors[x].path);
      assert q in Children(w.tree.registry, w.tree.supervisors[x].path) && q != p;
    }
  }

  lemma FailsBehind(w: World, x: nat, order: seq<ActorPath>)
    requires x in w.tree.supervisors && order != []
    requires Lists(order, Children(w.tree.registry, w.tree.supervisors[x].path))
    requires var t, p := T.TablesOf(w.tree, x), order[0];
             p !in t.senders
             || (t.senders[p] !in t.queues && Children(w.tree.registry, w.tree.supervisors[x].path) != {p})
    ensures LeftBehind(w, x, order)
  {
    hide ActorPath.Parent;
    var t, p := T.TablesOf(w.tree, x), order[0];
    assert StopEach(t, order) == (Deregister(t, p), Err(StopError(t, p)));
    assert p in order;
    if p in t.senders {
      var q :| q in Children(w.tree.registry, w.tree.supervisors[x].path) && q != p;
      assert q in Children(Deregister(t, p).registry, w.tree.supervisors[x].path);
    }
  }

  // ---------- the system ----------

  /** The system runner finishes only when no root actor is registered. */
  lemma DoneChildless(w: World, step: Step)
    requires Shape(w) && Enabled(w, step) && w.system != Done && Next(w, step).system == Done
    ensures var w' := Next(w, step);
            T.SYSTEM in w'.tree.supervisors && Children(w'.tree.registry, w'.tree.supervisors[T.SYSTEM].path) == {}
  {
    hide Idle, Children, RestartEach, ActorPath.Parent, SignalPath, Shape;
    match step {
      case SystemCancel(order) =>
        if order == [] {
          NoneListed(Children(w.tree.registry, w.tree.supervisors[T.SYSTEM].path));
        }
      case SystemSignal =>
      case _ =>
        hide T.Apply, T.Enabled, StopEach, LeftBehind;
    }
  }

  /** When the system shuts down and when it has finished. Only a cancellation ends
      its service; it finishes with a cancellation that finds no root actor
      registered or, once shutting down, with a Stopped signal that leaves none. */
  lemma SystemExact(w: World, step: Step)
    requires Shape(w) && Enabled(w, step)
    ensures var w', roots := Next(w, step), Children(w.tree.registry, T.RootPath());
            && (w'.system == Serving <==> w.system == Serving && !step.SystemCancel?)
            && (w'.system == Done <==>
                  || w.system == Done
                  || (step.SystemCancel? && roots == {})
                  || (step.SystemSignal? && w.system == ShuttingDown
                      && Children(w'.tree.registry, T.RootPath()) == {}))
  {
    hide Idle, Children, StopEach, ShapeAt, ActorPath.Div;
    if step.SystemCancel? {
      var roots := Children(w.tree.registry, T.RootPath());
      if step.order == [] {
        NoneListed(roots);
      } else {
        assert step.order[0] in roots;
      }
    } else if !step.SystemSignal? {
      hide Next, Enabled, Shape;
      OtherPhase(w, step);
    }
  }

  lemma OtherPhase(w: World, step: Step)
    requires Enabled(w, step) && !step.SystemCancel? && !step.SystemSignal?
    ensures Next(w, step).system == w.system
  {
    hide Idle, Children, RestartEach, StopEach, ActorPath.Parent, SignalPath, T.Apply, T.Enabled, LeftBehind;
  }

  /** Until it has finished, the system may at any time pick a cancellation or an
      error or fault of whatever path, and does to its tables what its own handler
      does. */
  lemma SystemStops(w: World, path: ActorPath, order: seq<ActorPath>)
    requires Shape(w) && w.system != Done
    ensures Lists(order, Children(w.tree.registry, path)) ==>
              && Enabled(w, SystemError(path, order))
              && SystemTables(Next(w, SystemError(path, order)), StopEach(T.TablesOf(w.tree, T.SYSTEM), order).0)
    ensures Lists(order, Children(w.tree.registry, T.RootPath())) ==>
              && Enabled(w, SystemFault(order)) && Enabled(w, SystemCancel(order))
              && SystemTables(Next(w, SystemFault(order)), StopEach(T.TablesOf(w.tree, T.SYSTEM), order).0)
              && SystemTables(Next(w, SystemCancel(order)), StopEach(T.TablesOf(w.tree, T.SYSTEM), order).0)
  {
    hide Idle, Children, StopEach, ShapeAt, Lists;
  }

  ghost predicate SystemTables(w: World, t: Tables) {
    T.SYSTEM in w.tree.supervisors && T.TablesOf(w.tree, T.SYSTEM) == t
  }

  /** So it may its oldest Stopped signal, whose path it removes. */
  lemma SystemHears(w: World)
    requires Shape(w) && w.system != Done && w.signals[T.SYSTEM] != []
    ensures Enabled(w, SystemSignal)
    ensures var w' := Next(w, SystemSignal);
            && SystemTables(w', Deregister(T.TablesOf(w.tree, T.SYSTEM), w.signals[T.SYSTEM][0].path))
            && w'.signals == w.signals[T.SYSTEM := w.signals[T.SYSTEM][1..]]
  {
    hide Idle, Children, ShapeAt;
  }

  // ---------- the tables behind the steps ----------

  /** What a step does to the tables, as operations of the supervision tree. */
  function TreeOps(w: World, step: Step): seq<T.Op>
    requires Enabled(w, step)
  {
    match step
    case Spawn(x, name, c) => [T.Op.Spawn(x, name, c)]
    case Settle(c) =>
      var o := w.tree.created[c];
      [if w.life[c].creation == Accepted then T.Op.Register(o.parent, c) else T.Op.Abandon(o.parent, o.path)]
    case StopChild(x, name) => [T.Op.StopOneChild(x, T.ChildPath(w.tree, x, name))]
    case RemoveChild(x, name) => [T.Op.ChildStopped(x, T.ChildPath(w.tree, x, name))]
    case RestartChildren(x, order) => [T.Op.RestartAll(x, order)]
    case HandleStop(x, order, preStop, _) => (if preStop then [T.Op.StopAllChildren(x, order)] else []) + [T.Op.Take(x)]
    case HandleRestart(x, order, _, _) => [T.Op.RestartAll(x, order), T.Op.Take(x)]
    case HandleSignal(x) => [T.Op.ChildStopped(x, SignalPath(w, x))]
    case Drop(x) => [T.Op.End(x)]
    case SystemError(path, order) => [T.Op.SystemError(path, order)]
    case SystemFault(order) => [T.Op.StopAllChildren(T.SYSTEM, order)]
    case SystemCancel(order) => [T.Op.StopAllChildren(T.SYSTEM, order)]
    case SystemSignal => [T.Op.ChildStopped(T.SYSTEM, w.signals[T.SYSTEM][0].path)]
    case _ => []
  }

  lemma OneOp(ops: seq<T.Op>, op: T.Op)
    requires T.ValidRun(ops) && T.Enabled(T.After(ops), op)
    ensures T.ValidRun(ops + [op]) && T.After(ops + [op]) == T.Apply(T.After(ops), op)
  {
    T.OneMore(ops, op);
  }

  lemma TwoOps(ops: seq<T.Op>, a: T.Op, b: T.Op)
    requires T.ValidRun(ops) && T.Enabled(T.After(ops), a) && T.Enabled(T.Apply(T.After(ops), a), b)
    ensures T.ValidRun(ops + [a, b]) && T.After(ops + [a, b]) == T.Apply(T.Apply(T.After(ops), a), b)
  {
    T.OneMore(ops, a);
    T.OneMore(ops + [a], b);
    assert ops + [a] + [b] == ops + [a, b];
  }

  lemma TookIsTake(w: World, x: nat)
    requires x in w.tree.queues && w.tree.queues[x] != []
    ensures T.Enabled(w.tree, T.Op.Take(x)) && Took(w, x).tree == T.Apply(w.tree, T.Op.Take(x))
  {
  }

  lemma StopTree(w: World, x: nat, order: seq<ActorPath>, preStop: bool, fault: bool)
    requires Inv(w) && Enabled(w, HandleStop(x, order, preStop, fault))
    ensures var stop, take := T.Op.StopAllChildren(x, order), T.Op.Take(x);
            if preStop then
              && T.Enabled(w.tree, stop) && T.Enabled(T.Apply(w.tree, stop), take)
              && Next(w, HandleStop(x, order, preStop, fault)).tree == T.Apply(T.Apply(w.tree, stop), take)
            else
              T.Enabled(w.tree, take) && Next(w, HandleStop(x, order, preStop, fault)).tree == T.Apply(w.tree, take)
  {
    hide Shape, ChannelsOk, QueuesOk, AllWaitedOk, SignalsOk, EmittedOk, OrderOk, BusyOk, RegistryOk, PendingOk,
         AwaitingOk, Enabled, Next, T.Apply, T.Enabled, Idle, Took;
    StopEnabled(w, x, order, preStop, fault);
    StopNext(w, x, order, preStop, fault);
    StopServedSelf(w, x, order);
    hide Inv;
    TookIsTake(StopTables(w, x, order, preStop), x);
  }

  lemma TreeStop(w: World, ops: seq<T.Op>, x: nat, order: seq<ActorPath>, preStop: bool, fault: bool)
    requires Inv(w) && Enabled(w, HandleStop(x, order, preStop, fault)) && T.ValidRun(ops) && T.After(ops) == w.tree
    ensures var all := ops + TreeOps(w, HandleStop(x, order, preStop, fault));
            T.ValidRun(all) && T.After(all) == Next(w, HandleStop(x, order, preStop, fault)).tree
  {
    hide Inv, T.ValidRun, T.After, T.Apply, T.Enabled, Next, Idle;
    StopTree(w, x, order, preStop, fault);
    if preStop {
      TwoOps(ops, T.Op.StopAllChildren(x, order), T.Op.Take(x));
      assert [T.Op.StopAllChildren(x, order)] + [T.Op.Take(x)] == [T.Op.StopAllChildren(x, order), T.Op.Take(x)];
    } else {
      OneOp(ops, T.Op.Take(x));
      assert [] + [T.Op.Take(x)] == [T.Op.Take(x)];
    }
  }

  lemma RestartTree(w: World, x: nat, order: seq<ActorPath>, fault: bool, again: bool)
    requires Inv(w) && Enabled(w, HandleRestart(x, order, fault, again))
    ensures var restart, take := T.Op.RestartAll(x, order), T.Op.Take(x);
            && T.Enabled(w.tree, restart) && T.Enabled(T.Apply(w.tree, restart), take)
            && Next(w, HandleRestart(x, order, fault, again)).tree == T.Apply(T.Apply(w.tree, restart), take)
  {
    hide Shape, ChannelsOk, QueuesOk, AllWaitedOk, SignalsOk, EmittedOk, OrderOk, BusyOk, RegistryOk, PendingOk,
         AwaitingOk, Enabled, Next, T.Apply, T.Enabled, Idle, Took;
    RestartNext(w, x, order, fault, again);
    RestartServedSelf(w, x, order);
    hide Inv;
    TookIsTake(TreeStep(w, T.Op.RestartAll(x, order)), x);
  }

  lemma TreeRestart(w: World, ops: seq<T.Op>, x: nat, order: seq<ActorPath>, fault: bool, again: bool)
    requires Inv(w) && Enabled(w, HandleRestart(x, order, fault, again)) && T.ValidRun(ops) && T.After(ops) == w.tree
    ensures var all := ops + TreeOps(w, HandleRestart(x, order, fault, again));
            T.ValidRun(all) && T.After(all) == Next(w, HandleRestart(x, order, fault, again)).tree
  {
    hide Inv, T.ValidRun, T.After, T.Apply, T.Enabled, Next, Idle;
    RestartTree(w, x, order, fault, again);
    TwoOps(ops, T.Op.RestartAll(x, order), T.Op.Take(x));
  }

  lemma OtherOps(w: World, step: Step)
    requires Enabled(w, step) && !step.HandleStop? && !step.HandleRestart?
    ensures if TreeOps(w, step) == [] then Next(w, step).tree == w.tree
            else |TreeOps(w, step)| == 1 && T.Enabled(w.tree, TreeOps(w, step)[0])
                 && Next(w, step).tree == T.Apply(w.tree, TreeOps(w, step)[0])
  {
    hide Idle, StopEach, RestartEach, T.Apply, SignalPath, LeftBehind, Children;
  }

  lemma TreeStepOps(w: World, ops: seq<T.Op>, step: Step)
    requires Inv(w) && Enabled(w, step) && T.ValidRun(ops) && T.After(ops) == w.tree
    ensures T.ValidRun(ops + TreeOps(w, step)) && T.After(ops + TreeOps(w, step)) == Next(w, step).tree
  {
    hide T.ValidRun, T.After, T.Apply, T.Enabled, Enabled, Next, TreeOps, Inv;
    if step.HandleStop? {
      TreeStop(w, ops, step.id, step.order, step.preStop, step.fault);
    } else if step.HandleRestart? {
      TreeRestart(w, ops, step.id, step.order, step.fault, step.again);
    } else {
      OtherOps(w, step);
      if TreeOps(w, step) == [] {
        assert ops + TreeOps(w, step) == ops;
      } else {
        OneOp(ops, TreeOps(w, step)[0]);
        assert TreeOps(w, step) == [TreeOps(w, step)[0]];
      }
    }
  }

  /** The tables of every run are those of a run of the supervision tree, so what
      is proved of its tables holds here. */
  lemma {:induction false} TreeRun(steps: seq<Step>) returns (ops: seq<T.Op>)
    requires ValidRun(steps)
    ensures T.ValidRun(ops) && T.After(ops) == After(steps).tree
  {
    if steps == [] {
      ops := [];
    } else {
      var before := steps[..|steps| - 1];
      ops := TreeRun(before);
      InvOfRun(before);
      hide Inv, Enabled, Next, T.ValidRun, T.After, TreeOps;
      TreeStepOps(After(before), ops, steps[|steps| - 1]);
      ops := ops + TreeOps(After(before), steps[|steps| - 1]);
    }
  }
}
