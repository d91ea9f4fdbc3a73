/** The steps of the stop protocol are the turns and calls that the loop of one
    actor makes on its own tables; nothing else of the world changes with them.
 */
module ShutdownLoops {
  import opened Wrappers
  import opened Paths
  import opened Supervision
  import opened Shutdown
  import opened ShutdownInvariants
  import opened ShutdownBranches
  import L = RunLoops
  import R = Runners
  import Runs = ShutdownRuns
  import T = SupervisionTrees

  /** One actor's tables become `t`; the other supervisors are as before. */
  ghost predicate OnlyTables(w: World, w': World, x: nat, t: Tables)
    requires x in w.tree.supervisors
  {
    && w'.tree.registry == t.registry
    && w'.tree.supervisors == w.tree.supervisors[x := w.tree.supervisors[x].(senders := t.senders)]
    && w'.tree.created == w.tree.created
    && w'.emitted == w.emitted && w'.system == w.system
  }

  /** How the turn ends decides where the actor is after it: still in `run`, out of
      it as stopped, or out of it otherwise. */
  ghost predicate TurnEnded(w: World, w': World, x: nat, again: bool, end: Option<R.RunEnd>)
    requires x in w.life
  {
    match end
    case None => w'.life == w.life
    case Some(RunStopped) => w'.life == w.life[x := w.life[x].(phase := Left, clean := true)]
    case Some(RunFailed) => w'.life == w.life[x := w.life[x].(phase := Left, clean := false)]
    case Some(RunRestarted) =>
      w'.life == if again then w.life else w.life[x := w.life[x].(phase := Left, clean := false)]
  }

  /** An actor that runs and waits for no start-up may handle its oldest action or
      signal, whatever else waits. It does so as by a turn of the loop on its own
      tables, which ends as the actor then is; a restarted actor runs again exactly
      if its strategy lets it. The action or signal is gone afterwards. */
  lemma StopIsTurn(w: World, x: nat, order: seq<ActorPath>, preStop: bool, fault: bool)
    returns (t: Tables, end: Option<R.RunEnd>)
    requires IsRunning(w, x) && Idle(w, x) && w.tree.queues[x] != [] && w.tree.queues[x][0] == ChildAction.Stop
    requires Lists(order, Children(w.tree.registry, w.tree.supervisors[x].path))
    ensures Enabled(w, HandleStop(x, order, preStop, fault))
    ensures L.Turns(w.tree.supervisors[x].path, T.TablesOf(w.tree, x), L.StopAction(preStop, fault), t, end)
    ensures var w' := Next(w, HandleStop(x, order, preStop, fault));
            && OnlyTables(w, w', x, t) && TurnEnded(w, w', x, false, end) && w'.signals == w.signals
            && x in t.queues && t.queues[x] != [] && w'.tree.queues == t.queues[x := t.queues[x][1..]]
  {
    hide Idle, LeftBehind, Children, Lists, StopEach;
    var own := T.TablesOf(w.tree, x);
    if !preStop {
      t, end := own, Some(R.RunFailed);
    } else {
      t := StopEach(own, order).0;
      var r := StopEach(own, order).1;
      end := if r.Err? then (if fault then None else Some(R.RunFailed))
             else if order == [] then Some(R.RunStopped) else None;
      assert L.StopsInOrder(w.tree.supervisors[x].path, own, order, fault, t, end);
      StopEachGrows(own, order);
    }
  }

  lemma {:induction false} StopEachGrows(t: Tables, order: seq<ActorPath>)
    ensures var t' := StopEach(t, order).0;
            && t'.queues.Keys == t.queues.Keys
            && forall id | id in t.queues :: t.queues[id] <= t'.queues[id]
    decreases |order|
  {
    if order != [] {
      StopEachGrows(StopOne(t, order[0]).0, order[1..]);
    }
  }

  lemma {:induction false} RestartEachGrows(t: Tables, order: seq<ActorPath>)
    ensures var t' := RestartEach(t, order).0;
            && t'.queues.Keys == t.queues.Keys && t'.registry == t.registry && t'.senders == t.senders
            && forall id | id in t.queues :: t.queues[id] <= t'.queues[id]
    decreases |order|
  {
    if order != [] && Stoppable(t, order[0]) {
      var id := t.senders[order[0]];
      RestartEachGrows(t.(queues := t.queues[id := t.queues[id] + [Restart]]), order[1..]);
    }
  }

  lemma RestartIsTurn(w: World, x: nat, order: seq<ActorPath>, fault: bool, again: bool)
    returns (t: Tables, end: Option<R.RunEnd>)
    requires IsRunning(w, x) && Idle(w, x) && w.tree.queues[x] != [] && w.tree.queues[x][0] == ChildAction.Restart
    requires Lists(order, w.tree.supervisors[x].senders.Keys)
    ensures Enabled(w, HandleRestart(x, order, fault, again))
    ensures L.Turns(w.tree.supervisors[x].path, T.TablesOf(w.tree, x), L.RestartAction(fault), t, end)
    ensures var w' := Next(w, HandleRestart(x, order, fault, again));
            && OnlyTables(w, w', x, t) && TurnEnded(w, w', x, again, end) && w'.signals == w.signals
            && x in t.queues && t.queues[x] != [] && w'.tree.queues == t.queues[x := t.queues[x][1..]]
  {
    hide Idle, Lists, RestartEach;
    var own := T.TablesOf(w.tree, x);
    t := RestartEach(own, order).0;
    end := Some(if RestartEach(own, order).1.Ok? || fault then R.RunRestarted else R.RunFailed);
    assert L.RestartsInOrder(own, order, fault, t, end);
    RestartEachGrows(own, order);
  }

  lemma SignalIsTurn(w: World, x: nat) returns (t: Tables, end: Option<R.RunEnd>)
    requires IsRunning(w, x) && Idle(w, x) && w.signals[x] != []
    ensures Enabled(w, HandleSignal(x))
    ensures L.Turns(w.tree.supervisors[x].path, T.TablesOf(w.tree, x), L.ChildStopped(w.signals[x][0].path), t, end)
    ensures var w' := Next(w, HandleSignal(x));
            && OnlyTables(w, w', x, t) && TurnEnded(w, w', x, false, end) && w'.tree.queues == t.queues
            && w'.signals == w.signals[x := w.signals[x][1..]]
  {
    hide Idle, Children, ActorPath.Key, ActorPath.Div;
    t := Deregister(T.TablesOf(w.tree, x), SignalPath(w, x));
    end := if Children(t.registry, w.tree.supervisors[x].path) == {} then Some(R.RunStopped) else None;
  }

  // ---------- calls ----------

  /** The one call of a handler that such a step is. */
  function CallOf(step: Step): L.Call
    requires step.StopChild? || step.RemoveChild? || step.RestartChildren?
  {
    match step
    case StopChild(_, name) => L.StopChild(name)
    case RemoveChild(_, name) => L.RemoveChild(name)
    case RestartChildren(_, _) => L.RestartChildren
  }

  /** A supervisor that starts or runs and waits for no start-up may stop, remove or
      restart children at any time; such a step is one call of its handler. */
  lemma CallIsStep(w: World, x: nat, step: Step)
    requires Acts(w, x) && Idle(w, x)
    requires match step
             case StopChild(y, _) => x == y
             case RemoveChild(y, _) => x == y
             case RestartChildren(y, order) => x == y && Lists(order, w.tree.supervisors[x].senders.Keys)
             case _ => false
    ensures Enabled(w, step)
    ensures var w' := Next(w, step);
            && x in w'.tree.supervisors
            && L.Calls(w.tree.supervisors[x].path, T.TablesOf(w.tree, x), CallOf(step), T.TablesOf(w'.tree, x))
            && OnlyTables(w, w', x, T.TablesOf(w'.tree, x)) && w'.life == w.life && w'.signals == w.signals
  {
    hide Idle, Lists, RestartEach, StopOne, ActorPath.Div;
  }

  /** When a supervisor may create a child: it is the system, or an actor above level
      100 that starts or runs and whose other start-ups are settled; and nothing is
      registered under the child's path. */
  lemma SpawnExact(w: World, x: nat, name: string, c: nat)
    requires Shape(w) && x in w.tree.supervisors
    requires c !in w.life && c > T.SYSTEM && forall d | d in w.tree.created :: d < c
    ensures Enabled(w, Spawn(x, name, c)) <==>
            && w.tree.supervisors[x].path.Div(name) !in w.tree.registry
            && (x != T.SYSTEM ==>
                  && (w.life[x].phase == Starting || w.life[x].phase == Running)
                  && (forall d | d in w.life && w.tree.created[d].parent == x :: w.life[d].creation == Settled)
                  && w.tree.supervisors[x].path.Level() < 100)
  {
    hide ActorPath.Div, ShapeAt;
  }

  /** When the other steps of an actor's life may happen. */
  lemma LifeMay(w: World, c: nat)
    requires Inv(w) && c in w.life
    ensures w.life[c].phase == Starting && Idle(w, c) ==> Enabled(w, Start(c)) && Enabled(w, Refuse(c))
    ensures w.life[c].creation == Accepted || w.life[c].creation == Creation.Refused ==> Enabled(w, Settle(c))
    ensures w.life[c].phase == Left ==> Enabled(w, Emit(c))
    ensures w.life[c].phase == Emitted ==> Enabled(w, Drop(c))
  {
    hide Enabled, Idle;
    LifeFacts(w, c);
    hide Inv;
    LifeEnabled(w, c);
  }

  lemma LifeFacts(w: World, c: nat)
    requires Inv(w) && c in w.life
    ensures c in w.tree.created && ShapeAt(w, c)
    ensures w.life[c].creation != Settled ==> Acts(w, Parent(w, c))
  {
    hide ShapeAt, ChannelsOk, QueuesOk, AllWaitedOk, SignalsOk, EmittedOk, OrderOk, RegistryOk, PendingOk, AwaitingOk;
  }

  lemma LifeEnabled(w: World, c: nat)
    requires c in w.life && c in w.tree.created && ShapeAt(w, c)
    requires w.life[c].creation != Settled ==> Acts(w, Parent(w, c))
    ensures w.life[c].phase == Starting && Idle(w, c) ==> Enabled(w, Start(c)) && Enabled(w, Refuse(c))
    ensures w.life[c].creation == Accepted || w.life[c].creation == Creation.Refused ==> Enabled(w, Settle(c))
    ensures w.life[c].phase == Left ==> Enabled(w, Emit(c))
    ensures w.life[c].phase == Emitted ==> Enabled(w, Drop(c))
  {
    hide Idle;
  }

  /** A start-up that succeeds is the call that creates a child: the creator's
      tables are as after that call, the child runs, and nothing else has changed. */
  lemma StartUpIsCall(w: World, x: nat, name: string, c: nat)
    requires Inv(w) && x in w.tree.supervisors && Enabled(w, Spawn(x, name, c))
    ensures var path := w.tree.supervisors[x].path;
            && ValidFrom(w, [Spawn(x, name, c), Start(c), Settle(c)])
            && var w' := AfterFrom(w, [Spawn(x, name, c), Start(c), Settle(c)]);
               && x in w'.tree.supervisors
               && L.Calls(path, T.TablesOf(w.tree, x), L.CreateChild(name, true), T.TablesOf(w'.tree, x))
               && w'.tree.supervisors == w.tree.supervisors[c := T.Supervisor(path.Div(name), map[])]
                                                           [x := w'.tree.supervisors[x]]
               && w'.life == w.life[c := Life(Running, Settled, false)] && w'.signals == w.signals[c := []]
               && w'.emitted == w.emitted && w'.system == w.system
  {
    hide Inv, Enabled, Next, ActorPath.Div, ActorPath.Level, ValidFrom, AfterFrom, L.Calls;
    ShapeOf(w);
    SpawnFacts(w, x, name, c);
    Runs.UpSteps(w, x, name, c);
    ThreeFrom(w, Spawn(x, name, c), Start(c), Settle(c));
    CreateCall(w.tree.supervisors[x].path, T.TablesOf(w.tree, x), name, c);
    UpTables(w, x, T.ChildPath(w.tree, x, name), c);
  }

  /** A start-up that fails is the call that creates a child which does not start:
      afterwards the creator's tables are as after that call, no channel and no
      runner of the child is left, and its creator has one Stopped signal more. */
  lemma RefusalIsCall(w: World, x: nat, name: string, c: nat)
    requires Inv(w) && x in w.tree.supervisors && Enabled(w, Spawn(x, name, c))
    ensures var path := w.tree.supervisors[x].path;
            var steps := [Spawn(x, name, c), Refuse(c), Settle(c)] + [Emit(c), Drop(c)];
            && ValidFrom(w, steps) && x in w.signals
            && var w' := AfterFrom(w, steps);
               && x in w'.tree.supervisors
               && L.Calls(path, T.TablesOf(w.tree, x), L.CreateChild(name, false), T.TablesOf(w'.tree, x))
               && w'.tree.supervisors == w.tree.supervisors[x := w'.tree.supervisors[x]]
               && w'.life == w.life[c := Life(Gone, Settled, false)]
               && w'.signals == w.signals[c := []][x := w.signals[x] + [Signal(c, path.Div(name))]]
               && w'.emitted == w.emitted + [c] && w'.system == w.system
  {
    hide Inv, Enabled, Next, ActorPath.Div, ActorPath.Level, ValidFrom, AfterFrom, L.Calls, RefusalSettled,
         RefusalEmitted, RunnerGone;
    ShapeOf(w);
    SpawnFacts(w, x, name, c);
    RefusedSteps(w, x, name, c);
    var w3 := RefusalSettled(w, x, w.tree.supervisors[x].path.Div(name), c);
    ThreeFrom(w, Spawn(x, name, c), Refuse(c), Settle(c));
    UndoneSteps(w, x, w.tree.supervisors[x].path.Div(name), c);
    Continue(w, [Spawn(x, name, c), Refuse(c), Settle(c)], [Emit(c), Drop(c)]);
    UndoneWorld(w, x, w.tree.supervisors[x].path.Div(name), c);
    CreateUndone(w.tree.supervisors[x].path, T.TablesOf(w.tree, x), name);
  }

  /** The world after a start-up that was refused and settled. */
  function RefusalSettled(w: World, x: nat, path: ActorPath, c: nat): World
    requires x in w.tree.supervisors
  {
    var s := w.tree.supervisors[x];
    w.(tree := T.Tree(w.tree.registry - {path},
                      w.tree.supervisors[c := T.Supervisor(path, map[])][x := s.(senders := s.senders - {path})],
                      w.tree.queues[c := []],
                      w.tree.created[c := T.Origin(x, path)]),
       life := w.life[c := Life(Left, Settled, false)],
       signals := w.signals[c := []])
  }

  lemma RefusedSteps(w: World, x: nat, name: string, c: nat)
    requires Shape(w) && Enabled(w, Spawn(x, name, c)) && x in w.tree.supervisors
    ensures var w1 := Next(w, Spawn(x, name, c));
            && Enabled(w1, Refuse(c))
            && var w2 := Next(w1, Refuse(c));
               && Enabled(w2, Settle(c))
               && Next(w2, Settle(c)) == RefusalSettled(w, x, w.tree.supervisors[x].path.Div(name), c)
  {
    SpawnFresh(w, x, name, c);
    SpawnStep(w, x, name, c);
    hide Shape, Enabled, Next, RefusalSettled, Spawned, WithLife;
    RefuseStep(w, x, T.ChildPath(w.tree, x, name), c);
    UndoStep(w, x, T.ChildPath(w.tree, x, name), c);
  }

  lemma RefuseStep(w: World, x: nat, path: ActorPath, c: nat)
    requires Shape(w) && c !in w.life && x != c && c != T.SYSTEM
    ensures var w1 := Spawned(w, x, path, c);
            Enabled(w1, Refuse(c)) && Next(w1, Refuse(c)) == WithLife(w1, c, Life(Left, Creation.Refused, false))
  {
    forall d | d in w.tree.created ensures w.tree.created[d].parent != c {
      assert ShapeAt(w, d);
    }
    hide ShapeAt;
  }

  lemma UndoStep(w: World, x: nat, path: ActorPath, c: nat)
    requires x in w.tree.supervisors && x != c
    ensures var w2 := WithLife(Spawned(w, x, path, c), c, Life(Left, Creation.Refused, false));
            Enabled(w2, Settle(c)) && Next(w2, Settle(c)) == RefusalSettled(w, x, path, c)
  {
  }

  /** The world in which that child has emitted. */
  function RefusalEmitted(w: World, x: nat, path: ActorPath, c: nat): World
    requires x in w.tree.supervisors && x in w.signals
  {
    var w3 := RefusalSettled(w, x, path, c);
    w3.(life := w.life[c := Life(Emitted, Settled, false)],
        signals := w.signals[c := []][x := w.signals[x] + [Signal(c, path)]],
        emitted := w.emitted + [c])
  }

  lemma EmitStep(w: World, x: nat, path: ActorPath, c: nat)
    requires x in w.tree.supervisors && x in w.signals && x != c
    ensures var w3 := RefusalSettled(w, x, path, c);
            Enabled(w3, Emit(c)) && Next(w3, Emit(c)) == RefusalEmitted(w, x, path, c)
  {
  }

  lemma UndoneSteps(w: World, x: nat, path: ActorPath, c: nat)
    requires x in w.tree.supervisors && x in w.signals && x != c && c != T.SYSTEM
    ensures var w3 := RefusalSettled(w, x, path, c);
            ValidFrom(w3, [Emit(c), Drop(c)])
            && AfterFrom(w3, [Emit(c), Drop(c)]) == RunnerGone(RefusalEmitted(w, x, path, c), c)
  {
    hide Enabled, Next, RefusalEmitted, RefusalSettled, ValidFrom, AfterFrom, RunnerGone;
    EmitStep(w, x, path, c);
    DropStep(w, x, path, c);
    OneStep(RefusalEmitted(w, x, path, c), Drop(c));
    StepThen(RefusalSettled(w, x, path, c), Emit(c), [Drop(c)]);
    assert [Emit(c)] + [Drop(c)] == [Emit(c), Drop(c)];
  }

  lemma DropStep(w: World, x: nat, path: ActorPath, c: nat)
    requires x in w.tree.supervisors && x in w.signals && x != c && c != T.SYSTEM
    ensures Enabled(RefusalEmitted(w, x, path, c), Drop(c))
    ensures Next(RefusalEmitted(w, x, path, c), Drop(c)) == RunnerGone(RefusalEmitted(w, x, path, c), c)
  {
  }

  lemma UndoneWorld(w: World, x: nat, path: ActorPath, c: nat)
    requires x in w.tree.supervisors && x in w.signals && x != c && c !in w.tree.supervisors && c !in w.tree.queues
    ensures var w', s := RunnerGone(RefusalEmitted(w, x, path, c), c), w.tree.supervisors[x];
            && w'.tree.registry == w.tree.registry - {path} && w'.tree.queues == w.tree.queues
            && w'.tree.supervisors == w.tree.supervisors[x := s.(senders := s.senders - {path})]
            && w'.life == w.life[c := Life(Gone, Settled, false)]
            && w'.signals == w.signals[c := []][x := w.signals[x] + [Signal(c, path)]]
            && w'.emitted == w.emitted + [c] && w'.system == w.system
  {
  }

  lemma SpawnFacts(w: World, x: nat, name: string, c: nat)
    requires Inv(w) && Enabled(w, Spawn(x, name, c)) && x in w.tree.supervisors
    ensures x != c && c != T.SYSTEM && x in w.signals && c !in w.tree.supervisors && c !in w.tree.queues
    ensures w.tree.supervisors[x].path.Level() < 100 && w.tree.supervisors[x].path.Div(name) !in w.tree.registry
    ensures L.NewChannel(T.TablesOf(w.tree, x), c)
  {
  }

  lemma CreateCall(path: ActorPath, t: Tables, name: string, c: nat)
    requires L.NewChannel(t, c) && path.Level() < 100 && path.Div(name) !in t.registry
    ensures var p := path.Div(name);
            L.Calls(path, t, L.CreateChild(name, true),
                    Tables(t.registry[p := c], t.senders[p := c], t.queues[c := []]))
  {
    hide ActorPath.Div, ActorPath.Level;
  }

  lemma CreateUndone(path: ActorPath, t: Tables, name: string)
    requires path.Level() < 100 && path.Div(name) !in t.registry
    ensures L.Calls(path, t, L.CreateChild(name, false), Deregister(t, path.Div(name)))
  {
    hide ActorPath.Div, ActorPath.Level;
  }

  lemma UpTables(w: World, x: nat, path: ActorPath, c: nat)
    requires x in w.tree.supervisors
    ensures var t, w' := T.TablesOf(w.tree, x), Runs.Up(w, x, path, c);
            && x in w'.tree.supervisors
            && T.TablesOf(w'.tree, x) == Tables(t.registry[path := c], t.senders[path := c], t.queues[c := []])
            && w'.tree.supervisors == w.tree.supervisors[c := T.Supervisor(path, map[])][x := w'.tree.supervisors[x]]
  {
  }

  lemma ThreeFrom(w: World, a: Step, b: Step, c: Step)
    requires Enabled(w, a) && Enabled(Next(w, a), b) && Enabled(Next(Next(w, a), b), c)
    ensures ValidFrom(w, [a, b, c]) && AfterFrom(w, [a, b, c]) == Next(Next(Next(w, a), b), c)
  {
    hide Enabled, Next, ValidFrom, AfterFrom;
    OneStep(Next(Next(w, a), b), c);
    StepThen(Next(w, a), b, [c]);
    StepThen(w, a, [b] + [c]);
    assert [a] + ([b] + [c]) == [a, b, c];
  }

  // ---------- the last child ----------

  /** An actor at rest with one direct child, itself at rest and childless, over
      which it has a channel. */
  ghost predicate OnlyChild(w: World, x: nat, name: string, c: nat) {
    && AtRest(w, x, []) && AtRest(w, c, []) && x != c
    && var path := w.tree.supervisors[x].path.Div(name);
       && c in w.tree.created && w.tree.created[c] == T.Origin(x, path) && w.tree.supervisors[c].path == path
       && path in w.tree.supervisors[x].senders && w.tree.supervisors[x].senders[path] == c
       && Children(w.tree.registry, w.tree.supervisors[x].path) == {path}
       && Children(w.tree.registry, path) == {}
  }

  /** An actor that stops its last child by name stops with it: from every such
      state the child leaves, and its Stopped signal makes the actor leave as
      stopped, although nobody told it to. */
  lemma LastChildTakesParent(w: World, x: nat, name: string, c: nat)
    requires Inv(w) && OnlyChild(w, x, name, c)
    ensures var steps := [StopChild(x, name), HandleStop(c, [], true, true), Emit(c)] + [HandleSignal(x)];
            && ValidFrom(w, steps)
            && var w' := AfterFrom(w, steps);
               && x in w'.life && w'.life[x].phase == Left && w'.life[x].clean
               && w'.waited == w.waited && x in w'.tree.queues && w'.tree.queues[x] == []
               && w'.emitted == w.emitted + [c] && w'.system == w.system
  {
    var path := w.tree.supervisors[x].path.Div(name);
    var w1 := Runs.OneTold(w, x, path, c);
    var w2 := Leaves(Took(w1, c), c, true);
    hide Inv, Enabled, Next, ActorPath.Div, Idle, ValidFrom, AfterFrom, Children, Emits, Leaves, Took, Runs.OneTold,
         Shape, CanEmit, SignalPath;
    OnlyChildTold(w, x, name, c);
    OnlyChildLeaves(w, x, name, c);
    OnlyChildHeard(w, x, name, c);
    StepKeeps(w2, Emit(c));
    ShapeOf(Emits(w2, c));
    LastSignal(Emits(w2, c), x);
    ThreeFrom(w, StopChild(x, name), HandleStop(c, [], true, true), Emit(c));
    OneStep(Emits(w2, c), HandleSignal(x));
    Continue(w, [StopChild(x, name), HandleStop(c, [], true, true), Emit(c)], [HandleSignal(x)]);
  }

  lemma OnlyChildLeaves(w: World, x: nat, name: string, c: nat)
    requires Inv(w) && OnlyChild(w, x, name, c)
    ensures var w1 := Runs.OneTold(w, x, w.tree.supervisors[x].path.Div(name), c);
            var w2 := Leaves(Took(w1, c), c, true);
            && Enabled(w1, HandleStop(c, [], true, true)) && Next(w1, HandleStop(c, [], true, true)) == w2
            && Inv(w2) && CanEmit(w2, c) && Enabled(w2, Emit(c)) && Next(w2, Emit(c)) == Emits(w2, c)
  {
    var w1 := Runs.OneTold(w, x, w.tree.supervisors[x].path.Div(name), c);
    OnlyChildTold(w, x, name, c);
    hide Inv, Enabled, Next, ActorPath.Div, Idle, Children, Emits, Leaves, Took, Runs.OneTold, Shape, CanEmit,
         OnlyChild, AtRest;
    TookSame(w1, c);
    StepKeeps(w, StopChild(x, name));
    ShapeOf(w1);
    StopsNone(w1, c);
    StepKeeps(w1, HandleStop(c, [], true, true));
    LeafEmits(w1, c);
    LeftEmits(Leaves(Took(w1, c), c, true), c);
  }

  lemma OnlyChildTold(w: World, x: nat, name: string, c: nat)
    requires OnlyChild(w, x, name, c)
    ensures var path := w.tree.supervisors[x].path.Div(name);
            var w1 := Runs.OneTold(w, x, path, c);
            && Enabled(w, StopChild(x, name)) && Next(w, StopChild(x, name)) == w1
            && AtRest(w1, c, [Stop]) && c in w1.life && c in w1.tree.created && c in w1.tree.supervisors
            && Children(w1.tree.registry, w1.tree.supervisors[c].path) == {}
            && Children(w1.tree.registry, w.tree.supervisors[x].path) == {}
  {
  }

  /** The actor then has the child's signal and no direct child. */
  lemma OnlyChildHeard(w: World, x: nat, name: string, c: nat)
    requires OnlyChild(w, x, name, c)
    ensures var path := w.tree.supervisors[x].path.Div(name);
            var w2 := Leaves(Took(Runs.OneTold(w, x, path, c), c), c, true);
            && CanEmit(w2, c)
            && var w3 := Emits(w2, c);
               && IsRunning(w3, x) && Idle(w3, x) && w3.signals[x] == [Signal(c, path)]
               && Children(w3.tree.registry, w3.tree.supervisors[x].path) == {}
               && w3.waited == w.waited && w3.tree.queues[x] == [] && w3.emitted == w.emitted + [c]
               && w3.system == w.system
  {
  }

  /** A reached state is one. */
  lemma OnlyChildMet()
    ensures Inv(Runs.TwoActors()) && OnlyChild(Runs.TwoActors(), 1, "a", 2)
  {
    hide *;
    TwoInv();
    TwoAtRest();
    TwoChildren();
    TwoIsOnly(Runs.TwoActors());
  }

  lemma TwoIsOnly(w: World)
    requires AtRest(w, 1, []) && AtRest(w, 2, [])
    requires var path := w.tree.supervisors[1].path.Div("a");
             && 2 in w.tree.created && w.tree.created[2] == T.Origin(1, path) && w.tree.supervisors[2].path == path
             && path in w.tree.supervisors[1].senders && w.tree.supervisors[1].senders[path] == 2
             && Children(w.tree.registry, w.tree.supervisors[1].path) == {path}
             && Children(w.tree.registry, path) == {}
    ensures OnlyChild(w, 1, "a", 2)
  {
    hide AtRest, Children, ActorPath.Div;
  }

  lemma TwoInv()
    ensures Inv(Runs.TwoActors())
  {
    hide Inv, ValidRun, After, Runs.TwoActors, Runs.TwoActorsSteps;
    Runs.TwoActorsRun();
    InvOfRun(Runs.TwoActorsSteps());
  }

  lemma TwoAtRest()
    ensures AtRest(Runs.TwoActors(), 1, []) && AtRest(Runs.TwoActors(), 2, [])
  {
    hide Runs.P, Runs.A, Runs.B, Runs.C;
  }

  lemma TwoChildren()
    ensures var w := Runs.TwoActors();
            && 1 in w.tree.supervisors && 2 in w.tree.supervisors
            && var path := w.tree.supervisors[1].path.Div("a");
               && 2 in w.tree.created && w.tree.created[2] == T.Origin(1, path) && w.tree.supervisors[2].path == path
               && path in w.tree.supervisors[1].senders && w.tree.supervisors[1].senders[path] == 2
               && Children(w.tree.registry, w.tree.supervisors[1].path) == {path}
               && Children(w.tree.registry, path) == {}
  {
    Runs.PathFacts();
    hide Runs.P, Runs.A, Runs.B, Runs.C, ActorPath.Div, ActorPath.Parent, ActorPath.Key, ActorPath.Level;
  }
}
