/** The converse: where a table of the tree misses a registered child, some run
    leaves an actor waiting for ever, and so the exact condition.
 */
module ShutdownStuck {
  import opened Wrappers
  import opened Paths
  import opened Supervision
  import opened Shutdown
  import opened ShutdownInvariants
  import opened ShutdownOrders
  import opened ShutdownBranches
  import opened ShutdownWaits
  import opened ShutdownProgress
  import opened ShutdownAlone
  import opened ShutdownDrains
  import T = SupervisionTrees

  // ---------- an actor that waits for nobody ----------

  /** Running, untold, with nothing to handle. */
  ghost predicate Asleep(w: World, f: nat) {
    f in w.tree.created && IsRunning(w, f) && f !in w.waited && w.signals[f] == [] && w.tree.queues[f] == []
  }

  /** The actor waits, and everybody below it who has not emitted sleeps. */
  ghost predicate Stuck(w: World, s: nat, asleep: set<nat>) {
    && s in w.tree.created && IsRunning(w, s) && s in w.waited && w.signals[s] == []
    && (forall f | f in asleep :: Asleep(w, f) && Parent(w, f) in asleep + {s})
    && NoStrays(w, asleep + {s})
  }

  lemma SleeperStill(w: World, step: Step, f: nat)
    requires Asleep(w, f) && Enabled(w, step)
    requires step.HandleStop? || step.HandleSignal? || step.Emit? || step.Drop?
    ensures Actor(step) != f
  {
    hide Enabled, Next, Idle, T.Enabled, SignalPath, Children;
    match step {
      case HandleStop(x, order, preStop, fault) => StopEnabled(w, x, order, preStop, fault);
      case HandleSignal(x) => SignalNext(w, x);
      case Emit(x) => EmitNext(w, x);
      case Drop(x) => DropNext(w, x);
    }
  }

  lemma WaiterStill(w: World, step: Step, s: nat)
    requires Inv(w) && IsRunning(w, s) && s in w.waited && w.signals[s] == [] && Enabled(w, step)
    requires step.HandleStop? || step.HandleSignal? || step.Emit? || step.Drop?
    ensures Actor(step) != s
  {
    hide Enabled, Next, Idle, T.Enabled, SignalPath, Children, Inv;
    match step {
      case HandleStop(x, order, preStop, fault) =>
        StopEnabled(w, x, order, preStop, fault);
        StopUnwaited(w, x);
      case HandleSignal(x) => SignalNext(w, x);
      case Emit(x) => EmitNext(w, x);
      case Drop(x) => DropNext(w, x);
    }
  }

  /** Whoever emits to an actor of the part is in it. */
  lemma NoNewSignal(w: World, w': World, x: nat, e: nat, tree: set<nat>)
    requires Inv(w) && ActsAlone(w, w', x) && NoStrays(w, tree) && e in tree && x !in tree
    requires e in w.signals && w.signals[e] == []
    ensures e in w'.signals && w'.signals[e] == []
  {
    hide Shape, ChannelsOk, QueuesOk, AllWaitedOk, SignalsOk, OrderOk, BusyOk, RegistryOk, PendingOk, AwaitingOk;
    assert OtherKept(w, w', x, e);
  }

  lemma SleeperKept(w: World, w': World, x: nat, f: nat)
    requires ActsAlone(w, w', x) && f != x && Asleep(w, f) && Parent(w, f) != x
    requires f in w'.signals && w'.signals[f] == []
    ensures Asleep(w', f)
  {
    assert OtherKept(w, w', x, f);
  }

  lemma WaiterKept(w: World, w': World, x: nat, s: nat)
    requires ActsAlone(w, w', x) && s != x && s in w.tree.created && IsRunning(w, s) && s in w.waited
    requires s in w'.signals && w'.signals[s] == []
    ensures s in w'.tree.created && IsRunning(w', s) && s in w'.waited
  {
    assert OtherKept(w, w', x, s);
  }

  lemma StuckStep(w: World, step: Step, s: nat, asleep: set<nat>)
    requires Inv(w) && AllSettled(w) && Stuck(w, s, asleep) && Enabled(w, step) && IsOwn(step)
    ensures Stuck(Next(w, step), s, asleep) && AllSettled(Next(w, step))
  {
    hide Inv, AllSettled, Enabled, Next, ActsAlone, Asleep, NoStrays;
    OwnStepAlone(w, step);
    var x, w' := Actor(step), Next(w, step);
    WaiterStill(w, step, s);
    forall f | f in asleep ensures f != x {
      SleeperStill(w, step, f);
    }
    SameCreation(w, w', x);
    forall f | f in asleep ensures Asleep(w', f) && f in w'.tree.created && Parent(w', f) in asleep + {s} {
      SleeperSignals(w, f);
      NoNewSignal(w, w', x, f, asleep + {s});
      SleeperKept(w, w', x, f);
    }
    NoNewSignal(w, w', x, s, asleep + {s});
    WaiterKept(w, w', x, s);
    NoStraysKept(w, step, asleep + {s});
  }

  lemma SleeperSignals(w: World, f: nat)
    requires Asleep(w, f)
    ensures f in w.tree.created && f in w.signals && w.signals[f] == []
  {
  }

  lemma {:induction false} StuckRun(w: World, steps: seq<Step>, s: nat, asleep: set<nat>)
    requires Inv(w) && AllSettled(w) && Stuck(w, s, asleep) && ValidFrom(w, steps) && forall t | t in steps :: IsOwn(t)
    ensures Stuck(AfterFrom(w, steps), s, asleep) && Inv(AfterFrom(w, steps))
    decreases |steps|
  {
    hide Inv, AllSettled, Enabled, Next, Stuck, IsOwn;
    if steps != [] {
      assert steps[0] in steps;
      assert forall t | t in steps[1..] :: t in steps;
      StuckStep(w, steps[0], s, asleep);
      StepKeeps(w, steps[0]);
      StuckRun(Next(w, steps[0]), steps[1..], s, asleep);
    }
  }

  lemma StuckUnemitted(w: World, s: nat, asleep: set<nat>)
    requires Inv(w) && Stuck(w, s, asleep)
    ensures s !in w.emitted
  {
    hide Shape, ChannelsOk, QueuesOk, AllWaitedOk, SignalsOk, OrderOk, BusyOk, RegistryOk, PendingOk, AwaitingOk,
         Asleep, NoStrays;
  }

  // ---------- getting stuck ----------

  /** Handling Stop in an order that starts with a child without a channel. */
  lemma StopsAtOnce(w: World, c: nat, order: seq<ActorPath>)
    requires Enabled(w, HandleStop(c, order, true, true)) && c in w.tree.supervisors && c in w.life
    requires order != [] && order[0] !in w.tree.supervisors[c].senders
    ensures var w' := Next(w, HandleStop(c, order, true, true));
            && w'.tree.created == w.tree.created && w'.life == w.life && w'.signals == w.signals
            && w'.emitted == w.emitted && w'.waited == w.waited + {c}
            && w'.tree.supervisors.Keys == w.tree.supervisors.Keys && w'.tree.queues.Keys == w.tree.queues.Keys
            && forall f | f in w.tree.queues && f != c :: w'.tree.queues[f] == w.tree.queues[f]
  {
    var t := T.TablesOf(w.tree, c);
    assert StopEach(t, order) == (Deregister(t, order[0]), Err(NotFound(order[0])));
    hide StopEach, T.Enabled, Idle, LeftBehind;
    TookSame(TreeStep(w, T.Op.StopAllChildren(c, order)), c);
    hide Took;
  }

  lemma SleepersBelow(w: World, w': World, c: nat, below: set<nat>, f: nat)
    requires Inv(w) && RootedAtRest(w, c, below) && f in below
    requires w'.tree.created == w.tree.created && w'.life == w.life && w'.signals == w.signals
    requires w'.waited == w.waited + {c} && f != c
    requires w'.tree.supervisors.Keys == w.tree.supervisors.Keys && w'.tree.queues.Keys == w.tree.queues.Keys
    requires f in w.tree.queues ==> w'.tree.queues[f] == w.tree.queues[f]
    ensures Asleep(w', f) && f in w'.tree.created && Parent(w', f) in below + {c}
  {
    hide Inv, RootedAtRest, Idle, IsKid;
    KidAtRest(w, c, below, f);
    RestUnwaited(w, c, below, f);
  }

  lemma MissingFirst(w: World, c: nat) returns (order: seq<ActorPath>)
    requires c in w.tree.supervisors && !T.AgreeAt(w.tree, c)
    ensures Lists(order, Children(w.tree.registry, w.tree.supervisors[c].path))
    ensures order != [] && order[0] !in w.tree.supervisors[c].senders
  {
    hide ActorPath.Parent;
    var p :| p in w.tree.registry && p.Parent() == w.tree.supervisors[c].path && p !in w.tree.supervisors[c].senders;
    assert p in Children(w.tree.registry, w.tree.supervisors[c].path);
    order := T.ListingFrom(Children(w.tree.registry, w.tree.supervisors[c].path), p);
  }

  lemma GetsStuck(w: World, c: nat, below: set<nat>) returns (step: Step)
    requires Inv(w) && RootedAtRest(w, c, below) && c in w.tree.supervisors && !T.AgreeAt(w.tree, c)
    ensures step.HandleStop? && step.preStop && Enabled(w, step) && Stuck(Next(w, step), c, below)
  {
    hide Inv, RootedAtRest, Enabled, Next, AtRest, Children, Lists, Asleep, T.AgreeAt, NoStrays, TreeBelow, Idle;
    RootAtRest(w, c, below);
    var order := MissingFirst(w, c);
    step := HandleStop(c, order, true, true);
    MayStopAll(w, c, order);
    StopsAtOnce(w, c, order);
    var w' := Next(w, step);
    forall f | f in below ensures Asleep(w', f) && f in w'.tree.created && Parent(w', f) in below + {c} {
      SleepersBelow(w, w', c, below, f);
    }
    MemberRuns(w, c, below, c);
    SameStrays(w, w', below + {c});
  }

  lemma RootAtRest(w: World, c: nat, below: set<nat>)
    requires RootedAtRest(w, c, below)
    ensures AtRest(w, c, [Stop]) && c !in below && c in w.tree.created && NoStrays(w, below + {c})
    ensures TreeBelow(w, c, below)
  {
    hide AtRest, IsKid, NoStrays;
  }

  lemma SameStrays(w: World, w': World, tree: set<nat>)
    requires NoStrays(w, tree) && w'.tree.created == w.tree.created && w'.emitted == w.emitted
    ensures NoStrays(w', tree)
  {
  }

  // ---------- the way down to a table that does not agree ----------

  /** The actor is below `d`, by creation. */
  predicate Under(created: map<nat, T.Origin>, f: nat, d: nat) {
    && f in created && created[f].parent < f
    && (created[f].parent == d || Under(created, created[f].parent, d))
  }

  lemma {:induction false} UnderAbove(created: map<nat, T.Origin>, f: nat, d: nat)
    requires Under(created, f, d)
    ensures d < f
  {
    if created[f].parent != d {
      UnderAbove(created, created[f].parent, d);
    }
  }

  ghost function PartBelow(w: World, below: set<nat>, d: nat): set<nat> {
    set f | f in below && Under(w.tree.created, f, d)
  }

  /** The child of the root that an actor is, or is below. */
  lemma {:induction false} ChildAbove(w: World, c: nat, below: set<nat>, e: nat) returns (d: nat)
    requires Inv(w) && TreeBelow(w, c, below) && e in below
    ensures d in below && d in w.tree.created && Parent(w, d) == c && (d == e || Under(w.tree.created, e, d))
    decreases e
  {
    hide Inv;
    CreatorBelow(w, e);
    if Parent(w, e) == c {
      d := e;
    } else {
      d := ChildAbove(w, c, below, Parent(w, e));
    }
  }

  /** The part below a child of the root is a tree. */
  lemma PartIsTree(w: World, c: nat, below: set<nat>, d: nat)
    requires Inv(w) && TreeBelow(w, c, below) && d in below && Parent(w, d) == c
    ensures TreeBelow(w, d, PartBelow(w, below, d))
    ensures forall g | g in below && Parent(w, g) in PartBelow(w, below, d) + {d} :: g in PartBelow(w, below, d)
    ensures c !in PartBelow(w, below, d) + {d} && PartBelow(w, below, d) < below
  {
    hide Inv;
    var part, created := PartBelow(w, below, d), w.tree.created;
    CreatorBelow(w, d);
    if Under(created, d, d) {
      UnderAbove(created, d, d);
    }
    if Under(created, c, d) {
      UnderAbove(created, c, d);
    }
    forall f | f in part ensures f in created && Parent(w, f) in part + {d} {
    }
    forall g | g in below && Parent(w, g) in part + {d} ensures g in part {
      CreatorBelow(w, g);
    }
  }

  lemma PartStrays(w: World, w1: World, c: nat, below: set<nat>, d: nat)
    requires TreeBelow(w, c, below) && NoStrays(w, below + {c}) && d in below
    requires w1.tree.created == w.tree.created && w1.emitted == w.emitted
    requires forall g | g in below && Parent(w, g) in PartBelow(w, below, d) + {d} :: g in PartBelow(w, below, d)
    ensures NoStrays(w1, PartBelow(w, below, d) + {d})
  {
    hide Under;
  }

  /** One of its actors when the root has told all its children. */
  lemma PartRests(w: World, w1: World, c: nat, below: set<nat>, order: seq<ActorPath>, f: nat)
    requires Inv(w) && RootedAtRest(w, c, below) && f in below && T.PathsDistinct(w.tree)
    requires c in w.tree.supervisors && forall p | p in order :: p in w.tree.supervisors[c].senders
    requires ToldAll(w, w1, c, order) && ActsAlone(w, w1, c)
    ensures f in w.tree.created
    ensures Parent(w, f) != c ==> AtRest(w1, f, []) && IsKid(w1, Parent(w, f), f)
    ensures f in Channels(w, c, order) ==> AtRest(w1, f, [Stop])
  {
    hide Inv, AtRest, IsKid, ToldAll, ActsAlone, T.PathsDistinct, Channels, NoStrays;
    KidAtRest(w, c, below, f);
    StillAtRest(w, w1, c, order, f);
    if Parent(w, f) != c {
      NotChannel(w, c, order, f);
      KidKept(w, w1, c, Parent(w, f), f);
    }
  }

  lemma NotChannel(w: World, c: nat, order: seq<ActorPath>, f: nat)
    requires Inv(w) && c in w.tree.supervisors && forall p | p in order :: p in w.tree.supervisors[c].senders
    requires f in w.tree.created && Parent(w, f) != c
    ensures f !in Channels(w, c, order)
  {
    hide Shape, QueuesOk, AllWaitedOk, SignalsOk, EmittedOk, OrderOk, BusyOk, RegistryOk, PendingOk, AwaitingOk;
    forall p | p in order ensures w.tree.supervisors[c].senders[p] != f {
      assert ChannelOk(w, c, p);
    }
  }

  lemma PartAtRest(w: World, w1: World, c: nat, below: set<nat>, order: seq<ActorPath>, d: nat)
    requires Inv(w) && RootedAtRest(w, c, below) && T.PathsDistinct(w.tree)
    requires c in w.tree.supervisors && forall p | p in order :: p in w.tree.supervisors[c].senders
    requires ToldAll(w, w1, c, order) && ActsAlone(w, w1, c)
    requires d in below && d in w.tree.created && Parent(w, d) == c && d in Channels(w, c, order)
    ensures RootedAtRest(w1, d, PartBelow(w, below, d))
  {
    hide Inv, AtRest, IsKid, ToldAll, ActsAlone, T.PathsDistinct, Channels, NoStrays, Under;
    var part := PartBelow(w, below, d);
    ToldSame(w, w1, c, order);
    PartIsTree(w, c, below, d);
    PartStrays(w, w1, c, below, d);
    TreeSame(w, w1, d, part);
    PartRests(w, w1, c, below, order, d);
    forall f | f in part ensures AtRest(w1, f, []) && f in w1.tree.created && IsKid(w1, Parent(w1, f), f) {
      PartRests(w, w1, c, below, order, f);
    }
  }

  lemma ToldSame(w: World, w1: World, c: nat, order: seq<ActorPath>)
    requires c in w.tree.supervisors && forall p | p in order :: p in w.tree.supervisors[c].senders
    requires ToldAll(w, w1, c, order)
    ensures w1.tree.created == w.tree.created && w1.emitted == w.emitted
  {
    hide Channels;
  }

  lemma DisagreesStill(w: World, w1: World, c: nat, e: nat)
    requires ActsAlone(w, w1, c) && T.PathsDistinct(w.tree) && e != c && c in w.tree.supervisors
    requires e in w.tree.supervisors && !T.AgreeAt(w.tree, e)
    ensures e in w1.tree.supervisors && !T.AgreeAt(w1.tree, e)
  {
    hide ActorPath.Parent;
    assert OtherKept(w, w1, c, e);
    assert w.tree.supervisors[c].path != w.tree.supervisors[e].path;
    var p :| p in w.tree.registry && p.Parent() == w.tree.supervisors[e].path && p !in w.tree.supervisors[e].senders;
    assert p in w1.tree.registry;
  }

  /** One step down: the root tells its children, and the part of one of them is
      as the tree was. */
  lemma StepDown(w: World, c: nat, below: set<nat>, d: nat) returns (step: Step)
    requires Inv(w) && RootedAtRest(w, c, below) && T.PathsDistinct(w.tree)
    requires c in w.tree.supervisors && T.AgreeAt(w.tree, c)
    requires d in below && d in w.tree.created && Parent(w, d) == c
    ensures step.HandleStop? && step.preStop && step.id == c && Enabled(w, step) && ActsAlone(w, Next(w, step), c)
    ensures RootedAtRest(Next(w, step), d, PartBelow(w, below, d))
  {
    var order := T.ListingOf(Children(w.tree.registry, w.tree.supervisors[c].path));
    hide Inv, RootedAtRest, Enabled, Next, AtRest, Children, Lists, T.AgreeAt, T.PathsDistinct, ActsAlone, ToldAll,
         Channels, Covered, IsKid, Resting, Idle, TreeBelow, NoStrays, Stoppable;
    RootAtRest(w, c, below);
    MemberRuns(w, c, below, c);
    AgreeCovers(w, c, below, c);
    StartsResting(w, c, below, c);
    AllMade(w, c, below);
    RestingFacts(w, c, below, order);
    KidAtRest(w, c, below, d);
    KidListed(w, c, order, d);
    Tables(w);
    StopsAll(w, c, order);
    step := HandleStop(c, order, true, true);
    AloneStop(w, c, order, true, true);
    PartAtRest(w, Next(w, step), c, below, order, d);
  }

  lemma Tables(w: World)
    requires Inv(w)
    ensures ChannelsOk(w) && Shape(w)
  {
    hide Shape, ChannelsOk, QueuesOk, AllWaitedOk, SignalsOk, EmittedOk, OrderOk, BusyOk, RegistryOk, PendingOk,
         AwaitingOk;
  }

  lemma AllMade(w: World, c: nat, below: set<nat>)
    requires TreeBelow(w, c, below)
    ensures forall d | d in below :: d in w.tree.created
  {
  }

  /** If some table of the tree does not agree, a few Stops lead to a stuck actor. */
  lemma {:induction false} SomeStuck(w: World, c: nat, below: set<nat>, e: nat)
    returns (steps: seq<Step>, s: nat, asleep: set<nat>)
    requires Inv(w) && RootedAtRest(w, c, below) && T.PathsDistinct(w.tree)
    requires e in below + {c} && e in w.tree.supervisors && !T.AgreeAt(w.tree, e)
    ensures ValidFrom(w, steps) && forall t | t in steps :: t.HandleStop? && t.preStop
    ensures s in below + {c} && Stuck(AfterFrom(w, steps), s, asleep)
    decreases below
  {
    hide Inv, RootedAtRest, Enabled, Next, T.AgreeAt, T.PathsDistinct, ActsAlone, Stuck, ValidFrom, AfterFrom, Under,
         TreeBelow, AtRest, NoStrays, IsRunning, Idle;
    RootAtRest(w, c, below);
    MemberRuns(w, c, below, c);
    Rooted(w, c);
    if !T.AgreeAt(w.tree, c) {
      var stop := GetsStuck(w, c, below);
      OneStep(w, stop);
      steps, s, asleep := [stop], c, below;
    } else {
      var d := ChildAbove(w, c, below, e);
      var stop := StepDown(w, c, below, d);
      var w1 := Next(w, stop);
      PartIsTree(w, c, below, d);
      StepKeeps(w, stop);
      DistinctKept(w, w1, c);
      DisagreesStill(w, w1, c, e);
      var rest;
      rest, s, asleep := SomeStuck(w1, d, PartBelow(w, below, d), e);
      StepThen(w, stop, rest);
      steps := [stop] + rest;
    }
  }

  lemma Rooted(w: World, c: nat)
    requires IsRunning(w, c)
    ensures c in w.tree.supervisors
  {
  }

  // ---------- runs to the end ----------

  lemma NoRestartsKept(w: World, w': World, x: nat)
    requires ActsAlone(w, w', x) && NoRestarts(w)
    ensures NoRestarts(w')
  {
    forall e | e in w'.tree.queues ensures Restart !in w'.tree.queues[e] {
      if e != x {
        assert OtherKept(w, w', x, e);
      }
    }
  }

  lemma SameLivesAlone(w: World, w': World, x: nat)
    requires ActsAlone(w, w', x)
    ensures w'.life.Keys == w.life.Keys
  {
    hide OtherKept;
  }

  lemma OwnStepKeeps(w: World, step: Step)
    requires Inv(w) && AllSettled(w) && NoRestarts(w) && Enabled(w, step) && IsOwn(step)
    ensures var w' := Next(w, step);
            Inv(w') && AllSettled(w') && NoRestarts(w') && w'.life.Keys == w.life.Keys
  {
    hide *;
    OwnStepAlone(w, step);
    StepKeeps(w, step);
    NoRestartsKept(w, Next(w, step), Actor(step));
    SameLivesAlone(w, Next(w, step), Actor(step));
  }

  lemma {:induction false} OwnRunKeeps(w: World, steps: seq<Step>)
    requires Inv(w) && AllSettled(w) && NoRestarts(w) && ValidFrom(w, steps) && forall t | t in steps :: IsOwn(t)
    ensures var w' := AfterFrom(w, steps);
            Inv(w') && AllSettled(w') && NoRestarts(w') && w'.life.Keys == w.life.Keys
    decreases |steps|
  {
    hide Inv, AllSettled, NoRestarts, Enabled, Next, IsOwn;
    if steps != [] {
      assert steps[0] in steps;
      assert forall t | t in steps[1..] :: t in steps;
      OwnStepKeeps(w, steps[0]);
      OwnRunKeeps(Next(w, steps[0]), steps[1..]);
    }
  }

  /** With all start-ups settled and no Restart under way, the protocol can run to
      its end without a failing `pre_stop`. */
  lemma {:induction false} RunsOut(w: World, n: nat) returns (steps: seq<Step>)
    requires Inv(w) && AllSettled(w) && NoRestarts(w) && T.SYSTEM < n && forall c | c in w.life :: c < n
    ensures ValidFrom(w, steps) && (forall t | t in steps :: IsOwn(t) && (t.HandleStop? ==> t.preStop))
    ensures Quiescent(AfterFrom(w, steps))
    decreases Potential(w, n)
  {
    hide Inv, AllSettled, NoRestarts, Enabled, Next, IsOwn, Quiescent, Potential, ValidFrom, AfterFrom;
    if Quiescent(w) {
      steps := [];
      NoStepsLeft(w);
    } else {
      var step := NotQuiescentGoesOn(w);
      OwnStepKeeps(w, step);
      OwnStepFalls(w, step, n);
      var rest := RunsOut(Next(w, step), n);
      StepThen(w, step, rest);
      steps := [step] + rest;
    }
  }

  lemma NoStepsLeft(w: World)
    ensures ValidFrom(w, []) && AfterFrom(w, []) == w
  {
  }

  /** Every continuation of clean steps can be completed to a clean run. */
  lemma Completes(w: World, steps: seq<Step>, tree: set<nat>) returns (all: seq<Step>)
    requires Inv(w) && AllSettled(w) && NoRestarts(w) && ValidFrom(w, steps)
    requires forall t | t in steps :: IsOwn(t) && (t.HandleStop? ==> t.preStop)
    requires forall e | e in tree :: e in w.life
    ensures CleanRun(w, all, tree)
    ensures exists more: seq<Step> | ValidFrom(AfterFrom(w, steps), more) && (forall t | t in more :: IsOwn(t)) ::
              AfterFrom(w, all) == AfterFrom(AfterFrom(w, steps), more)
  {
    hide Inv, AllSettled, NoRestarts, IsOwn, Quiescent, ValidFrom, AfterFrom, QuietActor;
    OwnRunKeeps(w, steps);
    var w1 := AfterFrom(w, steps);
    var bound := Above(w1.life.Keys + {T.SYSTEM});
    var more := RunsOut(w1, bound);
    OwnRunKeeps(w1, more);
    Continue(w, steps, more);
    QuietAll(AfterFrom(w1, more), tree);
    all := steps + more;
  }

  lemma QuietAll(w: World, tree: set<nat>)
    requires Quiescent(w) && forall e | e in tree :: e in w.life
    ensures QuietTree(w, tree)
  {
    hide QuietActor;
  }

  lemma TreeLives(w: World, c: nat, below: set<nat>)
    requires RootedAtRest(w, c, below)
    ensures forall e | e in below + {c} :: e in w.life && e in w.tree.supervisors
  {
    hide RootedAtRest, Idle;
    forall e | e in below + {c} ensures e in w.life && e in w.tree.supervisors {
      MemberRuns(w, c, below, e);
    }
  }

  lemma SomeoneWaits(w: World, c: nat, below: set<nat>, e: nat) returns (steps: seq<Step>)
    requires Inv(w) && RootedAtRest(w, c, below) && AllSettled(w) && T.PathsDistinct(w.tree) && NoRestarts(w)
    requires e in below + {c} && e in w.tree.supervisors && !T.AgreeAt(w.tree, e)
    ensures CleanRun(w, steps, below + {c}) && !AllOf(below + {c}, AfterFrom(w, steps).emitted)
  {
    hide Inv, RootedAtRest, AllSettled, T.PathsDistinct, NoRestarts, T.AgreeAt, Stuck, ValidFrom, AfterFrom, QuietTree;
    TreeLives(w, c, below);
    var first, s, asleep := SomeStuck(w, c, below, e);
    steps := Completes(w, first, below + {c});
    var w1 := AfterFrom(w, first);
    OwnRunKeeps(w, first);
    var more: seq<Step> :| ValidFrom(w1, more) && (forall t | t in more :: IsOwn(t))
                           && AfterFrom(w, steps) == AfterFrom(w1, more);
    StuckRun(w1, more, s, asleep);
    StuckUnemitted(AfterFrom(w1, more), s, asleep);
  }

  /** The exact condition, on the state before the Stop: over a tree at rest, in
      every run of the protocol's own steps that ends with nothing left to do in
      the tree, and in which no `pre_stop` fails there, everybody in it has emitted,
      if and only if every table in it names all registered direct children. */
  lemma EverybodyStopsExact(w: World, c: nat, below: set<nat>)
    requires Inv(w) && RootedAtRest(w, c, below) && AllSettled(w) && T.PathsDistinct(w.tree) && NoRestarts(w)
    ensures (forall steps | CleanRun(w, steps, below + {c}) :: AllOf(below + {c}, AfterFrom(w, steps).emitted))
       <==> TablesAgree(w, below + {c})
  {
    TreeLives(w, c, below);
    hide Inv, RootedAtRest, AllSettled, T.PathsDistinct, NoRestarts, T.AgreeAt, AllOf;
    if TablesAgree(w, below + {c}) {
      forall steps | CleanRun(w, steps, below + {c}) ensures AllOf(below + {c}, AfterFrom(w, steps).emitted) {
        EverybodyStops(w, c, below, steps);
      }
    } else {
      var e :| e in below + {c} && !T.AgreeAt(w.tree, e);
      var steps := SomeoneWaits(w, c, below, e);
    }
  }

  /** There is such a run. */
  lemma SomeCleanRun(w: World, c: nat, below: set<nat>) returns (steps: seq<Step>)
    requires Inv(w) && RootedAtRest(w, c, below) && AllSettled(w) && NoRestarts(w)
    ensures CleanRun(w, steps, below + {c})
  {
    hide Inv, RootedAtRest, AllSettled, NoRestarts, ValidFrom, AfterFrom;
    TreeLives(w, c, below);
    NoStepsLeft(w);
    steps := Completes(w, [], below + {c});
  }
}
