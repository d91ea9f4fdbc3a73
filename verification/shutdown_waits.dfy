/** For which child an actor waits: exactly for a single outstanding one. */
module ShutdownWaits {
  import opened Wrappers
  import opened Paths
  import opened Supervision
  import opened Shutdown
  import opened ShutdownInvariants
  import opened ShutdownOrders
  import opened ShutdownBranches
  import T = SupervisionTrees

  /** From every state in which an actor is about to handle Stop, over any tree at
      rest below it, and for any of its registered children: the run can go on so
      that the actor emits, and of its children at rest only that one has. */
  lemma OneChildWaitedFor(w: World, x: nat, below: set<nat>, p: ActorPath)
    returns (steps: seq<Step>, branch: seq<nat>)
    requires Inv(w) && AboutToStop(w, x, below)
    requires p in Children(w.tree.registry, w.tree.supervisors[x].path)
    ensures x in w.tree.created && p in w.tree.supervisors[x].senders
    ensures StopsWith(w, steps, branch, below, x)
    ensures x in AfterFrom(w, steps).emitted && w.tree.supervisors[x].senders[p] in AfterFrom(w, steps).emitted
    ensures forall e | e in below && e in w.tree.created && Parent(w, e) == x
                       && e != w.tree.supervisors[x].senders[p] ::
              e !in AfterFrom(w, steps).emitted
  {
    var order := T.ListingFrom(Children(w.tree.registry, w.tree.supervisors[x].path), p);
    steps, branch := BranchThrough(w, x, below, order);
    var n := |branch|;
    assert branch[n - 1] in branch && branch[n - 2] in branch;
    forall e | e in below && e in w.tree.created && Parent(w, e) == x && e != w.tree.supervisors[x].senders[p]
      ensures e !in branch && e !in w.emitted
    {
      RestUnemitted(w, x, below, e);
      OffBranch(w, branch, below, x, e);
    }
  }

  lemma RestUnemitted(w: World, x: nat, below: set<nat>, e: nat)
    requires Inv(w) && AboutToStop(w, x, below) && e in below
    ensures e !in w.emitted
  {
    assert AtRest(w, e, []);
    hide Shape, ChannelsOk, QueuesOk, AllWaitedOk, SignalsOk, OrderOk, BusyOk, RegistryOk, PendingOk, AwaitingOk,
         Covered, Idle;
  }

  /** Only one child of the last actor is on a branch. */
  lemma OffBranch(w: World, branch: seq<nat>, below: set<nat>, x: nat, e: nat)
    requires Branch(w, branch, below, x) && |branch| >= 2 && x !in below
    requires e in below && e in w.tree.created && Parent(w, e) == x && e != branch[|branch| - 2]
    ensures e !in branch
  {
    forall k | 0 <= k < |branch| ensures branch[k] != e {
      if 0 <= k < |branch| - 2 {
        assert branch[k + 1] in below;
      }
    }
  }

  // ---------- the children an actor has not heard ----------

  /** A child whose Stopped the actor has not handled. */
  ghost predicate Outstanding(w: World, x: nat, d: nat) {
    && d in w.tree.created && Parent(w, d) == x
    && (d !in w.emitted || (x in w.signals && Signal(d, w.tree.created[d].path) in w.signals[x]))
  }

  predicate CreatesNone(steps: seq<Step>, x: nat) {
    forall s | s in steps :: !(s.Spawn? && s.parent == x)
  }

  /** The actor left as stopped and has emitted, and created no child on the way. */
  ghost predicate Finishes(w: World, steps: seq<Step>, x: nat) {
    && ValidFrom(w, steps) && CreatesNone(steps, x)
    && var w' := AfterFrom(w, steps); x in w'.emitted && x in w'.life && w'.life[x].clean
  }

  /** The actor waits for `c` alone, or has left after it. */
  ghost predicate WaitsFor(w: World, x: nat, c: nat) {
    && x in w.waited && x in w.life && c in w.tree.created
    && (!Off(w.life[x]) ==> forall d | Outstanding(w, x, d) :: d == c)
    && (w.life[x].clean ==> c in w.emitted)
  }

  lemma CreatedSame(tree: T.Tree, op: T.Op)
    requires T.Enabled(tree, op) && !op.Spawn?
    ensures T.Apply(tree, op).created == tree.created
  {
    hide StopEach, StopOne, RestartEach;
  }

  lemma NoSpawnOp(w: World, step: Step)
    requires Enabled(w, step) && !step.Spawn? && TreeOps(w, step) != []
    ensures !TreeOps(w, step)[0].Spawn?
  {
    hide Enabled, SignalPath, T.ChildPath;
  }

  /** Nothing is created by other steps. */
  lemma NothingCreated(w: World, step: Step)
    requires Enabled(w, step) && !step.Spawn?
    ensures Next(w, step).tree.created == w.tree.created
  {
    hide Enabled, Next, TreeOps, T.Enabled, T.Apply, Took;
    if step.HandleStop? {
      StopEnabled(w, step.id, step.order, step.preStop, step.fault);
      StopNext(w, step.id, step.order, step.preStop, step.fault);
      CreatedSame(w.tree, T.Op.StopAllChildren(step.id, step.order));
      TookSame(StopTables(w, step.id, step.order, step.preStop), step.id);
    } else if step.HandleRestart? {
      RestartNext(w, step.id, step.order, step.fault, step.again);
      CreatedSame(w.tree, T.Op.RestartAll(step.id, step.order));
      TookSame(TreeStep(w, T.Op.RestartAll(step.id, step.order)), step.id);
    } else {
      OtherOps(w, step);
      if TreeOps(w, step) != [] {
        NoSpawnOp(w, step);
        CreatedSame(w.tree, TreeOps(w, step)[0]);
      }
    }
  }

  /** Signals and emissions: only an emission adds one, of an actor that had not
      emitted. */
  lemma SignalGrows(w: World, step: Step, x: nat, s: Signal)
    requires Enabled(w, step) && x in w.signals && x in Next(w, step).signals && s in Next(w, step).signals[x]
    ensures s in w.signals[x] || (step.Emit? && s.id == step.id)
  {
    hide Enabled, Next, T.Apply, T.Enabled, Took, SignalPath, Children, StopTables;
    match step {
      case HandleSignal(y) =>
        SignalNext(w, y);
        assert w.signals[y] == [w.signals[y][0]] + w.signals[y][1..];
      case SystemSignal =>
        SystemNext(w);
        SystemMay(w);
        assert w.signals[T.SYSTEM] == [w.signals[T.SYSTEM][0]] + w.signals[T.SYSTEM][1..];
      case Emit(y) => EmitNext(w, y);
      case Spawn(y, name, c) => SpawnStep(w, y, name, c);
      case _ => SameSignals(w, step);
    }
  }

  lemma SystemMay(w: World)
    requires Enabled(w, SystemSignal)
    ensures T.SYSTEM in w.tree.supervisors && T.SYSTEM in w.signals && w.signals[T.SYSTEM] != []
  {
  }

  lemma SameSignals(w: World, step: Step)
    requires Enabled(w, step)
    requires !step.HandleSignal? && !step.SystemSignal? && !step.Emit? && !step.Spawn?
    ensures Next(w, step).signals == w.signals && Next(w, step).emitted == w.emitted
  {
    hide Enabled, Next, T.Apply, T.Enabled, Took, StopTables;
    match step {
      case HandleStop(y, order, preStop, fault) =>
        StopEnabled(w, y, order, preStop, fault);
        StopNext(w, y, order, preStop, fault);
      case HandleRestart(y, order, fault, again) => RestartNext(w, y, order, fault, again);
      case Settle(c) => SettleNext(w, c);
      case Drop(y) => DropNext(w, y);
      case Start(_) => StartNext(w, step);
      case Refuse(_) => StartNext(w, step);
      case _ => TablesNext(w, step);
    }
  }

  lemma EmittedGrows(w: World, step: Step, d: nat)
    requires Enabled(w, step) && d in w.emitted
    ensures d in Next(w, step).emitted
  {
    hide Enabled, Next, T.Apply, T.Enabled, Took, SignalPath, Children, StopTables;
    match step {
      case HandleSignal(y) => SignalNext(w, y);
      case SystemSignal => SystemNext(w);
      case Emit(y) => EmitNext(w, y);
      case Spawn(y, name, c) => SpawnStep(w, y, name, c);
      case _ => SameSignals(w, step);
    }
  }

  lemma SpawnGrows(w: World, step: Step)
    requires Enabled(w, step) && step.Spawn?
    ensures step.child !in w.tree.created && step.parent in w.tree.supervisors
    ensures Next(w, step).tree.created
         == w.tree.created[step.child := T.Origin(step.parent, T.ChildPath(w.tree, step.parent, step.name))]
    ensures forall x | x in w.signals && x != step.child :: Next(w, step).signals[x] == w.signals[x]
  {
    hide Enabled, Next, T.ChildPath;
    SpawnNew(w, step.parent, step.name, step.child);
    SpawnStep(w, step.parent, step.name, step.child);
  }

  lemma OutstandingShrinks(w: World, step: Step, x: nat, d: nat)
    requires Inv(w) && Enabled(w, step) && !(step.Spawn? && step.parent == x) && x in w.life
    requires Outstanding(Next(w, step), x, d)
    ensures Outstanding(w, x, d)
  {
    hide Enabled, Next, Inv;
    HasSignals(w, x);
    if step.Emit? {
      EmitsOnce(w, step.id);
    }
    var s := Signal(d, Next(w, step).tree.created[d].path);
    if d in w.emitted {
      EmittedGrows(w, step, d);
      SignalGrows(w, step, x, s);
    }
    if step.Spawn? {
      SpawnGrows(w, step);
      SpawnNew(w, step.parent, step.name, step.child);
    } else {
      NothingCreated(w, step);
    }
  }

  lemma HasSignals(w: World, x: nat)
    requires Inv(w) && x in w.life
    ensures x in w.signals
  {
    hide ShapeAt, ChannelsOk, QueuesOk, AllWaitedOk, SignalsOk, EmittedOk, OrderOk, BusyOk, RegistryOk, PendingOk,
         AwaitingOk;
  }

  lemma EmitsOnce(w: World, x: nat)
    requires Inv(w) && Enabled(w, Emit(x))
    ensures x !in w.emitted
  {
    hide Enabled, Shape, ChannelsOk, QueuesOk, AllWaitedOk, SignalsOk, OrderOk, BusyOk, RegistryOk, PendingOk,
         AwaitingOk;
    EmitNext(w, x);
  }

  lemma LifeStep(w: World, step: Step, x: nat)
    requires Enabled(w, step) && x in w.life && w.life[x].phase != Starting && w.life[x].creation == Settled
    requires w.life[x].clean ==> Off(w.life[x])
    requires !(step.HandleStop? && step.id == x)
    ensures x in Next(w, step).life
    ensures Off(w.life[x]) ==> Off(Next(w, step).life[x])
    ensures Off(w.life[x]) && Next(w, step).life[x].clean ==> w.life[x].clean
    ensures !Off(w.life[x]) && Next(w, step).life[x].clean ==> step == HandleSignal(x)
  {
    hide Enabled, Next;
    LivesNext(w, step);
  }

  lemma WaitedGrows(w: World, step: Step, x: nat)
    requires Enabled(w, step) && x in w.waited
    ensures x in Next(w, step).waited
  {
    hide Enabled, Next;
    LivesNext(w, step);
  }

  /** The life of an actor that waited: it is not told again, so it leaves as
      stopped on a signal only. */
  lemma WaitedLife(w: World, step: Step, x: nat)
    requires Inv(w) && Enabled(w, step) && x in w.waited && x in w.life
    ensures x in Next(w, step).waited && x in Next(w, step).life
    ensures Off(w.life[x]) ==> Off(Next(w, step).life[x])
    ensures Off(w.life[x]) && Next(w, step).life[x].clean ==> w.life[x].clean
    ensures !Off(w.life[x]) && Next(w, step).life[x].clean ==> step == HandleSignal(x)
  {
    WaitedFacts(w, x);
    hide Inv, Next;
    WaitedGrows(w, step, x);
    LifeStep(w, step, x);
  }

  lemma WaitedFacts(w: World, x: nat)
    requires Inv(w) && x in w.waited && x in w.life
    ensures w.life[x].phase != Starting && w.life[x].creation == Settled && (w.life[x].clean ==> Off(w.life[x]))
    ensures x in w.tree.queues && w.tree.queues[x] != [] ==> w.tree.queues[x][0] != Stop
  {
    assert ShapeAt(w, x);
    assert x in w.tree.queues ==> QueueOk(w, x);
    assert WaitedOk(w, x);
    hide *;
  }

  lemma HeardFrom(w: World, x: nat)
    requires Inv(w) && Enabled(w, HandleSignal(x))
    ensures Outstanding(w, x, w.signals[x][0].id) && w.signals[x][0].id in w.emitted
  {
    assert w.signals[x][0] in w.signals[x];
    assert SignalOk(w, x, w.signals[x][0]);
    hide *;
  }

  lemma WaitsForStep(w: World, step: Step, x: nat, c: nat)
    requires Inv(w) && Enabled(w, step) && !(step.Spawn? && step.parent == x) && WaitsFor(w, x, c)
    ensures WaitsFor(Next(w, step), x, c)
  {
    hide Inv, Enabled, Next, Outstanding;
    WaitedLife(w, step, x);
    if step == HandleSignal(x) {
      HeardFrom(w, x);
      HearsRunning(w, x);
    }
    forall d | Outstanding(Next(w, step), x, d) ensures Outstanding(w, x, d) {
      OutstandingShrinks(w, step, x, d);
    }
    if step.Spawn? {
      SpawnGrows(w, step);
    } else {
      NothingCreated(w, step);
    }
    if c in w.emitted {
      EmittedGrows(w, step, c);
    }
  }

  lemma HearsRunning(w: World, x: nat)
    requires Enabled(w, HandleSignal(x))
    ensures IsRunning(w, x) && w.signals[x] != []
  {
    hide Idle;
  }

  lemma {:induction false} WaitsForRun(w: World, steps: seq<Step>, x: nat, c: nat)
    requires Inv(w) && ValidFrom(w, steps) && CreatesNone(steps, x) && WaitsFor(w, x, c)
    ensures WaitsFor(AfterFrom(w, steps), x, c)
    decreases |steps|
  {
    hide Inv, Enabled, Next, WaitsFor;
    if steps != [] {
      assert steps[0] in steps;
      assert forall s | s in steps[1..] :: s in steps;
      StepKeeps(w, steps[0]);
      WaitsForStep(w, steps[0], x, c);
      WaitsForRun(Next(w, steps[0]), steps[1..], x, c);
    }
  }

  // ---------- the exact condition ----------

  /** An actor that waits, with nothing to handle, whose outstanding children are
      all about to stop. */
  ghost predicate WaitsCalmly(w: World, x: nat, below: set<nat>) {
    && x in w.waited && x in w.tree.created && AtRest(w, x, []) && x !in below
    && Children(w.tree.registry, w.tree.supervisors[x].path) == {}
    && forall d | Outstanding(w, x, d) :: AboutToStop(w, d, below)
  }

  lemma WaiterResumes(w: World, w1: World, x: nat, below: set<nat>, d: nat)
    requires Inv(w) && Inv(w1) && WaitsCalmly(w, x, below) && Outstanding(w, x, d)
    requires Frame(w, w1, below, d)
    ensures Shape(w1) && IsRunning(w1, x) && Idle(w1, x) && w1.signals[x] != [] && x in w1.tree.created
    ensures Children(w1.tree.registry, w1.tree.supervisors[x].path) == {}
  {
    assert ShapeAt(w, d) && ShapeAt(w, x);
    hide ChannelsOk, QueuesOk, AllWaitedOk, SignalsOk, EmittedOk, OrderOk, BusyOk, RegistryOk, PendingOk, AwaitingOk,
         Covered, ActorPath.Parent, ActorPath.WellFormed, Calm;
    assert SameActor(w, w1, x);
    forall p ensures p !in Children(w1.tree.registry, w1.tree.supervisors[x].path) {
      assert p !in Children(w.tree.registry, w.tree.supervisors[x].path);
    }
  }

  lemma Unemitted(w: World, x: nat, below: set<nat>, c: nat)
    requires Inv(w) && WaitsCalmly(w, x, below) && Outstanding(w, x, c)
    ensures c !in w.emitted && c !in below && c != x
  {
    assert ShapeAt(w, c);
    assert AboutToStop(w, c, below);
    hide Shape, ChannelsOk, QueuesOk, AllWaitedOk, SignalsOk, OrderOk, BusyOk, RegistryOk, PendingOk, AwaitingOk,
         Covered, Idle, Calm;
  }

  lemma OutsideBranch(w: World, branch: seq<nat>, below: set<nat>, d: nat, c: nat)
    requires Branch(w, branch, below, d) && c !in below && c != d
    ensures c !in branch
  {
  }

  lemma FinishesSo(w: World, x: nat, d: nat, c: nat, branch: seq<nat>, below: set<nat>,
                   steps1: seq<Step>, steps2: seq<Step>)
    requires d in w.tree.created && StopsWith(w, steps1, branch, below, d)
    requires var w1 := AfterFrom(w, steps1);
             && x in w1.life && x in w1.tree.created && x in w1.signals && w1.signals[x] != []
             && ValidFrom(w1, steps2) && Ended(w1, AfterFrom(w1, steps2), x)
    requires forall s | s in steps2 :: !s.Spawn?
    requires c !in w.emitted && c !in branch && c != x
    ensures Finishes(w, steps1 + steps2, x) && c !in AfterFrom(w, steps1 + steps2).emitted
  {
    hide Frame, ValidFrom, AfterFrom, Branch;
    Continue(w, steps1, steps2);
  }

  /** Some continuation finishes with another outstanding child and without `c`. */
  lemma FinishesWithout(w: World, x: nat, below: set<nat>, c: nat, d: nat) returns (steps: seq<Step>)
    requires Inv(w) && WaitsCalmly(w, x, below) && Outstanding(w, x, c) && Outstanding(w, x, d) && c != d
    ensures Finishes(w, steps, x) && c !in AfterFrom(w, steps).emitted
  {
    Unemitted(w, x, below, c);
    assert AboutToStop(w, d, below);
    hide Inv, AboutToStop, Frame, Outstanding, Idle, Children, Shape, ValidFrom, AfterFrom, Branch, WaitsCalmly, Ended;
    var steps1, branch := BranchStops(w, d, below);
    var w1 := AfterFrom(w, steps1);
    InvFrom(w, steps1);
    WaiterResumes(w, w1, x, below, d);
    OutsideBranch(w, branch, below, d, c);
    var steps2 := EndsBranch(w1, x);
    hide StopsWith, Finishes;
    FinishesSo(w, x, d, c, branch, below, steps1, steps2);
    steps := steps1 + steps2;
  }

  /** The exact condition: an actor that waits calmly emits after a given
      outstanding child, in every continuation in which it creates no other and
      leaves as stopped, if and only if no other child is outstanding. */
  lemma WaitsExactly(w: World, x: nat, below: set<nat>, c: nat)
    requires Inv(w) && WaitsCalmly(w, x, below) && Outstanding(w, x, c)
    ensures (forall steps | Finishes(w, steps, x) :: c in AfterFrom(w, steps).emitted)
       <==> (forall d | Outstanding(w, x, d) :: d == c)
  {
    if d :| Outstanding(w, x, d) && d != c {
      var steps := FinishesWithout(w, x, below, c, d);
    } else {
      WaiterWaits(w, x, below, c);
      forall steps | Finishes(w, steps, x) ensures c in AfterFrom(w, steps).emitted {
        WaitsForRun(w, steps, x, c);
      }
    }
  }

  lemma WaiterWaits(w: World, x: nat, below: set<nat>, c: nat)
    requires Inv(w) && WaitsCalmly(w, x, below) && Outstanding(w, x, c)
    requires forall d | Outstanding(w, x, d) :: d == c
    ensures WaitsFor(w, x, c)
  {
    assert ShapeAt(w, x);
    hide Inv, Outstanding, Idle;
  }

  /** Handling Stop leads there, when all outstanding children are registered. */
  lemma StopsCalmly(w: World, x: nat, below: set<nat>, order: seq<ActorPath>)
    requires Inv(w) && AboutToStop(w, x, below) && order != []
    requires Lists(order, Children(w.tree.registry, w.tree.supervisors[x].path))
    requires forall p | p in order :: p in w.tree.supervisors[x].senders
    requires forall d | Outstanding(w, x, d) :: d in Channels(w, x, order)
    ensures Enabled(w, HandleStop(x, order, true, true))
    ensures var w1 := Next(w, HandleStop(x, order, true, true));
            && Inv(w1) && WaitsCalmly(w1, x, below - Channels(w, x, order))
            && forall d :: Outstanding(w1, x, d) <==> Outstanding(w, x, d)
  {
    var d := FirstKid(w, x, order, below);
    AfterTelling(w, x, below, order, d);
    var w1 := Next(w, HandleStop(x, order, true, true));
    WaiterRests(w, w1, x, below, order);
    forall d | Outstanding(w1, x, d) ensures AboutToStop(w1, d, below - Channels(w, x, order)) {
      AfterTelling(w, x, below, order, d);
    }
    hide Inv, AboutToStop, ToldAll, Next, Enabled, Children, Outstanding, Channels;
  }

  lemma WaiterRests(w: World, w1: World, x: nat, below: set<nat>, order: seq<ActorPath>)
    requires AboutToStop(w, x, below)
    requires forall p | p in order :: p in w.tree.supervisors[x].senders
    requires ToldAll(w, w1, x, order)
    ensures x in w1.waited && x in w1.tree.created && AtRest(w1, x, []) && x !in below - Channels(w, x, order)
    ensures forall d :: Outstanding(w1, x, d) <==> Outstanding(w, x, d)
  {
    hide Channels, Covered, Calm, Idle;
    SameIdle(w, w1, x);
  }

  /** Shutdown order, exactly: an actor with running children that handles its Stop
      emits after a given registered child, in every continuation in which it
      creates no other child and leaves as stopped, if and only if that child is
      the only one registered. */
  lemma OrderExact(w: World, x: nat, below: set<nat>, order: seq<ActorPath>, p: ActorPath)
    requires Inv(w) && AboutToStop(w, x, below) && p in order
    requires Lists(order, Children(w.tree.registry, w.tree.supervisors[x].path))
    requires forall q | q in order :: q in w.tree.supervisors[x].senders
    requires forall d :: Outstanding(w, x, d) <==> d in Channels(w, x, order)
    ensures Enabled(w, HandleStop(x, order, true, true))
    ensures var w1, child := Next(w, HandleStop(x, order, true, true)), w.tree.supervisors[x].senders[p];
            (forall steps | Finishes(w1, steps, x) :: child in AfterFrom(w1, steps).emitted) <==> order == [p]
  {
    hide *;
    StopListed(w, x, below, order, p);
    StopsCalmly(w, x, below, order);
    OneChannel(w, x, order, p);
    var w1, child := Next(w, HandleStop(x, order, true, true)), w.tree.supervisors[x].senders[p];
    WaitsExactly(w1, x, below - Channels(w, x, order), child);
  }

  lemma StopListed(w: World, x: nat, below: set<nat>, order: seq<ActorPath>, p: ActorPath)
    requires Inv(w) && AboutToStop(w, x, below) && p in order
    requires Lists(order, Children(w.tree.registry, w.tree.supervisors[x].path))
    ensures ChannelsOk(w) && x in w.tree.supervisors && Distinct(order) && order != []
  {
  }

  lemma OneChannel(w: World, x: nat, order: seq<ActorPath>, p: ActorPath)
    requires ChannelsOk(w) && x in w.tree.supervisors && p in order && Distinct(order)
    requires forall q | q in order :: q in w.tree.supervisors[x].senders
    ensures w.tree.supervisors[x].senders[p] in Channels(w, x, order)
    ensures (forall d | d in Channels(w, x, order) :: d == w.tree.supervisors[x].senders[p]) <==> order == [p]
  {
    OwnTables(w, x);
    assert |order| == 1 ==> order == [order[0]];
    if |order| > 1 {
      var q := if order[0] == p then order[1] else order[0];
      assert q in order && w.tree.supervisors[x].senders[q] in Channels(w, x, order);
    }
  }
}
