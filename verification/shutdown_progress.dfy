/** The protocol's own steps come to an end, and where. */
module ShutdownProgress {
  import opened Wrappers
  import opened Paths
  import opened Supervision
  import opened Shutdown
  import opened ShutdownInvariants
  import opened ShutdownOrders
  import opened ShutdownBranches
  import opened ShutdownWaits
  import T = SupervisionTrees

  /** The steps that finish what has begun: start-ups, Stop actions, signals,
      emissions and ends of runners. The others are decisions of handlers, users or
      the system, and restarts. */
  predicate IsOwn(step: Step) {
    step.Start? || step.Refuse? || step.Settle? || step.HandleStop? || step.HandleSignal? || step.Emit? || step.Drop?
  }

  // ---------- a bound on their number ----------

  /** What is left of an actor's life. */
  function Rest(w: World, c: nat): nat {
    if c !in w.life then 0
    else
      (if w.life[c].creation == Settled then 0 else 1)
      + match w.life[c].phase
        case Starting => 6
        case Running => if c in w.waited then 4 else 5
        case Left => 3
        case Emitted => 1
        case Gone => 0
  }

  function Waiting(w: World, c: nat): nat {
    if c in w.signals then |w.signals[c]| else 0
  }

  function Sum(f: nat -> nat, n: nat): nat {
    if n == 0 then 0 else Sum(f, n - 1) + f(n - 1)
  }

  function Potential(w: World, n: nat): nat {
    Sum(c => Rest(w, c), n) + Sum(c => Waiting(w, c), n)
  }

  lemma {:induction false} SumSame(f: nat -> nat, g: nat -> nat, n: nat)
    requires forall c: nat | c < n :: f(c) == g(c)
    ensures Sum(f, n) == Sum(g, n)
  {
    if n > 0 {
      SumSame(f, g, n - 1);
    }
  }

  /** Sums that differ in one term. */
  lemma {:induction false} SumChange(f: nat -> nat, g: nat -> nat, n: nat, x: nat)
    requires x < n && forall c: nat | c < n && c != x :: f(c) == g(c)
    ensures Sum(g, n) + f(x) == Sum(f, n) + g(x)
  {
    if x == n - 1 {
      SumSame(f, g, n - 1);
    } else {
      SumChange(f, g, n - 1, x);
    }
  }

  /** How the terms change in one step: one actor's rest falls by `fall`, and the
      signals of one by one, or rise by one. */
  ghost predicate RestFalls(w: World, w': World, x: nat, fall: nat) {
    Rest(w', x) + fall <= Rest(w, x) && forall c: nat | c != x :: Rest(w', c) == Rest(w, c)
  }

  lemma RestSum(w: World, w': World, n: nat, x: nat, fall: nat)
    requires RestFalls(w, w', x, fall) && x < n
    ensures Sum(c => Rest(w', c), n) + fall <= Sum(c => Rest(w, c), n)
  {
    SumChange(c => Rest(w, c), c => Rest(w', c), n, x);
  }

  lemma WaitingSum(w: World, w': World, n: nat, x: nat, d: int)
    requires x < n && Waiting(w', x) == Waiting(w, x) + d && forall c: nat | c != x :: Waiting(w', c) == Waiting(w, c)
    ensures Sum(c => Waiting(w', c), n) == Sum(c => Waiting(w, c), n) + d
  {
    SumChange(c => Waiting(w, c), c => Waiting(w', c), n, x);
  }

  /** Every own step lowers the potential. */
  lemma OwnStepFalls(w: World, step: Step, n: nat)
    requires Inv(w) && Enabled(w, step) && IsOwn(step) && T.SYSTEM < n && forall c | c in w.life :: c < n
    ensures Potential(Next(w, step), n) < Potential(w, n)
    ensures forall c | c in Next(w, step).life :: c < n
  {
    hide Inv, Enabled, Next, Potential;
    if step.HandleSignal? {
      SignalFalls(w, step.id, n);
    } else if step.Emit? {
      EmissionFalls(w, step.id, n);
    } else {
      LifeFalls(w, step, n);
    }
  }

  lemma RunningUnwaited(w: World, step: Step)
    requires Inv(w) && Enabled(w, step) && step.HandleStop?
    ensures step.id !in w.waited
  {
    StopEnabled(w, step.id, step.order, step.preStop, step.fault);
    hide Inv, Enabled, Idle, T.Enabled;
    StopUnwaited(w, step.id);
  }

  lemma PendingStart(w: World, step: Step)
    requires Shape(w) && Enabled(w, step) && (step.Start? || step.Refuse?)
    ensures step.child in w.life && w.life[step.child].creation == Pending
  {
    hide ShapeAt;
    StartNext(w, step);
    hide Enabled, Next;
    assert ShapeAt(w, step.child);
    StartingPending(w, step.child);
  }

  lemma StartingPending(w: World, c: nat)
    requires c in w.tree.created && ShapeAt(w, c) && w.life[c].phase == Starting
    ensures w.life[c].creation == Pending
  {
    hide ActorPath.WellFormed;
  }

  lemma LifeFalls(w: World, step: Step, n: nat)
    requires Inv(w) && Enabled(w, step) && T.SYSTEM < n && forall c | c in w.life :: c < n
    requires IsOwn(step) && !step.HandleSignal? && !step.Emit?
    ensures Potential(Next(w, step), n) < Potential(w, n)
    ensures forall c | c in Next(w, step).life :: c < n
  {
    hide Enabled, Next, Potential, Shape, ChannelsOk, QueuesOk, AllWaitedOk, SignalsOk, EmittedOk, OrderOk, BusyOk,
         RegistryOk, PendingOk, AwaitingOk, RestFalls, Waiting;
    match step {
      case Start(c) =>
        PendingStart(w, step);
        StartTerms(w, step);
        PotentialFalls(w, Next(w, step), c, n);
      case Refuse(c) =>
        PendingStart(w, step);
        StartTerms(w, step);
        PotentialFalls(w, Next(w, step), c, n);
      case Settle(c) =>
        SettleTerms(w, c);
        PotentialFalls(w, Next(w, step), c, n);
      case HandleStop(x, order, preStop, fault) =>
        RunningUnwaited(w, step);
        StopTerms(w, x, order, preStop, fault);
        PotentialFalls(w, Next(w, step), x, n);
      case Drop(x) =>
        DropTerms(w, x);
        PotentialFalls(w, Next(w, step), x, n);
    }
  }

  lemma PotentialFalls(w: World, w': World, x: nat, n: nat)
    requires RestFalls(w, w', x, 1) && w'.life.Keys == w.life.Keys && forall c: nat :: Waiting(w', c) == Waiting(w, c)
    requires forall c | c in w.life :: c < n
    ensures Potential(w', n) < Potential(w, n) && forall c | c in w'.life :: c < n
  {
    assert x in w.life;
    RestSum(w, w', n, x, 1);
    SumSame(c => Waiting(w, c), c => Waiting(w', c), n);
  }

  /** A step that changes one life, and no signals. */
  lemma OneLife(w: World, w': World, x: nat)
    requires x in w.life && w'.life.Keys == w.life.Keys && w'.signals == w.signals
    requires forall c | c in w.life && c != x :: w'.life[c] == w.life[c] && (c in w'.waited <==> c in w.waited)
    requires Rest(w', x) + 1 <= Rest(w, x)
    ensures RestFalls(w, w', x, 1) && forall c: nat :: Waiting(w', c) == Waiting(w, c)
  {
  }

  lemma StartTerms(w: World, step: Step)
    requires Enabled(w, step) && (step.Start? || step.Refuse?) && step.child in w.life
    requires w.life[step.child].creation == Pending
    ensures RestFalls(w, Next(w, step), step.child, 1) && Next(w, step).life.Keys == w.life.Keys
    ensures forall c: nat :: Waiting(Next(w, step), c) == Waiting(w, c)
  {
    StartNext(w, step);
    hide Enabled, Next, RestFalls, Waiting;
    OneLife(w, Next(w, step), step.child);
  }

  lemma SettleTerms(w: World, c: nat)
    requires Enabled(w, Settle(c))
    ensures RestFalls(w, Next(w, Settle(c)), c, 1) && Next(w, Settle(c)).life.Keys == w.life.Keys
    ensures forall d: nat :: Waiting(Next(w, Settle(c)), d) == Waiting(w, d)
  {
    hide T.Apply, T.Enabled, RestFalls, Waiting, Idle;
    OneLife(w, Next(w, Settle(c)), c);
  }

  lemma StopTerms(w: World, x: nat, order: seq<ActorPath>, preStop: bool, fault: bool)
    requires Enabled(w, HandleStop(x, order, preStop, fault)) && x !in w.waited
    ensures var w' := Next(w, HandleStop(x, order, preStop, fault));
            && RestFalls(w, w', x, 1) && w'.life.Keys == w.life.Keys
            && forall c: nat :: Waiting(w', c) == Waiting(w, c)
  {
    StopEnabled(w, x, order, preStop, fault);
    hide Enabled, Next, RestFalls, Waiting, StopTables, T.Enabled, Took, Idle;
    StopNext(w, x, order, preStop, fault);
    StopRest(w, Next(w, HandleStop(x, order, preStop, fault)), x);
    OneLife(w, Next(w, HandleStop(x, order, preStop, fault)), x);
  }

  lemma StopRest(w: World, w': World, x: nat)
    requires x in w.life && x in w'.life && x !in w.waited && w.life[x].phase == Running
    requires w'.life[x].creation == w.life[x].creation
    requires if x in w'.waited then w'.life[x] == w.life[x] else w'.life[x].phase == Left
    ensures Rest(w', x) + 1 <= Rest(w, x)
  {
  }

  lemma DropTerms(w: World, x: nat)
    requires Enabled(w, Drop(x))
    ensures RestFalls(w, Next(w, Drop(x)), x, 1) && Next(w, Drop(x)).life.Keys == w.life.Keys
    ensures forall c: nat :: Waiting(Next(w, Drop(x)), c) == Waiting(w, c)
  {
    DropNext(w, x);
    hide Enabled, Next, RestFalls, Waiting;
    OneLife(w, Next(w, Drop(x)), x);
  }

  lemma SignalFalls(w: World, x: nat, n: nat)
    requires Inv(w) && Enabled(w, HandleSignal(x)) && T.SYSTEM < n && forall c | c in w.life :: c < n
    ensures Potential(Next(w, HandleSignal(x)), n) < Potential(w, n)
    ensures forall c | c in Next(w, HandleSignal(x)).life :: c < n
  {
    hide Inv;
    SignalTerms(w, x);
    var w' := Next(w, HandleSignal(x));
    RestSum(w, w', n, x, 0);
    WaitingSum(w, w', n, x, -1);
  }

  lemma SignalTerms(w: World, x: nat)
    requires Enabled(w, HandleSignal(x))
    ensures var w' := Next(w, HandleSignal(x));
            && RestFalls(w, w', x, 0) && w'.life.Keys == w.life.Keys && x in w.life
            && Waiting(w', x) == Waiting(w, x) - 1 && forall c: nat | c != x :: Waiting(w', c) == Waiting(w, c)
  {
    hide Children, T.Apply, Idle, SignalPath;
  }

  lemma EmissionFalls(w: World, x: nat, n: nat)
    requires Inv(w) && Enabled(w, Emit(x)) && T.SYSTEM < n && forall c | c in w.life :: c < n
    ensures Potential(Next(w, Emit(x)), n) < Potential(w, n)
    ensures forall c | c in Next(w, Emit(x)).life :: c < n
  {
    assert ShapeAt(w, x);
    hide Inv, ShapeAt;
    EmissionTerms(w, x);
    var w', p := Next(w, Emit(x)), Parent(w, x);
    RestSum(w, w', n, x, 2);
    WaitingSum(w, w', n, p, Waiting(w', p) - Waiting(w, p));
  }

  lemma EmissionTerms(w: World, x: nat)
    requires Enabled(w, Emit(x))
    ensures var w', p := Next(w, Emit(x)), Parent(w, x);
            && RestFalls(w, w', x, 2) && w'.life.Keys == w.life.Keys
            && Waiting(w', p) <= Waiting(w, p) + 1 && forall c: nat | c != p :: Waiting(w', c) == Waiting(w, c)
  {
  }

  /** Any continuation of own steps is at most as long as the potential. */
  lemma {:induction false} OwnStepsEnd(w: World, steps: seq<Step>, n: nat)
    requires Inv(w) && ValidFrom(w, steps) && (forall s | s in steps :: IsOwn(s))
    requires T.SYSTEM < n && forall c | c in w.life :: c < n
    ensures |steps| <= Potential(w, n)
    decreases |steps|
  {
    hide Inv, Enabled, Next, Potential, IsOwn;
    if steps != [] {
      assert steps[0] in steps;
      assert forall s | s in steps[1..] :: s in steps;
      OwnStepFalls(w, steps[0], n);
      StepKeeps(w, steps[0]);
      OwnStepsEnd(Next(w, steps[0]), steps[1..], n);
    }
  }

  // ---------- where they end ----------

  /** No Restart is under way. */
  predicate NoRestarts(w: World) {
    forall c | c in w.tree.queues :: Restart !in w.tree.queues[c]
  }

  /** An open start-up can be answered or settled, perhaps further down. */
  lemma {:induction false} StartUpGoesOn(w: World, c: nat, bound: nat) returns (step: Step)
    requires Inv(w) && c in w.life && w.life[c].creation != Settled
    requires forall d | d in w.life :: d < bound
    ensures IsOwn(step) && Enabled(w, step) && !step.HandleStop?
    decreases bound - c
  {
    assert ShapeAt(w, c);
    if w.life[c].creation == Pending {
      if Idle(w, c) {
        step := Start(c);
      } else {
        var d :| d in w.life && d in w.tree.created && w.tree.created[d].parent == c && w.life[d].creation != Settled;
        assert ShapeAt(w, d);
        hide Inv, Enabled, ShapeAt;
        step := StartUpGoesOn(w, d, bound);
      }
    } else {
      assert Acts(w, Parent(w, c));
      hide Inv, ShapeAt, Idle;
      step := Settle(c);
    }
  }

  lemma SettledFacts(w: World, c: nat)
    requires Shape(w) && c in w.life && w.life[c].creation == Settled
    ensures c in w.tree.created && c in w.signals && c != T.SYSTEM && w.life[c].phase != Starting
    ensures w.life[c].phase != Gone ==> c in w.tree.supervisors && c in w.tree.queues
  {
    assert ShapeAt(w, c);
    hide ActorPath.WellFormed;
  }

  lemma RunningGoesOn(w: World, c: nat) returns (step: Step)
    requires NoRestarts(w) && IsRunning(w, c) && Idle(w, c) && (w.tree.queues[c] != [] || w.signals[c] != [])
    ensures IsOwn(step) && Enabled(w, step) && (step.HandleStop? ==> step.preStop)
  {
    hide Idle, Children, ActorPath.Parent;
    if w.tree.queues[c] != [] {
      var order := T.ListingOf(Children(w.tree.registry, w.tree.supervisors[c].path));
      assert w.tree.queues[c][0] in w.tree.queues[c];
      step := HandleStop(c, order, true, true);
    } else {
      step := HandleSignal(c);
    }
  }

  lemma SettledIdle(w: World, c: nat)
    requires forall d | d in w.life :: w.life[d].creation == Settled
    ensures Idle(w, c)
  {
  }

  lemma OffGoesOn(w: World, c: nat) returns (step: Step)
    requires c in w.life && c in w.tree.created && c != T.SYSTEM && c in w.tree.supervisors
    requires w.life[c].phase == Left || w.life[c].phase == Emitted
    ensures IsOwn(step) && Enabled(w, step) && !step.HandleStop?
  {
    step := if w.life[c].phase == Left then Emit(c) else Drop(c);
  }

  /** With all start-ups settled, an actor that is not quiet can go on. */
  lemma ActorGoesOn(w: World, c: nat) returns (step: Step)
    requires Shape(w) && NoRestarts(w) && c in w.life && !QuietActor(w, c)
    requires forall d | d in w.life :: w.life[d].creation == Settled
    ensures IsOwn(step) && Enabled(w, step) && (step.HandleStop? ==> step.preStop)
  {
    hide Shape, NoRestarts, Idle, IsOwn, Enabled;
    SettledFacts(w, c);
    SettledIdle(w, c);
    if w.life[c].phase == Running {
      step := RunningGoesOn(w, c);
    } else {
      step := OffGoesOn(w, c);
    }
  }

  /** While a world is not quiescent and no Restart is under way, the protocol can
      go on by itself; so where it cannot, `ProgressExact` speaks. */
  lemma NotQuiescentGoesOn(w: World) returns (step: Step)
    requires Inv(w) && NoRestarts(w) && !Quiescent(w)
    ensures IsOwn(step) && Enabled(w, step) && (step.HandleStop? ==> step.preStop)
  {
    if c :| c in w.life && w.life[c].creation != Settled {
      var bound := Above(w.life.Keys);
      step := StartUpGoesOn(w, c, bound);
    } else {
      var c :| c in w.life && !QuietActor(w, c);
      step := ActorGoesOn(w, c);
    }
  }
}
