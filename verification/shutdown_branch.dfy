/** How few emissions an actor needs before its own: one branch of the tree
    below it, whatever its other children do.
 */
module ShutdownBranches {
  import opened Wrappers
  import opened Paths
  import opened Supervision
  import opened Shutdown
  import opened ShutdownInvariants
  import opened ShutdownOrders
  import T = SupervisionTrees

  // ---------- continuations ----------

  ghost predicate ValidFrom(w: World, steps: seq<Step>)
    decreases |steps|
  {
    steps == [] || (Enabled(w, steps[0]) && ValidFrom(Next(w, steps[0]), steps[1..]))
  }

  function AfterFrom(w: World, steps: seq<Step>): World
    requires ValidFrom(w, steps)
    decreases |steps|
  {
    if steps == [] then w else AfterFrom(Next(w, steps[0]), steps[1..])
  }

  lemma {:induction false} Continue(w: World, a: seq<Step>, b: seq<Step>)
    requires ValidFrom(w, a) && ValidFrom(AfterFrom(w, a), b)
    ensures ValidFrom(w, a + b) && AfterFrom(w, a + b) == AfterFrom(AfterFrom(w, a), b)
    decreases |a|
  {
    hide Enabled, Next;
    if a == [] {
      assert a + b == b;
    } else {
      Continue(Next(w, a[0]), a[1..], b);
      assert (a + b)[0] == a[0] && (a + b)[1..] == a[1..] + b;
    }
  }

  lemma OneStep(w: World, step: Step)
    requires Enabled(w, step)
    ensures ValidFrom(w, [step]) && AfterFrom(w, [step]) == Next(w, step)
  {
    hide Enabled, Next;
    assert [step][1..] == [];
  }

  lemma StepThen(w: World, step: Step, rest: seq<Step>)
    requires Enabled(w, step) && ValidFrom(Next(w, step), rest)
    ensures ValidFrom(w, [step] + rest) && AfterFrom(w, [step] + rest) == AfterFrom(Next(w, step), rest)
  {
    OneStep(w, step);
    hide Enabled, Next;
    Continue(w, [step], rest);
  }

  lemma ThenStep(w: World, steps: seq<Step>, step: Step)
    requires ValidFrom(w, steps) && Enabled(AfterFrom(w, steps), step)
    ensures ValidFrom(w, steps + [step]) && AfterFrom(w, steps + [step]) == Next(AfterFrom(w, steps), step)
  {
    OneStep(AfterFrom(w, steps), step);
    hide Enabled, Next;
    Continue(w, steps, [step]);
  }

  lemma {:induction false} InvFrom(w: World, steps: seq<Step>)
    requires Inv(w) && ValidFrom(w, steps)
    ensures Inv(AfterFrom(w, steps))
    decreases |steps|
  {
    hide Inv, Enabled, Next;
    if steps != [] {
      StepKeeps(w, steps[0]);
      InvFrom(Next(w, steps[0]), steps[1..]);
    }
  }

  /** A continuation of a run is a run. */
  lemma {:induction false} RunThen(steps: seq<Step>, more: seq<Step>)
    requires ValidRun(steps) && ValidFrom(After(steps), more)
    ensures ValidRun(steps + more) && After(steps + more) == AfterFrom(After(steps), more)
    decreases |more|
  {
    hide Enabled, Next;
    if more == [] {
      assert steps + more == steps;
    } else {
      assert (steps + [more[0]])[..|steps|] == steps;
      RunThen(steps + [more[0]], more[1..]);
      assert steps + [more[0]] + more[1..] == steps + more;
    }
  }

  // ---------- trees at rest ----------

  /** A running actor with nothing to handle. */
  ghost predicate AtRest(w: World, e: nat, queue: seq<ChildAction>) {
    IsRunning(w, e) && Idle(w, e) && w.tree.queues[e] == queue && w.signals[e] == []
  }

  /** Every registered direct child has a channel here and is one of `below`. */
  ghost predicate Covered(w: World, e: nat, below: set<nat>) {
    e in w.tree.supervisors
    && forall p | p in w.tree.registry && p.Parent() == w.tree.supervisors[e].path ::
         p in w.tree.supervisors[e].senders && w.tree.supervisors[e].senders[p] in below
  }

  /** A part of the tree, closed downwards, that has not been told to stop. */
  ghost predicate Calm(w: World, below: set<nat>) {
    forall e | e in below :: AtRest(w, e, []) && Covered(w, e, below)
  }

  /** An actor about to handle its Stop, with the tree below it at rest. */
  ghost predicate AboutToStop(w: World, c: nat, below: set<nat>) {
    AtRest(w, c, [Stop]) && c in w.tree.created && Covered(w, c, below) && c !in below && Calm(w, below)
  }

  /** What a branch that stops leaves alone. */
  ghost predicate Frame(w: World, w': World, below: set<nat>, c: nat)
    requires c in w.tree.created
  {
    Fixed(w, w') && OthersSame(w, w', below, c) && OneSignal(w, w', below, c)
  }

  ghost predicate Fixed(w: World, w': World) {
    && w'.tree.created == w.tree.created && w'.life.Keys == w.life.Keys && w'.signals.Keys == w.signals.Keys
    && w'.tree.supervisors.Keys == w.tree.supervisors.Keys && w'.tree.queues.Keys == w.tree.queues.Keys
    && (forall p | p in w'.tree.registry :: p in w.tree.registry && w'.tree.registry[p] == w.tree.registry[p])
    && (forall e | e in w.life :: w'.life[e].creation == w.life[e].creation)
  }

  ghost predicate OthersSame(w: World, w': World, below: set<nat>, c: nat)
    requires c in w.tree.created
  {
    forall e | e !in below && e != c ::
      && SameActor(w, w', e)
      && (e in w.signals && e != Parent(w, c) ==> e in w'.signals && w'.signals[e] == w.signals[e])
  }

  /** Its creator gets one signal. */
  ghost predicate OneSignal(w: World, w': World, below: set<nat>, c: nat)
    requires c in w.tree.created
  {
    var p := Parent(w, c);
    p !in below && p != c && p in w.tree.supervisors && p in w.signals ==>
      p in w'.signals && w'.signals[p] == w.signals[p] + [Signal(c, w.tree.created[c].path)]
  }

  ghost predicate SameActor(w: World, w': World, e: nat) {
    && (e in w.life ==> e in w'.life && w'.life[e] == w.life[e])
    && (e in w.tree.supervisors ==> e in w'.tree.supervisors && w'.tree.supervisors[e] == w.tree.supervisors[e])
    && (e in w.tree.queues ==> e in w'.tree.queues && w'.tree.queues[e] == w.tree.queues[e])
    && (e in w.waited <==> e in w'.waited)
  }

  /** The actors of a branch from below up to `c`, each the child of the next. */
  ghost predicate Branch(w: World, branch: seq<nat>, below: set<nat>, c: nat) {
    && branch != [] && branch[|branch| - 1] == c
    && (forall k | 0 <= k < |branch| :: branch[k] in w.tree.created)
    && (forall k | 0 <= k < |branch| - 1 :: branch[k] in below)
    && (forall k | 0 <= k < |branch| - 1 :: Parent(w, branch[k]) == branch[k + 1])
  }

  // ---------- one actor without children ----------

  lemma StopsNone(w: World, c: nat)
    requires Shape(w) && AtRest(w, c, [Stop]) && Children(w.tree.registry, w.tree.supervisors[c].path) == {}
    ensures Enabled(w, HandleStop(c, [], true, true))
    ensures Next(w, HandleStop(c, [], true, true)) == Leaves(Took(w, c), c, true)
  {
    var none: seq<ActorPath> := [];
    hide Idle, Shape, ActorPath.Parent;
    assert Lists(none, Children(w.tree.registry, w.tree.supervisors[c].path));
    var s := w.tree.supervisors[c];
    assert w.tree.supervisors[c := s.(senders := s.senders)] == w.tree.supervisors;
    assert T.Apply(w.tree, T.Op.StopAllChildren(c, [])) == w.tree;
  }

  lemma LeafFrame(w: World, c: nat, below: set<nat>)
    requires c in w.life && c in w.tree.created
    ensures Frame(w, Emits(Leaves(Took(w, c), c, true), c), below, c)
  {
    var w1 := Leaves(Took(w, c), c, true);
    var w2 := Emits(w1, c);
    LeftFacts(w, c);
    EmitsFacts(w1, c);
    hide Leaves, Took, Emits;
    forall e | e !in below && e != c ensures SameActor(w, w2, e) {
    }
  }

  lemma LeftFacts(w: World, c: nat)
    requires c in w.life
    ensures var w1 := Leaves(Took(w, c), c, true);
            && w1.tree == w.tree.(queues := w1.tree.queues) && w1.tree.queues.Keys == w.tree.queues.Keys
            && (forall e | e in w.tree.queues && e != c :: w1.tree.queues[e] == w.tree.queues[e])
            && w1.life == w.life[c := w.life[c].(phase := Left, clean := true)]
            && w1.signals == w.signals && w1.waited == w.waited
  {
  }

  lemma EmitsFacts(w: World, c: nat)
    requires c in w.life && c in w.tree.created
    ensures var w1, o := Emits(w, c), w.tree.created[c];
            && w1.tree == w.tree && w1.waited == w.waited
            && w1.life == w.life[c := w.life[c].(phase := Emitted)]
            && w1.signals.Keys == w.signals.Keys
            && (forall e | e in w.signals && e != o.parent :: w1.signals[e] == w.signals[e])
            && (o.parent in w.tree.supervisors && o.parent in w.signals ==>
                  w1.signals[o.parent] == w.signals[o.parent] + [Signal(c, o.path)])
  {
  }

  lemma LeftEmits(w: World, c: nat)
    requires CanEmit(w, c)
    ensures Enabled(w, Emit(c)) && Next(w, Emit(c)) == Emits(w, c)
    ensures Emits(w, c).emitted == w.emitted + [c]
    ensures c in Emits(w, c).life && Emits(w, c).life[c].clean == w.life[c].clean
  {
  }

  lemma LeafEmits(w: World, c: nat)
    requires c in w.life && c in w.tree.created
    ensures var w1 := Leaves(Took(w, c), c, true); CanEmit(w1, c) && w1.life[c].clean && w1.emitted == w.emitted
  {
  }

  lemma LeafStops(w: World, c: nat, below: set<nat>) returns (steps: seq<Step>)
    requires Shape(w) && AtRest(w, c, [Stop]) && c in w.tree.created
    requires Children(w.tree.registry, w.tree.supervisors[c].path) == {}
    ensures ValidFrom(w, steps) && AfterFrom(w, steps).emitted == w.emitted + [c]
    ensures Frame(w, AfterFrom(w, steps), below, c)
    ensures forall s | s in steps :: !s.Spawn?
    ensures c in AfterFrom(w, steps).life && AfterFrom(w, steps).life[c].clean
  {
    var stop := HandleStop(c, [], true, true);
    StopsNone(w, c);
    assert c in w.life && c in Took(w, c).life;
    hide Frame, ValidFrom, AfterFrom, Shape, AtRest, Children, Enabled, Next, Leaves, Took, Emits, CanEmit;
    var w1 := Leaves(Took(w, c), c, true);
    LeafEmits(w, c);
    LeftEmits(w1, c);
    LeafFrame(w, c, below);
    OneStep(w, stop);
    ThenStep(w, [stop], Emit(c));
    steps := [stop] + [Emit(c)];
  }

  // ---------- one actor with children ----------

  /** The channels of the listed children. */
  ghost function Channels(w: World, c: nat, order: seq<ActorPath>): set<nat>
    requires c in w.tree.supervisors && forall p | p in order :: p in w.tree.supervisors[c].senders
  {
    set p | p in order :: w.tree.supervisors[c].senders[p]
  }

  /** The world after an actor told all its children. */
  ghost predicate ToldAll(w: World, w1: World, c: nat, order: seq<ActorPath>)
    requires c in w.tree.supervisors && forall p | p in order :: p in w.tree.supervisors[c].senders
  {
    var kids := Channels(w, c, order);
    && w1.tree.created == w.tree.created && w1.life == w.life && w1.signals == w.signals
    && w1.emitted == w.emitted && w1.system == w.system
    && w1.tree.registry == w.tree.registry - (set p | p in order)
    && w1.tree.supervisors.Keys == w.tree.supervisors.Keys && w1.tree.queues.Keys == w.tree.queues.Keys
    && (forall e | e in w.tree.supervisors && e != c :: w1.tree.supervisors[e] == w.tree.supervisors[e])
    && w1.tree.supervisors[c].path == w.tree.supervisors[c].path
    && (forall e | e in w.tree.queues && e != c ::
          w1.tree.queues[e] == w.tree.queues[e] + if e in kids then [Stop] else [])
    && c in w1.tree.queues && w1.tree.queues[c] == [] && w1.waited == w.waited + {c} && w1.behind == w.behind - {c}
  }

  lemma StopsAllTables(t: Tables, order: seq<ActorPath>)
    requires Distinct(order) && OwnChannels(t)
    requires forall p | p in order :: p in t.senders && Stoppable(t, p)
    ensures var (t', r) := StopEach(t, order);
            && r.Ok? && t'.registry == t.registry - (set p | p in order) && t'.queues.Keys == t.queues.Keys
            && forall e | e in t.queues ::
                 t'.queues[e] == t.queues[e] + if e in (set p | p in order :: t.senders[p]) then [Stop] else []
  {
    var t', n := StopEach(t, order).0, |order|;
    StopEachExact(t, order);
    StoppedAll(t, order);
    assert order[..n] == order;
    forall e | e in t.queues
      ensures t'.queues[e] == t.queues[e] + if e in (set p | p in order :: t.senders[p]) then [Stop] else []
    {
      assert QueueAfter(t, t', order, Stop, e);
      assert Owns(t, order, e) <==> e in (set p | p in order :: t.senders[p]);
    }
  }

  lemma StopsAll(w: World, c: nat, order: seq<ActorPath>)
    requires ChannelsOk(w) && AtRest(w, c, [Stop]) && order != []
    requires Lists(order, Children(w.tree.registry, w.tree.supervisors[c].path))
    requires forall p | p in order :: p in w.tree.supervisors[c].senders
    requires forall p | p in order :: Stoppable(T.TablesOf(w.tree, c), p) && w.tree.supervisors[c].senders[p] != c
    ensures Enabled(w, HandleStop(c, order, true, true))
    ensures ToldAll(w, Next(w, HandleStop(c, order, true, true)), c, order)
  {
    MayStopAll(w, c, order);
    hide ChannelsOk, AtRest, Lists, Children, OwnChannels, Stoppable, Distinct, StopEach, IsRunning, Enabled, Next,
         Waits, Took, ToldAll, T.Enabled, T.Apply;
    OwnTables(w, c);
    StopsAllTables(T.TablesOf(w.tree, c), order);
    StopsTree(w, c, order);
    ToldTook(w, TreeStep(w, T.Op.StopAllChildren(c, order)), c, order);
    StopGoesOn(w, c, order);
  }

  lemma MayStopAll(w: World, c: nat, order: seq<ActorPath>)
    requires AtRest(w, c, [Stop]) && Lists(order, Children(w.tree.registry, w.tree.supervisors[c].path))
    ensures Enabled(w, HandleStop(c, order, true, true)) && T.Enabled(w.tree, T.Op.StopAllChildren(c, order))
    ensures IsRunning(w, c) && w.tree.queues[c] == [Stop] && Distinct(order)
  {
    hide Idle, Children, Distinct, ActorPath.Parent;
  }

  lemma StopGoesOn(w: World, c: nat, order: seq<ActorPath>)
    requires Enabled(w, HandleStop(c, order, true, true)) && order != []
    requires StopEach(T.TablesOf(w.tree, c), order).1.Ok?
    ensures Next(w, HandleStop(c, order, true, true))
         == Waits(Took(TreeStep(w, T.Op.StopAllChildren(c, order)), c), c, false)
  {
    hide StopEach, Took, Waits, T.Apply, Idle, Children, ActorPath.Parent;
  }

  lemma StopsTree(w: World, c: nat, order: seq<ActorPath>)
    requires IsRunning(w, c) && T.Enabled(w.tree, T.Op.StopAllChildren(c, order))
    requires forall p | p in order :: p in w.tree.supervisors[c].senders
    requires var (t', r) := StopEach(T.TablesOf(w.tree, c), order);
             && t'.registry == w.tree.registry - (set p | p in order) && t'.queues.Keys == w.tree.queues.Keys
             && forall e | e in w.tree.queues ::
                  t'.queues[e] == w.tree.queues[e]
                    + if e in (set p | p in order :: w.tree.supervisors[c].senders[p]) then [Stop] else []
    ensures var w0 := TreeStep(w, T.Op.StopAllChildren(c, order));
            && w0 == w.(tree := w0.tree) && w0.tree.created == w.tree.created
            && w0.tree.registry == w.tree.registry - (set p | p in order)
            && w0.tree.supervisors.Keys == w.tree.supervisors.Keys
            && (forall e | e in w.tree.supervisors && e != c :: w0.tree.supervisors[e] == w.tree.supervisors[e])
            && w0.tree.supervisors[c].path == w.tree.supervisors[c].path
            && w0.tree.queues.Keys == w.tree.queues.Keys
            && (forall e | e in w.tree.queues ::
                  w0.tree.queues[e] == w.tree.queues[e] + if e in Channels(w, c, order) then [Stop] else [])
  {
    hide StopEach, ActorPath.Parent, Children, Lists;
  }

  lemma ToldTook(w: World, w0: World, c: nat, order: seq<ActorPath>)
    requires IsRunning(w, c) && w.tree.queues[c] == [Stop]
    requires forall p | p in order :: p in w.tree.supervisors[c].senders && w.tree.supervisors[c].senders[p] != c
    requires w0 == w.(tree := w0.tree) && w0.tree.created == w.tree.created
    requires w0.tree.registry == w.tree.registry - (set p | p in order)
    requires w0.tree.supervisors.Keys == w.tree.supervisors.Keys
    requires forall e | e in w.tree.supervisors && e != c :: w0.tree.supervisors[e] == w.tree.supervisors[e]
    requires w0.tree.supervisors[c].path == w.tree.supervisors[c].path
    requires w0.tree.queues.Keys == w.tree.queues.Keys
    requires forall e | e in w.tree.queues ::
               w0.tree.queues[e] == w.tree.queues[e] + if e in Channels(w, c, order) then [Stop] else []
    ensures ToldAll(w, Waits(Took(w0, c), c, false), c, order)
  {
    assert c !in Channels(w, c, order);
    assert w0.tree.queues[c] == [Stop];
    assert Took(w0, c).tree.queues[c] == [];
  }

  lemma KidsKnown(w: World, c: nat, order: seq<ActorPath>, below: set<nat>)
    requires Inv(w) && AboutToStop(w, c, below)
    requires Lists(order, Children(w.tree.registry, w.tree.supervisors[c].path))
    ensures forall p | p in order :: p in w.tree.supervisors[c].senders
    ensures forall p | p in order :: Stoppable(T.TablesOf(w.tree, c), p) && w.tree.supervisors[c].senders[p] != c
    ensures forall e | e in Channels(w, c, order) :: e in below && e in w.tree.created && Parent(w, e) == c && e > c
  {
    hide Idle, ActorPath.Parent, QueuesOk, AllWaitedOk, SignalsOk, EmittedOk, OrderOk, BusyOk, RegistryOk, PendingOk,
         AwaitingOk;
    forall p | p in order
      ensures p in w.tree.supervisors[c].senders && Stoppable(T.TablesOf(w.tree, c), p)
      ensures var e := w.tree.supervisors[c].senders[p];
              e != c && e in below && e in w.tree.created && Parent(w, e) == c && e > c
    {
      assert p in Children(w.tree.registry, w.tree.supervisors[c].path);
      var e := w.tree.supervisors[c].senders[p];
      assert AtRest(w, e, []);
      assert ChannelOk(w, c, p);
      assert ShapeAt(w, e);
    }
  }

  lemma StillAtRest(w: World, w1: World, c: nat, order: seq<ActorPath>, e: nat)
    requires c in w.tree.supervisors && forall p | p in order :: p in w.tree.supervisors[c].senders
    requires ToldAll(w, w1, c, order) && AtRest(w, e, []) && e != c
    ensures AtRest(w1, e, if e in Channels(w, c, order) then [Stop] else [])
  {
    hide Channels, Idle;
    SameIdle(w, w1, e);
  }

  /** After that, any of the children is about to stop, with what was below it
      still at rest. */
  lemma KidAboutToStop(w: World, w1: World, c: nat, order: seq<ActorPath>, below: set<nat>, d: nat)
    requires Inv(w) && AboutToStop(w, c, below)
    requires Lists(order, Children(w.tree.registry, w.tree.supervisors[c].path))
    requires forall p | p in order :: p in w.tree.supervisors[c].senders
    requires d in Channels(w, c, order) && ToldAll(w, w1, c, order)
    ensures AboutToStop(w1, d, below - Channels(w, c, order))
  {
    KidsKnown(w, c, order, below);
    hide Inv, Channels, Covered, ToldAll, AtRest, Lists, Children;
    var below' := below - Channels(w, c, order);
    forall e | e in below
      ensures Covered(w1, e, below') && AtRest(w1, e, if e in Channels(w, c, order) then [Stop] else [])
    {
      StillCovered(w, w1, c, order, below, e);
      StillAtRest(w, w1, c, order, e);
    }
    assert d in below && d !in below';
    assert d in w1.tree.created by { SameCreated(w, w1, c, order); }
    assert forall e | e in below' :: e in below && e !in Channels(w, c, order);
  }

  lemma SameCreated(w: World, w1: World, c: nat, order: seq<ActorPath>)
    requires c in w.tree.supervisors && forall p | p in order :: p in w.tree.supervisors[c].senders
    requires ToldAll(w, w1, c, order)
    ensures w1.tree.created == w.tree.created
  {
  }

  lemma NoneRegistered(w: World, w1: World, c: nat, order: seq<ActorPath>)
    requires c in w.tree.supervisors && c in w1.tree.supervisors
    requires w1.tree.supervisors[c].path == w.tree.supervisors[c].path
    requires Lists(order, Children(w.tree.registry, w.tree.supervisors[c].path))
    requires w1.tree.registry == w.tree.registry - (set p | p in order)
    ensures Children(w1.tree.registry, w1.tree.supervisors[c].path) == {}
  {
    var path := w.tree.supervisors[c].path;
    forall p ensures p !in Children(w1.tree.registry, path) {
      assert p in Children(w.tree.registry, path) <==> p in order;
    }
  }

  lemma StillCovered(w: World, w1: World, c: nat, order: seq<ActorPath>, below: set<nat>, e: nat)
    requires Inv(w) && AboutToStop(w, c, below) && e in below
    requires forall p | p in order :: p in w.tree.supervisors[c].senders
    requires ToldAll(w, w1, c, order)
    ensures Covered(w1, e, below - Channels(w, c, order))
  {
    hide ActorPath.Parent, QueuesOk, AllWaitedOk, SignalsOk, EmittedOk, OrderOk, BusyOk, RegistryOk, PendingOk,
         AwaitingOk;
    assert Covered(w, e, below);
    forall p | p in w1.tree.registry && p.Parent() == w1.tree.supervisors[e].path
      ensures p in w1.tree.supervisors[e].senders
      ensures w1.tree.supervisors[e].senders[p] in below - Channels(w, c, order)
    {
      var f := w.tree.supervisors[e].senders[p];
      assert ChannelOk(w, e, p);
      forall q | q in order ensures w.tree.supervisors[c].senders[q] != f {
        assert ChannelOk(w, c, q);
      }
    }
  }

  // ---------- the last two steps ----------

  /** Between these worlds `c` handled the signal of `d`, left and emitted. */
  ghost predicate Ended(w: World, w': World, c: nat)
    requires c in w.life && c in w.tree.created && c in w.signals && w.signals[c] != []
  {
    && w'.tree.created == w.tree.created && w'.tree.queues == w.tree.queues && w'.waited == w.waited
    && w'.system == w.system
    && w'.tree.supervisors.Keys == w.tree.supervisors.Keys
    && (forall e | e in w.tree.supervisors && e != c :: w'.tree.supervisors[e] == w.tree.supervisors[e])
    && (forall p | p in w'.tree.registry :: p in w.tree.registry && w'.tree.registry[p] == w.tree.registry[p])
    && w'.life == w.life[c := w.life[c].(phase := Emitted, clean := true)]
    && w'.emitted == w.emitted + [c]
    && w'.signals.Keys == w.signals.Keys
    && (forall e | e in w.signals && e != c && e != Parent(w, c) :: w'.signals[e] == w.signals[e])
    && (Parent(w, c) != c && Parent(w, c) in w.tree.supervisors && Parent(w, c) in w.signals ==>
          w'.signals[Parent(w, c)] == w.signals[Parent(w, c)] + [Signal(c, w.tree.created[c].path)])
  }

  /** The world after `c` took its oldest signal and left. */
  function LeftOnSignal(w: World, c: nat): World
    requires c in w.life && c in w.tree.supervisors && c in w.signals && w.signals[c] != []
  {
    var s := w.tree.supervisors[c];
    var p := SignalPath(w, c);
    w.(tree := w.tree.(registry := w.tree.registry - {p},
         supervisors := w.tree.supervisors[c := s.(senders := s.senders - {p})]),
       signals := w.signals[c := w.signals[c][1..]],
       life := w.life[c := w.life[c].(phase := Left, clean := true)])
  }

  lemma SignalLeaves(w: World, c: nat)
    requires Enabled(w, HandleSignal(c))
    requires Children(w.tree.registry - {SignalPath(w, c)}, w.tree.supervisors[c].path) == {}
    ensures Next(w, HandleSignal(c)) == LeftOnSignal(w, c)
  {
    hide Idle, Children, SignalPath, ActorPath.Parent;
  }

  lemma LastSignal(w: World, c: nat)
    requires Shape(w) && IsRunning(w, c) && Idle(w, c) && w.signals[c] != []
    requires Children(w.tree.registry, w.tree.supervisors[c].path) == {}
    ensures Enabled(w, HandleSignal(c)) && Next(w, HandleSignal(c)) == LeftOnSignal(w, c)
  {
    var path := w.tree.supervisors[c].path;
    forall p ensures p !in Children(w.tree.registry - {SignalPath(w, c)}, path) {
      assert p !in Children(w.tree.registry, path);
    }
    hide Idle, Shape, Children, SignalPath, ActorPath.Parent, Next, LeftOnSignal;
    SignalLeaves(w, c);
  }

  lemma LastEmission(w: World, c: nat)
    requires c in w.life && c in w.tree.created && c in w.tree.supervisors && c in w.signals && w.signals[c] != []
    ensures CanEmit(LeftOnSignal(w, c), c) && Ended(w, Emits(LeftOnSignal(w, c), c), c)
  {
    hide SignalPath;
  }

  lemma EndsBranch(w: World, c: nat) returns (steps: seq<Step>)
    requires Shape(w) && IsRunning(w, c) && Idle(w, c) && w.signals[c] != [] && c in w.tree.created
    requires Children(w.tree.registry, w.tree.supervisors[c].path) == {}
    ensures ValidFrom(w, steps) && Ended(w, AfterFrom(w, steps), c)
    ensures forall s | s in steps :: !s.Spawn?
  {
    LastSignal(w, c);
    LastEmission(w, c);
    LeftEmits(LeftOnSignal(w, c), c);
    hide LeftOnSignal, Ended, ValidFrom, AfterFrom, Shape, Children, Enabled, Next, Emits, CanEmit, Idle;
    OneStep(w, HandleSignal(c));
    ThenStep(w, [HandleSignal(c)], Emit(c));
    steps := [HandleSignal(c)] + [Emit(c)];
  }

  // ---------- one branch ----------

  lemma FrameSignal(w: World, w1: World, w2: World, c: nat, order: seq<ActorPath>, below: set<nat>, d: nat)
    requires c in w.life && c in w.tree.supervisors && c in w.signals && c !in below
    requires forall p | p in order :: p in w.tree.supervisors[c].senders
    requires ToldAll(w, w1, c, order) && d in w1.tree.created && Parent(w1, d) == c && d != c
    requires Frame(w1, w2, below - Channels(w, c, order), d) && w.signals[c] == []
    ensures c in w2.life && c in w2.signals && w2.signals[c] == [Signal(d, w1.tree.created[d].path)]
  {
    hide Channels, OthersSame;
  }

  lemma FrameFixed(w: World, w1: World, w2: World, w3: World, c: nat, order: seq<ActorPath>)
    requires c in w.tree.supervisors && forall p | p in order :: p in w.tree.supervisors[c].senders
    requires ToldAll(w, w1, c, order) && Fixed(w1, w2)
    requires c in w2.life && c in w2.tree.created && c in w2.signals && w2.signals[c] != [] && Ended(w2, w3, c)
    ensures Fixed(w, w3)
  {
    hide Channels;
  }

  lemma FrameActor(w: World, w1: World, w2: World, w3: World, c: nat, order: seq<ActorPath>, below: set<nat>, d: nat,
                   e: nat)
    requires c in w.tree.supervisors && forall p | p in order :: p in w.tree.supervisors[c].senders
    requires ToldAll(w, w1, c, order) && d in w1.tree.created && Parent(w1, d) == c
    requires OthersSame(w1, w2, below - Channels(w, c, order), d)
    requires c in w2.life && c in w2.tree.created && c in w2.signals && w2.signals[c] != [] && Ended(w2, w3, c)
    requires e !in below && e != c && e != d && e !in Channels(w, c, order)
    ensures SameActor(w, w3, e)
    ensures e in w.signals && e != Parent(w2, c) ==> e in w3.signals && w3.signals[e] == w.signals[e]
    ensures e in w.signals && e == Parent(w2, c) && e in w2.tree.supervisors ==>
              e in w3.signals && w3.signals[e] == w.signals[e] + [Signal(c, w2.tree.created[c].path)]
  {
    hide Channels;
    assert SameActor(w1, w2, e);
  }

  /** From telling the children, over one child's branch, to the end. */
  lemma FramesCompose(w: World, w1: World, w2: World, w3: World, c: nat, order: seq<ActorPath>, below: set<nat>, d: nat)
    requires c in w.life && c in w.tree.created && c in w.tree.supervisors && c in w.signals
    requires forall p | p in order :: p in w.tree.supervisors[c].senders
    requires ToldAll(w, w1, c, order) && Channels(w, c, order) <= below
    requires d in below && d in w1.tree.created && Parent(w1, d) == c && c !in below
    requires Frame(w1, w2, below - Channels(w, c, order), d)
    requires w.signals[c] == [] && Parent(w, c) != c
    ensures c in w2.life && c in w2.signals && w2.signals[c] == [Signal(d, w1.tree.created[d].path)]
    ensures Ended(w2, w3, c) ==> Frame(w, w3, below, c)
  {
    FrameSignal(w, w1, w2, c, order, below, d);
    if Ended(w2, w3, c) {
      SameMade(w, w1, w2, c, order, below, d);
      hide ToldAll, Channels, SameActor, Ended, Fixed;
      FrameFixed(w, w1, w2, w3, c, order);
      forall e | e !in below && e != c
        ensures SameActor(w, w3, e)
        ensures e in w.signals && e != Parent(w, c) ==> e in w3.signals && w3.signals[e] == w.signals[e]
        ensures e in w.signals && e == Parent(w, c) && e in w.tree.supervisors ==>
                  e in w3.signals && w3.signals[e] == w.signals[e] + [Signal(c, w.tree.created[c].path)]
      {
        FrameActor(w, w1, w2, w3, c, order, below, d, e);
      }
    }
  }

  lemma SameMade(w: World, w1: World, w2: World, c: nat, order: seq<ActorPath>, below: set<nat>, d: nat)
    requires c in w.tree.supervisors && forall p | p in order :: p in w.tree.supervisors[c].senders
    requires ToldAll(w, w1, c, order) && d in w1.tree.created && Fixed(w1, w2)
    ensures w2.tree.created == w.tree.created && w2.tree.supervisors.Keys == w.tree.supervisors.Keys
  {
  }

  lemma AfterTelling(w: World, c: nat, below: set<nat>, order: seq<ActorPath>, d: nat)
    requires Inv(w) && AboutToStop(w, c, below) && order != []
    requires Lists(order, Children(w.tree.registry, w.tree.supervisors[c].path))
    requires forall p | p in order :: p in w.tree.supervisors[c].senders
    requires d in Channels(w, c, order)
    ensures Enabled(w, HandleStop(c, order, true, true))
    ensures var w1 := Next(w, HandleStop(c, order, true, true));
            && Inv(w1) && ToldAll(w, w1, c, order) && AboutToStop(w1, d, below - Channels(w, c, order))
            && c in w1.tree.supervisors && Children(w1.tree.registry, w1.tree.supervisors[c].path) == {}
            && w1.emitted == w.emitted && w1.tree.created == w.tree.created
  {
    KidsKnown(w, c, order, below);
    StopsAll(w, c, order);
    var w1 := Next(w, HandleStop(c, order, true, true));
    hide Inv, Children, Next, Enabled, Covered, Calm, Channels, AtRest;
    StepKeeps(w, HandleStop(c, order, true, true));
    KidAboutToStop(w, w1, c, order, below, d);
    NoneRegistered(w, w1, c, order);
  }

  /** The actor goes on when the branch of `d` has stopped. */
  lemma Resumes(w: World, w1: World, w2: World, c: nat, order: seq<ActorPath>, below: set<nat>, d: nat)
    requires Inv(w) && AboutToStop(w, c, below) && Inv(w2)
    requires forall p | p in order :: p in w.tree.supervisors[c].senders
    requires ToldAll(w, w1, c, order) && Channels(w, c, order) <= below
    requires d in below && d in w.tree.created && Parent(w, d) == c
    requires c in w1.tree.supervisors && Children(w1.tree.registry, w1.tree.supervisors[c].path) == {}
    requires Frame(w1, w2, below - Channels(w, c, order), d)
    ensures Shape(w2) && IsRunning(w2, c) && Idle(w2, c) && w2.signals[c] != [] && c in w2.tree.created
    ensures Children(w2.tree.registry, w2.tree.supervisors[c].path) == {}
  {
    hide Channels, ChannelsOk, QueuesOk, AllWaitedOk, SignalsOk, EmittedOk, OrderOk, BusyOk, RegistryOk, PendingOk,
         AwaitingOk, Covered, ShapeAt, ActorPath.Parent;
    assert SameActor(w1, w2, c);
    forall p ensures p !in Children(w2.tree.registry, w2.tree.supervisors[c].path) {
      assert p !in Children(w1.tree.registry, w1.tree.supervisors[c].path);
    }
  }

  /** The continuation stops `c`, and of the tree below it only the branch emits. */
  ghost predicate StopsWith(w: World, steps: seq<Step>, branch: seq<nat>, below: set<nat>, c: nat)
    requires c in w.tree.created
  {
    && ValidFrom(w, steps) && (forall s | s in steps :: !s.Spawn?)
    && Branch(w, branch, below, c)
    && var w' := AfterFrom(w, steps);
       && w'.emitted == w.emitted + branch && Frame(w, w', below, c)
       && c in w'.life && w'.life[c].clean
  }

  lemma LeafBranch(w: World, c: nat, below: set<nat>)
    requires c in w.tree.created
    ensures Branch(w, [c], below, c)
  {
  }

  lemma LeafStopsWith(w: World, c: nat, below: set<nat>) returns (steps: seq<Step>)
    requires Inv(w) && AboutToStop(w, c, below) && Children(w.tree.registry, w.tree.supervisors[c].path) == {}
    ensures c in w.tree.created && StopsWith(w, steps, [c], below, c)
  {
    hide Inv, Frame, ValidFrom, AfterFrom, Children, Shape, AtRest, Covered, Calm, Branch;
    RestFacts(w, c, below);
    steps := LeafStops(w, c, below);
    LeafBranch(w, c, below);
  }

  lemma RestFacts(w: World, c: nat, below: set<nat>)
    requires Inv(w) && AboutToStop(w, c, below)
    ensures Shape(w) && c in w.life && c in w.tree.created && c in w.tree.supervisors && c in w.signals
    ensures w.signals[c] == [] && Parent(w, c) != c && c !in below
  {
    assert ShapeAt(w, c);
    hide Idle, ShapeAt;
  }

  lemma LongerBranch(w: World, w1: World, c: nat, below: set<nat>, below': set<nat>, branch: seq<nat>, d: nat)
    requires w1.tree.created == w.tree.created && c in w.tree.created && below' <= below
    requires Branch(w1, branch, below', d) && d in below && Parent(w, d) == c
    ensures Branch(w, branch + [c], below, c) && (branch + [c])[|branch + [c]| - 2] == d
  {
    var longer := branch + [c];
    forall k | 0 <= k < |longer| - 1 ensures longer[k] in below && Parent(w, longer[k]) == longer[k + 1] {
      assert longer[k] == branch[k];
      if k == |branch| - 1 {
        assert longer[k + 1] == c;
      } else {
        assert longer[k + 1] == branch[k + 1] && branch[k] in below';
      }
    }
  }

  /** One branch is enough: from every state in which an actor is about to handle
      Stop, over any tree at rest below it, the run can go on so that the actor
      leaves as stopped and emits, while of all actors below it only those on one
      branch have emitted. */
  lemma {:induction false} BranchStops(w: World, c: nat, below: set<nat>) returns (steps: seq<Step>, branch: seq<nat>)
    requires Inv(w) && AboutToStop(w, c, below)
    ensures c in w.tree.created && StopsWith(w, steps, branch, below, c)
    decreases below, 1
  {
    var order := T.ListingOf(Children(w.tree.registry, w.tree.supervisors[c].path));
    if order == [] {
      NoneListed(Children(w.tree.registry, w.tree.supervisors[c].path));
      steps := LeafStopsWith(w, c, below);
      branch := [c];
    } else {
      steps, branch := BranchThrough(w, c, below, order);
    }
  }

  /** The branch may go through any of the children. */
  lemma {:induction false} BranchThrough(w: World, c: nat, below: set<nat>, order: seq<ActorPath>)
    returns (steps: seq<Step>, branch: seq<nat>)
    requires Inv(w) && AboutToStop(w, c, below) && order != []
    requires Lists(order, Children(w.tree.registry, w.tree.supervisors[c].path))
    ensures c in w.tree.created && StopsWith(w, steps, branch, below, c)
    ensures order[0] in w.tree.supervisors[c].senders
    ensures |branch| >= 2 && branch[|branch| - 2] == w.tree.supervisors[c].senders[order[0]]
    decreases below, 0
  {
    hide Inv, AboutToStop, Children, Lists, ToldAll, Channels, Enabled, Next, Stoppable, Frame, StopsWith, ValidFrom,
         AfterFrom;
    RestFacts(w, c, below);
    var d := FirstKid(w, c, order, below);
    AfterTelling(w, c, below, order, d);
    var stop := HandleStop(c, order, true, true);
    var w1, below' := Next(w, stop), below - Channels(w, c, order);
    var steps1, branch1 := BranchStops(w1, d, below');
    var steps2 := AfterBranch(w, w1, c, below, order, d, steps1, branch1);
    Assemble(w, c, below, order, d, steps1, branch1, steps2);
    steps, branch := [stop] + (steps1 + steps2), branch1 + [c];
  }

  lemma FirstKid(w: World, c: nat, order: seq<ActorPath>, below: set<nat>) returns (d: nat)
    requires Inv(w) && AboutToStop(w, c, below) && order != []
    requires c in w.tree.supervisors && Lists(order, Children(w.tree.registry, w.tree.supervisors[c].path))
    ensures forall p | p in order :: p in w.tree.supervisors[c].senders
    ensures order[0] in w.tree.supervisors[c].senders && d == w.tree.supervisors[c].senders[order[0]]
    ensures d in Channels(w, c, order) && Channels(w, c, order) <= below
    ensures d in below && d in w.tree.created && Parent(w, d) == c
    ensures below - Channels(w, c, order) < below
  {
    KidsKnown(w, c, order, below);
    d := w.tree.supervisors[c].senders[order[0]];
    assert order[0] in order;
    assert d in Channels(w, c, order);
  }

  lemma AfterBranch(w: World, w1: World, c: nat, below: set<nat>, order: seq<ActorPath>, d: nat,
                    steps1: seq<Step>, branch1: seq<nat>) returns (steps2: seq<Step>)
    requires Inv(w) && AboutToStop(w, c, below) && Inv(w1)
    requires forall p | p in order :: p in w.tree.supervisors[c].senders
    requires ToldAll(w, w1, c, order) && Channels(w, c, order) <= below
    requires d in below && d in w.tree.created && Parent(w, d) == c
    requires c in w1.tree.supervisors && Children(w1.tree.registry, w1.tree.supervisors[c].path) == {}
    requires d in w1.tree.created && StopsWith(w1, steps1, branch1, below - Channels(w, c, order), d)
    ensures ValidFrom(w1, steps1)
    ensures c in AfterFrom(w1, steps1).life && c in AfterFrom(w1, steps1).tree.created
    ensures c in AfterFrom(w1, steps1).signals && AfterFrom(w1, steps1).signals[c] != []
    ensures ValidFrom(AfterFrom(w1, steps1), steps2)
    ensures Ended(AfterFrom(w1, steps1), AfterFrom(AfterFrom(w1, steps1), steps2), c)
    ensures forall s | s in steps2 :: !s.Spawn?
  {
    hide Inv, AboutToStop, Children, ToldAll, Channels, Frame, ValidFrom, AfterFrom, Branch, Idle, Ended;
    var w2 := AfterFrom(w1, steps1);
    InvFrom(w1, steps1);
    Resumes(w, w1, w2, c, order, below, d);
    steps2 := EndsBranch(w2, c);
  }

  lemma Assemble(w: World, c: nat, below: set<nat>, order: seq<ActorPath>, d: nat,
                 steps1: seq<Step>, branch1: seq<nat>, steps2: seq<Step>)
    requires Shape(w) && c in w.life && c in w.tree.created && c in w.tree.supervisors && c in w.signals
    requires w.signals[c] == [] && Parent(w, c) != c && c !in below
    requires forall p | p in order :: p in w.tree.supervisors[c].senders
    requires Channels(w, c, order) <= below && d in below && d in w.tree.created && Parent(w, d) == c
    requires Enabled(w, HandleStop(c, order, true, true))
    requires var w1 := Next(w, HandleStop(c, order, true, true));
             && ToldAll(w, w1, c, order) && w1.emitted == w.emitted && w1.tree.created == w.tree.created
             && StopsWith(w1, steps1, branch1, below - Channels(w, c, order), d)
             && var w2 := AfterFrom(w1, steps1);
                && c in w2.life && c in w2.tree.created && c in w2.signals && w2.signals[c] != []
                && ValidFrom(w2, steps2) && Ended(w2, AfterFrom(w2, steps2), c)
    requires forall s | s in steps2 :: !s.Spawn?
    ensures StopsWith(w, [HandleStop(c, order, true, true)] + (steps1 + steps2), branch1 + [c], below, c)
    ensures |branch1 + [c]| >= 2 && (branch1 + [c])[|branch1 + [c]| - 2] == d
  {
    hide Shape, Channels, Frame, ValidFrom, AfterFrom, Branch, ToldAll, Enabled, Next;
    var stop := HandleStop(c, order, true, true);
    var w1 := Next(w, stop);
    var w2 := AfterFrom(w1, steps1);
    var w3 := AfterFrom(w2, steps2);
    FramesCompose(w, w1, w2, w3, c, order, below, d);
    LongerBranch(w, w1, c, below, below - Channels(w, c, order), branch1, d);
    Continue(w1, steps1, steps2);
    StepThen(w, stop, steps1 + steps2);
    assert w.emitted + (branch1 + [c]) == (w.emitted + branch1) + [c];
    BranchLong(w1, branch1, below - Channels(w, c, order), d);
  }

  lemma BranchLong(w: World, branch: seq<nat>, below: set<nat>, d: nat)
    requires Branch(w, branch, below, d)
    ensures |branch| >= 1
  {
  }
}
