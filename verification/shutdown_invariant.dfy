/** Every step of the stop protocol keeps its invariant. */
module ShutdownInvariants {
  import opened Wrappers
  import opened Paths
  import opened Supervision
  import opened Shutdown
  import T = SupervisionTrees

  // ---------- serving children ----------

  /** A handler dropped some children, some of them with a Stop. */
  ghost predicate Serves(t: Tables, t': Tables) {
    && (forall p | p in t'.registry :: p in t.registry && t'.registry[p] == t.registry[p])
    && (forall p | p in t'.senders :: p in t.senders && t'.senders[p] == t.senders[p])
    && t'.queues.Keys == t.queues.Keys
    && (forall id | id in t.queues :: ServedQueue(t, t', id))
  }

  ghost predicate ServedQueue(t: Tables, t': Tables, id: nat)
    requires id in t.queues && id in t'.queues
  {
    || t'.queues[id] == t.queues[id]
    || (t'.queues[id] == t.queues[id] + [Stop] && Dropped(t, t', id))
  }

  ghost predicate Dropped(t: Tables, t': Tables, id: nat) {
    exists p :: p in t.senders && t.senders[p] == id && p !in t'.senders
  }

  lemma DeregisterServes(t: Tables, p: ActorPath)
    ensures Serves(t, Deregister(t, p))
  {
  }

  lemma StopOneServes(t: Tables, p: ActorPath)
    ensures Serves(t, StopOne(t, p).0)
  {
  }

  lemma StopEachServes(t: Tables, order: seq<ActorPath>)
    requires Distinct(order) && OwnChannels(t)
    ensures Serves(t, StopEach(t, order).0)
  {
    var t', n := StopEach(t, order).0, Stopped(t, order);
    StopEachExact(t, order);
    T.StopEachRemoves(t, order);
    forall id | id in t.queues ensures ServedQueue(t, t', id) {
      assert QueueAfter(t, t', order[..n], Stop, id);
      if Owns(t, order[..n], id) {
        var p :| p in order[..n] && p in t.senders && t.senders[p] == id;
        assert p in Visited(t, order);
      }
    }
  }

  lemma OwnTables(w: World, s: nat)
    requires ChannelsOk(w) && s in w.tree.supervisors
    ensures OwnChannels(T.TablesOf(w.tree, s))
  {
    var senders := w.tree.supervisors[s].senders;
    forall p, q | p in senders && q in senders && p != q ensures senders[p] != senders[q] {
      assert ChannelOk(w, s, p) && ChannelOk(w, s, q);
    }
  }

  // ---------- worlds that differ in the tables ----------

  /** Who is still in some table was not dropped from one. */
  lemma NotDropped(w: World, s: nat, t': Tables, r: nat, p: ActorPath)
    requires ChannelsOk(w) && s in w.tree.supervisors
    requires var w' := T.WithTables(w.tree, s, t');
             r in w'.supervisors && p in w'.supervisors[r].senders
    requires r in w.tree.supervisors && p in w.tree.supervisors[r].senders
    ensures !Dropped(T.TablesOf(w.tree, s), t', w.tree.supervisors[r].senders[p])
  {
    var senders, c := w.tree.supervisors[s].senders, w.tree.supervisors[r].senders[p];
    assert ChannelOk(w, r, p);
    forall q | q in senders && senders[q] == c ensures q in t'.senders {
      assert ChannelOk(w, s, q);
    }
  }

  lemma ServedChannels(w: World, s: nat, t': Tables)
    requires ChannelsOk(w) && s in w.tree.supervisors && Serves(T.TablesOf(w.tree, s), t')
    ensures ChannelsOk(w.(tree := T.WithTables(w.tree, s, t')))
  {
    var w' := w.(tree := T.WithTables(w.tree, s, t'));
    forall r, p | r in w'.tree.supervisors && p in w'.tree.supervisors[r].senders ensures ChannelOk(w', r, p) {
      assert ChannelOk(w, r, p);
      NotDropped(w, s, t', r, p);
      assert forall id | id in w.tree.queues :: ServedQueue(T.TablesOf(w.tree, s), t', id);
    }
  }

  lemma ServedQueues(w: World, s: nat, t': Tables)
    requires ChannelsOk(w) && QueuesOk(w) && s in w.tree.supervisors && Serves(T.TablesOf(w.tree, s), t')
    ensures QueuesOk(w.(tree := T.WithTables(w.tree, s, t')))
  {
    var w' := w.(tree := T.WithTables(w.tree, s, t'));
    forall c | c in w'.tree.queues ensures QueueOk(w', c) {
      assert QueueOk(w, c);
      if t'.queues[c] != w.tree.queues[c] {
        assert ServedQueue(T.TablesOf(w.tree, s), t', c);
        var q :| q in w.tree.supervisors[s].senders && w.tree.supervisors[s].senders[q] == c && q !in t'.senders;
        assert ChannelOk(w, s, q);
      }
    }
  }

  /** What a queue holds is never lost by serving others. */
  ghost predicate QueuesGrow(w: World, w': World) {
    && w'.tree.queues.Keys == w.tree.queues.Keys
    && forall c | c in w.tree.queues && Stop in w.tree.queues[c] :: Stop in w'.tree.queues[c]
  }

  lemma AwaitingGrows(w: World, w': World)
    requires AwaitingOk(w) && QueuesGrow(w, w')
    requires w'.tree.created == w.tree.created && w'.life == w.life && w'.signals == w.signals
    requires w'.waited == w.waited && w'.behind == w.behind && w'.emitted == w.emitted
    ensures AwaitingOk(w')
  {
    forall x | x in w'.waited && x in w'.life && w'.life[x].phase == Running && x !in w'.behind
      ensures exists c :: Awaited(w', x, c)
    {
      var c :| Awaited(w, x, c);
      assert Awaited(w', x, c);
    }
  }

  /** Worlds with the same actors and history, whose tables lost entries. */
  ghost predicate TablesShrink(w: World, w': World) {
    && w'.tree.created == w.tree.created && w'.tree.supervisors.Keys == w.tree.supervisors.Keys
    && (forall p | p in w'.tree.registry :: p in w.tree.registry && w'.tree.registry[p] == w.tree.registry[p])
    && (forall s | s in w.tree.supervisors ::
          && w'.tree.supervisors[s].path == w.tree.supervisors[s].path
          && (forall p | p in w'.tree.supervisors[s].senders ::
                p in w.tree.supervisors[s].senders
                && w'.tree.supervisors[s].senders[p] == w.tree.supervisors[s].senders[p]))
    && w'.life == w.life && w'.signals == w.signals
    && w'.waited == w.waited && w'.behind == w.behind && w'.emitted == w.emitted
  }

  lemma ShrinkShapeAt(w: World, w': World, c: nat)
    requires TablesShrink(w, w') && w'.tree.queues.Keys == w.tree.queues.Keys
    requires c in w.tree.created && ShapeAt(w, c)
    ensures ShapeAt(w', c)
  {
    hide ActorPath.WellFormed;
  }

  lemma ShrinkShape(w: World, w': World)
    requires Shape(w) && TablesShrink(w, w') && w'.tree.queues.Keys == w.tree.queues.Keys
    ensures Shape(w')
  {
    hide ShapeAt;
    forall c | c in w'.tree.created ensures ShapeAt(w', c) {
      ShrinkShapeAt(w, w', c);
    }
  }

  lemma ShrinkKeeps(w: World, w': World)
    requires Inv(w) && TablesShrink(w, w') && QueuesGrow(w, w') && ChannelsOk(w') && QueuesOk(w')
    ensures Inv(w')
  {
    hide Shape, ChannelsOk, QueuesOk, AllWaitedOk, SignalsOk, EmittedOk, OrderOk, BusyOk, RegistryOk, PendingOk,
         AwaitingOk;
    ShrinkShape(w, w');
    ShrinkHistory(w, w');
    ShrinkRegistry(w, w');
    AwaitingGrows(w, w');
  }

  lemma ShrinkHistory(w: World, w': World)
    requires Inv(w) && TablesShrink(w, w')
    ensures AllWaitedOk(w') && SignalsOk(w') && EmittedOk(w') && OrderOk(w') && BusyOk(w') && PendingOk(w')
  {
    hide ActorPath.Parent, ChannelsOk, QueuesOk, AwaitingOk, Shape;
    assert forall emitted, x :: SomeChildEmitted(w', emitted, x) <==> SomeChildEmitted(w, emitted, x);
  }

  lemma ShrinkRegistry(w: World, w': World)
    requires RegistryOk(w) && TablesShrink(w, w')
    ensures RegistryOk(w')
  {
    hide ActorPath.Parent;
    forall p | p in w'.tree.registry ensures RegisteredOk(w', p) {
      assert RegisteredOk(w, p);
    }
  }

  lemma ServesShrinks(w: World, s: nat, t': Tables)
    requires s in w.tree.supervisors && Serves(T.TablesOf(w.tree, s), t')
    ensures var w' := w.(tree := T.WithTables(w.tree, s, t')); TablesShrink(w, w') && QueuesGrow(w, w')
  {
    assert forall id | id in w.tree.queues :: ServedQueue(T.TablesOf(w.tree, s), t', id);
  }

  /** Dropping children, with a Stop for some, keeps the invariant. */
  lemma ServesKeeps(w: World, s: nat, t': Tables)
    requires Inv(w) && s in w.tree.supervisors && Serves(T.TablesOf(w.tree, s), t')
    ensures Inv(w.(tree := T.WithTables(w.tree, s, t')))
  {
    hide Serves, TablesShrink, QueuesGrow, ChannelsOk, QueuesOk, Shape, AllWaitedOk, SignalsOk, EmittedOk, OrderOk,
         BusyOk, RegistryOk, PendingOk, AwaitingOk;
    ServedChannels(w, s, t');
    ServedQueues(w, s, t');
    ServesShrinks(w, s, t');
    ShrinkKeeps(w, w.(tree := T.WithTables(w.tree, s, t')));
  }

  /** Queues of the same channels, some with one more Restart. */
  ghost predicate Restarted(w: World, w': World) {
    && w' == w.(tree := w.tree.(queues := w'.tree.queues)) && w'.tree.queues.Keys == w.tree.queues.Keys
    && forall c | c in w.tree.queues ::
         w'.tree.queues[c] == w.tree.queues[c] || w'.tree.queues[c] == w.tree.queues[c] + [Restart]
  }

  lemma RestartsRestarted(w: World, s: nat, order: seq<ActorPath>)
    requires ChannelsOk(w) && T.Enabled(w.tree, T.Op.RestartAll(s, order))
    ensures Restarted(w, TreeStep(w, T.Op.RestartAll(s, order)))
  {
    var t := T.TablesOf(w.tree, s);
    var t' := RestartEach(t, order).0;
    OwnTables(w, s);
    RestartEachExact(t, order);
    hide RestartEach, Stopped, ChannelsOk;
    forall c | c in t.queues ensures t'.queues[c] == t.queues[c] || t'.queues[c] == t.queues[c] + [Restart] {
      assert QueueAfter(t, t', order[..Stopped(t, order)], Restart, c);
    }
    assert w.tree.supervisors[s := w.tree.supervisors[s].(senders := t.senders)] == w.tree.supervisors;
  }

  lemma RestartedTables(w: World, w': World)
    requires ChannelsOk(w) && QueuesOk(w) && Restarted(w, w')
    ensures ChannelsOk(w') && QueuesOk(w')
  {
    forall r, p | r in w'.tree.supervisors && p in w'.tree.supervisors[r].senders ensures ChannelOk(w', r, p) {
      assert ChannelOk(w, r, p);
    }
    forall c | c in w'.tree.queues ensures QueueOk(w', c) {
      assert QueueOk(w, c);
    }
  }

  lemma RestartsKeep(w: World, s: nat, order: seq<ActorPath>)
    requires Inv(w) && T.Enabled(w.tree, T.Op.RestartAll(s, order))
    ensures Inv(TreeStep(w, T.Op.RestartAll(s, order)))
  {
    var w' := TreeStep(w, T.Op.RestartAll(s, order));
    RestartsRestarted(w, s, order);
    hide T.Apply, ChannelsOk, QueuesOk, Shape, AllWaitedOk, SignalsOk, EmittedOk, OrderOk, BusyOk, RegistryOk,
         PendingOk, AwaitingOk;
    RestartedTables(w, w');
    assert TablesShrink(w, w') && QueuesGrow(w, w');
    ShrinkKeeps(w, w');
  }

  // ---------- worlds that differ in one actor's life ----------

  predicate Off(l: Life) { l.phase != Starting && l.phase != Running }

  predicate HasEmitted(l: Life) { l.phase == Emitted || l.phase == Gone }

  function WithLife(w: World, c: nat, l: Life): World { w.(life := w.life[c := l]) }

  /** Settled stays settled, and an unsettled actor is in no table. */
  lemma LifeChannels(w: World, c: nat, l: Life)
    requires ChannelsOk(w) && QueuesOk(w) && c in w.life
    requires l.creation == w.life[c].creation || w.life[c].creation != Settled
    ensures ChannelsOk(WithLife(w, c, l)) && QueuesOk(WithLife(w, c, l))
  {
    var w' := WithLife(w, c, l);
    forall r, p | r in w'.tree.supervisors && p in w'.tree.supervisors[r].senders ensures ChannelOk(w', r, p) {
      assert ChannelOk(w, r, p);
    }
    forall d | d in w'.tree.queues ensures QueueOk(w', d) {
      assert QueueOk(w, d);
    }
  }

  lemma LifeRegistry(w: World, c: nat, l: Life)
    requires RegistryOk(w) && c in w.life && c in w.tree.created
    requires l.creation == w.life[c].creation || w.life[c].creation != Settled
    requires l.clean && !w.life[c].clean ==> Children(w.tree.registry, w.tree.created[c].path) == {}
    ensures RegistryOk(WithLife(w, c, l))
  {
    hide ActorPath.Parent;
    var w', path := WithLife(w, c, l), w.tree.created[c].path;
    forall p | p in w'.tree.registry ensures RegisteredOk(w', p) {
      assert RegisteredOk(w, p);
      assert p in Children(w.tree.registry, path) <==> p.Parent() == path;
    }
  }

  lemma LifePending(w: World, c: nat, l: Life)
    requires PendingOk(w) && c in w.life
    requires l.creation == w.life[c].creation || w.life[c].creation != Settled
    ensures PendingOk(WithLife(w, c, l))
  {
    hide ActorPath.Parent;
    var w' := WithLife(w, c, l);
    forall d | d in w'.tree.created && d in w'.life && d in w'.emitted && Parent(w', d) != T.SYSTEM
               && Parent(w', d) in w'.tree.supervisors && Parent(w', d) in w'.signals && Unheard(w', d)
      ensures Signal(d, w'.tree.created[d].path) in w'.signals[Parent(w', d)]
    {
      assert Unheard(w, d);
    }
  }

  lemma LifeBusy(w: World, c: nat, l: Life)
    requires BusyOk(w) && c in w.life
    requires l.creation != Settled ==> w.life[c].creation != Settled
    requires Idle(w, c) || !Off(l)
    requires forall d | d in w.tree.created && Parent(w, d) == c :: d != c
    ensures BusyOk(WithLife(w, c, l))
  {
    var w' := WithLife(w, c, l);
    forall d | d in w'.tree.created && d in w'.life && w'.life[d].creation != Settled ensures Acts(w', Parent(w', d)) {
      assert Acts(w, Parent(w, d));
    }
  }

  lemma LifeWaited(w: World, c: nat, l: Life)
    requires AllWaitedOk(w) && OrderOk(w) && c in w.life
    requires c in w.waited ==> l.creation == Settled
    requires c in w.waited && l.clean ==> SomeChildEmitted(w, w.emitted, c)
    requires c in w.emitted ==> l.clean == w.life[c].clean
    ensures AllWaitedOk(WithLife(w, c, l)) && OrderOk(WithLife(w, c, l))
  {
    var w' := WithLife(w, c, l);
    assert forall emitted, x :: SomeChildEmitted(w', emitted, x) <==> SomeChildEmitted(w, emitted, x);
    hide SomeChildEmitted;
    forall x | x in w'.waited ensures WaitedOk(w', x) {
      assert WaitedOk(w, x);
    }
  }

  lemma LifeAwaiting(w: World, c: nat, l: Life)
    requires AwaitingOk(w) && c in w.life
    requires Off(w.life[c]) ==> Off(l)
    requires c in w.waited && l.phase == Running ==> w.life[c].phase == Running
    ensures AwaitingOk(WithLife(w, c, l))
  {
    var w' := WithLife(w, c, l);
    forall x | x in w'.waited && x in w'.life && w'.life[x].phase == Running && x !in w'.behind
      ensures exists d :: Awaited(w', x, d)
    {
      var d :| Awaited(w, x, d);
      assert Awaited(w', x, d);
    }
  }

  lemma LifeEmitted(w: World, c: nat, l: Life)
    requires EmittedOk(w) && SignalsOk(w) && c in w.life && (HasEmitted(l) <==> HasEmitted(w.life[c]))
    ensures EmittedOk(WithLife(w, c, l)) && SignalsOk(WithLife(w, c, l))
  {
    var w' := WithLife(w, c, l);
    forall x, s | x in w'.signals && s in w'.signals[x] ensures SignalOk(w', x, s) {
      assert SignalOk(w, x, s);
    }
  }

  lemma LifeShapeAt(w: World, c: nat, l: Life, d: nat)
    requires d in w.tree.created && d != c && ShapeAt(w, d)
    ensures ShapeAt(WithLife(w, c, l), d)
  {
    hide ActorPath.WellFormed;
  }

  lemma LifeShape(w: World, c: nat, l: Life)
    requires Shape(w) && c in w.tree.created && ShapeAt(WithLife(w, c, l), c)
    ensures Shape(WithLife(w, c, l))
  {
    hide ShapeAt;
    var w' := WithLife(w, c, l);
    forall d | d in w'.tree.created ensures ShapeAt(w', d) {
      if d != c {
        LifeShapeAt(w, c, l, d);
      }
    }
  }

  /** The life of one actor goes on. */
  ghost predicate GoesOn(w: World, c: nat, l: Life)
    requires c in w.life && c in w.tree.created
  {
    var was := w.life[c];
    && ShapeAt(WithLife(w, c, l), c)
    && (l.creation == was.creation || was.creation != Settled)
    && (l.creation != Settled ==> was.creation != Settled)
    && (HasEmitted(l) <==> HasEmitted(was))
    && (c in w.emitted ==> l.clean == was.clean)
    && (Idle(w, c) || !Off(l))
    && (l.clean && !was.clean ==> Children(w.tree.registry, w.tree.created[c].path) == {})
    && (Off(was) ==> Off(l))
    && (c in w.waited ==> l.creation == Settled && (l.phase == Running ==> was.phase == Running))
    && (c in w.waited && l.clean ==> SomeChildEmitted(w, w.emitted, c))
  }

  lemma LifeKeeps(w: World, c: nat, l: Life)
    requires Inv(w) && c in w.life && c in w.tree.created && GoesOn(w, c, l)
    ensures Inv(WithLife(w, c, l))
  {
    hide ShapeAt, Children, Shape, ChannelsOk, QueuesOk, AllWaitedOk, OrderOk, BusyOk, RegistryOk, PendingOk,
         AwaitingOk, SignalsOk, EmittedOk, SomeChildEmitted, Idle;
    ParentsBelow(w, c);
    LifeEmitted(w, c, l);
    LifeChannels(w, c, l);
    LifeRegistry(w, c, l);
    LifePending(w, c, l);
    LifeBusy(w, c, l);
    LifeWaited(w, c, l);
    LifeAwaiting(w, c, l);
    LifeShape(w, c, l);
  }

  lemma ParentsBelow(w: World, c: nat)
    requires Shape(w)
    ensures forall d | d in w.tree.created && Parent(w, d) == c :: d != c
  {
    forall d | d in w.tree.created && Parent(w, d) == c ensures d != c {
      assert ShapeAt(w, d);
    }
  }

  // ---------- handling an action ----------

  lemma TookTables(w: World, x: nat)
    requires ChannelsOk(w) && QueuesOk(w) && x in w.tree.queues && w.tree.queues[x] != []
    ensures ChannelsOk(Took(w, x)) && QueuesOk(Took(w, x))
  {
    var w' := Took(w, x);
    forall r, p | r in w'.tree.supervisors && p in w'.tree.supervisors[r].senders ensures ChannelOk(w', r, p) {
      assert ChannelOk(w, r, p);
    }
    forall d | d in w'.tree.queues ensures QueueOk(w', d) {
      assert QueueOk(w, d);
    }
  }

  lemma TookAwaiting(w: World, x: nat)
    requires AwaitingOk(w) && x in w.tree.queues && w.tree.queues[x] != []
    requires w.tree.queues[x][0] == Restart || (x in w.life && Off(w.life[x]))
    ensures AwaitingOk(Took(w, x))
  {
    var w' := Took(w, x);
    assert w.tree.queues[x] == [w.tree.queues[x][0]] + w.tree.queues[x][1..];
    forall y | y in w'.waited && y in w'.life && w'.life[y].phase == Running && y !in w'.behind
      ensures exists d :: Awaited(w', y, d)
    {
      var d :| Awaited(w, y, d);
      assert Awaited(w', y, d);
    }
  }

  /** Worlds that differ in the contents of the queues only. */
  lemma QueuesKeep(w: World, w': World)
    requires Inv(w) && w' == w.(tree := w.tree.(queues := w'.tree.queues)) && w'.tree.queues.Keys == w.tree.queues.Keys
    ensures Shape(w') && AllWaitedOk(w') && SignalsOk(w') && EmittedOk(w')
    ensures OrderOk(w') && BusyOk(w') && RegistryOk(w') && PendingOk(w')
  {
    assert TablesShrink(w, w') && SameActors(w, w');
    hide TablesShrink, SameActors, Shape, ChannelsOk, QueuesOk, AllWaitedOk, SignalsOk, EmittedOk, OrderOk, BusyOk,
         RegistryOk, PendingOk, AwaitingOk;
    SameShape(w, w');
    ShrinkHistory(w, w');
    ShrinkRegistry(w, w');
  }

  /** Worlds with the same actors, whatever their queues and signals hold. */
  ghost predicate SameActors(w: World, w': World) {
    && w'.tree.created == w.tree.created && w'.tree.supervisors == w.tree.supervisors
    && w'.tree.queues.Keys == w.tree.queues.Keys && w'.signals.Keys == w.signals.Keys
    && w'.life == w.life && w'.waited == w.waited
  }

  lemma SameShapeAt(w: World, w': World, c: nat)
    requires SameActors(w, w') && c in w.tree.created && ShapeAt(w, c)
    ensures ShapeAt(w', c)
  {
    hide ActorPath.WellFormed;
  }

  lemma SameShape(w: World, w': World)
    requires Shape(w) && SameActors(w, w')
    ensures Shape(w')
  {
    hide ShapeAt;
    forall c | c in w'.tree.created ensures ShapeAt(w', c) {
      SameShapeAt(w, w', c);
    }
  }

  lemma TookKeeps(w: World, x: nat)
    requires Inv(w) && x in w.tree.queues && w.tree.queues[x] != []
    requires w.tree.queues[x][0] == Restart || (x in w.life && Off(w.life[x]))
    ensures Inv(Took(w, x))
  {
    hide Shape, ChannelsOk, QueuesOk, AllWaitedOk, SignalsOk, EmittedOk, OrderOk, BusyOk, RegistryOk, PendingOk,
         AwaitingOk;
    TookTables(w, x);
    TookAwaiting(w, x);
    QueuesKeep(w, Took(w, x));
  }

  lemma WaitsTables(w: World, x: nat, leftBehind: bool)
    requires ChannelsOk(w) && QueuesOk(w) && x in w.tree.queues && w.tree.queues[x] != [] && w.tree.queues[x][0] == Stop
    ensures var w' := Waits(Took(w, x), x, leftBehind); ChannelsOk(w') && QueuesOk(w')
  {
    var w' := Waits(Took(w, x), x, leftBehind);
    assert Stop in w.tree.queues[x];
    assert QueueOk(w, x);
    forall r, p | r in w'.tree.supervisors && p in w'.tree.supervisors[r].senders ensures ChannelOk(w', r, p) {
      assert ChannelOk(w, r, p);
    }
    forall d | d in w'.tree.queues ensures QueueOk(w', d) {
      assert QueueOk(w, d);
      if d == x {
        forall i | 0 <= i < |w'.tree.queues[x]| ensures w'.tree.queues[x][i] != Stop {
          assert w'.tree.queues[x][i] == w.tree.queues[x][i + 1];
        }
      }
    }
  }

  lemma WaitsAwaiting(w: World, x: nat, leftBehind: bool)
    requires AwaitingOk(w) && Shape(w) && x in w.tree.queues && w.tree.queues[x] != []
    requires !leftBehind ==> exists c :: Awaited(w, x, c)
    ensures AwaitingOk(Waits(Took(w, x), x, leftBehind))
  {
    var w' := Waits(Took(w, x), x, leftBehind);
    forall y | y in w'.waited && y in w'.life && w'.life[y].phase == Running && y !in w'.behind
      ensures exists d :: Awaited(w', y, d)
    {
      var d :| Awaited(w, y, d);
      assert Awaited(w', y, d);
    }
  }

  lemma WaitsHistory(w: World, x: nat, leftBehind: bool)
    requires AllWaitedOk(w) && OrderOk(w) && EmittedOk(w) && QueuesOk(w)
    requires SignalsOk(w) && BusyOk(w) && RegistryOk(w) && PendingOk(w)
    requires IsRunning(w, x) && w.tree.queues[x] != [] && w.tree.queues[x][0] == Stop && !w.life[x].clean
    ensures var w' := Waits(w, x, leftBehind);
            && AllWaitedOk(w') && OrderOk(w') && EmittedOk(w') && SignalsOk(w')
            && BusyOk(w') && RegistryOk(w') && PendingOk(w')
  {
    var w' := Waits(w, x, leftBehind);
    assert forall emitted, y :: SomeChildEmitted(w', emitted, y) <==> SomeChildEmitted(w, emitted, y);
    hide SomeChildEmitted, ActorPath.Parent;
    assert QueueOk(w, x) && Stop in w.tree.queues[x];
    forall y | y in w'.waited ensures WaitedOk(w', y) {
      assert y != x ==> WaitedOk(w, y);
    }
    forall p | p in w'.tree.registry ensures RegisteredOk(w', p) {
      assert RegisteredOk(w, p);
    }
    forall c | c in w'.tree.created && c in w'.life && c in w'.emitted && Parent(w', c) != T.SYSTEM
               && Parent(w', c) in w'.tree.supervisors && Parent(w', c) in w'.signals && Unheard(w', c)
      ensures Signal(c, w'.tree.created[c].path) in w'.signals[Parent(w', c)]
    {
      assert Unheard(w, c);
    }
    forall y, s | y in w'.signals && s in w'.signals[y] ensures SignalOk(w', y, s) {
      assert SignalOk(w, y, s);
    }
  }

  lemma WaitsShape(w: World, x: nat, leftBehind: bool)
    requires Shape(w) && IsRunning(w, x)
    ensures Shape(Waits(w, x, leftBehind))
  {
    hide ActorPath.WellFormed;
    var w' := Waits(w, x, leftBehind);
    forall c | c in w'.tree.created ensures ShapeAt(w', c) {
      assert ShapeAt(w, c);
    }
  }

  /** Going on after a Stop, with some child to wait for or left behind. */
  lemma WaitsKeeps(w: World, x: nat, leftBehind: bool)
    requires Inv(w) && IsRunning(w, x) && w.tree.queues[x] != [] && w.tree.queues[x][0] == Stop
    requires !leftBehind ==> exists c :: Awaited(w, x, c)
    ensures Inv(Waits(Took(w, x), x, leftBehind))
  {
    hide ChannelsOk, QueuesOk, AllWaitedOk, SignalsOk, EmittedOk, OrderOk, BusyOk, RegistryOk, PendingOk, AwaitingOk,
         Awaited;
    assert ShapeAt(w, x);
    hide Shape, ShapeAt;
    WaitsTables(w, x, leftBehind);
    WaitsAwaiting(w, x, leftBehind);
    TookTables(w, x);
    QueuesKeep(w, Took(w, x));
    WaitsShape(Took(w, x), x, leftBehind);
    WaitsRest(w, x, leftBehind);
  }

  lemma WaitsRest(w: World, x: nat, leftBehind: bool)
    requires Inv(w) && IsRunning(w, x) && w.tree.queues[x] != [] && w.tree.queues[x][0] == Stop && !w.life[x].clean
    ensures var w' := Waits(Took(w, x), x, leftBehind);
            && AllWaitedOk(w') && OrderOk(w') && EmittedOk(w') && SignalsOk(w')
            && BusyOk(w') && RegistryOk(w') && PendingOk(w')
  {
    var w1 := Waits(w, x, leftBehind);
    hide Shape, ChannelsOk, QueuesOk, AllWaitedOk, SignalsOk, EmittedOk, OrderOk, BusyOk, RegistryOk, PendingOk,
         AwaitingOk;
    WaitsHistory(w, x, leftBehind);
    SameHistory(w1, Waits(Took(w, x), x, leftBehind));
  }

  lemma SameHistory(w: World, w': World)
    requires AllWaitedOk(w) && OrderOk(w) && EmittedOk(w) && SignalsOk(w) && BusyOk(w) && RegistryOk(w) && PendingOk(w)
    requires w' == w.(tree := w.tree.(queues := w'.tree.queues))
    ensures AllWaitedOk(w') && OrderOk(w') && EmittedOk(w') && SignalsOk(w')
    ensures BusyOk(w') && RegistryOk(w') && PendingOk(w')
  {
    assert forall emitted, y :: SomeChildEmitted(w', emitted, y) <==> SomeChildEmitted(w, emitted, y);
    hide SomeChildEmitted, ActorPath.Parent;
    forall p | p in w'.tree.registry ensures RegisteredOk(w', p) {
      assert RegisteredOk(w, p);
    }
    forall c | c in w'.tree.created && c in w'.life && c in w'.emitted && Parent(w', c) != T.SYSTEM
               && Parent(w', c) in w'.tree.supervisors && Parent(w', c) in w'.signals && Unheard(w', c)
      ensures Signal(c, w'.tree.created[c].path) in w'.signals[Parent(w', c)]
    {
      assert Unheard(w, c);
    }
  }

  /** Leaving `run`: as stopped only with no registered direct child and, after
      waiting, once a child has emitted. */
  lemma LeavingGoesOn(w: World, x: nat, clean: bool)
    requires x in w.tree.created && ShapeAt(w, x) && w.life[x].phase == Running && Idle(w, x) && x !in w.emitted
    requires x in w.waited ==> w.life[x].creation == Settled
    requires clean ==> Children(w.tree.registry, w.tree.created[x].path) == {}
    requires clean && x in w.waited ==> SomeChildEmitted(w, w.emitted, x)
    ensures GoesOn(w, x, w.life[x].(phase := Left, clean := clean))
  {
    hide Idle, Children, SomeChildEmitted, ActorPath.WellFormed;
  }

  /** What the invariant says of a running actor by itself. */
  lemma RunningFacts(w: World, x: nat)
    requires Shape(w) && AllWaitedOk(w) && EmittedOk(w) && x in w.life && w.life[x].phase == Running
    ensures x in w.tree.created && ShapeAt(w, x) && x !in w.emitted
    ensures x in w.waited ==> w.life[x].creation == Settled
  {
    hide ShapeAt, SomeChildEmitted;
    assert x in w.waited ==> WaitedOk(w, x);
  }

  lemma LeavesKeeps(w: World, x: nat, clean: bool)
    requires Inv(w) && IsRunning(w, x) && Idle(w, x) && x in w.tree.created
    requires clean ==> Children(w.tree.registry, w.tree.created[x].path) == {}
    requires clean && x in w.waited ==> SomeChildEmitted(w, w.emitted, x)
    ensures Inv(Leaves(w, x, clean))
  {
    hide ShapeAt, Shape, ChannelsOk, QueuesOk, AllWaitedOk, SignalsOk, EmittedOk, OrderOk, BusyOk, RegistryOk,
         PendingOk, AwaitingOk, SomeChildEmitted, Idle, Children, GoesOn;
    RunningFacts(w, x);
    LeavingGoesOn(w, x, clean);
    LifeKeeps(w, x, w.life[x].(phase := Left, clean := clean));
  }

  lemma StopUnwaited(w: World, x: nat)
    requires Inv(w) && x in w.tree.queues && w.tree.queues[x] != [] && w.tree.queues[x][0] == Stop
    ensures x !in w.waited
  {
    hide Shape, ChannelsOk, AllWaitedOk, SignalsOk, EmittedOk, OrderOk, BusyOk, RegistryOk, PendingOk, AwaitingOk;
    assert QueueOk(w, x);
  }

  /** An actor that cannot handle its Stop, or handles it and leaves. */
  lemma StopLeavesKeeps(w: World, x: nat, clean: bool)
    requires Inv(w) && IsRunning(w, x) && Idle(w, x) && x in w.tree.created
    requires w.tree.queues[x] != [] && (clean ==> w.tree.queues[x][0] == Stop)
    requires clean ==> Children(w.tree.registry, w.tree.created[x].path) == {}
    ensures Inv(Leaves(Took(w, x), x, clean))
  {
    hide Inv, Idle, Children, SomeChildEmitted;
    if clean {
      StopUnwaited(w, x);
    }
    LeavesKeeps(w, x, clean);
    TookKeeps(Leaves(w, x, clean), x);
    LeavesTook(w, x, clean);
  }

  lemma LeavesTook(w: World, x: nat, clean: bool)
    requires x in w.life
    ensures Took(Leaves(w, x, clean), x) == Leaves(Took(w, x), x, clean)
  {
  }

  // ---------- handling a signal ----------

  function Popped(w: World, x: nat): World
    requires x in w.signals && w.signals[x] != []
  {
    w.(signals := w.signals[x := w.signals[x][1..]])
  }

  lemma PoppedPending(w: World, x: nat)
    requires PendingOk(w) && SignalsOk(w) && x in w.signals && w.signals[x] != [] && Idle(w, x)
    requires x != T.SYSTEM && x in w.tree.supervisors ==>
               var s := w.signals[x][0];
               s.path.Parent() == w.tree.supervisors[x].path ==> s.path !in w.tree.supervisors[x].senders
    ensures PendingOk(Popped(w, x))
  {
    hide ActorPath.Parent;
    var w' := Popped(w, x);
    assert w.signals[x] == [w.signals[x][0]] + w.signals[x][1..];
    forall c | c in w'.tree.created && c in w'.life && c in w'.emitted && Parent(w', c) != T.SYSTEM
               && Parent(w', c) in w'.tree.supervisors && Parent(w', c) in w'.signals && Unheard(w', c)
      ensures Signal(c, w'.tree.created[c].path) in w'.signals[Parent(w', c)]
    {
      assert Unheard(w, c);
      assert Signal(c, w.tree.created[c].path) in w.signals[Parent(w, c)];
    }
  }

  lemma PoppedAwaiting(w: World, x: nat)
    requires AwaitingOk(w) && x in w.signals && w.signals[x] != []
    requires x !in w.waited || x in w.behind || (x in w.life && Off(w.life[x]))
    ensures AwaitingOk(Popped(w, x))
  {
    var w' := Popped(w, x);
    forall y | y in w'.waited && y in w'.life && w'.life[y].phase == Running && y !in w'.behind
      ensures exists d :: Awaited(w', y, d)
    {
      var d :| Awaited(w, y, d);
      assert Awaited(w', y, d);
    }
  }

  lemma PoppedRest(w: World, x: nat)
    requires Shape(w) && ChannelsOk(w) && QueuesOk(w) && AllWaitedOk(w) && SignalsOk(w) && EmittedOk(w) && OrderOk(w)
             && BusyOk(w) && RegistryOk(w)
    requires x in w.signals && w.signals[x] != []
    ensures var w' := Popped(w, x);
            && Shape(w') && ChannelsOk(w') && QueuesOk(w') && AllWaitedOk(w') && SignalsOk(w')
            && EmittedOk(w') && OrderOk(w') && BusyOk(w') && RegistryOk(w')
  {
    var w' := Popped(w, x);
    assert SameActors(w, w');
    hide SameActors, Shape, ChannelsOk, QueuesOk, RegistryOk, ActorPath.Parent;
    SameShape(w, w');
    SameTables(w, w');
    assert forall emitted, y :: SomeChildEmitted(w', emitted, y) <==> SomeChildEmitted(w, emitted, y);
    hide SomeChildEmitted;
    forall y, s | y in w'.signals && s in w'.signals[y] ensures SignalOk(w', y, s) {
      assert s in w.signals[y];
      assert SignalOk(w, y, s);
    }
  }

  /** Tables, registry and waiting do not depend on the signals. */
  lemma SameTables(w: World, w': World)
    requires ChannelsOk(w) && QueuesOk(w) && RegistryOk(w)
    requires w'.tree == w.tree && w'.life == w.life && w'.waited == w.waited
    ensures ChannelsOk(w') && QueuesOk(w') && RegistryOk(w')
  {
    hide ActorPath.Parent;
    forall r, p | r in w'.tree.supervisors && p in w'.tree.supervisors[r].senders ensures ChannelOk(w', r, p) {
      assert ChannelOk(w, r, p);
    }
    forall d | d in w'.tree.queues ensures QueueOk(w', d) {
      assert QueueOk(w, d);
    }
    forall p | p in w'.tree.registry ensures RegisteredOk(w', p) {
      assert RegisteredOk(w, p);
    }
  }

  lemma PoppedKeeps(w: World, x: nat)
    requires Inv(w) && x in w.signals && w.signals[x] != [] && Idle(w, x)
    requires x !in w.waited || x in w.behind || (x in w.life && Off(w.life[x]))
    requires x != T.SYSTEM && x in w.tree.supervisors ==>
               var s := w.signals[x][0];
               s.path.Parent() == w.tree.supervisors[x].path ==> s.path !in w.tree.supervisors[x].senders
    ensures Inv(Popped(w, x))
  {
    hide Idle, ActorPath.Parent;
    PoppedPending(w, x);
    PoppedAwaiting(w, x);
    PoppedRest(w, x);
    hide *;
  }

  lemma BehindKeeps(w: World, x: nat)
    requires Inv(w)
    ensures Inv(w.(behind := w.behind + {x}))
  {
    var w' := w.(behind := w.behind + {x});
    BehindRest(w, w');
    hide Shape, ChannelsOk, QueuesOk, AllWaitedOk, SignalsOk, EmittedOk, OrderOk, BusyOk, RegistryOk, PendingOk;
    forall y | y in w'.waited && y in w'.life && w'.life[y].phase == Running && y !in w'.behind
      ensures exists d :: Awaited(w', y, d)
    {
      var d :| Awaited(w, y, d);
      assert Awaited(w', y, d);
    }
  }

  lemma BehindRest(w: World, w': World)
    requires Inv(w) && w' == w.(behind := w'.behind, system := w'.system)
    ensures Shape(w') && ChannelsOk(w') && QueuesOk(w') && AllWaitedOk(w') && SignalsOk(w')
    ensures EmittedOk(w') && OrderOk(w') && BusyOk(w') && RegistryOk(w') && PendingOk(w')
  {
    assert SameActors(w, w');
    hide SameActors, Shape, AwaitingOk, ChannelsOk, QueuesOk, RegistryOk, ActorPath.Parent;
    SameShape(w, w');
    SameTables(w, w');
    assert forall emitted, y :: SomeChildEmitted(w', emitted, y) <==> SomeChildEmitted(w, emitted, y);
    hide SomeChildEmitted;
    forall c | c in w'.tree.created && c in w'.life && c in w'.emitted && Parent(w', c) != T.SYSTEM
               && Parent(w', c) in w'.tree.supervisors && Parent(w', c) in w'.signals && Unheard(w', c)
      ensures Signal(c, w'.tree.created[c].path) in w'.signals[Parent(w', c)]
    {
      assert Unheard(w, c);
    }
  }

  /** What is known of the oldest signal. */
  lemma SignalFacts(w: World, x: nat)
    requires Inv(w) && x in w.signals && w.signals[x] != []
    ensures var s := w.signals[x][0];
            && s.id in w.tree.created && w.tree.created[s.id] == T.Origin(x, s.path) && s.id in w.emitted
            && s.path.WellFormed() && s.path.tokens != [] && SomeChildEmitted(w, w.emitted, x)
  {
    var s := w.signals[x][0];
    assert s in w.signals[x];
    assert SignalOk(w, x, s);
    assert ShapeAt(w, s.id);
    hide *;
  }

  /** The path removed for a direct child's signal is the child's own. */
  lemma DirectKey(parent: ActorPath, path: ActorPath)
    requires path.WellFormed() && parent.tokens != [] && path.Parent() == parent
    ensures parent.Div(path.Key()) == path
  {
    TokenParses(path.Key());
  }

  lemma HeardKeeps(w: World, x: nat, leaves: bool)
    requires Inv(w) && IsRunning(w, x) && Idle(w, x) && x in w.tree.created && w.signals[x] != []
    requires var s := w.signals[x][0];
             s.path.Parent() == w.tree.supervisors[x].path ==> s.path !in w.tree.supervisors[x].senders
    requires leaves ==> Children(w.tree.registry, w.tree.created[x].path) == {}
    ensures Inv(Heard(w, x, leaves))
  {
    hide Inv, Idle, Children, ActorPath.Parent, SomeChildEmitted;
    SignalFacts(w, x);
    if leaves {
      LeavesKeeps(w, x, true);
      OffIdle(w, x);
      PoppedKeeps(Leaves(w, x, true), x);
      assert Popped(Leaves(w, x, true), x) == Heard(w, x, leaves);
    } else {
      BehindKeeps(w, x);
      SameIdle(w, w.(behind := w.behind + {x}), x);
      PoppedKeeps(w.(behind := w.behind + {x}), x);
    }
  }

  lemma OffIdle(w: World, x: nat)
    requires Idle(w, x) && x in w.life
    ensures Idle(Leaves(w, x, true), x)
  {
  }

  lemma SameIdle(w: World, w': World, x: nat)
    requires Idle(w, x) && w'.life == w.life && w'.tree.created == w.tree.created
    ensures Idle(w', x)
  {
  }

  // ---------- creating a child ----------

  function Spawned(w: World, x: nat, path: ActorPath, c: nat): World {
    w.(tree := w.tree.(supervisors := w.tree.supervisors[c := T.Supervisor(path, map[])],
                       queues := w.tree.queues[c := []],
                       created := w.tree.created[c := T.Origin(x, path)]),
       life := w.life[c := Life(Starting, Pending, false)],
       signals := w.signals[c := []])
  }

  ghost predicate CanSpawn(w: World, x: nat, path: ActorPath, c: nat) {
    && Acts(w, x) && c !in w.life && x < c && c != T.SYSTEM && path.tokens != [] && path.WellFormed()
  }

  lemma SpawnedOld(w: World, x: nat, path: ActorPath, c: nat, d: nat)
    requires d in w.tree.created && ShapeAt(w, d) && d != c
    ensures ShapeAt(Spawned(w, x, path, c), d)
  {
    hide ActorPath.WellFormed;
  }

  lemma SpawnedNew(w: World, x: nat, path: ActorPath, c: nat)
    requires CanSpawn(w, x, path, c) && c !in w.waited && (x == T.SYSTEM || x in w.tree.created)
    ensures ShapeAt(Spawned(w, x, path, c), c)
  {
    hide ActorPath.WellFormed;
  }

  lemma SpawnedShape(w: World, x: nat, path: ActorPath, c: nat)
    requires Shape(w) && CanSpawn(w, x, path, c) && c !in w.waited
    ensures Shape(Spawned(w, x, path, c))
  {
    SpawnedNew(w, x, path, c);
    var w' := Spawned(w, x, path, c);
    hide ShapeAt, ActorPath.WellFormed;
    forall d | d in w'.tree.created ensures ShapeAt(w', d) {
      if d != c {
        SpawnedOld(w, x, path, c, d);
      }
    }
  }

  lemma ChildPathFacts(p: ActorPath, name: string)
    requires p.tokens != [] && (p == T.RootPath() || p.WellFormed())
    ensures p.Div(name).tokens != [] && p.Div(name).WellFormed()
  {
    RootWellFormed();
    BuildersWellFormed("", p, name, 0);
  }

  lemma RootWellFormed()
    ensures T.RootPath().WellFormed()
  {
    assert "user"[0] == 'u';
    assert 'u' in "user";
  }

  lemma SpawnedTables(w: World, x: nat, path: ActorPath, c: nat)
    requires Shape(w) && ChannelsOk(w) && QueuesOk(w) && RegistryOk(w) && CanSpawn(w, x, path, c)
    ensures var w' := Spawned(w, x, path, c); ChannelsOk(w') && QueuesOk(w') && RegistryOk(w')
  {
    hide ActorPath.Parent, ActorPath.WellFormed, ShapeAt;
    var w' := Spawned(w, x, path, c);
    forall r, p | r in w'.tree.supervisors && p in w'.tree.supervisors[r].senders ensures ChannelOk(w', r, p) {
      assert r != c ==> ChannelOk(w, r, p);
    }
    forall d | d in w'.tree.queues ensures QueueOk(w', d) {
      assert d != c ==> QueueOk(w, d);
    }
    forall p | p in w'.tree.registry ensures RegisteredOk(w', p) {
      assert RegisteredOk(w, p);
    }
  }

  lemma SpawnedSignals(w: World, x: nat, path: ActorPath, c: nat)
    requires Shape(w) && SignalsOk(w) && EmittedOk(w) && CanSpawn(w, x, path, c)
    ensures var w' := Spawned(w, x, path, c); SignalsOk(w') && EmittedOk(w')
  {
    hide ActorPath.WellFormed, ShapeAt;
    var w' := Spawned(w, x, path, c);
    assert c !in w.tree.created && c !in w.emitted;
    hide Shape, CanSpawn;
    forall y, s | y in w'.signals && s in w'.signals[y] ensures SignalOk(w', y, s) {
      assert y != c && s in w.signals[y];
      assert SignalOk(w, y, s);
    }
  }

  lemma SpawnedSome(w: World, x: nat, path: ActorPath, c: nat, emitted: seq<nat>, y: nat)
    requires c !in w.tree.created && SomeChildEmitted(w, emitted, y)
    ensures SomeChildEmitted(Spawned(w, x, path, c), emitted, y)
  {
    var d :| d in emitted && d in w.tree.created && Parent(w, d) == y;
    var w' := Spawned(w, x, path, c);
    assert d in w'.tree.created && Parent(w', d) == y;
  }

  lemma SpawnedHistory(w: World, x: nat, path: ActorPath, c: nat)
    requires Shape(w) && AllWaitedOk(w) && EmittedOk(w) && OrderOk(w) && CanSpawn(w, x, path, c)
    ensures var w' := Spawned(w, x, path, c); AllWaitedOk(w') && OrderOk(w')
  {
    hide ActorPath.WellFormed, ShapeAt, SomeChildEmitted;
    var w' := Spawned(w, x, path, c);
    forall y | y in w'.waited ensures WaitedOk(w', y) {
      assert WaitedOk(w, y);
      if w.life[y].clean {
        SpawnedSome(w, x, path, c, w.emitted, y);
      }
    }
    forall i | 0 <= i < |w'.emitted| && w'.emitted[i] in w'.waited && w'.emitted[i] in w'.life
               && w'.life[w'.emitted[i]].clean
      ensures SomeChildEmitted(w', w'.emitted[..i], w'.emitted[i])
    {
      assert WaitedOk(w, w.emitted[i]);
      SpawnedSome(w, x, path, c, w.emitted[..i], w.emitted[i]);
    }
  }

  lemma SpawnedBusy(w: World, x: nat, path: ActorPath, c: nat)
    requires Shape(w) && BusyOk(w) && CanSpawn(w, x, path, c)
    ensures BusyOk(Spawned(w, x, path, c))
  {
    hide ActorPath.WellFormed, ShapeAt;
    var w' := Spawned(w, x, path, c);
    forall d | d in w'.tree.created && d in w'.life && w'.life[d].creation != Settled ensures Acts(w', Parent(w', d)) {
      if d != c {
        assert Acts(w, Parent(w, d));
      }
    }
  }

  lemma SpawnedPending(w: World, x: nat, path: ActorPath, c: nat)
    requires Shape(w) && EmittedOk(w) && PendingOk(w) && CanSpawn(w, x, path, c)
    ensures PendingOk(Spawned(w, x, path, c))
  {
    var w' := Spawned(w, x, path, c);
    forall d | d in w.tree.created ensures Parent(w, d) != c {
      assert ShapeAt(w, d);
    }
    hide ActorPath.Parent, ActorPath.WellFormed, ShapeAt;
    forall d | d in w'.tree.created && d in w'.life && d in w'.emitted && Parent(w', d) != T.SYSTEM
               && Parent(w', d) in w'.tree.supervisors && Parent(w', d) in w'.signals && Unheard(w', d)
      ensures Signal(d, w'.tree.created[d].path) in w'.signals[Parent(w', d)]
    {
      assert d in w.life && Unheard(w, d);
    }
  }

  lemma SpawnedAwaiting(w: World, x: nat, path: ActorPath, c: nat)
    requires Shape(w) && AllWaitedOk(w) && AwaitingOk(w) && CanSpawn(w, x, path, c)
    ensures AwaitingOk(Spawned(w, x, path, c))
  {
    hide ActorPath.WellFormed, ShapeAt, SomeChildEmitted;
    var w' := Spawned(w, x, path, c);
    forall y | y in w'.waited && y in w'.life && w'.life[y].phase == Running && y !in w'.behind
      ensures exists d :: Awaited(w', y, d)
    {
      assert WaitedOk(w, y);
      var d :| Awaited(w, y, d);
      assert Awaited(w', y, d);
    }
  }

  lemma SpawnKeeps(w: World, x: nat, name: string, c: nat)
    requires Inv(w) && Enabled(w, Spawn(x, name, c))
    ensures Inv(Next(w, Spawn(x, name, c)))
  {
    var path := T.ChildPath(w.tree, x, name);
    SpawnAllowed(w, x, name, c);
    assert c in w.waited ==> WaitedOk(w, c);
    assert Next(w, Spawn(x, name, c)) == Spawned(w, x, path, c);
    hide Shape, ChannelsOk, QueuesOk, AllWaitedOk, SignalsOk, EmittedOk, OrderOk, BusyOk, RegistryOk, PendingOk,
         AwaitingOk;
    hide Enabled, Next, SomeChildEmitted, Spawned, CanSpawn;
    SpawnedShape(w, x, path, c);
    SpawnedTables(w, x, path, c);
    SpawnedHistory(w, x, path, c);
    SpawnedSignals(w, x, path, c);
    SpawnedBusy(w, x, path, c);
    SpawnedPending(w, x, path, c);
    SpawnedAwaiting(w, x, path, c);
  }

  lemma SpawnAllowed(w: World, x: nat, name: string, c: nat)
    requires Shape(w) && Enabled(w, Spawn(x, name, c))
    ensures CanSpawn(w, x, T.ChildPath(w.tree, x, name), c)
  {
    if x != T.SYSTEM {
      assert ShapeAt(w, x);
    }
    ChildPathFacts(w.tree.supervisors[x].path, name);
  }

  lemma ShapeOf(w: World)
    requires Inv(w)
    ensures Shape(w)
  {
    hide Shape, ChannelsOk, QueuesOk, AllWaitedOk, SignalsOk, EmittedOk, OrderOk, BusyOk, RegistryOk, PendingOk,
         AwaitingOk;
  }

  lemma SpawnStep(w: World, x: nat, name: string, c: nat)
    requires Enabled(w, Spawn(x, name, c))
    ensures Next(w, Spawn(x, name, c)) == Spawned(w, x, T.ChildPath(w.tree, x, name), c)
  {
    hide T.ChildPath, Idle;
  }

  lemma SpawnFresh(w: World, x: nat, name: string, c: nat)
    requires Shape(w) && Enabled(w, Spawn(x, name, c))
    ensures x in w.tree.supervisors && x != c && c !in w.life && c != T.SYSTEM
  {
    hide T.ChildPath, Idle, ShapeAt;
  }

  lemma StartNext(w: World, step: Step)
    requires Enabled(w, step) && (step.Start? || step.Refuse?)
    ensures step.child in w.life && w.life[step.child].phase == Starting
    ensures Next(w, step) == WithLife(w, step.child, if step.Start? then Life(Running, Accepted, false)
                                                     else Life(Left, Refused, false))
  {
    hide Idle;
  }

  // ---------- settling a start-up ----------

  /** The creator's tables and the registry get the child; the rest is unchanged. */
  function Registered(w: World, c: nat): World
    requires c in w.life && c in w.tree.created && Parent(w, c) in w.tree.supervisors
  {
    var o := w.tree.created[c];
    var s := w.tree.supervisors[o.parent];
    w.(tree := w.tree.(registry := w.tree.registry[o.path := c],
                       supervisors := w.tree.supervisors[o.parent := s.(senders := s.senders[o.path := c])]),
       life := w.life[c := w.life[c].(creation := Settled)])
  }

  ghost predicate CanRegister(w: World, c: nat) {
    c in w.life && c in w.tree.created && Parent(w, c) in w.tree.supervisors && w.life[c].creation == Accepted
  }

  lemma RegisteredTables(w: World, c: nat)
    requires ChannelsOk(w) && QueuesOk(w) && AllWaitedOk(w) && CanRegister(w, c)
    ensures ChannelsOk(Registered(w, c)) && QueuesOk(Registered(w, c))
  {
    assert c in w.tree.queues ==> QueueOk(w, c);
    assert c in w.waited ==> WaitedOk(w, c);
    hide AllWaitedOk, SomeChildEmitted;
    var w' := Registered(w, c);
    forall r, p | r in w'.tree.supervisors && p in w'.tree.supervisors[r].senders ensures ChannelOk(w', r, p) {
      if r in w.tree.supervisors && p in w.tree.supervisors[r].senders {
        assert ChannelOk(w, r, p);
      }
    }
    forall d | d in w'.tree.queues ensures QueueOk(w', d) {
      assert QueueOk(w, d);
    }
  }

  lemma RegisteredRegistry(w: World, c: nat)
    requires RegistryOk(w) && CanRegister(w, c)
    requires Parent(w, c) in w.life ==> !w.life[Parent(w, c)].clean
    ensures RegistryOk(Registered(w, c))
  {
    hide ActorPath.Parent;
    var w' := Registered(w, c);
    forall p | p in w'.tree.registry ensures RegisteredOk(w', p) {
      if p in w.tree.registry {
        assert RegisteredOk(w, p);
      }
    }
  }

  lemma RegisteredBusy(w: World, c: nat)
    requires BusyOk(w) && CanRegister(w, c)
    ensures BusyOk(Registered(w, c))
  {
    var w' := Registered(w, c);
    forall d | d in w'.tree.created && d in w'.life && w'.life[d].creation != Settled ensures Acts(w', Parent(w', d)) {
      assert Acts(w, Parent(w, d));
    }
  }

  lemma RegisteredPending(w: World, c: nat)
    requires PendingOk(w) && CanRegister(w, c)
    ensures PendingOk(Registered(w, c))
  {
    hide ActorPath.Parent;
    var w' := Registered(w, c);
    forall d | d in w'.tree.created && d in w'.life && d in w'.emitted && Parent(w', d) != T.SYSTEM
               && Parent(w', d) in w'.tree.supervisors && Parent(w', d) in w'.signals && Unheard(w', d)
      ensures Signal(d, w'.tree.created[d].path) in w'.signals[Parent(w', d)]
    {
      assert Unheard(w, d);
    }
  }

  lemma RegisteredHistory(w: World, c: nat)
    requires AllWaitedOk(w) && SignalsOk(w) && EmittedOk(w) && OrderOk(w) && CanRegister(w, c)
    ensures AllWaitedOk(Registered(w, c)) && SignalsOk(Registered(w, c))
    ensures EmittedOk(Registered(w, c)) && OrderOk(Registered(w, c))
  {
    var w' := Registered(w, c);
    assert forall emitted, y :: SomeChildEmitted(w', emitted, y) <==> SomeChildEmitted(w, emitted, y);
    hide SomeChildEmitted;
    forall y | y in w'.waited ensures WaitedOk(w', y) {
      assert WaitedOk(w, y);
    }
    forall y, s | y in w'.signals && s in w'.signals[y] ensures SignalOk(w', y, s) {
      assert SignalOk(w, y, s);
    }
  }

  lemma RegisteredAwaiting(w: World, c: nat)
    requires AwaitingOk(w) && CanRegister(w, c)
    ensures AwaitingOk(Registered(w, c))
  {
    var w' := Registered(w, c);
    forall y | y in w'.waited && y in w'.life && w'.life[y].phase == Running && y !in w'.behind
      ensures exists d :: Awaited(w', y, d)
    {
      var d :| Awaited(w, y, d);
      assert Awaited(w', y, d);
    }
  }

  lemma RegisteredShapeAt(w: World, c: nat, d: nat)
    requires CanRegister(w, c) && d in w.tree.created && ShapeAt(w, d)
    ensures ShapeAt(Registered(w, c), d)
  {
    hide ActorPath.WellFormed;
  }

  lemma RegisteredShape(w: World, c: nat)
    requires Shape(w) && CanRegister(w, c)
    ensures Shape(Registered(w, c))
  {
    hide ShapeAt;
    var w' := Registered(w, c);
    forall d | d in w'.tree.created ensures ShapeAt(w', d) {
      RegisteredShapeAt(w, c, d);
    }
  }

  lemma RegisteredKeeps(w: World, c: nat)
    requires Inv(w) && CanRegister(w, c)
    ensures Inv(Registered(w, c))
  {
    CreatorRuns(w, c);
    hide Shape, ChannelsOk, QueuesOk, AllWaitedOk, SignalsOk, EmittedOk, OrderOk, BusyOk, RegistryOk, PendingOk,
         AwaitingOk, Registered;
    RegisteredTables(w, c);
    RegisteredRegistry(w, c);
    RegisteredBusy(w, c);
    RegisteredPending(w, c);
    RegisteredHistory(w, c);
    RegisteredAwaiting(w, c);
    RegisteredShape(w, c);
  }

  /** Who waits for a start-up has not left. */
  lemma CreatorRuns(w: World, c: nat)
    requires Shape(w) && BusyOk(w) && c in w.life && c in w.tree.created && w.life[c].creation != Settled
    ensures Parent(w, c) in w.life ==> !w.life[Parent(w, c)].clean
  {
    assert Acts(w, Parent(w, c));
    if Parent(w, c) in w.life {
      assert ShapeAt(w, Parent(w, c));
    }
    assert T.SYSTEM in w.tree.created ==> ShapeAt(w, T.SYSTEM);
  }

  lemma SettleKeeps(w: World, c: nat)
    requires Inv(w) && Enabled(w, Settle(c))
    ensures Inv(Next(w, Settle(c)))
  {
    hide Inv;
    if w.life[c].creation == Accepted {
      RegisteredKeeps(w, c);
      assert Next(w, Settle(c)) == Registered(w, c);
    } else {
      RefusedKeeps(w, c);
    }
  }

  lemma RefusedKeeps(w: World, c: nat)
    requires Inv(w) && Enabled(w, Settle(c)) && w.life[c].creation == Refused
    ensures Inv(Next(w, Settle(c)))
  {
    hide Inv, GoesOn, Serves;
    var o := w.tree.created[c];
    var t' := Deregister(T.TablesOf(w.tree, o.parent), o.path);
    DeregisterServes(T.TablesOf(w.tree, o.parent), o.path);
    ServesKeeps(w, o.parent, t');
    var w1 := w.(tree := T.WithTables(w.tree, o.parent, t'));
    var l := w.life[c].(creation := Settled);
    SettledGoesOn(w1, c, l);
    LifeKeeps(w1, c, l);
    assert Next(w, Settle(c)) == WithLife(w1, c, l);
  }

  lemma SettledGoesOn(w: World, c: nat, l: Life)
    requires Inv(w) && c in w.life && c in w.tree.created && w.life[c].creation == Refused
    requires l == w.life[c].(creation := Settled)
    ensures GoesOn(w, c, l)
  {
    hide ShapeAt, Shape, ChannelsOk, QueuesOk, AllWaitedOk, SignalsOk, EmittedOk, OrderOk, BusyOk, RegistryOk,
         PendingOk, AwaitingOk, SomeChildEmitted, Idle, Children, GoesOn;
    if Off(w.life[c]) {
      NoneToSettle(w, c);
    }
    RefusedFacts(w, c);
    RefusedGoesOn(w, c);
  }

  lemma RefusedFacts(w: World, c: nat)
    requires Shape(w) && AllWaitedOk(w) && c in w.life && w.life[c].creation == Refused
    ensures c in w.tree.created && ShapeAt(w, c) && c !in w.waited
  {
    hide ShapeAt, SomeChildEmitted;
    assert c in w.waited ==> WaitedOk(w, c);
  }

  lemma RefusedGoesOn(w: World, c: nat)
    requires c in w.tree.created && ShapeAt(w, c) && w.life[c].creation == Refused && c !in w.waited
    requires Off(w.life[c]) ==> Idle(w, c)
    ensures GoesOn(w, c, w.life[c].(creation := Settled))
  {
    hide Idle, Children, SomeChildEmitted, ActorPath.WellFormed;
  }

  /** An actor that is off has settled all its children. */
  lemma NoneToSettle(w: World, c: nat)
    requires BusyOk(w) && Shape(w) && c in w.life && Off(w.life[c])
    ensures Idle(w, c)
  {
    forall d | d in w.life && d in w.tree.created && w.tree.created[d].parent == c
      ensures w.life[d].creation == Settled
    {
      assert ShapeAt(w, d);
      assert w.life[d].creation != Settled ==> Acts(w, Parent(w, d));
    }
    assert T.SYSTEM !in w.tree.created;
  }

  // ---------- emitting Stopped ----------

  ghost predicate CanEmit(w: World, x: nat) {
    x in w.life && x in w.tree.created && w.life[x].phase == Left
  }

  lemma EmitsTables(w: World, x: nat)
    requires ChannelsOk(w) && QueuesOk(w) && RegistryOk(w) && BusyOk(w) && CanEmit(w, x)
    ensures ChannelsOk(Emits(w, x)) && QueuesOk(Emits(w, x)) && RegistryOk(Emits(w, x)) && BusyOk(Emits(w, x))
  {
    hide ActorPath.Parent;
    var w' := Emits(w, x);
    forall r, p | r in w'.tree.supervisors && p in w'.tree.supervisors[r].senders ensures ChannelOk(w', r, p) {
      assert ChannelOk(w, r, p);
    }
    forall d | d in w'.tree.queues ensures QueueOk(w', d) {
      assert QueueOk(w, d);
    }
    forall p | p in w'.tree.registry ensures RegisteredOk(w', p) {
      assert RegisteredOk(w, p);
    }
    forall d | d in w'.tree.created && d in w'.life && w'.life[d].creation != Settled ensures Acts(w', Parent(w', d)) {
      assert Acts(w, Parent(w, d));
    }
  }

  lemma EmitsSignals(w: World, x: nat)
    requires SignalsOk(w) && EmittedOk(w) && CanEmit(w, x)
    ensures SignalsOk(Emits(w, x)) && EmittedOk(Emits(w, x))
  {
    var w' := Emits(w, x);
    forall y, s | y in w'.signals && s in w'.signals[y] ensures SignalOk(w', y, s) {
      if s in w.signals[y] {
        assert SignalOk(w, y, s);
      }
    }
  }

  lemma MoreEmitted(w: World, w': World, emitted: seq<nat>, more: seq<nat>, y: nat)
    requires w'.tree.created == w.tree.created
    ensures SomeChildEmitted(w, emitted, y) ==> SomeChildEmitted(w', emitted + more, y)
  {
    if SomeChildEmitted(w, emitted, y) {
      var c :| c in emitted && c in w.tree.created && Parent(w, c) == y;
      assert c in emitted + more && Parent(w', c) == y;
    }
  }

  lemma EmitsOrder(w: World, x: nat)
    requires AllWaitedOk(w) && OrderOk(w) && EmittedOk(w) && CanEmit(w, x)
    ensures AllWaitedOk(Emits(w, x)) && OrderOk(Emits(w, x))
  {
    var w' := Emits(w, x);
    forall y | y in w'.waited ensures WaitedOk(w', y) {
      assert WaitedOk(w, y);
      MoreEmitted(w, w', w.emitted, [x], y);
    }
    forall i | 0 <= i < |w'.emitted| && w'.emitted[i] in w'.waited && w'.emitted[i] in w'.life
               && w'.life[w'.emitted[i]].clean
      ensures SomeChildEmitted(w', w'.emitted[..i], w'.emitted[i])
    {
      assert w'.emitted[..i] == w.emitted[..i];
      assert w.emitted[..|w.emitted|] == w.emitted;
      assert w'.emitted[..i] + [] == w'.emitted[..i];
      assert i == |w.emitted| ==> WaitedOk(w, x);
      MoreEmitted(w, w', w.emitted[..i], [], w'.emitted[i]);
    }
  }

  lemma EmitsPending(w: World, x: nat)
    requires PendingOk(w) && CanEmit(w, x)
    ensures PendingOk(Emits(w, x))
  {
    hide ActorPath.Parent;
    var w' := Emits(w, x);
    forall d | d in w'.tree.created && d in w'.life && d in w'.emitted && Parent(w', d) != T.SYSTEM
               && Parent(w', d) in w'.tree.supervisors && Parent(w', d) in w'.signals && Unheard(w', d)
      ensures Signal(d, w'.tree.created[d].path) in w'.signals[Parent(w', d)]
    {
      assert Unheard(w, d);
    }
  }

  lemma EmitsAwaited(w: World, x: nat, y: nat, d: nat)
    requires CanEmit(w, x) && Awaited(w, y, d) && y in w.tree.supervisors && y in w.signals
    ensures Awaited(Emits(w, x), y, d)
  {
  }

  lemma EmitsAwaiting(w: World, x: nat)
    requires AwaitingOk(w) && Shape(w) && CanEmit(w, x)
    ensures AwaitingOk(Emits(w, x))
  {
    hide ActorPath.WellFormed;
    var w' := Emits(w, x);
    forall y | y in w'.waited && y in w'.life && w'.life[y].phase == Running && y !in w'.behind
      ensures exists d :: Awaited(w', y, d)
    {
      var d :| Awaited(w, y, d);
      assert ShapeAt(w, y);
      EmitsAwaited(w, x, y, d);
    }
  }

  lemma EmitsShapeAt(w: World, x: nat, d: nat)
    requires CanEmit(w, x) && d in w.tree.created && ShapeAt(w, d)
    ensures ShapeAt(Emits(w, x), d)
  {
    hide ActorPath.WellFormed;
  }

  lemma EmitsShape(w: World, x: nat)
    requires Shape(w) && CanEmit(w, x)
    ensures Shape(Emits(w, x))
  {
    hide ShapeAt;
    var w' := Emits(w, x);
    forall d | d in w'.tree.created ensures ShapeAt(w', d) {
      EmitsShapeAt(w, x, d);
    }
  }

  lemma EmitKeeps(w: World, x: nat)
    requires Inv(w) && CanEmit(w, x)
    ensures Inv(Emits(w, x))
  {
    hide Shape, ChannelsOk, QueuesOk, AllWaitedOk, SignalsOk, EmittedOk, OrderOk, BusyOk, RegistryOk, PendingOk,
         AwaitingOk, Emits;
    EmitsTables(w, x);
    EmitsSignals(w, x);
    EmitsOrder(w, x);
    EmitsPending(w, x);
    EmitsAwaiting(w, x);
    EmitsShape(w, x);
  }

  // ---------- dropping a runner ----------

  function RunnerGone(w: World, x: nat): World
    requires x in w.life
  {
    w.(tree := w.tree.(supervisors := w.tree.supervisors - {x}, queues := w.tree.queues - {x}),
       life := w.life[x := w.life[x].(phase := Gone)])
  }

  ghost predicate CanDrop(w: World, x: nat) {
    x in w.life && x != T.SYSTEM && w.life[x].phase == Emitted
  }

  lemma DropTables(w: World, x: nat)
    requires ChannelsOk(w) && QueuesOk(w) && RegistryOk(w) && CanDrop(w, x)
    ensures ChannelsOk(RunnerGone(w, x)) && QueuesOk(RunnerGone(w, x)) && RegistryOk(RunnerGone(w, x))
  {
    hide ActorPath.Parent;
    var w' := RunnerGone(w, x);
    forall r, p | r in w'.tree.supervisors && p in w'.tree.supervisors[r].senders ensures ChannelOk(w', r, p) {
      assert ChannelOk(w, r, p);
    }
    forall d | d in w'.tree.queues ensures QueueOk(w', d) {
      assert QueueOk(w, d);
    }
    forall p | p in w'.tree.registry ensures RegisteredOk(w', p) {
      assert RegisteredOk(w, p);
    }
  }

  lemma DropBusy(w: World, x: nat)
    requires BusyOk(w) && CanDrop(w, x)
    ensures BusyOk(RunnerGone(w, x))
  {
    var w' := RunnerGone(w, x);
    forall d | d in w'.tree.created && d in w'.life && w'.life[d].creation != Settled ensures Acts(w', Parent(w', d)) {
      assert Acts(w, Parent(w, d));
    }
  }

  lemma DropHistory(w: World, x: nat)
    requires AllWaitedOk(w) && SignalsOk(w) && EmittedOk(w) && OrderOk(w) && PendingOk(w) && CanDrop(w, x)
    ensures var w' := RunnerGone(w, x);
            AllWaitedOk(w') && SignalsOk(w') && EmittedOk(w') && OrderOk(w') && PendingOk(w')
  {
    var w' := RunnerGone(w, x);
    assert forall emitted, y :: SomeChildEmitted(w', emitted, y) <==> SomeChildEmitted(w, emitted, y);
    hide SomeChildEmitted, ActorPath.Parent;
    forall y | y in w'.waited ensures WaitedOk(w', y) {
      assert WaitedOk(w, y);
    }
    forall y, s | y in w'.signals && s in w'.signals[y] ensures SignalOk(w', y, s) {
      assert SignalOk(w, y, s);
    }
    forall d | d in w'.tree.created && d in w'.life && d in w'.emitted && Parent(w', d) != T.SYSTEM
               && Parent(w', d) in w'.tree.supervisors && Parent(w', d) in w'.signals && Unheard(w', d)
      ensures Signal(d, w'.tree.created[d].path) in w'.signals[Parent(w', d)]
    {
      assert Unheard(w, d);
    }
  }

  lemma DropAwaiting(w: World, x: nat)
    requires AwaitingOk(w) && CanDrop(w, x)
    ensures AwaitingOk(RunnerGone(w, x))
  {
    var w' := RunnerGone(w, x);
    forall y | y in w'.waited && y in w'.life && w'.life[y].phase == Running && y !in w'.behind
      ensures exists d :: Awaited(w', y, d)
    {
      var d :| Awaited(w, y, d);
      assert Awaited(w', y, d);
    }
  }

  lemma DropShapeAt(w: World, x: nat, d: nat)
    requires d in w.tree.created && ShapeAt(w, d) && CanDrop(w, x)
    ensures ShapeAt(RunnerGone(w, x), d)
  {
    hide ActorPath.WellFormed;
  }

  lemma DropShape(w: World, x: nat)
    requires Shape(w) && CanDrop(w, x)
    ensures Shape(RunnerGone(w, x))
  {
    hide ShapeAt;
    var w' := RunnerGone(w, x);
    assert w'.tree.created == w.tree.created && w'.life.Keys == w.life.Keys;
    forall d | d in w'.tree.created ensures ShapeAt(w', d) {
      DropShapeAt(w, x, d);
    }
  }

  lemma DropNext(w: World, x: nat)
    requires Enabled(w, Drop(x))
    ensures Next(w, Drop(x)) == RunnerGone(w, x) && CanDrop(w, x)
  {
  }

  lemma DropKeeps(w: World, x: nat)
    requires Inv(w) && Enabled(w, Drop(x))
    ensures Inv(Next(w, Drop(x)))
  {
    DropNext(w, x);
    hide Shape, ChannelsOk, QueuesOk, AllWaitedOk, SignalsOk, EmittedOk, OrderOk, BusyOk, RegistryOk, PendingOk,
         AwaitingOk, RunnerGone, Next;
    DropTables(w, x);
    DropBusy(w, x);
    DropHistory(w, x);
    DropAwaiting(w, x);
    DropShape(w, x);
  }

  // ---------- starting ----------

  lemma StartGoesOn(w: World, c: nat, l: Life)
    requires c in w.tree.created && ShapeAt(w, c) && w.life[c].phase == Starting && Idle(w, c) && c !in w.emitted
    requires l == Life(Running, Accepted, false) || l == Life(Left, Refused, false)
    ensures GoesOn(w, c, l)
  {
    hide Idle, Children, SomeChildEmitted, ActorPath.WellFormed;
  }

  lemma StartingFacts(w: World, c: nat)
    requires Shape(w) && EmittedOk(w) && c in w.life && w.life[c].phase == Starting
    ensures c in w.tree.created && ShapeAt(w, c) && c !in w.emitted
  {
    hide ShapeAt;
  }

  lemma StartKeeps(w: World, c: nat, l: Life)
    requires Inv(w) && c in w.life && w.life[c].phase == Starting && Idle(w, c)
    requires l == Life(Running, Accepted, false) || l == Life(Left, Refused, false)
    ensures Inv(WithLife(w, c, l))
  {
    hide ShapeAt, Shape, ChannelsOk, QueuesOk, AllWaitedOk, SignalsOk, EmittedOk, OrderOk, BusyOk, RegistryOk,
         PendingOk, AwaitingOk, SomeChildEmitted, Idle, Children, GoesOn;
    StartingFacts(w, c);
    StartGoesOn(w, c, l);
    LifeKeeps(w, c, l);
  }

  // ---------- turns of a running actor ----------

  lemma StopAllKeeps(w: World, s: nat, order: seq<ActorPath>)
    requires Inv(w) && T.Enabled(w.tree, T.Op.StopAllChildren(s, order))
    ensures Inv(TreeStep(w, T.Op.StopAllChildren(s, order)))
  {
    OwnTables(w, s);
    StopEachServes(T.TablesOf(w.tree, s), order);
    hide Inv, Serves;
    ServesKeeps(w, s, StopEach(T.TablesOf(w.tree, s), order).0);
  }

  lemma SystemErrorKeeps(w: World, path: ActorPath, order: seq<ActorPath>)
    requires Inv(w) && T.Enabled(w.tree, T.Op.SystemError(path, order))
    ensures Inv(TreeStep(w, T.Op.SystemError(path, order)))
  {
    OwnTables(w, T.SYSTEM);
    StopEachServes(T.TablesOf(w.tree, T.SYSTEM), order);
    hide Inv, Serves;
    ServesKeeps(w, T.SYSTEM, StopEach(T.TablesOf(w.tree, T.SYSTEM), order).0);
  }

  lemma ChildStoppedKeeps(w: World, s: nat, path: ActorPath)
    requires Inv(w) && s in w.tree.supervisors
    ensures Inv(TreeStep(w, T.Op.ChildStopped(s, path)))
  {
    DeregisterServes(T.TablesOf(w.tree, s), path);
    hide Inv, Serves;
    ServesKeeps(w, s, Deregister(T.TablesOf(w.tree, s), path));
  }

  /** The rest of the world does not depend on the system's phase. */
  lemma SystemPhaseKeeps(w: World, phase: SystemPhase)
    requires Inv(w)
    ensures Inv(w.(system := phase))
  {
    var w' := w.(system := phase);
    BehindRest(w, w');
    hide Shape, ChannelsOk, QueuesOk, AllWaitedOk, SignalsOk, EmittedOk, OrderOk, BusyOk, RegistryOk, PendingOk;
    forall y | y in w'.waited && y in w'.life && w'.life[y].phase == Running && y !in w'.behind
      ensures exists d :: Awaited(w', y, d)
    {
      var d :| Awaited(w, y, d);
      assert Awaited(w', y, d);
    }
  }

  /** The actor itself, when its children have been served. */
  lemma SelfServed(w: World, s: nat, t': Tables, x: nat)
    requires s in w.tree.supervisors && Serves(T.TablesOf(w.tree, s), t') && IsRunning(w, x) && w.tree.queues[x] != []
    ensures var w' := w.(tree := T.WithTables(w.tree, s, t'));
            && IsRunning(w', x) && (Idle(w, x) ==> Idle(w', x))
            && w'.tree.queues[x] != [] && w'.tree.queues[x][0] == w.tree.queues[x][0]
            && w'.tree.supervisors[x].path == w.tree.supervisors[x].path
  {
    assert ServedQueue(T.TablesOf(w.tree, s), t', x);
  }

  lemma ActorPathIs(w: World, x: nat)
    requires Shape(w) && IsRunning(w, x)
    ensures x in w.tree.created && w.tree.supervisors[x].path == w.tree.created[x].path && x != T.SYSTEM
    ensures w.tree.supervisors[x].path.tokens != []
  {
    assert ShapeAt(w, x);
    hide ActorPath.WellFormed;
  }

  /** A child with a channel that was told, or whose channel is gone, is awaited. */
  lemma ChannelAwaited(w: World, w': World, x: nat, p: ActorPath)
    requires Inv(w) && IsRunning(w, x) && p in w.tree.supervisors[x].senders && p.Parent() == w.tree.supervisors[x].path
    requires w'.tree.created == w.tree.created && w'.life == w.life
    requires w'.signals == w.signals && w'.emitted == w.emitted
    requires var c := w.tree.supervisors[x].senders[p];
             c !in w.tree.queues || (c in w'.tree.queues && Stop in w'.tree.queues[c])
    ensures exists c :: Awaited(w', x, c)
  {
    var c := w.tree.supervisors[x].senders[p];
    assert ChannelOk(w, x, p);
    assert ShapeAt(w, c);
    ActorPathIs(w, x);
    hide ActorPath.Parent, ActorPath.WellFormed, ChannelsOk, QueuesOk, AllWaitedOk, SignalsOk, OrderOk, BusyOk,
         RegistryOk, AwaitingOk;
    assert Unheard(w, c);
    assert Awaited(w', x, c);
  }

  lemma StopsAwaited(w: World, x: nat, order: seq<ActorPath>)
    requires Inv(w) && IsRunning(w, x) && T.Enabled(w.tree, T.Op.StopAllChildren(x, order))
    requires order != [] && !LeftBehind(w, x, order)
    ensures exists c :: Awaited(TreeStep(w, T.Op.StopAllChildren(x, order)), x, c)
  {
    hide Shape, ChannelsOk, QueuesOk, AllWaitedOk, SignalsOk, EmittedOk, OrderOk, BusyOk, RegistryOk, PendingOk,
         AwaitingOk, StopEach, StopOne, Visited, ActorPath.Parent, Awaited, OwnChannels, QueueAfter;
    var t, n := T.TablesOf(w.tree, x), Stopped(T.TablesOf(w.tree, x), order);
    var w' := TreeStep(w, T.Op.StopAllChildren(x, order));
    OwnTables(w, x);
    StopEachExact(t, order);
    hide Inv;
    var p := if n < |order| then order[n] else order[0];
    assert p in order && p in Children(w.tree.registry, w.tree.supervisors[x].path);
    if n == |order| {
      assert Stoppable(t, p) && p in order[..n];
      OwnGetsOne(t, StopEach(t, order).0, order[..n], p);
    } else {
      StoppedAt(t, order);
    }
    ChannelAwaited(w, w', x, p);
  }

  lemma OwnGetsOne(t: Tables, t': Tables, served: seq<ActorPath>, p: ActorPath)
    requires p in served && Stoppable(t, p) && QueueAfter(t, t', served, Stop, t.senders[p])
    ensures t.senders[p] in t'.queues && Stop in t'.queues[t.senders[p]]
  {
    assert Owns(t, served, t.senders[p]);
  }

  lemma {:induction false} StoppedAt(t: Tables, order: seq<ActorPath>)
    ensures Stopped(t, order) < |order| ==> !Stoppable(t, order[Stopped(t, order)])
  {
    if order != [] && Stoppable(t, order[0]) {
      StoppedAt(t, order[1..]);
    }
  }

  lemma MayStop(w: World, x: nat, order: seq<ActorPath>)
    requires Enabled(w, HandleStop(x, order, true, true))
    ensures IsRunning(w, x) && Idle(w, x) && w.tree.queues[x] != [] && w.tree.queues[x][0] == Stop
    ensures T.Enabled(w.tree, T.Op.StopAllChildren(x, order)) && Distinct(order)
  {
    hide Idle, Distinct, Children;
  }

  /** The stopping actor is as before when its children have been told. */
  lemma StopServedSelf(w: World, x: nat, order: seq<ActorPath>)
    requires ChannelsOk(w) && Shape(w) && Enabled(w, HandleStop(x, order, true, true))
    ensures var w0 := TreeStep(w, T.Op.StopAllChildren(x, order));
            && IsRunning(w0, x) && Idle(w0, x) && x in w0.tree.created
            && w0.tree.queues[x] != [] && w0.tree.queues[x][0] == Stop
  {
    MayStop(w, x, order);
    hide Enabled, T.Enabled, Idle, Serves, Shape, ChannelsOk, StopEach, OwnChannels, Distinct;
    ActorPathIs(w, x);
    OwnTables(w, x);
    var t := T.TablesOf(w.tree, x);
    StopEachServes(t, order);
    SelfServed(w, x, StopEach(t, order).0, x);
  }

  lemma StopServedNone(w: World, x: nat)
    requires Shape(w) && Enabled(w, HandleStop(x, [], true, true))
    ensures var w0 := TreeStep(w, T.Op.StopAllChildren(x, []));
            x in w0.tree.created && Children(w0.tree.registry, w0.tree.created[x].path) == {}
  {
    ActorPathIs(w, x);
    hide Idle, Shape;
    NoneListed(Children(w.tree.registry, w.tree.supervisors[x].path));
  }

  /** The stopping actor, after its children have been told. */
  lemma StopServed(w: World, x: nat, order: seq<ActorPath>)
    requires Inv(w) && Enabled(w, HandleStop(x, order, true, true))
    ensures var w0 := TreeStep(w, T.Op.StopAllChildren(x, order));
            && Inv(w0) && IsRunning(w0, x) && Idle(w0, x) && x in w0.tree.created
            && w0.tree.queues[x] != [] && w0.tree.queues[x][0] == Stop
            && (order == [] ==> Children(w0.tree.registry, w0.tree.created[x].path) == {})
            && (order != [] && !LeftBehind(w, x, order) ==> exists c :: Awaited(w0, x, c))
  {
    hide Shape, ChannelsOk, QueuesOk, AllWaitedOk, SignalsOk, EmittedOk, OrderOk, BusyOk, RegistryOk, PendingOk,
         AwaitingOk, Idle, Awaited, LeftBehind, Children, T.Apply, Lists;
    StopServedSelf(w, x, order);
    hide Inv;
    StopAllKeeps(w, x, order);
    if order == [] {
      StopServedNone(w, x);
    } else if !LeftBehind(w, x, order) {
      StopsAwaited(w, x, order);
    }
  }

  lemma StopTurnKeeps(w: World, x: nat, order: seq<ActorPath>, fault: bool)
    requires Inv(w) && Enabled(w, HandleStop(x, order, true, fault))
    ensures Inv(Next(w, HandleStop(x, order, true, fault)))
  {
    hide Inv, Idle, Awaited, Children, T.Apply, T.Enabled;
    StopServed(w, x, order);
    EmptyOrder(T.TablesOf(w.tree, x), order);
    var w0 := TreeStep(w, T.Op.StopAllChildren(x, order));
    var r := StopEach(T.TablesOf(w.tree, x), order).1;
    hide StopEach, LeftBehind, Took, Leaves, Waits;
    if r.Ok? && order == [] {
      StopLeavesKeeps(w0, x, true);
    } else if r.Err? && !fault {
      StopLeavesKeeps(w0, x, false);
    } else {
      WaitsKeeps(w0, x, LeftBehind(w, x, order));
    }
  }

  lemma HandleStopKeeps(w: World, x: nat, order: seq<ActorPath>, preStop: bool, fault: bool)
    requires Inv(w) && Enabled(w, HandleStop(x, order, preStop, fault))
    ensures Inv(Next(w, HandleStop(x, order, preStop, fault)))
  {
    if preStop {
      StopTurnKeeps(w, x, order, fault);
    } else {
      ActorPathIs(w, x);
      hide Inv, Idle, T.Enabled, Children;
      StopLeavesKeeps(w, x, false);
    }
  }

  lemma EmptyOrder(t: Tables, order: seq<ActorPath>)
    ensures order == [] ==> StopEach(t, order) == (t, Ok(()))
  {
  }

  lemma NoneListed(s: set<ActorPath>)
    ensures Lists([], s) ==> s == {}
  {
    var none: seq<ActorPath> := [];
    if Lists([], s) {
      forall p ensures p !in s {
        assert p in none <==> p in s;
      }
    }
  }

  /** The tables before an actor that handles Stop takes the action. */
  function StopTables(w: World, x: nat, order: seq<ActorPath>, preStop: bool): World
    requires preStop ==> T.Enabled(w.tree, T.Op.StopAllChildren(x, order))
  {
    if preStop then TreeStep(w, T.Op.StopAllChildren(x, order)) else w
  }

  lemma StopEnabled(w: World, x: nat, order: seq<ActorPath>, preStop: bool, fault: bool)
    requires Enabled(w, HandleStop(x, order, preStop, fault))
    ensures IsRunning(w, x) && Idle(w, x) && w.tree.queues[x] != [] && w.tree.queues[x][0] == Stop
    ensures T.Enabled(w.tree, T.Op.StopAllChildren(x, order))
    ensures Enabled(w, HandleStop(x, order, true, true))
  {
    hide Idle, T.Enabled;
  }

  /** What handling Stop does, however it ends. */
  lemma StopNext(w: World, x: nat, order: seq<ActorPath>, preStop: bool, fault: bool)
    requires Enabled(w, HandleStop(x, order, preStop, fault)) && T.Enabled(w.tree, T.Op.StopAllChildren(x, order))
    requires x in w.life
    ensures var w', w0 := Next(w, HandleStop(x, order, preStop, fault)), StopTables(w, x, order, preStop);
            && w'.tree == Took(w0, x).tree && w'.signals == w.signals && w'.emitted == w.emitted
            && w'.system == w.system && w.waited <= w'.waited <= w.waited + {x} && w'.behind <= w.behind + {x}
            && w'.life.Keys == w.life.Keys && (forall c | c in w.life && c != x :: w'.life[c] == w.life[c])
            && w'.life[x].creation == w.life[x].creation
            && if x in w'.waited && x !in w.waited then w'.life == w.life
               else w'.waited == w.waited && (w'.life[x].phase == Left || (w'.life == w.life && x in w.waited))
  {
    hide Enabled, StopEach, LeftBehind, Took, T.Enabled, T.Apply;
    if preStop {
      TookSame(TreeStep(w, T.Op.StopAllChildren(x, order)), x);
      hide StopTurn;
      StopTurnNext(w, x, order, fault);
    } else {
      TookSame(w, x);
      hide StopTurn;
      NoPreStopNext(w, x, order, fault);
    }
  }

  lemma NoPreStopNext(w: World, x: nat, order: seq<ActorPath>, fault: bool)
    requires x in w.life && T.Enabled(w.tree, T.Op.StopAllChildren(x, order))
    ensures StopTurn(w, x, order, false, fault) == Leaves(Took(w, x), x, false)
  {
    hide T.Enabled;
  }

  lemma StopTurnNext(w: World, x: nat, order: seq<ActorPath>, fault: bool)
    requires x in w.life && T.Enabled(w.tree, T.Op.StopAllChildren(x, order))
    ensures var w1 := Took(TreeStep(w, T.Op.StopAllChildren(x, order)), x);
            var w' := StopTurn(w, x, order, true, fault);
            || w' == Leaves(w1, x, true) || w' == Leaves(w1, x, false)
            || w' == Waits(w1, x, LeftBehind(w, x, order))
  {
    hide StopEach, LeftBehind, Took, T.Enabled, T.Apply, Leaves, Waits;
    TookSame(TreeStep(w, T.Op.StopAllChildren(x, order)), x);
  }

  /** What handling Restart does, however it ends. */
  lemma RestartNext(w: World, x: nat, order: seq<ActorPath>, fault: bool, again: bool)
    requires Enabled(w, HandleRestart(x, order, fault, again))
    ensures IsRunning(w, x) && Idle(w, x) && w.tree.queues[x] != [] && w.tree.queues[x][0] == Restart
    ensures T.Enabled(w.tree, T.Op.RestartAll(x, order)) && Enabled(w, HandleRestart(x, order, true, true))
    ensures var w', w0 := Next(w, HandleRestart(x, order, fault, again)), TreeStep(w, T.Op.RestartAll(x, order));
            && w'.tree == Took(w0, x).tree && w'.signals == w.signals && w'.emitted == w.emitted
            && w'.system == w.system && w'.waited == w.waited
            && w'.life.Keys == w.life.Keys && (forall c | c in w.life && c != x :: w'.life[c] == w.life[c])
            && (w'.life == w.life || w'.life[x] == w.life[x].(phase := Left, clean := false))
  {
    hide Idle, RestartEach, Took, T.Enabled, T.Apply;
    TookSame(TreeStep(w, T.Op.RestartAll(x, order)), x);
  }

  /** Steps of the tables only. */
  predicate IsTables(step: Step) {
    step.StopChild? || step.RemoveChild? || step.RestartChildren? || step.SystemError? || step.SystemFault?
    || step.SystemCancel?
  }

  lemma TablesNext(w: World, step: Step)
    requires Enabled(w, step) && IsTables(step)
    ensures var w' := Next(w, step);
            && w'.signals == w.signals && w'.emitted == w.emitted && w'.waited == w.waited && w'.life == w.life
  {
    hide Idle, T.Apply, T.Enabled, T.ChildPath;
  }

  lemma SettleNext(w: World, c: nat)
    requires Enabled(w, Settle(c))
    ensures var w' := Next(w, Settle(c));
            && c in w.life && w'.signals == w.signals && w'.emitted == w.emitted && w'.waited == w.waited
            && w'.life == w.life[c := w.life[c].(creation := Settled)]
  {
    hide Idle, T.Apply, T.Enabled;
  }

  lemma SignalNext(w: World, x: nat)
    requires Enabled(w, HandleSignal(x))
    ensures IsRunning(w, x) && Idle(w, x) && w.signals[x] != []
    ensures var w', w1 := Next(w, HandleSignal(x)), TreeStep(w, T.Op.ChildStopped(x, SignalPath(w, x)));
            && w'.tree == w1.tree && w'.signals == w.signals[x := w.signals[x][1..]] && w'.emitted == w.emitted
            && w'.waited == w.waited && w'.system == w.system
            && if Children(w1.tree.registry, w.tree.supervisors[x].path) == {}
               then w'.life == w.life[x := w.life[x].(phase := Left, clean := true)] && w'.behind == w.behind
               else w'.life == w.life && w'.behind == w.behind + {x}
  {
    hide Idle, T.Apply, SignalPath, Children;
  }

  lemma SystemNext(w: World)
    requires Enabled(w, SystemSignal)
    ensures var w' := Next(w, SystemSignal);
            && w'.signals == w.signals[T.SYSTEM := w.signals[T.SYSTEM][1..]] && w'.emitted == w.emitted
            && w'.waited == w.waited && w'.life == w.life
  {
    hide T.Apply, Children;
  }

  lemma EmitNext(w: World, x: nat)
    requires Enabled(w, Emit(x))
    ensures x in w.life && x in w.tree.created && w.life[x].phase == Left && Next(w, Emit(x)) == Emits(w, x)
  {
  }

  lemma SpawnNew(w: World, x: nat, name: string, c: nat)
    requires Enabled(w, Spawn(x, name, c))
    ensures c !in w.life && c !in w.tree.created && x in w.tree.supervisors
  {
    hide T.ChildPath, Idle;
  }

  /** Whose life a step may change, and how. */
  ghost predicate LifeAfter(w: World, w': World, step: Step, c: nat)
    requires c in w.life
  {
    && c in w'.life
    && (w'.life[c] == w.life[c] ||
        match step
        case Start(d) => c == d && w.life[c].phase == Starting && w'.life[c] == Life(Running, Accepted, false)
        case Refuse(d) => c == d && w.life[c].phase == Starting && w'.life[c] == Life(Left, Refused, false)
        case Settle(d) => c == d && w'.life[c] == w.life[c].(creation := Settled)
        case HandleStop(x, _, _, _) =>
          c == x && w.life[c].phase == Running && w'.life[c].phase == Left && w'.life[c].creation == w.life[c].creation
        case HandleRestart(x, _, _, _) =>
          c == x && w.life[c].phase == Running && w'.life[c] == w.life[c].(phase := Left, clean := false)
        case HandleSignal(x) =>
          c == x && w.life[c].phase == Running && w'.life[c] == w.life[c].(phase := Left, clean := true)
        case Emit(x) => c == x && w.life[c].phase == Left && w'.life[c] == w.life[c].(phase := Emitted)
        case Drop(x) => c == x && w.life[c].phase == Emitted && w'.life[c] == w.life[c].(phase := Gone)
        case _ => false)
  }

  lemma LivesNext(w: World, step: Step)
    requires Enabled(w, step)
    ensures forall c | c in w.life :: LifeAfter(w, Next(w, step), step, c)
    ensures w.waited <= Next(w, step).waited
  {
    hide Enabled, Next, T.Apply, T.Enabled, Took, SignalPath, Children, StopTables;
    if IsTables(step) {
      TablesNext(w, step);
    } else if step.Start? || step.Refuse? {
      StartNext(w, step);
    } else {
      match step {
        case Spawn(y, name, c) =>
          SpawnNew(w, y, name, c);
          SpawnStep(w, y, name, c);
        case Settle(c) => SettleNext(w, c);
        case HandleStop(y, order, preStop, fault) =>
          StopEnabled(w, y, order, preStop, fault);
          StopNext(w, y, order, preStop, fault);
        case HandleRestart(y, order, fault, again) => RestartNext(w, y, order, fault, again);
        case HandleSignal(y) => SignalNext(w, y);
        case Emit(y) => EmitNext(w, y);
        case Drop(y) => DropNext(w, y);
        case SystemSignal => SystemNext(w);
      }
    }
  }

  /** Taking an action changes one queue only. */
  lemma TookSame(w: World, x: nat)
    ensures var w1 := Took(w, x);
            && w1 == w.(tree := w.tree.(queues := w1.tree.queues)) && w1.tree.queues.Keys == w.tree.queues.Keys
            && forall c | c in w.tree.queues && c != x :: w1.tree.queues[c] == w.tree.queues[c]
  {
  }

  lemma RestartServedSelf(w: World, x: nat, order: seq<ActorPath>)
    requires ChannelsOk(w) && Shape(w) && Enabled(w, HandleRestart(x, order, true, true))
    ensures var w0 := TreeStep(w, T.Op.RestartAll(x, order));
            && IsRunning(w0, x) && Idle(w0, x) && x in w0.tree.created
            && w0.tree.queues[x] != [] && w0.tree.queues[x][0] == Restart
  {
    ActorPathIs(w, x);
    hide Shape, T.Apply, Idle;
    RestartsRestarted(w, x, order);
    hide ChannelsOk;
    SameIdle(w, TreeStep(w, T.Op.RestartAll(x, order)), x);
  }

  lemma HandleRestartKeeps(w: World, x: nat, order: seq<ActorPath>, fault: bool, again: bool)
    requires Inv(w) && Enabled(w, HandleRestart(x, order, fault, again))
    ensures Inv(Next(w, HandleRestart(x, order, fault, again)))
  {
    RestartServedSelf(w, x, order);
    RestartsKeep(w, x, order);
    hide Inv, T.Apply, Idle, RestartEach, Took, Leaves;
    var w0 := TreeStep(w, T.Op.RestartAll(x, order));
    if (RestartEach(T.TablesOf(w.tree, x), order).1.Ok? || fault) && again {
      TookKeeps(w0, x);
    } else {
      StopLeavesKeeps(w0, x, false);
    }
  }

  lemma SignalServed(w: World, x: nat, p: ActorPath)
    requires IsRunning(w, x) && Idle(w, x)
    ensures var w1 := TreeStep(w, T.Op.ChildStopped(x, p));
            && IsRunning(w1, x) && Idle(w1, x) && w1.signals == w.signals && w1.tree.created == w.tree.created
            && w1.tree.supervisors[x].path == w.tree.supervisors[x].path && p !in w1.tree.supervisors[x].senders
  {
  }

  /** The path removed for a direct child's signal is the child's own. */
  lemma DirectRemoved(w: World, x: nat)
    requires Inv(w) && IsRunning(w, x) && w.signals[x] != []
    ensures x in w.tree.created && w.tree.created[x].path == w.tree.supervisors[x].path
    ensures var s := w.signals[x][0];
            s.path.Parent() == w.tree.supervisors[x].path ==> SignalPath(w, x) == s.path
  {
    hide Shape, ChannelsOk, QueuesOk, AllWaitedOk, SignalsOk, EmittedOk, OrderOk, BusyOk, RegistryOk, PendingOk,
         AwaitingOk, SomeChildEmitted, ActorPath.Parent, ActorPath.Div, ActorPath.WellFormed;
    ActorPathIs(w, x);
    SignalFacts(w, x);
    var s, path := w.signals[x][0], w.tree.supervisors[x].path;
    if s.path.Parent() == path {
      DirectKey(path, s.path);
    }
  }

  lemma HandleSignalKeeps(w: World, x: nat)
    requires Inv(w) && Enabled(w, HandleSignal(x))
    ensures Inv(Next(w, HandleSignal(x)))
  {
    hide Inv, Idle, ActorPath.Parent, SignalPath, T.Apply;
    DirectRemoved(w, x);
    SignalServed(w, x, SignalPath(w, x));
    ChildStoppedKeeps(w, x, SignalPath(w, x));
    var w1 := TreeStep(w, T.Op.ChildStopped(x, SignalPath(w, x)));
    HeardKeeps(w1, x, Children(w1.tree.registry, w.tree.supervisors[x].path) == {});
  }

  lemma SystemSignalKeeps(w: World)
    requires Inv(w) && Enabled(w, SystemSignal)
    ensures Inv(Next(w, SystemSignal))
  {
    var path := w.signals[T.SYSTEM][0].path;
    assert T.SYSTEM in w.waited ==> WaitedOk(w, T.SYSTEM);
    assert T.SYSTEM in w.tree.created ==> ShapeAt(w, T.SYSTEM);
    assert T.SYSTEM !in w.waited;
    hide Inv, Children;
    ChildStoppedKeeps(w, T.SYSTEM, path);
    var w1 := TreeStep(w, T.Op.ChildStopped(T.SYSTEM, path));
    PoppedKeeps(w1, T.SYSTEM);
    SystemPhaseKeeps(Popped(w1, T.SYSTEM), Next(w, SystemSignal).system);
  }

  /** Every step keeps the invariant. */
  lemma StepKeeps(w: World, step: Step)
    requires Inv(w) && Enabled(w, step)
    ensures Inv(Next(w, step))
  {
    hide Inv, Idle, Children, Serves;
    match step {
      case Spawn(x, name, c) => SpawnKeeps(w, x, name, c);
      case Start(c) => StartKeeps(w, c, Life(Running, Accepted, false));
      case Refuse(c) => StartKeeps(w, c, Life(Left, Refused, false));
      case Settle(c) => SettleKeeps(w, c);
      case StopChild(x, name) =>
        var p := T.ChildPath(w.tree, x, name);
        StopOneServes(T.TablesOf(w.tree, x), p);
        ServesKeeps(w, x, StopOne(T.TablesOf(w.tree, x), p).0);
      case RemoveChild(x, name) => ChildStoppedKeeps(w, x, T.ChildPath(w.tree, x, name));
      case RestartChildren(x, order) => RestartsKeep(w, x, order);
      case HandleStop(x, order, preStop, fault) => HandleStopKeeps(w, x, order, preStop, fault);
      case HandleRestart(x, order, fault, again) => HandleRestartKeeps(w, x, order, fault, again);
      case HandleSignal(x) => HandleSignalKeeps(w, x);
      case Emit(x) => EmitKeeps(w, x);
      case Drop(x) => DropKeeps(w, x);
      case SystemError(path, order) => SystemErrorKeeps(w, path, order);
      case SystemFault(order) => StopAllKeeps(w, T.SYSTEM, order);
      case SystemCancel(order) =>
        StopAllKeeps(w, T.SYSTEM, order);
        SystemPhaseKeeps(TreeStep(w, T.Op.StopAllChildren(T.SYSTEM, order)), Next(w, step).system);
      case SystemSignal => SystemSignalKeeps(w);
    }
  }

  lemma BootInv()
    ensures Inv(Boot())
  {
    RootWellFormed();
  }

  /** The invariant holds over every run. */
  lemma {:induction false} InvOfRun(steps: seq<Step>)
    requires ValidRun(steps)
    ensures Inv(After(steps))
  {
    if steps == [] {
      BootInv();
    } else {
      InvOfRun(steps[..|steps| - 1]);
      StepKeeps(After(steps[..|steps| - 1]), steps[|steps| - 1]);
    }
  }
}
