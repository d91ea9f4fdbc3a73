/** Runs from the start that reach the states the theorems speak of. */
module ShutdownRuns {
  import opened Wrappers
  import opened Paths
  import opened Supervision
  import opened Shutdown
  import opened ShutdownInvariants
  import opened ShutdownOrders
  import opened ShutdownBranches
  import opened ShutdownWaits
  import opened ShutdownReuse
  import opened ShutdownProgress
  import opened ShutdownAlone
  import opened ShutdownDrains
  import opened ShutdownStuck
  import T = SupervisionTrees

  lemma RunStep(steps: seq<Step>, step: Step)
    requires ValidRun(steps) && Enabled(After(steps), step)
    ensures ValidRun(steps + [step]) && After(steps + [step]) == Next(After(steps), step)
  {
    hide Enabled, Next;
    assert (steps + [step])[..|steps|] == steps;
  }

  // ---------- creating a child that starts ----------

  function Ups(x: nat, name: string, c: nat): seq<Step> { [Spawn(x, name, c), Start(c), Settle(c)] }

  /** The world with one more running, registered child. */
  function Up(w: World, x: nat, path: ActorPath, c: nat): World
    requires x in w.tree.supervisors
  {
    var s := w.tree.supervisors[x];
    w.(tree := T.Tree(w.tree.registry[path := c],
                      w.tree.supervisors[c := T.Supervisor(path, map[])][x := s.(senders := s.senders[path := c])],
                      w.tree.queues[c := []],
                      w.tree.created[c := T.Origin(x, path)]),
       life := w.life[c := Life(Running, Settled, false)],
       signals := w.signals[c := []])
  }

  lemma UpRun(steps: seq<Step>, x: nat, name: string, c: nat)
    requires ValidRun(steps) && Enabled(After(steps), Spawn(x, name, c))
    ensures ValidRun(steps + Ups(x, name, c))
    ensures After(steps + Ups(x, name, c)) == Up(After(steps), x, T.ChildPath(After(steps).tree, x, name), c)
  {
    hide Inv, Shape, Enabled, Next, T.ChildPath, ValidRun, After, Up;
    InvOfRun(steps);
    ShapeOf(After(steps));
    UpSteps(After(steps), x, name, c);
    RunThree(steps, Spawn(x, name, c), Start(c), Settle(c));
  }

  lemma RunThree(steps: seq<Step>, a: Step, b: Step, c: Step)
    requires ValidRun(steps) && Enabled(After(steps), a) && Enabled(Next(After(steps), a), b)
    requires Enabled(Next(Next(After(steps), a), b), c)
    ensures ValidRun(steps + [a, b, c])
    ensures After(steps + [a, b, c]) == Next(Next(Next(After(steps), a), b), c)
  {
    hide Enabled, Next, ValidRun, After;
    RunStep(steps, a);
    RunStep(steps + [a], b);
    RunStep(steps + [a] + [b], c);
    assert steps + [a, b, c] == steps + [a] + [b] + [c];
  }

  lemma StartStep(w: World, x: nat, path: ActorPath, c: nat)
    requires Shape(w) && c !in w.life && x != c && c != T.SYSTEM
    ensures var w1 := Spawned(w, x, path, c);
            Enabled(w1, Start(c)) && Next(w1, Start(c)) == WithLife(w1, c, Life(Running, Accepted, false))
  {
    forall d | d in w.tree.created ensures w.tree.created[d].parent != c {
      assert ShapeAt(w, d);
    }
    hide ShapeAt;
  }

  lemma SettleStep(w: World, x: nat, path: ActorPath, c: nat)
    requires x in w.tree.supervisors && x != c
    ensures var w2 := WithLife(Spawned(w, x, path, c), c, Life(Running, Accepted, false));
            Enabled(w2, Settle(c)) && Next(w2, Settle(c)) == Up(w, x, path, c)
  {
  }

  lemma UpSteps(w: World, x: nat, name: string, c: nat)
    requires Shape(w) && Enabled(w, Spawn(x, name, c))
    ensures var w1 := Next(w, Spawn(x, name, c));
            && Enabled(w1, Start(c))
            && var w2 := Next(w1, Start(c));
               Enabled(w2, Settle(c)) && Next(w2, Settle(c)) == Up(w, x, T.ChildPath(w.tree, x, name), c)
  {
    SpawnFresh(w, x, name, c);
    SpawnStep(w, x, name, c);
    hide T.ChildPath, Shape, Enabled, Next, Up, Spawned, WithLife;
    StartStep(w, x, T.ChildPath(w.tree, x, name), c);
    SettleStep(w, x, T.ChildPath(w.tree, x, name), c);
  }

  // ---------- the paths of the examples ----------

  function P(): ActorPath { ActorPath(["user", "p"]) }
  function A(): ActorPath { ActorPath(["user", "p", "a"]) }
  function B(): ActorPath { ActorPath(["user", "p", "b"]) }
  function C(): ActorPath { ActorPath(["user", "p", "a", "c"]) }

  lemma OneLetter(c: char)
    requires 'a' <= c <= 'z'
    ensures TokensOf([c]) == [[c]]
  {
    assert [c][0] == c;
    assert c in [c];
    TokenParses([c]);
  }

  lemma PathFacts()
    ensures T.RootPath().Div("p") == P() && P().Div("a") == A() && P().Div("b") == B() && A().Div("c") == C()
    ensures P().Parent() == T.RootPath() && A().Parent() == P() && B().Parent() == P() && C().Parent() == A()
    ensures A().Key() == "a" && B().Key() == "b" && C().Key() == "c"
    ensures P().Level() == 2 && A().Level() == 3
    ensures T.RootPath() != P() && P() != A() && P() != B() && A() != B() && C() != A() && C() != B() && C() != P()
    ensures A() != T.RootPath() && B() != T.RootPath() && C() != T.RootPath()
  {
    OneLetter('p');
    OneLetter('a');
    OneLetter('b');
    OneLetter('c');
    assert "p" == ['p'] && "a" == ['a'] && "b" == ['b'] && "c" == ['c'];
    hide TokensOf;
  }

  lemma PathsDiffer()
    ensures T.RootPath() != P() && P() != A() && P() != B() && A() != B() && C() != A() && C() != B() && C() != P()
    ensures A() != T.RootPath() && B() != T.RootPath() && C() != T.RootPath()
  {
    PathFacts();
  }

  // ---------- one, two and three actors ----------

  const RUNNING: Life := Life(Running, Settled, false)

  /** A root actor `p`. */
  function OneActor(): World {
    World(T.Tree(map[P() := 1],
                 map[T.SYSTEM := T.Supervisor(T.RootPath(), map[P() := 1]), 1 := T.Supervisor(P(), map[])],
                 map[1 := []],
                 map[1 := T.Origin(T.SYSTEM, P())]),
          map[1 := RUNNING], map[T.SYSTEM := [], 1 := []], Serving, {}, {}, [])
  }

  /** With a child `a`. */
  function TwoActors(): World {
    World(T.Tree(map[P() := 1, A() := 2],
                 map[T.SYSTEM := T.Supervisor(T.RootPath(), map[P() := 1]),
                     1 := T.Supervisor(P(), map[A() := 2]),
                     2 := T.Supervisor(A(), map[])],
                 map[1 := [], 2 := []],
                 map[1 := T.Origin(T.SYSTEM, P()), 2 := T.Origin(1, A())]),
          map[1 := RUNNING, 2 := RUNNING], map[T.SYSTEM := [], 1 := [], 2 := []], Serving, {}, {}, [])
  }

  /** And a child `b`. */
  function ThreeActors(): World {
    World(T.Tree(map[P() := 1, A() := 2, B() := 3],
                 map[T.SYSTEM := T.Supervisor(T.RootPath(), map[P() := 1]),
                     1 := T.Supervisor(P(), map[A() := 2, B() := 3]),
                     2 := T.Supervisor(A(), map[]), 3 := T.Supervisor(B(), map[])],
                 map[1 := [], 2 := [], 3 := []],
                 map[1 := T.Origin(T.SYSTEM, P()), 2 := T.Origin(1, A()), 3 := T.Origin(1, B())]),
          map[1 := RUNNING, 2 := RUNNING, 3 := RUNNING],
          map[T.SYSTEM := [], 1 := [], 2 := [], 3 := []], Serving, {}, {}, [])
  }

  lemma NoSteps()
    ensures ValidRun([]) && After([]) == Boot()
  {
  }

  lemma OneActorRun()
    ensures ValidRun(Ups(T.SYSTEM, "p", 1)) && After(Ups(T.SYSTEM, "p", 1)) == OneActor()
  {
    PathFacts();
    NoSteps();
    hide ValidRun, After, ActorPath.Div, ActorPath.Parent, P, A, B, C;
    var none: seq<Step> := [];
    UpRun(none, T.SYSTEM, "p", 1);
    assert none + Ups(T.SYSTEM, "p", 1) == Ups(T.SYSTEM, "p", 1);
    assert Up(Boot(), T.SYSTEM, P(), 1) == OneActor();
  }

  function TwoActorsSteps(): seq<Step> { Ups(T.SYSTEM, "p", 1) + Ups(1, "a", 2) }

  lemma TwoActorsRun()
    ensures ValidRun(TwoActorsSteps()) && After(TwoActorsSteps()) == TwoActors()
  {
    OneActorRun();
    PathFacts();
    hide ValidRun, After, ActorPath.Div, ActorPath.Parent, P, A, B, C, Ups;
    UpRun(Ups(T.SYSTEM, "p", 1), 1, "a", 2);
    assert Up(OneActor(), 1, A(), 2) == TwoActors();
  }

  function ThreeActorsSteps(): seq<Step> { TwoActorsSteps() + Ups(1, "b", 3) }

  lemma ThreeActorsRun()
    ensures ValidRun(ThreeActorsSteps()) && After(ThreeActorsSteps()) == ThreeActors()
  {
    TwoActorsRun();
    PathFacts();
    hide ValidRun, After, ActorPath.Div, ActorPath.Parent, P, A, B, C, Ups, TwoActorsSteps;
    UpRun(TwoActorsSteps(), 1, "b", 3);
    assert Up(TwoActors(), 1, B(), 3) == ThreeActors();
  }

  // ---------- the order needs a single child ----------

  /** The root actor with two children is told to stop. */
  function ToldSteps(): seq<Step> { ThreeActorsSteps() + [StopChild(T.SYSTEM, "p")] }

  function ToldWorld(): World {
    ThreeActors().(tree := T.Tree(map[A() := 2, B() := 3],
                                  ThreeActors().tree.supervisors[T.SYSTEM := T.Supervisor(T.RootPath(), map[])],
                                  ThreeActors().tree.queues[1 := [Stop]],
                                  ThreeActors().tree.created))
  }

  /** The world after a supervisor stopped one live child. */
  function OneTold(w: World, x: nat, p: ActorPath, c: nat): World
    requires x in w.tree.supervisors && c in w.tree.queues
  {
    var s := w.tree.supervisors[x];
    w.(tree := T.Tree(w.tree.registry - {p},
                      w.tree.supervisors[x := s.(senders := s.senders - {p})],
                      w.tree.queues[c := w.tree.queues[c] + [Stop]],
                      w.tree.created))
  }

  lemma OneToldStep(w: World, x: nat, name: string, p: ActorPath, c: nat)
    requires Acts(w, x) && Idle(w, x) && T.ChildPath(w.tree, x, name) == p && c in w.tree.queues
    requires p in w.tree.supervisors[x].senders && w.tree.supervisors[x].senders[p] == c
    ensures Enabled(w, StopChild(x, name)) && Next(w, StopChild(x, name)) == OneTold(w, x, p, c)
  {
    hide Idle, T.ChildPath;
  }

  lemma FirstRemoved(p: ActorPath, a: ActorPath, b: ActorPath)
    requires p != a && p != b && a != b
    ensures map[p := 1, a := 2, b := 3] - {p} == map[a := 2, b := 3]
    ensures map[a := 2, b := 3] - {a} == map[b := 3] && map[p := 1] - {p} == map[]
  {
  }

  lemma ToldTables()
    ensures OneTold(ThreeActors(), T.SYSTEM, P(), 1) == ToldWorld()
  {
    PathsDiffer();
    FirstRemoved(P(), A(), B());
    hide P, A, B, C;
    assert [] + [Stop] == [Stop];
  }

  lemma ToldMay()
    ensures var w := ThreeActors();
            && Acts(w, T.SYSTEM) && Idle(w, T.SYSTEM) && T.ChildPath(w.tree, T.SYSTEM, "p") == P()
            && 1 in w.tree.queues && P() in w.tree.supervisors[T.SYSTEM].senders
            && w.tree.supervisors[T.SYSTEM].senders[P()] == 1
  {
    PathFacts();
    hide ActorPath.Div, ActorPath.Parent, ActorPath.Key, ActorPath.Level, P, A, B, C;
  }

  lemma ToldRun()
    ensures ValidRun(ToldSteps()) && After(ToldSteps()) == ToldWorld()
  {
    hide ValidRun, After, P, A, B, C, ThreeActorsSteps, ThreeActors, ToldWorld, OneTold, Acts, Idle, T.ChildPath,
         Enabled, Next;
    ThreeActorsRun();
    ToldMay();
    ToldTables();
    OneToldStep(ThreeActors(), T.SYSTEM, "p", P(), 1);
    RunStep(ThreeActorsSteps(), StopChild(T.SYSTEM, "p"));
  }

  lemma ToldChildren()
    ensures Children(ToldWorld().tree.registry, P()) == {A(), B()}
    ensures Children(ToldWorld().tree.registry, A()) == {} && Children(ToldWorld().tree.registry, B()) == {}
  {
    PathFacts();
    hide ActorPath.Div, ActorPath.Parent, P, A, B, C;
  }

  lemma ToldResting()
    ensures AtRest(ToldWorld(), 1, [Stop]) && AtRest(ToldWorld(), 2, []) && AtRest(ToldWorld(), 3, [])
  {
    hide P, A, B, C;
  }

  /** Cover by a list of the children. */
  lemma CoveredBy(w: World, e: nat, below: set<nat>)
    requires e in w.tree.supervisors
    requires forall p | p in Children(w.tree.registry, w.tree.supervisors[e].path) ::
               p in w.tree.supervisors[e].senders && w.tree.supervisors[e].senders[p] in below
    ensures Covered(w, e, below)
  {
    forall p | p in w.tree.registry && p.Parent() == w.tree.supervisors[e].path
      ensures p in w.tree.supervisors[e].senders && w.tree.supervisors[e].senders[p] in below
    {
      assert p in Children(w.tree.registry, w.tree.supervisors[e].path);
    }
  }

  lemma ToldReady()
    ensures AboutToStop(ToldWorld(), 1, {2, 3})
    ensures A() in Children(ToldWorld().tree.registry, P())
  {
    ToldChildren();
    ToldResting();
    hide ActorPath.Div, ActorPath.Parent, P, A, B, C, Children, AtRest, Covered;
    CoveredBy(ToldWorld(), 1, {2, 3});
    CoveredBy(ToldWorld(), 2, {2, 3});
    CoveredBy(ToldWorld(), 3, {2, 3});
  }

  /** From the start: a root actor with two children can be stopped so that it
      emits its Stopped while one of the children, which was running and
      registered when the actor was told, has not. */
  lemma OneChildOnly() returns (steps: seq<Step>)
    ensures ValidRun(steps)
    ensures 1 in After(steps).emitted && 2 in After(steps).emitted && 3 !in After(steps).emitted
    ensures 3 in After(steps).tree.created && Parent(After(steps), 3) == 1
  {
    ToldRun();
    InvOfRun(ToldSteps());
    ToldReady();
    var w := ToldWorld();
    hide Inv, AboutToStop, Children, ValidFrom, AfterFrom, Branch, Frame, ValidRun, After, ToldSteps;
    var more, branch := OneChildWaitedFor(w, 1, {2, 3}, A());
    RunThen(ToldSteps(), more);
    InvFrom(w, more);
    CreatedStays(w, more, 3);
    steps := ToldSteps() + more;
  }

  lemma ToldInv()
    ensures Inv(ToldWorld())
  {
    hide Inv, ToldWorld, ValidRun, After, ToldSteps;
    ToldRun();
    InvOfRun(ToldSteps());
  }

  lemma ToldListed()
    ensures Lists([A(), B()], Children(ToldWorld().tree.registry, ToldWorld().tree.supervisors[1].path))
  {
    ToldParts();
    ToldChildren();
    PathsDiffer();
    hide ToldWorld, Children, A, B, C, P;
  }

  lemma ToldOutstanding()
    ensures forall q | q in [A(), B()] :: q in ToldWorld().tree.supervisors[1].senders
    ensures forall d :: Outstanding(ToldWorld(), 1, d) <==> d in Channels(ToldWorld(), 1, [A(), B()])
  {
    ToldParts();
    PathsDiffer();
    hide ToldWorld, A, B, C, P;
    var w := ToldWorld();
    assert w.tree.supervisors[1].senders[A()] == 2 && w.tree.supervisors[1].senders[B()] == 3;
    assert A() in [A(), B()] && B() in [A(), B()];
    assert Channels(w, 1, [A(), B()]) == {2, 3};
    forall d ensures Outstanding(w, 1, d) <==> d in {2, 3} {
    }
  }

  /** The same state meets what `OrderExact` asks for. */
  lemma ToldMeetsOrder()
    ensures Inv(ToldWorld()) && AboutToStop(ToldWorld(), 1, {2, 3})
    ensures Lists([A(), B()], Children(ToldWorld().tree.registry, ToldWorld().tree.supervisors[1].path))
    ensures forall q | q in [A(), B()] :: q in ToldWorld().tree.supervisors[1].senders
    ensures forall d :: Outstanding(ToldWorld(), 1, d) <==> d in Channels(ToldWorld(), 1, [A(), B()])
  {
    hide *;
    ToldInv();
    ToldReady();
    ToldListed();
    ToldOutstanding();
  }

  lemma ToldParts()
    ensures var w := ToldWorld();
            && 1 in w.tree.supervisors && w.tree.supervisors[1] == T.Supervisor(P(), map[A() := 2, B() := 3])
            && w.tree.created == map[1 := T.Origin(T.SYSTEM, P()), 2 := T.Origin(1, A()), 3 := T.Origin(1, B())]
            && w.emitted == []
  {
    hide P, A, B, C;
  }

  // ---------- everybody stops, or not ----------

  lemma RootedBy(w: World, c: nat, below: set<nat>)
    requires TreeBelow(w, c, below) && AtRest(w, c, [Stop]) && NoStrays(w, below + {c})
    requires forall d | d in below :: AtRest(w, d, []) && IsKid(w, Parent(w, d), d)
    ensures RootedAtRest(w, c, below)
  {
    hide AtRest, IsKid, NoStrays;
  }

  lemma ToldKids()
    ensures TreeBelow(ToldWorld(), 1, {2, 3}) && NoStrays(ToldWorld(), {2, 3} + {1})
    ensures 2 in ToldWorld().tree.created && Parent(ToldWorld(), 2) == 1 && IsKid(ToldWorld(), 1, 2)
    ensures 3 in ToldWorld().tree.created && Parent(ToldWorld(), 3) == 1 && IsKid(ToldWorld(), 1, 3)
  {
    PathFacts();
    hide ActorPath.Div, ActorPath.Parent, ActorPath.Key, ActorPath.Level, P, A, B, C;
  }

  lemma ToldDistinct()
    ensures T.PathsDistinct(ToldWorld().tree)
  {
    PathsDiffer();
    hide P, A, B, C;
  }

  lemma ToldSettled()
    ensures AllSettled(ToldWorld()) && NoRestarts(ToldWorld())
  {
    hide P, A, B, C;
  }

  lemma CoveredAgrees(w: World, e: nat, below: set<nat>)
    requires Covered(w, e, below)
    ensures e in w.tree.supervisors && T.AgreeAt(w.tree, e)
  {
    hide ActorPath.Parent;
  }

  lemma ToldTablesAgree()
    ensures TablesAgree(ToldWorld(), {2, 3} + {1})
  {
    hide ToldWorld, AtRest, T.AgreeAt, Covered;
    ToldReady();
    forall e | e in {2, 3} + {1} ensures e in ToldWorld().tree.supervisors && T.AgreeAt(ToldWorld().tree, e) {
      CoveredAgrees(ToldWorld(), e, {2, 3});
    }
  }

  lemma ToldRooted()
    ensures RootedAtRest(ToldWorld(), 1, {2, 3})
  {
    hide ToldWorld, AtRest, IsKid, TreeBelow, NoStrays;
    ToldKids();
    ToldResting();
    RootedBy(ToldWorld(), 1, {2, 3});
  }

  /** From the start: a root actor with two children is told to stop; the protocol
      can run to its end, and in every such run all three have emitted. */
  lemma EverybodyRun() returns (steps: seq<Step>)
    ensures ValidRun(ToldSteps()) && CleanRun(After(ToldSteps()), steps, {2, 3} + {1})
    ensures forall more | CleanRun(After(ToldSteps()), more, {2, 3} + {1}) ::
              AllOf({2, 3} + {1}, AfterFrom(After(ToldSteps()), more).emitted)
  {
    hide *;
    ToldRun();
    ToldInv();
    ToldRooted();
    ToldSettled();
    ToldDistinct();
    ToldTablesAgree();
    EverybodyStopsExact(ToldWorld(), 1, {2, 3});
    steps := SomeCleanRun(ToldWorld(), 1, {2, 3});
  }

  /** The system creates `p` and an actor under the path of a child of `p`. */
  function BesideSteps(): seq<Step> {
    Ups(T.SYSTEM, "p", 1) + Ups(T.SYSTEM, "p/a", 2) + [StopChild(T.SYSTEM, "p")]
  }

  function BesideWorld(): World { Up(OneActor(), T.SYSTEM, A(), 2) }

  function BesideToldWorld(): World { OneTold(BesideWorld(), T.SYSTEM, P(), 1) }

  lemma BesidePath()
    ensures T.RootPath().Div("p/a") == A()
  {
    OneLetter('p');
    OneLetter('a');
    assert "p" == ['p'] && "a" == ['a'];
    assert "p" + "/" + "a" == "p/a";
    TokensConcat("p", "a");
  }

  lemma BesideMay()
    ensures Enabled(OneActor(), Spawn(T.SYSTEM, "p/a", 2)) && T.ChildPath(OneActor().tree, T.SYSTEM, "p/a") == A()
    ensures var w := BesideWorld();
            && Acts(w, T.SYSTEM) && Idle(w, T.SYSTEM) && T.ChildPath(w.tree, T.SYSTEM, "p") == P()
            && 1 in w.tree.queues && P() in w.tree.supervisors[T.SYSTEM].senders
            && w.tree.supervisors[T.SYSTEM].senders[P()] == 1
  {
    PathFacts();
    BesidePath();
    hide ActorPath.Div, ActorPath.Parent, ActorPath.Key, ActorPath.Level, P, A, B, C;
  }

  lemma BesideRun()
    ensures ValidRun(BesideSteps()) && After(BesideSteps()) == BesideToldWorld()
  {
    hide ValidRun, After, P, A, B, C, OneActor, Up, OneTold, Acts, Idle, T.ChildPath, Enabled, Next, Ups;
    OneActorRun();
    BesideMay();
    UpRun(Ups(T.SYSTEM, "p", 1), T.SYSTEM, "p/a", 2);
    OneToldStep(BesideWorld(), T.SYSTEM, "p", P(), 1);
    RunStep(Ups(T.SYSTEM, "p", 1) + Ups(T.SYSTEM, "p/a", 2), StopChild(T.SYSTEM, "p"));
  }

  lemma BesideParts()
    ensures var w := BesideToldWorld();
            && w.tree.created == map[1 := T.Origin(T.SYSTEM, P()), 2 := T.Origin(T.SYSTEM, A())]
            && A() in w.tree.registry && 1 in w.tree.supervisors && w.tree.supervisors[1] == T.Supervisor(P(), map[])
            && AtRest(w, 1, [Stop])
  {
    PathsDiffer();
    hide P, A, B, C;
  }

  lemma BesideSupervisors()
    ensures var s := BesideToldWorld().tree.supervisors;
            && s.Keys == {T.SYSTEM, 1, 2} && s[T.SYSTEM].path == T.RootPath() && s[1].path == P() && s[2].path == A()
  {
    hide P, A, B, C;
  }

  lemma BesideDistinct()
    ensures T.PathsDistinct(BesideToldWorld().tree)
  {
    BesideSupervisors();
    PathsDiffer();
    hide P, A, B, C, BesideToldWorld;
  }

  lemma BesideSettled()
    ensures AllSettled(BesideToldWorld()) && NoRestarts(BesideToldWorld())
  {
    hide P, A, B, C;
  }

  lemma BesideRooted()
    ensures RootedAtRest(BesideToldWorld(), 1, {}) && 1 in BesideToldWorld().tree.supervisors
    ensures !T.AgreeAt(BesideToldWorld().tree, 1)
  {
    PathFacts();
    hide ActorPath.Div, ActorPath.Parent, ActorPath.Key, ActorPath.Level, P, A, B, C, BesideToldWorld, AtRest;
    BesideParts();
    var none: set<nat> := {};
    RootedBy(BesideToldWorld(), 1, none);
  }

  /** From the start: a root actor whose path has a registered child it has no
      channel for is told to stop; some run ends with nothing left to do for it,
      and it has not emitted. */
  lemma WaitingRun() returns (steps: seq<Step>)
    ensures ValidRun(BesideSteps()) && CleanRun(After(BesideSteps()), steps, {} + {1})
    ensures !AllOf({} + {1}, AfterFrom(After(BesideSteps()), steps).emitted)
  {
    hide *;
    BesideRun();
    InvOfRun(BesideSteps());
    BesideSettled();
    BesideDistinct();
    BesideRooted();
    steps := SomeoneWaits(BesideToldWorld(), 1, {}, 1);
  }

  // ---------- a path used again ----------

  /** The child `a` is stopped by its parent, which creates another `a` before it
      handles the Stopped signal of the first. */
  function ReuseSteps(): seq<Step> {
    TwoActorsSteps() + [StopChild(1, "a")] + Ups(1, "a", 3) + [HandleStop(2, [], true, true)] + [Emit(2)]
  }

  /** The second `a` runs; the Stopped signal of the first waits. */
  function ReuseWorld(): World {
    var w := AgainWorld();
    w.(tree := w.tree.(queues := w.tree.queues[2 := []]),
       life := w.life[2 := Life(Emitted, Settled, true)],
       signals := w.signals[1 := [Signal(2, A())]],
       emitted := [2])
  }

  /** The first `a` is told to stop. */
  function StoppedWorld(): World {
    var tree := TwoActors().tree;
    TwoActors().(tree := T.Tree(map[P() := 1], tree.supervisors[1 := T.Supervisor(P(), map[])],
                                tree.queues[2 := [Stop]], tree.created))
  }

  lemma SecondRemoved(p: ActorPath, a: ActorPath)
    requires p != a
    ensures map[p := 1, a := 2] - {a} == map[p := 1] && map[a := 2] - {a} == map[]
  {
  }

  lemma StoppedTables()
    ensures OneTold(TwoActors(), 1, A(), 2) == StoppedWorld()
  {
    PathsDiffer();
    SecondRemoved(P(), A());
    hide P, A, B, C;
    assert [] + [Stop] == [Stop];
  }

  lemma StoppedMay()
    ensures var w := TwoActors();
            && Acts(w, 1) && Idle(w, 1) && T.ChildPath(w.tree, 1, "a") == A() && 2 in w.tree.queues
            && A() in w.tree.supervisors[1].senders && w.tree.supervisors[1].senders[A()] == 2
  {
    PathFacts();
    hide ActorPath.Div, ActorPath.Parent, ActorPath.Key, ActorPath.Level, P, A, B, C;
  }

  lemma StoppedChild()
    ensures var steps := TwoActorsSteps() + [StopChild(1, "a")]; ValidRun(steps) && After(steps) == StoppedWorld()
  {
    hide ValidRun, After, P, A, B, C, TwoActorsSteps, TwoActors, StoppedWorld, OneTold, Acts, Idle, T.ChildPath,
         Enabled, Next;
    TwoActorsRun();
    StoppedMay();
    StoppedTables();
    OneToldStep(TwoActors(), 1, "a", A(), 2);
    RunStep(TwoActorsSteps(), StopChild(1, "a"));
  }

  /** The second `a` runs, the first has not yet handled its Stop. */
  function AgainWorld(): World { Up(StoppedWorld(), 1, A(), 3) }

  function AgainSteps(): seq<Step> { TwoActorsSteps() + [StopChild(1, "a")] + Ups(1, "a", 3) }

  lemma AgainMay()
    ensures Enabled(StoppedWorld(), Spawn(1, "a", 3)) && T.ChildPath(StoppedWorld().tree, 1, "a") == A()
  {
    PathFacts();
    hide ActorPath.Div, ActorPath.Parent, ActorPath.Key, ActorPath.Level, P, A, B, C;
  }

  lemma AgainRun()
    ensures ValidRun(AgainSteps()) && After(AgainSteps()) == AgainWorld()
  {
    hide ValidRun, After, P, A, B, C, TwoActorsSteps, Ups, StoppedWorld, Up, T.ChildPath, Enabled, Next;
    StoppedChild();
    AgainMay();
    UpRun(TwoActorsSteps() + [StopChild(1, "a")], 1, "a", 3);
  }

  lemma AgainReady()
    ensures AtRest(AgainWorld(), 2, [Stop])
    ensures Children(AgainWorld().tree.registry, AgainWorld().tree.supervisors[2].path) == {}
  {
    PathFacts();
    hide ActorPath.Div, ActorPath.Parent, P, A, B, C;
  }

  lemma AgainLeft()
    ensures var w := AgainWorld();
            Leaves(Took(w, 2), 2, true) == w.(tree := w.tree.(queues := w.tree.queues[2 := []]),
                                              life := w.life[2 := Life(Left, Settled, true)])
  {
    hide P, A, B, C;
    assert AgainWorld().tree.queues[2][1..] == [];
  }

  lemma AgainEmits()
    ensures CanEmit(Leaves(Took(AgainWorld(), 2), 2, true), 2)
    ensures Emits(Leaves(Took(AgainWorld(), 2), 2, true), 2) == ReuseWorld()
  {
    AgainLeft();
    hide P, A, B, C, Leaves, Took;
    assert [] + [Signal(2, A())] == [Signal(2, A())];
  }

  lemma AgainInv()
    ensures Inv(AgainWorld())
  {
    hide Inv, AgainWorld, ValidRun, After, AgainSteps;
    AgainRun();
    InvOfRun(AgainSteps());
  }

  lemma AgainRival()
    ensures Rival(AgainWorld(), 1, 3, 2)
    ensures forall d | Rival(AgainWorld(), 1, 3, d) :: d == 2
  {
    AgainParts();
    PathFacts();
    hide AgainWorld, P, A, B, C, ActorPath.Div, ActorPath.Parent, ActorPath.Key, Idle, IsRunning;
  }

  lemma AgainStops()
    ensures AboutToStop(AgainWorld(), 2, {})
  {
    AgainReady();
    AgainParts();
    hide AgainWorld, AtRest, Children, Covered, Idle, IsRunning, P, A, B, C;
    var below: set<nat> := {};
    CoveredBy(AgainWorld(), 2, below);
    CalmNone(AgainWorld());
  }

  /** The state meets what `StaleIffRival` asks for, and there is a rival. */
  lemma AgainMeetsRival()
    ensures Inv(AgainWorld()) && RivalsCalm(AgainWorld(), 1, {}, 3) && Rival(AgainWorld(), 1, 3, 2)
  {
    hide Inv, AgainWorld, Rival, AboutToStop, Idle, IsRunning, P, A, B, C;
    AgainInv();
    AgainStops();
    AgainRival();
    AgainParts();
    var below: set<nat> := {};
    forall d | Rival(AgainWorld(), 1, 3, d) ensures AboutToStop(AgainWorld(), d, below) {
    }
  }

  lemma CalmNone(w: World)
    ensures Calm(w, {})
  {
  }

  lemma AgainParts()
    ensures var w := AgainWorld();
            && IsRunning(w, 1) && Idle(w, 1) && w.signals[1] == [] && w.emitted == []
            && 1 in w.tree.supervisors && w.tree.supervisors[1] == T.Supervisor(P(), map[A() := 3])
            && 2 in w.tree.supervisors
            && w.tree.created == map[1 := T.Origin(T.SYSTEM, P()), 2 := T.Origin(1, A()), 3 := T.Origin(1, A())]
  {
    hide P, A, B, C;
  }

  lemma ReuseRun()
    ensures ValidRun(ReuseSteps()) && After(ReuseSteps()) == ReuseWorld()
  {
    AgainRun();
    AgainReady();
    AgainEmits();
    InvOfRun(AgainSteps());
    ShapeOf(AgainWorld());
    hide ValidRun, After, Inv, Shape, AtRest, Enabled, Next, Emits, Leaves, Took, CanEmit, Children, AgainWorld,
         ReuseWorld, Ups, TwoActorsSteps;
    StopsNone(AgainWorld(), 2);
    LeftEmits(Leaves(Took(AgainWorld(), 2), 2, true), 2);
    RunStep(AgainSteps(), HandleStop(2, [], true, true));
    RunStep(AgainSteps() + [HandleStop(2, [], true, true)], Emit(2));
    assert ReuseSteps() == AgainSteps() + [HandleStop(2, [], true, true)] + [Emit(2)];
  }

  /** The world after the parent handled that signal. */
  function StaleWorld(): World {
    var w := ReuseWorld();
    w.(tree := w.tree.(registry := map[P() := 1], supervisors := w.tree.supervisors[1 := T.Supervisor(P(), map[])]),
       life := w.life[1 := Life(Left, Settled, true)],
       signals := w.signals[1 := []])
  }

  lemma StaleStepTaken()
    ensures Enabled(ReuseWorld(), HandleSignal(1)) && Next(ReuseWorld(), HandleSignal(1)) == StaleWorld()
  {
    hide P, A, B, C, Next, Enabled, LeftOnSignal, Children, SignalPath, ReuseWorld, StaleWorld, ActorPath.Parent;
    StaleReady();
    SignalLeaves(ReuseWorld(), 1);
    StaleTables();
  }

  lemma StaleTables()
    requires SignalPath(ReuseWorld(), 1) == A()
    ensures LeftOnSignal(ReuseWorld(), 1) == StaleWorld()
  {
    PathsDiffer();
    hide P, A, B, C, SignalPath;
    var w := ReuseWorld();
    assert w.tree.registry - {A()} == map[P() := 1];
    assert w.tree.supervisors[1].senders - {A()} == map[];
    assert w.signals[1][1..] == [];
  }

  lemma ReuseParts()
    ensures var w := ReuseWorld();
            && w.tree.registry == map[P() := 1, A() := 3] && IsRunning(w, 1) && Idle(w, 1)
            && w.tree.supervisors[1] == T.Supervisor(P(), map[A() := 3]) && w.signals[1] == [Signal(2, A())]
            && 1 in w.tree.created && 2 in w.tree.created && 3 in w.tree.created
            && w.tree.created[1] == T.Origin(T.SYSTEM, P())
            && w.tree.created[2] == T.Origin(1, A()) && w.tree.created[3] == T.Origin(1, A())
  {
    hide P, A, B, C;
  }

  lemma StaleReady()
    ensures Enabled(ReuseWorld(), HandleSignal(1)) && SignalPath(ReuseWorld(), 1) == A()
    ensures ReuseWorld().tree.registry - {A()} == map[P() := 1] && ReuseWorld().tree.supervisors[1].path == P()
    ensures Children(ReuseWorld().tree.registry - {A()}, P()) == {}
  {
    ReuseParts();
    PathFacts();
    hide ActorPath.Div, ActorPath.Parent, ActorPath.Key, P, A, B, C, ReuseWorld, Idle;
    ThirdRemoved(P(), A());
  }

  lemma ThirdRemoved(p: ActorPath, a: ActorPath)
    requires p != a
    ensures map[p := 1, a := 3] - {a} == map[p := 1]
  {
  }

  lemma StaleFacts()
    ensures Rival(ReuseWorld(), 1, 3, 2) && InTable(ReuseWorld(), 3)
    ensures A() in ReuseWorld().tree.registry && ReuseWorld().tree.registry[A()] == 3
    ensures Untold(StaleWorld(), 3) && A() !in StaleWorld().tree.registry
  {
    PathFacts();
    hide ActorPath.Div, ActorPath.Parent, ActorPath.Key, P, A, B, C;
  }

  /** From the start: the late Stopped signal deregisters the second actor, which
      runs and was not told to stop, takes its channel, and makes its parent leave
      as if no child were left; no continuation ever tells that actor to stop. */
  lemma StaleRun()
    ensures ValidRun(ReuseSteps() + [HandleSignal(1)])
    ensures Rival(ReuseWorld(), 1, 3, 2)
    ensures var w, w' := After(ReuseSteps()), After(ReuseSteps() + [HandleSignal(1)]);
            && 3 in w.tree.created && InTable(w, 3) && A() in w.tree.registry && w.tree.registry[A()] == 3
            && 3 in w'.life && w'.life[3].phase == Running && Untold(w', 3) && A() !in w'.tree.registry
            && 1 in w'.life && w'.life[1].phase == Left && w'.life[1].clean
  {
    ReuseRun();
    StaleStepTaken();
    StaleFacts();
    hide ValidRun, After, ReuseSteps, Enabled, Next, Rival, InTable, Untold;
    RunStep(ReuseSteps(), HandleSignal(1));
  }

  // ---------- an actor that stays ----------

  /** The child `a` fails its restart and is gone, still registered; `b` is
      created; the parent is told to stop, meets the dead channel first, and
      handles the signal of `a`. */
  function StallSteps(): seq<Step> {
    GoneSteps() + Ups(1, "b", 3) + [StopChild(T.SYSTEM, "p")] + [HandleStop(1, [A(), B()], true, true)]
    + [HandleSignal(1)]
  }

  function GoneSteps(): seq<Step> {
    TwoActorsSteps() + [RestartChildren(1, [A()])] + [HandleRestart(2, [], true, false)] + [Emit(2)] + [Drop(2)]
  }

  const FAILED: Life := Life(Left, Settled, false)

  function RestartingWorld(): World {
    TwoActors().(tree := TwoActors().tree.(queues := TwoActors().tree.queues[2 := [Restart]]))
  }

  function FailedWorld(): World { TwoActors().(life := TwoActors().life[2 := FAILED]) }

  /** The actor `a` is gone, still registered. */
  function GoneWorld(): World {
    var w := FailedWorld();
    w.(tree := w.tree.(supervisors := w.tree.supervisors - {2}, queues := w.tree.queues - {2}),
       life := w.life[2 := FAILED.(phase := Gone)],
       signals := w.signals[1 := [Signal(2, A())]],
       emitted := [2])
  }

  lemma FailedRun()
    ensures var steps := TwoActorsSteps() + [RestartChildren(1, [A()])] + [HandleRestart(2, [], true, false)];
            ValidRun(steps) && After(steps) == FailedWorld()
  {
    hide ValidRun, After, Enabled, Next, A, TwoActorsSteps, TwoActors, RestartingWorld, FailedWorld;
    TwoActorsRun();
    RestartsOne();
    RunStep(TwoActorsSteps(), RestartChildren(1, [A()]));
    RestartFails();
    RunStep(TwoActorsSteps() + [RestartChildren(1, [A()])], HandleRestart(2, [], true, false));
  }

  /** A supervisor with a single channel restarts that child. */
  lemma OneRestart(t: Tables, p: ActorPath, c: nat)
    requires p in t.senders && t.senders[p] == c && c in t.queues
    ensures RestartEach(t, [p]) == (t.(queues := t.queues[c := t.queues[c] + [Restart]]), Ok(()))
  {
    assert [p][1..] == [];
  }

  lemma RestartsOne()
    ensures Enabled(TwoActors(), RestartChildren(1, [A()]))
    ensures Next(TwoActors(), RestartChildren(1, [A()])) == RestartingWorld()
  {
    PathsDiffer();
    hide P, A, B, C, RestartEach;
    OneRestart(T.TablesOf(TwoActors().tree, 1), A(), 2);
    assert [] + [Restart] == [Restart];
    var s := TwoActors().tree.supervisors;
    assert s[1 := s[1].(senders := s[1].senders)] == s;
  }

  lemma NoRestart(t: Tables)
    ensures RestartEach(t, []) == (t, Ok(()))
  {
  }

  lemma RestartFails()
    ensures Enabled(RestartingWorld(), HandleRestart(2, [], true, false))
    ensures Next(RestartingWorld(), HandleRestart(2, [], true, false)) == FailedWorld()
  {
    PathsDiffer();
    hide P, A, B, C, RestartEach;
    NoRestart(T.TablesOf(RestartingWorld().tree, 2));
    var w := RestartingWorld();
    assert w.tree.supervisors[2 := w.tree.supervisors[2].(senders := w.tree.supervisors[2].senders)]
        == w.tree.supervisors;
    assert w.tree.queues[2][1..] == [];
    assert w.tree.queues[2 := []] == TwoActors().tree.queues;
  }

  lemma GoneRun()
    ensures ValidRun(GoneSteps()) && After(GoneSteps()) == GoneWorld()
  {
    FailedRun();
    var steps := TwoActorsSteps() + [RestartChildren(1, [A()])] + [HandleRestart(2, [], true, false)];
    GoneReady();
    hide ValidRun, After, Enabled, Next, Emits, FailedWorld, GoneWorld, TwoActorsSteps, A, CanEmit;
    LeftEmits(FailedWorld(), 2);
    RunStep(steps, Emit(2));
    RunStep(steps + [Emit(2)], Drop(2));
  }

  lemma GoneReady()
    ensures CanEmit(FailedWorld(), 2)
    ensures Enabled(Emits(FailedWorld(), 2), Drop(2)) && Next(Emits(FailedWorld(), 2), Drop(2)) == GoneWorld()
  {
    PathsDiffer();
    hide P, A, B, C;
    var w, none := Emits(FailedWorld(), 2), FailedWorld().signals[1];
    assert none + [Signal(2, A())] == [Signal(2, A())];
    hide Enabled, Next;
    GoneDrops(w);
    DropNext(w, 2);
  }

  lemma GoneDrops(w: World)
    requires 2 in w.life && w.life[2].phase == Emitted && 2 in w.tree.supervisors
    ensures Enabled(w, Drop(2))
  {
  }

  /** The parent with the dead channel and the living one. */
  function BothWorld(): World { Up(GoneWorld(), 1, B(), 3) }

  /** The same, told to stop. */
  function BothToldWorld(): World {
    var tree := BothWorld().tree;
    BothWorld().(tree := T.Tree(map[A() := 2, B() := 3],
                                tree.supervisors[T.SYSTEM := T.Supervisor(T.RootPath(), map[])],
                                tree.queues[1 := [Stop]], tree.created))
  }

  lemma GoneParts()
    ensures var w := GoneWorld();
            && w.tree.registry == map[P() := 1, A() := 2] && 1 in w.tree.supervisors
            && w.tree.supervisors[1] == T.Supervisor(P(), map[A() := 2]) && w.life.Keys == {1, 2}
            && w.tree.created.Keys == {1, 2} && w.life[1] == RUNNING && Idle(w, 1)
  {
    hide P, A, B, C;
  }

  lemma BothMay()
    ensures Enabled(GoneWorld(), Spawn(1, "b", 3)) && T.ChildPath(GoneWorld().tree, 1, "b") == B()
  {
    GoneParts();
    PathFacts();
    hide ActorPath.Div, ActorPath.Parent, ActorPath.Level, P, A, B, C, GoneWorld, Idle;
  }

  lemma BothRun()
    ensures var steps := GoneSteps() + Ups(1, "b", 3) + [StopChild(T.SYSTEM, "p")];
            ValidRun(steps) && After(steps) == BothToldWorld()
  {
    hide ValidRun, After, P, A, B, C, GoneSteps, Ups, Enabled, Next, Up, GoneWorld, BothToldWorld, T.ChildPath;
    GoneRun();
    BothMay();
    UpRun(GoneSteps(), 1, "b", 3);
    BothTold();
    RunStep(GoneSteps() + Ups(1, "b", 3), StopChild(T.SYSTEM, "p"));
  }

  lemma BothTables()
    ensures OneTold(BothWorld(), T.SYSTEM, P(), 1) == BothToldWorld()
  {
    PathsDiffer();
    FirstRemoved(P(), A(), B());
    hide P, A, B, C;
    assert [] + [Stop] == [Stop];
  }

  lemma BothTold()
    ensures Enabled(BothWorld(), StopChild(T.SYSTEM, "p"))
    ensures Next(BothWorld(), StopChild(T.SYSTEM, "p")) == BothToldWorld()
  {
    hide P, BothWorld, BothToldWorld, OneTold, Acts, Idle, T.ChildPath, Enabled, Next;
    BothToldMay();
    BothTables();
    OneToldStep(BothWorld(), T.SYSTEM, "p", P(), 1);
  }

  lemma BothToldMay()
    ensures var w := BothWorld();
            && Acts(w, T.SYSTEM) && Idle(w, T.SYSTEM) && T.ChildPath(w.tree, T.SYSTEM, "p") == P()
            && 1 in w.tree.queues && P() in w.tree.supervisors[T.SYSTEM].senders
            && w.tree.supervisors[T.SYSTEM].senders[P()] == 1
  {
    PathFacts();
    hide ActorPath.Div, ActorPath.Parent, ActorPath.Key, ActorPath.Level, P, A, B, C;
  }

  /** The parent waits; `a` is deregistered, `b` was not told. */
  function WaitingWorld(): World {
    var tree := BothToldWorld().tree;
    BothToldWorld().(tree := T.Tree(map[B() := 3], tree.supervisors[1 := T.Supervisor(P(), map[B() := 3])],
                                    tree.queues[1 := []], tree.created),
                     waited := {1}, behind := {1})
  }

  lemma BothToldParts()
    ensures var w := BothToldWorld();
            && w.tree.registry == map[A() := 2, B() := 3] && IsRunning(w, 1) && Idle(w, 1)
            && w.tree.supervisors[1] == T.Supervisor(P(), map[A() := 2, B() := 3])
            && w.tree.queues[1] == [Stop] && 2 !in w.tree.queues && w.waited == {} && w.behind == {}
  {
    hide P, A, B, C;
  }

  lemma DeadTables()
    ensures var t := T.TablesOf(BothToldWorld().tree, 1);
            StopEach(t, [A(), B()]) == (Tables(map[B() := 3], map[B() := 3], t.queues), Err(SendFailed(A())))
  {
    BothToldParts();
    PathsDiffer();
    FirstRemoved(P(), A(), B());
    hide P, A, B, C, BothToldWorld, Idle, StopEach;
    DeadFirst(T.TablesOf(BothToldWorld().tree, 1), A(), B());
  }

  lemma DeadFirst(t: Tables, a: ActorPath, b: ActorPath)
    requires a in t.senders && t.senders[a] !in t.queues
    ensures StopEach(t, [a, b]) == (Deregister(t, a), Err(SendFailed(a)))
  {
  }

  lemma DeadListed()
    ensures Children(map[A() := 2, B() := 3], P()) == {A(), B()} && Children(map[B() := 3], P()) == {B()}
    ensures Lists([A(), B()], {A(), B()})
  {
    PathFacts();
    hide ActorPath.Div, ActorPath.Parent, P, A, B, C;
  }

  lemma DeadEnabled()
    ensures T.Enabled(BothToldWorld().tree, T.Op.StopAllChildren(1, [A(), B()]))
    ensures Enabled(BothToldWorld(), HandleStop(1, [A(), B()], true, true))
  {
    BothToldParts();
    DeadListed();
    hide P, A, B, C, Children, Lists, Idle, BothToldWorld;
  }

  /** A turn that meets a child it cannot stop, with others left. */
  lemma StopsShort(w: World, x: nat, order: seq<ActorPath>)
    requires Enabled(w, HandleStop(x, order, true, true)) && T.Enabled(w.tree, T.Op.StopAllChildren(x, order))
    requires x in w.tree.supervisors && StopEach(T.TablesOf(w.tree, x), order).1.Err?
    requires Children(StopEach(T.TablesOf(w.tree, x), order).0.registry, w.tree.supervisors[x].path) != {}
    ensures Next(w, HandleStop(x, order, true, true))
         == Waits(Took(TreeStep(w, T.Op.StopAllChildren(x, order)), x), x, true)
  {
    hide Idle, StopEach, Took, Waits, Children, T.Enabled, T.Apply;
  }

  lemma StopMeetsDead()
    ensures Enabled(BothToldWorld(), HandleStop(1, [A(), B()], true, true))
    ensures Next(BothToldWorld(), HandleStop(1, [A(), B()], true, true)) == WaitingWorld()
  {
    BothToldParts();
    DeadListed();
    hide P, A, B, C, StopEach, Children, Lists, Idle, T.Enabled, Enabled, Next, Took, Waits, BothToldWorld,
         WaitingWorld;
    DeadTables();
    DeadEnabled();
    assert B() in Children(map[B() := 3], P());
    StopsShort(BothToldWorld(), 1, [A(), B()]);
    DeadTold([A(), B()]);
  }

  lemma DeadTold(order: seq<ActorPath>)
    requires T.Enabled(BothToldWorld().tree, T.Op.StopAllChildren(1, order))
    requires var t := T.TablesOf(BothToldWorld().tree, 1);
             StopEach(t, order) == (Tables(map[B() := 3], map[B() := 3], t.queues), Err(SendFailed(A())))
    ensures Waits(Took(TreeStep(BothToldWorld(), T.Op.StopAllChildren(1, order)), 1), 1, true) == WaitingWorld()
  {
    BothToldParts();
    hide P, A, B, C, StopEach, T.Enabled, BothToldWorld, Idle;
    assert BothToldWorld().tree.queues[1][1..] == [];
  }

  function StalledWorld(): World { WaitingWorld().(signals := WaitingWorld().signals[1 := []]) }

  lemma WaitingParts()
    ensures var w := WaitingWorld();
            && w.tree.registry == map[B() := 3] && IsRunning(w, 1) && Idle(w, 1)
            && w.tree.supervisors[1] == T.Supervisor(P(), map[B() := 3]) && w.signals[1] == [Signal(2, A())]
            && w.waited == {1} && w.behind == {1} && w.emitted == [2] && w.life.Keys == {1, 2, 3}
            && w.life[1] == RUNNING && w.life[2] == FAILED.(phase := Gone) && w.life[3] == RUNNING
            && 3 in w.tree.queues && w.tree.queues[3] == [] && 3 in w.signals && w.signals[3] == []
            && w.tree.queues[1] == []
  {
    hide P, A, B, C;
  }

  lemma DeadSignal()
    ensures Enabled(WaitingWorld(), HandleSignal(1)) && SignalPath(WaitingWorld(), 1) == A()
  {
    WaitingParts();
    PathFacts();
    hide ActorPath.Div, ActorPath.Parent, ActorPath.Key, P, A, B, C, WaitingWorld, Idle;
  }

  lemma DeadSignalTables()
    ensures T.Apply(WaitingWorld().tree, T.Op.ChildStopped(1, A())) == WaitingWorld().tree
  {
    WaitingParts();
    PathsDiffer();
    hide P, A, B, C, WaitingWorld, Idle;
    assert map[B() := 3] - {A()} == map[B() := 3];
    var s := WaitingWorld().tree.supervisors;
    assert s[1 := s[1].(senders := s[1].senders)] == s;
  }

  lemma SignalOfDead()
    ensures Enabled(WaitingWorld(), HandleSignal(1)) && Next(WaitingWorld(), HandleSignal(1)) == StalledWorld()
  {
    DeadSignal();
    DeadSignalTables();
    DeadListed();
    hide ActorPath.Div, ActorPath.Parent, ActorPath.Key, P, A, B, C, SignalPath, T.Apply, T.Enabled, Children, Idle,
         Lists;
    var w := Next(WaitingWorld(), HandleSignal(1));
    assert B() in Children(map[B() := 3], P());
    assert w.signals[1] == [];
    assert w.signals == StalledWorld().signals;
    assert w.behind == {1};
  }

  /** From the start: a root actor is told to stop and has not emitted when nothing
      of the protocol is left to do, while its child `b` runs, registered and
      untold: until a handler of the actor stops `b`, it stays. */
  lemma StallRun()
    ensures ValidRun(StallSteps()) && After(StallSteps()) == StalledWorld()
    ensures Quiescent(StalledWorld()) && Stalled(StalledWorld(), 1) && 1 !in StalledWorld().emitted
    ensures B() in Children(StalledWorld().tree.registry, P()) && StalledWorld().life[3].phase == Running
  {
    BothRun();
    StopMeetsDead();
    SignalOfDead();
    StalledFacts();
    var steps := GoneSteps() + Ups(1, "b", 3) + [StopChild(T.SYSTEM, "p")];
    hide ValidRun, After, Enabled, Next, GoneSteps, Ups, BothToldWorld, WaitingWorld, StalledWorld, Quiescent, Stalled,
         Children, A, B, P;
    RunStep(steps, HandleStop(1, [A(), B()], true, true));
    RunStep(steps + [HandleStop(1, [A(), B()], true, true)], HandleSignal(1));
  }

  lemma StalledFacts()
    ensures Quiescent(StalledWorld()) && Stalled(StalledWorld(), 1) && 1 !in StalledWorld().emitted
    ensures B() in Children(StalledWorld().tree.registry, P())
    ensures 3 in StalledWorld().life && StalledWorld().life[3].phase == Running
  {
    WaitingParts();
    PathFacts();
    hide ActorPath.Div, ActorPath.Parent, ActorPath.Key, P, A, B, C, WaitingWorld, Idle;
    forall c | c in StalledWorld().life ensures QuietActor(StalledWorld(), c) {
    }
  }

  // ---------- the system ----------

  /** Each cancellation deregisters at least the first root actor it visits, also
      one whose channel is missing or dead. */
  lemma CancelShrinks(w: World, order: seq<ActorPath>)
    requires Shape(w) && Enabled(w, SystemCancel(order)) && order != []
    ensures var w1 := Next(w, SystemCancel(order));
            && w1.system == ShuttingDown && w1.emitted == w.emitted && w1.life == w.life
            && Children(w1.tree.registry, T.RootPath()) < Children(w.tree.registry, T.RootPath())
  {
    hide ShapeAt, ActorPath.Parent, ActorPath.WellFormed;
    var t := T.TablesOf(w.tree, T.SYSTEM);
    T.StopEachRemoves(t, order);
    StopEachTables(t, order);
    assert order[0] in Visited(t, order) by {
      assert order[0] in order[..1];
    }
    hide StopEach, Visited, Stopped;
    var w1 := Next(w, SystemCancel(order));
    assert order[0] in order;
    assert order[0] in Children(w.tree.registry, T.RootPath());
    assert order[0] !in Children(w1.tree.registry, T.RootPath());
  }

  lemma CancelEnds(w: World)
    requires Shape(w) && Enabled(w, SystemCancel([]))
    ensures var w1 := Next(w, SystemCancel([]));
            && w1.system == Done && w1.emitted == w.emitted && w1.life == w.life && T.SYSTEM in w1.tree.supervisors
            && Children(w1.tree.registry, w1.tree.supervisors[T.SYSTEM].path) == {}
  {
    hide ShapeAt, ActorPath.Parent, Children, StopEach;
    DoneChildless(w, SystemCancel([]));
  }

  lemma CancelEnabled(w: World, order: seq<ActorPath>)
    requires Shape(w) && w.system != Done && Lists(order, Children(w.tree.registry, T.RootPath()))
    ensures Enabled(w, SystemCancel(order))
  {
    hide ShapeAt, Children, Lists;
  }

  /** A cancelled system never has to wait: the token stays cancelled, so from every
      state the runner can pick it again and again until no root actor is
      registered, and finish with nothing emitted and every actor as it was. */
  lemma {:induction false} NeverWaits(w: World) returns (steps: seq<Step>)
    requires Inv(w) && w.system != Done
    ensures ValidFrom(w, steps) && forall s | s in steps :: s.SystemCancel?
    ensures var w' := AfterFrom(w, steps);
            && w'.system == Done && w'.emitted == w.emitted && w'.life == w.life && T.SYSTEM in w'.tree.supervisors
            && Children(w'.tree.registry, w'.tree.supervisors[T.SYSTEM].path) == {}
    decreases Children(w.tree.registry, T.RootPath())
  {
    var order := T.ListingOf(Children(w.tree.registry, T.RootPath()));
    ShapeOf(w);
    hide Inv, Shape, ValidFrom, AfterFrom, Children, Enabled, Next, Lists;
    CancelEnabled(w, order);
    var cancel := SystemCancel(order);
    if order == [] {
      CancelEnds(w);
      OneStep(w, cancel);
      steps := [cancel];
    } else {
      CancelShrinks(w, order);
      StepKeeps(w, cancel);
      var rest := NeverWaits(Next(w, cancel));
      StepThen(w, cancel, rest);
      steps := [cancel] + rest;
    }
  }

  /** From the start: a system with two generations of running actors finishes with
      nothing emitted and both still running. */
  lemma SystemRun() returns (steps: seq<Step>)
    ensures ValidRun(steps) && After(steps).system == Done && After(steps).emitted == []
    ensures After(steps).life == map[1 := RUNNING, 2 := RUNNING]
  {
    TwoActorsRun();
    InvOfRun(TwoActorsSteps());
    hide Inv, ValidRun, After, ValidFrom, AfterFrom, Enabled, TwoActorsSteps, P, A;
    var more := NeverWaits(TwoActors());
    RunThen(TwoActorsSteps(), more);
    steps := TwoActorsSteps() + more;
  }
}
