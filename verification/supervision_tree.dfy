/** Many supervisors over one registry: the system and every actor has its own
    table of action channels.
 */
module SupervisionTrees {
  import opened Wrappers
  import opened Paths
  import opened Supervision

  /** A live supervisor: its path and its action channels. */
  datatype Supervisor = Supervisor(path: ActorPath, senders: map<ActorPath, nat>)

  /** Who created an actor, and under which path. */
  datatype Origin = Origin(parent: nat, path: ActorPath)

  /** The registry and the live supervisors by number; number zero is the system.
      An actor's number also names its action channel and is never used again,
      while paths may be. */
  datatype Tree = Tree(
    registry: map<ActorPath, nat>,
    supervisors: map<nat, Supervisor>,
    queues: map<nat, seq<ChildAction>>,
    created: map<nat, Origin>)

  const SYSTEM: nat := 0

  function RootPath(): ActorPath { ActorPath(["user"]) }

  datatype Op =
    | Spawn(parent: nat, name: string, child: nat) // the child's runner exists, its start-up is pending
    | Register(parent: nat, child: nat)            // the start-up succeeded
    | Abandon(parent: nat, path: ActorPath)        // a start-up failed
    | StopOneChild(parent: nat, path: ActorPath)
    | StopAllChildren(parent: nat, order: seq<ActorPath>)
    | RestartAll(parent: nat, order: seq<ActorPath>)
    | ChildStopped(parent: nat, path: ActorPath)   // a Stopped signal is handled, or a child removed
    | SystemError(path: ActorPath, order: seq<ActorPath>)
    | Take(id: nat)                                // an actor takes its oldest action
    | End(id: nat)                                 // the runner is gone

  /** The tables one supervisor's handler works on. */
  function TablesOf(tree: Tree, id: nat): Tables
    requires id in tree.supervisors
  {
    Tables(tree.registry, tree.supervisors[id].senders, tree.queues)
  }

  function WithTables(tree: Tree, id: nat, t: Tables): Tree
    requires id in tree.supervisors
  {
    Tree(t.registry, tree.supervisors[id := tree.supervisors[id].(senders := t.senders)], t.queues, tree.created)
  }

  /** The path a supervisor gives a child of that name. */
  function ChildPath(tree: Tree, id: nat, name: string): ActorPath
    requires id in tree.supervisors
  {
    tree.supervisors[id].path.Div(name)
  }

  ghost predicate Enabled(tree: Tree, op: Op) {
    match op
    case Spawn(p, name, child) =>
      && p in tree.supervisors && child > SYSTEM && (forall c | c in tree.created :: c < child)
      && ChildPath(tree, p, name) !in tree.registry
      && (p != SYSTEM ==> tree.supervisors[p].path.Level() < MAX_ACTOR_DEPTH)
    case Register(p, child) =>
      p in tree.supervisors && child in tree.created && tree.created[child].parent == p
    case Abandon(p, _) => p in tree.supervisors
    case StopOneChild(p, _) => p in tree.supervisors
    case StopAllChildren(p, order) =>
      p in tree.supervisors && Lists(order, Children(tree.registry, tree.supervisors[p].path))
    case RestartAll(p, order) => p in tree.supervisors && Lists(order, tree.supervisors[p].senders.Keys)
    case ChildStopped(p, _) => p in tree.supervisors
    case SystemError(path, order) =>
      SYSTEM in tree.supervisors && Lists(order, Children(tree.registry, path))
    case Take(id) => id in tree.queues && tree.queues[id] != []
    case End(id) => id in tree.supervisors && id != SYSTEM
  }

  function Apply(tree: Tree, op: Op): Tree
    requires Enabled(tree, op)
  {
    match op
    case Spawn(p, name, child) =>
      var path := ChildPath(tree, p, name);
      tree.(supervisors := tree.supervisors[child := Supervisor(path, map[])],
            queues := tree.queues[child := []],
            created := tree.created[child := Origin(p, path)])
    case Register(p, child) =>
      var path := tree.created[child].path;
      var t := TablesOf(tree, p);
      WithTables(tree, p, t.(registry := t.registry[path := child], senders := t.senders[path := child]))
    case Abandon(p, path) => WithTables(tree, p, Deregister(TablesOf(tree, p), path))
    case StopOneChild(p, path) => WithTables(tree, p, StopOne(TablesOf(tree, p), path).0)
    case StopAllChildren(p, order) => WithTables(tree, p, StopEach(TablesOf(tree, p), order).0)
    case RestartAll(p, order) => WithTables(tree, p, RestartEach(TablesOf(tree, p), order).0)
    case ChildStopped(p, path) => WithTables(tree, p, Deregister(TablesOf(tree, p), path))
    case SystemError(_, order) => WithTables(tree, SYSTEM, StopEach(TablesOf(tree, SYSTEM), order).0)
    case Take(id) => tree.(queues := tree.queues[id := tree.queues[id][1..]])
    case End(id) => tree.(supervisors := tree.supervisors - {id}, queues := tree.queues - {id})
  }

  // ---------- agreement ----------

  /** Every registered direct child of the supervisor has an action channel there. */
  ghost predicate AgreeAt(tree: Tree, id: nat)
    requires id in tree.supervisors
  {
    forall p | p in tree.registry && p.Parent() == tree.supervisors[id].path :: p in tree.supervisors[id].senders
  }

  /** The tables agree. */
  ghost predicate Agree(tree: Tree) {
    forall id | id in tree.supervisors :: AgreeAt(tree, id)
  }

  ghost predicate IsNotFound(r: Result<(), Error>) {
    match r
    case Ok(_) => false
    case Err(e) => e.NotFound?
  }

  /** Agreement is exactly what stopping one's own children needs: a supervisor
      whose table agrees never fails with "not found for stopping", in any order,
      and one whose table does not agree fails so in some order. */
  lemma NotFoundExact(tree: Tree, id: nat)
    requires id in tree.supervisors
    ensures AgreeAt(tree, id) <==>
            forall order | Lists(order, Children(tree.registry, tree.supervisors[id].path)) ::
              !IsNotFound(StopEach(TablesOf(tree, id), order).1)
  {
    var t, children := TablesOf(tree, id), Children(tree.registry, tree.supervisors[id].path);
    if AgreeAt(tree, id) {
      forall order | Lists(order, children) ensures !IsNotFound(StopEach(t, order).1) {
        assert forall p | p in order :: p in children;
        StopEachError(t, order);
      }
    } else {
      var p :| p in children && p !in t.senders;
      var order := ListingFrom(children, p);
      assert IsNotFound(StopEach(t, order).1);
    }
  }

  lemma {:induction false} StopEachError(t: Tables, order: seq<ActorPath>)
    requires Distinct(order) && forall p | p in order :: p in t.senders
    ensures !IsNotFound(StopEach(t, order).1)
    decreases |order|
  {
    if order != [] {
      var t' := StopOne(t, order[0]).0;
      forall p | p in order[1..] ensures p in t'.senders {
        assert p in order && p != order[0];
      }
      StopEachError(t', order[1..]);
    }
  }

  /** Some listing of a set starts with a given element. */
  lemma ListingFrom(s: set<ActorPath>, first: ActorPath) returns (order: seq<ActorPath>)
    requires first in s
    ensures Lists(order, s) && order != [] && order[0] == first
    decreases |s|, 0
  {
    var rest := ListingOf(s - {first});
    order := [first] + rest;
    assert forall p :: p in order <==> p == first || p in rest;
  }

  lemma {:induction false} ListingOf(s: set<ActorPath>) returns (order: seq<ActorPath>)
    ensures Lists(order, s)
    decreases |s|, 1
  {
    if s == {} {
      order := [];
    } else {
      var p :| p in s;
      order := ListingFrom(s, p);
    }
  }

  // ---------- which operations keep agreement ----------

  /** The loop of `stop_children` removes a path from a handler's table only
      together with its registration. */
  lemma {:induction false} StopEachRemoves(t: Tables, order: seq<ActorPath>)
    ensures var t' := StopEach(t, order).0;
            && (forall p | p in t'.registry :: p in t.registry && t'.registry[p] == t.registry[p])
            && (forall p | p in t.senders && p !in t'.senders :: p !in t'.registry)
            && (forall p | p in t'.senders :: p in t.senders && t'.senders[p] == t.senders[p])
    decreases |order|
  {
    if order != [] {
      StopEachRemoves(StopOne(t, order[0]).0, order[1..]);
    }
  }

  lemma {:induction false} RestartEachKeeps(t: Tables, order: seq<ActorPath>)
    ensures RestartEach(t, order).0.registry == t.registry && RestartEach(t, order).0.senders == t.senders
    decreases |order|
  {
    if order != [] && Stoppable(t, order[0]) {
      var id := t.senders[order[0]];
      RestartEachKeeps(t.(queues := t.queues[id := t.queues[id] + [Restart]]), order[1..]);
    }
  }

  lemma AgreeAfterRemoval(tree: Tree, id: nat, t: Tables)
    requires Agree(tree) && id in tree.supervisors
    requires forall p | p in t.registry :: p in tree.registry
    requires forall p | p in tree.supervisors[id].senders && p !in t.senders :: p !in t.registry
    ensures Agree(WithTables(tree, id, t))
  {
    forall s | s in tree.supervisors ensures AgreeAt(WithTables(tree, id, t), s) {
      assert AgreeAt(tree, s);
    }
  }

  /** What creating or registering an actor must find. */
  ghost predicate Met(tree: Tree, op: Op)
    requires Enabled(tree, op)
  {
    match op
    case Spawn(p, name, _) => Children(tree.registry, ChildPath(tree, p, name)) == {}
    case Register(p, child) =>
      var path := tree.created[child].path;
      forall q | q in tree.supervisors && q != p && tree.supervisors[q].path == path.Parent() ::
        path in tree.supervisors[q].senders
    case _ => true
  }

  /** From tables that agree, an operation leads to tables that agree exactly if
      it met its condition. */
  lemma AgreeStepExact(tree: Tree, op: Op)
    requires Agree(tree) && Enabled(tree, op)
    ensures Agree(Apply(tree, op)) <==> Met(tree, op)
  {
    match op {
      case Spawn(p, name, child) => SpawnExact(tree, p, name, child);
      case Register(p, child) => RegisterExact(tree, p, child);
      case Abandon(p, path) =>
        AgreeAfterRemoval(tree, p, Deregister(TablesOf(tree, p), path));
      case StopOneChild(p, path) =>
        AgreeAfterRemoval(tree, p, StopOne(TablesOf(tree, p), path).0);
      case StopAllChildren(p, order) =>
        StopEachRemoves(TablesOf(tree, p), order);
        AgreeAfterRemoval(tree, p, StopEach(TablesOf(tree, p), order).0);
      case RestartAll(p, order) =>
        RestartEachKeeps(TablesOf(tree, p), order);
        AgreeAfterRemoval(tree, p, RestartEach(TablesOf(tree, p), order).0);
      case ChildStopped(p, path) =>
        AgreeAfterRemoval(tree, p, Deregister(TablesOf(tree, p), path));
      case SystemError(path, order) =>
        StopEachRemoves(TablesOf(tree, SYSTEM), order);
        AgreeAfterRemoval(tree, SYSTEM, StopEach(TablesOf(tree, SYSTEM), order).0);
      case Take(id) =>
        forall s | s in tree.supervisors ensures AgreeAt(Apply(tree, op), s) {
          assert AgreeAt(tree, s);
        }
      case End(id) =>
        forall s | s in Apply(tree, op).supervisors ensures AgreeAt(Apply(tree, op), s) {
          assert AgreeAt(tree, s);
        }
    }
  }

  /** Creating an actor keeps the tables in agreement exactly when no actor is
      registered below its path. */
  lemma SpawnExact(tree: Tree, parent: nat, name: string, child: nat)
    requires Agree(tree) && Enabled(tree, Spawn(parent, name, child))
    ensures Agree(Apply(tree, Spawn(parent, name, child))) <==> Met(tree, Spawn(parent, name, child))
  {
    hide TokensOf, ActorPath.Div, ActorPath.Parent;
    var path, tree' := ChildPath(tree, parent, name), Apply(tree, Spawn(parent, name, child));
    if p :| p in Children(tree.registry, path) {
      assert !AgreeAt(tree', child);
    } else {
      forall s | s in tree'.supervisors ensures AgreeAt(tree', s) {
        if s == child {
          forall p | p in tree.registry ensures p.Parent() != path {
            assert p !in Children(tree.registry, path);
          }
        } else {
          assert AgreeAt(tree, s);
        }
      }
    }
  }

  /** Registering a child keeps the tables in agreement exactly when every other
      live supervisor at its parent path already has a channel for it: in
      particular not if an earlier actor of that path is still stopping. */
  lemma RegisterExact(tree: Tree, parent: nat, child: nat)
    requires Agree(tree) && Enabled(tree, Register(parent, child))
    ensures Agree(Apply(tree, Register(parent, child))) <==> Met(tree, Register(parent, child))
  {
    hide ActorPath.Parent;
    var path, tree' := tree.created[child].path, Apply(tree, Register(parent, child));
    assert path in tree'.registry && path in tree'.supervisors[parent].senders;
    assert forall q | q in tree.supervisors && q != parent :: tree'.supervisors[q] == tree.supervisors[q];
    if Met(tree, Register(parent, child)) {
      forall s | s in tree'.supervisors ensures AgreeAt(tree', s) {
        assert AgreeAt(tree, s);
      }
    } else {
      var q :| q in tree.supervisors && q != parent && tree.supervisors[q].path == path.Parent()
               && path !in tree.supervisors[q].senders;
      assert !AgreeAt(tree', q);
    }
  }

  // ---------- whole runs ----------

  /** The system alone. */
  function Boot(): Tree {
    Tree(map[], map[SYSTEM := Supervisor(RootPath(), map[])], map[], map[])
  }

  ghost predicate ValidRun(ops: seq<Op>)
    decreases |ops|, 0
  {
    ops == [] ||
    (ValidRun(ops[..|ops| - 1]) && Enabled(After(ops[..|ops| - 1]), ops[|ops| - 1]))
  }

  function After(ops: seq<Op>): Tree
    requires ValidRun(ops)
    decreases |ops|, 1
  {
    if ops == [] then Boot() else Apply(After(ops[..|ops| - 1]), ops[|ops| - 1])
  }

  /** The tables agree after the run and after each of its prefixes. */
  ghost predicate AgreeThroughout(ops: seq<Op>)
    requires ValidRun(ops)
  {
    Agree(After(ops)) && (ops == [] || AgreeThroughout(ops[..|ops| - 1]))
  }

  /** Each creation and each registration met its condition. */
  ghost predicate MetThroughout(ops: seq<Op>)
    requires ValidRun(ops)
  {
    ops == [] ||
    var before := ops[..|ops| - 1];
    MetThroughout(before) && Met(After(before), ops[|ops| - 1])
  }

  /** Over every run whatsoever: the tables agree at each operation boundary
      exactly if every creation and every registration met its condition. */
  lemma {:induction false} AgreeExact(ops: seq<Op>)
    requires ValidRun(ops)
    ensures AgreeThroughout(ops) <==> MetThroughout(ops)
  {
    if ops == [] {
      BootAgrees();
    } else {
      var before := ops[..|ops| - 1];
      AgreeExact(before);
      if MetThroughout(before) {
        AgreeStepExact(After(before), ops[|ops| - 1]);
      }
    }
  }

  lemma BootAgrees()
    ensures Agree(Boot())
  {
    assert AgreeAt(Boot(), SYSTEM);
  }

  /** Over every run that met its conditions, a supervisor stopping its own
      children never fails with "not found for stopping". */
  lemma OwnStopNeverNotFound(ops: seq<Op>, id: nat, order: seq<ActorPath>)
    requires ValidRun(ops) && MetThroughout(ops) && Enabled(After(ops), StopAllChildren(id, order))
    ensures !IsNotFound(StopEach(TablesOf(After(ops), id), order).1)
  {
    AgreeExact(ops);
    assert AgreeAt(After(ops), id);
    NotFoundExact(After(ops), id);
  }

  // ---------- when the conditions are met ----------

  /** The new child's path is free: no live actor has it, not even one that was
      deregistered and is still stopping, and nothing is registered below it. */
  ghost predicate FreshPath(tree: Tree, path: ActorPath) {
    && (forall id | id in tree.supervisors :: tree.supervisors[id].path != path)
    && Children(tree.registry, path) == {}
  }

  ghost predicate SingleToken(name: string) { |TokensOf(name)| == 1 }

  /** What a caller must know before creating a child. It is more than the
      registry tells: actors that are still stopping are no longer in it. */
  ghost predicate Guard(tree: Tree, op: Op)
    requires Enabled(tree, op)
  {
    op.Spawn? ==> SingleToken(op.name) && FreshPath(tree, ChildPath(tree, op.parent, op.name))
  }

  ghost predicate GuardedRun(ops: seq<Op>)
    requires ValidRun(ops)
  {
    ops == [] ||
    var before := ops[..|ops| - 1];
    GuardedRun(before) && Guard(After(before), ops[|ops| - 1])
  }

  /** After these operations, the creation is enabled and its path is free. */
  ghost predicate FreeAfter(before: seq<Op>, op: Op)
    requires op.Spawn?
  {
    && ValidRun(before) && Enabled(After(before), op) && |TokensOf(op.name)| == 1
    && FreshPath(After(before), ChildPath(After(before), op.parent, op.name))
  }

  /** A guarded run is one in which every creation has a single token for a name
      and finds its path free. */
  lemma {:induction false} GuardedExact(ops: seq<Op>)
    requires ValidRun(ops)
    ensures GuardedRun(ops) <==> forall k | 0 <= k < |ops| && ops[k].Spawn? :: FreeAfter(ops[..k], ops[k])
  {
    hide After, Enabled, FreshPath, TokensOf, ChildPath;
    if ops != [] {
      var n := |ops| - 1;
      GuardedExact(ops[..n]);
      hide FreeAfter;
      forall k | 0 <= k < n ensures ops[..n][..k] == ops[..k] {
      }
      LastGuarded(ops);
    }
  }

  lemma LastGuarded(ops: seq<Op>)
    requires ops != [] && ValidRun(ops)
    ensures var n := |ops| - 1;
            GuardedRun(ops) <==> GuardedRun(ops[..n]) && (ops[n].Spawn? ==> FreeAfter(ops[..n], ops[n]))
  {
    hide After, Enabled, FreshPath, TokensOf, ChildPath;
  }

  ghost predicate PathsDistinct(tree: Tree) {
    forall a, b | a in tree.supervisors && b in tree.supervisors && a != b ::
      tree.supervisors[a].path != tree.supervisors[b].path
  }

  /** An actor's path is directly below that of the supervisor that created it. */
  ghost predicate DirectChildren(tree: Tree) {
    && (forall c | c in tree.created && tree.created[c].parent in tree.supervisors ::
          tree.created[c].path.Parent() == tree.supervisors[tree.created[c].parent].path)
    && (forall c | c in tree.supervisors :: tree.supervisors[c].path.tokens != [])
    && (forall c | c in tree.supervisors :: c == SYSTEM || c in tree.created)
    && (forall c | c in tree.created :: tree.created[c].parent == SYSTEM || tree.created[c].parent in tree.created)
  }

  lemma SpawnDirect(tree: Tree, parent: nat, name: string, child: nat)
    requires DirectChildren(tree) && Enabled(tree, Spawn(parent, name, child)) && SingleToken(name)
    ensures DirectChildren(Apply(tree, Spawn(parent, name, child)))
  {
    ChildExact(tree.supervisors[parent].path, name);
    var path, tree' := ChildPath(tree, parent, name), Apply(tree, Spawn(parent, name, child));
    assert path.tokens != [] && path.Parent() == tree.supervisors[parent].path;
    hide TokensOf, ActorPath.Div, ActorPath.Parent, ChildPath;
    forall c | c in tree'.created && tree'.created[c].parent in tree'.supervisors
      ensures tree'.created[c].path.Parent() == tree'.supervisors[tree'.created[c].parent].path
    {
      assert c != child ==> tree.created[c].parent != child;
    }
  }

  lemma SpawnDistinct(tree: Tree, parent: nat, name: string, child: nat)
    requires PathsDistinct(tree) && Enabled(tree, Spawn(parent, name, child))
    requires FreshPath(tree, ChildPath(tree, parent, name))
    ensures PathsDistinct(Apply(tree, Spawn(parent, name, child)))
  {
    hide ChildPath;
  }

  /** An operation other than a creation leaves every live supervisor's path. */
  lemma PathsKept(tree: Tree, op: Op)
    requires Enabled(tree, op) && !op.Spawn?
    ensures var tree' := Apply(tree, op);
            && tree'.created == tree.created
            && forall s | s in tree'.supervisors ::
                 s in tree.supervisors && tree'.supervisors[s].path == tree.supervisors[s].path
  {
    hide StopEach, StopOne, RestartEach;
  }

  lemma GuardStep(tree: Tree, op: Op)
    requires DirectChildren(tree) && PathsDistinct(tree) && Enabled(tree, op) && Guard(tree, op)
    ensures Met(tree, op) && DirectChildren(Apply(tree, op)) && PathsDistinct(Apply(tree, op))
  {
    if op.Spawn? {
      SpawnDirect(tree, op.parent, op.name, op.child);
      SpawnDistinct(tree, op.parent, op.name, op.child);
      hide TokensOf, DirectChildren, PathsDistinct, Apply;
    } else {
      PathsKept(tree, op);
      hide TokensOf, ActorPath.Div, ActorPath.Parent, Apply;
    }
  }

  lemma {:induction false} GuardInvariant(ops: seq<Op>)
    requires ValidRun(ops) && GuardedRun(ops)
    ensures MetThroughout(ops) && DirectChildren(After(ops)) && PathsDistinct(After(ops))
  {
    if ops != [] {
      GuardInvariant(ops[..|ops| - 1]);
      GuardStep(After(ops[..|ops| - 1]), ops[|ops| - 1]);
    }
  }

  /** Single-token names and fresh paths suffice: over every such run the tables
      agree throughout, live paths are distinct and children are directly below
      their creator. */
  lemma GuardSuffices(ops: seq<Op>)
    requires ValidRun(ops) && GuardedRun(ops)
    ensures AgreeThroughout(ops) && PathsDistinct(After(ops)) && DirectChildren(After(ops))
  {
    GuardInvariant(ops);
    AgreeExact(ops);
  }

  // ---------- runs that do not meet them ----------

  lemma NoneYet()
    ensures ValidRun([]) && After([]) == Boot()
  {
  }

  lemma OneMore(ops: seq<Op>, op: Op)
    requires ValidRun(ops) && Enabled(After(ops), op)
    ensures ValidRun(ops + [op]) && After(ops + [op]) == Apply(After(ops), op)
  {
    assert (ops + [op])[..|ops|] == ops;
  }

  /** A root actor `p` is stopped and created again under its name while the
      first is still stopping; the second gets a child `c`. */
  function ReusedPath(): seq<Op> {
    [Spawn(SYSTEM, "p", 1), Register(SYSTEM, 1), StopOneChild(SYSTEM, ActorPath(["user", "p"])),
     Spawn(SYSTEM, "p", 2), Register(SYSTEM, 2), Spawn(2, "c", 3), Register(2, 3)]
  }

  /** A root actor `p` and another one created as `p/c`. */
  function MultiToken(): seq<Op> {
    [Spawn(SYSTEM, "p", 1), Register(SYSTEM, 1), Spawn(SYSTEM, "p/c", 2), Register(SYSTEM, 2)]
  }

  lemma Names()
    ensures TokensOf("p") == ["p"] && TokensOf("c") == ["c"] && TokensOf("p/c") == ["p", "c"]
  {
    assert IsToken("p") && IsToken("c") by {
      assert "p"[0] == 'p' && "c"[0] == 'c';
      assert 'p' in "p" && 'c' in "c";
    }
    TokenParses("p");
    TokenParses("c");
    assert "p" + "/" + "c" == "p/c";
    TokensConcat("p", "c");
  }

  /** The tree with one more started and registered actor. */
  function UpTree(tree: Tree, p: nat, path: ActorPath, child: nat): Tree
    requires p in tree.supervisors
  {
    var s := tree.supervisors[p];
    Tree(tree.registry[path := child],
         tree.supervisors[child := Supervisor(path, map[])][p := s.(senders := s.senders[path := child])],
         tree.queues[child := []],
         tree.created[child := Origin(p, path)])
  }

  lemma UpTreeSteps(tree: Tree, p: nat, name: string, path: ActorPath, child: nat)
    requires Enabled(tree, Spawn(p, name, child)) && ChildPath(tree, p, name) == path && child != p
    ensures var t := Apply(tree, Spawn(p, name, child));
            Enabled(t, Register(p, child)) && Apply(t, Register(p, child)) == UpTree(tree, p, path, child)
  {
    hide ChildPath, ActorPath.Level;
  }

  /** A first root actor, registered. */
  function FirstTree(p: ActorPath): Tree { UpTree(Boot(), SYSTEM, p, 1) }

  lemma FirstRun(p: ActorPath)
    requires RootPath().Div("p") == p
    ensures ValidRun([Spawn(SYSTEM, "p", 1), Register(SYSTEM, 1)])
    ensures After([Spawn(SYSTEM, "p", 1), Register(SYSTEM, 1)]) == FirstTree(p)
  {
    FirstMay(p);
    hide ActorPath.Div, ValidRun, After, Enabled, Apply, UpTree, ChildPath;
    NoneYet();
    UpTreeSteps(Boot(), SYSTEM, "p", p, 1);
    var none: seq<Op> := [];
    OneMore(none, Spawn(SYSTEM, "p", 1));
    OneMore(none + [Spawn(SYSTEM, "p", 1)], Register(SYSTEM, 1));
    assert none + [Spawn(SYSTEM, "p", 1)] + [Register(SYSTEM, 1)] == [Spawn(SYSTEM, "p", 1), Register(SYSTEM, 1)];
  }

  lemma FirstMay(p: ActorPath)
    requires RootPath().Div("p") == p
    ensures Enabled(Boot(), Spawn(SYSTEM, "p", 1)) && ChildPath(Boot(), SYSTEM, "p") == p
  {
    hide ActorPath.Div;
  }

  /** It is told to stop, and still stopping. */
  function StoppingTree(p: ActorPath): Tree {
    var tree := FirstTree(p);
    Tree(map[], tree.supervisors[SYSTEM := Supervisor(RootPath(), map[])], tree.queues[1 := [Stop]], tree.created)
  }

  /** A second actor of its path is up. */
  function AgainTree(p: ActorPath): Tree { UpTree(StoppingTree(p), SYSTEM, p, 2) }

  /** It has a child. */
  function SecondTree(p: ActorPath, c: ActorPath): Tree { UpTree(AgainTree(p), 2, c, 3) }

  lemma OneRemoved(p: ActorPath)
    ensures map[p := 1] - {p} == map[]
  {
  }

  lemma StoppingStep(p: ActorPath)
    ensures Enabled(FirstTree(p), StopOneChild(SYSTEM, p))
    ensures Apply(FirstTree(p), StopOneChild(SYSTEM, p)) == StoppingTree(p)
  {
    OneRemoved(p);
    assert FirstTree(p).registry == map[p := 1] && FirstTree(p).supervisors[SYSTEM].senders == map[p := 1];
    assert [] + [Stop] == [Stop];
  }

  lemma SecondMay(p: ActorPath, c: ActorPath)
    requires RootPath().Div("p") == p && p.Div("c") == c && p != c && p.Level() < MAX_ACTOR_DEPTH
    ensures Enabled(StoppingTree(p), Spawn(SYSTEM, "p", 2)) && ChildPath(StoppingTree(p), SYSTEM, "p") == p
    ensures Enabled(AgainTree(p), Spawn(2, "c", 3)) && ChildPath(AgainTree(p), 2, "c") == c
  {
    hide ActorPath.Div, ActorPath.Level;
  }

  lemma SecondSteps(p: ActorPath, c: ActorPath)
    requires RootPath().Div("p") == p && p.Div("c") == c && p != c && p.Level() < MAX_ACTOR_DEPTH
    ensures var t3 := StoppingTree(p);
            && Enabled(t3, Spawn(SYSTEM, "p", 2))
            && var t4 := Apply(t3, Spawn(SYSTEM, "p", 2));
               Enabled(t4, Register(SYSTEM, 2))
               && var t5 := Apply(t4, Register(SYSTEM, 2));
                  Enabled(t5, Spawn(2, "c", 3))
                  && var t6 := Apply(t5, Spawn(2, "c", 3));
                     Enabled(t6, Register(2, 3)) && Apply(t6, Register(2, 3)) == SecondTree(p, c)
  {
    SecondMay(p, c);
    hide Enabled, Apply, ChildPath, StoppingTree, UpTree, ActorPath.Div, ActorPath.Level;
    UpTreeSteps(StoppingTree(p), SYSTEM, "p", p, 2);
    UpTreeSteps(AgainTree(p), 2, "c", c, 3);
  }

  lemma PathFacts(p: ActorPath, c: ActorPath)
    requires p == ActorPath(["user", "p"]) && c == ActorPath(["user", "p", "c"])
    ensures RootPath().Div("p") == p && p.Div("c") == c && RootPath().Div("p/c") == c
    ensures c.Parent() == p && p.Parent() == RootPath() && RootPath() != p && RootPath() != c && p != c
    ensures p.Level() < MAX_ACTOR_DEPTH
  {
    Names();
  }

  lemma StoppingRun(p: ActorPath)
    requires RootPath().Div("p") == p
    ensures ValidRun([Spawn(SYSTEM, "p", 1), Register(SYSTEM, 1), StopOneChild(SYSTEM, p)])
    ensures After([Spawn(SYSTEM, "p", 1), Register(SYSTEM, 1), StopOneChild(SYSTEM, p)]) == StoppingTree(p)
  {
    hide ActorPath.Div, ValidRun, After, Apply, Enabled, FirstTree, StoppingTree;
    FirstRun(p);
    StoppingStep(p);
    var ops := [Spawn(SYSTEM, "p", 1), Register(SYSTEM, 1)];
    OneMore(ops, StopOneChild(SYSTEM, p));
    assert ops + [StopOneChild(SYSTEM, p)] == [Spawn(SYSTEM, "p", 1), Register(SYSTEM, 1), StopOneChild(SYSTEM, p)];
  }

  lemma ReusedRun(p: ActorPath, c: ActorPath)
    requires RootPath().Div("p") == p && p.Div("c") == c && p != c && p.Level() < MAX_ACTOR_DEPTH
    requires ReusedPath()[2] == StopOneChild(SYSTEM, p)
    ensures ValidRun(ReusedPath()) && After(ReusedPath()) == SecondTree(p, c)
  {
    hide ActorPath.Div, ActorPath.Level, ValidRun, After, Apply, Enabled, StoppingTree, SecondTree;
    StoppingRun(p);
    SecondSteps(p, c);
    var ops := [Spawn(SYSTEM, "p", 1), Register(SYSTEM, 1), StopOneChild(SYSTEM, p)];
    FourMore(ops, Spawn(SYSTEM, "p", 2), Register(SYSTEM, 2), Spawn(2, "c", 3), Register(2, 3));
    assert ReusedPath() == ops + [Spawn(SYSTEM, "p", 2), Register(SYSTEM, 2), Spawn(2, "c", 3), Register(2, 3)];
  }

  /** The reused path is a run, and after it the actor that is still stopping
      has a registered child it has no channel for. */
  lemma ReusedPathFails()
    ensures ValidRun(ReusedPath()) && 1 in After(ReusedPath()).supervisors && !AgreeAt(After(ReusedPath()), 1)
    ensures var child := ActorPath(["user", "p", "c"]);
            StopEach(TablesOf(After(ReusedPath()), 1), [child]).1 == Err(NotFound(child))
  {
    var p, c := ActorPath(["user", "p"]), ActorPath(["user", "p", "c"]);
    PathFacts(p, c);
    assert ReusedPath()[2] == StopOneChild(SYSTEM, p);
    hide ActorPath.Div, ActorPath.Parent, ActorPath.Level, ValidRun, After, AgreeAt, StopEach, TablesOf, ReusedPath;
    ReusedRun(p, c);
    SecondDisagrees(p, c);
  }

  lemma FourMore(ops: seq<Op>, a: Op, b: Op, c: Op, d: Op)
    requires ValidRun(ops) && Enabled(After(ops), a) && Enabled(Apply(After(ops), a), b)
    requires Enabled(Apply(Apply(After(ops), a), b), c)
    requires Enabled(Apply(Apply(Apply(After(ops), a), b), c), d)
    ensures ValidRun(ops + [a, b, c, d])
    ensures After(ops + [a, b, c, d]) == Apply(Apply(Apply(Apply(After(ops), a), b), c), d)
  {
    hide Enabled, Apply, ValidRun, After;
    OneMore(ops, a);
    OneMore(ops + [a], b);
    OneMore(ops + [a] + [b], c);
    OneMore(ops + [a] + [b] + [c], d);
    assert ops + [a, b, c, d] == ops + [a] + [b] + [c] + [d];
  }

  lemma SecondDisagrees(p: ActorPath, c: ActorPath)
    requires c.Parent() == p && p != c
    ensures !AgreeAt(SecondTree(p, c), 1)
    ensures StopEach(TablesOf(SecondTree(p, c), 1), [c]).1 == Err(NotFound(c))
  {
    hide ActorPath.Parent;
    assert c in SecondTree(p, c).registry && c !in SecondTree(p, c).supervisors[1].senders;
  }

  /** The root actor `p` and one created beside it with the path of a child. */
  function BesideTree(p: ActorPath, c: ActorPath): Tree { UpTree(FirstTree(p), SYSTEM, c, 2) }

  lemma BesideMay(p: ActorPath, c: ActorPath)
    requires RootPath().Div("p/c") == c && p != c
    ensures Enabled(FirstTree(p), Spawn(SYSTEM, "p/c", 2)) && ChildPath(FirstTree(p), SYSTEM, "p/c") == c
  {
    hide ActorPath.Div;
  }

  lemma BesideDisagrees(p: ActorPath, c: ActorPath)
    requires p != c && c.Parent() == p
    ensures !AgreeAt(BesideTree(p, c), 1)
    ensures StopEach(TablesOf(BesideTree(p, c), 1), [c]).1 == Err(NotFound(c))
  {
    hide ActorPath.Parent;
    assert c in BesideTree(p, c).registry && c !in BesideTree(p, c).supervisors[1].senders;
  }

  lemma BesideRun(p: ActorPath, c: ActorPath)
    requires RootPath().Div("p") == p && RootPath().Div("p/c") == c && p != c
    ensures ValidRun(MultiToken()) && After(MultiToken()) == BesideTree(p, c)
  {
    BesideMay(p, c);
    FirstRun(p);
    hide ActorPath.Div, ValidRun, After, Enabled, Apply, UpTree, ChildPath, FirstTree;
    UpTreeSteps(FirstTree(p), SYSTEM, "p/c", c, 2);
    var ops := [Spawn(SYSTEM, "p", 1), Register(SYSTEM, 1)];
    OneMore(ops, Spawn(SYSTEM, "p/c", 2));
    OneMore(ops + [Spawn(SYSTEM, "p/c", 2)], Register(SYSTEM, 2));
    assert MultiToken() == ops + [Spawn(SYSTEM, "p/c", 2)] + [Register(SYSTEM, 2)];
  }

  /** The multi-token name is a run, and after it the actor whose child it looks
      like has no channel for it. */
  lemma MultiTokenFails()
    ensures ValidRun(MultiToken()) && 1 in After(MultiToken()).supervisors && !AgreeAt(After(MultiToken()), 1)
    ensures var child := ActorPath(["user", "p", "c"]);
            StopEach(TablesOf(After(MultiToken()), 1), [child]).1 == Err(NotFound(child))
  {
    var p, c := ActorPath(["user", "p"]), ActorPath(["user", "p", "c"]);
    PathFacts(p, c);
    hide ActorPath.Div, ActorPath.Parent, ActorPath.Level, ValidRun, After, AgreeAt, StopEach, TablesOf, MultiToken;
    BesideRun(p, c);
    BesideDisagrees(p, c);
  }

  // ---------- errors that reach the system ----------

  /** Every root actor was created with a single-token name. */
  predicate RootNames(ops: seq<Op>) {
    forall op | op in ops && op.Spawn? && op.parent == SYSTEM :: |TokensOf(op.name)| == 1
  }

  /** The system's own table only ever names its direct children. */
  ghost predicate SystemOwns(tree: Tree) {
    && SYSTEM in tree.supervisors && tree.supervisors[SYSTEM].path == RootPath()
    && (forall p | p in tree.supervisors[SYSTEM].senders :: p.Parent() == RootPath())
    && (forall c | c in tree.created && tree.created[c].parent == SYSTEM :: tree.created[c].path.Parent() == RootPath())
  }

  lemma SystemOwnsStep(tree: Tree, op: Op)
    requires SystemOwns(tree) && Enabled(tree, op)
    requires op.Spawn? && op.parent == SYSTEM ==> SingleToken(op.name)
    ensures SystemOwns(Apply(tree, op))
  {
    match op {
      case Spawn(p, name, child) =>
        if p == SYSTEM {
          ChildExact(RootPath(), name);
        }
        hide TokensOf, ActorPath.Div, ActorPath.Parent;
      case StopAllChildren(p, order) =>
        StopEachRemoves(TablesOf(tree, p), order);
      case RestartAll(p, order) =>
        RestartEachKeeps(TablesOf(tree, p), order);
      case SystemError(_, order) =>
        StopEachRemoves(TablesOf(tree, SYSTEM), order);
      case _ =>
    }
  }

  lemma {:induction false} SystemOwnsRun(ops: seq<Op>)
    requires ValidRun(ops) && RootNames(ops)
    ensures SystemOwns(After(ops))
  {
    if ops != [] {
      var before, last := ops[..|ops| - 1], ops[|ops| - 1];
      assert forall op | op in before :: op in ops;
      assert last in ops;
      SystemOwnsRun(before);
      SystemOwnsStep(After(before), last);
    }
  }

  /** Over every run with single-token root names: an error of any actor makes
      the system stop that actor's children with the system's own table, where
      none of them is: if there is any, the call fails, exactly one of them is
      deregistered, and no Stop is sent to anyone. */
  lemma SystemErrorOrphans(ops: seq<Op>, path: ActorPath, order: seq<ActorPath>)
    requires ValidRun(ops) && RootNames(ops) && Enabled(After(ops), SystemError(path, order))
    requires path != RootPath() && order != []
    ensures var tree := After(ops);
            var tree' := Apply(tree, SystemError(path, order));
            && StopEach(TablesOf(tree, SYSTEM), order).1 == Err(NotFound(order[0]))
            && order[0] in tree.registry && tree'.registry == tree.registry - {order[0]}
            && tree'.queues == tree.queues && tree'.supervisors == tree.supervisors
  {
    SystemOwnsRun(ops);
    var tree := After(ops);
    var t := TablesOf(tree, SYSTEM);
    assert order[0] in order;
    assert order[0] in Children(tree.registry, path);
    assert order[0] !in t.senders;
    assert t.senders - {order[0]} == t.senders;
    assert tree.supervisors[SYSTEM := tree.supervisors[SYSTEM]] == tree.supervisors;
  }
}
