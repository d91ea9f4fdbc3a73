/** The stop protocol of a whole tree of actors, as steps in any order: Stop
    actions travel down through the action queues, Stopped signals travel up
    through the signal queues, and the shared registry decides who waits.

    Actors are told apart by number, so that a path may be used again. The code
    of every handler sees paths and channels only.
 */
module Shutdown {
  import opened Wrappers
  import opened Paths
  import opened Supervision
  import T = SupervisionTrees

  /** Where an actor is: before `run`; in `run`; out of it; its Stopped signal
      emitted; its runner dropped, with its queues. */
  datatype Phase = Starting | Running | Left | Emitted | Gone

  /** What has become of the start-up reply to the creator. */
  datatype Creation = Pending | Accepted | Refused | Settled

  /** `clean` says that the actor left `run` as stopped. */
  datatype Life = Life(phase: Phase, creation: Creation, clean: bool)

  /** A Stopped signal carries the path; the number is history. */
  datatype Signal = Signal(id: nat, path: ActorPath)

  datatype SystemPhase = Serving | ShuttingDown | Done

  /** `waited`, `behind` and `emitted` are history: the actors that had a
      registered child when they handled Stop and went on; those whose last turn
      left a child registered, or met one without a channel; and the Stopped
      signals in order. */
  datatype World = World(
    tree: T.Tree,
    life: map<nat, Life>,
    signals: map<nat, seq<Signal>>,
    system: SystemPhase,
    waited: set<nat>,
    behind: set<nat>,
    emitted: seq<nat>)

  datatype Step =
    | Spawn(parent: nat, name: string, child: nat)
    | Start(child: nat)                                // `pre_start` succeeded, by itself or by a retry
    | Refuse(child: nat)                               // it did not
    | Settle(child: nat)                               // the creator gets the reply
    | StopChild(id: nat, name: string)                 // a handler stops one child
    | RemoveChild(id: nat, name: string)               // a handler forgets one child
    | RestartChildren(id: nat, order: seq<ActorPath>)
    | HandleStop(id: nat, order: seq<ActorPath>, preStop: bool, fault: bool)
    | HandleRestart(id: nat, order: seq<ActorPath>, fault: bool, again: bool)
    | HandleSignal(id: nat)
    | Emit(id: nat)
    | Drop(id: nat)
    | SystemError(path: ActorPath, order: seq<ActorPath>)
    | SystemFault(order: seq<ActorPath>)
    | SystemCancel(order: seq<ActorPath>)
    | SystemSignal

  // ---------- what is enabled ----------

  predicate IsRunning(w: World, x: nat) {
    x in w.life && w.life[x].phase == Running && x in w.tree.supervisors && x in w.tree.queues && x in w.signals
  }

  /** The code of this supervisor may run: the system, or an actor that starts or runs. */
  predicate Acts(w: World, x: nat) {
    && x in w.tree.supervisors
    && (x == T.SYSTEM || (x in w.life && (w.life[x].phase == Starting || w.life[x].phase == Running)))
  }

  /** The actor does not wait for a child's start-up. The system may wait for
      several and go on. */
  predicate Idle(w: World, x: nat) {
    || x == T.SYSTEM
    || forall c | c in w.life && c in w.tree.created && w.tree.created[c].parent == x :: w.life[c].creation == Settled
  }

  ghost predicate Enabled(w: World, step: Step) {
    match step
    case Spawn(x, name, c) =>
      Acts(w, x) && Idle(w, x) && c !in w.life && T.Enabled(w.tree, T.Op.Spawn(x, name, c))
    case Start(c) => c in w.life && w.life[c].phase == Starting && Idle(w, c)
    case Refuse(c) => c in w.life && w.life[c].phase == Starting && Idle(w, c)
    case Settle(c) =>
      && c in w.life && (w.life[c].creation == Accepted || w.life[c].creation == Refused)
      && c in w.tree.created && w.tree.created[c].parent in w.tree.supervisors
    case StopChild(x, name) => Acts(w, x) && Idle(w, x)
    case RemoveChild(x, name) => Acts(w, x) && Idle(w, x)
    case RestartChildren(x, order) => Acts(w, x) && Idle(w, x) && T.Enabled(w.tree, T.Op.RestartAll(x, order))
    case HandleStop(x, order, _, _) =>
      && IsRunning(w, x) && Idle(w, x) && w.tree.queues[x] != [] && w.tree.queues[x][0] == Stop
      && T.Enabled(w.tree, T.Op.StopAllChildren(x, order))
    case HandleRestart(x, order, _, _) =>
      && IsRunning(w, x) && Idle(w, x) && w.tree.queues[x] != [] && w.tree.queues[x][0] == Restart
      && T.Enabled(w.tree, T.Op.RestartAll(x, order))
    case HandleSignal(x) => IsRunning(w, x) && Idle(w, x) && w.signals[x] != []
    case Emit(x) => x in w.life && w.life[x].phase == Left && x in w.tree.created
    case Drop(x) => x in w.life && w.life[x].phase == Emitted && T.Enabled(w.tree, T.Op.End(x))
    case SystemError(path, order) => w.system != Done && T.Enabled(w.tree, T.Op.SystemError(path, order))
    case SystemFault(order) => w.system != Done && T.Enabled(w.tree, T.Op.StopAllChildren(T.SYSTEM, order))
    case SystemCancel(order) => w.system != Done && T.Enabled(w.tree, T.Op.StopAllChildren(T.SYSTEM, order))
    case SystemSignal =>
      && w.system != Done && T.SYSTEM in w.tree.supervisors
      && T.SYSTEM in w.signals && w.signals[T.SYSTEM] != []
  }

  // ---------- the steps ----------

  function TreeStep(w: World, op: T.Op): World
    requires T.Enabled(w.tree, op)
  {
    w.(tree := T.Apply(w.tree, op))
  }

  /** The oldest action has been handled. */
  function Took(w: World, x: nat): World {
    if x in w.tree.queues && w.tree.queues[x] != [] then
      w.(tree := w.tree.(queues := w.tree.queues[x := w.tree.queues[x][1..]]))
    else w
  }

  function Leaves(w: World, x: nat, clean: bool): World
    requires x in w.life
  {
    w.(life := w.life[x := w.life[x].(phase := Left, clean := clean)])
  }

  function Waits(w: World, x: nat, leftBehind: bool): World {
    w.(waited := w.waited + {x}, behind := if leftBehind then w.behind + {x} else w.behind - {x})
  }

  /** The oldest signal has been handled. */
  function Heard(w: World, x: nat, leaves: bool): World
    requires x in w.life && x in w.signals && w.signals[x] != []
  {
    var w1 := w.(signals := w.signals[x := w.signals[x][1..]]);
    if leaves then Leaves(w1, x, true) else w1.(behind := w.behind + {x})
  }

  function Emits(w: World, x: nat): World
    requires x in w.life && x in w.tree.created
  {
    var o := w.tree.created[x];
    var w1 := w.(life := w.life[x := w.life[x].(phase := Emitted)], emitted := w.emitted + [x]);
    if o.parent in w.tree.supervisors && o.parent in w.signals then
      w1.(signals := w.signals[o.parent := w.signals[o.parent] + [Signal(x, o.path)]])
    else w1
  }

  /** A start-up is registered, or undone. */
  function Settles(w: World, c: nat): World
    requires c in w.life && c in w.tree.created && w.tree.created[c].parent in w.tree.supervisors
  {
    var o := w.tree.created[c];
    var op := if w.life[c].creation == Accepted then T.Op.Register(o.parent, c) else T.Op.Abandon(o.parent, o.path);
    TreeStep(w, op).(life := w.life[c := w.life[c].(creation := Settled)])
  }

  /** A handled action leaves its queue at the end of the turn, which makes no
      difference to anyone. */
  function StopTurn(w: World, x: nat, order: seq<ActorPath>, preStop: bool, fault: bool): World
    requires x in w.life && T.Enabled(w.tree, T.Op.StopAllChildren(x, order))
  {
    if !preStop then Leaves(Took(w, x), x, false)
    else
      var r := StopEach(T.TablesOf(w.tree, x), order).1;
      var w1 := Took(TreeStep(w, T.Op.StopAllChildren(x, order)), x);
      if r.Ok? && order == [] then Leaves(w1, x, true)
      else if r.Err? && !fault then Leaves(w1, x, false)
      else Waits(w1, x, LeftBehind(w, x, order))
  }

  function RestartTurn(w: World, x: nat, order: seq<ActorPath>, fault: bool, again: bool): World
    requires x in w.life && T.Enabled(w.tree, T.Op.RestartAll(x, order))
  {
    var r := RestartEach(T.TablesOf(w.tree, x), order).1;
    var w1 := Took(TreeStep(w, T.Op.RestartAll(x, order)), x);
    if (r.Ok? || fault) && again then w1 else Leaves(w1, x, false)
  }

  function SignalTurn(w: World, x: nat): World
    requires x in w.life && x in w.tree.supervisors && x in w.signals && w.signals[x] != []
  {
    var w1 := TreeStep(w, T.Op.ChildStopped(x, SignalPath(w, x)));
    Heard(w1, x, Children(w1.tree.registry, w.tree.supervisors[x].path) == {})
  }

  function SystemTurn(w: World): World
    requires T.SYSTEM in w.tree.supervisors && T.SYSTEM in w.signals && w.signals[T.SYSTEM] != []
  {
    var w1 := TreeStep(w, T.Op.ChildStopped(T.SYSTEM, w.signals[T.SYSTEM][0].path));
    w1.(signals := w.signals[T.SYSTEM := w.signals[T.SYSTEM][1..]],
        system := if w.system == ShuttingDown && Children(w1.tree.registry, w.tree.supervisors[T.SYSTEM].path) == {}
                  then Done else w.system)
  }

  function Next(w: World, step: Step): World
    requires Enabled(w, step)
  {
    match step
    case Spawn(x, name, c) =>
      TreeStep(w, T.Op.Spawn(x, name, c)).(
        life := w.life[c := Life(Starting, Pending, false)],
        signals := w.signals[c := []])
    case Start(c) => w.(life := w.life[c := Life(Running, Accepted, false)])
    case Refuse(c) => w.(life := w.life[c := Life(Left, Refused, false)])
    case Settle(c) => Settles(w, c)
    case StopChild(x, name) => TreeStep(w, T.Op.StopOneChild(x, T.ChildPath(w.tree, x, name)))
    case RemoveChild(x, name) => TreeStep(w, T.Op.ChildStopped(x, T.ChildPath(w.tree, x, name)))
    case RestartChildren(x, order) => TreeStep(w, T.Op.RestartAll(x, order))
    case HandleStop(x, order, preStop, fault) => StopTurn(w, x, order, preStop, fault)
    case HandleRestart(x, order, fault, again) => RestartTurn(w, x, order, fault, again)
    case HandleSignal(x) => SignalTurn(w, x)
    case Emit(x) => Emits(w, x)
    case Drop(x) => TreeStep(w, T.Op.End(x)).(life := w.life[x := w.life[x].(phase := Gone)])
    case SystemError(path, order) => TreeStep(w, T.Op.SystemError(path, order))
    case SystemFault(order) => TreeStep(w, T.Op.StopAllChildren(T.SYSTEM, order))
    case SystemCancel(order) =>
      TreeStep(w, T.Op.StopAllChildren(T.SYSTEM, order)).(system := if order == [] then Done else ShuttingDown)
    case SystemSignal => SystemTurn(w)
  }

  /** The path an actor removes for its oldest signal: its own, and the key of
      the signal's. */
  function SignalPath(w: World, x: nat): ActorPath
    requires x in w.tree.supervisors && x in w.signals && w.signals[x] != []
  {
    w.tree.supervisors[x].path.Div(w.signals[x][0].path.Key())
  }

  /** Stopping the children failed and a direct child is still registered, or it
      failed on a child without a channel. */
  predicate LeftBehind(w: World, x: nat, order: seq<ActorPath>)
    requires x in w.tree.supervisors
  {
    var (t', r) := StopEach(T.TablesOf(w.tree, x), order);
    r.Err? && (r.error.NotFound? || Children(t'.registry, w.tree.supervisors[x].path) != {})
  }

  // ---------- whole runs ----------

  function Boot(): World {
    World(T.Boot(), map[], map[T.SYSTEM := []], Serving, {}, {}, [])
  }

  ghost predicate ValidRun(steps: seq<Step>)
    decreases |steps|, 0
  {
    steps == [] ||
    (ValidRun(steps[..|steps| - 1]) && Enabled(After(steps[..|steps| - 1]), steps[|steps| - 1]))
  }

  function After(steps: seq<Step>): World
    requires ValidRun(steps)
    decreases |steps|, 1
  {
    if steps == [] then Boot() else Next(After(steps[..|steps| - 1]), steps[|steps| - 1])
  }

  // ---------- invariants ----------

  function Parent(w: World, c: nat): nat
    requires c in w.tree.created
  {
    w.tree.created[c].parent
  }

  /** The parts of a world fit together. */
  ghost predicate Shape(w: World) {
    && T.SYSTEM in w.tree.supervisors && w.tree.supervisors[T.SYSTEM].path == T.RootPath()
    && w.life.Keys == w.tree.created.Keys
    && w.signals.Keys == w.tree.created.Keys + {T.SYSTEM}
    && (forall s | s in w.tree.supervisors :: s == T.SYSTEM || s in w.tree.created)
    && (forall c | c in w.tree.queues :: c in w.tree.created)
    && (forall c | c in w.tree.created :: ShapeAt(w, c))
  }

  ghost predicate ShapeAt(w: World, c: nat)
    requires c in w.tree.created
  {
    && c in w.life && c in w.signals
    && T.SYSTEM <= Parent(w, c) < c && (Parent(w, c) == T.SYSTEM || Parent(w, c) in w.tree.created)
    && (c in w.tree.supervisors <==> w.life[c].phase != Gone)
    && (c in w.tree.queues <==> w.life[c].phase != Gone)
    && (c in w.tree.supervisors ==> w.tree.supervisors[c].path == w.tree.created[c].path)
    && w.tree.created[c].path.WellFormed() && w.tree.created[c].path.tokens != []
    && (w.life[c].phase == Starting <==> w.life[c].creation == Pending)
    && (w.life[c].clean ==> w.life[c].phase != Starting && w.life[c].phase != Running)
    && (c in w.waited ==> w.life[c].phase != Starting)
  }

  /** A table names only settled children by their own path, and none that was
      already told to stop. */
  ghost predicate ChannelOk(w: World, s: nat, p: ActorPath)
    requires s in w.tree.supervisors && p in w.tree.supervisors[s].senders
  {
    var c := w.tree.supervisors[s].senders[p];
    && c in w.tree.created && w.tree.created[c] == T.Origin(s, p)
    && c in w.life && w.life[c].creation == Settled
    && (c in w.tree.queues ==> Stop !in w.tree.queues[c])
    && c !in w.waited
  }

  ghost predicate ChannelsOk(w: World) {
    forall s, p | s in w.tree.supervisors && p in w.tree.supervisors[s].senders :: ChannelOk(w, s, p)
  }

  predicate ToldOnce(queue: seq<ChildAction>) {
    forall i, j | 0 <= i < j < |queue| :: !(queue[i] == Stop && queue[j] == Stop)
  }

  /** At most one Stop reaches an actor, after it is settled. */
  ghost predicate QueueOk(w: World, c: nat)
    requires c in w.tree.queues
  {
    && ToldOnce(w.tree.queues[c])
    && (Stop in w.tree.queues[c] ==> c in w.life && w.life[c].creation == Settled && c !in w.waited)
  }

  ghost predicate QueuesOk(w: World) {
    forall c | c in w.tree.queues :: QueueOk(w, c)
  }

  ghost predicate SomeChildEmitted(w: World, emitted: seq<nat>, x: nat) {
    exists c :: c in emitted && c in w.tree.created && Parent(w, c) == x
  }

  /** Who waited and left as stopped did so after a child had emitted. */
  ghost predicate WaitedOk(w: World, x: nat) {
    && x in w.life && w.life[x].creation == Settled
    && (w.life[x].clean ==> SomeChildEmitted(w, w.emitted, x))
  }

  ghost predicate AllWaitedOk(w: World) {
    forall x | x in w.waited :: WaitedOk(w, x)
  }

  ghost predicate SignalOk(w: World, x: nat, s: Signal) {
    s.id in w.tree.created && w.tree.created[s.id] == T.Origin(x, s.path) && s.id in w.emitted
  }

  ghost predicate SignalsOk(w: World) {
    forall x, s | x in w.signals && s in w.signals[x] :: SignalOk(w, x, s)
  }

  ghost predicate EmittedOk(w: World) {
    && (forall c | c in w.life :: c in w.emitted <==> w.life[c].phase == Emitted || w.life[c].phase == Gone)
    && (forall c | c in w.emitted :: c in w.life)
  }

  /** The emission of an actor that waited and left as stopped comes after that
      of one of its children. */
  ghost predicate OrderOk(w: World) {
    forall i | 0 <= i < |w.emitted| && w.emitted[i] in w.waited && w.emitted[i] in w.life
               && w.life[w.emitted[i]].clean ::
      SomeChildEmitted(w, w.emitted[..i], w.emitted[i])
  }

  /** Who waits for a start-up is still there. */
  ghost predicate BusyOk(w: World) {
    forall c | c in w.tree.created && c in w.life && w.life[c].creation != Settled :: Acts(w, Parent(w, c))
  }

  /** The registry names settled actors by their path, and no direct child of an
      actor that left as stopped, created by that actor. */
  ghost predicate RegisteredOk(w: World, p: ActorPath)
    requires p in w.tree.registry
  {
    var c := w.tree.registry[p];
    && c in w.tree.created && w.tree.created[c].path == p && c in w.life && w.life[c].creation == Settled
    && (Parent(w, c) in w.life && w.life[Parent(w, c)].clean ==>
          Parent(w, c) in w.tree.created && p.Parent() != w.tree.created[Parent(w, c)].path)
  }

  ghost predicate RegistryOk(w: World) {
    forall p | p in w.tree.registry :: RegisteredOk(w, p)
  }

  /** The creator has not settled the child, or has a channel for it as a direct child. */
  ghost predicate Unheard(w: World, c: nat)
    requires c in w.tree.created && c in w.life && Parent(w, c) in w.tree.supervisors
  {
    var path, s := w.tree.created[c].path, w.tree.supervisors[Parent(w, c)];
    || w.life[c].creation != Settled
    || (path in s.senders && s.senders[path] == c && path.Parent() == s.path)
  }

  /** The signal of such a child waits. */
  ghost predicate PendingOk(w: World) {
    forall c | c in w.tree.created && c in w.life && c in w.emitted && Parent(w, c) != T.SYSTEM
               && Parent(w, c) in w.tree.supervisors && Parent(w, c) in w.signals && Unheard(w, c) ::
      Signal(c, w.tree.created[c].path) in w.signals[Parent(w, c)]
  }

  /** Told to stop, or out of `run`. */
  ghost predicate Told(w: World, c: nat)
    requires c in w.life
  {
    || (w.life[c].phase != Starting && w.life[c].phase != Running)
    || c in w.waited
    || (c in w.tree.queues && Stop in w.tree.queues[c])
  }

  /** A child that was told and whose Stopped the actor has not heard. */
  ghost predicate Awaited(w: World, x: nat, c: nat) {
    && c in w.tree.created && c in w.life && Parent(w, c) == x && Told(w, c)
    && (c !in w.emitted || (x in w.signals && Signal(c, w.tree.created[c].path) in w.signals[x]))
  }

  /** Who waits and left no child behind has a child to wait for. */
  ghost predicate AwaitingOk(w: World) {
    forall x | x in w.waited && x in w.life && w.life[x].phase == Running && x !in w.behind ::
      exists c :: Awaited(w, x, c)
  }

  ghost predicate Inv(w: World) {
    && Shape(w) && ChannelsOk(w) && QueuesOk(w) && AllWaitedOk(w) && SignalsOk(w) && EmittedOk(w)
    && OrderOk(w) && BusyOk(w) && RegistryOk(w) && PendingOk(w) && AwaitingOk(w)
  }
}
