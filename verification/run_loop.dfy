/** The loop an actor runs in while it is started: messages, signals of its
    children and actions of its supervisor, in whatever order they are picked.
 */
module RunLoops {
  import opened Wrappers
  import opened Paths
  import opened Supervision
  import opened Runners
  import T = SupervisionTrees

  /** What a handler may do to the children of its actor, by name or all at once;
      `started` is the reply of the new child's start-up. */
  datatype Call =
    | CreateChild(name: string, started: bool)
    | StopChild(name: string)
    | RemoveChild(name: string)
    | StopChildren
    | RestartChildren

  /** What is picked next: a message or a failed child with the calls its handler
      makes, a Stopped signal, or an action. `preStop` says that `pre_stop` succeeds
      or its fault reaches the supervisor; `faultSent` that the fault emitted when
      stopping or restarting the children fails does. */
  datatype Input =
    | Message(calls: seq<Call>)
    | ChildFailed(calls: seq<Call>)
    | ChildStopped(child: ActorPath)
    | StopAction(preStop: bool, faultSent: bool)
    | RestartAction(faultSent: bool)
    | Others(registry: map<ActorPath, nat>, gone: set<nat>)  // other actors register, deregister and end

  /** What one call does to the tables. A new child's channel is new. */
  ghost predicate Calls(path: ActorPath, t: Tables, call: Call, t': Tables) {
    match call
    case CreateChild(name, started) =>
      var p := path.Div(name);
      if path.Level() >= MAX_ACTOR_DEPTH || p in t.registry then t' == t
      else if !started then t' == Deregister(t, p)
      else exists id :: NewChannel(t, id)
                        && t' == Tables(t.registry[p := id], t.senders[p := id], t.queues[id := []])
    case StopChild(name) => t' == StopOne(t, path.Div(name)).0
    case RemoveChild(name) => t' == Deregister(t, path.Div(name))
    case StopChildren => exists order :: Lists(order, Children(t.registry, path)) && t' == StopEach(t, order).0
    case RestartChildren => exists order :: Lists(order, t.senders.Keys) && t' == RestartEach(t, order).0
  }

  ghost predicate NewChannel(t: Tables, id: nat) {
    id !in t.queues && forall p | p in t.senders :: t.senders[p] != id
  }

  /** A handler makes its calls in turn. */
  ghost predicate Handles(path: ActorPath, t: Tables, calls: seq<Call>, t': Tables)
    decreases |calls|
  {
    if calls == [] then t' == t
    else
      var before, last := calls[..|calls| - 1], calls[|calls| - 1];
      exists t1 :: Handles(path, t, before, t1) && Calls(path, t1, last, t')
  }

  /** What one turn does to the tables and whether it ends the loop. */
  ghost predicate Turns(path: ActorPath, t: Tables, input: Input, t': Tables, end: Option<RunEnd>) {
    match input
    case Message(calls) => Handles(path, t, calls, t') && end == None
    case ChildFailed(calls) => Handles(path, t, calls, t') && end == None
    case Others(registry, gone) => t' == t.(registry := registry, queues := t.queues - gone) && end == None
    case ChildStopped(child) =>
      && t' == Deregister(t, path.Div(child.Key()))
      && end == (if Children(t'.registry, path) == {} then Some(RunStopped) else None)
    case StopAction(preStop, faultSent) =>
      if !preStop then t' == t && end == Some(RunFailed)
      else exists order :: StopsInOrder(path, t, order, faultSent, t', end)
    case RestartAction(faultSent) =>
      exists order :: RestartsInOrder(t, order, faultSent, t', end)
  }

  /** A Restart action: the loop ends, as failed only if restarting the children
      failed and the fault could not be emitted. */
  ghost predicate RestartsInOrder(t: Tables, order: seq<ActorPath>, faultSent: bool, t': Tables, end: Option<RunEnd>) {
    && Lists(order, t.senders.Keys)
    && t' == RestartEach(t, order).0
    && end == Some(if RestartEach(t, order).1.Ok? || faultSent then RunRestarted else RunFailed)
  }

  /** A Stop action: without children the loop ends; with children it goes on,
      unless stopping them failed and the fault could not be emitted. */
  ghost predicate StopsInOrder(path: ActorPath, t: Tables, order: seq<ActorPath>, faultSent: bool,
                               t': Tables, end: Option<RunEnd>)
  {
    && Lists(order, Children(t.registry, path))
    && t' == StopEach(t, order).0
    && end == (if StopEach(t, order).1.Err? then (if faultSent then None else Some(RunFailed))
               else if order == [] then Some(RunStopped) else None)
  }

  /** The tables before and after each turn; only the last may end the loop. */
  ghost predicate Follows(path: ActorPath, states: seq<Tables>, inputs: seq<Input>, end: Option<RunEnd>) {
    && |states| == |inputs| + 1
    && (inputs == [] ==> end == None)
    && forall i | 0 <= i < |inputs| ::
         Turns(path, states[i], inputs[i], states[i + 1], if i == |inputs| - 1 then end else None)
  }

  /** A number that is not used. */
  method Unused(used: set<nat>) returns (id: nat)
    ensures id !in used
  {
    id := 0;
    var rest := used;
    while rest != {}
      invariant forall n | n in used :: n in rest || n < id
      decreases rest
    {
      var n :| n in rest;
      id := if n < id then id else n + 1;
      rest := rest - {n};
    }
  }

  class ActorLoop {
    const path: ActorPath
    const handler: SupervicionHandler

    constructor (path: ActorPath, handler: SupervicionHandler)
      ensures this.path == path && this.handler == handler
    {
      this.path := path;
      this.handler := handler;
    }

    /** Runs until a turn ends the loop. When nothing can be picked any more, as
        after the last of `inputs`, the actor has failed. */
    method Run(inputs: seq<Input>) returns (end: RunEnd, used: nat, ghost states: seq<Tables>)
      requires OwnChannels(handler.View())
      modifies handler, handler.registry, handler.channels
      ensures used <= |inputs| && |states| == used + 1
      ensures states[0] == old(handler.View()) && states[used] == handler.View()
      ensures || Follows(path, states, inputs[..used], Some(end))
              || (used == |inputs| && end == RunFailed && Follows(path, states, inputs, None))
    {
      used := 0;
      states := [handler.View()];
      while used < |inputs|
        invariant used <= |inputs| && OwnChannels(handler.View())
        invariant Follows(path, states, inputs[..used], None)
        invariant states[0] == old(handler.View()) && states[used] == handler.View()
      {
        var ended := Turn(inputs[used]);
        Followed(path, states, inputs[..used], inputs[used], handler.View(), ended);
        assert inputs[..used + 1] == inputs[..used] + [inputs[used]];
        states := states + [handler.View()];
        used := used + 1;
        if ended.Some? {
          return ended.value, used, states;
        }
      }
      assert inputs[..used] == inputs;
      end := RunFailed;
    }

    /** The calls of one handler, in turn. */
    method Handle(calls: seq<Call>)
      requires OwnChannels(handler.View())
      modifies handler, handler.registry, handler.channels
      ensures OwnChannels(handler.View())
      ensures Handles(path, old(handler.View()), calls, handler.View())
    {
      for i := 0 to |calls|
        invariant OwnChannels(handler.View())
        invariant Handles(path, old(handler.View()), calls[..i], handler.View())
      {
        ghost var t := handler.View();
        Serve(calls[i]);
        Handled(path, old(handler.View()), calls, i, t, handler.View());
      }
      assert calls[..|calls|] == calls;
    }

    /** One call of a handler. */
    method Serve(call: Call)
      requires OwnChannels(handler.View())
      modifies handler, handler.registry, handler.channels
      ensures OwnChannels(handler.View())
      ensures Calls(path, old(handler.View()), call, handler.View())
    {
      ghost var t := handler.View();
      match call {
        case CreateChild(name, started) =>
          if path.Level() < MAX_ACTOR_DEPTH {
            var id := Unused(handler.channels.queues.Keys + handler.actionSenders.Values);
            var r := handler.CreateActor(path.Div(name), started, id);
            assert NewChannel(t, id);
          }
        case StopChild(name) =>
          var r := handler.StopChild(path.Div(name));
        case RemoveChild(name) =>
          handler.RemoveChild(path.Div(name));
        case StopChildren =>
          var r, order := handler.StopChildren(path);
          StopEachTables(t, order);
        case RestartChildren =>
          var r, order := handler.RestartChildren();
          T.RestartEachKeeps(t, order);
      }
    }

    /** One branch of the `select!`. */
    method Turn(input: Input) returns (end: Option<RunEnd>)
      requires OwnChannels(handler.View())
      modifies handler, handler.registry, handler.channels
      ensures OwnChannels(handler.View())
      ensures Turns(path, old(handler.View()), input, handler.View(), end)
    {
      end := None;
      match input {
        case Message(calls) =>
          Handle(calls);
        case ChildFailed(calls) =>
          Handle(calls);
        case Others(registry, gone) =>
          handler.registry.actors := registry;
          handler.channels.queues := handler.channels.queues - gone;
        case ChildStopped(child) =>
          handler.RemoveChild(path.Div(child.Key()));
          var childs := handler.GetChilds(path);
          ListedNone(childs, Children(handler.registry.actors, path));
          if childs == [] {
            end := Some(RunStopped);
          }
        case StopAction(preStop, faultSent) =>
          if !preStop {
            return Some(RunFailed);
          }
          ghost var t := handler.View();
          var r, order := handler.StopChildren(path);
          StopEachTables(t, order);
          match r {
            case Ok(hadChilds) =>
              if !hadChilds {
                end := Some(RunStopped);
              }
            case Err(_) =>
              if !faultSent {
                end := Some(RunFailed);
              }
          }
          assert StopsInOrder(path, t, order, faultSent, handler.View(), end);
        case RestartAction(faultSent) =>
          ghost var t := handler.View();
          var r, order := handler.RestartChildren();
          RestartEachExact(t, order);
          end := if r.Ok? || faultSent then Some(RunRestarted) else Some(RunFailed);
          assert RestartsInOrder(t, order, faultSent, handler.View(), end);
      }
    }
  }

  lemma Handled(path: ActorPath, t: Tables, calls: seq<Call>, n: nat, t1: Tables, t': Tables)
    requires n < |calls| && Handles(path, t, calls[..n], t1) && Calls(path, t1, calls[n], t')
    ensures Handles(path, t, calls[..n + 1], t')
  {
    hide Calls;
    assert calls[..n + 1][..n] == calls[..n];
  }

  lemma Followed(path: ActorPath, states: seq<Tables>, inputs: seq<Input>, input: Input, t: Tables, end: Option<RunEnd>)
    requires Follows(path, states, inputs, None) && Turns(path, states[|inputs|], input, t, end)
    ensures Follows(path, states + [t], inputs + [input], end)
  {
    hide Turns;
  }

  lemma ListedNone(order: seq<ActorPath>, s: set<ActorPath>)
    requires Lists(order, s)
    ensures order == [] <==> s == {}
  {
    if order != [] {
      assert order[0] in s;
    }
    forall p ensures p in order <==> p in s {
    }
  }

  // ---------- how the loop ends ----------

  /** A turn ends the loop as stopped exactly when it handles a Stopped signal
      that leaves no direct child registered, or a Stop action with none
      registered; in both cases none is registered afterwards. */
  lemma StoppedExact(path: ActorPath, t: Tables, input: Input, t': Tables, end: Option<RunEnd>)
    requires Turns(path, t, input, t', end)
    ensures end == Some(RunStopped) <==>
            || (input.ChildStopped? && Children(t'.registry, path) == {})
            || (input.StopAction? && input.preStop && Children(t.registry, path) == {})
    ensures end == Some(RunStopped) ==> Children(t'.registry, path) == {}
  {
    if input.StopAction? && input.preStop {
      var order :| StopsInOrder(path, t, order, input.faultSent, t', end);
      ListedNone(order, Children(t.registry, path));
    }
  }

  /** A turn ends the loop as restarted exactly when it handles a Restart action
      whose fault, if there is one, reaches the supervisor: every channel is live,
      or the fault is emitted. */
  lemma RestartedExact(path: ActorPath, t: Tables, input: Input, t': Tables, end: Option<RunEnd>)
    requires Turns(path, t, input, t', end)
    ensures end == Some(RunRestarted) <==>
            input.RestartAction? && (input.faultSent || forall p | p in t.senders :: Stoppable(t, p))
  {
    hide Stoppable;
    if input.RestartAction? {
      var order :| RestartsInOrder(t, order, input.faultSent, t', end);
      RestartEachSucceeds(t, order);
    } else if input.StopAction? && input.preStop {
      var order :| StopsInOrder(path, t, order, input.faultSent, t', end);
    }
  }

  /** A turn ends the loop as failed exactly when it handles a Stop action whose
      `pre_stop` fails, or a Stop or Restart action that meets a child that cannot
      be reached and whose fault cannot be emitted either. */
  lemma FailedExact(path: ActorPath, t: Tables, input: Input, t': Tables, end: Option<RunEnd>)
    requires Turns(path, t, input, t', end)
    ensures end == Some(RunFailed) <==>
            || (input.StopAction? && !input.preStop)
            || (input.StopAction? && !input.faultSent
                && exists p :: p in Children(t.registry, path) && !Stoppable(t, p))
            || (input.RestartAction? && !input.faultSent && exists p :: p in t.senders && !Stoppable(t, p))
  {
    hide Stoppable, Children;
    if input.RestartAction? {
      var order :| RestartsInOrder(t, order, input.faultSent, t', end);
      RestartEachSucceeds(t, order);
    } else if input.StopAction? && input.preStop {
      var order :| StopsInOrder(path, t, order, input.faultSent, t', end);
      StopEachSucceeds(t, order);
    }
  }

  /** What the children are sent. A Stop action that reaches all direct children
      deregisters exactly those and puts one Stop in the queue of each; a Restart
      action that reaches all channels puts one Restart in the queue of each. No
      other queue changes. */
  lemma ActionReachesAll(path: ActorPath, t: Tables, input: Input, t': Tables, end: Option<RunEnd>)
    requires Turns(path, t, input, t', end) && OwnChannels(t)
    ensures input.StopAction? && input.preStop && (forall p | p in Children(t.registry, path) :: Stoppable(t, p)) ==>
              && t'.registry == t.registry - Children(t.registry, path)
              && t'.senders == t.senders - Children(t.registry, path)
              && Sent(t, t', Children(t.registry, path), ChildAction.Stop)
    ensures input.RestartAction? && (forall p | p in t.senders :: Stoppable(t, p)) ==>
              && t'.registry == t.registry && t'.senders == t.senders
              && Sent(t, t', t.senders.Keys, ChildAction.Restart)
  {
    hide Sent, Children, Stoppable;
    if input.StopAction? && input.preStop && forall p | p in Children(t.registry, path) :: Stoppable(t, p) {
      var order :| StopsInOrder(path, t, order, input.faultSent, t', end);
      StopReachesAll(t, order);
      assert (set p | p in order) == Children(t.registry, path);
    } else if input.RestartAction? && forall p | p in t.senders :: Stoppable(t, p) {
      var order :| RestartsInOrder(t, order, input.faultSent, t', end);
      RestartReachesAll(t, order);
      assert (set p | p in order) == t.senders.Keys;
    }
  }

  /** A handler's new child: refused at level 100 or where an actor is registered;
      a child that does not start leaves its path free; one that does is registered
      and reachable here, over a new channel with an empty queue. */
  lemma ChildCreated(path: ActorPath, t: Tables, name: string, started: bool, t': Tables)
    requires Calls(path, t, CreateChild(name, started), t')
    ensures path.Level() >= 100 || path.Div(name) in t.registry ==> t' == t
    ensures var child := path.Div(name);
            path.Level() < 100 && child !in t.registry ==>
              && t'.registry - {child} == t.registry && t'.senders - {child} == t.senders - {child}
              && (child in t'.registry <==> started) && (Stoppable(t', child) <==> started)
              && (child in t'.senders <==> started)
              && (forall id | id in t.queues :: id in t'.queues && t'.queues[id] == t.queues[id])
              && (started ==>
                    && t'.registry[child] == t'.senders[child] && t'.senders[child] !in t.queues
                    && t'.queues[t'.senders[child]] == [])
  {
    hide ActorPath.Div, ActorPath.Level;
  }

  /** Stopping a child by name deregisters it and sends it a Stop if its channel is
      live; removing one sends nothing. */
  lemma ChildCalled(path: ActorPath, t: Tables, call: Call, t': Tables)
    requires Calls(path, t, call, t') && OwnChannels(t) && (call.StopChild? || call.RemoveChild?)
    ensures var child := path.Div(call.name);
            && t'.registry == t.registry - {child} && t'.senders == t.senders - {child}
            && if call.StopChild? then Sent(t, t', {child}, ChildAction.Stop) else t'.queues == t.queues
  {
    hide ActorPath.Div;
    OneStopped(t, path.Div(call.name));
    hide Sent, StopOne;
  }

  /** Stopping or restarting all children, when all can be reached, sends each
      exactly one action. */
  lemma ChildrenCalled(path: ActorPath, t: Tables, call: Call, t': Tables)
    requires Calls(path, t, call, t') && OwnChannels(t)
    ensures call.StopChildren? && (forall p | p in Children(t.registry, path) :: Stoppable(t, p)) ==>
              && t'.registry == t.registry - Children(t.registry, path)
              && t'.senders == t.senders - Children(t.registry, path)
              && Sent(t, t', Children(t.registry, path), ChildAction.Stop)
    ensures call.RestartChildren? && (forall p | p in t.senders :: Stoppable(t, p)) ==>
              && t'.registry == t.registry && t'.senders == t.senders
              && Sent(t, t', t.senders.Keys, ChildAction.Restart)
  {
    hide Sent, Children, Stoppable, StopEach, RestartEach, OwnChannels;
    if call.StopChildren? && forall p | p in Children(t.registry, path) :: Stoppable(t, p) {
      var order :| Lists(order, Children(t.registry, path)) && t' == StopEach(t, order).0;
      StopReachesAll(t, order);
      assert (set p | p in order) == Children(t.registry, path);
    } else if call.RestartChildren? && forall p | p in t.senders :: Stoppable(t, p) {
      var order :| Lists(order, t.senders.Keys) && t' == RestartEach(t, order).0;
      RestartReachesAll(t, order);
      assert (set p | p in order) == t.senders.Keys;
    }
  }

  lemma OneStopped(t: Tables, child: ActorPath)
    requires OwnChannels(t)
    ensures var t' := StopOne(t, child).0;
            && t'.registry == t.registry - {child} && t'.senders == t.senders - {child}
            && Sent(t, t', {child}, ChildAction.Stop)
  {
  }

  /** The tables before and after each call of a handler. */
  ghost predicate CallsInTurn(path: ActorPath, states: seq<Tables>, calls: seq<Call>) {
    && |states| == |calls| + 1
    && forall i | 0 <= i < |calls| :: Calls(path, states[i], calls[i], states[i + 1])
  }

  /** A message, and a failed child, make every call of their handler, in turn, and
      never end the loop. */
  lemma HandlerCalls(path: ActorPath, t: Tables, input: Input, t': Tables, end: Option<RunEnd>)
    requires input.Message? || input.ChildFailed?
    ensures Turns(path, t, input, t', end) <==>
            && end == None
            && exists states :: CallsInTurn(path, states, input.calls) && states[0] == t && states[|input.calls|] == t'
  {
    hide Calls, Handles;
    if Handles(path, t, input.calls, t') {
      var states := HandledInTurn(path, t, input.calls, t');
    }
    if states :| CallsInTurn(path, states, input.calls) && states[0] == t && states[|input.calls|] == t' {
      InTurnHandled(path, states, input.calls);
    }
  }

  lemma {:induction false} InTurnHandled(path: ActorPath, states: seq<Tables>, calls: seq<Call>)
    requires CallsInTurn(path, states, calls)
    ensures Handles(path, states[0], calls, states[|calls|])
    decreases |calls|
  {
    hide Calls;
    if calls != [] {
      var n := |calls| - 1;
      InTurnHandled(path, states[..n + 1], calls[..n]);
      assert Handles(path, states[0], calls[..n], states[n]) && Calls(path, states[n], calls[n], states[n + 1]);
    }
  }

  lemma {:induction false} HandledInTurn(path: ActorPath, t: Tables, calls: seq<Call>, t': Tables)
    returns (states: seq<Tables>)
    requires Handles(path, t, calls, t')
    ensures CallsInTurn(path, states, calls) && states[0] == t && states[|calls|] == t'
    decreases |calls|
  {
    hide Calls;
    if calls == [] {
      states := [t];
    } else {
      var n := |calls| - 1;
      var t1 :| Handles(path, t, calls[..n], t1) && Calls(path, t1, calls[n], t');
      var before := HandledInTurn(path, t, calls[..n], t1);
      states := before + [t'];
      forall i | 0 <= i < |calls| ensures Calls(path, states[i], calls[i], states[i + 1]) {
        assert i < n ==> Calls(path, before[i], calls[..n][i], before[i + 1]);
      }
    }
  }

  /** A Stopped signal takes the path of its key from the registry and from the
      actor's channels and sends nothing; what other actors do is all that changes
      the tables else. */
  lemma SignalHandled(path: ActorPath, t: Tables, input: Input, t': Tables, end: Option<RunEnd>)
    requires Turns(path, t, input, t', end)
    ensures input.ChildStopped? ==>
              var child := path.Div(input.child.Key());
              t'.registry == t.registry - {child} && t'.senders == t.senders - {child} && t'.queues == t.queues
    ensures input.Others? ==>
              && t'.registry == input.registry && t'.senders == t.senders && end == None
              && t'.queues == t.queues - input.gone
    ensures input.StopAction? && !input.preStop ==> t' == t
  {
    hide ActorPath.Div, Handles;
  }

  /** After a Stop action that reached all children, the next Stopped signal ends
      the loop, whoever sent it, as long as no child is registered anew: the
      actor waits for one child, not for all. */
  lemma NextSignalEnds(path: ActorPath, states: seq<Tables>, inputs: seq<Input>, end: Option<RunEnd>)
    requires Follows(path, states, inputs, end) && |inputs| >= 2
    requires inputs[0].StopAction? && inputs[0].preStop && OwnChannels(states[0])
    requires forall p | p in Children(states[0].registry, path) :: Stoppable(states[0], p)
    requires forall i | 0 < i < |inputs| - 1 :: RegistersNone(path, inputs[i])
    requires inputs[|inputs| - 1].ChildStopped?
    ensures end == Some(RunStopped)
  {
    hide Stoppable;
    var order :| StopsInOrder(path, states[0], order, inputs[0].faultSent, states[1], None);
    NoChildLeft(states[0], path, order);
    var n := |inputs| - 1;
    NoneReturns(path, states, inputs, end, n);
    var t, t' := states[n], states[n + 1];
    assert Turns(path, t, inputs[n], t', end);
    forall p ensures p !in Children(t'.registry, path) {
      assert p !in Children(t.registry, path);
    }
  }

  /** The input registers no direct child of the path. */
  ghost predicate RegistersNone(path: ActorPath, input: Input) {
    match input
    case Message(calls) => forall c | c in calls :: !c.CreateChild?
    case ChildFailed(calls) => forall c | c in calls :: !c.CreateChild?
    case Others(registry, _) => Children(registry, path) == {}
    case _ => false
  }

  lemma CallsNone(path: ActorPath, t: Tables, call: Call, t': Tables)
    requires Calls(path, t, call, t') && !call.CreateChild? && Children(t.registry, path) == {}
    ensures Children(t'.registry, path) == {}
  {
    match call {
      case StopChildren =>
        var order :| Lists(order, Children(t.registry, path)) && t' == StopEach(t, order).0;
        StopEachTables(t, order);
      case RestartChildren =>
        var order :| Lists(order, t.senders.Keys) && t' == RestartEach(t, order).0;
        T.RestartEachKeeps(t, order);
      case _ =>
    }
    hide ActorPath.Parent, StopEach, RestartEach, ActorPath.Div;
    forall p ensures p !in Children(t'.registry, path) {
      assert p !in Children(t.registry, path);
    }
  }

  lemma {:induction false} HandlesNone(path: ActorPath, t: Tables, calls: seq<Call>, t': Tables)
    requires Handles(path, t, calls, t') && (forall c | c in calls :: !c.CreateChild?)
    requires Children(t.registry, path) == {}
    ensures Children(t'.registry, path) == {}
    decreases |calls|
  {
    hide Calls, Children;
    if calls != [] {
      var n := |calls| - 1;
      var t1 :| Handles(path, t, calls[..n], t1) && Calls(path, t1, calls[n], t');
      assert forall c | c in calls[..n] :: c in calls;
      assert calls[n] in calls;
      HandlesNone(path, t, calls[..n], t1);
      CallsNone(path, t1, calls[n], t');
    }
  }

  lemma {:induction false} NoneReturns(path: ActorPath, states: seq<Tables>, inputs: seq<Input>,
                                       end: Option<RunEnd>, n: nat)
    requires Follows(path, states, inputs, end) && 1 <= n < |inputs|
    requires Children(states[1].registry, path) == {}
    requires forall i | 0 < i < n :: RegistersNone(path, inputs[i])
    ensures Children(states[n].registry, path) == {}
  {
    hide Children, Handles;
    if n > 1 {
      NoneReturns(path, states, inputs, end, n - 1);
      assert Turns(path, states[n - 1], inputs[n - 1], states[n], None);
      assert RegistersNone(path, inputs[n - 1]);
      match inputs[n - 1] {
        case Message(calls) => HandlesNone(path, states[n - 1], calls, states[n]);
        case ChildFailed(calls) => HandlesNone(path, states[n - 1], calls, states[n]);
        case Others(_, _) =>
      }
    }
  }
}
