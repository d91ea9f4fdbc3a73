/** The lifecycle loop of one actor: start-up with retries, runs, stop. */
module Runners {
  import opened Wrappers
  import opened Strategies

  datatype ActorLifecycle = Created | Started | Restarted | Failed | Stopped | Terminated

  /** How `run` ends. */
  datatype RunEnd = RunStopped | RunRestarted | RunFailed

  datatype SupervisionStrategy = Stop | Retry(strategy: Strategy)

  /** What the environment decides in one turn of the loop: whether the hook
      that is called succeeds, and how `run` ends if it is entered. */
  datatype Turn = Turn(hookOk: bool, runEnd: RunEnd)

  /** What the loop does, in order. */
  datatype Action =
    | PreStart(ok: bool)
    | Reply(ok: bool)
    | Ran(end: RunEnd)
    | Attempt(wait: Option<Duration>, ok: bool)
    | EmitStopped
    | PostStop

  /** The loop's variables; `unanswered` says that the creator still waits. */
  datatype State = State(lifecycle: ActorLifecycle, retries: nat, unanswered: bool)

  function AfterRun(end: RunEnd): ActorLifecycle {
    match end
    case RunStopped => Stopped
    case RunRestarted => Restarted
    case RunFailed => Failed
  }

  /** The effect of one turn. */
  function NextState(p: SupervisionStrategy, s: State, t: Turn): State {
    match s.lifecycle
    case Created => s.(lifecycle := if t.hookOk then Started else Restarted)
    case Started => s.(lifecycle := AfterRun(t.runEnd), unanswered := false)
    case Restarted =>
      if p.Stop? || s.retries >= p.strategy.maxRetries then s.(lifecycle := Failed, unanswered := false)
      else if t.hookOk then s.(lifecycle := Started, retries := 0)
      else s.(retries := s.retries + 1)
    case Failed => s.(lifecycle := Stopped)
    case Stopped => s.(lifecycle := Terminated)
    case Terminated => s
  }

  /** The actions of one turn. */
  function Actions(p: SupervisionStrategy, s: State, t: Turn): seq<Action> {
    match s.lifecycle
    case Created => [PreStart(t.hookOk)]
    case Started => (if s.unanswered then [Reply(true)] else []) + [Ran(t.runEnd)]
    case Restarted =>
      if p.Stop? || s.retries >= p.strategy.maxRetries then (if s.unanswered then [Reply(false)] else [])
      else [Attempt(p.strategy.Backoff(), t.hookOk)]
    case Failed => []
    case Stopped => [EmitStopped, PostStop]
    case Terminated => []
  }

  function StateAfter(p: SupervisionStrategy, turns: seq<Turn>): State {
    if turns == [] then State(Created, 0, true)
    else NextState(p, StateAfter(p, turns[..|turns| - 1]), turns[|turns| - 1])
  }

  function Trace(p: SupervisionStrategy, turns: seq<Turn>): seq<Action> {
    if turns == [] then []
    else
      var before := turns[..|turns| - 1];
      Trace(p, before) + Actions(p, StateAfter(p, before), turns[|turns| - 1])
  }

  lemma OneMoreTurn(p: SupervisionStrategy, turns: seq<Turn>, k: nat)
    requires k < |turns|
    ensures StateAfter(p, turns[..k + 1]) == NextState(p, StateAfter(p, turns[..k]), turns[k])
    ensures Trace(p, turns[..k + 1]) == Trace(p, turns[..k]) + Actions(p, StateAfter(p, turns[..k]), turns[k])
  {
    assert turns[..k + 1][..k] == turns[..k];
  }

  /** A turn of an actor to be restarted: the strategy alone decides, and a failure
      answers a creator that still waits. */
  lemma RestartedTurn(p: SupervisionStrategy, retries: nat, unanswered: bool, t: Turn)
    ensures var s, s0 := State(Restarted, retries, unanswered), State(Restarted, retries, false);
            var failed := NextState(p, s0, t).lifecycle == Failed;
            && NextState(p, s, t) == NextState(p, s0, t).(unanswered := unanswered && !failed)
            && Actions(p, s, t) == if failed && unanswered then [Reply(false)] else Actions(p, s0, t)
    ensures !NextState(p, State(Restarted, retries, false), t).unanswered
  {
  }

  // ---------- the object ----------

  class ActorRunner {
    const supervision: SupervisionStrategy
    var lifecycle: ActorLifecycle
    ghost var trace: seq<Action>

    constructor (supervision: SupervisionStrategy)
      ensures this.supervision == supervision && lifecycle == Created && trace == []
    {
      this.supervision := supervision;
      lifecycle := Created;
      trace := [];
    }

    /** The loop, for a given sequence of turns; it ends when the actor is
        terminated or the turns are used up. */
    method Init(turns: seq<Turn>) returns (used: nat, retries: nat, unanswered: bool)
      requires lifecycle == Created && trace == []
      modifies this
      ensures used <= |turns| && (used < |turns| ==> lifecycle == Terminated)
      ensures State(lifecycle, retries, unanswered) == StateAfter(supervision, turns[..used])
      ensures trace == Trace(supervision, turns[..used])
    {
      used, retries, unanswered := 0, 0, true;
      assert turns[..0] == [];
      hide StateAfter, Trace, NextState, Actions;
      while used < |turns| && lifecycle != Terminated
        invariant used <= |turns|
        invariant State(lifecycle, retries, unanswered) == StateAfter(supervision, turns[..used])
        invariant trace == Trace(supervision, turns[..used])
        decreases |turns| - used
      {
        OneMoreTurn(supervision, turns, used);
        ghost var actions: seq<Action>;
        retries, unanswered, actions := TakeTurn(turns[used], retries, unanswered);
        trace := trace + actions;
        used := used + 1;
      }
    }

    /** One pass of the loop. */
    method TakeTurn(turn: Turn, retries: nat, unanswered: bool)
      returns (retries': nat, unanswered': bool, ghost actions: seq<Action>)
      requires lifecycle != Terminated
      modifies `lifecycle
      ensures var s := State(old(lifecycle), retries, unanswered);
              && State(lifecycle, retries', unanswered') == NextState(supervision, s, turn)
              && actions == Actions(supervision, s, turn)
    {
      retries', unanswered', actions := retries, unanswered, [];
      ghost var s := State(lifecycle, retries, unanswered);
      match lifecycle {
        case Created =>
          actions := [PreStart(turn.hookOk)];
          lifecycle := if turn.hookOk then Started else Restarted;
        case Started =>
          if unanswered {
            actions := [Reply(true)];
            unanswered' := false;
          }
          actions := actions + [Ran(turn.runEnd)];
          lifecycle := AfterRun(turn.runEnd);
        case Restarted =>
          RestartedTurn(supervision, retries, unanswered, turn);
          hide NextState, Actions;
          retries', actions := ApplySupervisionStrategy(turn, retries);
          if lifecycle == Failed && unanswered {
            actions := [Reply(false)];
            unanswered' := false;
          }
        case Failed =>
          lifecycle := Stopped;
        case Stopped =>
          actions := [EmitStopped, PostStop];
          lifecycle := Terminated;
      }
    }

    /** One restart attempt, or giving up. The strategy is made anew each time. */
    method ApplySupervisionStrategy(turn: Turn, retries: nat) returns (retries': nat, ghost actions: seq<Action>)
      requires lifecycle == Restarted
      modifies `lifecycle
      ensures var s := State(Restarted, retries, false);
              var s' := NextState(supervision, s, turn);
              && lifecycle == s'.lifecycle && retries' == s'.retries
              && actions == Actions(supervision, s, turn)
    {
      retries', actions := retries, [];
      match supervision
      case Stop =>
        lifecycle := Failed;
      case Retry(strategy) =>
        var cell := new StrategyCell(strategy);
        if retries' < cell.strategy.maxRetries {
          var wait := cell.NextBackoff();
          retries' := retries' + 1;
          actions := [Attempt(wait, turn.hookOk)];
          if turn.hookOk {
            lifecycle := Started;
            retries' := 0;
          }
        } else {
          lifecycle := Failed;
        }
    }
  }

  // ---------- the order of what the loop does ----------

  /** The action is a start-up hook that succeeded, or one that failed. */
  predicate Starts(a: Action, ok: bool) {
    (a.PreStart? || a.Attempt?) && a.ok == ok
  }

  /** Which action may come right after another. */
  predicate MayFollow(before: Action, a: Action) {
    match a
    case PreStart(_) => false
    case Reply(ok) => Starts(before, ok)
    case Ran(_) => before == Reply(true) || (before.Attempt? && before.ok)
    case Attempt(_, _) => Starts(before, false) || before == Ran(RunRestarted)
    case EmitStopped => before == Reply(false) || before.Ran? || (before.Attempt? && !before.ok)
    case PostStop => before == EmitStopped
  }

  ghost predicate InOrder(trace: seq<Action>) {
    && (trace != [] ==> trace[0].PreStart?)
    && forall i | 0 < i < |trace| :: MayFollow(trace[i - 1], trace[i])
  }

  /** What the last action says about the state between turns. */
  predicate Fits(s: State, trace: seq<Action>) {
    if trace == [] then s.lifecycle.Created? && s.unanswered
    else
      var last := trace[|trace| - 1];
      && (last.PreStart? ==> s.unanswered)
      && (last.Ran? ==> !s.unanswered)
      && match s.lifecycle
         case Created => false
         case Started => Starts(last, true)
         case Restarted => Starts(last, false) || last == Ran(RunRestarted)
         case Failed => last == Reply(false) || last.Ran? || (last.Attempt? && !last.ok)
         case Stopped => last == Reply(false) || last.Ran? || (last.Attempt? && !last.ok)
         case Terminated => last.PostStop?
  }

  lemma InOrderOne(trace: seq<Action>, a: Action)
    requires InOrder(trace) && if trace == [] then a.PreStart? else MayFollow(trace[|trace| - 1], a)
    ensures InOrder(trace + [a])
  {
  }

  lemma OrderStep(p: SupervisionStrategy, s: State, trace: seq<Action>, t: Turn)
    requires InOrder(trace) && Fits(s, trace)
    ensures InOrder(trace + Actions(p, s, t)) && Fits(NextState(p, s, t), trace + Actions(p, s, t))
  {
    hide InOrder;
    var more := Actions(p, s, t);
    if more == [] {
      assert trace + more == trace;
    } else {
      InOrderOne(trace, more[0]);
      if |more| == 1 {
        assert more == [more[0]];
      } else {
        InOrderOne(trace + [more[0]], more[1]);
        assert trace + more == (trace + [more[0]]) + [more[1]];
      }
    }
  }

  lemma {:induction false} OrderRun(p: SupervisionStrategy, turns: seq<Turn>)
    ensures InOrder(Trace(p, turns)) && Fits(StateAfter(p, turns), Trace(p, turns))
  {
    hide InOrder, Fits, NextState, Actions;
    if turns == [] {
      EmptyInOrder();
    } else {
      var before := turns[..|turns| - 1];
      OrderRun(p, before);
      OrderStep(p, StateAfter(p, before), Trace(p, before), turns[|turns| - 1]);
    }
  }

  lemma EmptyInOrder()
    ensures InOrder([]) && Fits(State(Created, 0, true), [])
  {
  }

  /** The order of everything the loop does. A life begins with `pre_start`, which
      is not called again; the creator is told whether the last hook succeeded;
      `run` is entered after that or after a successful restart; a restart is
      attempted after a failed hook or a run that ended restarted; only a failed
      hook or the end of a run lets the actor stop. */
  lemma TraceOrder(p: SupervisionStrategy, turns: seq<Turn>, i: nat)
    requires i < |Trace(p, turns)|
    ensures var trace := Trace(p, turns);
            if i == 0 then trace[0].PreStart?
            else
              var before := trace[i - 1];
              match trace[i]
              case PreStart(_) => false
              case Reply(ok) => (before.PreStart? || before.Attempt?) && before.ok == ok
              case Ran(_) => before == Reply(true) || (before.Attempt? && before.ok)
              case Attempt(_, _) =>
                ((before.PreStart? || before.Attempt?) && !before.ok) || before == Ran(RunRestarted)
              case EmitStopped => before == Reply(false) || before.Ran? || (before.Attempt? && !before.ok)
              case PostStop => before == EmitStopped
  {
    OrderRun(p, turns);
  }

  /** `run` is never entered unless the last hook called, at the first start or in
      a restart, succeeded. */
  lemma RunsAfterSuccess(p: SupervisionStrategy, turns: seq<Turn>, i: nat)
    requires i < |Trace(p, turns)| && Trace(p, turns)[i].Ran?
    ensures var trace := Trace(p, turns);
            exists j | 0 <= j < i ::
              && (trace[j].PreStart? || trace[j].Attempt?) && trace[j].ok
              && forall k | j < k < i :: trace[k] == Reply(true)
  {
    var trace := Trace(p, turns);
    hide Trace;
    TraceOrder(p, turns, i);
    var j := i - 1;
    if trace[j] == Reply(true) {
      TraceOrder(p, turns, j);
      j := i - 2;
    }
    assert (trace[j].PreStart? || trace[j].Attempt?) && trace[j].ok;
  }

  /** A hook that succeeded leads to `run`: until it is entered, no restart is
      attempted, the creator is told no error and the actor does not stop. */
  lemma {:induction false} SuccessLeadsToRun(p: SupervisionStrategy, turns: seq<Turn>, i: nat, k: nat)
    requires var trace := Trace(p, turns);
             && i < k < |trace| && (trace[i].PreStart? || trace[i].Attempt?) && trace[i].ok
             && forall j | i < j < k :: !trace[j].Ran?
    ensures var trace := Trace(p, turns);
            !trace[k].Attempt? && trace[k] != Reply(false) && trace[k] != EmitStopped && trace[k] != PostStop
  {
    var trace := Trace(p, turns);
    hide Trace;
    TraceOrder(p, turns, k);
    if k > i + 1 {
      SuccessLeadsToRun(p, turns, i, k - 1);
      TraceOrder(p, turns, k - 1);
    }
  }

  /** Each turn reports what the environment decided in it: the hook's outcome,
      and how `run` ended. */
  lemma TurnReported(p: SupervisionStrategy, turns: seq<Turn>, k: nat)
    requires k < |turns|
    ensures var before, after := Trace(p, turns[..k]), Trace(p, turns[..k + 1]);
            && before <= after
            && forall i | |before| <= i < |after| ::
                 match after[i]
                 case PreStart(ok) => ok == turns[k].hookOk
                 case Attempt(_, ok) => ok == turns[k].hookOk
                 case Ran(end) => end == turns[k].runEnd
                 case _ => true
  {
    OneMoreTurn(p, turns, k);
    hide Trace, StateAfter, NextState;
    var before, more := Trace(p, turns[..k]), Actions(p, StateAfter(p, turns[..k]), turns[k]);
    forall i | |before| <= i < |before + more| ensures (before + more)[i] == more[i - |before|] {
    }
  }

  // ---------- restarts ----------

  function MaxRetries(p: SupervisionStrategy): nat {
    if p.Stop? then 0 else p.strategy.maxRetries
  }

  /** Restart attempts since `run` last ended, or since creation. */
  function AttemptsSince(trace: seq<Action>): nat {
    if trace == [] then 0
    else
      match trace[|trace| - 1]
      case Ran(_) => 0
      case Attempt(_, _) => AttemptsSince(trace[..|trace| - 1]) + 1
      case _ => AttemptsSince(trace[..|trace| - 1])
  }

  /** How `run` last ended, if it was ever entered. */
  function LastRun(trace: seq<Action>): Option<RunEnd> {
    if trace == [] then None
    else if trace[|trace| - 1].Ran? then Some(trace[|trace| - 1].end)
    else LastRun(trace[..|trace| - 1])
  }

  lemma {:induction false} AppendedActions(trace: seq<Action>, more: seq<Action>)
    requires forall a | a in more :: !a.Ran? && !a.Attempt?
    ensures AttemptsSince(trace + more) == AttemptsSince(trace) && LastRun(trace + more) == LastRun(trace)
  {
    if more == [] {
      assert trace + more == trace;
    } else {
      AppendedActions(trace, more[..|more| - 1]);
      assert (trace + more)[..|trace + more| - 1] == trace + more[..|more| - 1];
    }
  }

  lemma AppendedOne(trace: seq<Action>, a: Action)
    ensures AttemptsSince(trace + [a])
         == if a.Ran? then 0 else if a.Attempt? then AttemptsSince(trace) + 1 else AttemptsSince(trace)
    ensures LastRun(trace + [a]) == if a.Ran? then Some(a.end) else LastRun(trace)
  {
    assert (trace + [a])[..|trace|] == trace;
  }

  /** What the trace says about the state between turns. */
  ghost predicate Accounted(p: SupervisionStrategy, s: State, trace: seq<Action>) {
    && (s.unanswered ==> LastRun(trace).None?)
    && s.retries <= MaxRetries(p)
    && match s.lifecycle
       case Created => s.retries == 0 && AttemptsSince(trace) == 0 && LastRun(trace).None?
       case Started => s.retries == 0 && AttemptsSince(trace) <= MaxRetries(p)
       case Restarted =>
         s.retries == AttemptsSince(trace) && (LastRun(trace).None? || LastRun(trace) == Some(RunRestarted))
       case _ => AttemptsSince(trace) ==
                 if LastRun(trace).None? || LastRun(trace) == Some(RunRestarted) then MaxRetries(p) else 0
  }

  lemma AccountedStep(p: SupervisionStrategy, s: State, trace: seq<Action>, t: Turn)
    requires Accounted(p, s, trace)
    ensures Accounted(p, NextState(p, s, t), trace + Actions(p, s, t))
  {
    var more := Actions(p, s, t);
    match s.lifecycle {
      case Started =>
        var replied := trace + (if s.unanswered then [Reply(true)] else []);
        assert trace + more == replied + [Ran(t.runEnd)];
        AppendedOne(replied, Ran(t.runEnd));
      case Restarted =>
        if p.Stop? || s.retries >= p.strategy.maxRetries {
          AppendedActions(trace, more);
        } else {
          AppendedOne(trace, more[0]);
        }
      case _ =>
        AppendedActions(trace, more);
    }
  }

  lemma {:induction false} AccountedRun(p: SupervisionStrategy, turns: seq<Turn>)
    ensures Accounted(p, StateAfter(p, turns), Trace(p, turns))
  {
    if turns != [] {
      var before := turns[..|turns| - 1];
      AccountedRun(p, before);
      AccountedStep(p, StateAfter(p, before), Trace(p, before), turns[|turns| - 1]);
    }
  }

  /** Between two runs an actor attempts at most `max_retries` restarts; an
      actor that terminates without another run has attempted exactly that many
      if it was to be restarted, and none if its last run stopped or failed. */
  lemma RestartBound(p: SupervisionStrategy, turns: seq<Turn>)
    ensures AttemptsSince(Trace(p, turns)) <= MaxRetries(p)
    ensures var trace := Trace(p, turns);
            StateAfter(p, turns).lifecycle == Terminated ==>
              AttemptsSince(trace) ==
              if LastRun(trace).None? || LastRun(trace) == Some(RunRestarted) then MaxRetries(p) else 0
  {
    AccountedRun(p, turns);
  }

  /** An upper bound on the turns before the actor next runs or terminates. */
  function Measure(p: SupervisionStrategy, s: State): nat
    requires s.retries <= MaxRetries(p)
  {
    match s.lifecycle
    case Created => MaxRetries(p) + 4
    case Restarted => MaxRetries(p) - s.retries + 3
    case Failed => 2
    case Stopped => 1
    case _ => 0
  }

  /** Every turn outside `run` decreases the measure. */
  lemma TurnsTerminate(p: SupervisionStrategy, turns: seq<Turn>, t: Turn)
    ensures var s := StateAfter(p, turns);
            && s.retries <= MaxRetries(p) && NextState(p, s, t).retries <= MaxRetries(p)
            && (!s.lifecycle.Started? && !s.lifecycle.Terminated? ==> Measure(p, NextState(p, s, t)) < Measure(p, s))
  {
    AccountedRun(p, turns);
  }

  // ---------- the reply and the end ----------

  function Replies(trace: seq<Action>): nat {
    if trace == [] then 0
    else Replies(trace[..|trace| - 1]) + if trace[|trace| - 1].Reply? then 1 else 0
  }

  /** What has been answered, and what comes last. */
  ghost predicate Answered(s: State, trace: seq<Action>) {
    && Replies(trace) == (if s.unanswered then 0 else 1)
    && (s.lifecycle.Failed? || s.lifecycle.Stopped? || s.lifecycle.Terminated? ==> !s.unanswered)
    && (Reply(true) in trace <==> LastRun(trace).Some?)
    && (s.unanswered ==> LastRun(trace).None?)
    && (!s.unanswered && (s.lifecycle.Created? || s.lifecycle.Started? || s.lifecycle.Restarted?) ==>
          Reply(true) in trace)
    && (if s.lifecycle.Terminated? then Ends(trace) else EmitStopped !in trace && PostStop !in trace)
  }

  /** The trace ends with the one Stopped emission and the one `post_stop`. */
  ghost predicate Ends(trace: seq<Action>) {
    && |trace| >= 2 && trace[|trace| - 2..] == [EmitStopped, PostStop]
    && EmitStopped !in trace[..|trace| - 2] && PostStop !in trace[..|trace| - 2]
  }

  lemma RepliesOne(trace: seq<Action>, a: Action)
    ensures Replies(trace + [a]) == Replies(trace) + if a.Reply? then 1 else 0
  {
    assert (trace + [a])[..|trace|] == trace;
  }

  lemma AnsweredOne(trace: seq<Action>, a: Action)
    ensures Replies(trace + [a]) == Replies(trace) + if a.Reply? then 1 else 0
    ensures LastRun(trace + [a]) == if a.Ran? then Some(a.end) else LastRun(trace)
    ensures forall x :: x in trace + [a] <==> x in trace || x == a
  {
    RepliesOne(trace, a);
    AppendedOne(trace, a);
  }

  lemma AnsweredStarted(p: SupervisionStrategy, s: State, trace: seq<Action>, t: Turn)
    requires Answered(s, trace) && s.lifecycle.Started?
    ensures Answered(NextState(p, s, t), trace + Actions(p, s, t))
  {
    hide Replies, LastRun, Ends;
    if s.unanswered {
      AnsweredOne(trace, Reply(true));
      AnsweredOne(trace + [Reply(true)], Ran(t.runEnd));
      assert trace + Actions(p, s, t) == (trace + [Reply(true)]) + [Ran(t.runEnd)];
    } else {
      AnsweredOne(trace, Ran(t.runEnd));
      assert Actions(p, s, t) == [Ran(t.runEnd)];
    }
  }

  lemma AnsweredStopped(p: SupervisionStrategy, s: State, trace: seq<Action>, t: Turn)
    requires Answered(s, trace) && s.lifecycle.Stopped?
    ensures Answered(NextState(p, s, t), trace + Actions(p, s, t))
  {
    hide Replies, LastRun, Ends;
    AnsweredOne(trace, EmitStopped);
    AnsweredOne(trace + [EmitStopped], PostStop);
    EndsAfter(trace);
    assert trace + Actions(p, s, t) == (trace + [EmitStopped]) + [PostStop];
  }

  lemma EndsAfter(trace: seq<Action>)
    requires EmitStopped !in trace && PostStop !in trace
    ensures Ends((trace + [EmitStopped]) + [PostStop])
  {
    var trace' := (trace + [EmitStopped]) + [PostStop];
    assert trace'[..|trace'| - 2] == trace && trace'[|trace'| - 2..] == [EmitStopped, PostStop];
  }

  lemma AnsweredStep(p: SupervisionStrategy, s: State, trace: seq<Action>, t: Turn)
    requires Answered(s, trace)
    ensures Answered(NextState(p, s, t), trace + Actions(p, s, t))
  {
    hide Replies, LastRun, Ends;
    var more := Actions(p, s, t);
    if s.lifecycle.Started? {
      AnsweredStarted(p, s, trace, t);
    } else if s.lifecycle.Stopped? {
      AnsweredStopped(p, s, trace, t);
    } else if more == [] {
      assert trace + more == trace;
    } else {
      AnsweredOne(trace, more[0]);
      assert more == [more[0]];
    }
  }

  lemma {:induction false} AnsweredRun(p: SupervisionStrategy, turns: seq<Turn>)
    ensures Answered(StateAfter(p, turns), Trace(p, turns))
  {
    if turns != [] {
      var before := turns[..|turns| - 1];
      AnsweredRun(p, before);
      AnsweredStep(p, StateAfter(p, before), Trace(p, before), turns[|turns| - 1]);
    }
  }

  /** Every finished life answers its creator exactly once, positively exactly
      if the actor ever ran, and ends with one Stopped emission followed by one
      `post_stop`, with no run after or between. */
  lemma FinishedLife(p: SupervisionStrategy, turns: seq<Turn>)
    requires StateAfter(p, turns).lifecycle == Terminated
    ensures var trace := Trace(p, turns);
            && Replies(trace) == 1
            && (Reply(true) in trace <==> LastRun(trace).Some?)
            && Ends(trace)
  {
    AnsweredRun(p, turns);
  }

  /** The strategy is made anew for every attempt, so a custom strategy always
      waits its first duration: it never advances. */
  lemma {:induction false} WaitNeverAdvances(p: SupervisionStrategy, turns: seq<Turn>, a: Action)
    requires a in Trace(p, turns) && a.Attempt?
    ensures p.Retry? && a.wait == p.strategy.Backoff()
  {
    var before := turns[..|turns| - 1];
    if a in Trace(p, before) {
      WaitNeverAdvances(p, before, a);
    }
  }
}
