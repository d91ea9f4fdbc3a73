/** Retry strategies, and asking an actor repeatedly under one. */
module Strategies {
  import opened Wrappers

  type Duration = nat

  datatype Strategy =
    | NoInterval(maxRetries: nat)
    | FixedInterval(maxRetries: nat, duration: Duration)
    | CustomInterval(maxRetries: nat, durations: seq<Duration>)
  {
    /** A custom strategy allows as many retries as it was given durations. */
    static function Custom(durations: seq<Duration>): Strategy {
      CustomInterval(|durations|, durations)
    }

    /** The wait `next_backoff` returns. */
    function Backoff(): Option<Duration> {
      match this
      case NoInterval(_) => None
      case FixedInterval(_, d) => Some(d)
      case CustomInterval(_, ds) => if ds == [] then None else Some(ds[0])
    }

    /** The strategy `next_backoff` leaves. */
    function Popped(): Strategy {
      match this
      case CustomInterval(m, ds) => if ds == [] then this else CustomInterval(m, ds[1..])
      case _ => this
    }
  }

  /** A mutable strategy, as a caller lends it. */
  class StrategyCell {
    var strategy: Strategy

    constructor (strategy: Strategy)
      ensures this.strategy == strategy
    {
      this.strategy := strategy;
    }

    method NextBackoff() returns (wait: Option<Duration>)
      modifies this
      ensures wait == old(strategy).Backoff() && strategy == old(strategy).Popped()
    {
      match strategy
      case NoInterval(_) =>
        wait := None;
      case FixedInterval(_, d) =>
        wait := Some(d);
      case CustomInterval(m, ds) =>
        if ds == [] {
          wait := None;
        } else {
          wait := Some(ds[0]);
          strategy := CustomInterval(m, ds[1..]);
        }
    }
  }

  function PoppedTimes(s: Strategy, n: nat): Strategy {
    if n == 0 then s else PoppedTimes(s, n - 1).Popped()
  }

  /** A custom queue is shortened by the number of calls, or emptied; nothing
      else about any strategy changes. */
  lemma {:induction false} PoppedQueue(s: Strategy, n: nat)
    ensures var left := if s.CustomInterval? && n < |s.durations| then s.durations[n..] else [];
            PoppedTimes(s, n) == if s.CustomInterval? then s.(durations := left) else s
    ensures PoppedTimes(s, n).maxRetries == s.maxRetries
  {
    if n > 0 {
      PoppedQueue(s, n - 1);
    }
  }

  /** The wait the i-th call returns, for every strategy: none, always the same, or
      the i-th duration given until they are used up. */
  lemma WaitsExact(s: Strategy, i: nat)
    ensures PoppedTimes(s, i).Backoff() ==
            match s
            case NoInterval(_) => None
            case FixedInterval(_, d) => Some(d)
            case CustomInterval(_, ds) => if i < |ds| then Some(ds[i]) else None
  {
    PoppedQueue(s, i);
  }

  datatype AskError = RetryLimitExceeded

  /** Asks until the first success, at most `max_retries` times. `replies(i)` is
      the answer the i-th ask would get. */
  method RetryAsk<R, F>(replies: nat -> Result<R, F>, cell: StrategyCell) returns (r: Result<R, AskError>, asks: nat)
    modifies cell
    ensures asks <= old(cell.strategy).maxRetries
    ensures forall i | 0 <= i < asks - 1 :: replies(i).Err?
    ensures r.Ok? ==> asks > 0 && replies(asks - 1) == Ok(r.value)
    ensures r.Err? ==> asks == old(cell.strategy).maxRetries && forall i | 0 <= i < asks :: replies(i).Err?
    ensures cell.strategy == PoppedTimes(old(cell.strategy), if asks == 0 then 0 else asks - 1)
  {
    var maxAttempts := cell.strategy.maxRetries;
    asks := 0;
    if maxAttempts == 0 {
      return Err(RetryLimitExceeded), 0;
    }
    while asks < maxAttempts
      invariant asks <= maxAttempts
      invariant forall i | 0 <= i < asks :: replies(i).Err?
      invariant cell.strategy == PoppedTimes(old(cell.strategy), if asks < maxAttempts then asks else asks - 1)
    {
      asks := asks + 1;
      match replies(asks - 1) {
        case Ok(response) =>
          return Ok(response), asks;
        case Err(_) =>
          if asks < maxAttempts {
            var _ := cell.NextBackoff();
          }
      }
    }
    r := Err(RetryLimitExceeded);
  }

  /** With a fresh custom strategy every failed ask but the last waits its own
      duration: the queue never runs dry. */
  lemma FreshCustomWaits(durations: seq<Duration>, i: nat)
    ensures Strategy.Custom(durations).maxRetries == |durations|
    ensures i < |durations| ==> PoppedTimes(Strategy.Custom(durations), i).Backoff() == Some(durations[i])
  {
    WaitsExact(Strategy.Custom(durations), i);
  }
}
