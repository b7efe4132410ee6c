/** Polling a task after a send, with growing intervals and a deadline. */
module Polling {

  datatype TaskState =
    | Unspecified | Submitted | Working
    | Completed | Failed | Canceled | Rejected | InputRequired | AuthRequired

  predicate Pollable(s: TaskState) {
    s.Submitted? || s.Working? || s.Unspecified?
  }

  predicate Terminal(s: TaskState) {
    s.Completed? || s.Failed? || s.Canceled? || s.Rejected?
  }

  datatype Policy = Policy(initial: real, maximum: real, multiplier: real, timeout: real)

  datatype Complaint = InitialInterval | MaximumInterval | Multiplier | Timeout | Order

  datatype Validation = Accepted | Refused(complaint: Complaint)

  function Validate(p: Policy): Validation {
    if p.initial <= 0.0 then Refused(InitialInterval)
    else if p.maximum <= 0.0 then Refused(MaximumInterval)
    else if p.multiplier < 1.0 then Refused(Multiplier)
    else if p.timeout <= 0.0 then Refused(Timeout)
    else if p.maximum < p.initial then Refused(Order)
    else Accepted
  }

  function Min(x: real, y: real): real {
    if x <= y then x else y
  }

  function NextInterval(p: Policy, current: real): real {
    Min((if current > 0.0 then current else 0.0) * p.multiplier, p.maximum)
  }

  /** What the peer and the clock do: the task's state after n GetTask calls, whether call n
      fails, and the time spent besides sleeping before check n. */
  datatype Peer = Peer(state: nat -> TaskState, fails: nat -> bool, lag: nat -> real)

  ghost predicate Forward(peer: Peer) {
    forall n: nat :: peer.lag(n) >= 0.0
  }

  // ---------------------------------------------------------------- what is to happen

  /** The initial interval multiplied n times, with no maximum. */
  function Grown(p: Policy, n: nat): real {
    if n == 0 then p.initial else Grown(p, n - 1) * p.multiplier
  }

  /** Interval n. */
  function Backoff(p: Policy, n: nat): real {
    Min(Grown(p, n), p.maximum)
  }

  function Sleep(p: Policy, peer: Peer, n: nat): real
    decreases n, 1
  {
    Min(Backoff(p, n), p.timeout - Elapsed(p, peer, n))
  }

  /** The time since polling began when the task is checked for the n-th time. */
  function Elapsed(p: Policy, peer: Peer, n: nat): real
    decreases n, 0
  {
    if n == 0 then peer.lag(0)
    else Elapsed(p, peer, n - 1) + Sleep(p, peer, n - 1) + peer.lag(n)
  }

  function Slept(p: Policy, peer: Peer, n: nat): real {
    if n == 0 then 0.0 else Slept(p, peer, n - 1) + Sleep(p, peer, n - 1)
  }

  /** At check n polling goes on: the task is pollable and there is time left. */
  predicate Waits(p: Policy, peer: Peer, n: nat) {
    Pollable(peer.state(n)) && Elapsed(p, peer, n) < p.timeout
  }

  /** The first n rounds of sleeping and asking went through. */
  predicate Reaches(p: Policy, peer: Peer, n: nat) {
    forall k: nat | k < n :: Waits(p, peer, k) && !peer.fails(k)
  }

  datatype Outcome = Settled(state: TaskState) | TimedOut | GetTaskFailed

  method PollTaskUntilTerminal(p: Policy, peer: Peer, start: real)
    returns (outcome: Outcome, calls: nat, intervals: seq<real>, slept: real)
    requires Validate(p) == Accepted && Forward(peer)
    ensures |intervals| == calls && forall i: nat | i < calls :: intervals[i] == Backoff(p, i)
    ensures slept == Slept(p, peer, calls)
    ensures match outcome
      case Settled(s) => Reaches(p, peer, calls) && s == peer.state(calls) && !Pollable(s)
      case TimedOut => Reaches(p, peer, calls) && Pollable(peer.state(calls)) && Elapsed(p, peer, calls) >= p.timeout
      case GetTaskFailed =>
        calls > 0 && Reaches(p, peer, calls - 1) && Waits(p, peer, calls - 1) && peer.fails(calls - 1)
  {
    var deadline, clock := start + p.timeout, start + peer.lag(0);
    var interval, current := p.initial, peer.state(0);
    calls, intervals, slept := 0, [], 0.0;
    while true
      invariant Reaches(p, peer, calls) && current == peer.state(calls)
      invariant clock == start + Elapsed(p, peer, calls) && slept == Slept(p, peer, calls)
      invariant |intervals| == calls && forall i: nat | i < calls :: intervals[i] == Backoff(p, i)
      invariant interval == Backoff(p, calls)
      invariant calls <= MostCalls(p)
      decreases MostCalls(p) - calls
    {
      if Terminal(current) {
        return Settled(current), calls, intervals, slept;
      }
      if !Pollable(current) {
        return Settled(current), calls, intervals, slept;
      }
      var remaining := deadline - clock;
      if remaining <= 0.0 {
        return TimedOut, calls, intervals, slept;
      }
      CallsBounded(p, peer, calls);
      NextBackoff(p, calls);
      intervals := intervals + [interval];
      slept := slept + Min(interval, remaining);
      clock := clock + Min(interval, remaining) + peer.lag(calls + 1);
      calls := calls + 1;
      if peer.fails(calls - 1) {
        return GetTaskFailed, calls, intervals, slept;
      }
      current := peer.state(calls);
      interval := NextInterval(p, interval);
    }
  }

  // ---------------------------------------------------------------- intervals

  lemma Grows(x: real, m: real)
    requires x >= 0.0 && m >= 1.0
    ensures x * m >= x
  {
  }

  lemma {:induction false} GrownLeast(p: Policy, n: nat)
    requires Validate(p) == Accepted
    ensures Grown(p, n) >= p.initial
  {
    if n > 0 {
      GrownLeast(p, n - 1);
      var grown := Grown(p, n - 1);
      Grows(grown, p.multiplier);
      assert Grown(p, n) == grown * p.multiplier;
    }
  }

  lemma CapThenGrow(p: Policy, grown: real, next: real)
    requires Validate(p) == Accepted && grown >= p.initial && next == grown * p.multiplier
    ensures NextInterval(p, Min(grown, p.maximum)) == Min(next, p.maximum)
    ensures p.initial <= Min(grown, p.maximum) <= Min(next, p.maximum)
  {
    Grows(grown, p.multiplier);
    Grows(p.maximum, p.multiplier);
  }

  /** Growing the capped interval is capping the grown interval. */
  lemma NextBackoff(p: Policy, n: nat)
    requires Validate(p) == Accepted
    ensures NextInterval(p, Backoff(p, n)) == Backoff(p, n + 1)
    ensures p.initial <= Backoff(p, n) <= Backoff(p, n + 1) <= p.maximum
  {
    GrownLeast(p, n);
    CapThenGrow(p, Grown(p, n), Grown(p, n + 1));
  }

  /** Intervals never shrink and stay between the initial and the maximum interval. */
  lemma {:induction false} BackoffRises(p: Policy, i: nat, j: nat)
    requires Validate(p) == Accepted && i <= j
    ensures p.initial <= Backoff(p, i) <= Backoff(p, j) <= p.maximum
    decreases j
  {
    NextBackoff(p, i);
    if i < j {
      BackoffRises(p, i, j - 1);
      NextBackoff(p, j - 1);
    }
  }

  // ---------------------------------------------------------------- bounds

  function Ceil(x: real): int {
    -((-x).Floor)
  }

  function MostCalls(p: Policy): nat
    requires Validate(p) == Accepted
  {
    Ceil(p.timeout / p.initial)
  }

  /** n initial intervals. */
  function Least(p: Policy, n: nat): real {
    if n == 0 then 0.0 else Least(p, n - 1) + p.initial
  }

  lemma {:induction false} LeastIsProduct(p: Policy, n: nat)
    ensures Least(p, n) == n as real * p.initial
  {
    if n > 0 {
      LeastIsProduct(p, n - 1);
    }
  }

  /** Every round that leaves time before the deadline has slept its whole interval. */
  lemma {:induction false} ElapsedGrows(p: Policy, peer: Peer, n: nat)
    requires Validate(p) == Accepted && Forward(peer) && Reaches(p, peer, n)
    ensures Elapsed(p, peer, n) < p.timeout ==> Elapsed(p, peer, n) >= Least(p, n)
    ensures Slept(p, peer, n) <= Elapsed(p, peer, n)
  {
    if n > 0 {
      ElapsedGrows(p, peer, n - 1);
      assert Waits(p, peer, n - 1);
      NextBackoff(p, n - 1);
      hide Backoff;
    }
  }

  lemma Divides(x: real, y: real, z: real)
    requires y > 0.0 && x * y < z
    ensures x < z / y
  {
  }

  lemma CallsBounded(p: Policy, peer: Peer, n: nat)
    requires Validate(p) == Accepted && Forward(peer) && Reaches(p, peer, n) && Waits(p, peer, n)
    ensures n < MostCalls(p)
  {
    ElapsedGrows(p, peer, n);
    LeastIsProduct(p, n);
    Divides(n as real, p.initial, p.timeout);
    hide Backoff, Elapsed, Least;
  }

  /** However the task and the clock behave, polling makes at most ceil(timeout / initial
      interval) GetTask calls and sleeps no longer than the timeout in all. */
  lemma PollingBounded(p: Policy, peer: Peer, n: nat)
    requires Validate(p) == Accepted && Forward(peer)
    requires n > 0 && Reaches(p, peer, n - 1) && Waits(p, peer, n - 1)
    ensures n <= MostCalls(p)
    ensures Slept(p, peer, n) <= p.timeout
  {
    CallsBounded(p, peer, n - 1);
    ElapsedGrows(p, peer, n - 1);
  }
}
