/** The resend countdown of the login modal as a pure state machine: the
    number of seconds left and whether the one-second interval is still
    scheduled. A successful "send code" starts it at 60; each firing of the
    interval either counts down by one or, at 1 or below, sets it to 0 and
    clears the interval. */
module Countdown {

  /** Seconds before a code may be requested again. */
  const Start: int := 60

  /** `remaining` is the `countdown` state variable; `running` says whether
      the interval created by the last start has not yet been cleared. */
  datatype State = State(remaining: int, running: bool)

  /** The state on mount: nothing to wait for, no interval. */
  const Idle: State := State(0, false)

  /** The state right after a successful "send code". */
  const Started: State := State(Start, true)

  /** The states the machine can be in: within [0, Start], and the interval
      is scheduled exactly while the countdown is positive. */
  predicate Consistent(s: State)
  {
    0 <= s.remaining <= Start && (s.running <==> s.remaining > 0)
  }

  /** One firing of the interval callback; a cleared interval fires nothing. */
  function Tick(s: State): State
  {
    if !s.running then s
    else if s.remaining <= 1 then State(0, false)
    else State(s.remaining - 1, true)
  }

  /** The state after the interval has been given `k` chances to fire. */
  function Ticks(s: State, k: nat): State
  {
    if k == 0 then s else Tick(Ticks(s, k - 1))
  }

  /** Every reachable state is consistent; in particular the countdown is
      never negative and never above 60. */
  lemma StartedConsistent()
    ensures Consistent(Idle) && Consistent(Started)
  {
  }

  lemma TickPreservesConsistent(s: State)
    requires Consistent(s)
    ensures Consistent(Tick(s))
    ensures Tick(s).remaining <= s.remaining
  {
  }

  lemma {:induction false} TicksPreserveConsistent(s: State, k: nat)
    requires Consistent(s)
    ensures Consistent(Ticks(s, k))
    ensures Ticks(s, k).remaining <= s.remaining
  {
    if k > 0 {
      TicksPreserveConsistent(s, k - 1);
      TickPreservesConsistent(Ticks(s, k - 1));
    }
  }

  /** Counting down from a running `n`: after `k < n` firings `n - k` seconds
      are left and the interval is still scheduled; the `n`-th firing sets
      the countdown to 0 and clears the interval. */
  lemma {:induction false} TicksCountDown(n: int, k: nat)
    requires 1 <= n && k <= n
    ensures Ticks(State(n, true), k) == if k < n then State(n - k, true) else State(0, false)
  {
    if k > 0 {
      TicksCountDown(n, k - 1);
    }
  }

  /** Once the interval is cleared, nothing fires any more. */
  lemma {:induction false} IdleStaysIdle(k: nat)
    ensures Ticks(Idle, k) == Idle
  {
    if k > 0 {
      IdleStaysIdle(k - 1);
    }
  }

  lemma {:induction false} TicksAdd(s: State, j: nat, k: nat)
    ensures Ticks(Ticks(s, j), k) == Ticks(s, j + k)
  {
    if k > 0 {
      TicksAdd(s, j, k - 1);
    }
  }

  /** From a fresh start the countdown reaches 0 after exactly 60 firings:
      before that the resend action stays disabled and the interval keeps
      running, and from then on the state no longer changes. */
  lemma CountdownFromStart(k: nat)
    ensures k < Start ==> Ticks(Started, k) == State(Start - k, true)
    ensures k >= Start ==> Ticks(Started, k) == Idle
  {
    if k < Start {
      TicksCountDown(Start, k);
    } else {
      TicksCountDown(Start, Start);
      TicksAdd(Started, Start, k - Start);
      IdleStaysIdle(k - Start);
    }
  }

  /** The firing that clears the interval is the `n`-th one and no other. */
  lemma ClearedOnlyAtLastTick(n: int, k: nat)
    requires 1 <= n && 1 <= k <= n
    ensures !Ticks(State(n, true), k).running <==> k == n
  {
    TicksCountDown(n, k);
  }
}
