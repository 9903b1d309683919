/** The countdown hook: a single state cell holding the seconds left, or nothing while the
    countdown is stopped. While it holds a value other than 0 a one-second timer is pending
    whose firing lowers it by one; when it becomes 0 the completion callback runs. Time is
    modelled by the firing of that timer; the callback by the number of times it ran. */
module Countdown {
  import opened Wrappers

  /** The seconds left and how often the completion callback has run. */
  datatype CountdownState = CountdownState(countdown: Option<int>, completions: nat)

  /** A timer is pending: the effect scheduled one because the value is neither null nor 0. */
  predicate Pending(s: CountdownState) {
    s.countdown.Some? && s.countdown.value != 0
  }

  /** `setCountdown(v)`: a new value re-runs the effect, which calls the callback at 0; setting
      the value it already holds renders nothing and runs nothing. */
  function SetCountdown(s: CountdownState, v: Option<int>): CountdownState {
    if v == s.countdown then s
    else CountdownState(v, if v == Some(0) then s.completions + 1 else s.completions)
  }

  /** The state right after mounting, once the first effect ran. */
  function Mounted(initialSeconds: Option<int>): CountdownState {
    CountdownState(initialSeconds, if initialSeconds == Some(0) then 1 else 0)
  }

  /** The pending timer firing. */
  function TickStep(s: CountdownState): CountdownState
    requires Pending(s)
  {
    SetCountdown(s, Some(s.countdown.value - 1))
  }

  /** The state after `seconds` more seconds: each pending timer fires once a second. */
  function Run(s: CountdownState, seconds: nat): CountdownState
    decreases seconds
  {
    if seconds == 0 || !Pending(s) then s else Run(TickStep(s), seconds - 1)
  }

  /** From `n >= 0`, after `k` seconds the value is `n - k` until it reaches 0, and it stays
      there; the callback runs exactly once, on the tick that reaches 0. */
  lemma {:induction false} RunFrom(n: nat, k: nat, completions: nat)
    requires n > 0
    ensures Run(CountdownState(Some(n), completions), k) ==
      if k < n then CountdownState(Some(n - k), completions)
      else CountdownState(Some(0), completions + 1)
    decreases k
  {
    if k > 0 {
      var s := CountdownState(Some(n), completions);
      if n == 1 {
        assert TickStep(s) == CountdownState(Some(0), completions + 1);
      } else {
        RunFrom(n - 1, k - 1, completions);
      }
    }
  }

  /** At 0 or stopped, no timer is pending and time changes nothing. */
  lemma RunIdle(s: CountdownState, k: nat)
    requires !Pending(s)
    ensures Run(s, k) == s
  {
  }

  /** A negative start counts down without end and never calls the callback. */
  lemma {:induction false} RunNegative(start: int, k: nat, completions: nat)
    requires start < 0
    ensures Run(CountdownState(Some(start), completions), k) == CountdownState(Some(start - k), completions)
    decreases k
  {
    if k > 0 {
      RunNegative(start - 1, k - 1, completions);
    }
  }

  /** A countdown from 3: 2 after a second, 0 after three, and the callback has run once,
      however long one waits after that. */
  lemma CountdownFromThree()
    ensures Run(Mounted(Some(3)), 1).countdown == Some(2)
    ensures Run(Mounted(Some(3)), 2).countdown == Some(1)
    ensures Run(Mounted(Some(3)), 3) == CountdownState(Some(0), 1)
    ensures Run(Mounted(Some(3)), 10) == CountdownState(Some(0), 1)
  {
    RunFrom(3, 1, 0);
    RunFrom(3, 2, 0);
    RunFrom(3, 3, 0);
    RunFrom(3, 10, 0);
  }

  /** Stopping a countdown from 2 leaves nothing; starting again gives 2, then 1 a second
      later. */
  lemma StopAndRestart(k: nat)
    ensures SetCountdown(Mounted(Some(2)), None).countdown == None
    ensures Run(SetCountdown(Mounted(Some(2)), None), k) == SetCountdown(Mounted(Some(2)), None)
    ensures Run(SetCountdown(SetCountdown(Mounted(Some(2)), None), Some(2)), 1).countdown == Some(1)
  {
    RunIdle(SetCountdown(Mounted(Some(2)), None), k);
    RunFrom(2, 1, 0);
  }

  class Countdown {
    const initialSeconds: Option<int>
    var countdown: Option<int>
    var completions: nat

    function State(): CountdownState
      reads this
    {
      CountdownState(countdown, completions)
    }

    constructor (initialSeconds: Option<int>)
      ensures this.initialSeconds == initialSeconds
      ensures State() == Mounted(initialSeconds)
    {
      this.initialSeconds := initialSeconds;
      countdown := initialSeconds;
      completions := if initialSeconds == Some(0) then 1 else 0;
    }

    method Set(v: Option<int>)
      modifies this
      ensures State() == SetCountdown(old(State()), v)
    {
      if v != countdown {
        countdown := v;
        if v == Some(0) {
          completions := completions + 1;
        }
      }
    }

    method Start()
      modifies this
      ensures State() == SetCountdown(old(State()), initialSeconds)
    {
      Set(initialSeconds);
    }

    method Stop()
      modifies this
      ensures State() == SetCountdown(old(State()), None)
      ensures countdown == None && !Pending(State())
    {
      Set(None);
    }

    method Reset()
      modifies this
      ensures State() == SetCountdown(old(State()), initialSeconds)
    {
      Set(initialSeconds);
    }

    /** The pending timer fires. */
    method Tick()
      requires Pending(State())
      modifies this
      ensures State() == TickStep(old(State()))
    {
      Set(Some(countdown.value - 1));
    }
  }
}
