/**
 * The rest timer of the workout session screen: it restarts from `duration`
 * whenever that prop changes, ticks only while running with time left, calls
 * `onComplete` and a heavy vibration when the time reaches 0, and can be
 * toggled or skipped.
 *
 * The interval is an input: a tick is one firing of the interval that the tick
 * effect installs while the timer is running with time left.
 */
module WorkoutsRestTimer {

  datatype State = State(timeLeft: int, isRunning: bool)

  /** The callbacks this timer invokes; the vibration goes through the haptics helper. */
  datatype Callback = OnComplete | VibrateHeavy | OnSkip

  datatype Step = Step(state: State, calls: seq<Callback>)

  /** Mounting, and every later change of `duration`: the time is reset and the timer runs. */
  function DurationChanged(duration: int): State
  {
    State(duration, true)
  }

  /**
   * A re-render with the duration `duration` after `prev`: the duration effect
   * fires only when the value changed; otherwise the countdown is left alone.
   */
  function Rerendered(prev: int, duration: int, s: State): State
  {
    if prev != duration then DurationChanged(duration) else s
  }

  /** The tick effect installs an interval only while running with time left. */
  predicate Ticking(s: State)
  {
    s.isRunning && s.timeLeft > 0
  }

  /** One firing of the interval: the time drops by one, unclamped, and completes at 0 or below. */
  function Ticked(s: State): Step
  {
    if !Ticking(s) then Step(s, [])
    else
      var newTime := s.timeLeft - 1;
      Step(s.(timeLeft := newTime), if newTime <= 0 then [OnComplete, VibrateHeavy] else [])
  }

  function Toggled(s: State): State
  {
    s.(isRunning := !s.isRunning)
  }

  function Skipped(s: State): Step
  {
    Step(s, [OnSkip])
  }

  function Ticks(s: State, n: nat): Step
    decreases n
  {
    if n == 0 then Step(s, [])
    else
      var first := Ticked(s);
      var rest := Ticks(first.state, n - 1);
      Step(rest.state, first.calls + rest.calls)
  }

  lemma {:induction false} TicksWhileIdle(s: State, n: nat)
    requires !Ticking(s)
    ensures Ticks(s, n) == Step(s, [])
  {
    if n > 0 {
      TicksWhileIdle(s, n - 1);
    }
  }

  /** A zero or negative duration never ticks, so `onComplete` is never called. */
  lemma NonPositiveDurationNeverCompletes(duration: int, n: nat)
    requires duration <= 0
    ensures Ticks(DurationChanged(duration), n) == Step(DurationChanged(duration), [])
  {
    TicksWhileIdle(DurationChanged(duration), n);
  }

  /**
   * A running timer with `t >= 1` seconds reaches 0 after exactly `t` ticks, calling
   * `onComplete` and the vibration once, and stays there however many more ticks come.
   */
  lemma {:induction false} CountdownCompletesOnce(s: State, n: nat)
    requires s.isRunning && s.timeLeft >= 1 && n >= s.timeLeft
    ensures Ticks(s, n) == Step(s.(timeLeft := 0), [OnComplete, VibrateHeavy])
    decreases n
  {
    var first := Ticked(s);
    if s.timeLeft == 1 {
      TicksWhileIdle(first.state, n - 1);
      assert first.calls + [] == [OnComplete, VibrateHeavy];
    } else {
      CountdownCompletesOnce(first.state, n - 1);
      assert first.calls == [];
    }
  }

  /** Before that, each tick takes exactly one second off and calls nothing. */
  lemma {:induction false} TicksBeforeCompletion(s: State, k: nat)
    requires s.isRunning && k < s.timeLeft
    ensures Ticks(s, k) == Step(s.(timeLeft := s.timeLeft - k), [])
    decreases k
  {
    if k > 0 {
      TicksBeforeCompletion(Ticked(s).state, k - 1);
    }
  }

  /** Toggling flips only the running flag, twice restores the state, and a stopped timer ignores ticks. */
  lemma ToggleSpec(s: State, n: nat)
    ensures Toggled(s).timeLeft == s.timeLeft && Toggled(s).isRunning == !s.isRunning
    ensures Toggled(Toggled(s)) == s
    ensures s.isRunning ==> Ticks(Toggled(s), n) == Step(Toggled(s), [])
  {
    if s.isRunning {
      TicksWhileIdle(Toggled(s), n);
    }
  }

  /**
   * An unchanged duration leaves the countdown as it is (a paused timer stays
   * paused at its time); a new one restarts it from that duration, running; and
   * rendering the same duration again after that changes nothing further.
   */
  lemma RerenderedSpec(prev: int, duration: int, s: State)
    ensures prev == duration ==> Rerendered(prev, duration, s) == s
    ensures prev != duration ==>
      Rerendered(prev, duration, s).timeLeft == duration && Rerendered(prev, duration, s).isRunning
    ensures Rerendered(duration, duration, Rerendered(prev, duration, s)) == Rerendered(prev, duration, s)
  {
  }

  /** Skipping calls `onSkip` and changes nothing in the countdown. */
  lemma SkipSpec(s: State)
    ensures Skipped(s).state == s && Skipped(s).calls == [OnSkip]
  {
  }

  class Timer {
    var timeLeft: int
    var isRunning: bool
    /** The `duration` prop of the last render, which the duration effect compares against. */
    var duration: int

    function Current(): State
      reads this
    {
      State(timeLeft, isRunning)
    }

    constructor (duration: int)
      ensures Current() == DurationChanged(duration)
      ensures this.duration == duration
    {
      timeLeft := duration;
      isRunning := true;
      this.duration := duration;
    }

    /** A re-render with the prop `d`: the countdown restarts only when `d` differs from the last one. */
    method ChangeDuration(d: int)
      modifies this
      ensures duration == d
      ensures Current() == Rerendered(old(duration), d, old(Current()))
    {
      if d != duration {
        timeLeft := d;
        isRunning := true;
      }
      duration := d;
    }

    method Tick() returns (calls: seq<Callback>)
      modifies this
      ensures Current() == Ticked(old(Current())).state
      ensures calls == Ticked(old(Current())).calls
    {
      calls := [];
      if isRunning && timeLeft > 0 {
        var newTime := timeLeft - 1;
        if newTime <= 0 {
          calls := [OnComplete, VibrateHeavy];
        }
        timeLeft := newTime;
      }
    }

    method Toggle()
      modifies this
      ensures Current() == Toggled(old(Current()))
    {
      isRunning := !isRunning;
    }

    method Skip() returns (calls: seq<Callback>)
      ensures calls == Skipped(Current()).calls
    {
      calls := [OnSkip];
    }
  }
}
