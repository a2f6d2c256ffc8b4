/**
 * The enhanced rest timer of a workout: a recommended rest length computed from
 * the exercise intensity, the previous set's RPE and the recovery status, and a
 * countdown that can be started, paused, resumed, reset and skipped, and that
 * corrects itself for the time the app spent in the background.
 *
 * The interval ticker, the app-state listener and the wall clock are inputs: a
 * tick is one firing of the one-second interval, and an app-state change carries
 * the current time in milliseconds.
 */
module EnhancedRestTimer {
  import opened Common

  /** The component's inputs: its props and the recovery status from the wellness store. */
  datatype Props = Props(
    intensity: string,
    previousSetRpe: int,
    recovery: Option<Status>,
    hasOnComplete: bool,
    hasOnSkip: bool)

  /** The app states React Native reports. */
  datatype AppStatus = Active | Inactive | Background | Unknown | Extension

  /** `nextAppState.match(/inactive|background/)`. */
  predicate IsAway(a: AppStatus)
  {
    a == Inactive || a == Background
  }

  /** The callbacks the timer invokes. */
  datatype Callback = OnComplete | OnSkip

  /**
   * The countdown state: seconds left, the two flags, the timestamp stored when the
   * app went to the background (`pausedTimeRef`) and the last known app state.
   */
  datatype State = State(
    timeLeft: int,
    isActive: bool,
    isPaused: bool,
    suspendedAt: Option<int>,
    appState: AppStatus)

  /** A transition's outcome: the new state and the callbacks invoked, in order. */
  datatype Step = Step(state: State, calls: seq<Callback>)

  // ---------------------------------------------------------------------------
  // Recommended rest

  function BaseRest(intensity: string): int
  {
    if intensity == "light" then 60
    else if intensity == "high" then 180
    else 90
  }

  function RecoveryMultiplier(recovery: Option<Status>): real
  {
    match recovery
    case None => 1.0
    case Some(Poor) => 1.3
    case Some(Fair) => 1.15
    case Some(Good) => 1.0
    case Some(Excellent) => 0.85
  }

  /** `calculateRecommendedRestTime`. */
  function RecommendedRest(p: Props): int
  {
    Round((BaseRest(p.intensity) + (p.previousSetRpe - 5) * 10) as real * RecoveryMultiplier(p.recovery))
  }

  /** The base is 60 s for light work, 180 s for high and 90 s for anything else. */
  lemma BaseRestValues(intensity: string)
    ensures intensity == "light" ==> BaseRest(intensity) == 60
    ensures intensity == "high" ==> BaseRest(intensity) == 180
    ensures intensity != "light" && intensity != "high" ==> BaseRest(intensity) == 90
    ensures BaseRest(intensity) in {60, 90, 180}
  {
  }

  lemma RoundOfInteger(n: int)
    ensures Round(n as real) == n
  {
  }

  /** At RPE 5 with a good or unknown recovery the recommendation is the base rest. */
  lemma RecommendedRestAtBaseline(p: Props)
    requires p.previousSetRpe == 5
    requires p.recovery == None || p.recovery == Some(Good)
    ensures RecommendedRest(p) == BaseRest(p.intensity)
  {
    RoundOfInteger(BaseRest(p.intensity));
  }

  /** A harder previous set never shortens the recommendation. */
  lemma RecommendedRestMonotoneInRpe(p: Props, q: Props)
    requires p.intensity == q.intensity && p.recovery == q.recovery
    requires p.previousSetRpe <= q.previousSetRpe
    ensures RecommendedRest(p) <= RecommendedRest(q)
  {
    var m := RecoveryMultiplier(p.recovery);
    var a := (BaseRest(p.intensity) + (p.previousSetRpe - 5) * 10) as real;
    var b := (BaseRest(q.intensity) + (q.previousSetRpe - 5) * 10) as real;
    assert a <= b;
    assert a * m <= b * m by {
      assert (b - a) * m >= 0.0;
    }
    RoundMonotone(a * m, b * m);
  }

  /**
   * Worse recovery never shortens a non-negative unadjusted rest: poor rests at
   * least as long as fair, fair as good, good as excellent, and an unknown status
   * counts as good.
   */
  lemma RecommendedRestMonotoneInRecovery(p: Props)
    requires BaseRest(p.intensity) + (p.previousSetRpe - 5) * 10 >= 0
    ensures RecommendedRest(p.(recovery := Some(Poor))) >= RecommendedRest(p.(recovery := Some(Fair)))
    ensures RecommendedRest(p.(recovery := Some(Fair))) >= RecommendedRest(p.(recovery := Some(Good)))
    ensures RecommendedRest(p.(recovery := Some(Good))) >= RecommendedRest(p.(recovery := Some(Excellent)))
    ensures RecommendedRest(p.(recovery := None)) == RecommendedRest(p.(recovery := Some(Good)))
  {
    var x := (BaseRest(p.intensity) + (p.previousSetRpe - 5) * 10) as real;
    RoundMonotone(x * 1.15, x * 1.3);
    RoundMonotone(x * 1.0, x * 1.15);
    RoundMonotone(x * 0.85, x * 1.0);
  }

  // ---------------------------------------------------------------------------
  // Countdown transitions

  /** The interval exists exactly while the timer is active and not paused. */
  predicate Running(s: State)
  {
    s.isActive && !s.isPaused
  }

  function CompletionCalls(p: Props): seq<Callback>
  {
    if p.hasOnComplete then [OnComplete] else []
  }

  /** The state right after mounting: the effect has set the recommendation. */
  function Mounted(p: Props, appState: AppStatus): State
  {
    State(RecommendedRest(p), false, false, None, appState)
  }

  /** One firing of the one-second interval. */
  function Ticked(p: Props, s: State): Step
  {
    if !Running(s) then Step(s, [])
    else if s.timeLeft <= 1 then Step(s.(timeLeft := 0, isActive := false), CompletionCalls(p))
    else Step(s.(timeLeft := s.timeLeft - 1), [])
  }

  /** The app-state listener, called with the next state and the current time in ms. */
  function AppStateChanged(p: Props, s: State, next: AppStatus, now: int): Step
  {
    if s.appState == Active && IsAway(next) then
      Step(s.(suspendedAt := if Running(s) then Some(now) else s.suspendedAt, appState := next), [])
    else if IsAway(s.appState) && next == Active && Running(s) && s.suspendedAt.Some? && s.suspendedAt.value != 0 then
      var elapsedSeconds := (now - s.suspendedAt.value) / MsPerSecond;
      var newTime := if s.timeLeft - elapsedSeconds < 0 then 0 else s.timeLeft - elapsedSeconds;
      var completes := newTime == 0 && p.hasOnComplete;
      Step(
        s.(timeLeft := newTime, isActive := s.isActive && !completes, suspendedAt := None, appState := next),
        if completes then [OnComplete] else [])
    else
      Step(s.(appState := next), [])
  }

  function Started(s: State): State { s.(isActive := true, isPaused := false) }
  function Paused(s: State): State { s.(isPaused := true) }
  function Resumed(s: State): State { s.(isPaused := false) }

  function WasReset(p: Props, s: State): State
  {
    s.(timeLeft := RecommendedRest(p), isActive := false, isPaused := false)
  }

  function Skipped(p: Props, s: State): Step
  {
    Step(s, if p.hasOnSkip then [OnSkip] else [])
  }

  /** The dependencies of the effect that loads the recommendation: intensity, RPE and recovery status. */
  function KeyInputs(p: Props): (string, int, Option<Status>)
  {
    (p.intensity, p.previousSetRpe, p.recovery)
  }

  /**
   * A re-render with props `p` after props `prev`: the effect reloads the
   * recommendation only when one of its dependencies changed.
   */
  function PropsChanged(prev: Props, p: Props, s: State): State
  {
    if KeyInputs(prev) != KeyInputs(p) then s.(timeLeft := RecommendedRest(p)) else s
  }

  /** `n` interval firings in a row, with the callbacks of all of them. */
  function Ticks(p: Props, s: State, n: nat): Step
    decreases n
  {
    if n == 0 then Step(s, [])
    else
      var first := Ticked(p, s);
      var rest := Ticks(p, first.state, n - 1);
      Step(rest.state, first.calls + rest.calls)
  }

  // ---------------------------------------------------------------------------
  // Properties of the countdown

  /**
   * A tick changes nothing unless the timer runs; when it runs, it lowers the time
   * by one, or, at one second or less, sets it to 0, stops the timer and completes.
   */
  lemma TickedSpec(p: Props, s: State)
    ensures !Running(s) ==> Ticked(p, s) == Step(s, [])
    ensures Running(s) && s.timeLeft > 1 ==>
      Ticked(p, s).state == s.(timeLeft := s.timeLeft - 1) && Ticked(p, s).calls == []
    ensures Running(s) && s.timeLeft <= 1 ==>
      && Ticked(p, s).state.timeLeft == 0
      && !Ticked(p, s).state.isActive
      && Ticked(p, s).calls == CompletionCalls(p)
  {
  }

  /** Fewer than `timeLeft` ticks of a running timer count down by exactly that many seconds. */
  lemma {:induction false} TicksBeforeCompletion(p: Props, s: State, k: nat)
    requires Running(s) && k < s.timeLeft
    ensures Ticks(p, s, k) == Step(s.(timeLeft := s.timeLeft - k), [])
    decreases k
  {
    if k > 0 {
      var s' := Ticked(p, s).state;
      assert s' == s.(timeLeft := s.timeLeft - 1);
      TicksBeforeCompletion(p, s', k - 1);
    }
  }

  /** A timer that does not run ignores any number of ticks. */
  lemma {:induction false} TicksWhileStopped(p: Props, s: State, n: nat)
    requires !Running(s)
    ensures Ticks(p, s, n) == Step(s, [])
  {
    if n > 0 {
      TicksWhileStopped(p, s, n - 1);
    }
  }

  /**
   * From `t >= 1` seconds, exactly `t` uninterrupted ticks reach 0 and stop the
   * timer, and any number of ticks from `t` on completes exactly once.
   */
  lemma CountdownCompletesOnce(p: Props, s: State, n: nat)
    requires Running(s) && s.timeLeft >= 1 && n >= s.timeLeft
    ensures Ticks(p, s, n).state == s.(timeLeft := 0, isActive := false)
    ensures Ticks(p, s, n).calls == CompletionCalls(p)
    ensures Ticks(p, s, s.timeLeft - 1).state.timeLeft == 1
  {
    var t := s.timeLeft;
    TicksBeforeCompletion(p, s, t - 1);
    var last := s.(timeLeft := 1);
    TicksSplit(p, s, t - 1, n - (t - 1));
    var done := s.(timeLeft := 0, isActive := false);
    assert Ticked(p, last) == Step(done, CompletionCalls(p));
    TicksWhileStopped(p, done, n - t);
    assert Ticks(p, last, n - (t - 1)) == Step(done, CompletionCalls(p) + []);
  }

  /** Ticking `j` then `k` times is ticking `j + k` times. */
  lemma {:induction false} TicksSplit(p: Props, s: State, j: nat, k: nat)
    ensures Ticks(p, s, j + k).state == Ticks(p, Ticks(p, s, j).state, k).state
    ensures Ticks(p, s, j + k).calls == Ticks(p, s, j).calls + Ticks(p, Ticks(p, s, j).state, k).calls
    decreases j
  {
    if j > 0 {
      var first := Ticked(p, s);
      TicksSplit(p, first.state, j - 1, k);
      assert first.calls + (Ticks(p, first.state, j - 1).calls + Ticks(p, Ticks(p, s, j).state, k).calls)
        == (first.calls + Ticks(p, first.state, j - 1).calls) + Ticks(p, Ticks(p, s, j).state, k).calls;
    }
  }

  /** While paused, the countdown keeps its time whatever the number of ticks; resuming continues from there. */
  lemma PausedKeepsTime(p: Props, s: State, n: nat)
    ensures Ticks(p, Paused(s), n) == Step(Paused(s), [])
    ensures Resumed(Paused(s)).timeLeft == s.timeLeft
  {
    TicksWhileStopped(p, Paused(s), n);
  }

  /**
   * Going to the background stores the time only for a running timer; nothing
   * else changes and nothing is called.
   */
  lemma GoingAwaySpec(p: Props, s: State, next: AppStatus, now: int)
    requires s.appState == Active && IsAway(next)
    ensures AppStateChanged(p, s, next, now).calls == []
    ensures AppStateChanged(p, s, next, now).state.suspendedAt == (if Running(s) then Some(now) else s.suspendedAt)
    ensures AppStateChanged(p, s, next, now).state.(suspendedAt := s.suspendedAt, appState := s.appState) == s
  {
  }

  /**
   * Coming back to the foreground subtracts the whole elapsed seconds, clamped at 0,
   * so the time left never becomes negative; the timer is stopped, and completes,
   * only when it reached 0 and there is a completion callback. The stored time is
   * cleared.
   */
  lemma ForegroundCorrection(p: Props, s: State, now: int)
    requires IsAway(s.appState) && Running(s) && s.suspendedAt.Some? && s.suspendedAt.value != 0
    ensures var r := AppStateChanged(p, s, Active, now);
      var elapsed := (now - s.suspendedAt.value) / 1000;
      && r.state.timeLeft == (if s.timeLeft - elapsed < 0 then 0 else s.timeLeft - elapsed)
      && r.state.timeLeft >= 0
      && r.state.suspendedAt == None
      && r.state.appState == Active
      && r.state.isPaused == s.isPaused
      && (!r.state.isActive <==> r.state.timeLeft == 0 && p.hasOnComplete)
      && (r.calls == [OnComplete] <==> !r.state.isActive)
      && (r.calls == [] <==> r.state.isActive)
  {
  }

  /** Without a stored time, or for a timer that does not run, coming back only records the new app state. */
  lemma ForegroundWithoutCorrection(p: Props, s: State, now: int)
    requires IsAway(s.appState)
    requires !Running(s) || s.suspendedAt == None || s.suspendedAt == Some(0)
    ensures AppStateChanged(p, s, Active, now) == Step(s.(appState := Active), [])
  {
  }

  /** No event drives a non-negative time below 0, provided the recommendation is non-negative. */
  lemma TimeLeftStaysNonNegative(p: Props, s: State, next: AppStatus, now: int)
    requires s.timeLeft >= 0 && RecommendedRest(p) >= 0
    ensures Ticked(p, s).state.timeLeft >= 0
    ensures AppStateChanged(p, s, next, now).state.timeLeft >= 0
    ensures Started(s).timeLeft >= 0 && Paused(s).timeLeft >= 0 && Resumed(s).timeLeft >= 0
    ensures WasReset(p, s).timeLeft >= 0 && Skipped(p, s).state.timeLeft >= 0
    ensures forall prev: Props :: PropsChanged(prev, p, s).timeLeft >= 0
  {
  }

  /**
   * A re-render that keeps intensity, RPE and recovery status (for instance one
   * that only passes new callbacks) leaves the countdown exactly as it was; one
   * that changes any of them reloads the recommendation and touches nothing else.
   * Either way the time left afterwards agrees with the recommendation of the new
   * props whenever it agreed with that of the old ones.
   */
  lemma PropsChangedSpec(prev: Props, p: Props, s: State)
    ensures KeyInputs(prev) == KeyInputs(p) ==> PropsChanged(prev, p, s) == s
    ensures KeyInputs(prev) != KeyInputs(p) ==>
      PropsChanged(prev, p, s) == s.(timeLeft := RecommendedRest(p))
    ensures s.timeLeft == RecommendedRest(prev) ==> PropsChanged(prev, p, s).timeLeft == RecommendedRest(p)
  {
  }

  // ---------------------------------------------------------------------------
  // Default props

  /** The props of a timer rendered without intensity or RPE: moderate, RPE 7. */
  function DefaultProps(recovery: Option<Status>, hasOnComplete: bool, hasOnSkip: bool): Props
  {
    Props("moderate", 7, recovery, hasOnComplete, hasOnSkip)
  }

  /**
   * Without intensity and RPE the recommendation is the moderate base of 90 s plus
   * 20 s for RPE 7, scaled by the recovery multiplier: 110 s for a good or unknown
   * status, 143 s for poor, 127 s for fair and 94 s for excellent. The fair value
   * is the exact product 126.5 rounded half up; in double precision 110 * 1.15 is
   * just below 126.5, so the program shows 126 s there.
   */
  lemma DefaultRecommendation(recovery: Option<Status>, hasOnComplete: bool, hasOnSkip: bool)
    ensures RecommendedRest(DefaultProps(recovery, hasOnComplete, hasOnSkip)) == Round(110.0 * RecoveryMultiplier(recovery))
    ensures recovery == None || recovery == Some(Good) ==> RecommendedRest(DefaultProps(recovery, hasOnComplete, hasOnSkip)) == 110
    ensures recovery == Some(Poor) ==> RecommendedRest(DefaultProps(recovery, hasOnComplete, hasOnSkip)) == 143
    ensures recovery == Some(Fair) ==> RecommendedRest(DefaultProps(recovery, hasOnComplete, hasOnSkip)) == 127
    ensures recovery == Some(Excellent) ==> RecommendedRest(DefaultProps(recovery, hasOnComplete, hasOnSkip)) == 94
  {
    BaseRestValues("moderate");
  }

  /** Reset restores the recommendation with the timer stopped and unpaused; skip only calls `onSkip`. */
  lemma ResetAndSkip(p: Props, s: State)
    ensures WasReset(p, s).timeLeft == RecommendedRest(p)
    ensures !WasReset(p, s).isActive && !WasReset(p, s).isPaused
    ensures WasReset(p, s).suspendedAt == s.suspendedAt && WasReset(p, s).appState == s.appState
    ensures Skipped(p, s).state == s
    ensures Skipped(p, s).calls == (if p.hasOnSkip then [OnSkip] else [])
  {
  }

  /** A reset timer ignores ticks until it is started again. */
  lemma ResetTimerIsIdle(p: Props, s: State, n: nat)
    ensures Ticks(p, WasReset(p, s), n) == Step(WasReset(p, s), [])
  {
    TicksWhileStopped(p, WasReset(p, s), n);
  }

  // ---------------------------------------------------------------------------
  // The component, as an object whose state the handlers update in place

  class Timer {
    var props: Props
    var timeLeft: int
    var isActive: bool
    var isPaused: bool
    var suspendedAt: Option<int>
    var appState: AppStatus

    function Current(): State
      reads this
    {
      State(timeLeft, isActive, isPaused, suspendedAt, appState)
    }

    /** Mounting: `timeLeft` starts at `initialTime` and the first effect replaces it by the recommendation. */
    constructor (props: Props, initialTime: int, appState: AppStatus)
      ensures this.props == props
      ensures Current() == Mounted(props, appState)
    {
      this.props := props;
      this.timeLeft := initialTime;
      this.isActive := false;
      this.isPaused := false;
      this.suspendedAt := None;
      this.appState := appState;
      new;
      timeLeft := RecommendedRest(props);
    }

    method Tick() returns (calls: seq<Callback>)
      modifies this
      ensures props == old(props)
      ensures Current() == Ticked(props, old(Current())).state
      ensures calls == Ticked(props, old(Current())).calls
    {
      calls := [];
      if isActive && !isPaused {
        if timeLeft <= 1 {
          timeLeft := 0;
          isActive := false;
          if props.hasOnComplete {
            calls := [OnComplete];
          }
        } else {
          timeLeft := timeLeft - 1;
        }
      }
    }

    method ChangeAppState(next: AppStatus, now: int) returns (calls: seq<Callback>)
      modifies this
      ensures props == old(props)
      ensures Current() == AppStateChanged(props, old(Current()), next, now).state
      ensures calls == AppStateChanged(props, old(Current()), next, now).calls
    {
      calls := [];
      if appState == Active && IsAway(next) {
        if isActive && !isPaused {
          suspendedAt := Some(now);
        }
      } else if IsAway(appState) && next == Active {
        if isActive && !isPaused && suspendedAt.Some? && suspendedAt.value != 0 {
          var elapsedSeconds := (now - suspendedAt.value) / MsPerSecond;
          var newTime := if timeLeft - elapsedSeconds < 0 then 0 else timeLeft - elapsedSeconds;
          if newTime == 0 && props.hasOnComplete {
            calls := [OnComplete];
            isActive := false;
          }
          timeLeft := newTime;
          suspendedAt := None;
        }
      }
      appState := next;
    }

    method Start()
      modifies this
      ensures props == old(props)
      ensures Current() == Started(old(Current()))
    {
      isActive := true;
      isPaused := false;
    }

    method Pause()
      modifies this
      ensures props == old(props)
      ensures Current() == Paused(old(Current()))
    {
      isPaused := true;
    }

    method Resume()
      modifies this
      ensures props == old(props)
      ensures Current() == Resumed(old(Current()))
    {
      isPaused := false;
    }

    method Reset()
      modifies this
      ensures props == old(props)
      ensures Current() == WasReset(props, old(Current()))
    {
      timeLeft := RecommendedRest(props);
      isActive := false;
      isPaused := false;
    }

    method Skip() returns (calls: seq<Callback>)
      ensures calls == Skipped(props, Current()).calls
    {
      calls := if props.hasOnSkip then [OnSkip] else [];
    }

    /** A re-render with new props; the recommendation reloads only when its dependencies changed. */
    method ChangeProps(p: Props)
      modifies this
      ensures props == p
      ensures Current() == PropsChanged(old(props), p, old(Current()))
    {
      if (p.intensity, p.previousSetRpe, p.recovery) != (props.intensity, props.previousSetRpe, props.recovery) {
        timeLeft := RecommendedRest(p);
      }
      props := p;
    }
  }
}
