/**
 * The rest timer overlay shown between sets: it counts down from `duration` as
 * soon as it is mounted, can be paused and resumed, and calls `onComplete` when
 * it runs out or is skipped. It also shows the time as `m:ss` and a rest tip
 * for the recovery status.
 *
 * The interval is an input: a tick is one firing of the one-second interval,
 * and `ticking` says whether an interval is installed.
 */
module WorkoutRestTimer {
  import opened Common

  /** The countdown state: seconds left, the pause flag, and whether the interval is installed. */
  datatype State = State(timeLeft: int, isPaused: bool, ticking: bool)

  /** The only callback this timer invokes. */
  datatype Callback = OnComplete

  datatype Step = Step(state: State, calls: seq<Callback>)

  /** Mounting: the time is `duration` and the mount effect starts the interval at once. */
  function Mounted(duration: int): State
  {
    State(duration, false, true)
  }

  /** One firing of the interval. */
  function Ticked(s: State): Step
  {
    if !s.ticking then Step(s, [])
    else if s.timeLeft <= 1 then Step(s.(timeLeft := 0, ticking := false), [OnComplete])
    else Step(s.(timeLeft := s.timeLeft - 1), [])
  }

  /** `handlePauseResume`: resuming installs a new interval, pausing clears it. */
  function PauseResumed(s: State): State
  {
    if s.isPaused then s.(isPaused := false, ticking := true)
    else s.(isPaused := true, ticking := false)
  }

  /** `handleSkip`: clears the interval and calls the completion callback. */
  function Skipped(s: State): Step
  {
    Step(s.(ticking := false), [OnComplete])
  }

  function Ticks(s: State, n: nat): Step
    decreases n
  {
    if n == 0 then Step(s, [])
    else
      var first := Ticked(s);
      var rest := Ticks(first.state, n - 1);
      Step(rest.state, first.calls + rest.calls)
  }

  /** A tick lowers the time by one, or at one second or less sets it to 0, stops and completes. */
  lemma TickedSpec(s: State)
    ensures !s.ticking ==> Ticked(s) == Step(s, [])
    ensures s.ticking && s.timeLeft > 1 ==> Ticked(s) == Step(s.(timeLeft := s.timeLeft - 1), [])
    ensures s.ticking && s.timeLeft <= 1 ==>
      Ticked(s).state.timeLeft == 0 && !Ticked(s).state.ticking && Ticked(s).calls == [OnComplete]
  {
  }

  lemma {:induction false} TicksBeforeCompletion(s: State, k: nat)
    requires s.ticking && k < s.timeLeft
    ensures Ticks(s, k) == Step(s.(timeLeft := s.timeLeft - k), [])
    decreases k
  {
    if k > 0 {
      TicksBeforeCompletion(Ticked(s).state, k - 1);
    }
  }

  lemma {:induction false} TicksWhileStopped(s: State, n: nat)
    requires !s.ticking
    ensures Ticks(s, n) == Step(s, [])
  {
    if n > 0 {
      TicksWhileStopped(s, n - 1);
    }
  }

  /**
   * Mounted with `duration >= 1`, the timer shows `duration - k` after `k < duration`
   * ticks, and any `n >= duration` ticks reach 0, stop the interval and call
   * `onComplete` exactly once.
   */
  lemma CountdownFromMount(duration: int, n: nat)
    requires duration >= 1 && n >= duration
    ensures forall k: nat :: k < duration ==> Ticks(Mounted(duration), k) == Step(Mounted(duration).(timeLeft := duration - k), [])
    ensures Ticks(Mounted(duration), n) == Step(State(0, false, false), [OnComplete])
  {
    var s := Mounted(duration);
    forall k: nat | k < duration
      ensures Ticks(s, k) == Step(s.(timeLeft := duration - k), [])
    {
      TicksBeforeCompletion(s, k);
    }
    TicksRun(s, n);
  }

  /** From a running state with `t >= 1` seconds, any `n >= t` ticks complete exactly once. */
  lemma {:induction false} TicksRun(s: State, n: nat)
    requires s.ticking && s.timeLeft >= 1 && n >= s.timeLeft
    ensures Ticks(s, n) == Step(s.(timeLeft := 0, ticking := false), [OnComplete])
    decreases n
  {
    var first := Ticked(s);
    if s.timeLeft == 1 {
      TicksWhileStopped(first.state, n - 1);
      assert first.calls + [] == [OnComplete];
    } else {
      TicksRun(first.state, n - 1);
      assert first.calls == [];
    }
  }

  /** While paused no interval is installed, so ticks change nothing; resuming keeps the time and restarts the interval. */
  lemma PausedKeepsTime(s: State, n: nat)
    requires !s.isPaused
    ensures Ticks(PauseResumed(s), n) == Step(PauseResumed(s), [])
    ensures PauseResumed(PauseResumed(s)) == s.(ticking := true)
  {
    TicksWhileStopped(PauseResumed(s), n);
  }

  /** Skipping stops the interval and calls the same callback as running out. */
  lemma SkipCompletes(s: State, n: nat)
    ensures Skipped(s).calls == [OnComplete]
    ensures Skipped(s).state.timeLeft == s.timeLeft
    ensures Ticks(Skipped(s).state, n) == Step(Skipped(s).state, [])
  {
    TicksWhileStopped(Skipped(s).state, n);
  }

  /**
   * Completion is not final: after the countdown has run out, pausing and resuming
   * installs a new interval, and its first tick calls `onComplete` a second time.
   */
  lemma ResumeAfterCompletionCompletesAgain(duration: int)
    requires duration >= 1
    ensures var done := Ticks(Mounted(duration), duration);
      && done.calls == [OnComplete]
      && Ticked(PauseResumed(PauseResumed(done.state))).calls == [OnComplete]
  {
    TicksRun(Mounted(duration), duration);
  }

  // ---------------------------------------------------------------------------
  // Display

  /** `formatTimeLeft`: minutes by floor division, seconds by JavaScript `%`, padded to two digits. */
  function FormatTimeLeft(timeLeft: int): string
  {
    IntToString(timeLeft / 60) + ":" + PadTwo(IntToString(JsRemainder(timeLeft, 60)))
  }

  /**
   * For a non-negative time the display is `m:ss` with two seconds digits, and
   * reading it back gives minutes and seconds with `60 m + s == t` and `s < 60`.
   */
  lemma FormatTimeLeftRoundTrip(t: int)
    requires t >= 0
    ensures var m := NatToString(t / 60);
      var ss := FormatTimeLeft(t)[|m| + 1..];
      && FormatTimeLeft(t)[..|m| + 1] == m + ":"
      && |ss| == 2
      && (forall i :: 0 <= i < 2 ==> IsDigit(ss[i]))
      && ParseNat(m) * 60 + ParseNat(ss) == t
      && ParseNat(ss) < 60
  {
    var m := NatToString(t / 60);
    var ss := PadTwo(NatToString(t % 60));
    assert FormatTimeLeft(t) == m + ":" + ss;
    assert FormatTimeLeft(t)[|m| + 1..] == ss;
    assert FormatTimeLeft(t)[..|m| + 1] == m + ":";
    ParseNatToString(t / 60);
    SecondsField(t % 60);
  }

  /** The padded seconds field of `sec < 60`: two digits that read back as `sec`. */
  lemma SecondsField(sec: nat)
    requires sec < 60
    ensures |PadTwo(NatToString(sec))| == 2
    ensures forall i :: 0 <= i < 2 ==> IsDigit(PadTwo(NatToString(sec))[i])
    ensures ParseNat(PadTwo(NatToString(sec))) == sec
  {
    var digits := NatToString(sec);
    ParseNatToString(sec);
    if sec < 10 {
      assert PadTwo(digits) == "0" + digits;
      ParseNatLeadingZero(digits);
    } else {
      assert digits == NatToString(sec / 10) + [DigitChar(sec % 10)];
    }
  }

  /** The rest tips, as translation keys. */
  datatype RestTip = PoorRecoveryTip | FairRecoveryTip | GoodRecoveryTip | ExcellentRecoveryTip

  /** `getRestTip`: no tip without a recovery status, else the tip of the status. */
  function RestTipFor(recovery: Option<Status>): (r: Option<RestTip>)
    ensures r == None <==> recovery == None
    ensures r == Some(PoorRecoveryTip) <==> recovery == Some(Poor)
    ensures r == Some(FairRecoveryTip) <==> recovery == Some(Fair)
    ensures r == Some(GoodRecoveryTip) <==> recovery == Some(Good)
    ensures r == Some(ExcellentRecoveryTip) <==> recovery == Some(Excellent)
  {
    match recovery
    case None => None
    case Some(Poor) => Some(PoorRecoveryTip)
    case Some(Fair) => Some(FairRecoveryTip)
    case Some(Good) => Some(GoodRecoveryTip)
    case Some(Excellent) => Some(ExcellentRecoveryTip)
  }

  // ---------------------------------------------------------------------------
  // The component, as an object whose state the handlers update in place

  class Timer {
    var timeLeft: int
    var isPaused: bool
    var ticking: bool

    function Current(): State
      reads this
    {
      State(timeLeft, isPaused, ticking)
    }

    constructor (duration: int)
      ensures Current() == Mounted(duration)
    {
      timeLeft := duration;
      isPaused := false;
      ticking := true;
    }

    method Tick() returns (calls: seq<Callback>)
      modifies this
      ensures Current() == Ticked(old(Current())).state
      ensures calls == Ticked(old(Current())).calls
    {
      calls := [];
      if ticking {
        if timeLeft <= 1 {
          ticking := false;
          calls := [OnComplete];
          timeLeft := 0;
        } else {
          timeLeft := timeLeft - 1;
        }
      }
    }

    method PauseResume()
      modifies this
      ensures Current() == PauseResumed(old(Current()))
    {
      if isPaused {
        ticking := true;
      } else {
        ticking := false;
      }
      isPaused := !isPaused;
    }

    method Skip() returns (calls: seq<Callback>)
      modifies this
      ensures Current() == Skipped(old(Current())).state
      ensures calls == Skipped(old(Current())).calls
    {
      ticking := false;
      calls := [OnComplete];
    }
  }
}
