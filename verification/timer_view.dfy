/** The front end's countdown display (src/components/Timer.tsx). */
module TimerView {
  import opened Wrappers
  import opened Text
  import opened Power
  import opened IntMath
  import opened TauriState
  import TimeFormat

  /** `formatTime`: "h:mm:ss" once there are hours, else "m:ss". */
  function FormatTime(seconds: nat): string {
    var h := seconds / 3600;
    var m := (seconds % 3600) / 60;
    var s := seconds % 60;
    if h > 0 then IntToString(h) + ":" + Pad2(m) + ":" + Pad2(s) else IntToString(m) + ":" + Pad2(s)
  }

  /** The web countdown reads exactly like the macOS app's standard time style. */
  lemma FormatTimeIsStandardStyle(seconds: nat)
    ensures FormatTime(seconds) == TimeFormat.Format(seconds)
  {
    TimeFormat.FieldsRecompose(seconds);
    if seconds < 3600 {
      DivModUnique(seconds, 60, TimeFormat.Minutes(seconds), TimeFormat.Secs(seconds));
    }
    assert (seconds % 3600) % 60 == seconds % 60 by {
      DivModUnique(seconds, 60, (seconds / 3600) * 60 + (seconds % 3600) / 60, (seconds % 3600) % 60);
    }
  }

  /** `MODE_INFO` labels. */
  function ModeLabel(t: AssertionType): string {
    match t
    case NoIdleSleep => "Preventing idle sleep"
    case NoDisplaySleep => "Keeping display on"
    case PreventSystemSleep => "Preventing all sleep"
    case NetworkActive => "Keeping network active"
    case BackgroundTask => "Running background task"
  }

  /** Every assertion type has its own label. */
  lemma ModeLabelsDistinct(t1: AssertionType, t2: AssertionType)
    requires t1 != t2
    ensures ModeLabel(t1) != ModeLabel(t2)
  {
    assert |ModeLabel(t1)| != |ModeLabel(t2)|;
  }

  /** What the timer shows: the indefinite view, or the countdown with its optional parts. */
  datatype Screen =
    | Indefinite(caption: Option<string>)
    | Countdown(time: string, showsProgress: bool, caption: Option<string>, showsEndsAt: bool)

  function Render(remainingSeconds: Option<nat>, totalSeconds: Option<nat>, mode: Option<AssertionType>): (r: Screen)
    ensures r.Indefinite? <==> remainingSeconds.None?
    ensures r.caption.Some? <==> mode.Some?
    ensures r.Countdown? ==> (r.showsEndsAt <==> remainingSeconds.value > 0)
    ensures r.Countdown? ==> (r.showsProgress <==> totalSeconds.Some? && totalSeconds.value != 0)
  {
    var caption := if mode.Some? then Some(ModeLabel(mode.value)) else None;
    match remainingSeconds
    case None => Indefinite(caption)
    case Some(remaining) =>
      Countdown(FormatTime(remaining), totalSeconds.Some? && totalSeconds.value != 0, caption, remaining > 0)
  }

  /**
   * On a status from the back end: an active session without an end shows the indefinite view,
   * a fixed one counts down, and "Ends at" disappears once the count reaches 0.
   */
  lemma RenderOfStatus(s: Snapshot, now: int)
    requires s.assertionId != 0 && s.startTime.Some?
    ensures var st := StatusOf(s, now);
      && (s.duration.None? ==> Render(st.remainingSeconds, st.totalSeconds, st.mode).Indefinite?)
      && (s.duration.Some? ==>
            var r := Render(st.remainingSeconds, st.totalSeconds, st.mode);
            && r.Countdown?
            && (r.showsEndsAt <==> Elapsed(s.startTime.value, now) + NanosPerSecond <= s.duration.value))
  {
    if s.duration.Some? {
      var e, dur := Elapsed(s.startTime.value, now), s.duration.value;
      if e < dur {
        if dur - e >= NanosPerSecond {
          DivMonotone(NanosPerSecond, dur - e, NanosPerSecond);
        } else {
          DivModUnique(dur - e, NanosPerSecond, 0, dur - e);
        }
      }
    }
  }
}
