/** The Tauri back end's session state and the status it reports (src-tauri/src/state.rs). */
module TauriState {
  import opened Wrappers
  import opened IntMath
  import opened Power

  /** `u64`. */
  type U64 = n: int | 0 <= n <= 0xFFFF_FFFF_FFFF_FFFF

  /** `std::time::Duration` and `Instant` differences are counted in nanoseconds. */
  const NanosPerSecond: nat := 1_000_000_000

  datatype CaffeinateStatus = CaffeinateStatus(
    isActive: bool, mode: Option<AssertionType>, remainingSeconds: Option<nat>, totalSeconds: Option<nat>)

  /** `CaffeinateStatus::default()`: inactive, with nothing else known. */
  const DefaultStatus: CaffeinateStatus := CaffeinateStatus(false, None, None, None)

  /**
   * The four fields of `AppState` read together: the held assertion (0 for none), the mode,
   * the start instant and the length, both in nanoseconds.
   */
  datatype Snapshot = Snapshot(assertionId: AssertionId, mode: Option<AssertionType>, startTime: Option<int>, duration: Option<nat>)

  /** `AppState::default()` and the state `clear` leaves. */
  const Cleared: Snapshot := Snapshot(0, None, None, None)

  /** `Instant::elapsed`: the time since `start`, never negative. */
  function Elapsed(start: int, now: int): nat {
    if now >= start then now - start else 0
  }

  /** Whole seconds of a span (`Duration::as_secs`). */
  function AsSecs(nanos: nat): nat {
    nanos / NanosPerSecond
  }

  /** The seconds left of a session started at `start` lasting `dur`: 0 once it is over, else the whole seconds left. */
  function RemainingOf(start: int, dur: nat, now: int): nat {
    var elapsed := Elapsed(start, now);
    if elapsed >= dur then 0 else AsSecs(dur - elapsed)
  }

  /** `get_status` on a snapshot at time `now`. */
  function StatusOf(s: Snapshot, now: int): (r: CaffeinateStatus)
    ensures r.isActive <==> s.assertionId != 0
    ensures r.mode == s.mode
    ensures r.remainingSeconds.Some? <==> s.assertionId != 0 && s.startTime.Some? && s.duration.Some?
    ensures r.totalSeconds == if s.duration.Some? then Some(AsSecs(s.duration.value)) else None
  {
    var isActive := s.assertionId != 0;
    var remaining :=
      if isActive && s.startTime.Some? && s.duration.Some? then Some(RemainingOf(s.startTime.value, s.duration.value, now))
      else None;
    CaffeinateStatus(isActive, s.mode, remaining, if s.duration.Some? then Some(AsSecs(s.duration.value)) else None)
  }

  /** `is_expired`: a start and a length are both set and the length has elapsed. */
  predicate IsExpiredAt(s: Snapshot, now: int) {
    s.startTime.Some? && s.duration.Some? && Elapsed(s.startTime.value, now) >= s.duration.value
  }

  /** The default state, and the state after `clear`, report the default status at any time. */
  lemma ClearedReportsDefault(now: int)
    ensures StatusOf(Cleared, now) == DefaultStatus
  {
  }

  /**
   * For an active fixed session the remaining seconds are 0 once the length has elapsed, and
   * otherwise the whole seconds of what is left, which never exceed the length.
   */
  lemma RemainingWithinLength(start: int, durSecs: U64, now: int)
    ensures var dur := durSecs * NanosPerSecond;
      && RemainingOf(start, dur, now) <= durSecs
      && (Elapsed(start, now) >= dur ==> RemainingOf(start, dur, now) == 0)
      && (Elapsed(start, now) < dur ==>
            RemainingOf(start, dur, now) * NanosPerSecond <= dur - Elapsed(start, now) < (RemainingOf(start, dur, now) + 1) * NanosPerSecond)
  {
    var dur := durSecs * NanosPerSecond;
    var e := Elapsed(start, now);
    if e < dur {
      var left := dur - e;
      DivModUnique(dur, NanosPerSecond, durSecs, 0);
      assert left / NanosPerSecond <= dur / NanosPerSecond by {
        DivMonotone(left, dur, NanosPerSecond);
      }
    }
  }

  lemma DivMonotone(a: nat, b: nat, d: nat)
    requires a <= b && d > 0
    ensures a / d <= b / d
  {
    if a / d > b / d {
      assert (a / d) * d >= (b / d + 1) * d by {
        MulMonotone(b / d + 1, a / d, d);
      }
    }
  }

  lemma MulMonotone(x: int, y: int, d: nat)
    requires x <= y
    ensures x * d <= y * d
  {
  }

  /** The remaining seconds never go up as time goes on. */
  lemma RemainingNeverIncreases(start: int, dur: nat, now1: int, now2: int)
    requires now1 <= now2
    ensures RemainingOf(start, dur, now2) <= RemainingOf(start, dur, now1)
  {
    var e1, e2 := Elapsed(start, now1), Elapsed(start, now2);
    if e2 < dur {
      DivMonotone(dur - e2, dur - e1, NanosPerSecond);
    }
  }

  /** Expiry and the reported count: an expired active session reports 0 seconds, and an indefinite one never expires. */
  lemma ExpiryAndStatus(s: Snapshot, now: int)
    ensures s.duration.None? || s.startTime.None? ==> !IsExpiredAt(s, now)
    ensures IsExpiredAt(s, now) && s.assertionId != 0 ==> StatusOf(s, now).remainingSeconds == Some(0)
  {
  }

  /**
   * A report of 0 seconds does not mean expiry: in the last second of a session the count is
   * already 0 while `is_expired` is still false.
   */
  lemma ZeroReportedBeforeExpiry()
    ensures var s := Snapshot(1, Some(NoIdleSleep), Some(0), Some(60 * NanosPerSecond));
      && StatusOf(s, 59 * NanosPerSecond + 1).remainingSeconds == Some(0)
      && !IsExpiredAt(s, 59 * NanosPerSecond + 1)
  {
    var s := Snapshot(1, Some(NoIdleSleep), Some(0), Some(60 * NanosPerSecond));
    var now := 59 * NanosPerSecond + 1;
    assert Elapsed(0, now) == now;
    assert AsSecs(60 * NanosPerSecond - now) == 0;
  }

  class AppState {
    var assertionId: AssertionId
    var mode: Option<AssertionType>
    var startTime: Option<int>
    var duration: Option<nat>

    function Current(): Snapshot
      reads this
    {
      Snapshot(assertionId, mode, startTime, duration)
    }

    /** `AppState::default()`. */
    constructor()
      ensures Current() == Cleared
    {
      assertionId := 0;
      mode := None;
      startTime := None;
      duration := None;
    }

    method GetStatus(now: int) returns (status: CaffeinateStatus)
      ensures status == StatusOf(Current(), now)
    {
      var isActive := assertionId != 0;
      var remaining: Option<nat> := None;
      if isActive {
        if startTime.Some? && duration.Some? {
          var elapsed := Elapsed(startTime.value, now);
          if elapsed >= duration.value {
            remaining := Some(0);
          } else {
            remaining := Some(AsSecs(duration.value - elapsed));
          }
        }
      }
      var total: Option<nat> := if duration.Some? then Some(AsSecs(duration.value)) else None;
      status := CaffeinateStatus(isActive, mode, remaining, total);
    }

    /** Stores the identifier, the mode, the current time and the length; nothing else changes. */
    method SetActive(id: AssertionId, m: AssertionType, durationSecs: Option<U64>, now: int)
      modifies this
      ensures Current() == Snapshot(id, Some(m), Some(now),
        if durationSecs.Some? then Some(durationSecs.value * NanosPerSecond) else None)
    {
      assertionId := id;
      mode := Some(m);
      startTime := Some(now);
      duration := if durationSecs.Some? then Some(durationSecs.value * NanosPerSecond) else None;
    }

    method Clear()
      modifies this
      ensures Current() == Cleared
    {
      assertionId := 0;
      mode := None;
      startTime := None;
      duration := None;
    }

    function GetAssertionId(): AssertionId
      reads this
    {
      assertionId
    }

    predicate IsExpired(now: int)
      reads this
    {
      IsExpiredAt(Current(), now)
    }
  }

  /** Right after `set_active` the status is active with the mode, the full length left and the length as total. */
  lemma StatusAfterSetActive(id: AssertionId, m: AssertionType, durationSecs: Option<U64>, now: int)
    requires id != 0
    ensures var s := Snapshot(id, Some(m), Some(now),
        if durationSecs.Some? then Some(durationSecs.value * NanosPerSecond) else None);
      StatusOf(s, now) == CaffeinateStatus(true, Some(m), durationSecs, durationSecs)
  {
    if durationSecs.Some? {
      DivModUnique(durationSecs.value * NanosPerSecond, NanosPerSecond, durationSecs.value, 0);
    }
  }
}
