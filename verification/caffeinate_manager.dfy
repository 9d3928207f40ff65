/**
 * The macOS app's session manager (Caffeinator/ViewModels/CaffeinateManager.swift): it runs one
 * `/usr/bin/caffeinate` child at a time, counts down fixed sessions once a second and reacts to
 * the child's exit and to the exit of a watched application.
 *
 * The operating system enters as data: a launch either yields a process identifier or fails,
 * the clock is an integer count of milliseconds, and the three asynchronous callbacks (the
 * one-second timer, the child's termination handler and the watched-process notification) are
 * methods the environment calls.
 */
module SessionManager {
  import opened Wrappers
  import opened IntMath
  import opened Text
  import opened CaffeinateModes
  import opened Durations

  /** What `Process.run()` did. */
  datatype LaunchOutcome = Launched(pid: nat) | LaunchFailed

  /** A running `caffeinate` child and the arguments it was started with. */
  datatype Child = Child(pid: nat, arguments: seq<string>)

  /** `-t <seconds>` for a session with a length, nothing for an indefinite one. */
  function LengthArguments(seconds: Option<int>): (args: seq<string>)
    ensures seconds.None? <==> args == []
  {
    if seconds.Some? then ["-t", IntToString(seconds.value)] else []
  }

  /** `Date().addingTimeInterval(seconds)` on the millisecond clock; no end time for an indefinite session. */
  function EndTime(now: int, seconds: Option<int>): Option<int> {
    if seconds.Some? then Some(now + seconds.value * 1000) else None
  }

  /** The argument vector of `/usr/bin/caffeinate` for a session. */
  function SessionArguments(modes: set<Mode>, seconds: Option<int>): seq<string> {
    Flags(modes) + LengthArguments(seconds)
  }

  /**
   * A session's arguments are the flag of every mode once, in some order, then `-t <seconds>`
   * exactly when the session has a length.
   */
  lemma SessionArgumentsShape(modes: set<Mode>, seconds: Option<int>)
    ensures var args := SessionArguments(modes, seconds);
      && |args| == |modes| + (if seconds.Some? then 2 else 0)
      && IsFlagListOf(args[..|modes|], modes)
      && args[|modes|..] == LengthArguments(seconds)
  {
    FlagsListEachModeOnce(modes);
    var args := SessionArguments(modes, seconds);
    assert args[..|modes|] == Flags(modes);
  }

  /** The value after `-t` reads back as the session's length in seconds. */
  lemma SessionLengthReadsBack(modes: set<Mode>, seconds: int)
    requires InInt64(seconds)
    ensures var args := SessionArguments(modes, Some(seconds));
      |args| == |modes| + 2 && args[|modes|] == "-t" && ParseInt(args[|modes| + 1]) == Some(seconds)
  {
    SessionArgumentsShape(modes, Some(seconds));
    ParseIntOfIntToString(seconds);
  }

  /** A tick ends the session exactly when less than one whole second is left before the end time. */
  lemma TickExpiresWithinLastSecond(endTime: int, now: int)
    ensures Quot(endTime - now, 1000) <= 0 <==> endTime - now < 1000
    ensures Quot(endTime - now, 1000) > 0 ==> Quot(endTime - now, 1000) * 1000 <= endTime - now
  {
  }

  class CaffeinateManager {
    var isActive: bool
    var remainingSeconds: Option<int>
    var activeModes: set<Mode>
    var activeDuration: Option<Duration>
    var watchedProcessName: Option<string>
    /** The child the manager holds (`process`). */
    var process: Option<Child>
    /** Whether the one-second timer is scheduled (`timer != nil`). */
    var timerRunning: bool
    /** When a fixed session ends, in milliseconds. */
    var endTime: Option<int>
    /** How many `caffeinateExpired` notifications have been posted. */
    var expiredPosts: nat
    /** Every argument vector handed to `Process.run()`, in order. */
    var launches: seq<seq<string>>
    /** The children sent `terminate()`, in order. */
    var terminations: seq<nat>

    /** The manager's invariant: what an active session holds, and that nothing lingers once it is over. */
    predicate Valid()
      reads this
    {
      && (isActive ==>
            && process.Some? && activeModes != {} && activeDuration.Some?
            && process.value.arguments == SessionArguments(activeModes, Seconds(activeDuration.value)))
      && (!isActive ==>
            remainingSeconds.None? && endTime.None? && activeModes == {} && activeDuration.None? && watchedProcessName.None?)
      && (timerRunning <==> endTime.Some?)
      && (endTime.Some? ==> isActive && remainingSeconds.Some? && Seconds(activeDuration.value).Some?)
      && (isActive && Seconds(activeDuration.value).None? ==> remainingSeconds.None? && endTime.None?)
      && (watchedProcessName.Some? ==> activeDuration == Some(Indefinite))
    }

    /** No session, no child, no timer. */
    predicate Cleared()
      reads this
    {
      && !isActive && remainingSeconds.None? && endTime.None? && activeModes == {}
      && activeDuration.None? && watchedProcessName.None? && process.None? && !timerRunning
    }

    constructor()
      ensures Valid() && Cleared()
      ensures expiredPosts == 0 && launches == [] && terminations == []
    {
      isActive := false;
      remainingSeconds := None;
      activeModes := {};
      activeDuration := None;
      watchedProcessName := None;
      process := None;
      timerRunning := false;
      endTime := None;
      expiredPosts := 0;
      launches := [];
      terminations := [];
    }

    /** The effect of `deactivate()`: the held child is terminated and everything is reset. */
    twostate predicate DeactivatedFrom()
      reads this
    {
      && Cleared()
      && terminations == old(terminations) + (if old(process).Some? then [old(process).value.pid] else [])
      && launches == old(launches)
      && expiredPosts == old(expiredPosts)
    }

    /** Stops the child and the timer and resets every field. */
    method Deactivate()
      modifies this
      ensures Valid() && DeactivatedFrom()
    {
      timerRunning := false;
      if process.Some? {
        terminations := terminations + [process.value.pid];
      }
      process := None;
      isActive := false;
      remainingSeconds := None;
      endTime := None;
      activeModes := {};
      activeDuration := None;
      watchedProcessName := None;
    }

    /** Deactivating twice does no more than deactivating once. */
    method DeactivateTwice()
      modifies this
      ensures Valid() && DeactivatedFrom()
    {
      Deactivate();
      Deactivate();
    }

    /**
     * The effect of `activate(duration:modes:)` at time `now`: the previous session is torn down;
     * with no modes nothing is launched; otherwise one launch with the session arguments, and on
     * success the new session with its end time and countdown when it has a length.
     */
    twostate predicate ActivatedFrom(duration: Duration, modes: set<Mode>, now: int, outcome: LaunchOutcome)
      reads this
    {
      var seconds := Seconds(duration);
      var torn := old(terminations) + (if old(process).Some? then [old(process).value.pid] else []);
      && terminations == torn
      && expiredPosts == old(expiredPosts)
      && (modes == {} ==> launches == old(launches) && Cleared())
      && (modes != {} ==>
            && launches == old(launches) + [SessionArguments(modes, seconds)]
            && (outcome.LaunchFailed? ==> Cleared())
            && (outcome.Launched? ==>
                  && isActive
                  && process == Some(Child(outcome.pid, SessionArguments(modes, seconds)))
                  && activeModes == modes
                  && activeDuration == Some(duration)
                  && watchedProcessName.None?
                  && remainingSeconds == seconds
                  && endTime == EndTime(now, seconds)
                  && timerRunning == seconds.Some?))
    }

    /** Starts a session of the given length keeping the given modes. */
    method Activate(duration: Duration, modes: set<Mode>, now: int, outcome: LaunchOutcome)
      modifies this
      ensures Valid() && ActivatedFrom(duration, modes, now, outcome)
    {
      Deactivate();
      if modes == {} {
        return;
      }
      var arguments := SessionArguments(modes, Seconds(duration));
      Launch(arguments, modes, duration, None, now, outcome);
    }

    /**
     * Starts an indefinite session tied to a watched application: the child gets the mode flags
     * only, never `-t`.
     */
    method ActivateForProcess(modes: set<Mode>, processName: string, outcome: LaunchOutcome)
      modifies this
      ensures Valid()
      ensures terminations == old(terminations) + (if old(process).Some? then [old(process).value.pid] else [])
      ensures expiredPosts == old(expiredPosts)
      ensures modes == {} ==> launches == old(launches) && Cleared()
      ensures modes != {} ==>
        && launches == old(launches) + [SessionArguments(modes, None)]
        && (outcome.LaunchFailed? ==> Cleared())
        && (outcome.Launched? ==>
              && isActive
              && process == Some(Child(outcome.pid, SessionArguments(modes, None)))
              && activeModes == modes
              && activeDuration == Some(Indefinite)
              && watchedProcessName == Some(processName)
              && remainingSeconds.None? && endTime.None? && !timerRunning)
    {
      Deactivate();
      if modes == {} {
        return;
      }
      var arguments := SessionArguments(modes, None);
      Launch(arguments, modes, Indefinite, Some(processName), 0, outcome);
    }

    /**
     * The `try process.run()` step shared by both activations, from the cleared state: the launch
     * is recorded, and on success the session is published, with an end time and a running timer
     * exactly when it has a length.
     */
    method Launch(arguments: seq<string>, modes: set<Mode>, duration: Duration, watched: Option<string>,
                  now: int, outcome: LaunchOutcome)
      requires Cleared() && modes != {} && arguments == SessionArguments(modes, Seconds(duration))
      requires watched.Some? ==> duration == Indefinite
      modifies this
      ensures Valid()
      ensures launches == old(launches) + [arguments]
      ensures terminations == old(terminations) && expiredPosts == old(expiredPosts)
      ensures outcome.LaunchFailed? ==> Cleared()
      ensures outcome.Launched? ==>
        && isActive
        && process == Some(Child(outcome.pid, arguments))
        && activeModes == modes
        && activeDuration == Some(duration)
        && watchedProcessName == watched
        && remainingSeconds == Seconds(duration)
        && endTime == EndTime(now, Seconds(duration))
        && timerRunning == Seconds(duration).Some?
    {
      launches := launches + [arguments];
      if outcome.Launched? {
        Publish(Child(outcome.pid, arguments), modes, duration, watched, now);
      }
    }

    /** The successful branch of the launch: the session's fields are published. */
    method Publish(child: Child, modes: set<Mode>, duration: Duration, watched: Option<string>, now: int)
      requires Cleared() && modes != {} && child.arguments == SessionArguments(modes, Seconds(duration))
      requires watched.Some? ==> duration == Indefinite
      modifies this
      ensures Valid()
      ensures launches == old(launches) && terminations == old(terminations) && expiredPosts == old(expiredPosts)
      ensures isActive && process == Some(child) && activeModes == modes && activeDuration == Some(duration)
      ensures watchedProcessName == watched && remainingSeconds == Seconds(duration)
      ensures endTime == EndTime(now, Seconds(duration))
      ensures timerRunning == Seconds(duration).Some?
    {
      var seconds := Seconds(duration);
      process := Some(child);
      isActive := true;
      activeModes := modes;
      activeDuration := Some(duration);
      watchedProcessName := watched;
      if seconds.Some? {
        endTime := EndTime(now, seconds);
        remainingSeconds := seconds;
        timerRunning := true;
      }
    }

    /** Ends an active session, or starts one. */
    method Toggle(duration: Duration, modes: set<Mode>, now: int, outcome: LaunchOutcome)
      modifies this
      ensures Valid()
      ensures old(isActive) ==> DeactivatedFrom()
      ensures !old(isActive) ==> ActivatedFrom(duration, modes, now, outcome)
    {
      if isActive {
        Deactivate();
      } else {
        Activate(duration, modes, now, outcome);
      }
    }

    /**
     * The timer callback at time `now`: without an end time nothing happens; when less than a
     * whole second is left the session ends and one expiry is posted; otherwise the countdown
     * shows the whole seconds left, which are positive.
     */
    method Tick(now: int)
      requires Valid()
      modifies this
      ensures Valid()
      ensures old(endTime).None? ==> unchanged(this)
      ensures old(endTime).Some? && old(endTime).value - now < 1000 ==>
        DeactivatedFrom'(old(expiredPosts) + 1)
      ensures old(endTime).Some? && old(endTime).value - now >= 1000 ==>
        && remainingSeconds == Some(Quot(old(endTime).value - now, 1000))
        && remainingSeconds.value > 0
        && isActive == old(isActive) && activeModes == old(activeModes) && activeDuration == old(activeDuration)
        && watchedProcessName == old(watchedProcessName) && process == old(process) && endTime == old(endTime)
        && timerRunning == old(timerRunning) && expiredPosts == old(expiredPosts)
        && launches == old(launches) && terminations == old(terminations)
    {
      if endTime.None? {
        return;
      }
      TickExpiresWithinLastSecond(endTime.value, now);
      var remaining := Quot(endTime.value - now, 1000);
      if remaining <= 0 {
        remainingSeconds := Some(0);
        Deactivate();
        expiredPosts := expiredPosts + 1;
      } else {
        remainingSeconds := Some(remaining);
      }
    }

    /** `deactivate()` followed by posting `posts - old(expiredPosts)` expiries. */
    twostate predicate DeactivatedFrom'(posts: nat)
      reads this
    {
      && Cleared()
      && terminations == old(terminations) + (if old(process).Some? then [old(process).value.pid] else [])
      && launches == old(launches)
      && expiredPosts == posts
    }

    /**
     * The child's termination handler, as written: it does not look at which child ended. It
     * clears the published session and the timer, keeps the reference to the child, and posts an
     * expiry only when a session was active.
     */
    method HandleTermination(pid: nat)
      requires Valid()
      modifies this
      ensures Valid()
      ensures !isActive && remainingSeconds.None? && endTime.None? && !timerRunning
      ensures activeModes == {} && activeDuration.None? && watchedProcessName.None?
      ensures process == old(process) && launches == old(launches) && terminations == old(terminations)
      ensures expiredPosts == old(expiredPosts) + (if old(isActive) then 1 else 0)
    {
      var wasActive := isActive;
      isActive := false;
      remainingSeconds := None;
      endTime := None;
      timerRunning := false;
      activeModes := {};
      activeDuration := None;
      watchedProcessName := None;
      if wasActive {
        expiredPosts := expiredPosts + 1;
      }
    }

    /**
     * The termination handler as evidently intended: the exit of a child other than the held
     * one (one already told to terminate by an earlier `deactivate()`) changes nothing.
     */
    method HandleTerminationOf(pid: nat)
      requires Valid()
      modifies this
      ensures Valid()
      ensures !(old(process).Some? && old(process).value.pid == pid) ==> unchanged(this)
      ensures old(process).Some? && old(process).value.pid == pid ==>
        && !isActive && remainingSeconds.None? && endTime.None? && !timerRunning
        && activeModes == {} && activeDuration.None? && watchedProcessName.None?
        && process == old(process) && launches == old(launches) && terminations == old(terminations)
        && expiredPosts == old(expiredPosts) + (if old(isActive) then 1 else 0)
    {
      if process.Some? && process.value.pid == pid {
        HandleTermination(pid);
      }
    }

    /**
     * The watched-application notification: the session ends exactly when it is tied to a
     * watched application; the name the notification carries is not looked at.
     */
    method HandleWatchedProcessTerminated(processName: Option<string>)
      requires Valid()
      modifies this
      ensures Valid()
      ensures old(watchedProcessName).Some? ==> DeactivatedFrom()
      ensures old(watchedProcessName).None? ==> unchanged(this)
    {
      if watchedProcessName.Some? {
        Deactivate();
      }
    }
  }

  /**
   * Re-activating while a session runs tears the old child down; when that child's exit is then
   * reported, the handler as written ends the NEW session and posts an expiry, while the new
   * child is still held and keeps running.
   */
  method StaleTerminationEndsNewSession() returns (active: bool, posted: nat, held: Option<Child>)
    ensures !active && posted == 1
    ensures held.Some? && held.value.pid == 2
  {
    var m := new CaffeinateManager();
    m.Activate(OneHour, {Idle}, 0, Launched(1));
    m.Activate(TwoHours, {Idle}, 10_000, Launched(2));
    assert m.terminations == [1];
    m.HandleTermination(1);
    active, posted, held := m.isActive, m.expiredPosts, m.process;
  }

  /** With the identity check, the same sequence of events leaves the new session running. */
  method StaleTerminationIgnored() returns (active: bool, posted: nat, remaining: Option<int>)
    ensures active && posted == 0 && remaining == Some(7200)
  {
    var m := new CaffeinateManager();
    m.Activate(OneHour, {Idle}, 0, Launched(1));
    m.Activate(TwoHours, {Idle}, 10_000, Launched(2));
    m.HandleTerminationOf(1);
    active, posted, remaining := m.isActive, m.expiredPosts, m.remainingSeconds;
  }
}
