/** The front end's session hook (src/hooks/useCaffeinate.ts). */
module CaffeinateHook {
  import opened Wrappers
  import opened Text
  import opened Power
  import opened IntMath
  import opened TauriState
  import TimeFormat

  /** `formatTrayTime`: "h:mm" once there are hours, else "<m>m"; seconds are dropped. */
  function FormatTrayTime(seconds: nat): string {
    var h := seconds / 3600;
    var m := (seconds % 3600) / 60;
    if h > 0 then IntToString(h) + ":" + Pad2(m) else IntToString(m) + "m"
  }

  /** The tray timer reads exactly like the macOS app's compact time style. */
  lemma TrayTimeIsCompactStyle(seconds: nat)
    ensures FormatTrayTime(seconds) == TimeFormat.Format(seconds, TimeFormat.Compact)
  {
    TimeFormat.CompactFields(seconds);
  }

  /** The title `updateTrayTitle` sends for a status. */
  function TrayTitle(status: CaffeinateStatus): string {
    if !status.isActive then ""
    else if status.remainingSeconds.None? then "∞"
    else FormatTrayTime(status.remainingSeconds.value)
  }

  /** The title is empty exactly when no session is active; an active session without an end shows "∞". */
  lemma TrayTitleCases(status: CaffeinateStatus)
    ensures TrayTitle(status) == "" <==> !status.isActive
    ensures status.isActive && status.remainingSeconds.None? ==> TrayTitle(status) == "∞"
    ensures status.isActive && status.remainingSeconds.Some? && status.remainingSeconds.value < 3600 ==>
      TrayTitle(status) == IntToString(status.remainingSeconds.value / 60) + "m"
  {
    if status.isActive && status.remainingSeconds.Some? {
      var s := status.remainingSeconds.value;
      if s / 3600 > 0 {
        assert |IntToString(s / 3600)| >= 1;
      } else {
        assert |IntToString((s % 3600) / 60)| >= 1;
      }
    }
  }

  /**
   * The hook deactivates a fixed session when the back end reports 0 seconds, which happens
   * as soon as less than a whole second is left, and from then on.
   */
  lemma ReconcileTrigger(s: Snapshot, now: int)
    requires s.assertionId != 0 && s.startTime.Some? && s.duration.Some?
    ensures StatusOf(s, now).remainingSeconds == Some(0) <==>
      Elapsed(s.startTime.value, now) + NanosPerSecond > s.duration.value
  {
    var e, dur := Elapsed(s.startTime.value, now), s.duration.value;
    if e < dur {
      if dur - e >= NanosPerSecond {
        DivMonotone(NanosPerSecond, dur - e, NanosPerSecond);
      } else {
        DivModUnique(dur - e, NanosPerSecond, 0, dur - e);
      }
    }
  }

  /** The back-end commands the hook invokes, in order. */
  datatype Call =
    | GetStatus
    | DeactivateCall
    | ActivateCall(mode: AssertionType, durationSecs: Option<nat>)
    | ToggleCall(mode: AssertionType, durationSecs: Option<nat>)
    | UpdateTrayTitle(title: string)

  /** The hook's state: the React state, the two refs, and the commands sent so far. */
  class Hook {
    var status: CaffeinateStatus
    var loading: bool
    var error: Option<string>
    var statusRef: CaffeinateStatus
    var fetching: bool
    var calls: seq<Call>

    constructor()
      ensures status == DefaultStatus && statusRef == DefaultStatus
      ensures !loading && error.None? && !fetching && calls == []
    {
      status := DefaultStatus;
      loading := false;
      error := None;
      statusRef := DefaultStatus;
      fetching := false;
      calls := [];
    }

    /** Shows a status: state and ref both take it, and the tray title follows. */
    method Adopt(result: CaffeinateStatus)
      modifies this
      ensures status == result && statusRef == result
      ensures calls == old(calls) + [UpdateTrayTitle(TrayTitle(result))]
      ensures loading == old(loading) && error == old(error) && fetching == old(fetching)
    {
      status := result;
      statusRef := result;
      calls := calls + [UpdateTrayTitle(TrayTitle(result))];
    }

    /** The synchronous start of `fetchStatus`: nothing happens while another fetch is in flight. */
    method BeginFetch() returns (started: bool)
      modifies this
      ensures started <==> !old(fetching)
      ensures fetching
      ensures status == old(status) && statusRef == old(statusRef) && calls == old(calls)
      ensures loading == old(loading) && error == old(error)
    {
      if fetching {
        return false;
      }
      fetching := true;
      started := true;
    }

    /**
     * The rest of `fetchStatus`, given what each awaited command returns: adopt the fetched
     * status and clear the error; if it is active with 0 seconds left, deactivate and adopt a
     * second fetch. Any failure records its message and stops there. The in-flight flag is
     * always cleared.
     */
    method CompleteFetch(first: Result<CaffeinateStatus, string>, deactivated: Result<CaffeinateStatus, string>,
                         second: Result<CaffeinateStatus, string>)
      requires fetching && statusRef == status
      modifies this
      ensures !fetching && loading == old(loading)
      ensures first.Err? ==>
        status == old(status) && error == Some(first.error) && calls == old(calls) + [GetStatus]
      ensures first.Ok? && !(first.value.isActive && first.value.remainingSeconds == Some(0)) ==>
        && status == first.value && error.None?
        && calls == old(calls) + [GetStatus, UpdateTrayTitle(TrayTitle(first.value))]
      ensures first.Ok? && first.value.isActive && first.value.remainingSeconds == Some(0) ==>
        var adopted := old(calls) + [GetStatus, UpdateTrayTitle(TrayTitle(first.value)), DeactivateCall];
        && (deactivated.Err? ==> status == first.value && error == Some(deactivated.error) && calls == adopted)
        && (deactivated.Ok? && second.Err? ==>
              status == first.value && error == Some(second.error) && calls == adopted + [GetStatus])
        && (deactivated.Ok? && second.Ok? ==>
              status == second.value && error.None?
              && calls == adopted + [GetStatus, UpdateTrayTitle(TrayTitle(second.value))])
      ensures statusRef == status
    {
      calls := calls + [GetStatus];
      if first.Err? {
        error := Some(first.error);
        fetching := false;
        return;
      }
      var result := first.value;
      Adopt(result);
      error := None;
      if result.isActive && result.remainingSeconds == Some(0) {
        calls := calls + [DeactivateCall];
        if deactivated.Err? {
          error := Some(deactivated.error);
          fetching := false;
          return;
        }
        calls := calls + [GetStatus];
        if second.Err? {
          error := Some(second.error);
          fetching := false;
          return;
        }
        Adopt(second.value);
      }
      fetching := false;
    }

    /** The synchronous start of `activate`, `deactivate` and `toggle`. */
    method BeginCommand()
      modifies this
      ensures loading && error.None?
      ensures status == old(status) && statusRef == old(statusRef) && calls == old(calls) && fetching == old(fetching)
    {
      loading := true;
      error := None;
    }

    /** Adopts exactly what the command returned, or records its error; loading always ends. */
    method CompleteCommand(call: Call, result: Result<CaffeinateStatus, string>)
      modifies this
      ensures !loading && fetching == old(fetching)
      ensures result.Ok? ==>
        && status == result.value && statusRef == result.value && error == old(error)
        && calls == old(calls) + [call, UpdateTrayTitle(TrayTitle(result.value))]
      ensures result.Err? ==>
        && status == old(status) && statusRef == old(statusRef) && error == Some(result.error)
        && calls == old(calls) + [call]
    {
      calls := calls + [call];
      if result.Ok? {
        Adopt(result.value);
      } else {
        error := Some(result.error);
      }
      loading := false;
    }

    method Activate(mode: AssertionType, durationSecs: Option<nat>, result: Result<CaffeinateStatus, string>)
      modifies this
      ensures !loading && fetching == old(fetching)
      ensures result.Ok? ==>
        && status == result.value && statusRef == result.value && error.None?
        && calls == old(calls) + [ActivateCall(mode, durationSecs), UpdateTrayTitle(TrayTitle(result.value))]
      ensures result.Err? ==>
        && status == old(status) && statusRef == old(statusRef) && error == Some(result.error)
        && calls == old(calls) + [ActivateCall(mode, durationSecs)]
    {
      BeginCommand();
      CompleteCommand(ActivateCall(mode, durationSecs), result);
    }

    method Deactivate(result: Result<CaffeinateStatus, string>)
      modifies this
      ensures !loading && fetching == old(fetching)
      ensures result.Ok? ==>
        && status == result.value && statusRef == result.value && error.None?
        && calls == old(calls) + [DeactivateCall, UpdateTrayTitle(TrayTitle(result.value))]
      ensures result.Err? ==>
        && status == old(status) && statusRef == old(statusRef) && error == Some(result.error)
        && calls == old(calls) + [DeactivateCall]
    {
      BeginCommand();
      CompleteCommand(DeactivateCall, result);
    }

    method Toggle(mode: AssertionType, durationSecs: Option<nat>, result: Result<CaffeinateStatus, string>)
      modifies this
      ensures !loading && fetching == old(fetching)
      ensures result.Ok? ==>
        && status == result.value && statusRef == result.value && error.None?
        && calls == old(calls) + [ToggleCall(mode, durationSecs), UpdateTrayTitle(TrayTitle(result.value))]
      ensures result.Err? ==>
        && status == old(status) && statusRef == old(statusRef) && error == Some(result.error)
        && calls == old(calls) + [ToggleCall(mode, durationSecs)]
    {
      BeginCommand();
      CompleteCommand(ToggleCall(mode, durationSecs), result);
    }
  }

  /**
   * A command followed by the next poll: the ref still mirrors the state after the command, so
   * the poll can run, and a fetched status that needs no reconcile is what the hook then shows.
   */
  method PollAfterActivate(mode: AssertionType, durationSecs: Option<nat>, result: Result<CaffeinateStatus, string>,
                           fetched: Result<CaffeinateStatus, string>) returns (shown: CaffeinateStatus, polled: bool)
    ensures polled
    ensures fetched.Ok? && !(fetched.value.isActive && fetched.value.remainingSeconds == Some(0)) ==> shown == fetched.value
    ensures fetched.Err? && result.Ok? ==> shown == result.value
    ensures fetched.Err? && result.Err? ==> shown == DefaultStatus
  {
    var hook := new Hook();
    hook.Activate(mode, durationSecs, result);
    polled := hook.BeginFetch();
    hook.CompleteFetch(fetched, fetched, fetched);
    shown := hook.status;
  }
}
