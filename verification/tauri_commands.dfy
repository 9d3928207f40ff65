/** The commands the Tauri back end exposes to the front end (src-tauri/src/commands.rs). */
module TauriCommands {
  import opened Wrappers
  import opened Text
  import opened Power
  import opened TauriState

  /** The menu-bar tray icon; only its title is modelled. */
  class TrayIcon {
    var title: string

    constructor()
      ensures title == ""
    {
      title := "";
    }
  }

  /** The reason handed to IOKit with every assertion. */
  function Reason(mode: AssertionType): string {
    "Caffeinator: Preventing " + DisplayName(mode) + " sleep"
  }

  /** The identifier the back-end state records and the one the power module holds agree. */
  predicate Synced(state: AppState, power: PowerAssertions)
    reads state, power
  {
    state.assertionId == power.currentId
  }

  /**
   * `activate`: releases the held assertion (a failed release aborts with nothing else changed),
   * then creates one for `mode`; a failed create leaves the state cleared, a successful one
   * starts the session at `now` and reports its status.
   */
  method Activate(state: AppState, power: PowerAssertions, mode: AssertionType, durationSecs: Option<U64>,
                  releaseCode: int, outcome: CreateOutcome, now: int) returns (r: Result<CaffeinateStatus, string>)
    modifies state, power
    ensures old(state.assertionId) != 0 ==> power.releases == old(power.releases) + [old(state.assertionId)]
    ensures old(state.assertionId) == 0 ==> power.releases == old(power.releases)
    ensures old(state.assertionId) != 0 && releaseCode != 0 ==>
      && r == Err("Failed to release power assertion: error code " + IntToString(releaseCode))
      && state.Current() == old(state.Current())
      && power.creates == old(power.creates)
    ensures old(state.assertionId) == 0 || releaseCode == 0 ==>
      power.creates == old(power.creates) + [CreateCall(IOKitName(mode), AssertionLevelOn, Reason(mode))]
    ensures (old(state.assertionId) == 0 || releaseCode == 0) && outcome.code != 0 ==>
      && r == Err("Failed to create power assertion: error code " + IntToString(outcome.code))
      && state.Current() == (if old(state.assertionId) != 0 then Cleared else old(state.Current()))
    ensures (old(state.assertionId) == 0 || releaseCode == 0) && outcome.code == 0 ==>
      && state.Current() == Snapshot(outcome.id, Some(mode), Some(now),
           if durationSecs.Some? then Some(durationSecs.value * NanosPerSecond) else None)
      && r == Ok(StatusOf(state.Current(), now))
    ensures old(Synced(state, power)) ==> Synced(state, power)
  {
    var currentId := state.GetAssertionId();
    if currentId != 0 {
      var released := power.ReleaseAssertion(currentId, releaseCode);
      if released.Err? {
        return Err(released.error);
      }
      state.Clear();
    }
    var created := power.CreateAssertion(mode, Reason(mode), outcome);
    if created.Err? {
      return Err(created.error);
    }
    state.SetActive(created.value, mode, durationSecs, now);
    var status := state.GetStatus(now);
    r := Ok(status);
  }

  /**
   * `deactivate`: releases the held assertion (a failed release aborts with nothing changed),
   * clears the state and the tray title, and reports the default status.
   */
  method Deactivate(state: AppState, power: PowerAssertions, tray: TrayIcon, releaseCode: int, now: int)
    returns (r: Result<CaffeinateStatus, string>)
    modifies state, power, tray
    ensures power.creates == old(power.creates)
    ensures old(state.assertionId) != 0 ==> power.releases == old(power.releases) + [old(state.assertionId)]
    ensures old(state.assertionId) == 0 ==> power.releases == old(power.releases)
    ensures old(state.assertionId) != 0 && releaseCode != 0 ==>
      && r == Err("Failed to release power assertion: error code " + IntToString(releaseCode))
      && state.Current() == old(state.Current())
      && tray.title == old(tray.title)
    ensures old(state.assertionId) == 0 || releaseCode == 0 ==>
      r == Ok(DefaultStatus) && state.Current() == Cleared && tray.title == ""
    ensures old(Synced(state, power)) ==> Synced(state, power)
  {
    var currentId := state.GetAssertionId();
    if currentId != 0 {
      var released := power.ReleaseAssertion(currentId, releaseCode);
      if released.Err? {
        return Err(released.error);
      }
    }
    state.Clear();
    tray.title := "";
    var status := state.GetStatus(now);
    ClearedReportsDefault(now);
    r := Ok(status);
  }

  /** `toggle`: deactivates an active session, otherwise activates one. */
  method Toggle(state: AppState, power: PowerAssertions, tray: TrayIcon, mode: AssertionType, durationSecs: Option<U64>,
                releaseCode: int, outcome: CreateOutcome, now: int) returns (r: Result<CaffeinateStatus, string>)
    modifies state, power, tray
    ensures old(state.assertionId) != 0 ==>
      && power.creates == old(power.creates)
      && power.releases == old(power.releases) + [old(state.assertionId)]
      && if releaseCode != 0 then
           && r == Err("Failed to release power assertion: error code " + IntToString(releaseCode))
           && state.Current() == old(state.Current()) && tray.title == old(tray.title)
         else r == Ok(DefaultStatus) && state.Current() == Cleared && tray.title == ""
    ensures old(state.assertionId) == 0 ==>
      && power.releases == old(power.releases)
      && power.creates == old(power.creates) + [CreateCall(IOKitName(mode), AssertionLevelOn, Reason(mode))]
      && tray.title == old(tray.title)
      && (outcome.code != 0 ==>
            && r == Err("Failed to create power assertion: error code " + IntToString(outcome.code))
            && state.Current() == old(state.Current()))
      && (outcome.code == 0 ==>
            && state.Current() == Snapshot(outcome.id, Some(mode), Some(now),
                 if durationSecs.Some? then Some(durationSecs.value * NanosPerSecond) else None)
            && r == Ok(StatusOf(state.Current(), now)))
    ensures old(Synced(state, power)) ==> Synced(state, power)
  {
    var status := state.GetStatus(now);
    if status.isActive {
      r := Deactivate(state, power, tray, releaseCode, now);
    } else {
      r := Activate(state, power, mode, durationSecs, releaseCode, outcome, now);
    }
  }

  /** `update_tray_title`: sets the title as given, or reports the tray's error and leaves it. */
  method UpdateTrayTitle(tray: TrayIcon, title: string, failure: Option<string>) returns (r: Result<(), string>)
    modifies tray
    ensures failure.None? ==> r == Ok(()) && tray.title == title
    ensures failure.Some? ==> r == Err(failure.value) && tray.title == old(tray.title)
  {
    if failure.Some? {
      return Err(failure.value);
    }
    tray.title := title;
    r := Ok(());
  }

  /** `quit_app`: releases the held assertion, ignoring a failure, before the application exits. */
  method QuitApp(state: AppState, power: PowerAssertions, releaseCode: int)
    modifies power
    ensures power.creates == old(power.creates)
    ensures state.assertionId != 0 ==> power.releases == old(power.releases) + [state.assertionId]
    ensures state.assertionId == 0 ==> power.releases == old(power.releases)
  {
    var currentId := state.GetAssertionId();
    if currentId != 0 {
      var _ := power.ReleaseAssertion(currentId, releaseCode);
    }
  }
}
