/** Decisions of the menu-bar popover (Caffeinator/Views/MenuBarView.swift). */
module MenuBar {
  import opened Wrappers
  import opened IntMath
  import opened Text
  import opened CaffeinateModes
  import opened Durations
  import TimeFormat
  import PresetEditor

  /** `toggleMode`: adds an absent mode, removes a present one unless it is the only one. */
  function MenuToggled(modes: set<Mode>, mode: Mode): set<Mode> {
    if mode in modes then (if |modes| > 1 then modes - {mode} else modes) else modes + {mode}
  }

  /** Only the toggled mode can change, a non-empty selection stays non-empty, and the last mode cannot be removed. */
  lemma ToggleKeepsASelection(modes: set<Mode>, mode: Mode)
    ensures forall other :: other != mode ==> (other in MenuToggled(modes, mode) <==> other in modes)
    ensures mode !in modes ==> mode in MenuToggled(modes, mode)
    ensures mode in modes ==> (mode !in MenuToggled(modes, mode) <==> |modes| > 1)
    ensures modes != {} ==> MenuToggled(modes, mode) != {}
  {
    if mode in modes && |modes| > 1 {
      var rest := modes - {mode};
      assert |rest| == |modes| - 1;
      assert rest != {};
    }
  }

  /** The length the custom Start asks for: indefinite at 0, else that many seconds. */
  function CustomDuration(hours: int, minutes: int): Duration
    requires InInt64(hours * 3600 + minutes * 60)
  {
    var totalSeconds := hours * 3600 + minutes * 60;
    if totalSeconds == 0 then Indefinite else Custom(totalSeconds)
  }

  /**
   * With the steppers' values the custom Start asks for a custom length of exactly the chosen
   * seconds, and for the indefinite length only when both fields are 0, which is when the
   * button is disabled.
   */
  lemma CustomDurationCases(hours: int, minutes: int)
    requires 0 <= hours <= 23 && 0 <= minutes <= 55
    ensures CustomDuration(hours, minutes) == Indefinite <==> hours == 0 && minutes == 0
    ensures !(hours == 0 && minutes == 0) ==> Seconds(CustomDuration(hours, minutes)) == Some(hours * 3600 + minutes * 60)
  {
  }

  /** `customDurationPreview`. */
  function CustomPreview(hours: int, minutes: int): string {
    if hours * 60 + minutes == 0 then "Select a duration"
    else if hours > 0 && minutes > 0 then "Keep awake for " + IntToString(hours) + "h " + IntToString(minutes) + "m"
    else if hours > 0 then "Keep awake for " + IntToString(hours) + " hour" + (if hours > 1 then "s" else "")
    else "Keep awake for " + IntToString(minutes) + " minutes"
  }

  /** The preview asks for a choice exactly when nothing is chosen. */
  lemma PreviewAsksWhenNothingChosen(hours: int, minutes: int)
    requires hours >= 0 && minutes >= 0
    ensures CustomPreview(hours, minutes) == "Select a duration" <==> hours == 0 && minutes == 0
  {
    if hours * 60 + minutes != 0 {
      assert CustomPreview(hours, minutes)[0] == 'K';
    }
  }

  /**
   * The popover's preview says what the preset sheet's preview says after "Keep awake for ",
   * except that its minutes-only form is always plural.
   */
  lemma PreviewAgreesWithPresetSheet(hours: int, minutes: int)
    requires hours >= 0 && minutes >= 0 && hours * 60 + minutes != 0 && !(hours == 0 && minutes == 1)
    ensures CustomPreview(hours, minutes) == "Keep awake for " + PresetEditor.PreviewText(hours, minutes)
  {
  }

  /** At exactly one minute the two previews differ: the popover says "1 minutes". */
  lemma PreviewPluralAtOneMinute()
    ensures CustomPreview(0, 1) == "Keep awake for 1 minutes"
    ensures PresetEditor.PreviewText(0, 1) == "1 minute"
  {
  }

  /** The subtitle under "Active": the watched process, else the time left, else "Running indefinitely". */
  function StatusSubtitle(watchedProcessName: Option<string>, remainingSeconds: Option<int>): (r: string)
  {
    if watchedProcessName.Some? then "Watching " + watchedProcessName.value
    else if remainingSeconds.Some? then TimeFormat.Format(remainingSeconds.value, TimeFormat.Remaining)
    else "Running indefinitely"
  }

  /** A watched process is named whatever the timer says; otherwise the clock is followed by " remaining". */
  lemma SubtitlePrecedence(name: string, remaining: Option<int>, seconds: int)
    ensures StatusSubtitle(Some(name), remaining) == "Watching " + name
    ensures StatusSubtitle(None, Some(seconds)) == TimeFormat.Format(seconds) + " remaining"
    ensures StatusSubtitle(None, None) == "Running indefinitely"
  {
    TimeFormat.RemainingIsStandardClock(seconds);
  }

  /** The popover's own state. */
  class Popover {
    var selectedModes: set<Mode>
    var showCustomDuration: bool
    var customHours: int
    var customMinutes: int

    /** The steppers hold hours in 0...23 and minutes in 0...55 on a five-minute grid. */
    predicate Valid()
      reads this
    {
      0 <= customHours <= 23 && 0 <= customMinutes <= 55 && customMinutes % 5 == 0
    }

    constructor()
      ensures Valid()
      ensures selectedModes == {Idle} && !showCustomDuration && customHours == 0 && customMinutes == 30
    {
      selectedModes := {Idle};
      showCustomDuration := false;
      customHours := 0;
      customMinutes := 30;
    }

    /** `onAppear`: the selection becomes the default modes from the settings, which may be empty. */
    method OnAppear(defaultModes: set<Mode>)
      requires Valid()
      modifies this
      ensures Valid() && selectedModes == defaultModes
      ensures showCustomDuration == old(showCustomDuration) && customHours == old(customHours) && customMinutes == old(customMinutes)
    {
      selectedModes := defaultModes;
    }

    method ToggleMode(mode: Mode)
      requires Valid()
      modifies this
      ensures Valid() && selectedModes == MenuToggled(old(selectedModes), mode)
      ensures showCustomDuration == old(showCustomDuration) && customHours == old(customHours) && customMinutes == old(customMinutes)
    {
      if mode in selectedModes {
        if |selectedModes| > 1 {
          selectedModes := selectedModes - {mode};
        }
      } else {
        selectedModes := selectedModes + {mode};
      }
    }

    method ShowCustomDuration(show: bool)
      requires Valid()
      modifies this
      ensures Valid() && showCustomDuration == show
      ensures selectedModes == old(selectedModes) && customHours == old(customHours) && customMinutes == old(customMinutes)
    {
      showCustomDuration := show;
    }

    /** One step of the hours stepper; a step past either end stops at that end. */
    method StepHours(up: bool)
      requires Valid()
      modifies this
      ensures Valid()
      ensures customHours == if up then (if old(customHours) < 23 then old(customHours) + 1 else 23)
                             else (if old(customHours) > 0 then old(customHours) - 1 else 0)
      ensures selectedModes == old(selectedModes) && showCustomDuration == old(showCustomDuration) && customMinutes == old(customMinutes)
    {
      if up {
        if customHours < 23 { customHours := customHours + 1; }
      } else {
        if customHours > 0 { customHours := customHours - 1; }
      }
    }

    /** One step of five minutes; a step past either end stops at that end. */
    method StepMinutes(up: bool)
      requires Valid()
      modifies this
      ensures Valid()
      ensures customMinutes == if up then (if old(customMinutes) < 55 then old(customMinutes) + 5 else 55)
                               else (if old(customMinutes) > 0 then old(customMinutes) - 5 else 0)
      ensures selectedModes == old(selectedModes) && showCustomDuration == old(showCustomDuration) && customHours == old(customHours)
    {
      if up {
        if customMinutes < 55 { customMinutes := customMinutes + 5; }
      } else {
        if customMinutes > 0 { customMinutes := customMinutes - 5; }
      }
    }

    predicate StartDisabled()
      reads this
    {
      customHours == 0 && customMinutes == 0
    }

    /** The custom Start: the duration and modes handed to the manager's `activate`; the form closes. */
    method StartCustom() returns (duration: Duration, modes: set<Mode>)
      requires Valid()
      modifies this
      ensures Valid() && !showCustomDuration
      ensures duration == CustomDuration(customHours, customMinutes) && modes == selectedModes
      ensures selectedModes == old(selectedModes) && customHours == old(customHours) && customMinutes == old(customMinutes)
    {
      var totalSeconds := customHours * 3600 + customMinutes * 60;
      duration := if totalSeconds == 0 then Indefinite else Custom(totalSeconds);
      modes := selectedModes;
      showCustomDuration := false;
    }

    /** On the stepper grid the minutes are never 1, so the preview always agrees with the preset sheet's. */
    lemma PreviewOnGrid()
      requires Valid() && !StartDisabled()
      ensures CustomPreview(customHours, customMinutes) == "Keep awake for " + PresetEditor.PreviewText(customHours, customMinutes)
    {
      PreviewAgreesWithPresetSheet(customHours, customMinutes);
    }
  }
}
