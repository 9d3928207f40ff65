/** The sheet that adds or edits a timer preset (PresetEditorSheet in Caffeinator/Views/SettingsView.swift). */
module PresetEditor {
  import opened Wrappers
  import opened IntMath
  import opened Text
  import opened Identity
  import opened TimerPresets

  /** `previewText`: how the sheet names the chosen length. */
  function PreviewText(hours: int, minutes: int): string {
    if hours * 60 + minutes == 0 then "Indefinite"
    else if hours > 0 && minutes > 0 then IntToString(hours) + "h " + IntToString(minutes) + "m"
    else if hours > 0 then IntToString(hours) + " hour" + (if hours > 1 then "s" else "")
    else IntToString(minutes) + " minute" + (if minutes > 1 then "s" else "")
  }

  /** The preset Save hands on: the edited preset's id or a fresh one, the preview as name, the total in minutes. */
  function SavedPreset(preset: Option<TimerPreset>, hours: int, minutes: int, freshId: Uuid): TimerPreset
    requires InInt64(hours * 60 + minutes)
  {
    NewTimerPreset(if preset.Some? then preset.value.id else freshId, PreviewText(hours, minutes), hours * 60 + minutes)
  }

  /** For whole hours and fewer than 60 minutes, the preview names the time as a preset of that length is named. */
  lemma PreviewIsDisplayName(hours: int, minutes: int, id: Uuid, name: string, isDefault: bool)
    requires hours >= 0 && 0 <= minutes < 60 && InInt64(hours * 60 + minutes)
    ensures PreviewText(hours, minutes) == DisplayName(TimerPreset(id, name, hours * 60 + minutes, isDefault))
  {
    DivModUnique(hours * 60 + minutes, 60, hours, minutes);
  }

  /**
   * A preset saved from the sheet keeps the edited preset's id (a fresh one only when adding),
   * is named by its own display name, and is never marked default.
   */
  lemma SavedPresetShape(preset: Option<TimerPreset>, hours: int, minutes: int, freshId: Uuid)
    requires hours >= 0 && 0 <= minutes < 60 && InInt64(hours * 60 + minutes)
    ensures var p := SavedPreset(preset, hours, minutes, freshId);
      && p.id == (if preset.Some? then preset.value.id else freshId)
      && p.minutes == hours * 60 + minutes
      && p.name == DisplayName(p)
      && !p.isDefault
  {
    var p := SavedPreset(preset, hours, minutes, freshId);
    PreviewIsDisplayName(hours, minutes, p.id, p.name, p.isDefault);
  }

  class Sheet {
    /** The preset being edited; none when adding. */
    const preset: Option<TimerPreset>
    var hours: int
    var minutes: int

    constructor(preset: Option<TimerPreset>)
      ensures this.preset == preset && hours == 0 && minutes == 30
    {
      this.preset := preset;
      hours := 0;
      minutes := 30;
    }

    /** `onAppear`: an edited preset's minutes are split into hours and the minutes left over. */
    method OnAppear()
      modifies this
      ensures preset.None? ==> hours == old(hours) && minutes == old(minutes)
      ensures preset.Some? ==> hours * 60 + minutes == preset.value.minutes
      ensures preset.Some? && preset.value.minutes >= 0 ==> hours >= 0 && 0 <= minutes < 60
    {
      if preset.Some? {
        hours := Quot(preset.value.minutes, 60);
        minutes := Rem(preset.value.minutes, 60);
      }
    }

    /** The hours stepper stays within 0...23. */
    method SetHours(value: int)
      requires 0 <= value <= 23
      modifies this
      ensures hours == value && minutes == old(minutes)
    {
      hours := value;
    }

    /** The minutes stepper stays within 0...55. */
    method SetMinutes(value: int)
      requires 0 <= value <= 55
      modifies this
      ensures minutes == value && hours == old(hours)
    {
      minutes := value;
    }

    method Save(freshId: Uuid) returns (p: TimerPreset)
      requires InInt64(hours * 60 + minutes)
      ensures p == SavedPreset(preset, hours, minutes, freshId)
    {
      var totalMinutes := hours * 60 + minutes;
      p := NewTimerPreset(if preset.Some? then preset.value.id else freshId, PreviewText(hours, minutes), totalMinutes);
    }
  }

  /**
   * Opening an existing preset and saving it unchanged gives back its id and length, named by
   * its display name; only the default mark is lost.
   */
  lemma EditUnchangedKeepsPreset(p: TimerPreset, freshId: Uuid)
    requires p.minutes >= 0
    ensures SavedPreset(Some(p), Quot(p.minutes, 60), Rem(p.minutes, 60), freshId)
         == TimerPreset(p.id, DisplayName(p), p.minutes, false)
  {
    var h, m := Quot(p.minutes, 60), Rem(p.minutes, 60);
    PreviewIsDisplayName(h, m, p.id, p.name, p.isDefault);
  }
}
