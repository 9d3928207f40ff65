/** The user's preferences (Caffeinator/ViewModels/SettingsViewModel.swift). */
module Settings {
  import opened Wrappers
  import opened Identity
  import opened Sequences
  import opened CaffeinateModes
  import Durations
  import opened TimerPresets

  /** The duration a stored identifier stands for; an identifier that does not parse means one hour. */
  function DurationOfSetting(id: string): (d: Durations.Duration)
    ensures Durations.From(id).Some? ==> d == Durations.From(id).value
    ensures Durations.From(id).None? ==> d == Durations.OneHour
  {
    Durations.From(id).GetOr(Durations.OneHour)
  }

  /** Storing a duration's identifier and reading the setting back gives the same duration. */
  lemma DefaultDurationRoundTrip(d: Durations.Duration)
    ensures DurationOfSetting(Durations.Id(d)) == d
  {
    Durations.FromIdRoundTrip(d);
  }

  /** The index of the first preset with identifier `id` (`firstIndex(where:)`). */
  function FirstIndexOfId(presets: seq<TimerPreset>, id: Uuid): (r: Option<nat>)
    ensures r.Some? ==> r.value < |presets| && presets[r.value].id == id
    ensures r.Some? ==> forall i :: 0 <= i < r.value ==> presets[i].id != id
    ensures r.None? ==> forall i :: 0 <= i < |presets| ==> presets[i].id != id
    decreases |presets|
  {
    if presets == [] then None
    else if presets[0].id == id then Some(0)
    else
      match FirstIndexOfId(presets[1..], id)
      case None => None
      case Some(k) => Some(k + 1)
  }

  /** The presets whose identifier differs from `id`, in order (`removeAll { $0.id == id }`). */
  function WithoutPreset(presets: seq<TimerPreset>, id: Uuid): seq<TimerPreset> {
    Filter(presets, (p: TimerPreset) => p.id != id)
  }

  /**
   * Deleting leaves no preset with the identifier, keeps every other preset, in order, and
   * changes nothing when no preset has it.
   */
  lemma WithoutPresetSpec(presets: seq<TimerPreset>, id: Uuid, more: seq<TimerPreset>)
    ensures forall i :: 0 <= i < |WithoutPreset(presets, id)| ==> WithoutPreset(presets, id)[i].id != id
    ensures forall i :: 0 <= i < |presets| && presets[i].id != id ==> presets[i] in WithoutPreset(presets, id)
    ensures WithoutPreset(presets + more, id) == WithoutPreset(presets, id) + WithoutPreset(more, id)
    ensures FirstIndexOfId(presets, id).None? ==> WithoutPreset(presets, id) == presets
  {
    FilterAppend(presets, more, (p: TimerPreset) => p.id != id);
    if FirstIndexOfId(presets, id).None? {
      FilterKeepsAll(presets, (p: TimerPreset) => p.id != id);
    }
  }

  class SettingsViewModel {
    /** Stored under the app-storage key "defaultDurationId". */
    var defaultDurationId: string
    var defaultModes: set<Mode>
    var timerPresets: seq<TimerPreset>
    /** What was last written under `timerPresets`; None while nothing was. */
    var storedPresets: Option<seq<TimerPreset>>
    /** What was last written under `defaultModes`; None while nothing was. */
    var storedModes: Option<set<Mode>>

    /**
     * `init()`: the duration identifier is what storage holds ("1h" when nothing); modes and
     * presets are the stored ones when they decode, and otherwise `[.idle]` and the default
     * presets, which are then written back.
     */
    constructor(durationId: Option<string>, modes: Option<set<Mode>>, presets: Option<seq<TimerPreset>>)
      ensures defaultDurationId == durationId.GetOr("1h")
      ensures defaultModes == modes.GetOr({Idle}) && storedModes == modes
      ensures presets.Some? ==> timerPresets == presets.value && storedPresets == presets
      ensures presets.None? ==> timerPresets == Defaults && storedPresets == Some(Defaults)
    {
      defaultDurationId := durationId.GetOr("1h");
      defaultModes := modes.GetOr({Idle});
      storedModes := modes;
      timerPresets := presets.GetOr(Defaults);
      storedPresets := presets;
      new;
      if presets.None? {
        SaveTimerPresets();
      }
    }

    /** The getter of `defaultDuration`. */
    function DefaultDuration(): Durations.Duration
      reads this
    {
      DurationOfSetting(defaultDurationId)
    }

    /** The setter of `defaultDuration`: stores the identifier, so the getter returns `d`. */
    method SetDefaultDuration(d: Durations.Duration)
      modifies this
      ensures defaultDurationId == Durations.Id(d) && DefaultDuration() == d
      ensures defaultModes == old(defaultModes) && timerPresets == old(timerPresets)
      ensures storedPresets == old(storedPresets) && storedModes == old(storedModes)
    {
      defaultDurationId := Durations.Id(d);
      DefaultDurationRoundTrip(d);
    }

    method SaveTimerPresets()
      modifies this
      ensures storedPresets == Some(timerPresets)
      ensures defaultDurationId == old(defaultDurationId) && defaultModes == old(defaultModes)
      ensures timerPresets == old(timerPresets) && storedModes == old(storedModes)
    {
      storedPresets := Some(timerPresets);
    }

    /** Appends the preset at the end and saves. */
    method AddPreset(preset: TimerPreset)
      modifies this
      ensures timerPresets == old(timerPresets) + [preset] && storedPresets == Some(timerPresets)
      ensures defaultDurationId == old(defaultDurationId) && defaultModes == old(defaultModes)
      ensures storedModes == old(storedModes)
    {
      timerPresets := timerPresets + [preset];
      SaveTimerPresets();
    }

    /**
     * Replaces the first preset with the same identifier and saves; without one, nothing
     * changes. The length never changes.
     */
    method UpdatePreset(preset: TimerPreset)
      modifies this
      ensures |timerPresets| == |old(timerPresets)|
      ensures FirstIndexOfId(old(timerPresets), preset.id).None? ==> unchanged(this)
      ensures FirstIndexOfId(old(timerPresets), preset.id).Some? ==>
        && timerPresets == old(timerPresets)[FirstIndexOfId(old(timerPresets), preset.id).value := preset]
        && storedPresets == Some(timerPresets)
        && defaultDurationId == old(defaultDurationId) && defaultModes == old(defaultModes)
        && storedModes == old(storedModes)
    {
      var index := FirstIndexOfId(timerPresets, preset.id);
      if index.Some? {
        timerPresets := timerPresets[index.value := preset];
        SaveTimerPresets();
      }
    }

    /** Removes every preset with the identifier and saves. */
    method DeletePreset(preset: TimerPreset)
      modifies this
      ensures timerPresets == WithoutPreset(old(timerPresets), preset.id) && storedPresets == Some(timerPresets)
      ensures defaultDurationId == old(defaultDurationId) && defaultModes == old(defaultModes)
      ensures storedModes == old(storedModes)
    {
      timerPresets := WithoutPreset(timerPresets, preset.id);
      SaveTimerPresets();
    }

    method ResetPresetsToDefaults()
      modifies this
      ensures timerPresets == Defaults && storedPresets == Some(Defaults)
      ensures defaultDurationId == old(defaultDurationId) && defaultModes == old(defaultModes)
      ensures storedModes == old(storedModes)
    {
      timerPresets := Defaults;
      SaveTimerPresets();
    }

    /**
     * Moves the presets at `offsets` before the one at `destination` and saves; the list is
     * only reordered (SwiftUI traps on an offset or destination out of range).
     */
    method MovePreset(offsets: set<int>, destination: int)
      requires 0 <= destination <= |timerPresets|
      requires forall i :: i in offsets ==> 0 <= i < |timerPresets|
      modifies this
      ensures timerPresets == Move(old(timerPresets), offsets, destination)
      ensures multiset(timerPresets) == multiset(old(timerPresets))
      ensures storedPresets == Some(timerPresets)
      ensures defaultDurationId == old(defaultDurationId) && defaultModes == old(defaultModes)
      ensures storedModes == old(storedModes)
    {
      MovePermutes(timerPresets, offsets, destination);
      timerPresets := Move(timerPresets, offsets, destination);
      SaveTimerPresets();
    }

    method SaveDefaultModes()
      modifies this
      ensures storedModes == Some(defaultModes)
      ensures defaultDurationId == old(defaultDurationId) && defaultModes == old(defaultModes)
      ensures timerPresets == old(timerPresets) && storedPresets == old(storedPresets)
    {
      storedModes := Some(defaultModes);
    }

    /** Flips the membership of `mode` alone (the set may become empty) and saves. */
    method ToggleMode(mode: Mode)
      modifies this
      ensures defaultModes == Toggled(old(defaultModes), mode)
      ensures storedModes == Some(defaultModes)
      ensures defaultDurationId == old(defaultDurationId) && timerPresets == old(timerPresets)
      ensures storedPresets == old(storedPresets)
    {
      if mode in defaultModes {
        defaultModes := defaultModes - {mode};
      } else {
        defaultModes := defaultModes + {mode};
      }
      SaveDefaultModes();
    }

    predicate IsModeEnabled(mode: Mode)
      reads this
    {
      mode in defaultModes
    }
  }

  /** Toggling the same mode twice gives back the set it started from. */
  lemma ToggleTwice(modes: set<Mode>, mode: Mode)
    ensures Toggled(Toggled(modes, mode), mode) == modes
  {
  }

  /** The set `toggleMode` leaves behind. */
  function Toggled(modes: set<Mode>, mode: Mode): (r: set<Mode>)
    ensures mode in r <==> mode !in modes
    ensures forall m :: m != mode ==> (m in r <==> m in modes)
  {
    if mode in modes then modes - {mode} else modes + {mode}
  }
}
