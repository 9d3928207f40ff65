/** A user-editable timer preset (Caffeinator/Models/TimerPreset.swift). */
module TimerPresets {
  import opened Wrappers
  import opened IntMath
  import opened Text
  import opened Identity
  import Durations

  datatype TimerPreset = TimerPreset(id: Uuid, name: string, minutes: Int64, isDefault: bool)

  /** The memberwise initializer: `isDefault` is false unless given. */
  function NewTimerPreset(id: Uuid, name: string, minutes: Int64, isDefault: bool := false): (p: TimerPreset)
    ensures p.id == id && p.name == name && p.minutes == minutes && p.isDefault == isDefault
  {
    TimerPreset(id, name, minutes, isDefault)
  }

  /** The initializer's default leaves a preset non-default. */
  lemma InitDefaultsNotDefault(id: Uuid, name: string, minutes: Int64)
    ensures !NewTimerPreset(id, name, minutes).isDefault
  {
  }

  function Seconds(p: TimerPreset): int {
    p.minutes * 60
  }

  /** Indefinite for zero minutes, otherwise a custom duration of the preset's seconds (Swift traps on overflow). */
  function ToDuration(p: TimerPreset): (d: Durations.Duration)
    requires InInt64(Seconds(p))
    ensures d == Durations.Indefinite <==> p.minutes == 0
    ensures p.minutes != 0 ==> Durations.Seconds(d) == Some(p.minutes * 60)
  {
    if p.minutes == 0 then Durations.Indefinite else Durations.Custom(Seconds(p))
  }

  function DisplayName(p: TimerPreset): string {
    if p.minutes == 0 then "Indefinite"
    else
      var hours := Quot(p.minutes, 60);
      var mins := Rem(p.minutes, 60);
      if hours > 0 && mins > 0 then IntToString(hours) + "h " + IntToString(mins) + "m"
      else if hours > 0 then IntToString(hours) + " hour" + (if hours > 1 then "s" else "")
      else IntToString(mins) + " minute" + (if mins > 1 then "s" else "")
  }

  function ShortName(p: TimerPreset): string {
    if p.minutes == 0 then "∞"
    else
      var hours := Quot(p.minutes, 60);
      var mins := Rem(p.minutes, 60);
      if hours > 0 && mins > 0 then IntToString(hours) + "h" + IntToString(mins) + "m"
      else if hours > 0 then IntToString(hours) + "h"
      else IntToString(mins) + "m"
  }

  /** Splitting a count of minutes into hours and minutes agrees with splitting the same time in seconds. */
  lemma MinuteFieldsMatchSecondFields(minutes: int)
    ensures Quot(minutes * 60, 3600) == Quot(minutes, 60)
    ensures Quot(Rem(minutes * 60, 3600), 60) == Rem(minutes, 60)
  {
    var a := if minutes >= 0 then minutes else -minutes;
    var h, m := a / 60, a % 60;
    assert a * 60 == h * 3600 + m * 60;
    DivModUnique(a * 60, 3600, h, m * 60);
    DivModUnique(m * 60, 60, m, 0);
    if minutes < 0 {
      assert -(minutes * 60) == a * 60;
      assert Rem(minutes * 60, 3600) == -(m * 60);
      assert -Rem(minutes * 60, 3600) == m * 60;
    }
  }

  /**
   * A non-zero preset is named exactly like the custom duration of its seconds, in both the
   * long and the short form.
   */
  lemma NamesAgreeWithDuration(p: TimerPreset)
    requires p.minutes != 0
    ensures DisplayName(p) == Durations.FormatSeconds(p.minutes * 60)
    ensures ShortName(p) == Durations.FormatSecondsShort(p.minutes * 60)
  {
    MinuteFieldsMatchSecondFields(p.minutes);
  }

  /** The identifiers of the built-in presets, drawn once per run; any five distinct values. */
  const DefaultIds: seq<Uuid> := [1, 2, 3, 4, 5]

  const Defaults: seq<TimerPreset> := [
    NewTimerPreset(DefaultIds[0], "30 minutes", 30, true),
    NewTimerPreset(DefaultIds[1], "1 hour", 60, true),
    NewTimerPreset(DefaultIds[2], "2 hours", 120, true),
    NewTimerPreset(DefaultIds[3], "4 hours", 240, true),
    NewTimerPreset(DefaultIds[4], "Indefinite", 0, true)
  ]

  /** Five presets of 30, 60, 120, 240 and 0 minutes, all marked default, with distinct identifiers. */
  lemma DefaultsTable()
    ensures |Defaults| == 5
    ensures [Defaults[0].minutes, Defaults[1].minutes, Defaults[2].minutes, Defaults[3].minutes, Defaults[4].minutes]
         == [30, 60, 120, 240, 0]
    ensures forall i :: 0 <= i < |Defaults| ==> Defaults[i].isDefault
    ensures forall i, j :: 0 <= i < j < |Defaults| ==> Defaults[i].id != Defaults[j].id
  {
  }

  /** Each built-in preset is named by its own display name. */
  lemma DefaultsNamedByDisplayName()
    ensures forall i :: 0 <= i < |Defaults| ==> Defaults[i].name == DisplayName(Defaults[i])
  {
    assert DisplayName(Defaults[0]) == "30 minutes" by { assert IntToString(30) == "30"; }
    assert DisplayName(Defaults[1]) == "1 hour";
    assert DisplayName(Defaults[2]) == "2 hours";
    assert DisplayName(Defaults[3]) == "4 hours";
  }
}
