/** The front end's duration chooser (src/components/DurationPicker.tsx). */
module DurationPicker {
  import opened Wrappers
  import opened Text
  import Durations

  /** `DURATION_PRESETS`: a caption and a length in seconds, none for the indefinite choice. */
  datatype Preset = Preset(caption: string, seconds: Option<nat>)

  const Presets: seq<Preset> := [
    Preset("30m", Some(30 * 60)), Preset("1h", Some(60 * 60)), Preset("2h", Some(2 * 60 * 60)),
    Preset("4h", Some(4 * 60 * 60)), Preset("∞", None)]

  /** The web presets are the macOS presets, in the same order, with the same short names and lengths. */
  lemma PresetsMatchTheMacApp()
    ensures |Presets| == |Durations.Presets|
    ensures forall i :: 0 <= i < |Presets| ==>
      && Presets[i].caption == Durations.ShortName(Durations.Presets[i])
      && (Presets[i].seconds.None? <==> Durations.Seconds(Durations.Presets[i]).None?)
      && (Presets[i].seconds.Some? ==> Presets[i].seconds.value == Durations.Seconds(Durations.Presets[i]).value)
  {
  }

  /** `parseInt(text) || 0`: the parsed integer, or 0 when there is none. */
  function ParsedOrZero(text: string): int {
    ParseIntPrefix(text).GetOr(0)
  }

  /** The hours field after an edit: `Math.max(0, parseInt(text) || 0)`. */
  function ClampHours(text: string): nat {
    var v := ParsedOrZero(text);
    if v < 0 then 0 else v
  }

  /** The minutes field after an edit: `Math.max(0, Math.min(59, parseInt(text) || 0))`. */
  function ClampMinutes(text: string): nat {
    var v := ParsedOrZero(text);
    if v > 59 then 59 else if v < 0 then 0 else v
  }

  /**
   * Edited fields hold what was typed when it is in range; an entry with no digits gives 0;
   * minutes are held to at most 59, and neither field goes below 0. Hours have no upper clamp.
   */
  lemma FieldsClamped(text: string)
    ensures ParseIntPrefix(text).None? ==> ClampHours(text) == 0 && ClampMinutes(text) == 0
    ensures ClampMinutes(text) <= 59
    ensures ParseIntPrefix(text).Some? && ParseIntPrefix(text).value >= 0 ==>
      ClampHours(text) == ParseIntPrefix(text).value
    ensures ParseIntPrefix(text).Some? && 0 <= ParseIntPrefix(text).value <= 59 ==>
      ClampMinutes(text) == ParseIntPrefix(text).value
    ensures ParseIntPrefix(text).Some? && ParseIntPrefix(text).value < 0 ==>
      ClampHours(text) == 0 && ClampMinutes(text) == 0
  {
  }

  class Picker {
    var showCustom: bool
    var hours: nat
    var minutes: nat
    /** The values handed to `onSelect`, in order. */
    var selections: seq<Option<nat>>

    constructor()
      ensures !showCustom && hours == 0 && minutes == 30 && selections == []
    {
      showCustom := false;
      hours := 0;
      minutes := 30;
      selections := [];
    }

    function Total(): nat
      reads this
    {
      hours * 3600 + minutes * 60
    }

    /** The custom Start button is disabled when both fields are 0. */
    predicate StartDisabled()
      reads this
    {
      hours == 0 && minutes == 0
    }

    method SetHours(text: string)
      modifies this
      ensures hours == ClampHours(text)
      ensures showCustom == old(showCustom) && minutes == old(minutes) && selections == old(selections)
    {
      hours := ClampHours(text);
    }

    method SetMinutes(text: string)
      modifies this
      ensures minutes == ClampMinutes(text)
      ensures showCustom == old(showCustom) && hours == old(hours) && selections == old(selections)
    {
      minutes := ClampMinutes(text);
    }

    method SetShowCustom(show: bool)
      modifies this
      ensures showCustom == show
      ensures hours == old(hours) && minutes == old(minutes) && selections == old(selections)
    {
      showCustom := show;
    }

    /** `handleCustomSubmit`: a positive total is selected and the custom form closes; 0 does nothing. */
    method HandleCustomSubmit()
      modifies this
      ensures hours == old(hours) && minutes == old(minutes)
      ensures old(StartDisabled()) <==> unchanged(this)
      ensures old(Total()) > 0 ==> selections == old(selections) + [Some(old(Total()))] && !showCustom
      ensures old(Total()) == 0 ==> selections == old(selections) && showCustom == old(showCustom)
    {
      var totalSeconds := hours * 3600 + minutes * 60;
      if totalSeconds > 0 {
        selections := selections + [Some(totalSeconds)];
        showCustom := false;
        assert |selections| == |old(selections)| + 1;
      }
    }

    /** A preset button selects that preset's length, none for "∞". */
    method SelectPreset(i: nat)
      requires i < |Presets|
      modifies this
      ensures selections == old(selections) + [Presets[i].seconds]
      ensures showCustom == old(showCustom) && hours == old(hours) && minutes == old(minutes)
    {
      selections := selections + [Presets[i].seconds];
    }
  }

  /** A picker's Start is disabled exactly when submitting would select nothing. */
  lemma StartDisabledIffNothingToSubmit(p: Picker)
    ensures p.StartDisabled() <==> p.Total() == 0
  {
  }
}
