/** How long a session lasts (Caffeinator/Models/Duration.swift). */
module Durations {
  import opened Wrappers
  import opened IntMath
  import opened Text

  datatype Duration = ThirtyMinutes | OneHour | TwoHours | FourHours | Indefinite | Custom(seconds: Int64)

  /** The identifier stored in the settings (`defaultDurationId`). */
  function Id(d: Duration): string {
    match d
    case ThirtyMinutes => "30m"
    case OneHour => "1h"
    case TwoHours => "2h"
    case FourHours => "4h"
    case Indefinite => "indefinite"
    case Custom(s) => "custom-" + IntToString(s)
  }

  /** The length in seconds; nil exactly for the indefinite duration. */
  function Seconds(d: Duration): (r: Option<int>)
    ensures r.None? <==> d == Indefinite
  {
    match d
    case ThirtyMinutes => Some(30 * 60)
    case OneHour => Some(60 * 60)
    case TwoHours => Some(2 * 60 * 60)
    case FourHours => Some(4 * 60 * 60)
    case Indefinite => None
    case Custom(s) => Some(s)
  }

  /** Half an hour, one, two and four hours; a custom duration is its own count of seconds. */
  lemma SecondsTable(s: Int64)
    ensures Seconds(ThirtyMinutes) == Some(1800) && Seconds(OneHour) == Some(3600)
    ensures Seconds(TwoHours) == Some(7200) && Seconds(FourHours) == Some(14400)
    ensures Seconds(Custom(s)) == Some(s)
  {
  }

  function DisplayName(d: Duration): string {
    match d
    case ThirtyMinutes => "30 minutes"
    case OneHour => "1 hour"
    case TwoHours => "2 hours"
    case FourHours => "4 hours"
    case Indefinite => "Indefinitely"
    case Custom(s) => FormatSeconds(s)
  }

  function ShortName(d: Duration): string {
    match d
    case ThirtyMinutes => "30m"
    case OneHour => "1h"
    case TwoHours => "2h"
    case FourHours => "4h"
    case Indefinite => "∞"
    case Custom(s) => FormatSecondsShort(s)
  }

  /** The built-in choices, in menu order. */
  const Presets: seq<Duration> := [ThirtyMinutes, OneHour, TwoHours, FourHours, Indefinite]

  /** The presets are the five non-custom cases, each once; only the indefinite one has no length. */
  lemma PresetsAreTheFixedCases()
    ensures |Presets| == 5
    ensures forall d: Duration :: d in Presets <==> !d.Custom?
    ensures forall i, j :: 0 <= i < j < |Presets| ==> Presets[i] != Presets[j]
    ensures forall d :: d in Presets ==> (Seconds(d).None? <==> d == Indefinite)
  {
    forall d: Duration | !d.Custom? ensures d in Presets {
      match d
      case ThirtyMinutes => assert Presets[0] == d;
      case OneHour => assert Presets[1] == d;
      case TwoHours => assert Presets[2] == d;
      case FourHours => assert Presets[3] == d;
      case Indefinite => assert Presets[4] == d;
    }
  }

  /** "Xh Ym", "X hour(s)" or "M minute(s)"; leftover seconds are dropped. */
  function FormatSeconds(seconds: int): string {
    var hours := Quot(seconds, 3600);
    var minutes := Quot(Rem(seconds, 3600), 60);
    if hours > 0 && minutes > 0 then
      IntToString(hours) + "h " + IntToString(minutes) + "m"
    else if hours > 0 then
      IntToString(hours) + " hour" + (if hours > 1 then "s" else "")
    else
      IntToString(minutes) + " minute" + (if minutes > 1 then "s" else "")
  }

  /** "XhYm", "Xh" or "Ym". */
  function FormatSecondsShort(seconds: int): string {
    var hours := Quot(seconds, 3600);
    var minutes := Quot(Rem(seconds, 3600), 60);
    if hours > 0 && minutes > 0 then
      IntToString(hours) + "h" + IntToString(minutes) + "m"
    else if hours > 0 then
      IntToString(hours) + "h"
    else
      IntToString(minutes) + "m"
  }

  /** For a non-negative count, the hour and minute fields of both formatters are whole hours and the minutes left over. */
  lemma FormatSecondsFields(seconds: nat)
    ensures Quot(seconds, 3600) == seconds / 3600
    ensures Quot(Rem(seconds, 3600), 60) == (seconds % 3600) / 60 < 60
    ensures (seconds / 3600) * 3600 + ((seconds % 3600) / 60) * 60 + seconds % 60 == seconds
  {
  }

  /** Both formatters ignore the seconds beyond the last whole minute. */
  lemma FormatDropsSeconds(minutes: nat, extra: nat)
    requires extra < 60
    ensures FormatSeconds(minutes * 60 + extra) == FormatSeconds(minutes * 60)
    ensures FormatSecondsShort(minutes * 60 + extra) == FormatSecondsShort(minutes * 60)
  {
    var h, m := minutes / 60, minutes % 60;
    assert minutes * 60 == h * 3600 + m * 60;
    DivModUnique(minutes * 60 + extra, 3600, h, m * 60 + extra);
    DivModUnique(minutes * 60, 3600, h, m * 60);
    DivModUnique(m * 60 + extra, 60, m, extra);
    DivModUnique(m * 60, 60, m, 0);
  }

  /** Parses a settings identifier back into a duration. */
  function From(id: string): (r: Option<Duration>)
    ensures r.Some? && r.value.Custom? ==> StartsWith(id, "custom-")
  {
    if id == "30m" then Some(ThirtyMinutes)
    else if id == "1h" then Some(OneHour)
    else if id == "2h" then Some(TwoHours)
    else if id == "4h" then Some(FourHours)
    else if id == "indefinite" then Some(Indefinite)
    else if StartsWith(id, "custom-") && ParseInt(id[7..]).Some? then Some(Custom(ParseInt(id[7..]).value))
    else None
  }

  /** Every duration, a custom one included, survives the trip through its identifier. */
  lemma FromIdRoundTrip(d: Duration)
    ensures From(Id(d)) == Some(d)
  {
    if d.Custom? {
      var id := Id(d);
      assert id[0] == 'c';
      assert id[7..] == IntToString(d.seconds);
      ParseIntOfIntToString(d.seconds);
    }
  }

  /** `From` accepts exactly the five preset identifiers and "custom-" followed by a 64-bit integer. */
  lemma FromAcceptsExactly(id: string)
    ensures From(id).Some? <==>
      (id in {"30m", "1h", "2h", "4h", "indefinite"} || (StartsWith(id, "custom-") && ParseInt(id[7..]).Some?))
  {
  }

  /** Identifiers determine durations: two durations with the same identifier are equal. */
  lemma IdInjective(d1: Duration, d2: Duration)
    requires Id(d1) == Id(d2)
    ensures d1 == d2
  {
    FromIdRoundTrip(d1);
    FromIdRoundTrip(d2);
  }
}
