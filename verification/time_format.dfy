/** `TimeFormat.format` (Caffeinator/Utilities/DesignSystem.swift): a count of seconds in four styles. */
module TimeFormat {
  import opened IntMath
  import opened Text
  import Durations

  datatype Style = Standard | Compact | Verbose | Remaining

  /** The style used when none is given. */
  const DefaultStyle: Style := Standard

  /** Whole hours, the minutes left over and the seconds left over, with Swift's truncating operators. */
  function Hours(seconds: int): int { Quot(seconds, 3600) }
  function Minutes(seconds: int): int { Quot(Rem(seconds, 3600), 60) }
  function Secs(seconds: int): int { Rem(seconds, 60) }

  /** For a non-negative count the three fields are its mixed-radix digits. */
  lemma FieldsRecompose(seconds: nat)
    ensures Hours(seconds) * 3600 + Minutes(seconds) * 60 + Secs(seconds) == seconds
    ensures 0 <= Minutes(seconds) < 60 && 0 <= Secs(seconds) < 60 && Hours(seconds) >= 0
  {
    var h, r := seconds / 3600, seconds % 3600;
    var m, s := r / 60, r % 60;
    assert seconds == h * 3600 + m * 60 + s;
    DivModUnique(seconds, 60, h * 60 + m, s);
  }

  /** `%d:%02d:%02d` for hours, `%d:%02d` otherwise. */
  function Clock(seconds: int): string {
    var h, m, s := Hours(seconds), Minutes(seconds), Secs(seconds);
    if h > 0 then IntToString(h) + ":" + Pad2(m) + ":" + Pad2(s)
    else IntToString(m) + ":" + Pad2(s)
  }

  function Plural(n: int): string {
    if n > 1 then "s" else ""
  }

  function Format(seconds: int, style: Style := DefaultStyle): string {
    var h, m, s := Hours(seconds), Minutes(seconds), Secs(seconds);
    match style
    case Standard => Clock(seconds)
    case Compact => if h > 0 then IntToString(h) + ":" + Pad2(m) else IntToString(m) + "m"
    case Verbose =>
      if h > 0 && m > 0 then IntToString(h) + "h " + IntToString(m) + "m"
      else if h > 0 then IntToString(h) + " hour" + Plural(h)
      else if m > 0 then IntToString(m) + " minute" + Plural(m)
      else IntToString(s) + " second" + Plural(s)
    case Remaining => Clock(seconds) + " remaining"
  }

  /** The remaining style is the standard clock followed by " remaining". */
  lemma RemainingIsStandardClock(seconds: int)
    ensures Format(seconds, Remaining) == Format(seconds) + " remaining"
  {
  }

  /**
   * The standard clock ends in `:ss`, two zero-padded digits holding the seconds, preceded
   * by the minutes: two padded digits after the hours when there are hours, else the plain
   * minute count.
   */
  lemma StandardClockFields(seconds: nat)
    ensures var r := Format(seconds);
      && |r| >= 4 && r[|r| - 3] == ':' && AllDigits(r[|r| - 2..]) && DigitsValue(r[|r| - 2..]) == seconds % 60
      && (seconds >= 3600 ==>
            r[|r| - 6] == ':' && AllDigits(r[|r| - 5..|r| - 3]) && DigitsValue(r[|r| - 5..|r| - 3]) == (seconds % 3600) / 60
            && r[..|r| - 6] == IntToString(seconds / 3600))
      && (seconds < 3600 ==> r[..|r| - 3] == IntToString(seconds / 60))
  {
    FieldsRecompose(seconds);
    var h, m, s := Hours(seconds), Minutes(seconds), Secs(seconds);
    assert h == seconds / 3600 && m == (seconds % 3600) / 60 && s == seconds % 60;
    var r := Format(seconds);
    if h > 0 {
      var hs := IntToString(h);
      assert r == hs + ":" + Pad2(m) + ":" + Pad2(s);
      assert r[|r| - 2..] == Pad2(s);
      assert r[|r| - 5..|r| - 3] == Pad2(m);
      assert r[..|r| - 6] == hs;
    } else {
      assert seconds < 3600;
      DivModUnique(seconds, 60, m, s);
      assert r == IntToString(m) + ":" + Pad2(s);
      assert r[|r| - 2..] == Pad2(s);
      assert r[..|r| - 3] == IntToString(m);
    }
  }

  /** The compact style shows hours and two padded minute digits when there are hours, else the minutes and "m". */
  lemma CompactFields(seconds: nat)
    ensures var r := Format(seconds, Compact);
      && (seconds >= 3600 ==> r == IntToString(seconds / 3600) + ":" + Pad2((seconds % 3600) / 60)
                               && |Pad2((seconds % 3600) / 60)| == 2)
      && (seconds < 3600 ==> r == IntToString(seconds / 60) + "m")
  {
    FieldsRecompose(seconds);
    if seconds < 3600 {
      DivModUnique(seconds, 60, Minutes(seconds), Secs(seconds));
    }
  }

  /**
   * Once there is at least a minute, the verbose style says what the duration formatter says;
   * below a minute it counts seconds, plural exactly above one.
   */
  lemma VerboseAgreesWithDurationNames(seconds: int)
    ensures Hours(seconds) > 0 || Minutes(seconds) > 0 ==> Format(seconds, Verbose) == Durations.FormatSeconds(seconds)
    ensures Hours(seconds) <= 0 && Minutes(seconds) <= 0 ==>
      Format(seconds, Verbose) == IntToString(Secs(seconds)) + " second" + (if Secs(seconds) > 1 then "s" else "")
  {
  }
}
