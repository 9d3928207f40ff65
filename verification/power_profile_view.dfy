/** The front end's power-profile panel (src/components/PowerProfileButton.tsx). */
module PowerProfileView {
  import opened Wrappers
  import opened Text
  import opened Power

  /** `formatSleepTime`: a `pmset` sleep setting in minutes, for display. */
  function FormatSleepTime(minutes: Option<nat>): string {
    match minutes
    case None => "Not set"
    case Some(n) =>
      if n == 0 then "Never"
      else if n >= 60 then
        var h, m := n / 60, n % 60;
        if m > 0 then IntToString(h) + "h " + IntToString(m) + "m" else IntToString(h) + "h"
      else IntToString(n) + "m"
  }

  /** Reads a displayed sleep setting back: the partner of `FormatSleepTime`. */
  function ParseSleepTime(text: string): Option<Option<nat>> {
    if text == "Not set" then Some(None)
    else if text == "Never" then Some(Some(0))
    else if 'h' in text then
      var hs := Before(text, 'h');
      ParseHours(hs, text[|hs| + 1..])
    else ParseMinutes(text)
  }

  /** An hour count and what follows its "h": nothing, or " <minutes>m". */
  function ParseHours(hs: string, rest: string): Option<Option<nat>> {
    if hs == [] || !AllDigits(hs) then None
    else if rest == [] then Some(Some(DigitsValue(hs) * 60))
    else if |rest| >= 3 && rest[0] == ' ' && rest[|rest| - 1] == 'm' && AllDigits(rest[1..|rest| - 1]) then
      Some(Some(DigitsValue(hs) * 60 + DigitsValue(rest[1..|rest| - 1])))
    else None
  }

  /** A minute count followed by "m". */
  function ParseMinutes(text: string): Option<Option<nat>> {
    if |text| >= 2 && text[|text| - 1] == 'm' && AllDigits(text[..|text| - 1]) then
      Some(Some(DigitsValue(text[..|text| - 1])))
    else None
  }

  /** A rendered count in minutes followed by "m" reads back as that count. */
  lemma MinutesReadBack(n: nat)
    requires n > 0
    ensures ParseSleepTime(IntToString(n) + "m") == Some(Some(n))
  {
    var digits := NatToString(n);
    var text := digits + "m";
    assert 'h' !in text by {
      assert forall i :: 0 <= i < |digits| ==> text[i] == digits[i];
    }
    assert text[..|text| - 1] == digits;
    assert text != "Not set" && text != "Never" by { assert text[|text| - 1] == 'm'; }
    DigitsValueOfNatToString(n);
  }

  /** Text made of an hour count, "h" and an optional " <minutes>m" reads back as the total in minutes. */
  lemma HoursFormReadBack(h: nat, rest: string)
    requires rest == [] || (|rest| >= 3 && rest[0] == ' ' && rest[|rest| - 1] == 'm' && AllDigits(rest[1..|rest| - 1]))
    ensures var text := NatToString(h) + "h" + rest;
      ParseSleepTime(text) == Some(Some(h * 60 + if rest == [] then 0 else DigitsValue(rest[1..|rest| - 1])))
  {
    var hs := NatToString(h);
    var text := hs + "h" + rest;
    assert 'h' !in hs by { assert AllDigits(hs); }
    BeforeFirst(hs, 'h', rest);
    assert text[|hs|] == 'h';
    assert text != "Not set" && text != "Never" by { assert IsDigit(text[0]); }
    assert text[|hs| + 1..] == rest;
    assert ParseSleepTime(text) == ParseHours(hs, rest);
    DigitsValueOfNatToString(h);
  }

  /** What follows the "h" of a displayed hour count: " <m>m" for a positive remainder, else nothing. */
  function MinutesSuffix(m: nat): string {
    if m > 0 then " " + NatToString(m) + "m" else []
  }

  lemma MinutesSuffixShape(m: nat)
    ensures var rest := MinutesSuffix(m);
      rest == [] || (|rest| >= 3 && rest[0] == ' ' && rest[|rest| - 1] == 'm' && AllDigits(rest[1..|rest| - 1]))
    ensures m > 0 ==> DigitsValue(MinutesSuffix(m)[1..|MinutesSuffix(m)| - 1]) == m
    ensures m == 0 ==> MinutesSuffix(m) == []
  {
    if m > 0 {
      var rest := MinutesSuffix(m);
      assert rest[1..|rest| - 1] == NatToString(m);
      DigitsValueOfNatToString(m);
    }
  }

  lemma FormatHoursShape(n: nat)
    requires n >= 60
    ensures FormatSleepTime(Some(n)) == NatToString(n / 60) + "h" + MinutesSuffix(n % 60)
  {
  }

  /** Whole hours, with or without a minutes part, read back as their total in minutes. */
  lemma HoursReadBack(n: nat)
    requires n >= 60
    ensures ParseSleepTime(FormatSleepTime(Some(n))) == Some(Some(n))
  {
    var h, m := n / 60, n % 60;
    FormatHoursShape(n);
    MinutesSuffixShape(m);
    HoursFormReadBack(h, MinutesSuffix(m));
    assert n == h * 60 + m;
  }

  /** Every displayed setting reads back as the setting: distinct settings are displayed differently. */
  lemma SleepTimeRoundTrip(minutes: Option<nat>)
    ensures ParseSleepTime(FormatSleepTime(minutes)) == Some(minutes)
  {
    if minutes.Some? && minutes.value > 0 {
      if minutes.value >= 60 {
        HoursReadBack(minutes.value);
      } else {
        MinutesReadBack(minutes.value);
      }
    }
  }

  /** The panel's state. */
  class Panel {
    var isOpen: bool
    var profile: Option<PowerProfile>
    var loading: bool
    var error: Option<string>
    /** How many times `get_power_profile` was invoked. */
    var requests: nat

    constructor()
      ensures !isOpen && profile.None? && !loading && error.None? && requests == 0
    {
      isOpen := false;
      profile := None;
      loading := false;
      error := None;
      requests := 0;
    }

    /** The synchronous start of `fetchProfile`: loading, with the error cleared. */
    method BeginFetch()
      modifies this
      ensures loading && error.None? && profile == old(profile) && isOpen == old(isOpen) && requests == old(requests) + 1
    {
      loading := true;
      error := None;
      requests := requests + 1;
    }

    /** The rest of `fetchProfile`: keep the profile or the error message; loading always ends. */
    method CompleteFetch(result: Result<PowerProfile, string>)
      modifies this
      ensures !loading && isOpen == old(isOpen) && requests == old(requests)
      ensures result.Ok? ==> profile == Some(result.value) && error == old(error)
      ensures result.Err? ==> profile == old(profile) && error == Some(result.error)
    {
      if result.Ok? {
        profile := Some(result.value);
      } else {
        error := Some(result.error);
      }
      loading := false;
    }

    /** Opening the panel fetches the profile; opening it again while open does not. */
    method Open(result: Result<PowerProfile, string>)
      modifies this
      ensures isOpen
      ensures old(isOpen) ==>
        profile == old(profile) && loading == old(loading) && error == old(error) && requests == old(requests)
      ensures !old(isOpen) ==> !loading && requests == old(requests) + 1
      ensures !old(isOpen) && result.Ok? ==> profile == Some(result.value) && error.None?
      ensures !old(isOpen) && result.Err? ==> profile == old(profile) && error == Some(result.error)
    {
      if isOpen {
        return;
      }
      isOpen := true;
      BeginFetch();
      CompleteFetch(result);
    }

    method Close()
      modifies this
      ensures !isOpen && profile == old(profile) && loading == old(loading) && error == old(error) && requests == old(requests)
    {
      isOpen := false;
    }

    /** The profile is shown once loaded and while no fetch is under way. */
    predicate ShowsProfile()
      reads this
    {
      isOpen && profile.Some? && !loading
    }
  }
}
