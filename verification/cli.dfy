/** The command-line tool (CaffeinatorCLI/main.swift): command dispatch, durations and arguments. */
module Cli {
  import opened Wrappers
  import opened IntMath
  import opened Text
  import Durations

  datatype Command = On | Off | Status | Watch | Help | Version

  function RawValue(c: Command): string {
    match c
    case On => "on"
    case Off => "off"
    case Status => "status"
    case Watch => "watch"
    case Help => "help"
    case Version => "version"
  }

  /** `Command(rawValue: s.lowercased())`. */
  function CommandOf(s: string): Option<Command> {
    var l := Lower(s);
    if l == "on" then Some(On)
    else if l == "off" then Some(Off)
    else if l == "status" then Some(Status)
    else if l == "watch" then Some(Watch)
    else if l == "help" then Some(Help)
    else if l == "version" then Some(Version)
    else None
  }

  /** Command names match ignoring case: a name is recognised exactly when its lower-cased form is a command's raw value. */
  lemma CommandNamesIgnoreCase(c: Command, s: string)
    ensures CommandOf(s).Some? ==> RawValue(CommandOf(s).value) == Lower(s)
    ensures Lower(s) == RawValue(c) ==> CommandOf(s) == Some(c)
  {
  }

  /** The raw values themselves are recognised. */
  lemma RawValuesRecognised(c: Command)
    ensures CommandOf(RawValue(c)) == Some(c)
  {
    LowerNoCapitals(RawValue(c));
  }

  /** What `main` does with its arguments (the program name already dropped). */
  datatype Invocation = NoCommand | UnknownCommand(name: string) | Run(command: Command, rest: seq<string>)

  function Dispatch(args: seq<string>): (r: Invocation)
    ensures r == NoCommand <==> args == []
    ensures r.UnknownCommand? <==> args != [] && CommandOf(args[0]).None?
    ensures r.UnknownCommand? ==> r.name == args[0]
    ensures r.Run? ==> Some(r.command) == CommandOf(args[0]) && r.rest == args[1..]
  {
    if args == [] then NoCommand
    else match CommandOf(args[0])
      case None => UnknownCommand(args[0])
      case Some(c) => Run(c, args[1..])
  }

  /** The exit status `main` itself decides: 0 after printing the usage, 1 for an unknown command. */
  function ExitStatus(i: Invocation): (r: Option<int>)
    ensures r == Some(1) <==> i.UnknownCommand?
    ensures r == Some(0) <==> i.NoCommand?
  {
    match i
    case NoCommand => Some(0)
    case UnknownCommand(_) => Some(1)
    case Run(_, _) => None
  }

  /** `n` is one of the ten code points of the digit block starting at `zero`. */
  predicate DigitBlock(n: int, zero: int) { zero <= n <= zero + 9 }

  /**
   * The code points of the decimal digits (general category Nd) of Unicode 15.0 outside ASCII,
   * block by block, each block given by the code point of its zero. `NSRegularExpression` runs
   * on ICU, whose `\d` matches every Nd character.
   */
  predicate OtherScriptDigit(n: int) {
    DigitBlock(n, 0x660) || DigitBlock(n, 0x6F0) || DigitBlock(n, 0x7C0) || DigitBlock(n, 0x966)
    || DigitBlock(n, 0x9E6) || DigitBlock(n, 0xA66) || DigitBlock(n, 0xAE6) || DigitBlock(n, 0xB66)
    || DigitBlock(n, 0xBE6) || DigitBlock(n, 0xC66) || DigitBlock(n, 0xCE6) || DigitBlock(n, 0xD66)
    || DigitBlock(n, 0xDE6) || DigitBlock(n, 0xE50) || DigitBlock(n, 0xED0) || DigitBlock(n, 0xF20)
    || DigitBlock(n, 0x1040) || DigitBlock(n, 0x1090) || DigitBlock(n, 0x17E0) || DigitBlock(n, 0x1810)
    || DigitBlock(n, 0x1946) || DigitBlock(n, 0x19D0) || DigitBlock(n, 0x1A80) || DigitBlock(n, 0x1A90)
    || DigitBlock(n, 0x1B50) || DigitBlock(n, 0x1BB0) || DigitBlock(n, 0x1C40) || DigitBlock(n, 0x1C50)
    || DigitBlock(n, 0xA620) || DigitBlock(n, 0xA8D0) || DigitBlock(n, 0xA900) || DigitBlock(n, 0xA9D0)
    || DigitBlock(n, 0xA9F0) || DigitBlock(n, 0xAA50) || DigitBlock(n, 0xABF0) || DigitBlock(n, 0xFF10)
    || DigitBlock(n, 0x104A0) || DigitBlock(n, 0x10D30) || DigitBlock(n, 0x11066) || DigitBlock(n, 0x110F0)
    || DigitBlock(n, 0x11136) || DigitBlock(n, 0x111D0) || DigitBlock(n, 0x112F0) || DigitBlock(n, 0x11450)
    || DigitBlock(n, 0x114D0) || DigitBlock(n, 0x11650) || DigitBlock(n, 0x116C0) || DigitBlock(n, 0x11730)
    || DigitBlock(n, 0x118E0) || DigitBlock(n, 0x11950) || DigitBlock(n, 0x11C50) || DigitBlock(n, 0x11D50)
    || DigitBlock(n, 0x11DA0) || DigitBlock(n, 0x11F50) || DigitBlock(n, 0x16A60) || DigitBlock(n, 0x16AC0)
    || DigitBlock(n, 0x16B50) || DigitBlock(n, 0x1D7CE) || DigitBlock(n, 0x1D7D8) || DigitBlock(n, 0x1D7E2)
    || DigitBlock(n, 0x1D7EC) || DigitBlock(n, 0x1D7F6) || DigitBlock(n, 0x1E140) || DigitBlock(n, 0x1E2F0)
    || DigitBlock(n, 0x1E4F0) || DigitBlock(n, 0x1E950) || DigitBlock(n, 0x1FBF0)
  }

  /** A character `\d` matches: an ASCII digit, or a digit of another script (all of which lie above U+065F). */
  predicate RegexDigit(c: char) {
    if c < '\U{660}' then IsDigit(c) else OtherScriptDigit(c as int)
  }

  predicate RegexDigits(s: string) { forall i :: 0 <= i < |s| ==> RegexDigit(s[i]) }

  /** Every ASCII digit run is one `\d+` matches. */
  lemma AsciiDigitsMatch(s: string)
    requires AllDigits(s)
    ensures RegexDigits(s)
  {
    forall i | 0 <= i < |s| ensures RegexDigit(s[i]) {
      assert IsDigit(s[i]);
    }
  }

  /** The longest prefix of `s` that `\d+` covers. */
  function RegexDigitPrefix(s: string): (d: string)
    ensures StartsWith(s, d) && RegexDigits(d)
    ensures |d| < |s| ==> !RegexDigit(s[|d|])
  {
    if s == [] || !RegexDigit(s[0]) then [] else [s[0]] + RegexDigitPrefix(s[1..])
  }

  /** The `\d` run in front of a character `\d` does not match is exactly that run. */
  lemma {:induction false} RegexDigitPrefixOf(d: string, rest: string)
    requires RegexDigits(d) && (rest == [] || !RegexDigit(rest[0]))
    ensures RegexDigitPrefix(d + rest) == d
    decreases |d|
  {
    if d == [] {
      assert d + rest == rest;
    } else {
      assert (d + rest)[1..] == d[1..] + rest;
      RegexDigitPrefixOf(d[1..], rest);
      assert d == [d[0]] + d[1..];
    }
  }

  /**
   * The regular expression `(\d+)h(\d+)m` tried at offset `i`: the digit runs are maximal, since
   * a shorter run would leave a digit where the letter must be.
   */
  function MatchHoursMinutesAt(s: string, i: nat): (r: Option<(string, string)>)
    requires i <= |s|
    ensures r.Some? ==> r.value.0 != [] && RegexDigits(r.value.0) && r.value.1 != [] && RegexDigits(r.value.1)
  {
    var hours := RegexDigitPrefix(s[i..]);
    var j := i + |hours|;
    if hours == [] || j >= |s| || s[j] != 'h' then None
    else
      var minutes := RegexDigitPrefix(s[j + 1..]);
      var k := j + 1 + |minutes|;
      if minutes == [] || k >= |s| || s[k] != 'm' then None
      else Some((hours, minutes))
  }

  /** `firstMatch(in:)`: the leftmost offset at or after `i` where the expression matches. */
  function FirstMatchFrom(s: string, i: nat): (r: Option<(string, string)>)
    requires i <= |s|
    ensures r.Some? ==> r.value.0 != [] && RegexDigits(r.value.0) && r.value.1 != [] && RegexDigits(r.value.1)
    decreases |s| - i
  {
    match MatchHoursMinutesAt(s, i)
    case Some(m) => Some(m)
    case None => if i == |s| then None else FirstMatchFrom(s, i + 1)
  }

  /** Swift `Int(...)` of a string, scaled when it parses. */
  function Scaled(s: string, unit: int): Option<int> {
    match ParseInt(s)
    case Some(n) => Some(n * unit)
    case None => None
  }

  /** The suffix branches of `parseDuration` on the lower-cased text: hours, minutes, seconds or bare minutes. */
  function SuffixDuration(l: string): Option<int> {
    if EndsWith(l, "h") then Scaled(l[..|l| - 1], 3600)
    else if EndsWith(l, "m") then Scaled(l[..|l| - 1], 60)
    else if EndsWith(l, "s") then Scaled(l[..|l| - 1], 1)
    else Scaled(l, 60)
  }

  /** `parseDuration`: the suffix forms first, then the first `<h>h<m>m` anywhere in the text. */
  function ParseDuration(str: string): Option<int> {
    var l := Lower(str);
    match SuffixDuration(l)
    case Some(n) => Some(n)
    case None =>
      match FirstMatchFrom(l, 0)
      case Some((h, m)) => Some(MatchSeconds(h, m))
      case None => None
  }

  /** The expression's groups read as Swift integers, 0 for one that does not fit or holds a non-ASCII digit (`?? 0`). */
  function MatchSeconds(hours: string, minutes: string): int {
    ParseInt(hours).GetOr(0) * 3600 + ParseInt(minutes).GetOr(0) * 60
  }

  /** A rendered integer has no capital letters. */
  lemma NumeralHasNoCapitals(n: int)
    ensures forall i :: 0 <= i < |IntToString(n)| ==> IsDigit(IntToString(n)[i]) || IntToString(n)[i] == '-'
  {
    if n < 0 {
      var d := NatToString(-n);
      assert IntToString(n) == "-" + d;
      forall i | 1 <= i < |IntToString(n)| ensures IsDigit(IntToString(n)[i]) {
        assert IntToString(n)[i] == d[i - 1];
      }
    }
  }

  /** `<n>h` is n hours, `<n>m` n minutes, `<n>s` n seconds and a bare `<n>` n minutes, in seconds. */
  lemma ParseDurationUnits(n: int)
    requires InInt64(n)
    ensures var r := ParseDuration(IntToString(n) + "h"); r.Some? && r.value == n * 3600
    ensures var r := ParseDuration(IntToString(n) + "m"); r.Some? && r.value == n * 60
    ensures var r := ParseDuration(IntToString(n) + "s"); r.Some? && r.value == n
    ensures var r := ParseDuration(IntToString(n)); r.Some? && r.value == n * 60
  {
    ParseDurationWithUnit(n, "h", 3600);
    ParseDurationWithUnit(n, "m", 60);
    ParseDurationWithUnit(n, "s", 1);
    ParseDurationBare(n);
  }

  lemma ParseDurationBare(n: int)
    requires InInt64(n)
    ensures var r := ParseDuration(IntToString(n)); r.Some? && r.value == n * 60
  {
    var d := IntToString(n);
    NumeralHasNoCapitals(n);
    LowerNoCapitals(d);
    assert !EndsWith(d, "h") && !EndsWith(d, "m") && !EndsWith(d, "s") by {
      assert IsDigit(d[|d| - 1]) by {
        if n < 0 {
          assert d[|d| - 1] == NatToString(-n)[|NatToString(-n)| - 1];
        }
      }
    }
    ScaledNumeral(n, 60);
  }

  lemma ParseDurationWithUnit(n: int, unit: string, scale: int)
    requires InInt64(n)
    requires (unit == "h" && scale == 3600) || (unit == "m" && scale == 60) || (unit == "s" && scale == 1)
    ensures var r := ParseDuration(IntToString(n) + unit); r.Some? && r.value == n * scale
  {
    var d := IntToString(n);
    var s := d + unit;
    NumeralHasNoCapitals(n);
    UnitIsKept(d, unit);
    assert s[|s| - 1] == unit[0];
    assert s[..|s| - 1] == d;
    ScaledNumeral(n, scale);
    assert SuffixDuration(s) == Scaled(d, scale);
  }

  lemma ScaledNumeral(n: int, scale: int)
    requires InInt64(n)
    ensures var r := Scaled(IntToString(n), scale); r.Some? && r.value == n * scale
  {
    ParseIntOfIntToString(n);
  }

  lemma UnitIsKept(d: string, unit: string)
    requires forall i :: 0 <= i < |d| ==> IsDigit(d[i]) || d[i] == '-'
    requires unit == "h" || unit == "m" || unit == "s"
    ensures Lower(d + unit) == d + unit && (d + unit)[..|d|] == d
  {
    var s := d + unit;
    forall i | 0 <= i < |s| ensures !('A' <= s[i] <= 'Z') {
      if i < |d| {
        assert s[i] == d[i];
      }
    }
    LowerNoCapitals(s);
  }

  /** The text `<h>h<m>m`. */
  function HoursMinutesText(hs: string, ms: string): string {
    hs + "h" + ms + "m"
  }

  /** `<h>h<m>m` is h hours and m minutes, in seconds: the minutes suffix fails to parse and the expression takes over. */
  lemma ParseDurationHoursMinutes(hs: string, ms: string, h: int, m: int)
    requires hs != [] && AllDigits(hs) && ms != [] && AllDigits(ms)
    requires h == DigitsValue(hs) && m == DigitsValue(ms) && InInt64(h) && InInt64(m)
    ensures ParseDuration(HoursMinutesText(hs, ms)).Some?
    ensures ParseDuration(HoursMinutesText(hs, ms)).value == h * 3600 + m * 60
  {
    ParseIntOfDigits(hs);
    ParseIntOfDigits(ms);
    AsciiDigitsMatch(hs);
    AsciiDigitsMatch(ms);
    HoursMinutesIsLower(hs, ms);
    HoursMinutesIsNoSuffixForm(hs, ms);
    HoursMinutesMatchesAtStart(hs, ms);
  }

  /** On `\d` runs, the expression's branch reads the two runs (`?? 0` when one is no Swift integer). */
  lemma ParseDurationOfDigits(hs: string, ms: string)
    requires hs != [] && RegexDigits(hs) && ms != [] && RegexDigits(ms)
    ensures ParseDuration(HoursMinutesText(hs, ms)) == Some(MatchSeconds(hs, ms))
  {
    HoursMinutesIsLower(hs, ms);
    HoursMinutesIsNoSuffixForm(hs, ms);
    HoursMinutesMatchesAtStart(hs, ms);
  }

  lemma HoursMinutesIsLower(hs: string, ms: string)
    requires RegexDigits(hs) && RegexDigits(ms)
    ensures Lower(HoursMinutesText(hs, ms)) == HoursMinutesText(hs, ms)
  {
    var s := HoursMinutesText(hs, ms);
    forall i | 0 <= i < |s| ensures !('A' <= s[i] <= 'Z') {
      if i < |hs| {
        assert s[i] == hs[i] && RegexDigit(hs[i]);
      } else if |hs| < i < |hs| + 1 + |ms| {
        assert s[i] == ms[i - |hs| - 1] && RegexDigit(ms[i - |hs| - 1]);
      }
    }
    LowerNoCapitals(s);
  }

  /** The text before the minutes suffix holds the letter h, so it is no integer. */
  lemma HoursMinutesIsNoSuffixForm(hs: string, ms: string)
    requires hs != [] && RegexDigits(hs)
    ensures SuffixDuration(HoursMinutesText(hs, ms)) == None
  {
    var s := HoursMinutesText(hs, ms);
    var front := s[..|s| - 1];
    assert s[|s| - 1] == 'm';
    assert front[0] == hs[0] && RegexDigit(hs[0]) && front[|hs|] == 'h';
    assert !AllDigits(front);
  }

  /** The expression matches `<h>h<m>m` at its start, capturing both digit runs. */
  lemma HoursMinutesMatchesAtStart(hs: string, ms: string)
    requires hs != [] && RegexDigits(hs) && ms != [] && RegexDigits(ms)
    ensures FirstMatchFrom(HoursMinutesText(hs, ms), 0) == Some((hs, ms))
  {
    var s := HoursMinutesText(hs, ms);
    HoursMinutesPieces(hs, ms);
    assert MatchHoursMinutesAt(s, 0) == Some((hs, ms));
  }

  lemma HoursMinutesPieces(hs: string, ms: string)
    requires RegexDigits(hs) && RegexDigits(ms)
    ensures var s := HoursMinutesText(hs, ms);
      && RegexDigitPrefix(s[0..]) == hs
      && |hs| < |s| && s[|hs|] == 'h'
      && RegexDigitPrefix(s[|hs| + 1..]) == ms
      && |hs| + 1 + |ms| < |s| && s[|hs| + 1 + |ms|] == 'm'
  {
    var s := HoursMinutesText(hs, ms);
    assert s[0..] == hs + ("h" + ms + "m");
    RegexDigitPrefixOf(hs, "h" + ms + "m");
    assert s[|hs| + 1..] == ms + "m";
    RegexDigitPrefixOf(ms, "m");
  }

  /**
   * Digits of other scripts match `\d` but no Swift integer holds them, so such a run counts as 0:
   * Arabic-Indic "١h٢m" is no time at all and "1h٢m" is one hour.
   */
  lemma OtherScriptDigitsCountAsZero(one: string, arabicOne: string, arabicTwo: string)
    requires one == "1" && arabicOne == "\U{661}" && arabicTwo == "\U{662}"
    ensures ParseDuration(HoursMinutesText(arabicOne, arabicTwo)) == Some(0)
    ensures ParseDuration(HoursMinutesText(one, arabicTwo)) == Some(3600)
  {
    assert RegexDigit(arabicOne[0]) && RegexDigit(arabicTwo[0]) && IsDigit(one[0]);
    OtherScriptRunCountsAsZero(arabicOne, arabicTwo);
    OtherScriptRunCountsAsZero(one, arabicTwo);
    assert ParseInt(arabicOne) == None;
    assert ParseInt(one).GetOr(0) == 1 by {
      ParseIntOfDigits(one);
      assert one[..0] == [];
    }
  }

  /** A minutes run that holds a digit of another script is no Swift integer, so only the hours count. */
  lemma OtherScriptRunCountsAsZero(hs: string, ms: string)
    requires hs != [] && RegexDigits(hs) && ms != [] && RegexDigits(ms) && !AllDigits(ms)
    ensures var r := ParseDuration(HoursMinutesText(hs, ms)); r.Some? && r.value == ParseInt(hs).GetOr(0) * 3600
  {
    ParseDurationOfDigits(hs, ms);
    assert ParseInt(ms) == None by {
      assert RegexDigit(ms[0]);
    }
  }

  /** Text without a character `\d` matches is no duration: every branch needs at least one digit. */
  lemma ParseDurationNeedsDigit(str: string)
    requires forall i :: 0 <= i < |str| ==> !RegexDigit(str[i])
    ensures ParseDuration(str) == None
  {
    var l := Lower(str);
    LowerKeepsNoDigit(str);
    assert SuffixDuration(l) == None by {
      NoDigitNoInt(l);
      if |l| > 0 {
        NoDigitNoInt(l[..|l| - 1]);
      }
    }
    NoMatchWithoutDigit(l, 0);
  }

  lemma LowerKeepsNoDigit(str: string)
    requires forall i :: 0 <= i < |str| ==> !RegexDigit(str[i])
    ensures forall i :: 0 <= i < |Lower(str)| ==> !RegexDigit(Lower(str)[i]) && !IsDigit(Lower(str)[i])
  {
    forall i | 0 <= i < |Lower(str)|
      ensures !RegexDigit(Lower(str)[i]) && !IsDigit(Lower(str)[i])
    {
      assert Lower(str)[i] == LowerChar(str[i]);
    }
  }

  lemma NoDigitNoInt(t: string)
    requires forall i :: 0 <= i < |t| ==> !IsDigit(t[i])
    ensures ParseInt(t) == None
  {
    if |t| > 1 {
      assert !IsDigit(t[1]) && !IsDigit(t[0]);
    }
  }

  lemma {:induction false} NoMatchWithoutDigit(s: string, i: nat)
    requires i <= |s| && forall k :: 0 <= k < |s| ==> !RegexDigit(s[k])
    ensures FirstMatchFrom(s, i) == None
    decreases |s| - i
  {
    assert RegexDigitPrefix(s[i..]) == [] by {
      assert s[i..] == [] || s[i..][0] == s[i];
    }
    if i < |s| {
      NoMatchWithoutDigit(s, i + 1);
    }
  }

  /** `formatDuration`: the same hours, minutes and plural rules as the app's duration formatter. */
  function FormatDuration(seconds: int): (r: string)
    ensures r == Durations.FormatSeconds(seconds)
  {
    var hours := Quot(seconds, 3600);
    var minutes := Quot(Rem(seconds, 3600), 60);
    if hours > 0 && minutes > 0 then
      IntToString(hours) + "h " + IntToString(minutes) + "m"
    else if hours > 0 then
      IntToString(hours) + " hour" + (if hours > 1 then "s" else "")
    else
      IntToString(minutes) + " minute" + (if minutes > 1 then "s" else "")
  }

  /** An argument of `on` that starts with `-` is passed on as a flag. */
  predicate IsFlag(arg: string) {
    StartsWith(arg, "-")
  }

  /** The flags among the arguments of `on`, in order. */
  function FlagArguments(args: seq<string>): seq<string>
    decreases |args|
  {
    if args == [] then []
    else
      var arg := args[|args| - 1];
      FlagArguments(args[..|args| - 1]) + (if IsFlag(arg) then [arg] else [])
  }

  /** The flags of a concatenation are the first part's followed by the second part's. */
  lemma {:induction false} FlagArgumentsAppend(a: seq<string>, b: seq<string>)
    ensures FlagArguments(a + b) == FlagArguments(a) + FlagArguments(b)
    decreases |b|
  {
    if b == [] {
      assert a + b == a;
    } else {
      var ab := a + b;
      assert ab[|ab| - 1] == b[|b| - 1];
      assert ab[..|ab| - 1] == a + b[..|b| - 1];
      FlagArgumentsAppend(a, b[..|b| - 1]);
    }
  }

  /** The value of the last argument that is not a flag and parses as a duration. */
  function LastDuration(args: seq<string>): Option<int>
    decreases |args|
  {
    if args == [] then None
    else
      var arg := args[|args| - 1];
      if !IsFlag(arg) && ParseDuration(arg).Some? then ParseDuration(arg)
      else LastDuration(args[..|args| - 1])
  }

  /** The `caffeinate` arguments of `on`: the flags (`-i` when there are none), then `-t` and the duration when one was given. */
  function OnArguments(args: seq<string>): seq<string> {
    var flags := FlagArguments(args);
    (if flags == [] then ["-i"] else flags)
      + (match LastDuration(args) case Some(d) => ["-t", IntToString(d)] case None => [])
  }

  /** The argument loop of `handleOn`: flags after the idle default, and the last duration. */
  method ScanOnArguments(args: seq<string>) returns (modes: seq<string>, duration: Option<int>)
    ensures modes == ["-i"] + FlagArguments(args)
    ensures duration == LastDuration(args)
  {
    duration := None;
    modes := ["-i"];
    for i := 0 to |args|
      invariant modes == ["-i"] + FlagArguments(args[..i])
      invariant duration == LastDuration(args[..i])
    {
      OnStepAt(args, i);
      if IsFlag(args[i]) {
        modes := modes + [args[i]];
      } else {
        var parsed := ParseDuration(args[i]);
        if parsed.Some? {
          duration := parsed;
        }
      }
    }
    assert args[..|args|] == args;
  }

  /** `handleOn`'s `caffeinate` arguments: the default dropped when flags were given, then `-t` and the duration. */
  method BuildOnArguments(args: seq<string>) returns (processArgs: seq<string>)
    ensures processArgs == OnArguments(args)
  {
    var modes, duration := ScanOnArguments(args);
    if |modes| > 1 {
      modes := modes[1..];
    }
    processArgs := modes;
    if duration.Some? {
      processArgs := processArgs + ["-t", IntToString(duration.value)];
    }
  }

  /** One more argument: a flag joins the flags, a duration replaces the last one. */
  lemma OnStep(prefix: seq<string>, arg: string)
    ensures FlagArguments(prefix + [arg]) == FlagArguments(prefix) + (if IsFlag(arg) then [arg] else [])
    ensures LastDuration(prefix + [arg])
      == if !IsFlag(arg) && ParseDuration(arg).Some? then ParseDuration(arg) else LastDuration(prefix)
  {
    assert (prefix + [arg])[..|prefix|] == prefix;
  }

  /** `OnStep` for the argument at index `i`. */
  lemma OnStepAt(args: seq<string>, i: nat)
    requires i < |args|
    ensures FlagArguments(args[..i + 1]) == FlagArguments(args[..i]) + (if IsFlag(args[i]) then [args[i]] else [])
    ensures LastDuration(args[..i + 1])
      == if !IsFlag(args[i]) && ParseDuration(args[i]).Some? then ParseDuration(args[i]) else LastDuration(args[..i])
  {
    assert args[..i + 1] == args[..i] + [args[i]];
    OnStep(args[..i], args[i]);
  }

  /** The last duration of a concatenation is the second part's, if it has one. */
  lemma {:induction false} LastDurationAppend(a: seq<string>, b: seq<string>)
    ensures LastDuration(a + b) == if LastDuration(b).Some? then LastDuration(b) else LastDuration(a)
    decreases |b|
  {
    if b == [] {
      assert a + b == a;
    } else {
      var ab := a + b;
      assert ab[|ab| - 1] == b[|b| - 1];
      assert ab[..|ab| - 1] == a + b[..|b| - 1];
      LastDurationAppend(a, b[..|b| - 1]);
    }
  }

  /** An argument that is neither a flag nor a duration is ignored wherever it stands. */
  lemma OnIgnoresOtherArguments(a: seq<string>, x: string, b: seq<string>)
    requires !IsFlag(x) && ParseDuration(x).None?
    ensures OnArguments(a + [x] + b) == OnArguments(a + b)
  {
    IgnoredFlagPart(a, x, b);
    IgnoredDurationPart(a, x, b);
  }

  lemma IgnoredFlagPart(a: seq<string>, x: string, b: seq<string>)
    requires !IsFlag(x)
    ensures FlagArguments(a + [x] + b) == FlagArguments(a + b)
  {
    FlagArgumentsAppend(a + [x], b);
    FlagArgumentsAppend(a, [x]);
    FlagArgumentsAppend(a, b);
    assert [x][..0] == [];
  }

  lemma IgnoredDurationPart(a: seq<string>, x: string, b: seq<string>)
    requires !IsFlag(x) && ParseDuration(x).None?
    ensures LastDuration(a + [x] + b) == LastDuration(a + b)
  {
    LastDurationAppend(a + [x], b);
    OnStep(a, x);
    LastDurationAppend(a, b);
  }

  /** A duration followed by no other duration is the one `on` uses. */
  lemma OnLastDurationWins(a: seq<string>, x: string, b: seq<string>)
    requires !IsFlag(x) && ParseDuration(x).Some? && LastDuration(b).None?
    ensures LastDuration(a + [x] + b) == ParseDuration(x)
    ensures var r := OnArguments(a + [x] + b);
      r[|r| - 2..] == ["-t", IntToString(ParseDuration(x).value)]
  {
    LastDurationAppend(a + [x], b);
    LastDurationAppend(a, [x]);
  }

  /** Without flags `on` keeps the idle default, and with flags the default is gone: the flags are passed in order. */
  lemma OnFlagsReplaceDefault(args: seq<string>)
    ensures var r := OnArguments(args);
      && (FlagArguments(args) == [] ==> r[0] == "-i")
      && (FlagArguments(args) != [] ==> r[..|FlagArguments(args)|] == FlagArguments(args))
    ensures LastDuration(args).None? ==> OnArguments(args) == (if FlagArguments(args) == [] then ["-i"] else FlagArguments(args))
  {
  }

  /** Swift `Int32(String)`. */
  function ParseInt32(s: string): (r: Option<int>)
    ensures r.Some? ==> InInt32(r.value) && ParseInt(s) == r
    ensures ParseInt(s).Some? && InInt32(ParseInt(s).value) ==> r == ParseInt(s)
  {
    match ParseInt(s)
    case Some(n) => if InInt32(n) then Some(n) else None
    case None => None
  }

  datatype WatchError = MissingTarget | InvalidPid | NotFound(target: string)

  /**
   * The target of `watch`: `--pid` and the number after it, or a process name resolved by
   * `pgrep` (`foundByName`, the first pid it printed, if any).
   */
  function WatchPid(args: seq<string>, foundByName: Option<int>): (r: Result<int, WatchError>)
    ensures args == [] <==> r == Err(MissingTarget)
    ensures args != [] && args[0] == "--pid" ==>
      (r.Ok? <==> |args| >= 2 && ParseInt32(args[1]).Some?) &&
      (r.Ok? ==> r.value == ParseInt32(args[1]).value && InInt32(r.value)) &&
      (r.Err? ==> r.error == InvalidPid)
    ensures args != [] && args[0] != "--pid" ==>
      r == (if foundByName.Some? then Ok(foundByName.value) else Err(NotFound(args[0])))
  {
    if args == [] then Err(MissingTarget)
    else if args[0] == "--pid" then
      if |args| >= 2 && ParseInt32(args[1]).Some? then Ok(ParseInt32(args[1]).value) else Err(InvalidPid)
    else if foundByName.Some? then Ok(foundByName.value)
    else Err(NotFound(args[0]))
  }

  /** `caffeinate -i -w <pid>`: keep the idle assertion while that process lives. */
  function WatchArguments(pid: int): (r: seq<string>)
    ensures |r| == 3 && r[0] == "-i" && r[1] == "-w"
    ensures InInt64(pid) ==> ParseInt(r[2]) == Some(pid)
  {
    ParseIntOfIntToString(if InInt64(pid) then pid else 0);
    ["-i", "-w", IntToString(pid)]
  }
}
