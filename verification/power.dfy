/**
 * IOKit power assertions and the `pmset` readers of the Tauri back end (src-tauri/src/power.rs).
 * The two IOKit calls and the two `pmset` runs enter as their outcomes.
 */
module Power {
  import opened Wrappers
  import opened IntMath
  import opened Text

  datatype AssertionType = NoIdleSleep | NoDisplaySleep | PreventSystemSleep | NetworkActive | BackgroundTask

  /** An IOKit assertion identifier (`u32`); 0 stands for "none". */
  type AssertionId = n: int | 0 <= n <= UInt32Max

  /** The IOKit assertion type string (`as_cfstring`). */
  function IOKitName(t: AssertionType): string {
    match t
    case NoIdleSleep => "PreventUserIdleSystemSleep"
    case NoDisplaySleep => "PreventUserIdleDisplaySleep"
    case PreventSystemSleep => "PreventSystemSleep"
    case NetworkActive => "NetworkClientActive"
    case BackgroundTask => "BackgroundTask"
  }

  function DisplayName(t: AssertionType): string {
    match t
    case NoIdleSleep => "Idle"
    case NoDisplaySleep => "Display"
    case PreventSystemSleep => "System"
    case NetworkActive => "Network"
    case BackgroundTask => "Background"
  }

  /** The five types have five different labels: their first letters differ. */
  lemma DisplayNamesDistinct(a: AssertionType, b: AssertionType)
    requires a != b
    ensures DisplayName(a) != DisplayName(b)
  {
    assert DisplayName(a)[0] != DisplayName(b)[0];
  }

  /** The five IOKit names differ too: their lengths do. */
  lemma IOKitNamesDistinct(a: AssertionType, b: AssertionType)
    requires a != b
    ensures IOKitName(a) != IOKitName(b)
  {
    assert |IOKitName(a)| != |IOKitName(b)|;
  }

  /** `kIOPMAssertionLevelOn`, the level every assertion is created with. */
  const AssertionLevelOn: int := 255

  /** What `IOPMAssertionCreateWithName` reports: its return code and the identifier it wrote. */
  datatype CreateOutcome = CreateOutcome(code: int, id: AssertionId)

  /** A call to `IOPMAssertionCreateWithName`, as the arguments passed. */
  datatype CreateCall = CreateCall(typeName: string, level: int, reason: string)

  /** `CURRENT_ASSERTION_ID` together with the log of the IOKit calls made. */
  class PowerAssertions {
    var currentId: AssertionId
    var creates: seq<CreateCall>
    /** The identifiers passed to `IOPMAssertionRelease`. */
    var releases: seq<AssertionId>

    constructor()
      ensures currentId == 0 && creates == [] && releases == []
    {
      currentId := 0;
      creates := [];
      releases := [];
    }

    /** A successful create records the new identifier; a failure leaves it and reports the code. */
    method CreateAssertion(t: AssertionType, reason: string, outcome: CreateOutcome) returns (r: Result<AssertionId, string>)
      modifies this
      ensures creates == old(creates) + [CreateCall(IOKitName(t), AssertionLevelOn, reason)]
      ensures releases == old(releases)
      ensures outcome.code == 0 ==> r == Ok(outcome.id) && currentId == outcome.id
      ensures outcome.code != 0 ==>
        r == Err("Failed to create power assertion: error code " + IntToString(outcome.code)) && currentId == old(currentId)
    {
      creates := creates + [CreateCall(IOKitName(t), AssertionLevelOn, reason)];
      if outcome.code == 0 {
        currentId := outcome.id;
        r := Ok(outcome.id);
      } else {
        r := Err("Failed to create power assertion: error code " + IntToString(outcome.code));
      }
    }

    /**
     * Releasing 0 succeeds without calling IOKit; otherwise a successful release resets the
     * current identifier to 0 and a failure leaves it and reports the code.
     */
    method ReleaseAssertion(id: AssertionId, code: int) returns (r: Result<(), string>)
      modifies this
      ensures creates == old(creates)
      ensures id == 0 ==> r == Ok(()) && releases == old(releases) && currentId == old(currentId)
      ensures id != 0 ==> releases == old(releases) + [id]
      ensures id != 0 && code == 0 ==> r == Ok(()) && currentId == 0
      ensures id != 0 && code != 0 ==>
        r == Err("Failed to release power assertion: error code " + IntToString(code)) && currentId == old(currentId)
    {
      if id == 0 {
        return Ok(());
      }
      releases := releases + [id];
      if code == 0 {
        currentId := 0;
        r := Ok(());
      } else {
        r := Err("Failed to release power assertion: error code " + IntToString(code));
      }
    }

    function GetCurrentAssertionId(): AssertionId
      reads this
    {
      currentId
    }

    predicate HasActiveAssertion()
      reads this
    {
      GetCurrentAssertionId() != 0
    }
  }

  /** Whether `pmset -g` reports mains power, battery power, or neither; mains power wins. */
  function PowerSource(pmset: string): (r: string)
    ensures r == "AC Power" <==> Contains(pmset, "AC Power")
    ensures r == "Battery" <==> !Contains(pmset, "AC Power") && Contains(pmset, "Battery Power")
    ensures r == "Unknown" <==> !Contains(pmset, "AC Power") && !Contains(pmset, "Battery Power")
  {
    if Contains(pmset, "AC Power") then "AC Power"
    else if Contains(pmset, "Battery Power") then "Battery"
    else "Unknown"
  }

  /** A `pmset` line carries the setting: trimmed, it starts with the key and has at least two tokens. */
  predicate CarriesSetting(line: string, key: string) {
    StartsWith(Trim(line), key) && |SplitWhitespace(Trim(line))| >= 2
  }

  /** The second token of the first line that carries the setting, read as a `u32`. */
  function PmsetValue(lines: seq<string>, key: string): Option<nat>
    decreases |lines|
  {
    if lines == [] then None
    else if CarriesSetting(lines[0], key) then ParseU32(SplitWhitespace(Trim(lines[0]))[1])
    else PmsetValue(lines[1..], key)
  }

  /** `parse_pmset_value`: returns at the first line that carries the setting, whether or not its value parses. */
  method ParsePmsetValue(output: string, key: string) returns (r: Option<nat>)
    ensures r == PmsetValue(Lines(output), key)
    ensures r.Some? ==> r.value <= UInt32Max
  {
    var lines := Lines(output);
    var i := 0;
    while i < |lines|
      invariant 0 <= i <= |lines|
      invariant PmsetValue(lines, key) == PmsetValue(lines[i..], key)
    {
      assert lines[i..][1..] == lines[i + 1..];
      var trimmed := Trim(lines[i]);
      if StartsWith(trimmed, key) {
        var parts := SplitWhitespace(trimmed);
        if |parts| >= 2 {
          return ParseU32(parts[1]);
        }
      }
      i := i + 1;
    }
    return None;
  }

  /** Without a line that carries the setting there is no value. */
  lemma {:induction false} PmsetValueAbsent(lines: seq<string>, key: string)
    requires forall i :: 0 <= i < |lines| ==> !CarriesSetting(lines[i], key)
    ensures PmsetValue(lines, key) == None
    decreases |lines|
  {
    if lines != [] {
      PmsetValueAbsent(lines[1..], key);
    }
  }

  /** The first line that carries the setting decides the value. */
  lemma {:induction false} PmsetValueFirstLine(lines: seq<string>, key: string, i: nat)
    requires i < |lines| && CarriesSetting(lines[i], key)
    requires forall j :: 0 <= j < i ==> !CarriesSetting(lines[j], key)
    ensures PmsetValue(lines, key) == ParseU32(SplitWhitespace(Trim(lines[i]))[1])
    decreases i
  {
    if i > 0 {
      PmsetValueFirstLine(lines[1..], key, i - 1);
    }
  }

  /** The lines after the first one that carries the setting are never read, even when its value does not parse. */
  lemma {:induction false} PmsetValueStopsAtFirstLine(lines: seq<string>, key: string, i: nat, later: seq<string>)
    requires i < |lines| && CarriesSetting(lines[i], key)
    requires forall j :: 0 <= j < i ==> !CarriesSetting(lines[j], key)
    ensures PmsetValue(lines[..i + 1] + later, key) == PmsetValue(lines, key)
  {
    var l2 := lines[..i + 1] + later;
    assert l2[i] == lines[i];
    PmsetValueFirstLine(lines, key, i);
    PmsetValueFirstLine(l2, key, i);
  }

  /** The marker after which `pmset -g assertions` lists assertions by process. */
  const ListedMarker: string := "Listed by owning process"

  /**
   * The entry of one process line, `<type>: PID <n>`: the text after the first "):" must
   * hold a ']', and the trimmed text after that at least two space-separated parts, of which
   * the second is the assertion type.
   */
  function AssertionEntry(line: string): (r: Option<string>)
    ensures r.Some? ==> Contains(line, "):")
  {
    match Find(line, "):")
    case None => None
    case Some(start) =>
      var rest := line[start + 2..];
      match Find(rest, "]")
      case None => None
      case Some(bracketEnd) =>
        var afterBracket := rest[bracketEnd + 1..];
        var parts := SplitN(Trim(afterBracket), 3, ' ');
        if |parts| >= 2 then
          Some(parts[1] + ": " + ReplaceAll(Trim(Before(line, '(')), "pid ", "PID "))
        else None
  }

  /** What one line contributes once inside the listing: an entry only for a process line that has one. */
  function ListedEntry(line: string): seq<string> {
    if StartsWith(Trim(line), "pid") then
      match AssertionEntry(line)
      case Some(e) => [e]
      case None => []
    else []
  }

  /** The entries of the lines, `inListed` telling whether the marker was already seen. */
  function AssertionsFrom(lines: seq<string>, inListed: bool): seq<string>
    decreases |lines|
  {
    if lines == [] then []
    else if Contains(lines[0], ListedMarker) then AssertionsFrom(lines[1..], true)
    else (if inListed then ListedEntry(lines[0]) else []) + AssertionsFrom(lines[1..], inListed)
  }

  /** `parse_assertions`. */
  method ParseAssertions(output: string) returns (assertions: seq<string>)
    ensures assertions == AssertionsFrom(Lines(output), false)
  {
    var lines := Lines(output);
    assertions := [];
    var inListed := false;
    for i := 0 to |lines|
      invariant assertions + AssertionsFrom(lines[i..], inListed) == AssertionsFrom(lines, false)
    {
      var line := lines[i];
      AssertionsStep(lines, i, inListed);
      ghost var rest := AssertionsFrom(lines[i + 1..], inListed);
      if Contains(line, ListedMarker) {
        inListed := true;
      } else if inListed && StartsWith(Trim(line), "pid") {
        var entry := AssertionEntry(line);
        if entry.Some? {
          assert AssertionsFrom(lines[i..], inListed) == [entry.value] + rest;
          AppendAssoc(assertions, [entry.value], rest);
          assertions := assertions + [entry.value];
        } else {
          assert AssertionsFrom(lines[i..], inListed) == [] + rest == rest;
        }
      } else {
        assert AssertionsFrom(lines[i..], inListed) == [] + rest == rest;
      }
    }
  }

  lemma AppendAssoc(a: seq<string>, b: seq<string>, c: seq<string>)
    ensures (a + b) + c == a + (b + c)
  {
  }

  lemma AssertionsStep(lines: seq<string>, i: nat, inListed: bool)
    requires i < |lines|
    ensures AssertionsFrom(lines[i..], inListed) ==
      if Contains(lines[i], ListedMarker) then AssertionsFrom(lines[i + 1..], true)
      else (if inListed then ListedEntry(lines[i]) else []) + AssertionsFrom(lines[i + 1..], inListed)
  {
    assert lines[i..][0] == lines[i] && lines[i..][1..] == lines[i + 1..];
  }

  /** Before the marker nothing is listed: lines up to and including the first marker line yield nothing. */
  lemma {:induction false} NothingBeforeMarker(before: seq<string>, marker: string, after: seq<string>)
    requires forall i :: 0 <= i < |before| ==> !Contains(before[i], ListedMarker)
    requires Contains(marker, ListedMarker)
    ensures AssertionsFrom(before + [marker] + after, false) == AssertionsFrom(after, true)
    ensures AssertionsFrom(before, false) == []
    decreases |before|
  {
    if before == [] {
      assert before + [marker] + after == [marker] + after;
      assert ([marker] + after)[1..] == after;
    } else {
      assert (before + [marker] + after)[1..] == before[1..] + [marker] + after;
      NothingBeforeMarker(before[1..], marker, after);
    }
  }

  /** Inside the listing each line yields at most one entry, and entries keep the order of their lines. */
  lemma {:induction false} ListedLinesInOrder(a: seq<string>, b: seq<string>)
    ensures AssertionsFrom(a + b, true) == AssertionsFrom(a, true) + AssertionsFrom(b, true)
    ensures |AssertionsFrom(a, true)| <= |a|
    decreases |a|
  {
    if a == [] {
      assert a + b == b;
    } else {
      assert (a + b)[0] == a[0] && (a + b)[1..] == a[1..] + b;
      ListedLinesInOrder(a[1..], b);
    }
  }

  /** A line yields an entry only when it is a trimmed "pid" line whose text after "):" holds a ']' followed by two parts. */
  lemma ListedEntryNeeds(line: string)
    ensures ListedEntry(line) != [] ==>
      && StartsWith(Trim(line), "pid")
      && Find(line, "):").Some?
      && var rest := line[Find(line, "):").value + 2..];
         Find(rest, "]").Some? && |SplitN(Trim(rest[Find(rest, "]").value + 1..]), 3, ' ')| >= 2
  {
  }

  datatype PowerProfile = PowerProfile(
    source: string, displaySleep: Option<nat>, diskSleep: Option<nat>, systemSleep: Option<nat>,
    assertions: seq<string>)

  /**
   * `get_power_profile` with the two `pmset` runs as their outcomes (standard output, or the
   * reason the command could not run).
   */
  method GetPowerProfile(settings: Result<string, string>, assertionsRun: Result<string, string>)
    returns (r: Result<PowerProfile, string>)
    ensures settings.Err? ==> r == Err("Failed to run pmset: " + settings.error)
    ensures settings.Ok? && assertionsRun.Err? ==> r == Err("Failed to run pmset assertions: " + assertionsRun.error)
    ensures settings.Ok? && assertionsRun.Ok? ==>
      && r.Ok?
      && r.value.source == PowerSource(settings.value)
      && r.value.displaySleep == PmsetValue(Lines(settings.value), "displaysleep")
      && r.value.diskSleep == PmsetValue(Lines(settings.value), "disksleep")
      && r.value.systemSleep == PmsetValue(Lines(settings.value), "sleep")
      && r.value.assertions == AssertionsFrom(Lines(assertionsRun.value), false)
  {
    if settings.Err? {
      return Err("Failed to run pmset: " + settings.error);
    }
    var text := settings.value;
    var source := PowerSource(text);
    var displaySleep := ParsePmsetValue(text, "displaysleep");
    var diskSleep := ParsePmsetValue(text, "disksleep");
    var systemSleep := ParsePmsetValue(text, "sleep");
    if assertionsRun.Err? {
      return Err("Failed to run pmset assertions: " + assertionsRun.error);
    }
    var assertions := ParseAssertions(assertionsRun.value);
    return Ok(PowerProfile(source, displaySleep, diskSleep, systemSleep, assertions));
  }
}
