/** The four `caffeinate` assertion flags a session can hold (Caffeinator/Models/CaffeinateMode.swift). */
module CaffeinateModes {

  datatype Mode = Display | Idle | System | Disk

  /** The enumeration in declaration order (`CaffeinateMode.allCases`). */
  const AllModes: seq<Mode> := [Display, Idle, System, Disk]

  /** The raw value is the command-line flag of `/usr/bin/caffeinate`. */
  function RawValue(m: Mode): string {
    match m
    case Display => "-d"
    case Idle => "-i"
    case System => "-s"
    case Disk => "-m"
  }

  function Id(m: Mode): string { RawValue(m) }

  function Flag(m: Mode): string { RawValue(m) }

  function Name(m: Mode): string {
    match m
    case Display => "Display"
    case Idle => "Idle"
    case System => "System"
    case Disk => "Disk"
  }

  function Description(m: Mode): string {
    match m
    case Display => "Prevent display from sleeping"
    case Idle => "Prevent system from idle sleeping"
    case System => "Prevent system sleep (AC power only)"
    case Disk => "Prevent disk from idle sleeping"
  }

  /** `allCases` lists every mode exactly once, and there are four. */
  lemma AllModesComplete()
    ensures |AllModes| == 4
    ensures forall m: Mode :: m in AllModes
    ensures forall i, j :: 0 <= i < j < |AllModes| ==> AllModes[i] != AllModes[j]
  {
    forall m: Mode ensures m in AllModes {
      match m
      case Display => assert AllModes[0] == m;
      case Idle => assert AllModes[1] == m;
      case System => assert AllModes[2] == m;
      case Disk => assert AllModes[3] == m;
    }
  }

  /** Distinct modes have distinct flags, identifiers and names. */
  lemma FlagsAndNamesInjective(m1: Mode, m2: Mode)
    ensures Flag(m1) == Flag(m2) <==> m1 == m2
    ensures Id(m1) == Id(m2) <==> m1 == m2
    ensures Name(m1) == Name(m2) <==> m1 == m2
  {
  }

  /** The flags of a set of modes. */
  function FlagSet(modes: set<Mode>): set<string> {
    set m | m in modes :: Flag(m)
  }

  /** `flags` holds the flag of every mode of `modes` exactly once, in some order. */
  predicate IsFlagListOf(flags: seq<string>, modes: set<Mode>) {
    && |flags| == |modes|
    && (forall i, j :: 0 <= i < j < |flags| ==> flags[i] != flags[j])
    && (forall i :: 0 <= i < |flags| ==> flags[i] in FlagSet(modes))
    && (forall m :: m in modes ==> Flag(m) in flags)
  }

  /** The flags of those modes of `ms` that are in `modes`, in the order of `ms`. */
  function FlagsIn(ms: seq<Mode>, modes: set<Mode>): seq<string> {
    if ms == [] then []
    else (if ms[0] in modes then [Flag(ms[0])] else []) + FlagsIn(ms[1..], modes)
  }

  /**
   * `modes.map { $0.rawValue }`. A Swift `Set` is iterated in an unspecified order; the model
   * fixes declaration order, and `FlagsListEachModeOnce` is what every order has in common.
   */
  function Flags(modes: set<Mode>): seq<string> {
    FlagsIn(AllModes, modes)
  }

  /** The modes listed in `ms`. */
  function Listed(ms: seq<Mode>): set<Mode> {
    set m | m in ms
  }

  lemma ListedCons(ms: seq<Mode>)
    requires ms != []
    ensures Listed(ms) == {ms[0]} + Listed(ms[1..])
  {
    forall m | m in Listed(ms) ensures m in {ms[0]} + Listed(ms[1..]) {
      var k :| 0 <= k < |ms| && ms[k] == m;
      if k > 0 { assert ms[1..][k - 1] == m; }
    }
  }

  /** Filtering a repetition-free list of modes yields one flag per selected listed mode. */
  lemma {:induction false} FlagsInCount(ms: seq<Mode>, modes: set<Mode>)
    requires forall i, j :: 0 <= i < j < |ms| ==> ms[i] != ms[j]
    ensures |FlagsIn(ms, modes)| == |modes * Listed(ms)|
  {
    if ms != [] {
      FlagsInCount(ms[1..], modes);
      ListedCons(ms);
      assert ms[0] !in Listed(ms[1..]);
      if ms[0] in modes {
        assert modes * Listed(ms) == {ms[0]} + modes * Listed(ms[1..]);
      } else {
        assert modes * Listed(ms) == modes * Listed(ms[1..]);
      }
    }
  }

  /** The flags produced come from listed modes that are selected, and every such mode yields its flag. */
  lemma {:induction false} FlagsInMembers(ms: seq<Mode>, modes: set<Mode>)
    ensures forall f :: f in FlagsIn(ms, modes) ==> exists m :: m in modes && m in ms && f == Flag(m)
    ensures forall m :: m in modes && m in ms ==> Flag(m) in FlagsIn(ms, modes)
  {
    if ms != [] {
      FlagsInMembers(ms[1..], modes);
      var head := if ms[0] in modes then [Flag(ms[0])] else [];
      assert FlagsIn(ms, modes) == head + FlagsIn(ms[1..], modes);
      forall m | m in modes && m in ms ensures Flag(m) in FlagsIn(ms, modes) {
        if m != ms[0] {
          var k :| 0 <= k < |ms| && ms[k] == m;
          assert ms[1..][k - 1] == m;
        }
      }
    }
  }

  /** Filtering a repetition-free list of modes never repeats a flag. */
  lemma {:induction false} FlagsInDistinct(ms: seq<Mode>, modes: set<Mode>)
    requires forall i, j :: 0 <= i < j < |ms| ==> ms[i] != ms[j]
    ensures forall i, j :: 0 <= i < j < |FlagsIn(ms, modes)| ==> FlagsIn(ms, modes)[i] != FlagsIn(ms, modes)[j]
  {
    if ms != [] {
      FlagsInDistinct(ms[1..], modes);
      FlagsInMembers(ms[1..], modes);
      var rest := FlagsIn(ms[1..], modes);
      assert Flag(ms[0]) !in rest;
    }
  }

  /** `Flags(modes)` holds the flag of every selected mode exactly once. */
  lemma FlagsListEachModeOnce(modes: set<Mode>)
    ensures IsFlagListOf(Flags(modes), modes)
  {
    AllModesComplete();
    FlagsInCount(AllModes, modes);
    FlagsInMembers(AllModes, modes);
    FlagsInDistinct(AllModes, modes);
    assert modes * Listed(AllModes) == modes;
    var flags := Flags(modes);
    forall i | 0 <= i < |flags| ensures flags[i] in FlagSet(modes) {
      assert flags[i] in flags;
    }
  }
}
