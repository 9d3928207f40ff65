/** A process whose running keeps the Mac awake (Caffeinator/Models/WatchedProcess.swift). */
module WatchedProcesses {
  import opened Wrappers
  import opened Text
  import opened Identity

  datatype WatchedProcess = WatchedProcess(id: Uuid, name: string, bundleIdentifier: Option<string>, isBuiltIn: bool)

  /** The initializer: no bundle identifier and not built in unless given; the id is drawn by the caller. */
  function NewWatchedProcess(id: Uuid, name: string, bundleIdentifier: Option<string> := None, isBuiltIn: bool := false)
    : (p: WatchedProcess)
    ensures p.id == id && p.name == name && p.bundleIdentifier == bundleIdentifier && p.isBuiltIn == isBuiltIn
  {
    WatchedProcess(id, name, bundleIdentifier, isBuiltIn)
  }

  /** Built with only a name, an entry has no bundle identifier and is not built in. */
  lemma InitDefaults(id: Uuid, name: string)
    ensures NewWatchedProcess(id, name).bundleIdentifier == None
    ensures !NewWatchedProcess(id, name).isBuiltIn
  {
  }

  /** The seed table: application name and bundle identifier, in list order. */
  const DefaultEntries: seq<(string, string)> := [
    ("Xcode", "com.apple.dt.Xcode"),
    ("Visual Studio Code", "com.microsoft.VSCode"),
    ("Cursor", "com.todesktop.230313mzl4w4u92"),
    ("Zed", "dev.zed.Zed"),
    ("IntelliJ IDEA", "com.jetbrains.intellij"),
    ("WebStorm", "com.jetbrains.WebStorm"),
    ("PyCharm", "com.jetbrains.pycharm"),
    ("GoLand", "com.jetbrains.goland"),
    ("CLion", "com.jetbrains.CLion"),
    ("RubyMine", "com.jetbrains.rubymine"),
    ("DataGrip", "com.jetbrains.datagrip"),
    ("Terminal", "com.apple.Terminal"),
    ("iTerm2", "com.googlecode.iterm2"),
    ("Warp", "dev.warp.Warp-Stable"),
    ("Alacritty", "org.alacritty"),
    ("Kitty", "net.kovidgoyal.kitty"),
    ("Docker", "com.docker.docker"),
    ("Podman", "com.redhat.podman-desktop"),
    ("Parallels Desktop", "com.parallels.desktop.console"),
    ("VMware Fusion", "com.vmware.fusion"),
    ("UTM", "com.utmapp.UTM"),
    ("VirtualBox", "org.virtualbox.app.VirtualBox"),
    ("Figma", "com.figma.Desktop"),
    ("Sketch", "com.bohemiancoding.sketch3"),
    ("OBS", "com.obsproject.obs-studio"),
    ("Zoom", "us.zoom.xos")
  ]

  /**
   * The built-in watch list. The source builds it afresh on every access, drawing a new UUID
   * per entry, so the identifiers are a parameter.
   */
  function DefaultWatchList(ids: seq<Uuid>): (list: seq<WatchedProcess>)
    requires |ids| == |DefaultEntries|
    ensures |list| == |DefaultEntries|
    ensures forall i :: 0 <= i < |list| ==>
      list[i] == NewWatchedProcess(ids[i], DefaultEntries[i].0, Some(DefaultEntries[i].1), true)
  {
    seq(|DefaultEntries|, i requires 0 <= i < |DefaultEntries| =>
      NewWatchedProcess(ids[i], DefaultEntries[i].0, Some(DefaultEntries[i].1), true))
  }

  /** Position of a name fingerprint in the table, or -1. */
  function NameSlot(k: (int, char, char)): int {
    if k == (5, 'x', 'e') then 0
    else if k == (18, 'v', 'e') then 1
    else if k == (6, 'c', 'r') then 2
    else if k == (3, 'z', 'd') then 3
    else if k == (13, 'i', 'a') then 4
    else if k == (8, 'w', 'm') then 5
    else if k == (7, 'p', 'm') then 6
    else if k == (6, 'g', 'd') then 7
    else if k == (5, 'c', 'n') then 8
    else if k == (8, 'r', 'e') then 9
    else if k == (8, 'd', 'p') then 10
    else if k == (8, 't', 'l') then 11
    else if k == (6, 'i', '2') then 12
    else if k == (4, 'w', 'p') then 13
    else if k == (9, 'a', 'y') then 14
    else if k == (5, 'k', 'y') then 15
    else if k == (6, 'd', 'r') then 16
    else if k == (6, 'p', 'n') then 17
    else if k == (17, 'p', 'p') then 18
    else if k == (13, 'v', 'n') then 19
    else if k == (3, 'u', 'm') then 20
    else if k == (10, 'v', 'x') then 21
    else if k == (5, 'f', 'a') then 22
    else if k == (6, 's', 'h') then 23
    else if k == (3, 'o', 's') then 24
    else if k == (4, 'z', 'm') then 25
    else -1
  }

  /** Position of a bundle identifier fingerprint in the table, or -1. */
  function BundleSlot(k: (int, char, char)): int {
    if k == (18, 'c', 'e') then 0
    else if k == (20, 'c', 'e') then 1
    else if k == (29, 'c', '2') then 2
    else if k == (11, 'd', 'd') then 3
    else if k == (22, 'c', 'j') then 4
    else if k == (22, 'c', 'm') then 5
    else if k == (21, 'c', 'm') then 6
    else if k == (20, 'c', 'd') then 7
    else if k == (19, 'c', 'n') then 8
    else if k == (22, 'c', 'e') then 9
    else if k == (22, 'c', 'p') then 10
    else if k == (18, 'c', 'l') then 11
    else if k == (21, 'c', '2') then 12
    else if k == (20, 'd', 'e') then 13
    else if k == (13, 'o', 'y') then 14
    else if k == (20, 'n', 'y') then 15
    else if k == (17, 'c', 'r') then 16
    else if k == (25, 'c', 'p') then 17
    else if k == (29, 'c', 'e') then 18
    else if k == (17, 'c', 'n') then 19
    else if k == (14, 'c', 'm') then 20
    else if k == (29, 'o', 'x') then 21
    else if k == (17, 'c', 'p') then 22
    else if k == (26, 'c', '3') then 23
    else if k == (25, 'c', 'o') then 24
    else if k == (11, 'u', 's') then 25
    else -1
  }

  function NameKey(e: (string, string)): (int, char, char)
    requires |e.0| > 0
  {
    CaseKey(e.0)
  }

  function BundleKey(e: (string, string)): (int, char, char)
    requires |e.1| > 0
  {
    CaseKey(e.1)
  }

  function NameKeySlot(e: (string, string)): int
    requires |e.0| > 0
  {
    NameSlot(NameKey(e))
  }

  function BundleKeySlot(e: (string, string)): int
    requires |e.1| > 0
  {
    BundleSlot(BundleKey(e))
  }

  /** Each entry's name fingerprint leads back to that entry. */
  lemma NameSlotOf(i: int)
    requires 0 <= i < |DefaultEntries|
    ensures |DefaultEntries[i].0| > 0 && NameKeySlot(DefaultEntries[i]) == i
  {
    if i < 4 {
      NameSlotOfFrom0(i);
    }
    else if i < 8 {
      NameSlotOfFrom4(i);
    }
    else if i < 12 {
      NameSlotOfFrom8(i);
    }
    else if i < 16 {
      NameSlotOfFrom12(i);
    }
    else if i < 20 {
      NameSlotOfFrom16(i);
    }
    else if i < 24 {
      NameSlotOfFrom20(i);
    }
    else {
      NameSlotOfFrom24(i);
    }
  }

  lemma NameSlotOfFrom0(i: int)
    requires 0 <= i < 4
    ensures |DefaultEntries[i].0| > 0 && NameKeySlot(DefaultEntries[i]) == i
  {
    if i == 0 {
      assert NameKeySlot(DefaultEntries[0]) == 0;
    }
    else if i == 1 {
      assert NameKeySlot(DefaultEntries[1]) == 1;
    }
    else if i == 2 {
      assert NameKeySlot(DefaultEntries[2]) == 2;
    }
    else if i == 3 {
      assert NameKeySlot(DefaultEntries[3]) == 3;
    }
  }

  lemma NameSlotOfFrom4(i: int)
    requires 4 <= i < 8
    ensures |DefaultEntries[i].0| > 0 && NameKeySlot(DefaultEntries[i]) == i
  {
    if i == 4 {
      assert NameKeySlot(DefaultEntries[4]) == 4;
    }
    else if i == 5 {
      assert NameKeySlot(DefaultEntries[5]) == 5;
    }
    else if i == 6 {
      assert NameKeySlot(DefaultEntries[6]) == 6;
    }
    else if i == 7 {
      assert NameKeySlot(DefaultEntries[7]) == 7;
    }
  }

  lemma NameSlotOfFrom8(i: int)
    requires 8 <= i < 12
    ensures |DefaultEntries[i].0| > 0 && NameKeySlot(DefaultEntries[i]) == i
  {
    if i == 8 {
      assert NameKeySlot(DefaultEntries[8]) == 8;
    }
    else if i == 9 {
      assert NameKeySlot(DefaultEntries[9]) == 9;
    }
    else if i == 10 {
      assert NameKeySlot(DefaultEntries[10]) == 10;
    }
    else if i == 11 {
      assert NameKeySlot(DefaultEntries[11]) == 11;
    }
  }

  lemma NameSlotOfFrom12(i: int)
    requires 12 <= i < 16
    ensures |DefaultEntries[i].0| > 0 && NameKeySlot(DefaultEntries[i]) == i
  {
    if i == 12 {
      assert NameKeySlot(DefaultEntries[12]) == 12;
    }
    else if i == 13 {
      assert NameKeySlot(DefaultEntries[13]) == 13;
    }
    else if i == 14 {
      assert NameKeySlot(DefaultEntries[14]) == 14;
    }
    else if i == 15 {
      assert NameKeySlot(DefaultEntries[15]) == 15;
    }
  }

  lemma NameSlotOfFrom16(i: int)
    requires 16 <= i < 20
    ensures |DefaultEntries[i].0| > 0 && NameKeySlot(DefaultEntries[i]) == i
  {
    if i == 16 {
      assert NameKeySlot(DefaultEntries[16]) == 16;
    }
    else if i == 17 {
      assert NameKeySlot(DefaultEntries[17]) == 17;
    }
    else if i == 18 {
      assert NameKeySlot(DefaultEntries[18]) == 18;
    }
    else if i == 19 {
      assert NameKeySlot(DefaultEntries[19]) == 19;
    }
  }

  lemma NameSlotOfFrom20(i: int)
    requires 20 <= i < 24
    ensures |DefaultEntries[i].0| > 0 && NameKeySlot(DefaultEntries[i]) == i
  {
    if i == 20 {
      assert NameKeySlot(DefaultEntries[20]) == 20;
    }
    else if i == 21 {
      assert NameKeySlot(DefaultEntries[21]) == 21;
    }
    else if i == 22 {
      assert NameKeySlot(DefaultEntries[22]) == 22;
    }
    else if i == 23 {
      assert NameKeySlot(DefaultEntries[23]) == 23;
    }
  }

  lemma NameSlotOfFrom24(i: int)
    requires 24 <= i < 26
    ensures |DefaultEntries[i].0| > 0 && NameKeySlot(DefaultEntries[i]) == i
  {
    if i == 24 {
      assert NameKeySlot(DefaultEntries[24]) == 24;
    }
    else if i == 25 {
      assert NameKeySlot(DefaultEntries[25]) == 25;
    }
  }

  /** Each entry's bundle identifier fingerprint leads back to that entry. */
  lemma BundleSlotOf(i: int)
    requires 0 <= i < |DefaultEntries|
    ensures |DefaultEntries[i].1| > 0 && BundleKeySlot(DefaultEntries[i]) == i
  {
    if i < 4 {
      BundleSlotOfFrom0(i);
    }
    else if i < 8 {
      BundleSlotOfFrom4(i);
    }
    else if i < 12 {
      BundleSlotOfFrom8(i);
    }
    else if i < 16 {
      BundleSlotOfFrom12(i);
    }
    else if i < 20 {
      BundleSlotOfFrom16(i);
    }
    else if i < 24 {
      BundleSlotOfFrom20(i);
    }
    else {
      BundleSlotOfFrom24(i);
    }
  }

  lemma BundleSlotOfFrom0(i: int)
    requires 0 <= i < 4
    ensures |DefaultEntries[i].1| > 0 && BundleKeySlot(DefaultEntries[i]) == i
  {
    if i == 0 {
      assert BundleKeySlot(DefaultEntries[0]) == 0;
    }
    else if i == 1 {
      assert BundleKeySlot(DefaultEntries[1]) == 1;
    }
    else if i == 2 {
      assert BundleKeySlot(DefaultEntries[2]) == 2;
    }
    else if i == 3 {
      assert BundleKeySlot(DefaultEntries[3]) == 3;
    }
  }

  lemma BundleSlotOfFrom4(i: int)
    requires 4 <= i < 8
    ensures |DefaultEntries[i].1| > 0 && BundleKeySlot(DefaultEntries[i]) == i
  {
    if i == 4 {
      assert BundleKeySlot(DefaultEntries[4]) == 4;
    }
    else if i == 5 {
      assert BundleKeySlot(DefaultEntries[5]) == 5;
    }
    else if i == 6 {
      assert BundleKeySlot(DefaultEntries[6]) == 6;
    }
    else if i == 7 {
      assert BundleKeySlot(DefaultEntries[7]) == 7;
    }
  }

  lemma BundleSlotOfFrom8(i: int)
    requires 8 <= i < 12
    ensures |DefaultEntries[i].1| > 0 && BundleKeySlot(DefaultEntries[i]) == i
  {
    if i == 8 {
      assert BundleKeySlot(DefaultEntries[8]) == 8;
    }
    else if i == 9 {
      assert BundleKeySlot(DefaultEntries[9]) == 9;
    }
    else if i == 10 {
      assert BundleKeySlot(DefaultEntries[10]) == 10;
    }
    else if i == 11 {
      assert BundleKeySlot(DefaultEntries[11]) == 11;
    }
  }

  lemma BundleSlotOfFrom12(i: int)
    requires 12 <= i < 16
    ensures |DefaultEntries[i].1| > 0 && BundleKeySlot(DefaultEntries[i]) == i
  {
    if i == 12 {
      assert BundleKeySlot(DefaultEntries[12]) == 12;
    }
    else if i == 13 {
      assert BundleKeySlot(DefaultEntries[13]) == 13;
    }
    else if i == 14 {
      assert BundleKeySlot(DefaultEntries[14]) == 14;
    }
    else if i == 15 {
      assert BundleKeySlot(DefaultEntries[15]) == 15;
    }
  }

  lemma BundleSlotOfFrom16(i: int)
    requires 16 <= i < 20
    ensures |DefaultEntries[i].1| > 0 && BundleKeySlot(DefaultEntries[i]) == i
  {
    if i == 16 {
      assert BundleKeySlot(DefaultEntries[16]) == 16;
    }
    else if i == 17 {
      assert BundleKeySlot(DefaultEntries[17]) == 17;
    }
    else if i == 18 {
      assert BundleKeySlot(DefaultEntries[18]) == 18;
    }
    else if i == 19 {
      assert BundleKeySlot(DefaultEntries[19]) == 19;
    }
  }

  lemma BundleSlotOfFrom20(i: int)
    requires 20 <= i < 24
    ensures |DefaultEntries[i].1| > 0 && BundleKeySlot(DefaultEntries[i]) == i
  {
    if i == 20 {
      assert BundleKeySlot(DefaultEntries[20]) == 20;
    }
    else if i == 21 {
      assert BundleKeySlot(DefaultEntries[21]) == 21;
    }
    else if i == 22 {
      assert BundleKeySlot(DefaultEntries[22]) == 22;
    }
    else if i == 23 {
      assert BundleKeySlot(DefaultEntries[23]) == 23;
    }
  }

  lemma BundleSlotOfFrom24(i: int)
    requires 24 <= i < 26
    ensures |DefaultEntries[i].1| > 0 && BundleKeySlot(DefaultEntries[i]) == i
  {
    if i == 24 {
      assert BundleKeySlot(DefaultEntries[24]) == 24;
    }
    else if i == 25 {
      assert BundleKeySlot(DefaultEntries[25]) == 25;
    }
  }

  /**
   * The default list has 26 entries, all built in with a bundle identifier, and no two of them
   * share a name or a bundle identifier, ignoring case.
   */
  lemma DefaultWatchListWellFormed(ids: seq<Uuid>)
    requires |ids| == |DefaultEntries|
    ensures var list := DefaultWatchList(ids);
      && |list| == 26
      && (forall i :: 0 <= i < |list| ==> list[i].isBuiltIn && list[i].bundleIdentifier.Some?)
      && (forall i, j :: 0 <= i < j < |list| ==> Lower(list[i].name) != Lower(list[j].name))
      && (forall i, j :: 0 <= i < j < |list| ==>
            Lower(list[i].bundleIdentifier.value) != Lower(list[j].bundleIdentifier.value))
  {
    var list := DefaultWatchList(ids);
    forall i, j | 0 <= i < j < |list|
      ensures Lower(list[i].name) != Lower(list[j].name)
      ensures Lower(list[i].bundleIdentifier.value) != Lower(list[j].bundleIdentifier.value)
    {
      NameSlotOf(i);
      NameSlotOf(j);
      CaseKeyDistinguishes(DefaultEntries[i].0, DefaultEntries[j].0);
      BundleSlotOf(i);
      BundleSlotOf(j);
      CaseKeyDistinguishes(DefaultEntries[i].1, DefaultEntries[j].1);
    }
  }
}
