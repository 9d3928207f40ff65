/**
 * The watch list of applications that keep a session alive, and the binding to the one
 * application currently watched (Caffeinator/ViewModels/ProcessWatcher.swift).
 *
 * `NSWorkspace` enters as data: the running applications are a parameter of every operation that
 * refreshes the list, and a termination is an event the environment delivers. What
 * `UserDefaults` holds under the custom-list key is a field.
 */
module ProcessWatching {
  import opened Wrappers
  import opened Text
  import opened Identity
  import opened Sequences
  import opened WatchedProcesses

  /** What the model keeps of an `NSRunningApplication`. */
  datatype RunningApp = RunningApp(pid: int, bundleIdentifier: Option<string>, localizedName: Option<string>)

  /** The lower-cased bundle identifiers of the list's entries that have one. */
  function BundleKeys(list: seq<WatchedProcess>): set<string> {
    set p | p in list && p.bundleIdentifier.Some? :: Lower(p.bundleIdentifier.value)
  }

  /** The lower-cased names of the list's entries. */
  function NameKeys(list: seq<WatchedProcess>): set<string> {
    set p | p in list :: Lower(p.name)
  }

  /** A running application is watched when its bundle identifier or its name matches an entry, ignoring case. */
  predicate IsWatched(app: RunningApp, list: seq<WatchedProcess>) {
    || (app.bundleIdentifier.Some? && Lower(app.bundleIdentifier.value) in BundleKeys(list))
    || (app.localizedName.Some? && Lower(app.localizedName.value) in NameKeys(list))
  }

  /** An application with no name sorts as the empty string. */
  function SortName(app: RunningApp): string {
    app.localizedName.GetOr("")
  }

  predicate SortedByName(apps: seq<RunningApp>) {
    forall i :: 1 <= i < |apps| ==> !Less(SortName(apps[i]), SortName(apps[i - 1]))
  }

  /** Puts `app` before the first element that does not sort below it. */
  function InsertByName(app: RunningApp, sorted: seq<RunningApp>): (r: seq<RunningApp>)
    requires SortedByName(sorted)
    ensures SortedByName(r)
    ensures multiset(r) == multiset(sorted) + multiset{app}
    ensures r != [] && (r[0] == app || (sorted != [] && r[0] == sorted[0]))
    decreases |sorted|
  {
    if sorted == [] || !Less(SortName(sorted[0]), SortName(app)) then
      [app] + sorted
    else
      var rest := InsertByName(app, sorted[1..]);
      LessTrichotomy(SortName(sorted[0]), SortName(app));
      assert sorted == [sorted[0]] + sorted[1..];
      [sorted[0]] + rest
  }

  /** `sorted { ($0.localizedName ?? "") < ($1.localizedName ?? "") }`: an insertion sort. */
  function SortByName(apps: seq<RunningApp>): (r: seq<RunningApp>)
    ensures SortedByName(r)
    ensures multiset(r) == multiset(apps)
  {
    if apps == [] then []
    else
      assert apps == [apps[0]] + apps[1..];
      InsertByName(apps[0], SortByName(apps[1..]))
  }

  /** `runningWatchedProcesses` for the given running applications and watch list. */
  function RunningWatched(running: seq<RunningApp>, list: seq<WatchedProcess>): seq<RunningApp> {
    SortByName(Filter(running, (app: RunningApp) => IsWatched(app, list)))
  }

  /**
   * The running watched applications are exactly the running applications that match the
   * list, each as often as it runs, sorted by name.
   */
  lemma RunningWatchedSpec(running: seq<RunningApp>, list: seq<WatchedProcess>)
    ensures var r := RunningWatched(running, list);
      && SortedByName(r)
      && (forall i :: 0 <= i < |r| ==> IsWatched(r[i], list))
      && (forall app :: multiset(r)[app] == if IsWatched(app, list) then multiset(running)[app] else 0)
  {
    var kept := Filter(running, (app: RunningApp) => IsWatched(app, list));
    var dropped := Filter(running, (app: RunningApp) => !IsWatched(app, list));
    FilterPartition(running, (app: RunningApp) => IsWatched(app, list), (app: RunningApp) => !IsWatched(app, list));
    var r := RunningWatched(running, list);
    forall i | 0 <= i < |r| ensures IsWatched(r[i], list) {
      assert r[i] in multiset(kept);
    }
    forall app ensures multiset(r)[app] == if IsWatched(app, list) then multiset(running)[app] else 0 {
      if IsWatched(app, list) {
        assert app !in multiset(dropped);
      } else {
        assert app !in multiset(kept);
      }
    }
  }

  /** The entries the user added (`customProcesses`, and what is persisted). */
  function CustomOf(list: seq<WatchedProcess>): seq<WatchedProcess> {
    Filter(list, (p: WatchedProcess) => !p.isBuiltIn)
  }

  /** The entries of the default table (`builtInProcesses`). */
  function BuiltInOf(list: seq<WatchedProcess>): seq<WatchedProcess> {
    Filter(list, (p: WatchedProcess) => p.isBuiltIn)
  }

  /**
   * Built-in and custom entries partition the list: every entry is in exactly one of them, as
   * often as in the list, and each keeps the list's order.
   */
  lemma BuiltInCustomPartition(list: seq<WatchedProcess>, more: seq<WatchedProcess>)
    ensures multiset(BuiltInOf(list)) + multiset(CustomOf(list)) == multiset(list)
    ensures forall i :: 0 <= i < |BuiltInOf(list)| ==> BuiltInOf(list)[i].isBuiltIn
    ensures forall i :: 0 <= i < |CustomOf(list)| ==> !CustomOf(list)[i].isBuiltIn
    ensures BuiltInOf(list + more) == BuiltInOf(list) + BuiltInOf(more)
    ensures CustomOf(list + more) == CustomOf(list) + CustomOf(more)
  {
    FilterPartition(list, (p: WatchedProcess) => p.isBuiltIn, (p: WatchedProcess) => !p.isBuiltIn);
    FilterAppend(list, more, (p: WatchedProcess) => p.isBuiltIn);
    FilterAppend(list, more, (p: WatchedProcess) => !p.isBuiltIn);
  }

  /**
   * Saving and loading round-trip: the custom entries of a loaded list are exactly the custom
   * entries that were stored, whatever identifiers the defaults drew.
   */
  lemma LoadedCustomEntries(ids: seq<Uuid>, stored: seq<WatchedProcess>)
    requires |ids| == |DefaultEntries|
    requires NoBuiltIn(stored)
    ensures CustomOf(DefaultWatchList(ids) + stored) == stored
  {
    FilterAppend(DefaultWatchList(ids), stored, (p: WatchedProcess) => !p.isBuiltIn);
    FilterDropsAll(DefaultWatchList(ids), (p: WatchedProcess) => !p.isBuiltIn);
    FilterKeepsAll(stored, (p: WatchedProcess) => !p.isBuiltIn);
  }

  /** What `saveCustomWatchList` persists has no built-in entry. */
  predicate NoBuiltIn(list: seq<WatchedProcess>) {
    forall i :: 0 <= i < |list| ==> !list[i].isBuiltIn
  }

  /** The entries whose identifier differs from `id`, in order. */
  function WithoutId(list: seq<WatchedProcess>, id: Uuid): seq<WatchedProcess> {
    Filter(list, (p: WatchedProcess) => p.id != id)
  }

  /** Removal by identifier leaves no entry with that identifier and keeps every other entry, in order. */
  lemma WithoutIdSpec(list: seq<WatchedProcess>, id: Uuid, more: seq<WatchedProcess>)
    ensures forall i :: 0 <= i < |WithoutId(list, id)| ==> WithoutId(list, id)[i].id != id
    ensures forall i :: 0 <= i < |list| && list[i].id != id ==> list[i] in WithoutId(list, id)
    ensures WithoutId(list + more, id) == WithoutId(list, id) + WithoutId(more, id)
    ensures (forall i :: 0 <= i < |list| ==> list[i].id != id) ==> WithoutId(list, id) == list
  {
    FilterAppend(list, more, (p: WatchedProcess) => p.id != id);
    if forall i :: 0 <= i < |list| ==> list[i].id != id {
      FilterKeepsAll(list, (p: WatchedProcess) => p.id != id);
    }
  }

  /**
   * The duplicate check of `addToWatchList`: an entry has the (trimmed) name ignoring case, or a
   * bundle identifier was given and an entry has it, ignoring case. The given identifier is
   * compared as passed, before trimming.
   */
  predicate IsDuplicate(list: seq<WatchedProcess>, trimmedName: string, bundleIdentifier: Option<string>) {
    exists i :: 0 <= i < |list| &&
      (|| Lower(list[i].name) == Lower(trimmedName)
       || (bundleIdentifier.Some? && list[i].bundleIdentifier.Some?
           && Lower(list[i].bundleIdentifier.value) == Lower(bundleIdentifier.value)))
  }

  /** No two entries share a name, ignoring case. */
  predicate NamesDistinct(list: seq<WatchedProcess>) {
    forall i, j :: 0 <= i < j < |list| ==> Lower(list[i].name) != Lower(list[j].name)
  }

  /** The entry `addToWatchList` appends: trimmed name and identifier, never built in. */
  function NewCustomEntry(id: Uuid, name: string, bundleIdentifier: Option<string>): (p: WatchedProcess)
    ensures p.name == Trim(name) && !p.isBuiltIn && p.id == id
    ensures p.bundleIdentifier.Some? <==> bundleIdentifier.Some?
    ensures bundleIdentifier.Some? ==> p.bundleIdentifier.value == Trim(bundleIdentifier.value)
  {
    NewWatchedProcess(id, Trim(name),
      if bundleIdentifier.Some? then Some(Trim(bundleIdentifier.value)) else None, false)
  }

  /** An append that passed the duplicate check keeps the names distinct. */
  lemma AppendKeepsNamesDistinct(list: seq<WatchedProcess>, id: Uuid, name: string, bundleIdentifier: Option<string>)
    requires NamesDistinct(list) && !IsDuplicate(list, Trim(name), bundleIdentifier)
    ensures NamesDistinct(list + [NewCustomEntry(id, name, bundleIdentifier)])
  {
    var entry := NewCustomEntry(id, name, bundleIdentifier);
    var l := list + [entry];
    forall i, j | 0 <= i < j < |l| ensures Lower(l[i].name) != Lower(l[j].name) {
      if j == |list| {
        assert l[i] == list[i];
      } else {
        assert l[i] == list[i] && l[j] == list[j];
      }
    }
  }

  class ProcessWatcher {
    var runningWatchedProcesses: seq<RunningApp>
    var watchedProcess: Option<RunningApp>
    var watchList: seq<WatchedProcess>
    /** Whether a termination observation is registered (`observationToken != nil`). */
    var observing: bool
    /** The custom list as persisted under `customWatchList`; None when nothing was stored. */
    var storedCustomList: Option<seq<WatchedProcess>>
    /** The names carried by the `watchedProcessTerminated` notifications posted so far. */
    var terminationPosts: seq<string>

    /** An observation is registered exactly while an application is watched. */
    predicate Valid()
      reads this
    {
      observing == watchedProcess.Some?
    }

    /**
     * `init()`: loads the list from the defaults and what was stored, then reads the running
     * applications. `stored` is None when nothing was stored or it did not decode.
     */
    constructor(ids: seq<Uuid>, stored: Option<seq<WatchedProcess>>, running: seq<RunningApp>)
      requires |ids| == |DefaultEntries|
      ensures Valid()
      ensures watchList == DefaultWatchList(ids) + stored.GetOr([])
      ensures runningWatchedProcesses == RunningWatched(running, watchList)
      ensures watchedProcess.None? && storedCustomList == stored && terminationPosts == []
    {
      runningWatchedProcesses := [];
      watchedProcess := None;
      watchList := [];
      observing := false;
      storedCustomList := stored;
      terminationPosts := [];
      new;
      LoadWatchList(ids);
      UpdateRunningProcesses(running);
    }

    /** The list becomes the default table followed by the persisted custom entries. */
    method LoadWatchList(ids: seq<Uuid>)
      requires |ids| == |DefaultEntries|
      modifies this
      ensures watchList == DefaultWatchList(ids) + storedCustomList.GetOr([])
      ensures NoBuiltIn(storedCustomList.GetOr([])) ==> CustomOf(watchList) == storedCustomList.GetOr([])
      ensures runningWatchedProcesses == old(runningWatchedProcesses) && watchedProcess == old(watchedProcess)
      ensures observing == old(observing) && storedCustomList == old(storedCustomList)
      ensures terminationPosts == old(terminationPosts)
    {
      var list := DefaultWatchList(ids);
      if storedCustomList.Some? {
        list := list + storedCustomList.value;
      }
      if NoBuiltIn(storedCustomList.GetOr([])) {
        LoadedCustomEntries(ids, storedCustomList.GetOr([]));
      }
      watchList := list;
    }

    /** Recomputes the running watched applications from the running ones. */
    method UpdateRunningProcesses(running: seq<RunningApp>)
      modifies this
      ensures runningWatchedProcesses == RunningWatched(running, watchList)
      ensures watchList == old(watchList) && watchedProcess == old(watchedProcess) && observing == old(observing)
      ensures storedCustomList == old(storedCustomList) && terminationPosts == old(terminationPosts)
    {
      runningWatchedProcesses := RunningWatched(running, watchList);
    }

    /** Binds `app`, replacing any previous binding. */
    method WatchProcess(app: RunningApp)
      modifies this
      ensures Valid() && watchedProcess == Some(app)
      ensures watchList == old(watchList) && runningWatchedProcesses == old(runningWatchedProcesses)
      ensures storedCustomList == old(storedCustomList) && terminationPosts == old(terminationPosts)
    {
      StopWatching();
      watchedProcess := Some(app);
      observing := true;
    }

    /** Drops the binding; the outcome does not depend on the state before, so a second call changes nothing. */
    method StopWatching()
      modifies this
      ensures Valid() && watchedProcess.None? && !observing
      ensures watchList == old(watchList) && runningWatchedProcesses == old(runningWatchedProcesses)
      ensures storedCustomList == old(storedCustomList) && terminationPosts == old(terminationPosts)
    {
      observing := false;
      watchedProcess := None;
    }

    /** The watched application ended: unbind and post its name, or "Unknown" when it has none. */
    method HandleWatchedProcessTerminated(app: RunningApp)
      modifies this
      ensures Valid() && watchedProcess.None?
      ensures terminationPosts == old(terminationPosts) + [app.localizedName.GetOr("Unknown")]
      ensures watchList == old(watchList) && runningWatchedProcesses == old(runningWatchedProcesses)
      ensures storedCustomList == old(storedCustomList)
    {
      var processName := app.localizedName.GetOr("Unknown");
      StopWatching();
      terminationPosts := terminationPosts + [processName];
    }

    /**
     * Some application ended (`app` is None when the notification carries none): the running
     * list is refreshed, and the binding is dropped with one post only when it is the watched one.
     */
    method HandleAppTermination(app: Option<RunningApp>, running: seq<RunningApp>)
      requires Valid()
      modifies this
      ensures Valid()
      ensures runningWatchedProcesses == RunningWatched(running, watchList)
      ensures watchList == old(watchList) && storedCustomList == old(storedCustomList)
      ensures var hit := app.Some? && old(watchedProcess).Some? && app.value.pid == old(watchedProcess).value.pid;
        && (hit ==> watchedProcess.None? && terminationPosts == old(terminationPosts) + [app.value.localizedName.GetOr("Unknown")])
        && (!hit ==> watchedProcess == old(watchedProcess) && terminationPosts == old(terminationPosts))
    {
      UpdateRunningProcesses(running);
      if app.Some? && watchedProcess.Some? && app.value.pid == watchedProcess.value.pid {
        HandleWatchedProcessTerminated(app.value);
      }
    }

    /** Persists the custom entries. */
    method SaveCustomWatchList()
      modifies this
      ensures storedCustomList == Some(CustomOf(watchList))
      ensures watchList == old(watchList) && runningWatchedProcesses == old(runningWatchedProcesses)
      ensures watchedProcess == old(watchedProcess) && observing == old(observing)
      ensures terminationPosts == old(terminationPosts)
    {
      storedCustomList := Some(CustomOf(watchList));
    }

    /**
     * Adds a custom entry with the trimmed name and identifier, unless the trimmed name is empty
     * or duplicates an entry; a successful add persists the custom entries and refreshes the
     * running list.
     */
    method AddToWatchList(name: string, bundleIdentifier: Option<string>, id: Uuid, running: seq<RunningApp>)
      modifies this
      ensures Trim(name) == [] || IsDuplicate(old(watchList), Trim(name), bundleIdentifier) ==> unchanged(this)
      ensures Trim(name) != [] && !IsDuplicate(old(watchList), Trim(name), bundleIdentifier) ==>
        && watchList == old(watchList) + [NewCustomEntry(id, name, bundleIdentifier)]
        && storedCustomList == Some(CustomOf(watchList))
        && runningWatchedProcesses == RunningWatched(running, watchList)
        && watchedProcess == old(watchedProcess) && observing == old(observing)
        && terminationPosts == old(terminationPosts)
    {
      var trimmedName := Trim(name);
      if trimmedName == [] {
        return;
      }
      if IsDuplicate(watchList, trimmedName, bundleIdentifier) {
        return;
      }
      watchList := watchList + [NewCustomEntry(id, name, bundleIdentifier)];
      SaveCustomWatchList();
      UpdateRunningProcesses(running);
    }

    /**
     * Removes every entry with the identifier of `process`, unless `process` itself is marked
     * built in; then persists and refreshes.
     */
    method RemoveFromWatchList(process: WatchedProcess, running: seq<RunningApp>)
      modifies this
      ensures process.isBuiltIn ==> unchanged(this)
      ensures !process.isBuiltIn ==>
        && watchList == WithoutId(old(watchList), process.id)
        && storedCustomList == Some(CustomOf(watchList))
        && runningWatchedProcesses == RunningWatched(running, watchList)
        && watchedProcess == old(watchedProcess) && observing == old(observing)
        && terminationPosts == old(terminationPosts)
    {
      if process.isBuiltIn {
        return;
      }
      watchList := WithoutId(watchList, process.id);
      SaveCustomWatchList();
      UpdateRunningProcesses(running);
    }

    function BuiltInProcesses(): seq<WatchedProcess>
      reads this
    {
      BuiltInOf(watchList)
    }

    function CustomProcesses(): seq<WatchedProcess>
      reads this
    {
      CustomOf(watchList)
    }
  }
}
