# Caffeinator, modelled in Dafny

Caffeinator keeps a Mac awake. It ships in three forms, and this project models the core logic of each.

- **The macOS menu-bar app (Swift).** A session manager runs one `/usr/bin/caffeinate` child at a time, with mode flags and an optional `-t <seconds>`. It counts a fixed session down once a second and ends the session when the child exits or when a watched application quits. The app keeps a watch list of applications (built-in and user-added). Its settings hold the default duration, the default modes and editable timer presets. Its views compute custom durations, previews and subtitles.
- **The command-line tool (Swift).** `caffeinator on|off|status|watch|help|version`, with a duration parser (`2h`, `30m`, `90s`, `90`, `1h30m`) and the `caffeinate` argument builder.
- **The Tauri app (Rust back end, React front end).** It holds a single IOKit power assertion, with identifier 0 meaning none. It reports a status with the whole seconds left, and reads the `pmset` power settings and assertion listing. The front-end hook polls that status, deactivates a session once the back end reports 0 seconds left, and mirrors the status in the tray title.

## How the model is laid out

There is one module per source file:

- `SessionManager` (`CaffeinateManager.swift`)
- `ProcessWatching` (`ProcessWatcher.swift`)
- `Settings` (`SettingsViewModel.swift`)
- `Cli` (`main.swift`)
- `TimeFormat` (`DesignSystem.swift`)
- `MenuBar` (`MenuBarView.swift`)
- `PresetEditor` (`PresetEditorSheet` in `SettingsView.swift`)
- the value types `Durations`, `TimerPresets`, `CaffeinateModes`, `WatchedProcesses` and `DeveloperPresets`
- `TauriState` (`state.rs`), `TauriCommands` (`commands.rs`) and `Power` (`power.rs`)
- `CaffeinateHook` (`useCaffeinate.ts`), `DurationPicker`, `TimerView` and `PowerProfileView` (the React components)

Shared helpers live in `Wrappers` (`Option`, `Result`), `Identity`, `IntMath`, `Text` and `Sequences`.

Code that updates state in place is modelled as a Dafny `class` with `modifies` clauses. This covers the session manager, the process watcher, the settings model, the popover and preset sheet state, `AppState`, the power-assertion bookkeeping, the tray icon, and the React hook and component state. Pure code is modelled as functions, with lemmas stating what the source promises.

The operating system enters as data:

- A `caffeinate` launch is `Launched(pid)` or `LaunchFailed`.
- An IOKit create or release is its return code (and, for a create, the identifier written).
- A `pmset` run is its output text or the reason it could not run.
- `NSWorkspace`'s running applications are a parameter.
- The clock is an integer: milliseconds for the Swift manager, nanoseconds for Rust `Instant`s.
- Timer, termination and notification callbacks are methods that the environment calls.
- A React `await` splits an operation into a synchronous `Begin…` part and a `Complete…` part that takes the awaited results as parameters.
- Random UUIDs are parameters of type `Identity.Uuid`.

Integer semantics are written out where they matter:

- Swift's `/` and `%` truncate toward zero (`IntMath.Quot`, `IntMath.Rem`).
- Swift `Int` parsing accepts 64-bit values only (`Text.ParseInt`).
- Rust `u32` parsing is modelled by `Text.ParseU32`.
- JavaScript `parseInt` skips JavaScript's leading white space and reads a decimal prefix (`Text.ParseIntPrefix`).
- A Rust `Instant` difference saturates at zero (`TauriState.Elapsed`).

## Model

| member | source | states |
|---|---|---|
| SessionManager.LengthArguments | Caffeinator/ViewModels/CaffeinateManager.swift:37-40 | `-t` and a length are added exactly when the duration has seconds |
| SessionManager.SessionArgumentsShape | Caffeinator/ViewModels/CaffeinateManager.swift:36-41 | the child's arguments are every selected mode's flag exactly once, then `-t <seconds>` exactly when the session has a length |
| SessionManager.SessionLengthReadsBack | Caffeinator/ViewModels/CaffeinateManager.swift:37-40 | the value after `-t` reads back as the session's length |
| SessionManager.TickExpiresWithinLastSecond | Caffeinator/ViewModels/CaffeinateManager.swift:142-143 | the truncated seconds-until-end is ≤ 0 exactly when less than one whole second is left |
| SessionManager.CaffeinateManager.constructor | Caffeinator/ViewModels/CaffeinateManager.swift:6-26 | a new manager is inactive and holds no child, timer, end time or session fields |
| SessionManager.CaffeinateManager.Deactivate | Caffeinator/ViewModels/CaffeinateManager.swift:106-121 | the held child is terminated, and every session field, the child and the timer are reset |
| SessionManager.CaffeinateManager.DeactivateTwice | Caffeinator/ViewModels/CaffeinateManager.swift:106-121 | two deactivations have exactly the effect of one |
| SessionManager.CaffeinateManager.Activate | Caffeinator/ViewModels/CaffeinateManager.swift:28-72 | the old session is always torn down first. An empty mode set launches nothing and leaves the manager cleared. Otherwise there is exactly one launch with the session arguments. A failed launch leaves the manager cleared. A successful one is active with the modes and duration, and a fixed length gets `remainingSeconds`, `endTime = now + length` and a running timer, while an indefinite one gets neither |
| SessionManager.CaffeinateManager.ActivateForProcess | Caffeinator/ViewModels/CaffeinateManager.swift:74-104 | like `Activate` for an indefinite session, launched with the mode flags only (never `-t`), and it records the watched application's name |
| SessionManager.CaffeinateManager.Launch | Caffeinator/ViewModels/CaffeinateManager.swift:47-71 | from the cleared state, the launch is recorded. Failure stays cleared; success publishes the session |
| SessionManager.CaffeinateManager.Publish | Caffeinator/ViewModels/CaffeinateManager.swift:49-61 | the published fields: child, modes, duration, the watched name, and the remaining seconds, end time and timer exactly when the session has a length |
| SessionManager.CaffeinateManager.Toggle | Caffeinator/ViewModels/CaffeinateManager.swift:123-129 | an active manager is deactivated, an inactive one activated |
| SessionManager.CaffeinateManager.Tick | Caffeinator/ViewModels/CaffeinateManager.swift:140-150 | with no end time nothing changes. With less than a whole second left the session ends and exactly one expiry is posted. Otherwise the remaining seconds become the positive whole seconds left, and nothing else changes |
| SessionManager.CaffeinateManager.HandleTermination | Caffeinator/ViewModels/CaffeinateManager.swift:152-166 | as written, whichever child exited: the session fields and timer are cleared, the child reference is kept, and an expiry is posted only if a session was active |
| SessionManager.CaffeinateManager.HandleTerminationOf | Caffeinator/ViewModels/CaffeinateManager.swift:152-166 | corrected handler: the exit of a child other than the held one changes nothing; the held child's exit behaves as written |
| SessionManager.CaffeinateManager.HandleWatchedProcessTerminated | Caffeinator/ViewModels/CaffeinateManager.swift:168-172 | it deactivates exactly when a watched application is recorded, whatever name the notification carries; otherwise nothing changes; the session invariant holds afterwards |
| SessionManager.StaleTerminationEndsNewSession | Caffeinator/ViewModels/CaffeinateManager.swift:28-29 | a re-activation followed by the old child's late exit ends the new session and posts an expiry, while the new child is still held |
| SessionManager.StaleTerminationIgnored | Caffeinator/ViewModels/CaffeinateManager.swift:152-166 | with the identity check, the same events leave the new two-hour session running with nothing posted |
| ProcessWatching.SortByName | Caffeinator/ViewModels/ProcessWatcher.swift:58 | the result is sorted by name (a missing name sorts as "") and is a permutation of its input |
| ProcessWatching.RunningWatchedSpec | Caffeinator/ViewModels/ProcessWatcher.swift:45-59 | the running watched applications are sorted, each matches the list by lower-cased bundle identifier or name, and every matching running application appears as often as it runs |
| ProcessWatching.BuiltInCustomPartition | Caffeinator/ViewModels/ProcessWatcher.swift:153-159 | built-in and custom entries partition the list (as multisets), each keeps list order, and both distribute over concatenation |
| ProcessWatching.LoadedCustomEntries | Caffeinator/ViewModels/ProcessWatcher.swift:104-114 | the custom entries of a loaded list are exactly the stored custom entries (save/load round trip) |
| ProcessWatching.WithoutIdSpec | Caffeinator/ViewModels/ProcessWatcher.swift:139 | removal by identifier leaves no entry with that identifier, keeps every other entry in order, and is the identity when none matches |
| ProcessWatching.NewCustomEntry | Caffeinator/ViewModels/ProcessWatcher.swift:127-131 | the appended entry has the trimmed name, the trimmed identifier if one was given, and is not built in |
| ProcessWatching.AppendKeepsNamesDistinct | Caffeinator/ViewModels/ProcessWatcher.swift:120-132 | an append that passed the duplicate check keeps names distinct ignoring case |
| ProcessWatching.ProcessWatcher.constructor | Caffeinator/ViewModels/ProcessWatcher.swift:16-24 | the list is the defaults followed by the stored custom entries, the running list is computed, and nothing is watched |
| ProcessWatching.ProcessWatcher.LoadWatchList | Caffeinator/ViewModels/ProcessWatcher.swift:104-114 | the list becomes the defaults followed by the custom list the object persisted; when that list holds no built-in entry (as `saveCustomWatchList` leaves it), the loaded custom entries are exactly it; nothing else changes |
| ProcessWatching.ProcessWatcher.UpdateRunningProcesses | Caffeinator/ViewModels/ProcessWatcher.swift:45-59 | the running list is recomputed from the given running applications; nothing else changes |
| ProcessWatching.ProcessWatcher.WatchProcess | Caffeinator/ViewModels/ProcessWatcher.swift:63-75 | the binding is replaced by the given application and an observation is registered |
| ProcessWatching.ProcessWatcher.StopWatching | Caffeinator/ViewModels/ProcessWatcher.swift:77-81 | nothing is watched or observed afterwards, whatever the state before (so it is idempotent) |
| ProcessWatching.ProcessWatcher.HandleWatchedProcessTerminated | Caffeinator/ViewModels/ProcessWatcher.swift:83-91 | it unbinds and posts exactly one notification carrying the name, or "Unknown" |
| ProcessWatching.ProcessWatcher.HandleAppTermination | Caffeinator/ViewModels/ProcessWatcher.swift:93-100 | the running list is refreshed. Only the exit of the watched pid unbinds and posts once; any other exit leaves the binding and posts nothing |
| ProcessWatching.ProcessWatcher.SaveCustomWatchList | Caffeinator/ViewModels/ProcessWatcher.swift:144-149 | what is persisted is exactly the custom entries |
| ProcessWatching.ProcessWatcher.AddToWatchList | Caffeinator/ViewModels/ProcessWatcher.swift:116-135 | an empty trimmed name or a duplicate (name, or a given bundle identifier, ignoring case) changes nothing. Otherwise exactly one trimmed custom entry is appended, earlier entries are unchanged, and the custom entries are persisted and the running list refreshed |
| ProcessWatching.ProcessWatcher.RemoveFromWatchList | Caffeinator/ViewModels/ProcessWatcher.swift:137-142 | an argument marked built in changes nothing. Otherwise every entry with its identifier is removed, the rest keep their order, and the list is persisted and refreshed |
| Settings.DurationOfSetting | Caffeinator/ViewModels/SettingsViewModel.swift:22-25 | the stored identifier's duration, or one hour when it does not parse |
| Settings.DefaultDurationRoundTrip | Caffeinator/ViewModels/SettingsViewModel.swift:22-29 | setting the default duration and reading it back gives the same duration |
| Settings.FirstIndexOfId | Caffeinator/ViewModels/SettingsViewModel.swift:55 | the index found is the first with that identifier, and none means no preset has it |
| Settings.WithoutPresetSpec | Caffeinator/ViewModels/SettingsViewModel.swift:62 | deletion leaves no preset with the identifier, keeps the others in order, and is the identity when none matches |
| Settings.SettingsViewModel.constructor | Caffeinator/ViewModels/SettingsViewModel.swift:6-20 | the stored identifier or "1h". The stored modes, or `[.idle]`. The stored presets, or the defaults, which are then written back |
| Settings.SettingsViewModel.SetDefaultDuration | Caffeinator/ViewModels/SettingsViewModel.swift:26-28 | stores the identifier, after which the getter returns the same duration |
| Settings.SettingsViewModel.SaveTimerPresets | Caffeinator/ViewModels/SettingsViewModel.swift:43-47 | the stored presets are the current list |
| Settings.SettingsViewModel.AddPreset | Caffeinator/ViewModels/SettingsViewModel.swift:49-52 | the preset is appended at the end, and the list is saved |
| Settings.SettingsViewModel.UpdatePreset | Caffeinator/ViewModels/SettingsViewModel.swift:54-59 | the length never changes. Only the first preset with the identifier is replaced, and the list is saved. An absent identifier changes nothing |
| Settings.SettingsViewModel.DeletePreset | Caffeinator/ViewModels/SettingsViewModel.swift:61-64 | every preset with the identifier is removed, the rest keep their order, and the list is saved |
| Settings.SettingsViewModel.ResetPresetsToDefaults | Caffeinator/ViewModels/SettingsViewModel.swift:66-69 | the list becomes the defaults and is saved |
| Settings.SettingsViewModel.MovePreset | Caffeinator/ViewModels/SettingsViewModel.swift:71-74 | the list is only reordered (a permutation), as `move(fromOffsets:toOffset:)` places it, and saved |
| Settings.SettingsViewModel.SaveDefaultModes | Caffeinator/ViewModels/SettingsViewModel.swift:107-111 | the stored modes are the current modes |
| Settings.SettingsViewModel.ToggleMode | Caffeinator/ViewModels/SettingsViewModel.swift:113-120 | only the given mode's membership flips, and the set is saved |
| Settings.Toggled | Caffeinator/ViewModels/SettingsViewModel.swift:113-124 | the mode is in the result exactly when it was not before; every other mode keeps its membership (the set may become empty) |
| Settings.ToggleTwice | Caffeinator/ViewModels/SettingsViewModel.swift:113-120 | toggling the same mode twice restores the set |
| Durations.Seconds | Caffeinator/Models/Duration.swift:22-31 | there are no seconds exactly for the indefinite duration |
| Durations.SecondsTable | Caffeinator/Models/Duration.swift:22-31 | 1800, 3600, 7200 and 14400 for the presets, and `s` for `.custom(s)` |
| Durations.PresetsAreTheFixedCases | Caffeinator/Models/Duration.swift:55-57 | five distinct presets, exactly the non-custom cases, of which only the indefinite one has no seconds |
| Durations.FormatSecondsFields | Caffeinator/Models/Duration.swift:59-81 | the hour and minute fields are whole hours and the leftover minutes (< 60), recomposing the count |
| Durations.FormatDropsSeconds | Caffeinator/Models/Duration.swift:59-81 | both formatters ignore the seconds beyond the last whole minute |
| Durations.From | Caffeinator/Models/Duration.swift:83-96 | a custom result comes only from a "custom-" identifier |
| Durations.FromIdRoundTrip | Caffeinator/Models/Duration.swift:11-20 | `from(id: d.id) == d` for every duration, custom ones included |
| Durations.FromAcceptsExactly | Caffeinator/Models/Duration.swift:90-95 | `from` accepts exactly the five preset identifiers and "custom-" followed by a 64-bit integer |
| Durations.IdInjective | Caffeinator/Models/Duration.swift:11-20 | distinct durations have distinct identifiers |
| TimerPresets.NewTimerPreset | Caffeinator/Models/TimerPreset.swift:10-15 | the initializer stores its arguments, with `isDefault` false unless given |
| TimerPresets.InitDefaultsNotDefault | Caffeinator/Models/TimerPreset.swift:10 | a preset built without `isDefault` is not a default |
| TimerPresets.ToDuration | Caffeinator/Models/TimerPreset.swift:17-26 | indefinite exactly at zero minutes; otherwise a duration of `minutes * 60` seconds |
| TimerPresets.MinuteFieldsMatchSecondFields | Caffeinator/Models/TimerPreset.swift:32-33 | splitting minutes into hours and minutes agrees with splitting the same time in seconds |
| TimerPresets.NamesAgreeWithDuration | Caffeinator/Models/TimerPreset.swift:28-56 | a non-zero preset's long and short names are those of the custom duration of its seconds |
| TimerPresets.DefaultsTable | Caffeinator/Models/TimerPreset.swift:59-65 | five presets of 30, 60, 120, 240 and 0 minutes, all marked default, with distinct identifiers |
| TimerPresets.DefaultsNamedByDisplayName | Caffeinator/Models/TimerPreset.swift:59-65 | each default preset's stored name is its display name |
| CaffeinateModes.AllModesComplete | Caffeinator/Models/CaffeinateMode.swift:3-7 | four modes, each listed exactly once |
| CaffeinateModes.FlagsAndNamesInjective | Caffeinator/Models/CaffeinateMode.swift:4-29 | flags, identifiers and names are each injective |
| CaffeinateModes.FlagsListEachModeOnce | Caffeinator/ViewModels/CaffeinateManager.swift:36 | the mapped flags hold every selected mode's flag exactly once |
| CaffeinateModes.FlagsInCount | Caffeinator/ViewModels/CaffeinateManager.swift:36 | one flag per selected listed mode |
| CaffeinateModes.FlagsInMembers | Caffeinator/ViewModels/CaffeinateManager.swift:36 | the produced flags are exactly the flags of selected modes |
| CaffeinateModes.FlagsInDistinct | Caffeinator/ViewModels/CaffeinateManager.swift:36 | no flag is produced twice |
| WatchedProcesses.NewWatchedProcess | Caffeinator/Models/WatchedProcess.swift:10-15 | the initializer stores its arguments |
| WatchedProcesses.InitDefaults | Caffeinator/Models/WatchedProcess.swift:10 | without them, no bundle identifier and not built in |
| WatchedProcesses.DefaultWatchList | Caffeinator/Models/WatchedProcess.swift:17-58 | one built-in entry per row of the seed table, with its name and bundle identifier |
| WatchedProcesses.DefaultWatchListWellFormed | Caffeinator/Models/WatchedProcess.swift:20-57 | 26 entries, all built in with a bundle identifier, with names and bundle identifiers pairwise distinct ignoring case |
| DeveloperPresets.AllTable | Caffeinator/Models/DeveloperPreset.swift:12-61 | six presets with ids docker, xcode, npm, deploy, presentation, ml, pairwise distinct. All include idle (so none has an empty mode set). Durations are 4h, 2h and 1h, then indefinite |
| Cli.CommandNamesIgnoreCase | CaffeinatorCLI/main.swift:26 | a name is recognised exactly when its lower-cased form is a command's raw value |
| Cli.RawValuesRecognised | CaffeinatorCLI/main.swift:7-14 | every raw value names its command |
| Cli.Dispatch | CaffeinatorCLI/main.swift:18-46 | no argument means usage. An unrecognised first argument is an unknown command carrying its name. Otherwise the command runs with the remaining arguments |
| Cli.ExitStatus | CaffeinatorCLI/main.swift:21-30 | exit 1 exactly for an unknown command, 0 exactly when no command was given |
| Cli.MatchHoursMinutesAt | CaffeinatorCLI/main.swift:223 | a match yields two non-empty runs of characters ICU's `\d` matches: ASCII digits or the decimal digits of any other script (Unicode 15.0) |
| Cli.FirstMatchFrom | CaffeinatorCLI/main.swift:223-224 | a leftmost match yields two non-empty runs of `\d` characters |
| Cli.ParseDurationUnits | CaffeinatorCLI/main.swift:201-220 | `<n>h` is n·3600, `<n>m` is n·60, `<n>s` is n, and a bare `<n>` is n·60 |
| Cli.ParseDurationHoursMinutes | CaffeinatorCLI/main.swift:222-231 | for ASCII digit runs of values h and m that fit in 64 bits (leading zeros allowed), `<h>h<m>m` is h·3600 + m·60 seconds, reached because the minutes suffix fails to parse |
| Cli.ParseDurationOfDigits | CaffeinatorCLI/main.swift:222-231 | on `\d` runs the expression branch reads both runs, using 0 for one that is no Swift integer (it overflows or holds a digit of another script) |
| Cli.OtherScriptRunCountsAsZero | CaffeinatorCLI/main.swift:227-229 | a minutes run holding a digit of another script matches but is no Swift integer, so only the hours count |
| Cli.OtherScriptDigitsCountAsZero | CaffeinatorCLI/main.swift:222-229 | Arabic-Indic "١h٢m" is 0 seconds and "1h٢m" is 3600 |
| Cli.ParseDurationNeedsDigit | CaffeinatorCLI/main.swift:233 | text without any character `\d` matches (ASCII or other-script decimal digit) is no duration |
| Cli.HoursMinutesIsNoSuffixForm | CaffeinatorCLI/main.swift:209-212 | `<h>h<m>m` does not parse as a minutes suffix, because the text before the "m" holds an "h" |
| Cli.HoursMinutesMatchesAtStart | CaffeinatorCLI/main.swift:223-226 | the `(\d+)h(\d+)m` expression matches `<h>h<m>m` at its start and captures both `\d` runs |
| Cli.NoMatchWithoutDigit | CaffeinatorCLI/main.swift:223-233 | the expression finds no match in text without a `\d` character |
| Cli.FormatDuration | CaffeinatorCLI/main.swift:236-247 | the same text as the app's `formatSeconds` |
| Cli.FlagArgumentsAppend | CaffeinatorCLI/main.swift:54-57 | the flags of a concatenation are the flags of each part, in order |
| Cli.LastDurationAppend | CaffeinatorCLI/main.swift:58-60 | the last duration of a concatenation is the second part's, if it has one |
| Cli.ScanOnArguments | CaffeinatorCLI/main.swift:51-61 | the loop's result is the idle default followed by the flags in order, and the last parseable duration |
| Cli.BuildOnArguments | CaffeinatorCLI/main.swift:50-72 | the `caffeinate` arguments are the flags (or `-i` when there are none), then `-t <secs>` exactly when a duration was parsed |
| Cli.OnIgnoresOtherArguments | CaffeinatorCLI/main.swift:54-61 | an argument that is neither a flag nor a duration does not change the result |
| Cli.OnLastDurationWins | CaffeinatorCLI/main.swift:58-60 | the last parseable duration is the one passed after `-t` |
| Cli.OnFlagsReplaceDefault | CaffeinatorCLI/main.swift:52-66 | the default `-i` stays only when no flag is given, and the flags are passed in order |
| Cli.ParseInt32 | CaffeinatorCLI/main.swift:160 | `Int32(s)` succeeds exactly when the integer parse succeeds within 32 bits |
| Cli.WatchPid | CaffeinatorCLI/main.swift:151-173 | no target is an error. `--pid` needs a next argument parsing as Int32, otherwise it is an invalid PID. A name resolves to what `pgrep` found, otherwise "not found" |
| Cli.WatchArguments | CaffeinatorCLI/main.swift:182 | `-i -w <pid>`, whose last element reads back as the pid |
| TimeFormat.FieldsRecompose | Caffeinator/Utilities/DesignSystem.swift:89-91 | for s ≥ 0, h·3600 + m·60 + sec == s, with m and sec below 60 |
| TimeFormat.StandardClockFields | Caffeinator/Utilities/DesignSystem.swift:94-98 | the standard style ends in two padded seconds digits, preceded by padded minutes after the hours, or by the plain minutes without hours |
| TimeFormat.RemainingIsStandardClock | Caffeinator/Utilities/DesignSystem.swift:117-121 | the remaining style is the standard style followed by " remaining" |
| TimeFormat.CompactFields | Caffeinator/Utilities/DesignSystem.swift:100-104 | the compact style is `h:mm` with hours, else `<m>m` |
| TimeFormat.VerboseAgreesWithDurationNames | Caffeinator/Utilities/DesignSystem.swift:106-115 | with at least a minute, the verbose style is the duration formatter's text. Below a minute it counts seconds, plural exactly above one |
| MenuBar.ToggleKeepsASelection | Caffeinator/Views/MenuBarView.swift:433-441 | only the toggled mode changes. An absent mode is added. A present one is removed exactly when others remain, so a non-empty selection never empties |
| MenuBar.CustomDurationCases | Caffeinator/Views/MenuBarView.swift:272-273 | on stepper values the custom Start asks for indefinite exactly at 0:00, else a custom length of exactly h·3600 + m·60 seconds |
| MenuBar.PreviewAsksWhenNothingChosen | Caffeinator/Views/MenuBarView.swift:289-293 | the preview asks for a choice exactly at 0:00 |
| MenuBar.PreviewAgreesWithPresetSheet | Caffeinator/Views/MenuBarView.swift:289-301 | apart from one minute, the preview is "Keep awake for " followed by the preset sheet's preview |
| MenuBar.PreviewPluralAtOneMinute | Caffeinator/Views/MenuBarView.swift:299 | at exactly one minute the popover says "1 minutes" where the sheet says "1 minute" |
| MenuBar.SubtitlePrecedence | Caffeinator/Views/MenuBarView.swift:92-101 | the watched process first, then the remaining-style clock, then "Running indefinitely" |
| MenuBar.Popover.constructor | Caffeinator/Views/MenuBarView.swift:8-11 | idle selected, form closed, 0 hours and 30 minutes |
| MenuBar.Popover.OnAppear | Caffeinator/Views/MenuBarView.swift:49-51 | the selection becomes the settings' default modes |
| MenuBar.Popover.ToggleMode | Caffeinator/Views/MenuBarView.swift:433-441 | the selection becomes the toggled set; nothing else changes |
| MenuBar.Popover.ShowCustomDuration | Caffeinator/Views/MenuBarView.swift:15-17 | opens or closes the custom form; nothing else changes |
| MenuBar.Popover.StepHours | Caffeinator/Views/MenuBarView.swift:239 | one step within 0...23, stopping at either end |
| MenuBar.Popover.StepMinutes | Caffeinator/Views/MenuBarView.swift:256 | one five-minute step within 0...55, stopping at either end |
| MenuBar.Popover.StartCustom | Caffeinator/Views/MenuBarView.swift:271-283 | hands the custom duration and the selected modes to the manager and closes the form |
| MenuBar.Popover.PreviewOnGrid | Caffeinator/Views/MenuBarView.swift:256-301 | on the stepper grid the popover preview always agrees with the preset sheet's |
| PresetEditor.PreviewIsDisplayName | Caffeinator/Views/SettingsView.swift:255-267 | for whole hours and under 60 minutes, the preview is the display name of a preset of that length |
| PresetEditor.SavedPresetShape | Caffeinator/Views/SettingsView.swift:233-241 | a saved preset keeps the edited id (a fresh one only when adding), has the total minutes, is named by its own display name, and is not a default |
| PresetEditor.Sheet.constructor | Caffeinator/Views/SettingsView.swift:188-192 | the sheet starts at 0 hours and 30 minutes |
| PresetEditor.Sheet.OnAppear | Caffeinator/Views/SettingsView.swift:247-252 | an edited preset's minutes are split so that hours·60 + minutes recovers them, in range for a non-negative count |
| PresetEditor.Sheet.SetHours | Caffeinator/Views/SettingsView.swift:201 | the hours stepper sets a value in 0...23 |
| PresetEditor.Sheet.SetMinutes | Caffeinator/Views/SettingsView.swift:212 | the minutes stepper sets a value in 0...55 |
| PresetEditor.Sheet.Save | Caffeinator/Views/SettingsView.swift:233-241 | the preset handed to `onSave` |
| PresetEditor.EditUnchangedKeepsPreset | Caffeinator/Views/SettingsView.swift:233-252 | opening a preset and saving it unchanged gives back its id and length, named by its display name; only the default mark is lost |
| Power.DisplayNamesDistinct | src-tauri/src/power.rs:40-48 | the five assertion types have five distinct labels |
| Power.IOKitNamesDistinct | src-tauri/src/power.rs:29-38 | the five IOKit names are distinct |
| Power.PowerAssertions.constructor | src-tauri/src/power.rs:51 | the current identifier starts at 0 |
| Power.PowerAssertions.CreateAssertion | src-tauri/src/power.rs:53-73 | one create call with the type's IOKit name and level 255. Success records and returns the new identifier. Failure leaves it and returns the code's message |
| Power.PowerAssertions.ReleaseAssertion | src-tauri/src/power.rs:75-88 | releasing 0 succeeds without calling IOKit. Otherwise one release call; success resets the current identifier to 0, and failure leaves it and returns the code's message |
| Power.PowerSource | src-tauri/src/power.rs:121-127 | "AC Power" if the text contains it, else "Battery" if it contains "Battery Power", else "Unknown", each as an if-and-only-if |
| Power.ParsePmsetValue | src-tauri/src/power.rs:152-164 | the loop returns the second token, read as a u32, of the first line carrying the key |
| Power.PmsetValueAbsent | src-tauri/src/power.rs:163 | with no line carrying the key there is no value |
| Power.PmsetValueFirstLine | src-tauri/src/power.rs:153-160 | the first line carrying the key decides the value |
| Power.PmsetValueStopsAtFirstLine | src-tauri/src/power.rs:158-160 | the lines after it are never read, even when its value does not parse |
| Power.AssertionEntry | src-tauri/src/power.rs:177-190 | an entry needs a "):" in the line |
| Power.ParseAssertions | src-tauri/src/power.rs:166-197 | the loop with the `in_listed` flag computes the entries of the lines |
| Power.NothingBeforeMarker | src-tauri/src/power.rs:168-174 | lines up to and including the first marker line yield nothing |
| Power.ListedLinesInOrder | src-tauri/src/power.rs:175-196 | inside the listing each line yields at most one entry, and entries keep line order |
| Power.ListedEntryNeeds | src-tauri/src/power.rs:175-183 | an entry needs a trimmed "pid" line, with "):" followed by a ']' and then two space-separated parts |
| Power.GetPowerProfile | src-tauri/src/power.rs:109-150 | either run failing gives its error message. Otherwise the source classification, the three parsed sleep values and the parsed assertions |
| TauriState.StatusOf | src-tauri/src/state.rs:43-75 | active exactly when the identifier is non-zero. The mode is passed through. Remaining seconds are present exactly for an active session with a start and a length. The total is the stored length in whole seconds, whether or not the session is active |
| TauriState.ClearedReportsDefault | src-tauri/src/state.rs:84-89 | the cleared state reports the same status as the default state built at lines 13-40 |
| TauriState.RemainingWithinLength | src-tauri/src/state.rs:51-60 | 0 once the length has elapsed, else the whole seconds left, never more than the length |
| TauriState.RemainingNeverIncreases | src-tauri/src/state.rs:51-60 | the remaining seconds never increase as time goes on |
| TauriState.ExpiryAndStatus | src-tauri/src/state.rs:96-104 | an indefinite session never expires, and an expired active one reports 0 seconds |
| TauriState.ZeroReportedBeforeExpiry | src-tauri/src/state.rs:51-101 | in the last second of a session the report is already 0 while `is_expired` is still false |
| TauriState.StatusAfterSetActive | src-tauri/src/state.rs:77-82 | right after `set_active` the status is active, with the mode, the full length left, and that length as total |
| TauriState.AppState.constructor | src-tauri/src/state.rs:31-40 | all four fields at their defaults |
| TauriState.AppState.GetStatus | src-tauri/src/state.rs:43-75 | reports the status of the current fields and changes nothing |
| TauriState.AppState.SetActive | src-tauri/src/state.rs:77-82 | stores the identifier, the mode, the current time and the length |
| TauriState.AppState.Clear | src-tauri/src/state.rs:84-89 | all four fields back to their defaults |
| TauriCommands.TrayIcon.constructor | src-tauri/src/commands.rs:70 | the `tray_by_id("main")` handle the commands look up, whose only modelled state is its title, starts with an empty title |
| TauriCommands.Activate | src-tauri/src/commands.rs:6-27 | a held assertion is released first, and a failed release returns its error with the state unchanged. A failed create returns its error and leaves the state cleared. Success starts the session with reason "Caffeinator: Preventing <label> sleep" and returns its status. The state and power identifiers stay in step |
| TauriCommands.Deactivate | src-tauri/src/commands.rs:29-46 | a failed release returns its error, changing nothing. Otherwise the state is cleared, the tray title emptied and the default status returned; an inactive state succeeds without a release |
| TauriCommands.Toggle | src-tauri/src/commands.rs:53-66 | on an active status it deactivates: the held id is released, nothing is created, and a successful release clears the state and the tray title and reports the default status while a failed one changes nothing and reports the error; otherwise it activates: nothing is released, one assertion is created, and the new session's whole state and status (or the create error) follow, with the title kept |
| TauriCommands.UpdateTrayTitle | src-tauri/src/commands.rs:68-81 | sets the title as given, or returns the tray's error and leaves the title |
| TauriCommands.QuitApp | src-tauri/src/commands.rs:88-96 | releases a held assertion and ignores a failure |
| CaffeinateHook.TrayTimeIsCompactStyle | src/hooks/useCaffeinate.ts:12-19 | the tray time is the macOS compact style: `h:mm` with hours, else `<m>m` |
| CaffeinateHook.TrayTitleCases | src/hooks/useCaffeinate.ts:21-35 | "" exactly when inactive. "∞" when active without a count. Otherwise the tray time of the remaining seconds |
| CaffeinateHook.ReconcileTrigger | src/hooks/useCaffeinate.ts:62 | the back end reports 0 for an active fixed session exactly when less than one second of it is left or it is over |
| CaffeinateHook.Hook.constructor | src/hooks/useCaffeinate.ts:38-42 | the hook starts with the default status of lines 5-10, not loading, no error, no fetch in flight |
| CaffeinateHook.Hook.Adopt | src/hooks/useCaffeinate.ts:56-58 | state and ref take the status, and the tray title follows it |
| CaffeinateHook.Hook.BeginFetch | src/hooks/useCaffeinate.ts:49-53 | a fetch starts exactly when none is in flight |
| CaffeinateHook.Hook.CompleteFetch | src/hooks/useCaffeinate.ts:54-73 | a failure stores its message and leaves the status. A success adopts the status and clears the error. An active status with 0 seconds left is deactivated and re-fetched. The in-flight flag always ends cleared |
| CaffeinateHook.Hook.BeginCommand | src/hooks/useCaffeinate.ts:78-79 | loading, with the error cleared |
| CaffeinateHook.Hook.CompleteCommand | src/hooks/useCaffeinate.ts:80-92 | adopts exactly the returned status, or stores the error and leaves the status; loading ends |
| CaffeinateHook.Hook.Activate | src/hooks/useCaffeinate.ts:76-95 | one `activate` call; the result is adopted into both the state and the ref (line 86) or its error stored with both kept; loading ends |
| CaffeinateHook.Hook.Deactivate | src/hooks/useCaffeinate.ts:97-110 | one `deactivate` call; the result is adopted into both the state and the ref (line 103) or its error stored with both kept; loading ends |
| CaffeinateHook.Hook.Toggle | src/hooks/useCaffeinate.ts:112-131 | one `toggle` call; the result is adopted into both the state and the ref (line 122) or its error stored with both kept; loading ends |
| CaffeinateHook.PollAfterActivate | src/hooks/useCaffeinate.ts:49-95 | after an `activate` the next poll runs; a fetched status that needs no reconcile is shown, and a failed fetch leaves what the command showed |
| DurationPicker.PresetsMatchTheMacApp | src/types.ts:18-24 | the web presets are the macOS presets, in order, with their short names and lengths |
| DurationPicker.FieldsClamped | src/components/DurationPicker.tsx:36-49 | an entry without digits gives 0. Minutes stay within 0...59 and hours at least 0. An in-range entry is kept |
| DurationPicker.Picker.constructor | src/components/DurationPicker.tsx:10-12 | form closed, 0 hours, 30 minutes |
| DurationPicker.Picker.SetHours | src/components/DurationPicker.tsx:36 | the hours field takes the clamped entry |
| DurationPicker.Picker.SetMinutes | src/components/DurationPicker.tsx:47-49 | the minutes field takes the clamped entry |
| DurationPicker.Picker.SetShowCustom | src/components/DurationPicker.tsx:91 | opens the custom form (Custom..., line 91) or closes it (Cancel, line 56) |
| DurationPicker.Picker.HandleCustomSubmit | src/components/DurationPicker.tsx:14-20 | a positive total is selected, exactly that value, and the form closes; a zero total does nothing; the picker is left unchanged exactly when its Start button is disabled |
| DurationPicker.Picker.SelectPreset | src/components/DurationPicker.tsx:79-82 | selects the preset's seconds, none for "∞" |
| DurationPicker.StartDisabledIffNothingToSubmit | src/components/DurationPicker.tsx:63 | a picker's Start is disabled exactly when its total, the value submitting (lines 15-16) would select, is 0 |
| TimerView.FormatTimeIsStandardStyle | src/components/Timer.tsx:10-19 | the web countdown is the macOS standard style: `h:mm:ss` with hours, else `m:ss` |
| TimerView.ModeLabelsDistinct | src/components/Timer.tsx:26-32 | each assertion type has its own label |
| TimerView.Render | src/components/Timer.tsx:34-90 | indefinite view exactly without a count. The caption exactly with a mode. "Ends at" exactly when the count is positive. Progress exactly with a non-zero total |
| TimerView.RenderOfStatus | src/components/Timer.tsx:37-87 | on a back-end status an indefinite session shows the indefinite view. A fixed one counts down and shows "Ends at" exactly while at least one whole second is left |
| PowerProfileView.SleepTimeRoundTrip | src/components/PowerProfileButton.tsx:31-40 | every displayed sleep setting reads back as that setting, so distinct settings are displayed differently |
| PowerProfileView.MinutesReadBack | src/components/PowerProfileButton.tsx:39 | `<n>m` reads back as n |
| PowerProfileView.HoursReadBack | src/components/PowerProfileButton.tsx:34-38 | `Xh` and `Xh Ym` read back as the total in minutes |
| PowerProfileView.FormatHoursShape | src/components/PowerProfileButton.tsx:34-38 | from 60 minutes: whole hours, "h", and " <m>m" exactly for a positive remainder |
| PowerProfileView.Panel.constructor | src/components/PowerProfileButton.tsx:7-10 | closed, no profile, not loading, no error |
| PowerProfileView.Panel.BeginFetch | src/components/PowerProfileButton.tsx:12-16 | loading, error cleared, one request made |
| PowerProfileView.Panel.CompleteFetch | src/components/PowerProfileButton.tsx:16-22 | keeps the profile, or stores the error and keeps the old profile; loading ends |
| PowerProfileView.Panel.Open | src/components/PowerProfileButton.tsx:25-45 | opening a closed panel fetches once; opening an open one fetches nothing |
| PowerProfileView.Panel.Close | src/components/PowerProfileButton.tsx:56-62 | closes and keeps everything else |

## Left out

- Spawning `caffeinate`, `pkill` and `pgrep`, `Process.terminate` and `isRunning`, `NSWorkspace` queries and KVO observation are outside the model. Launch outcomes, running applications, `pgrep` results and exit events are inputs instead.
- `handleOff`, `handleStatus`, `findProcessByName`, `printUsage` and the SIGINT handlers of the CLI only run processes and print, and are not modelled. `pgrep`'s answer enters `Cli.WatchPid` as a parameter.
- The IOKit and `pmset` calls are outside the model; their return codes and outputs are parameters. The `Mutex` and `AtomicU32` locking is modelled as plain fields under sequential calls.
- Timers, Combine and NotificationCenter subscriptions, `Task { @MainActor }` and the React effects are outside the model. The callbacks are methods. The polling interval and the visibility listener of `useCaffeinate.ts` (lines 133-154) are not modelled beyond `fetchStatus` itself.
- UserDefaults and JSON coding are not modelled. What is stored is a field, and a decode failure is a `None` input. `SMAppService` launch-at-login is not modelled.
- Layout, styling, animation, icons, notifications, keyboard shortcuts, the tray and window setup, and the CLI installer are outside the model.
- The `get_autostart_enabled` and `set_autostart_enabled` commands (src-tauri/src/commands.rs:98-113) only forward to the autostart plugin, and are not modelled.
- `quit_app`'s `app.exit(0)` is not modelled.
- The tray is assumed present: `tray_by_id("main")` returning none is not modelled. `deactivate` ignores the tray's error as the source does.
- The floating-point progress width (src/components/Timer.tsx:52-54) is not modelled; only whether the bar shows is. `formatEndTime`'s locale-dependent time string is not modelled.
- JavaScript numbers are modelled as unbounded integers. `parseInt`'s hexadecimal prefix and fractional inputs are not modelled.
- Cli.RegexDigit: ICU's `\d` is modelled by the decimal digits of Unicode 15.0; an ICU built on a later Unicode version matches the digit blocks added since, which the model does not.
- `Text.Lower` lower-cases ASCII letters only. Swift's Unicode case mapping and string ordering with Unicode normalisation are not modelled.
- Cli.ParseDuration: does not model the overflow trap of `hours * 3600`, `minutes * 60` or `hours * 3600 + minutes * 60` on 64-bit `Int`. The product is returned unbounded.
- TimerPresets.ToDuration: requires that `minutes * 60` fits in 64 bits, where Swift would trap.
- CaffeinateModes.FlagsListEachModeOnce: a Swift `Set`'s iteration order is unspecified. The model fixes declaration order and proves only what every order shares: each selected flag exactly once.
- TimerPresets.DefaultsTable: the default presets draw fresh UUIDs. The model fixes five distinct placeholder identifiers.
- ProcessWatching.ProcessWatcher.RemoveFromWatchList: checks the `isBuiltIn` of the argument, as the source does, not of the stored entry with that identifier.
- ProcessWatching.IsDuplicate: compares the given bundle identifier before trimming, as the source does.
- SessionManager.CaffeinateManager.Activate: a launch failure is only printed by the source; the model follows the code and reports nothing.
- SessionManager.CaffeinateManager.HandleWatchedProcessTerminated: the name the notification carries is ignored, as in the code.
- SessionManager.CaffeinateManager.HandleTermination: does not reset the `process` reference, as in the code. `process.isRunning` is not modelled, so `Deactivate` always records a terminate for a held child.
- PresetEditor.Sheet.SetMinutes and MenuBar.Popover.StepMinutes: SwiftUI's `Stepper` is assumed to stop at its bounds.
- CaffeinateHook.Hook: `loading` during an `await` is modelled only through the `Begin…` methods. Interleavings of concurrent commands are not modelled.

## Findings

| source | as written | input that shows it | evidently intended | confidence | as-written member | corrected member |
|---|---|---|---|---|---|---|
| Caffeinator/ViewModels/CaffeinateManager.swift:152-166 | the termination handler installed on every child clears the session without checking which child exited | start a session, start another (which terminates the first child), then deliver the first child's exit: the new session is marked inactive and an expiry is posted while its child keeps running | only the exit of the child the manager currently holds ends the session | not executed | SessionManager.StaleTerminationEndsNewSession | SessionManager.StaleTerminationIgnored |
