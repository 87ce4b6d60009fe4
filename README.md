# sway-monitor-manager, modelled in Dafny

sway-monitor-manager keeps per-monitor layouts for the sway compositor. It has two programs.

- **The daemon** (`sway_monitor_daemon.py`) holds named *profiles*. Each profile maps an
  identifier to a configuration: `"{model}_{serial}"`, the bare `model`, or the connector `name`.
  When the set of connected outputs changes, it finds the best configuration for each output and
  runs `swaymsg output …` for it. It can also record the current layout into the active profile.
- **The manager** (`sway_monitor_manager.py`) is a GTK application. It keeps an in-memory profile
  table with a synthetic `"(Current)"` entry. Each output gets an editable row, and the rows are
  turned back into configurations and `swaymsg` commands.

This project models the profile logic of both programs.

Modules:

- `Outcomes`: `Option` and `Result`.
- `Text`: the parts of Python's `str.split`, `str.strip` and `str(int)` that the programs use.
- `Dicts`: Python's insertion-ordered dictionary, and a fold of dictionary writes with its
  last-writer-wins law.
- `Sway`: output records, JSON configuration values and the `swaymsg output` argument list.
- `Daemon`: `MonitorProfile` and the `MonitorDaemon` class.
- `Manager`: the `ProfileManager` class (`SwayMonitorManager`), the `ProfileWindow` class (the
  window's profile handling) and the configuration rows.

Outside input is passed in as parameters:

- The compositor's output query is a sequence of `OutputInfo` records.
- Whether a `swaymsg` call succeeds is an oracle `run: Command -> bool`.
- Profile files on disk are a sequence of (stem, `ProfileFile`) pairs for the daemon. The
  manager's constructor takes (stem, table) `LoadedFile` pairs, and its later writes go to a
  `disk` map.
- The marker file's text is an `Option<string>`.
- An exception the programs do not catch becomes a `Fault`. The operation returns it with any
  partial state, as the Python code leaves it when it raises.

A profile file that is not valid JSON is not skipped. `json.load` in `MonitorProfile.load`
(`sway_monitor_daemon.py:43`) is not inside a `try`. The error therefore leaves `load_profiles`
at that file, and the table keeps the profiles read before it (`CorruptFile`).

## Model

| member | source | states |
|---|---|---|
| Daemon.LoadProfile | sway_monitor_daemon.py:26-45 | Loading fails only for a corrupt file. A missing file gives an empty profile, and a parsed file gives a profile holding exactly the file's table. The profile carries the name it was asked for. |
| Daemon.MonitorDaemon.constructor | sway_monitor_daemon.py:48-54 | A new daemon has no profiles, active profile `default`, no known outputs and nothing written. |
| Daemon.MonitorDaemon.LoadProfiles | sway_monitor_daemon.py:56-70 | Files are read in listing order, each under its stem, a later stem overwriting an earlier one. A corrupt file stops loading with the profiles read so far and the active name unchanged. Otherwise `default` is added when missing, and the active name becomes the stripped marker text when a marker exists. |
| Daemon.LoadAll | sway_monitor_daemon.py:59-61 | Loading never drops a profile already held or moves it in the key order, and every listed stem ends up in the table. |
| Daemon.WithDefault | sway_monitor_daemon.py:63-65 | `default` is present afterwards, and every profile held before keeps its entry. |
| Daemon.LoadAllEntries | sway_monitor_daemon.py:59-61 | The loaded table is the old table updated by each file's profile in listing order. |
| Daemon.LoadedTable | sway_monitor_daemon.py:59-66 | After loading, `default` is present, every listed stem is present, and every profile is stored under its own name. |
| Daemon.MarkerMayNameMissingProfile | sway_monitor_daemon.py:64-70 | Loading guarantees only `default`. A marker naming neither `default` nor a listed or held profile leaves an active name the matcher fails on for every output. |
| Daemon.BestConfig | sway_monitor_daemon.py:88-107 | The matcher fails only for an unknown active name, with that name. A configuration it returns is an entry some profile stores under one of the output's three identifiers. |
| Daemon.FirstKey | sway_monitor_daemon.py:96-98 | The index of the first identifier that is a key of a profile: no earlier identifier is a key, and the index is that of a key unless none is. |
| Daemon.FirstProfile | sway_monitor_daemon.py:100-104 | The position, in iteration order, of the first profile holding any identifier: no earlier profile holds one. |
| Daemon.MonitorDaemon.FindBestConfig | sway_monitor_daemon.py:88-107 | The nested search returns exactly the matcher's result: the active profile first, then the others in iteration order, identifiers tried serial-first. |
| Daemon.ActiveProfileWins | sway_monitor_daemon.py:94-98 | When the active profile holds one of the identifiers, the result is the active profile's entry for the first of them, whatever other profiles hold. |
| Daemon.FallbackToFirstProfile | sway_monitor_daemon.py:100-104 | When the active profile holds none, the result is the entry of the first profile in iteration order that holds one, for the first identifier it holds. |
| Daemon.NoMatchIff | sway_monitor_daemon.py:88-107 | Both directions: the matcher gives no configuration exactly when no profile holds any of the three identifiers (empty model, serial or name included, looked up literally). |
| Daemon.UnknownActiveFails | sway_monitor_daemon.py:95 | Both directions: the matcher fails exactly when the active name is not a profile, and then with that name. |
| Sway.OutputCommand | sway_monitor_daemon.py:111-122 | A disabled configuration never fails. A failure is a missing key, a non-text value or a failed unpack. A command always starts `swaymsg output NAME`, and it has four words exactly when the configuration is disabled. |
| Sway.CommandShape | sway_monitor_daemon.py:111-122 | A configuration yields a command exactly when it can be unpacked. A disabled one gives `swaymsg output NAME disable`. An enabled one gives the 13-word `pos/res/scale/transform` command whose pieces, joined by `,` and `x`, give back the position and resolution texts. |
| Sway.UnpackRendered | sway_monitor_daemon.py:114-115 | A position or resolution text written from two integers unpacks into those two integers' texts. |
| Daemon.MonitorDaemon.ApplyMonitorConfig | sway_monitor_daemon.py:109-130 | A configuration that cannot be unpacked raises. Otherwise the command is the one above, and the attempt records the oracle's verdict on it. |
| Daemon.ApplyAll | sway_monitor_daemon.py:144-148 | The outputs a pass tries are a prefix of the configured outputs in list order, so at most one attempt per output even when the pass raises, and each command addresses the output it was made for. |
| Daemon.Step | sway_monitor_daemon.py:132-151 | The known-output set becomes the connected names exactly when the step ends without raising; otherwise it stays. An unchanged name set runs nothing and raises nothing. |
| Daemon.MonitorDaemon.UpdateMonitorConfigs | sway_monitor_daemon.py:132-151 | The new known-output set, the attempts and the fault are those of the reconciliation step. An unchanged name set makes no attempt. A matcher or unpack failure stops the pass before the set is updated. |
| Daemon.PassCoversConfigured | sway_monitor_daemon.py:144-148 | A pass that completes attempts exactly the outputs whose match is a non-empty configuration, once each, in list order. |
| Daemon.FailuresAreIndependent | sway_monitor_daemon.py:124-148 | A failed command does not stop later outputs. The same commands run and the same fault arises whatever the oracle says, and each attempt records the oracle's verdict. |
| Daemon.StepIdempotent | sway_monitor_daemon.py:132-151 | A second step right after a completed one, on the same outputs, makes no attempt and changes nothing. |
| Daemon.StepWithUnknownActive | sway_monitor_daemon.py:140-151 | When the active profile is missing and the topology changed, the step raises at the first output: nothing is applied and the old name set stays. |
| Daemon.SnapshotEntry | sway_monitor_daemon.py:169-176 | An output can be recorded exactly when it has `rect` and `current_mode`. The entry has the six keys, names the output's model, and is enabled exactly when the output is not disabled. |
| Daemon.SnapshotWrites | sway_monitor_daemon.py:167-181 | An output without a model writes nothing. An output writes only its model and `model_serial` keys, each with its recorded entry. |
| Daemon.TakeSnapshot | sway_monitor_daemon.py:164-181 | The snapshot is complete exactly when no output with a model lacks `rect` or `current_mode`. |
| Daemon.FirstUnsaveable | sway_monitor_daemon.py:159-176 | The first output whose snapshot raises: every earlier output can be recorded. |
| Daemon.SnapshotAdvance | sway_monitor_daemon.py:159-181 | One iteration of the snapshot loop adds the next output's writes to the table. |
| Daemon.SnapshotLoop | sway_monitor_daemon.py:159-181 | The loop computes the snapshot: the profile's table updated by each output's writes, stopping at the first output that raises. |
| Daemon.MonitorDaemon.SaveCurrentSetup | sway_monitor_daemon.py:153-185 | A given name becomes active. A missing profile is created empty. The profile's table becomes the snapshot even when an output raises part-way. Only a complete snapshot is written out and names the marker. |
| Daemon.SnapshotLastWriterWins | sway_monitor_daemon.py:168-181 | Each key of a complete snapshot holds the entry of the last output that wrote it, under its model or `model_serial`. Keys no output wrote keep their old value. |
| Daemon.SnapshotCoversOutputs | sway_monitor_daemon.py:167-181 | An output without a model writes nothing. In a complete snapshot, every output with a model is stored under its model, and under `model_serial` when it has a serial. No old key is lost. |
| Daemon.SnapshotFaultKeeps | sway_monitor_daemon.py:164-181 | A snapshot that raises at an output keeps what the earlier outputs wrote: each key holds the entry of the last earlier output that wrote it, a key none of them wrote keeps its old value, and no old key is lost. |
| Daemon.SnapshotSurvivesReload | sway_monitor_daemon.py:31-45 | The file a complete snapshot writes (`json.dump(self.configs)`) loads back as a profile holding, under an output's `model_serial` key that it wrote last, the entry recorded for that output. |
| Daemon.SnapshotReapplies | sway_monitor_daemon.py:169-176 | Applying a recorded entry reproduces the output: its own position, mode, scale and transform, or `disable` when it was disabled. |
| Daemon.SnapshotThenMatch | sway_monitor_daemon.py:178-181 | After a complete snapshot into the active profile, an output with a serial that last wrote its `model_serial` key is matched to exactly the entry recorded for it. |
| Manager.CurrentEntry | sway_monitor_manager.py:189-199 | The `"(Current)"` entry of an output has the six keys, names its model, and is enabled exactly when the output is not disabled. |
| Manager.CurrentWrites | sway_monitor_manager.py:189-199 | An output is written under its model alone, and only when it has one. |
| Manager.CurrentTable | sway_monitor_manager.py:184-201 | The loop builds the `"(Current)"` table: each output's entry under its model, in output order. |
| Manager.CurrentTableLastWins | sway_monitor_manager.py:188-199 | Both directions: a key is in the table exactly when it is the non-empty model of some output. Its entry is that of the last such output. |
| Manager.CurrentEntryApplies | sway_monitor_manager.py:191-199 | Every `"(Current)"` entry applies, with the defaults filled in: position 0,0, mode 1920x1080, scale 1.0, transform normal, enabled unless disabled. |
| Manager.LoadTable | sway_monitor_manager.py:174-182 | The loaded table holds, for every listed stem, the table of the last file with that stem. Keys already held keep their place at the front of the insertion order. |
| Manager.LoadFiles | sway_monitor_manager.py:174-182 | The loop of `load_profiles` computes the loaded table. |
| Manager.ProfileManager.constructor | sway_monitor_manager.py:152-161 | A new manager holds every profile file under its stem, and then the `"(Current)"` table of the connected outputs. The table and the files agree on every name but `"(Current)"`. |
| Manager.ProfileManager.SaveCurrentConfig | sway_monitor_manager.py:184-201 | The `"(Current)"` entry is replaced by the table of the current outputs; nothing else changes. |
| Manager.ProfileManager.SaveProfile | sway_monitor_manager.py:207-212 | The table always takes the new entry. A file is written only for names other than `"(Current)"`. |
| Manager.ProfileManager.UpdateProfile | sway_monitor_manager.py:214-218 | Both directions: the result is true exactly when the name was already in the table, and only then are the entry and its file replaced. |
| Manager.ProfileManager.RemoveProfile | sway_monitor_manager.py:220-228 | `"(Current)"` or a name without a file gives false with no change. Otherwise the file is deleted and the entry removed (true). When the entry is missing from the table, the file is still gone and the lookup raises. |
| Manager.RemovedLeavesList | sway_monitor_manager.py:220-228 | After a removal the name is no longer listed, and the other profiles keep their relative order. |
| Manager.CurrentFirst | sway_monitor_manager.py:305-309 | The list shown holds exactly the profile names, and starts with `"(Current)"` exactly when that is a name. |
| Manager.IndexOf | sway_monitor_manager.py:314-315 | `list.index`: the first position holding the name. |
| Manager.CurrentFirstPermutes | sway_monitor_manager.py:305-312 | The list shown is a permutation of the profile keys. `"(Current)"` is first exactly when it is a key. The other keys keep their relative order. |
| Manager.ProfileList | sway_monitor_manager.py:303-318 | The remove-and-insert computes the list shown, and the first entry is selected. |
| Manager.ProfileWindow.constructor | sway_monitor_manager.py:239-257 | A new window already shows the reordered profile keys, with the first selected, because `__init__` refreshes the list. |
| Manager.ProfileWindow.RefreshProfileList | sway_monitor_manager.py:303-318 | The combo shows the reordered profile keys with the first selected. |
| Manager.NewRow | sway_monitor_manager.py:412-478 | A row that is built belongs to its output (name and model), and its transform is one of the eight the combo offers. |
| Manager.RowDefaults | sway_monitor_manager.py:412-478 | With no saved entry for its model, a row takes position 0,0, the current mode or 1920x1080, scale 1.0, enabled, transform normal. |
| Manager.RowFails | sway_monitor_manager.py:419-478 | Both directions: building a row raises exactly when the saved position or resolution is not text, or the saved transform is not one of the eight names. |
| Manager.GetConfig | sway_monitor_manager.py:484-493 | `get_config` writes the six keys, names the row's model, and is enabled exactly when the row's switch is on. |
| Manager.RowRoundTrip | sway_monitor_manager.py:412-493 | A saved entry in the shape `get_config` writes is read back into a row whose configuration is that entry. |
| Manager.ConfigRoundTrip | sway_monitor_manager.py:412-493 | `get_config` writes the six keys, and a row is rebuilt from its own configuration unchanged. |
| Manager.ApplyConfig | sway_monitor_manager.py:495-517 | A row's command is the daemon's command for the row's configuration. |
| Manager.RowCommand | sway_monitor_manager.py:495-512 | A disabled row disables its output. An enabled row needs exactly one `x` in its resolution and one `,` in its position, then passes their pieces, the scale text and the transform. |
| Manager.CollectRowConfigs | sway_monitor_manager.py:329-332 | The loop builds the model-keyed table from the rows in order. |
| Manager.RowConfigsLastWins | sway_monitor_manager.py:329-332 | A model's entry is the configuration of the last row with that model, and only rows' models are keys. |
| Manager.ProfileWindow.UpdateProfile | sway_monitor_manager.py:325-334 | For a listed profile other than `"(Current)"`, its entry and file become the rows' table and the list is refreshed. Otherwise nothing changes. |
| Manager.ProfileWindow.SaveProfileResponse | sway_monitor_manager.py:356-373 | On OK with a non-empty name, the rows' table is saved under that name and the list is refreshed; the new name is listed. The selection stays at index 0, where the refresh put it (`"(Current)"` when present): the loop compares a `Gtk.TreeModelRow` with a `str`, which is never equal. Otherwise nothing changes. |
| Dicts.Dict.Put | sway_monitor_manager.py:212 | Assigning a key keeps the dictionary's insertion order: a new key goes last, an existing key keeps its place. |
| Dicts.Dict.Remove | sway_monitor_manager.py:226 | `del` drops the key from the entries and from the order. |
| Dicts.LastWriteWins | sway_monitor_daemon.py:178-181 | A sequence of dictionary writes leaves each key with the value of its last writer, and untouched keys as they were. |
| Text.Split | sway_monitor_daemon.py:114-115 | `str.split`: one more piece than separators, none containing the separator. |
| Text.JoinSplit | sway_monitor_daemon.py:114-115 | Joining the pieces of a split gives back the text. |
| Text.Strip | sway_monitor_daemon.py:70 | `str.strip`: the result is the text minus whitespace-only ends, and it neither starts nor ends with whitespace. |

## Left out

- Calling `swaymsg` (`subprocess.run`) and decoding its JSON output are not modelled. The outputs are an input sequence and command success is the oracle `run`.
- Reading and writing files (profile `.json` files, the `active_profile` marker, `~/.config/sway-monitor-config.json`) is not modelled. The daemon's writes are the `written` map and `marker`; the manager's files are the `disk` map. Write failures are not modelled.
- `MonitorProfile.save`, `save_active_profile`, `get_current_monitors`, `save_configs` and `load_saved_configs`: file or process I/O only.
- JSON values other than strings, booleans and numbers (null, lists, nested objects inside an entry) are not modelled.
- A profile entry that is not a JSON object is not modelled: a table maps each identifier to an object. A truthy non-object entry such as `"DELL": "x"` passes `if config:` and makes `config.get` raise `AttributeError` (`sway_monitor_daemon.py:113`); a falsy one (`0`, `""`, `[]`, `false`, `null`) counts as no configuration. The model can state neither.
- A `rect` or `current_mode` object with only some of its fields is not modelled: either the whole object is present or the defaults apply.
- The udev subscription, the observer thread, the settle delay and the daemon's `run` loop are left out, because they are concurrency and timing. What they do with a `Fault` is therefore not shown: a fault raised by `update_monitor_configs` inside `handle_udev_event` (`sway_monitor_daemon.py:210`) ends the observer thread, so later hot-plug events go unhandled, and one raised by the first call in `run` (line 197) ends the process, since `run` catches only `KeyboardInterrupt`. With `Daemon.MarkerMayNameMissingProfile`, a marker naming a profile that has no file therefore stops the daemon at start-up whenever an output is connected.
- GTK and cairo code (drawing, drag gestures, dialogs, `on_profile_changed`, `on_config_changed`, `do_activate`, `on_transform_changed`) is left out. The window is reduced to the list it shows and the index selected.
- The window's `remove_profile` button handler is not a separate member. It is `Manager.ProfileManager.RemoveProfile` followed by `RefreshProfileList` when the result is true.
- Manager.ProfileManager.constructor: profile files are given already parsed. A file that is not valid JSON makes `json.load` raise out of the constructor, and this is not modelled. `load_saved_configs` fills `saved_configs`, which no modelled operation reads.
- `apply_configuration` only calls `apply_config` for each row and is not modelled separately.
- Daemon.ProfileFile.Absent: loading meets a missing file when the glob lists a file named `.json` (its stem is `.json`, and `load` then looks for `.json.json`), or when a listed file is deleted before `load` tests it. The model gives an empty profile under the stem, as `load` does.
- Manager.GetConfig: a scale is an opaque text. `float()` on a text that is not a number would raise in `get_config`, and this is not modelled; the same gap reaches `Manager.ApplyConfig`, `Manager.CollectRowConfigs`, `Manager.ProfileWindow.UpdateProfile` and `Manager.ProfileWindow.SaveProfileResponse`, which call it. `str(float(s))` is taken to be `s`.
- Manager.ApplyConfig: takes the row's scale text as it is, so the `ValueError` that `get_config` would raise for a scale that is not a number is not modelled.
- Manager.CurrentEntry: `float(monitor.get('scale', 1.0))` is the reported scale's text, or `"1.0"`; float formatting is not modelled.
- Daemon.LoadProfile: a profile file holding valid JSON that is not an object is not modelled. `null`, `[]`, `0`, `""` and `false` load as an empty profile through `configs or {}`; other non-object values would be stored as they are.
- Logging (`logging.info`, `logging.warning`, `logging.error`) and `print` are left out: they change no state.
- An output record without a `name` is not modelled. `OutputInfo.name` is always present, so the `KeyError` of `m['name']` and `monitor['name']` (`sway_monitor_daemon.py:135`, `111`) cannot arise.
- Numbers are unbounded in the model. Python integers are unbounded too, so nothing is lost there.
