# Bot state, reconciliation and configuration checks, modelled in Dafny

This project models three pieces of a small trading-bot workspace:

- **The state reconciler** (`system-health-monitor/reconcile_state.py`). It takes a
  snapshot of the running bot processes from the psutil table or from `ps aux` output,
  and a snapshot of the per-bot JSON state files. It then reports two kinds of mismatch:
  - a bot that runs but has no state file;
  - a file that says `running`/`active` while its bot has no process.
- **Auto-fix mode of the reconciler.** With auto-fix on, it writes a fresh `running`
  file for each bot of the first kind. It rewrites the file of each bot of the second
  kind to `stopped`.
- **The bot state writer** (`trading-dashboard/bot_state.py`). This class keeps one JSON
  state file per bot on top of an in-memory default state. It colours the status, counts
  trades and stamps every write with `last_update`.
- **The configuration validator** (`system-health-monitor/validate_config.py`). It:
  - parses the workspace's `.env`, `.env.local` and `.env.alerts` files;
  - merges them under the process environment;
  - sorts the five known keys into present, missing-required and missing-optional;
  - runs the Brave and Telegram connectivity probes outside quick mode;
  - derives the `healthy` flag.

Modules:

- `Wrappers`: `Option`.
- `Json`: JSON values; a JSON object is a `map`.
- `Text`: the `str` methods the scripts use.
- `Dicts`: insertion-ordered Python dictionaries as sequences of entries.
- `ReconcileState` and `ReconcileProperties`: the reconciler and its properties.
- `BotState`: the writer class, its specification functions and lemmas.
- `ValidateConfig`: the validator.

How the environment is represented:

- **Inputs as values.** The state directory, the env files, the process table and the
  process environment are values passed in.
- **Probes.** The two HTTP probes are function parameters.
- **Clock.** The clock reading is a parameter. It is read once per operation.

The model follows the code as written, including these behaviours that a reader might not expect:

- **Mismatch kinds.** The reconciler reports only the two mismatch kinds above. A file
  that says `paused` while the process runs is no mismatch.
- **Reconciler writes.** The reconciler's writes take no lock and are plain overwrites.
- **Duplicate bot ids.**
  - The psutil collector lets a later process with the same bot id overwrite the
    earlier one; the key keeps its first position.
  - The `ps` fallback keeps the first line.
- **Validator timestamp.** The validator's `timestamp` field is the text `{}`, which is
  `json.dumps({})`, not a time.
- **Shared default dictionary.** `record_trade` without a state file updates the
  writer's own default dictionary in place. Later reads fall back to that dictionary,
  so a trade survives the deletion of the file. `BotState.BotStateWriter.RecordTrade`
  states this, and `BotState.TradeWithoutFileSurvivesDeletion` shows it on a concrete
  run.

A state file that exists but does not parse is skipped by every reconciler operation:
- the snapshot ignores it;
- the stop rewrite leaves it alone;
- the creation of a fresh file overwrites it.

It is therefore represented as a missing entry of the state directory. The writer
tells the three cases apart (`Absent`, `Holds`, `Unparsable`), because there
`json.loads` raises.

## Model

| member | source | states |
|---|---|---|
| ReconcileState.ExtractBotId | system-health-monitor/reconcile_state.py:76-99 | the classifier yields only one of the seven known bot ids, or none |
| ReconcileProperties.MarketMakerTestsComeFirst | system-health-monitor/reconcile_state.py:80-83 | a command line containing `mm_optimized_15m` is `mm_15m`, otherwise one containing `mm_optimized_1h` is `mm_1h`, whatever else it contains |
| ReconcileProperties.BotV1BranchDecides | system-health-monitor/reconcile_state.py:84-95 | once the `bot_v1`/python-long-short branch is entered, btc before doge and long before short decide the id, and a line with neither coin or neither side gets no id (never `hummingbot`) |
| ReconcileProperties.HummingbotIsLastResort | system-health-monitor/reconcile_state.py:96-99 | the id is `hummingbot` exactly when no earlier branch was entered and the lower-cased line contains `hummingbot` |
| ReconcileProperties.UnmatchedLineHasNoId | system-health-monitor/reconcile_state.py:76-99 | a line gets no id exactly when it names neither market maker and either enters the `bot_v1` branch without both a coin and a side, or does not enter it and does not name `hummingbot` |
| ReconcileProperties.ClassifierIgnoresCaseElsewhere | system-health-monitor/reconcile_state.py:78-96 | two lines with the same lower-case form and the same case-sensitive marker tests get the same id |
| ReconcileState.PsutilCandidate | system-health-monitor/reconcile_state.py:39-59 | a table row contributes only if the process is still there, has a non-empty argv and its joined argv classifies; its facts are its pid, its start time and its joined argv cut to its first 200 characters |
| ReconcileState.PsCandidate | system-health-monitor/reconcile_state.py:64-72 | a `ps` line contributes exactly when it classifies, with no pid, no start time and the line cut to 200 characters |
| ReconcileState.GetProcessStates | system-health-monitor/reconcile_state.py:33-74 | the loop builds the process snapshot of its source, a dictionary without duplicate keys |
| ReconcileProperties.LastRowFor | system-health-monitor/reconcile_state.py:39-57 | the last psutil row that yields a given id, none later, or none at all |
| ReconcileProperties.FirstLineFor | system-health-monitor/reconcile_state.py:64-66 | the first `ps` line that yields a given id, none earlier, or none at all |
| ReconcileProperties.PsutilKeepsLast | system-health-monitor/reconcile_state.py:49-57 | in the psutil snapshot an id maps to the facts of the last row that yields it |
| ReconcileProperties.PsKeepsFirst | system-health-monitor/reconcile_state.py:65-72 | in the `ps` snapshot an id maps to the facts of the first line that yields it |
| ReconcileProperties.PsutilOrderIsFirstSeen | system-health-monitor/reconcile_state.py:39-57 | the psutil snapshot lists its ids in order of first appearance, even though later rows overwrite values |
| ReconcileProperties.PsOrderIsFirstSeen | system-health-monitor/reconcile_state.py:64-72 | the `ps` snapshot lists its ids in order of first appearance |
| ReconcileState.FileFactsOf | system-health-monitor/reconcile_state.py:112-114 | a file's status is its `status` field, or `unknown` when it has none; its last update is its `last_update` field, or null when it has none |
| ReconcileState.FileStatesOf | system-health-monitor/reconcile_state.py:101-122 | the file snapshot holds exactly the listed files that parse, each once, with the facts of its record |
| ReconcileProperties.ReadableNames | system-health-monitor/reconcile_state.py:108-120 | the names kept from a listing are exactly the listed names that parse |
| ReconcileProperties.FileSnapshotOrder | system-health-monitor/reconcile_state.py:108-120 | the file snapshot lists its bots in glob order, each at the place of its first listing |
| ReconcileState.GetFileStates | system-health-monitor/reconcile_state.py:101-122 | the loop builds the file snapshot |
| ReconcileState.NewStateRecord | system-health-monitor/reconcile_state.py:171-186 | the record written for a running bot without a file: exactly eight keys; status `running` and colour `green`, so it claims to run; reconciled; stamped now; pid and start time from the process (null for `ps`); name is the title-cased id with `_` as spaces |
| ReconcileState.StoppedRecord | system-health-monitor/reconcile_state.py:188-200 | the stop rewrite keeps every other field, sets stopped/red/reconciled/now, and the result no longer claims to run |
| ReconcileState.Reconcile | system-health-monitor/reconcile_state.py:124-169 | a pass reports the two snapshot sizes and the mismatches of the two snapshots; it is healthy exactly when there is no mismatch; with auto-fix it lists every mismatched id as fixed and applies the fixes in order, and without it leaves the directory untouched |
| ReconcileState.CompareSnapshots | system-health-monitor/reconcile_state.py:129-169 | the two comparison loops produce the mismatch list, the healthy flag, the fixed list and the fixed directory |
| ReconcileState.AddMismatch | system-health-monitor/reconcile_state.py:141-151 | recording one mismatch appends it, clears `healthy` and, with auto-fix, applies its fix and lists its id |
| ReconcileProperties.NoStateFileShape | system-health-monitor/reconcile_state.py:139-147 | every process-side mismatch names a process id that has no state file and carries that process's own snapshot entry |
| ReconcileProperties.ProcessMissingShape | system-health-monitor/reconcile_state.py:154-163 | every file-side mismatch names a file whose bot has no process and whose status is `running` or `active`, and carries that file's own snapshot entry |
| ReconcileProperties.MismatchEvidence | system-health-monitor/reconcile_state.py:139-163 | in snapshots with one entry per id, a mismatch's `process` or `file_state` is exactly what the snapshot holds for its bot |
| ReconcileProperties.ProcessSideFirst | system-health-monitor/reconcile_state.py:138-167 | all process-side mismatches come before all file-side ones |
| ReconcileProperties.NoStateFileOrder | system-health-monitor/reconcile_state.py:139-146 | process-side mismatches follow the order of the process snapshot |
| ReconcileProperties.ProcessMissingOrder | system-health-monitor/reconcile_state.py:154-162 | file-side mismatches follow the order of the file snapshot |
| ReconcileProperties.NoStateFileCount | system-health-monitor/reconcile_state.py:139-147 | an id has one process-side mismatch exactly when it runs without a file, otherwise none |
| ReconcileProperties.ProcessMissingCount | system-health-monitor/reconcile_state.py:154-163 | an id has one file-side mismatch exactly when its file claims to run and no process has that id, otherwise none |
| ReconcileProperties.MismatchCount | system-health-monitor/reconcile_state.py:138-167 | per id the report holds one mismatch for a process without a file, one for a running/active file without a process, and none otherwise |
| ReconcileProperties.MismatchIdsDistinct | system-health-monitor/reconcile_state.py:138-167 | no bot id is reported twice |
| ReconcileProperties.ApplyFixesUntouched | system-health-monitor/reconcile_state.py:149-167 | auto-fix leaves the file of every id it did not report unchanged (present or absent) |
| ReconcileProperties.ApplyFixesCreates | system-health-monitor/reconcile_state.py:149-151 | after auto-fix, each bot reported as running without a file has the fresh `running` record |
| ReconcileProperties.AutoFixCreatesFromProcess | system-health-monitor/reconcile_state.py:139-151 | with auto-fix, every running bot without a state file gets the fresh record built from its own process facts (pid and start time from the process snapshot) |
| ReconcileProperties.ApplyFixesStops | system-health-monitor/reconcile_state.py:165-167 | after auto-fix, each bot whose file claimed to run has its stop rewrite when the file is still readable, and no file otherwise |
| ReconcileProperties.NoStateFileEmpty | system-health-monitor/reconcile_state.py:139-140 | no process-side mismatch arises when every running bot has a file |
| ReconcileProperties.ProcessMissingEmpty | system-health-monitor/reconcile_state.py:154-156 | no file-side mismatch arises when every file without a process does not claim to run |
| ReconcileProperties.AutoFixReachesFixedPoint | system-health-monitor/reconcile_state.py:124-200 | against the same processes, a second pass after an auto-fix pass finds no mismatch |
| ReconcileProperties.ScenarioRunningWithoutFile | system-health-monitor/reconcile_state.py:139-151 | a running `btc_long_v1` without a file is reported and auto-fix writes its running record with its pid |
| ReconcileProperties.ScenarioFileSaysRunning | system-health-monitor/reconcile_state.py:154-167 | a file saying `running` without a process is reported, rewritten as stopped, and the next pass is clean |
| ReconcileProperties.ScenarioPausedButRunning | system-health-monitor/reconcile_state.py:139-163 | a `paused` file for a running bot is no mismatch and auto-fix changes nothing |
| ReconcileProperties.ScenarioUnparsableFile | system-health-monitor/reconcile_state.py:119-120 | a listed file that does not parse is skipped and causes no mismatch |
| BotState.StatusColor | trading-dashboard/bot_state.py:94-104 | green exactly for running/active, red exactly for stopped/error, gray exactly for offline, yellow for every other hashable status; a list or object status has no colour |
| BotState.DefaultState | trading-dashboard/bot_state.py:47-61 | the default state has exactly the thirteen keys, status initializing/yellow, zero counters, null last_update, position and last_error, uptime 0, version `1.0.0`, and the given id and name |
| BotState.DisplayName | trading-dashboard/bot_state.py:40 | the name is the given one unless it is missing or empty, then the id |
| BotState.UpdateResult | trading-dashboard/bot_state.py:75-108 | `update` raises exactly when the file does not parse or the merged status cannot be looked up; otherwise its keys are the merged keys plus `status_color` and `last_update` |
| BotState.UpdatePrecedence | trading-dashboard/bot_state.py:85-107 | each field comes from the updates, else the stored file, else the defaults; `status_color` is the colour of the merged status and `last_update` the time of the write |
| BotState.RunningUpdates | trading-dashboard/bot_state.py:110-115 | the updates hold `status` and every key of the non-empty extra fields; an extra `status` wins over `running`, and every extra field is copied unchanged |
| BotState.SetRunningColour | trading-dashboard/bot_state.py:110-115 | `set_running` gives running/green unless an extra field overrides the status |
| BotState.SetErrorColour | trading-dashboard/bot_state.py:117-122 | `set_error` gives error/red with the message as `last_error` |
| BotState.SetPausedColour | trading-dashboard/bot_state.py:124-126 | `set_paused` gives paused/yellow |
| BotState.SetStoppedColour | trading-dashboard/bot_state.py:128-130 | `set_stopped` gives stopped/red |
| BotState.CountOf | trading-dashboard/bot_state.py:136-139 | a missing counter counts as 0, a number as itself, a bool as 0 or 1, anything else makes `+` raise |
| BotState.TradeResult | trading-dashboard/bot_state.py:134-144 | a trade can be applied exactly when the four counters are numeric |
| BotState.TradeResultFields | trading-dashboard/bot_state.py:136-144 | a trade adds one to both trade counts and the pnl to both totals and records time, pnl and side; it keeps every other field, `status_color` included |
| BotState.TradeKeepsDefaults | trading-dashboard/bot_state.py:134-146 | a trade written through the default dictionary keeps its id, name, status and numeric counters |
| BotState.TradeOutcome | trading-dashboard/bot_state.py:132-147 | `record_trade` raises on a file that does not parse; otherwise it raises exactly when a counter of the stored record (or of the defaults, with no file) is not a number, and else yields that record with the trade applied and stamped now |
| BotState.PositionValue | trading-dashboard/bot_state.py:151-159 | no side gives a null position; a side gives exactly side, size, entry price (or null) and the opening time |
| BotState.BotStateWriter.constructor | trading-dashboard/bot_state.py:31-65 | a new writer keeps the id and display name; without a file it writes the default state, stamping the shared default dictionary itself |
| BotState.BotStateWriter.Write | trading-dashboard/bot_state.py:67-73 | `_write` stamps the record and the file then holds it |
| BotState.BotStateWriter.Update | trading-dashboard/bot_state.py:75-108 | `update` returns the update result; on success the file holds it, on failure nothing changes; the defaults are untouched |
| BotState.BotStateWriter.SetRunning | trading-dashboard/bot_state.py:110-115 | `set_running` is `update` with `status: running` overlaid by the non-empty extra fields |
| BotState.BotStateWriter.SetError | trading-dashboard/bot_state.py:117-122 | `set_error` is `update` with the error status and message |
| BotState.BotStateWriter.SetPaused | trading-dashboard/bot_state.py:124-126 | `set_paused` is `update` with the paused status |
| BotState.BotStateWriter.SetStopped | trading-dashboard/bot_state.py:128-130 | `set_stopped` is `update` with the stopped status |
| BotState.BotStateWriter.RecordTrade | trading-dashboard/bot_state.py:132-147 | `record_trade` returns the trade outcome; without a file it succeeds and the default dictionary becomes the written record, otherwise the defaults are untouched |
| BotState.BotStateWriter.UpdatePosition | trading-dashboard/bot_state.py:149-160 | `update_position` is `update` with the position value |
| BotState.BotStateWriter.GetState | trading-dashboard/bot_state.py:162-166 | `get_state` returns the stored record, or the defaults without a file, and raises on a file that does not parse |
| BotState.BotStateWriter.DeleteStateFile | trading-dashboard/bot_state.py:217-218 | removing the file from outside leaves the writer's defaults as they are |
| BotState.TradeWithoutFileSurvivesDeletion | trading-dashboard/bot_state.py:132-166 | after a trade of 5 recorded without a file and a deletion, `get_state` still reports one trade, pnl 5 and the trade's timestamp |
| Text.TrimStartMeaning | system-health-monitor/validate_config.py:63 | `lstrip` keeps a suffix of the text and drops only characters of the set |
| Text.TrimEndMeaning | system-health-monitor/validate_config.py:63 | `rstrip` keeps a prefix of the text and drops only characters of the set |
| Text.StripMeaning | system-health-monitor/validate_config.py:63-66 | `strip` keeps the middle slice after the leading run of set characters, and drops only set characters before and after it |
| ValidateConfig.ParseEnvLineMeaning | system-health-monitor/validate_config.py:63-66 | a line defines a variable exactly when its stripped form is non-empty, does not start with `#` and contains `=`; the key is the text before the first `=`, the value the rest without surrounding quotes |
| ValidateConfig.ParseFormattedLine | system-health-monitor/validate_config.py:63-66 | a `KEY=value` line parses back to its key and value, for keys and values the stripping leaves alone |
| ValidateConfig.LastAssignmentTo | system-health-monitor/validate_config.py:62-66 | the last line that assigns a key, none later, or none at all |
| ValidateConfig.LastAssignmentWins | system-health-monitor/validate_config.py:62-66 | a key is defined exactly when some line assigns it, with the value of the last such line |
| ValidateConfig.EnvLastLineWins | system-health-monitor/validate_config.py:57-67 | for an env file, a key is defined exactly when some line defines it, with the value of the last such line |
| ValidateConfig.CheckEnvFile | system-health-monitor/validate_config.py:57-67 | the loop yields the variables the file defines; a missing file defines none |
| ValidateConfig.SourcePrecedence | system-health-monitor/validate_config.py:69-80 | a key comes from the process environment, else `.env.alerts`, else `.env.local`, else `.env`, and is absent only when none defines it |
| ValidateConfig.CheckAllSources | system-health-monitor/validate_config.py:69-80 | the loop merges the three files in order and puts the process environment on top |
| ValidateConfig.TallyStepAdds | system-health-monitor/validate_config.py:133-152 | one table entry adds its key to exactly one list, records a probe only for a set key probed by `brave` or `telegram` outside quick mode, and clears `healthy` exactly for a missing required key or a failed Brave probe |
| ValidateConfig.TallyPresent | system-health-monitor/validate_config.py:133-135 | a key is listed as present exactly when it is a table key with a non-empty value |
| ValidateConfig.TallyMissingRequired | system-health-monitor/validate_config.py:147-152 | an entry is listed as missing-required exactly when its key is required and unset |
| ValidateConfig.TallyMissingOptional | system-health-monitor/validate_config.py:147-149 | an entry is listed as missing-optional exactly when its key is optional and unset |
| ValidateConfig.TallyApiTests | system-health-monitor/validate_config.py:137-146 | a probe answer is recorded for a key exactly when the key is set, its method is `brave` or `telegram` and quick mode is off; each recorded answer is that probe's answer for the key's value |
| ValidateConfig.TallyHealthy | system-health-monitor/validate_config.py:133-152 | the result is healthy exactly when every required key is set and every Brave probe run succeeded |
| ValidateConfig.QuickModeProbesNothing | system-health-monitor/validate_config.py:137-138 | quick mode runs no probe |
| ValidateConfig.Validate | system-health-monitor/validate_config.py:120-154 | the loop over the table yields the validation of the merged configuration |
| ValidateConfig.BraveEntryIsSpecial | system-health-monitor/validate_config.py:20-45 | in the table only the Brave key is required and probed by `brave`, and only the Brave and Telegram keys have probes |
| ValidateConfig.ValidationHealth | system-health-monitor/validate_config.py:120-154 | a validation checks five keys and is healthy exactly when the Brave key is set and, outside quick mode, its probe succeeds |
| ValidateConfig.ValidationProbes | system-health-monitor/validate_config.py:137-146 | only the Brave and Telegram keys are probed, and quick mode records no probe |
| ValidateConfig.EachKeyInOneList | system-health-monitor/validate_config.py:133-152 | every known key is present when set, otherwise in the missing list its optional flag names |

## Left out

- **File system.** The state files and env files are read and written as values passed
  in and returned:
  - `STATE_DIR.mkdir` is not modelled;
  - the temporary file with rename in `_write` is not modelled;
  - I/O errors on writing are not modelled;
  - the text form of the JSON (`indent=2`, key order) is not modelled.
- **JSON records.** JSON objects are maps, so a record's key order is not modelled.
- **Non-object state files.** A state file whose JSON is not an object (a list, a number)
  is not modelled.
- **Process listing.**
  - The psutil iteration and the `ps aux` subprocess are inputs: a table of rows (a
    vanished or inaccessible process is one row kind) or the output lines.
  - Conversion of the creation time to ISO text is not modelled; the row holds the text.
- **Clock.** One clock reading per operation; the source reads the clock again at every
  write of a pass.
- **Numbers.** PnL, sizes and prices are integers; floating point is not modelled.
- **Text.** Case mapping (`lower`, `title`) covers ASCII letters only.
- **Env files.** An env file is given as its lines, without line terminators.
- **Connectivity probes.** `test_brave_api` and `test_telegram_api` are function
  parameters; their HTTP calls and messages are not modelled.
- **Output and entry points.** None of these is modelled:
  - `print_report` and `log_report`;
  - the `main` functions and their command-line options;
  - the reconciler's daemon loop;
  - in the demo block of `bot_state.py`, its printing, `set_running`, `update_position`
    and `get_all_bot_states` calls. Its writer creation and final `unlink`
    (bot_state.py:199, 218) are replayed by `BotState.BotStateWriter.DeleteStateFile`
    and `BotState.TradeWithoutFileSurvivesDeletion`.
- **Snapshot fields.**
  - `FileFacts` omits `file_mtime` (reconcile_state.py:115-117): modification times
    come from the file system, and `reconcile` never reads them.
  - `ProcFacts` omits `'running': True` (reconcile_state.py:52, 69): it is the same
    constant in every entry of the process snapshot.
- **Other `bot_state.py` functions.** `get_all_bot_states` and `clear_all_states` are
  directory walks outside the writer class and are not part of this model.
- **Validator object.** `ConfigValidator` keeps no state across calls; its fields
  `results`, `missing_required` and `missing_optional` are never used. Its methods are
  therefore module-level here, with `quick_mode` as a parameter.
- **`api_tests` dictionary.** It is a list of (key, result) pairs in table order. Each
  table key appears once, so no key repeats.
