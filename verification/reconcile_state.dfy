/**
 * The state reconciler of the system health monitor: it compares the live
 * bot processes with the bot state files and, with auto-fix on, rewrites the
 * files that disagree with reality.
 *
 * The process table, the directory listing and the clock are inputs. The
 * state directory is a map from bot id (the file's stem) to the JSON object
 * the file holds; a file that does not parse is absent from the map, which is
 * how every operation here treats it.
 */
module ReconcileState {
  import opened Wrappers
  import opened Json
  import opened Text
  import opened Dicts

  /** Command lines kept in a process fact are cut to this many characters. */
  const CmdlineLimit: nat := 200

  const KnownBotIds: set<string> :=
    {"mm_15m", "mm_1h", "btc_long_v1", "btc_short_v1", "doge_long_v1", "doge_short_v1", "hummingbot"}

  // ---------------------------------------------------------------------------
  // Bot identification
  // ---------------------------------------------------------------------------

  /**
   * The third test of the classifier: `bot_v1` in the original text, or
   * `python` together with `long` or `short` in the lower-cased text.
   */
  predicate EntersBotV1Branch(cmdline: string) {
    var lower := Lower(cmdline);
    Contains(cmdline, "bot_v1") || (Contains(lower, "python") && (Contains(lower, "long") || Contains(lower, "short")))
  }

  /**
   * The bot id a command line belongs to: an ordered first-match test. The
   * first two tests and `bot_v1` look at the text as given, the rest at its
   * lower-cased form. Inside the `bot_v1` branch a missing coin/side pair gives
   * no id, and the `hummingbot` test is not reached.
   */
  function ExtractBotId(cmdline: string): (id: Option<string>)
    ensures id.Some? ==> id.value in KnownBotIds
  {
    var lower := Lower(cmdline);
    if Contains(cmdline, "mm_optimized_15m") then Some("mm_15m")
    else if Contains(cmdline, "mm_optimized_1h") then Some("mm_1h")
    else if EntersBotV1Branch(cmdline) then
      if Contains(lower, "btc") then
        if Contains(lower, "long") then Some("btc_long_v1")
        else if Contains(lower, "short") then Some("btc_short_v1")
        else None
      else if Contains(lower, "doge") then
        if Contains(lower, "long") then Some("doge_long_v1")
        else if Contains(lower, "short") then Some("doge_short_v1")
        else None
      else None
    else if Contains(lower, "hummingbot") then Some("hummingbot")
    else None
  }

  // ---------------------------------------------------------------------------
  // Process snapshot
  // ---------------------------------------------------------------------------

  /**
   * What is recorded for a live bot process. On the `ps` fallback path the
   * pid and the start time are unknown.
   */
  datatype ProcFacts = ProcFacts(pid: Option<int>, startedAt: Option<string>, cmdline: string)

  /**
   * One row of the psutil process table: a process that vanished or could not
   * be read, or its pid, argument vector and start time (already rendered as an
   * ISO-8601 text).
   */
  datatype ProcEntry = Vanished | Proc(pid: int, argv: seq<string>, createTime: string)

  /** Where the process list comes from: psutil, or `ps aux` output lines when psutil is not installed. */
  datatype ProcessSource = Psutil(table: seq<ProcEntry>) | PsAux(lines: seq<string>)

  /** The (id, facts) pair the psutil loop stores for one table row, if any. */
  function PsutilCandidate(e: ProcEntry): (c: Option<(string, ProcFacts)>)
    ensures c.Some? ==> e.Proc? && e.argv != [] && ExtractBotId(JoinSpaces(e.argv)) == Some(c.value.0)
    ensures c.Some? ==> c.value.1.pid == Some(e.pid) && c.value.1.startedAt == Some(e.createTime)
    ensures c.Some? ==> c.value.1.cmdline == Truncate(JoinSpaces(e.argv), CmdlineLimit)
    ensures c.Some? ==> |c.value.1.cmdline| <= CmdlineLimit
    ensures c.None? ==> e.Vanished? || e.argv == [] || ExtractBotId(JoinSpaces(e.argv)).None?
  {
    if e.Vanished? || e.argv == [] then None
    else
      var cmd := JoinSpaces(e.argv);
      match ExtractBotId(cmd)
      case None => None
      case Some(id) => Some((id, ProcFacts(Some(e.pid), Some(e.createTime), Truncate(cmd, CmdlineLimit))))
  }

  /** The (id, facts) pair the `ps` fallback stores for one output line, if any. */
  function PsCandidate(line: string): (c: Option<(string, ProcFacts)>)
    ensures c.Some? <==> ExtractBotId(line).Some?
    ensures c.Some? ==> c.value.0 == ExtractBotId(line).value
    ensures c.Some? ==> c.value.1 == ProcFacts(None, None, Truncate(line, CmdlineLimit))
  {
    match ExtractBotId(line)
    case None => None
    case Some(id) => Some((id, ProcFacts(None, None, Truncate(line, CmdlineLimit))))
  }

  predicate IsCandidateFor(c: Option<(string, ProcFacts)>, k: string) {
    c.Some? && c.value.0 == k
  }

  /**
   * The dictionary the psutil loop builds: a later process with the same id
   * overwrites the facts of an earlier one, at the earlier one's position.
   */
  function PsutilStates(table: seq<ProcEntry>): (d: Dict<ProcFacts>)
    ensures DistinctKeys(d)
  {
    if table == [] then []
    else
      var prev := PsutilStates(table[..|table| - 1]);
      match PsutilCandidate(table[|table| - 1])
      case None => prev
      case Some((id, facts)) => Put(prev, id, facts)
  }

  /** The dictionary the `ps` fallback builds: the first line with a given id is kept. */
  function PsStates(lines: seq<string>): (d: Dict<ProcFacts>)
    ensures DistinctKeys(d)
  {
    if lines == [] then []
    else
      var prev := PsStates(lines[..|lines| - 1]);
      match PsCandidate(lines[|lines| - 1])
      case None => prev
      case Some((id, facts)) => if id in Keys(prev) then prev else Put(prev, id, facts)
  }

  function ProcessStatesOf(source: ProcessSource): (d: Dict<ProcFacts>)
    ensures DistinctKeys(d)
  {
    match source
    case Psutil(table) => PsutilStates(table)
    case PsAux(lines) => PsStates(lines)
  }

  /** The process snapshot, built by one pass over the process table or the `ps` output. */
  method GetProcessStates(source: ProcessSource) returns (states: Dict<ProcFacts>)
    ensures states == ProcessStatesOf(source)
    ensures DistinctKeys(states)
  {
    states := [];
    match source
    case Psutil(table) =>
      for i := 0 to |table|
        invariant states == PsutilStates(table[..i])
      {
        assert table[..i + 1][..i] == table[..i];
        var candidate := PsutilCandidate(table[i]);
        if candidate.Some? {
          var (id, facts) := candidate.value;
          states := Put(states, id, facts);
        }
      }
      assert table[..|table|] == table;
    case PsAux(lines) =>
      for i := 0 to |lines|
        invariant states == PsStates(lines[..i])
      {
        assert lines[..i + 1][..i] == lines[..i];
        var candidate := PsCandidate(lines[i]);
        if candidate.Some? && candidate.value.0 !in Keys(states) {
          var (id, facts) := candidate.value;
          states := Put(states, id, facts);
        }
      }
      assert lines[..|lines|] == lines;
  }

  // ---------------------------------------------------------------------------
  // File snapshot
  // ---------------------------------------------------------------------------

  /** The state directory: bot id to the JSON object its file holds. */
  type StateDir = map<string, Record>

  /** What the reconciler reads from a state file; a file without `status` counts as `unknown`. */
  datatype FileFacts = FileFacts(status: Value, lastUpdate: Value)

  function FileFactsOf(rec: Record): (f: FileFacts)
    ensures "status" !in rec ==> f.status == Str("unknown")
    ensures "status" in rec ==> f.status == rec["status"]
    ensures "last_update" !in rec ==> f.lastUpdate == Null
    ensures "last_update" in rec ==> f.lastUpdate == rec["last_update"]
  {
    FileFacts(GetOr(rec, "status", Str("unknown")), GetOr(rec, "last_update", Null))
  }

  /**
   * The file snapshot built from the directory listing (the stems of the
   * `*.json` files, in listing order). A listed name without a parsed record
   * is skipped.
   */
  function FileStatesOf(listing: seq<string>, dir: StateDir): (d: Dict<FileFacts>)
    ensures DistinctKeys(d)
    ensures forall k :: k in Keys(d) <==> k in listing && k in dir
    ensures forall k :: k in Keys(d) ==> Get(d, k) == Some(FileFactsOf(dir[k]))
  {
    if listing == [] then []
    else
      var prev := FileStatesOf(listing[..|listing| - 1], dir);
      var name := listing[|listing| - 1];
      assert listing == listing[..|listing| - 1] + [name];
      if name in dir then Put(prev, name, FileFactsOf(dir[name])) else prev
  }

  method GetFileStates(listing: seq<string>, dir: StateDir) returns (states: Dict<FileFacts>)
    ensures states == FileStatesOf(listing, dir)
  {
    states := [];
    for i := 0 to |listing|
      invariant states == FileStatesOf(listing[..i], dir)
    {
      assert listing[..i + 1][..i] == listing[..i];
      var name := listing[i];
      if name in dir {
        states := Put(states, name, FileFactsOf(dir[name]));
      }
    }
    assert listing[..|listing|] == listing;
  }

  // ---------------------------------------------------------------------------
  // Mismatches and the report
  // ---------------------------------------------------------------------------

  datatype Mismatch =
    | RunningButNoStateFile(botId: string, process: ProcFacts)
    | StateSaysRunningButProcessMissing(botId: string, fileState: FileFacts)

  datatype Report = Report(
    timestamp: string,
    processesFound: nat,
    stateFilesFound: nat,
    mismatches: seq<Mismatch>,
    fixed: seq<string>,
    healthy: bool)

  /** The only statuses that count as the file saying the bot is alive. */
  predicate ClaimsRunning(status: Value) {
    status == Str("running") || status == Str("active")
  }

  function BotIds(ms: seq<Mismatch>): (ids: seq<string>)
    ensures |ids| == |ms|
    ensures forall i :: 0 <= i < |ms| ==> ids[i] == ms[i].botId
  {
    seq(|ms|, i requires 0 <= i < |ms| => ms[i].botId)
  }

  /** One mismatch per process id that has no state file, in process order. */
  function NoStateFileMismatches(procs: Dict<ProcFacts>, files: Dict<FileFacts>): seq<Mismatch> {
    if procs == [] then []
    else
      var e := procs[|procs| - 1];
      NoStateFileMismatches(procs[..|procs| - 1], files)
        + (if e.0 !in Keys(files) then [RunningButNoStateFile(e.0, e.1)] else [])
  }

  /**
   * One mismatch per state file whose bot has no process and whose status is
   * `running` or `active`, in file order.
   */
  function ProcessMissingMismatches(files: Dict<FileFacts>, procs: Dict<ProcFacts>): seq<Mismatch> {
    if files == [] then []
    else
      var e := files[|files| - 1];
      ProcessMissingMismatches(files[..|files| - 1], procs)
        + (if e.0 !in Keys(procs) && ClaimsRunning(e.1.status) then [StateSaysRunningButProcessMissing(e.0, e.1)] else [])
  }

  /** The mismatch list of a pass: process-side entries, then file-side entries. */
  function Mismatches(procs: Dict<ProcFacts>, files: Dict<FileFacts>): seq<Mismatch> {
    NoStateFileMismatches(procs, files) + ProcessMissingMismatches(files, procs)
  }

  // ---------------------------------------------------------------------------
  // Corrective writes
  // ---------------------------------------------------------------------------

  /** The keys the stop rewrite assigns. */
  const StopKeys: set<string> := {"status", "status_color", "last_update", "reconciled"}

  /** The record written for a running bot that has no state file. */
  function NewStateRecord(botId: string, facts: ProcFacts, now: string): (rec: Record)
    ensures rec.Keys == {"bot_id", "bot_name", "status", "status_color", "pid", "started_at", "last_update", "reconciled"}
    ensures rec["status"] == Str("running") && rec["status_color"] == Str("green")
    ensures ClaimsRunning(FileFactsOf(rec).status)
    ensures rec["reconciled"] == Bool(true) && rec["last_update"] == Str(now)
    ensures rec["pid"] == (if facts.pid.Some? then Num(facts.pid.value) else Null)
    ensures rec["started_at"] == (if facts.startedAt.Some? then Str(facts.startedAt.value) else Null)
    ensures rec["bot_id"] == Str(botId) && rec["bot_name"] == Str(Title(ReplaceChar(botId, '_', ' ')))
  {
    map[
      "bot_id" := Str(botId),
      "bot_name" := Str(Title(ReplaceChar(botId, '_', ' '))),
      "status" := Str("running"),
      "status_color" := Str("green"),
      "pid" := if facts.pid.Some? then Num(facts.pid.value) else Null,
      "started_at" := if facts.startedAt.Some? then Str(facts.startedAt.value) else Null,
      "last_update" := Str(now),
      "reconciled" := Bool(true)
    ]
  }

  /** The record rewritten for a file that says running while its bot has no process. */
  function StoppedRecord(rec: Record, now: string): (r: Record)
    ensures r.Keys == rec.Keys + StopKeys
    ensures forall k :: k in rec && k !in StopKeys ==> r[k] == rec[k]
    ensures !ClaimsRunning(FileFactsOf(r).status) && r["status"] == Str("stopped")
    ensures r["status_color"] == Str("red") && r["last_update"] == Str(now) && r["reconciled"] == Bool(true)
  {
    rec["status" := Str("stopped")]["status_color" := Str("red")]["last_update" := Str(now)]["reconciled" := Bool(true)]
  }

  function CreateStateFile(dir: StateDir, botId: string, facts: ProcFacts, now: string): StateDir {
    dir[botId := NewStateRecord(botId, facts, now)]
  }

  /** A missing (or unparsable) file is left alone. */
  function UpdateStateToStopped(dir: StateDir, botId: string, now: string): StateDir {
    if botId in dir then dir[botId := StoppedRecord(dir[botId], now)] else dir
  }

  function ApplyFix(dir: StateDir, m: Mismatch, now: string): StateDir {
    match m
    case RunningButNoStateFile(id, facts) => CreateStateFile(dir, id, facts, now)
    case StateSaysRunningButProcessMissing(id, _) => UpdateStateToStopped(dir, id, now)
  }

  /** The directory after the fixes for `ms`, applied in order. */
  function ApplyFixes(dir: StateDir, ms: seq<Mismatch>, now: string): StateDir {
    if ms == [] then dir else ApplyFix(ApplyFixes(dir, ms[..|ms| - 1], now), ms[|ms| - 1], now)
  }

  lemma ApplyFixesSnoc(dir: StateDir, ms: seq<Mismatch>, m: Mismatch, now: string)
    ensures ApplyFixes(dir, ms + [m], now) == ApplyFix(ApplyFixes(dir, ms, now), m, now)
  {
    assert (ms + [m])[..|ms|] == ms;
  }

  lemma NoStateFileMismatchesSnoc(procs: Dict<ProcFacts>, e: (string, ProcFacts), files: Dict<FileFacts>)
    ensures NoStateFileMismatches(procs + [e], files)
         == NoStateFileMismatches(procs, files) + (if e.0 !in Keys(files) then [RunningButNoStateFile(e.0, e.1)] else [])
  {
    assert (procs + [e])[..|procs|] == procs;
  }

  lemma ProcessMissingMismatchesSnoc(files: Dict<FileFacts>, e: (string, FileFacts), procs: Dict<ProcFacts>)
    ensures ProcessMissingMismatches(files + [e], procs)
         == ProcessMissingMismatches(files, procs)
            + (if e.0 !in Keys(procs) && ClaimsRunning(e.1.status) then [StateSaysRunningButProcessMissing(e.0, e.1)] else [])
  {
    assert (files + [e])[..|files|] == files;
  }

  lemma BotIdsSnoc(ms: seq<Mismatch>, m: Mismatch)
    ensures BotIds(ms + [m]) == BotIds(ms) + [m.botId]
  {
  }

  // ---------------------------------------------------------------------------
  // One reconciliation pass
  // ---------------------------------------------------------------------------

  /**
   * One pass: collect both snapshots, report every process without a state
   * file and every file that says running without a process, and with
   * `autoFix` create or stop-rewrite the file of each mismatched bot.
   */
  method Reconcile(source: ProcessSource, listing: seq<string>, dir: StateDir, autoFix: bool, now: string)
    returns (report: Report, dir': StateDir)
    ensures var procs := ProcessStatesOf(source);
            var files := FileStatesOf(listing, dir);
            && report.timestamp == now
            && report.processesFound == |procs|
            && report.stateFilesFound == |files|
            && report.mismatches == Mismatches(procs, files)
    ensures report.healthy <==> report.mismatches == []
    ensures report.fixed == (if autoFix then BotIds(report.mismatches) else [])
    ensures dir' == (if autoFix then ApplyFixes(dir, report.mismatches, now) else dir)
  {
    var processStates := GetProcessStates(source);
    var fileStates := GetFileStates(listing, dir);
    report, dir' := CompareSnapshots(processStates, fileStates, dir, autoFix, now);
  }

  /** The comparison part of a pass, over the two snapshots already collected. */
  method CompareSnapshots(processStates: Dict<ProcFacts>, fileStates: Dict<FileFacts>, dir: StateDir, autoFix: bool, now: string)
    returns (report: Report, dir': StateDir)
    ensures report.timestamp == now
    ensures report.processesFound == |processStates| && report.stateFilesFound == |fileStates|
    ensures report.mismatches == Mismatches(processStates, fileStates)
    ensures report.healthy <==> report.mismatches == []
    ensures report.fixed == (if autoFix then BotIds(report.mismatches) else [])
    ensures dir' == (if autoFix then ApplyFixes(dir, report.mismatches, now) else dir)
  {
    report := Report(now, |processStates|, |fileStates|, [], [], true);
    dir' := dir;

    for i := 0 to |processStates|
      invariant report.mismatches == NoStateFileMismatches(processStates[..i], fileStates)
      invariant Tracks(report, dir', dir, autoFix, now)
      invariant report.timestamp == now
      invariant report.processesFound == |processStates| && report.stateFilesFound == |fileStates|
    {
      var botId, procState := processStates[i].0, processStates[i].1;
      assert NoStateFileMismatches(processStates[..i + 1], fileStates)
          == report.mismatches + (if botId !in Keys(fileStates) then [RunningButNoStateFile(botId, procState)] else []) by {
        assert processStates[..i + 1] == processStates[..i] + [processStates[i]];
        NoStateFileMismatchesSnoc(processStates[..i], processStates[i], fileStates);
      }
      if botId !in Keys(fileStates) {
        report, dir' := AddMismatch(report, dir', RunningButNoStateFile(botId, procState), autoFix, now, dir);
      }
    }
    assert processStates[..|processStates|] == processStates;

    for j := 0 to |fileStates|
      invariant report.mismatches == NoStateFileMismatches(processStates, fileStates)
                                     + ProcessMissingMismatches(fileStates[..j], processStates)
      invariant Tracks(report, dir', dir, autoFix, now)
      invariant report.timestamp == now
      invariant report.processesFound == |processStates| && report.stateFilesFound == |fileStates|
    {
      var botId, fileState := fileStates[j].0, fileStates[j].1;
      assert ProcessMissingMismatches(fileStates[..j + 1], processStates)
          == ProcessMissingMismatches(fileStates[..j], processStates)
             + (if botId !in Keys(processStates) && ClaimsRunning(fileState.status)
                then [StateSaysRunningButProcessMissing(botId, fileState)] else []) by {
        assert fileStates[..j + 1] == fileStates[..j] + [fileStates[j]];
        ProcessMissingMismatchesSnoc(fileStates[..j], fileStates[j], processStates);
      }
      if botId !in Keys(processStates) && ClaimsRunning(fileState.status) {
        report, dir' := AddMismatch(report, dir', StateSaysRunningButProcessMissing(botId, fileState), autoFix, now, dir);
      }
    }
    assert fileStates[..|fileStates|] == fileStates;
  }

  /**
   * The report and the directory agree with the mismatches found so far:
   * `healthy` is cleared by the first one, and with `autoFix` every one has been
   * fixed and listed in `fixed`.
   */
  ghost predicate Tracks(report: Report, dir': StateDir, dir: StateDir, autoFix: bool, now: string) {
    && (report.healthy <==> report.mismatches == [])
    && report.fixed == (if autoFix then BotIds(report.mismatches) else [])
    && dir' == (if autoFix then ApplyFixes(dir, report.mismatches, now) else dir)
  }

  /** Records one mismatch: append it, clear `healthy`, and with `autoFix` apply its fix and list its bot. */
  method AddMismatch(report: Report, dir': StateDir, m: Mismatch, autoFix: bool, now: string, ghost dir: StateDir)
    returns (report': Report, dir'': StateDir)
    requires Tracks(report, dir', dir, autoFix, now)
    ensures Tracks(report', dir'', dir, autoFix, now)
    ensures report'.mismatches == report.mismatches + [m] && !report'.healthy
    ensures report'.timestamp == report.timestamp
    ensures report'.processesFound == report.processesFound && report'.stateFilesFound == report.stateFilesFound
  {
    ApplyFixesSnoc(dir, report.mismatches, m, now);
    BotIdsSnoc(report.mismatches, m);
    report' := report.(mismatches := report.mismatches + [m], healthy := false);
    dir'' := dir';
    if autoFix {
      dir'' := ApplyFix(dir', m, now);
      report' := report'.(fixed := report'.fixed + [m.botId]);
    }
  }
}
