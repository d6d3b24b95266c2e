/**
 * What the reconciler guarantees: how the classifier decides, how each
 * collector deduplicates, what the mismatch list contains and in which order,
 * what the corrective writes leave in the directory, and that a pass with
 * auto-fix reaches a fixed point.
 */
module ReconcileProperties {
  import opened Wrappers
  import opened Json
  import opened Text
  import opened Dicts
  import opened ReconcileState

  // ---------------------------------------------------------------------------
  // The classifier
  // ---------------------------------------------------------------------------

  /** The two market-maker tests run first, 15m before 1h, on the text as given. */
  lemma MarketMakerTestsComeFirst(cmdline: string)
    ensures Contains(cmdline, "mm_optimized_15m") ==> ExtractBotId(cmdline) == Some("mm_15m")
    ensures !Contains(cmdline, "mm_optimized_15m") && Contains(cmdline, "mm_optimized_1h")
            ==> ExtractBotId(cmdline) == Some("mm_1h")
  {
  }

  /**
   * Once the `bot_v1` branch is taken: `hummingbot` is not reached, `btc`
   * beats `doge`, `long` beats `short`, and without a coin/side pair there is
   * no id.
   */
  lemma BotV1BranchDecides(cmdline: string)
    requires !Contains(cmdline, "mm_optimized_15m") && !Contains(cmdline, "mm_optimized_1h")
    requires EntersBotV1Branch(cmdline)
    ensures ExtractBotId(cmdline) != Some("hummingbot")
    ensures var lower := Lower(cmdline);
            && (Contains(lower, "btc") && Contains(lower, "long") ==> ExtractBotId(cmdline) == Some("btc_long_v1"))
            && (Contains(lower, "btc") && !Contains(lower, "long") && Contains(lower, "short")
                ==> ExtractBotId(cmdline) == Some("btc_short_v1"))
            && (!Contains(lower, "btc") && Contains(lower, "doge") && Contains(lower, "long")
                ==> ExtractBotId(cmdline) == Some("doge_long_v1"))
            && (!Contains(lower, "btc") && Contains(lower, "doge") && !Contains(lower, "long") && Contains(lower, "short")
                ==> ExtractBotId(cmdline) == Some("doge_short_v1"))
            && ((!Contains(lower, "btc") && !Contains(lower, "doge")) || (!Contains(lower, "long") && !Contains(lower, "short"))
                ==> ExtractBotId(cmdline) == None)
  {
  }

  /** `hummingbot` is the answer exactly when every earlier test failed and the lower-cased text names it. */
  lemma HummingbotIsLastResort(cmdline: string)
    ensures ExtractBotId(cmdline) == Some("hummingbot") <==>
      && !Contains(cmdline, "mm_optimized_15m")
      && !Contains(cmdline, "mm_optimized_1h")
      && !EntersBotV1Branch(cmdline)
      && Contains(Lower(cmdline), "hummingbot")
  {
  }

  /**
   * A command line gets no id exactly when no test matches: it names neither
   * market maker, and either it enters the `bot_v1` branch without both a coin
   * (`btc` or `doge`) and a side (`long` or `short`), or it does not enter that
   * branch and does not name `hummingbot`. Such a process is left out of the
   * snapshot.
   */
  lemma UnmatchedLineHasNoId(cmdline: string)
    ensures var lower := Lower(cmdline);
      ExtractBotId(cmdline).None? <==>
        && !Contains(cmdline, "mm_optimized_15m")
        && !Contains(cmdline, "mm_optimized_1h")
        && (if EntersBotV1Branch(cmdline)
            then !(Contains(lower, "btc") || Contains(lower, "doge")) || !(Contains(lower, "long") || Contains(lower, "short"))
            else !Contains(lower, "hummingbot"))
  {
  }

  /**
   * Apart from the three tests on the original text (`mm_optimized_15m`,
   * `mm_optimized_1h`, `bot_v1`), the classifier ignores case.
   */
  lemma ClassifierIgnoresCaseElsewhere(a: string, b: string)
    requires Lower(a) == Lower(b)
    requires Contains(a, "mm_optimized_15m") == Contains(b, "mm_optimized_15m")
    requires Contains(a, "mm_optimized_1h") == Contains(b, "mm_optimized_1h")
    requires Contains(a, "bot_v1") == Contains(b, "bot_v1")
    ensures ExtractBotId(a) == ExtractBotId(b)
  {
  }

  // ---------------------------------------------------------------------------
  // Deduplication in the two collectors
  // ---------------------------------------------------------------------------

  /** The last row of the psutil table that classifies to `k`, if any. */
  function LastRowFor(table: seq<ProcEntry>, k: string): (r: Option<nat>)
    ensures r.Some? ==> r.value < |table| && IsCandidateFor(PsutilCandidate(table[r.value]), k)
    ensures r.Some? ==> forall j :: r.value < j < |table| ==> !IsCandidateFor(PsutilCandidate(table[j]), k)
    ensures r.None? ==> forall j :: 0 <= j < |table| ==> !IsCandidateFor(PsutilCandidate(table[j]), k)
  {
    if table == [] then None
    else if IsCandidateFor(PsutilCandidate(table[|table| - 1]), k) then Some(|table| - 1)
    else LastRowFor(table[..|table| - 1], k)
  }

  /** The first `ps` line that classifies to `k`, if any. */
  function FirstLineFor(lines: seq<string>, k: string): (r: Option<nat>)
    ensures r.Some? ==> r.value < |lines| && IsCandidateFor(PsCandidate(lines[r.value]), k)
    ensures r.Some? ==> forall j :: 0 <= j < r.value ==> !IsCandidateFor(PsCandidate(lines[j]), k)
    ensures r.None? ==> forall j :: 0 <= j < |lines| ==> !IsCandidateFor(PsCandidate(lines[j]), k)
  {
    if lines == [] then None
    else
      var r := FirstLineFor(lines[..|lines| - 1], k);
      if r.Some? then r
      else if IsCandidateFor(PsCandidate(lines[|lines| - 1]), k) then Some(|lines| - 1)
      else None
  }

  /**
   * On the psutil path the LAST process with a given id supplies its facts,
   * and an id is present exactly when some readable process classifies to it.
   */
  lemma {:induction false} PsutilKeepsLast(table: seq<ProcEntry>, k: string)
    ensures Get(PsutilStates(table), k) ==
      match LastRowFor(table, k)
      case None => None
      case Some(i) => Some(PsutilCandidate(table[i]).value.1)
  {
    if table != [] {
      var n := |table| - 1;
      PsutilKeepsLast(table[..n], k);
      match LastRowFor(table[..n], k)
      case None =>
      case Some(i) => assert table[..n][i] == table[i];
    }
  }

  /**
   * On the `ps` path the FIRST line with a given id supplies its facts, and an
   * id is present exactly when some output line classifies to it.
   */
  lemma {:induction false} PsKeepsFirst(lines: seq<string>, k: string)
    ensures Get(PsStates(lines), k) ==
      match FirstLineFor(lines, k)
      case None => None
      case Some(i) => Some(PsCandidate(lines[i]).value.1)
  {
    if lines != [] {
      var n := |lines| - 1;
      PsKeepsFirst(lines[..n], k);
      match FirstLineFor(lines[..n], k)
      case None =>
      case Some(i) => assert lines[..n][i] == lines[i];
    }
  }

  /** The ids the classifier finds, in table (or line) order, repeats included. */
  function CandidateIds(cs: seq<Option<(string, ProcFacts)>>): seq<string> {
    if cs == [] then []
    else CandidateIds(cs[..|cs| - 1]) + (if cs[|cs| - 1].Some? then [cs[|cs| - 1].value.0] else [])
  }

  /** The distinct elements of `xs` in order of first occurrence. */
  function FirstOccurrences(xs: seq<string>): seq<string> {
    if xs == [] then []
    else
      var prev := FirstOccurrences(xs[..|xs| - 1]);
      if xs[|xs| - 1] in prev then prev else prev + [xs[|xs| - 1]]
  }

  function PsutilCandidates(table: seq<ProcEntry>): (cs: seq<Option<(string, ProcFacts)>>)
    ensures |cs| == |table|
  {
    seq(|table|, i requires 0 <= i < |table| => PsutilCandidate(table[i]))
  }

  function PsCandidates(lines: seq<string>): (cs: seq<Option<(string, ProcFacts)>>)
    ensures |cs| == |lines|
  {
    seq(|lines|, i requires 0 <= i < |lines| => PsCandidate(lines[i]))
  }

  lemma CandidateIdsSnoc(cs: seq<Option<(string, ProcFacts)>>)
    requires cs != []
    ensures var ids, prev := CandidateIds(cs), CandidateIds(cs[..|cs| - 1]);
            var c := cs[|cs| - 1];
            && (c.None? ==> ids == prev)
            && (c.Some? ==> ids != [] && ids[..|ids| - 1] == prev && ids[|ids| - 1] == c.value.0)
  {
  }

  /**
   * On the psutil path the ids are ordered by the first process that has
   * them: an overwrite changes the facts but not the position.
   */
  lemma {:induction false} PsutilOrderIsFirstSeen(table: seq<ProcEntry>)
    ensures Keys(PsutilStates(table)) == FirstOccurrences(CandidateIds(PsutilCandidates(table)))
  {
    if table != [] {
      var n := |table| - 1;
      PsutilOrderIsFirstSeen(table[..n]);
      var cs := PsutilCandidates(table);
      assert cs[..n] == PsutilCandidates(table[..n]);
      CandidateIdsSnoc(cs);
    }
  }

  /** On the `ps` path, too, the ids are ordered by the first line that has them. */
  lemma {:induction false} PsOrderIsFirstSeen(lines: seq<string>)
    ensures Keys(PsStates(lines)) == FirstOccurrences(CandidateIds(PsCandidates(lines)))
  {
    if lines != [] {
      var n := |lines| - 1;
      PsOrderIsFirstSeen(lines[..n]);
      var cs := PsCandidates(lines);
      assert cs[..n] == PsCandidates(lines[..n]);
      CandidateIdsSnoc(cs);
    }
  }

  /** The listed names that have a parsed record, in listing order. */
  function ReadableNames(listing: seq<string>, dir: StateDir): (names: seq<string>)
    ensures forall k :: k in names <==> k in listing && k in dir
  {
    if listing == [] then []
    else
      var name := listing[|listing| - 1];
      ReadableNames(listing[..|listing| - 1], dir) + (if name in dir then [name] else [])
  }

  /**
   * The file snapshot lists its bots in listing (glob) order, each at the
   * position of its first listing.
   */
  lemma {:induction false} FileSnapshotOrder(listing: seq<string>, dir: StateDir)
    ensures Keys(FileStatesOf(listing, dir)) == FirstOccurrences(ReadableNames(listing, dir))
  {
    if listing != [] {
      var n := |listing| - 1;
      FileSnapshotOrder(listing[..n], dir);
      var names := ReadableNames(listing, dir);
      if listing[n] in dir {
        assert names == ReadableNames(listing[..n], dir) + [listing[n]];
        assert names[..|names| - 1] == ReadableNames(listing[..n], dir);
        assert FileStatesOf(listing, dir) == Put(FileStatesOf(listing[..n], dir), listing[n], FileFactsOf(dir[listing[n]]));
      } else {
        assert names == ReadableNames(listing[..n], dir);
        assert FileStatesOf(listing, dir) == FileStatesOf(listing[..n], dir);
      }
    }
  }

  // ---------------------------------------------------------------------------
  // The mismatch list
  // ---------------------------------------------------------------------------

  lemma BotIdsConcat(a: seq<Mismatch>, b: seq<Mismatch>)
    ensures BotIds(a + b) == BotIds(a) + BotIds(b)
  {
  }

  /**
   * Every process-side entry is `running_but_no_state_file` for a process id
   * without a file, and carries that process's own snapshot entry.
   */
  lemma {:induction false} NoStateFileShape(procs: Dict<ProcFacts>, files: Dict<FileFacts>)
    ensures forall m :: m in NoStateFileMismatches(procs, files) ==>
              && m.RunningButNoStateFile? && m.botId in Keys(procs) && m.botId !in Keys(files)
              && (m.botId, m.process) in procs
  {
    if procs != [] {
      var n := |procs| - 1;
      NoStateFileShape(procs[..n], files);
      KeysAppend(procs[..n], procs[n]);
      assert procs == procs[..n] + [procs[n]];
    }
  }

  /**
   * Every file-side entry is `state_says_running_but_process_missing` for a
   * running/active file without a process, and carries that file's own
   * snapshot entry.
   */
  lemma {:induction false} ProcessMissingShape(files: Dict<FileFacts>, procs: Dict<ProcFacts>)
    ensures forall m :: m in ProcessMissingMismatches(files, procs) ==>
              && m.StateSaysRunningButProcessMissing?
              && m.botId in Keys(files) && m.botId !in Keys(procs)
              && ClaimsRunning(m.fileState.status)
              && (m.botId, m.fileState) in files
  {
    if files != [] {
      var n := |files| - 1;
      ProcessMissingShape(files[..n], procs);
      KeysAppend(files[..n], files[n]);
      assert files == files[..n] + [files[n]];
    }
  }

  /**
   * In snapshots with one entry per id, a mismatch's evidence is exactly what
   * the snapshot holds for its bot: the process facts for a bot without a
   * file, the file facts for a file without a process.
   */
  lemma MismatchEvidence(procs: Dict<ProcFacts>, files: Dict<FileFacts>)
    requires DistinctKeys(procs) && DistinctKeys(files)
    ensures forall m :: m in Mismatches(procs, files) && m.RunningButNoStateFile? ==>
              Get(procs, m.botId) == Some(m.process)
    ensures forall m :: m in Mismatches(procs, files) && m.StateSaysRunningButProcessMissing? ==>
              Get(files, m.botId) == Some(m.fileState)
  {
    var nsf: seq<Mismatch>, pm: seq<Mismatch> := NoStateFileMismatches(procs, files), ProcessMissingMismatches(files, procs);
    NoStateFileShape(procs, files);
    ProcessMissingShape(files, procs);
    forall m | m in nsf + pm && m.RunningButNoStateFile?
      ensures Get(procs, m.botId) == Some(m.process)
    {
      var i :| 0 <= i < |procs| && procs[i] == (m.botId, m.process);
      GetAt(procs, i);
    }
    forall m | m in nsf + pm && m.StateSaysRunningButProcessMissing?
      ensures Get(files, m.botId) == Some(m.fileState)
    {
      var i :| 0 <= i < |files| && files[i] == (m.botId, m.fileState);
      GetAt(files, i);
    }
  }

  /** All process-side mismatches come before all file-side ones. */
  lemma ProcessSideFirst(procs: Dict<ProcFacts>, files: Dict<FileFacts>)
    ensures var ms := Mismatches(procs, files);
            forall i, j :: 0 <= i < j < |ms| && ms[j].RunningButNoStateFile? ==> ms[i].RunningButNoStateFile?
  {
    var nsf: seq<Mismatch>, pm: seq<Mismatch> := NoStateFileMismatches(procs, files), ProcessMissingMismatches(files, procs);
    NoStateFileShape(procs, files);
    ProcessMissingShape(files, procs);
    forall j | |nsf| <= j < |nsf| + |pm| ensures !(nsf + pm)[j].RunningButNoStateFile? {
      assert (nsf + pm)[j] == pm[j - |nsf|];
    }
  }

  /** `xs` is `ys` with some elements left out, the rest in the same order. */
  predicate IsSubsequence(xs: seq<string>, ys: seq<string>)
    decreases |ys|
  {
    if xs == [] then true
    else if ys == [] then false
    else if xs[|xs| - 1] == ys[|ys| - 1] then IsSubsequence(xs[..|xs| - 1], ys[..|ys| - 1])
    else IsSubsequence(xs, ys[..|ys| - 1])
  }

  /** The process-side mismatches follow the iteration order of the process snapshot. */
  lemma {:induction false} NoStateFileOrder(procs: Dict<ProcFacts>, files: Dict<FileFacts>)
    requires DistinctKeys(procs)
    ensures IsSubsequence(BotIds(NoStateFileMismatches(procs, files)), Keys(procs))
  {
    if procs != [] {
      var n := |procs| - 1;
      var init := procs[..n];
      var x := procs[n].0;
      NoStateFileOrder(init, files);
      KeysAppend(init, procs[n]);
      assert procs == init + [procs[n]];
      var prev := NoStateFileMismatches(init, files);
      var ids := BotIds(NoStateFileMismatches(procs, files));
      assert Keys(procs)[..n] == Keys(init);
      if x !in Keys(files) {
        assert ids == BotIds(prev) + [x];
        assert ids[..|ids| - 1] == BotIds(prev);
      } else {
        assert ids == BotIds(prev);
        if prev != [] {
          assert ids[|ids| - 1] in Keys(init) by {
            NoStateFileShape(init, files);
            assert prev[|prev| - 1] in prev;
          }
        }
      }
    }
  }

  /** The file-side mismatches follow the iteration order of the file snapshot. */
  lemma {:induction false} ProcessMissingOrder(files: Dict<FileFacts>, procs: Dict<ProcFacts>)
    requires DistinctKeys(files)
    ensures IsSubsequence(BotIds(ProcessMissingMismatches(files, procs)), Keys(files))
  {
    if files != [] {
      var n := |files| - 1;
      var init := files[..n];
      var x := files[n].0;
      ProcessMissingOrder(init, procs);
      KeysAppend(init, files[n]);
      assert files == init + [files[n]];
      var prev := ProcessMissingMismatches(init, procs);
      var ids := BotIds(ProcessMissingMismatches(files, procs));
      assert Keys(files)[..n] == Keys(init);
      if x !in Keys(procs) && ClaimsRunning(files[n].1.status) {
        assert ids == BotIds(prev) + [x];
        assert ids[..|ids| - 1] == BotIds(prev);
      } else {
        assert ids == BotIds(prev);
        if prev != [] {
          assert ids[|ids| - 1] in Keys(init) by {
            ProcessMissingShape(init, procs);
            assert prev[|prev| - 1] in prev;
          }
        }
      }
    }
  }

  lemma {:induction false} NoStateFileCount(procs: Dict<ProcFacts>, files: Dict<FileFacts>, k: string)
    requires DistinctKeys(procs)
    ensures multiset(BotIds(NoStateFileMismatches(procs, files)))[k]
         == if k in Keys(procs) && k !in Keys(files) then 1 else 0
  {
    if procs != [] {
      var n := |procs| - 1;
      var init := procs[..n];
      NoStateFileCount(init, files, k);
      KeysAppend(init, procs[n]);
      assert procs == init + [procs[n]];
      var prev := NoStateFileMismatches(init, files);
      var last := if procs[n].0 !in Keys(files) then [RunningButNoStateFile(procs[n].0, procs[n].1)] else [];
      BotIdsConcat(prev, last);
    }
  }

  lemma {:induction false} ProcessMissingCount(files: Dict<FileFacts>, procs: Dict<ProcFacts>, k: string)
    requires DistinctKeys(files)
    ensures multiset(BotIds(ProcessMissingMismatches(files, procs)))[k]
         == if k in Keys(files) && k !in Keys(procs) && ClaimsRunning(Get(files, k).value.status) then 1 else 0
  {
    if files != [] {
      var n := |files| - 1;
      var init := files[..n];
      ProcessMissingCount(init, procs, k);
      KeysAppend(init, files[n]);
      GetAppend(init, files[n]);
      assert files == init + [files[n]];
      var prev := ProcessMissingMismatches(init, procs);
      var last := if files[n].0 !in Keys(procs) && ClaimsRunning(files[n].1.status)
                  then [StateSaysRunningButProcessMissing(files[n].0, files[n].1)] else [];
      BotIdsConcat(prev, last);
    }
  }

  /**
   * How many times an id appears in the mismatch list: once for a process
   * without a file, once for a running/active file without a process, and
   * never for an id present in both snapshots, whatever its status.
   */
  lemma MismatchCount(procs: Dict<ProcFacts>, files: Dict<FileFacts>, k: string)
    requires DistinctKeys(procs) && DistinctKeys(files)
    ensures multiset(BotIds(Mismatches(procs, files)))[k] ==
      if k in Keys(procs) then (if k in Keys(files) then 0 else 1)
      else if k in Keys(files) && ClaimsRunning(Get(files, k).value.status) then 1
      else 0
  {
    NoStateFileCount(procs, files, k);
    ProcessMissingCount(files, procs, k);
    BotIdsConcat(NoStateFileMismatches(procs, files), ProcessMissingMismatches(files, procs));
  }

  lemma RepeatCountsTwice(xs: seq<string>, i: nat, j: nat)
    requires i < j < |xs| && xs[i] == xs[j]
    ensures multiset(xs)[xs[j]] >= 2
  {
    assert xs == xs[..j] + [xs[j]] + xs[j + 1..];
    assert xs[i] in multiset(xs[..j]);
  }

  lemma DistinctFromCounts(xs: seq<string>)
    requires forall k :: multiset(xs)[k] <= 1
    ensures Distinct(xs)
  {
    forall i, j | 0 <= i < j < |xs| ensures xs[i] != xs[j] {
      if xs[i] == xs[j] {
        RepeatCountsTwice(xs, i, j);
      }
    }
  }

  /** No bot is reported twice in one pass. */
  lemma MismatchIdsDistinct(procs: Dict<ProcFacts>, files: Dict<FileFacts>)
    requires DistinctKeys(procs) && DistinctKeys(files)
    ensures Distinct(BotIds(Mismatches(procs, files)))
  {
    forall k ensures multiset(BotIds(Mismatches(procs, files)))[k] <= 1 {
      MismatchCount(procs, files, k);
    }
    DistinctFromCounts(BotIds(Mismatches(procs, files)));
  }

  // ---------------------------------------------------------------------------
  // The corrective writes
  // ---------------------------------------------------------------------------

  /** A file whose bot is not mismatched is left exactly as it was (or absent). */
  lemma {:induction false} ApplyFixesUntouched(dir: StateDir, ms: seq<Mismatch>, now: string, k: string)
    requires k !in BotIds(ms)
    ensures k in ApplyFixes(dir, ms, now) <==> k in dir
    ensures k in dir ==> ApplyFixes(dir, ms, now)[k] == dir[k]
  {
    if ms != [] {
      var n := |ms| - 1;
      assert BotIds(ms[..n]) == BotIds(ms)[..n];
      ApplyFixesUntouched(dir, ms[..n], now, k);
    }
  }

  /** Completion: a bot reported without a file has, afterwards, the record created from its process facts. */
  lemma {:induction false} ApplyFixesCreates(dir: StateDir, ms: seq<Mismatch>, now: string, i: nat)
    requires Distinct(BotIds(ms)) && i < |ms| && ms[i].RunningButNoStateFile?
    ensures ms[i].botId in ApplyFixes(dir, ms, now)
    ensures ApplyFixes(dir, ms, now)[ms[i].botId] == NewStateRecord(ms[i].botId, ms[i].process, now)
  {
    var n := |ms| - 1;
    var prev := ApplyFixes(dir, ms[..n], now);
    assert ApplyFixes(dir, ms, now) == ApplyFix(prev, ms[n], now);
    if i < n {
      assert BotIds(ms[..n]) == BotIds(ms)[..n];
      assert ms[..n][i] == ms[i];
      ApplyFixesCreates(dir, ms[..n], now, i);
      assert ms[n].botId != ms[i].botId by {
        assert BotIds(ms)[n] != BotIds(ms)[i];
      }
      ApplyFixKeepsOthers(prev, ms[n], now, ms[i].botId);
    }
  }

  /** A fix touches only the file of its own bot. */
  lemma ApplyFixKeepsOthers(dir: StateDir, m: Mismatch, now: string, k: string)
    requires m.botId != k
    ensures k in ApplyFix(dir, m, now) <==> k in dir
    ensures k in dir ==> ApplyFix(dir, m, now)[k] == dir[k]
  {
  }

  /**
   * With auto-fix, a running bot that has no state file gets one built from
   * its own process facts: its pid and start time come from the process
   * snapshot.
   */
  lemma AutoFixCreatesFromProcess(procs: Dict<ProcFacts>, files: Dict<FileFacts>, dir: StateDir, now: string, k: string)
    requires DistinctKeys(procs) && DistinctKeys(files)
    requires k in Keys(procs) && k !in Keys(files)
    ensures var dir' := ApplyFixes(dir, Mismatches(procs, files), now);
            k in dir' && dir'[k] == NewStateRecord(k, Get(procs, k).value, now)
  {
    var ms := Mismatches(procs, files);
    MismatchCount(procs, files, k);
    MismatchIdsDistinct(procs, files);
    MismatchEvidence(procs, files);
    NoStateFileShape(procs, files);
    ProcessMissingShape(files, procs);
    assert k in BotIds(ms);
    var i :| 0 <= i < |ms| && BotIds(ms)[i] == k;
    assert ms[i] in ms;
    ApplyFixesCreates(dir, ms, now, i);
  }

  /**
   * Stop correction: a bot reported as running without a process has,
   * afterwards, its old record with the four stop fields rewritten; a file
   * that is gone is left gone.
   */
  lemma {:induction false} ApplyFixesStops(dir: StateDir, ms: seq<Mismatch>, now: string, i: nat)
    requires Distinct(BotIds(ms)) && i < |ms| && ms[i].StateSaysRunningButProcessMissing?
    ensures ms[i].botId in ApplyFixes(dir, ms, now) <==> ms[i].botId in dir
    ensures ms[i].botId in dir ==> ApplyFixes(dir, ms, now)[ms[i].botId] == StoppedRecord(dir[ms[i].botId], now)
  {
    var n := |ms| - 1;
    assert BotIds(ms[..n]) == BotIds(ms)[..n];
    if i < n {
      ApplyFixesStops(dir, ms[..n], now, i);
      assert BotIds(ms)[n] != BotIds(ms)[i];
    } else {
      assert ms[i].botId !in BotIds(ms[..n]);
      ApplyFixesUntouched(dir, ms[..n], now, ms[i].botId);
    }
  }

  lemma {:induction false} NoStateFileEmpty(procs: Dict<ProcFacts>, files: Dict<FileFacts>)
    requires forall k :: k in Keys(procs) ==> k in Keys(files)
    ensures NoStateFileMismatches(procs, files) == []
  {
    if procs != [] {
      var n := |procs| - 1;
      KeysAppend(procs[..n], procs[n]);
      assert procs == procs[..n] + [procs[n]];
      NoStateFileEmpty(procs[..n], files);
    }
  }

  lemma {:induction false} ProcessMissingEmpty(files: Dict<FileFacts>, procs: Dict<ProcFacts>)
    requires forall j :: 0 <= j < |files| && files[j].0 !in Keys(procs) ==> !ClaimsRunning(files[j].1.status)
    ensures ProcessMissingMismatches(files, procs) == []
  {
    if files != [] {
      ProcessMissingEmpty(files[..|files| - 1], procs);
    }
  }

  /**
   * Fixed point: after a pass with auto-fix, a pass over the same processes
   * and the rewritten directory finds no mismatch. Created records say
   * `running`, and `stopped` is neither `running` nor `active`. Both listings
   * must name every file of their directory.
   */
  lemma AutoFixReachesFixedPoint(procs: Dict<ProcFacts>, listing: seq<string>, dir: StateDir, now: string, listing': seq<string>)
    requires DistinctKeys(procs)
    requires forall k :: k in dir ==> k in listing
    requires forall k :: k in ApplyFixes(dir, Mismatches(procs, FileStatesOf(listing, dir)), now) ==> k in listing'
    ensures Mismatches(procs, FileStatesOf(listing', ApplyFixes(dir, Mismatches(procs, FileStatesOf(listing, dir)), now))) == []
  {
    var files := FileStatesOf(listing, dir);
    var ms := Mismatches(procs, files);
    var dir' := ApplyFixes(dir, ms, now);
    var files' := FileStatesOf(listing', dir');
    MismatchIdsDistinct(procs, files);
    NoStateFileShape(procs, files);
    ProcessMissingShape(files, procs);
    BotIdsConcat(NoStateFileMismatches(procs, files), ProcessMissingMismatches(files, procs));

    forall k | k in Keys(procs) ensures k in Keys(files') {
      MismatchCount(procs, files, k);
      if k in Keys(files) {
        assert k !in BotIds(ms);
        ApplyFixesUntouched(dir, ms, now, k);
      } else {
        assert k in multiset(BotIds(ms));
        var i :| 0 <= i < |ms| && BotIds(ms)[i] == k;
        ApplyFixesCreates(dir, ms, now, i);
      }
    }
    NoStateFileEmpty(procs, files');

    forall j | 0 <= j < |files'| && files'[j].0 !in Keys(procs) ensures !ClaimsRunning(files'[j].1.status) {
      var k := files'[j].0;
      GetAt(files', j);
      assert k in dir' && files'[j].1 == FileFactsOf(dir'[k]);
      MismatchCount(procs, files, k);
      if k in BotIds(ms) {
        var i :| 0 <= i < |ms| && BotIds(ms)[i] == k;
        ApplyFixesStops(dir, ms, now, i);
      } else {
        ApplyFixesUntouched(dir, ms, now, k);
        assert k in Keys(files);
      }
    }
    ProcessMissingEmpty(files', procs);
  }

  // ---------------------------------------------------------------------------
  // Worked scenarios
  // ---------------------------------------------------------------------------

  lemma FileStatesOfOne(name: string, dir: StateDir)
    ensures FileStatesOf([name], dir) == if name in dir then [(name, FileFactsOf(dir[name]))] else []
  {
    assert [name][..0] == [];
  }

  /** `btc_long_v1` runs as pid 501 and has no file: one mismatch, and the created record says running with that pid. */
  lemma ScenarioRunningWithoutFile(startedAt: string, cmdline: string, now: string)
    ensures var facts := ProcFacts(Some(501), Some(startedAt), cmdline);
            var procs := [("btc_long_v1", facts)];
            var ms := Mismatches(procs, FileStatesOf([], map[]));
            var dir' := ApplyFixes(map[], ms, now);
            && ms == [RunningButNoStateFile("btc_long_v1", facts)]
            && "btc_long_v1" in dir'
            && dir'["btc_long_v1"]["status"] == Str("running")
            && dir'["btc_long_v1"]["pid"] == Num(501)
            && dir'["btc_long_v1"]["reconciled"] == Bool(true)
  {
    var facts := ProcFacts(Some(501), Some(startedAt), cmdline);
    var procs := [("btc_long_v1", facts)];
    var files: Dict<FileFacts> := [];
    var m := RunningButNoStateFile("btc_long_v1", facts);
    assert FileStatesOf([], map[]) == files;
    assert procs[..0] == [];
    assert NoStateFileMismatches(procs, files) == [m];
    assert Mismatches(procs, files) == [m];
    assert [] + [m] == [m];
    ApplyFixesSnoc(map[], [], m, now);
    var rec := NewStateRecord("btc_long_v1", facts, now);
    assert ApplyFixes(map[], [m], now) == map["btc_long_v1" := rec];
  }

  /** `mm_15m`'s file says running and no process has that id: the file is stopped and the next pass is clean. */
  lemma ScenarioFileSaysRunning(now: string)
    ensures var dir := map["mm_15m" := map["status" := Str("running")]];
            var ms := Mismatches([], FileStatesOf(["mm_15m"], dir));
            var dir' := ApplyFixes(dir, ms, now);
            && ms == [StateSaysRunningButProcessMissing("mm_15m", FileFacts(Str("running"), Null))]
            && "mm_15m" in dir' && dir'["mm_15m"] == StoppedRecord(dir["mm_15m"], now)
            && Mismatches([], FileStatesOf(["mm_15m"], dir')) == []
  {
    var dir := map["mm_15m" := map["status" := Str("running")]];
    var procs: Dict<ProcFacts> := [];
    var facts := FileFacts(Str("running"), Null);
    var m := StateSaysRunningButProcessMissing("mm_15m", facts);
    FileStatesOfOne("mm_15m", dir);
    var files := [("mm_15m", facts)];
    assert files[..0] == [];
    assert ProcessMissingMismatches(files, procs) == [m];
    assert Mismatches(procs, files) == [m];
    assert [m][..0] == [];
    var dir' := ApplyFixes(dir, [m], now);
    assert [] + [m] == [m];
    ApplyFixesSnoc(dir, [], m, now);
    assert dir' == dir["mm_15m" := StoppedRecord(dir["mm_15m"], now)];
    // The next pass sees the rewritten file, which no longer claims running.
    var facts' := FileFactsOf(dir'["mm_15m"]);
    FileStatesOfOne("mm_15m", dir');
    var files' := [("mm_15m", facts')];
    assert !ClaimsRunning(facts'.status);
    assert files'[..0] == [];
    assert ProcessMissingMismatches(files', procs) == [];
  }

  /**
   * `doge_short_v1` runs while its file says paused: no mismatch at all,
   * since an id in both snapshots is never reported, and nothing is rewritten.
   */
  lemma ScenarioPausedButRunning(facts: ProcFacts, now: string)
    ensures var dir := map["doge_short_v1" := map["status" := Str("paused")]];
            var ms := Mismatches([("doge_short_v1", facts)], FileStatesOf(["doge_short_v1"], dir));
            ms == [] && ApplyFixes(dir, ms, now) == dir
  {
    var dir := map["doge_short_v1" := map["status" := Str("paused")]];
    var procs := [("doge_short_v1", facts)];
    FileStatesOfOne("doge_short_v1", dir);
    var files := [("doge_short_v1", FileFacts(Str("paused"), Null))];
    assert procs[..0] == [];
    assert files[..0] == [];
    assert Keys(files) == ["doge_short_v1"];
    assert NoStateFileMismatches(procs, files) == [];
    assert ProcessMissingMismatches(files, procs) == [];
  }

  /** A listed file that does not parse, with no process for it, yields no mismatch. */
  lemma ScenarioUnparsableFile()
    ensures Mismatches([], FileStatesOf(["broken"], map[])) == []
  {
    FileStatesOfOne("broken", map[]);
  }
}
