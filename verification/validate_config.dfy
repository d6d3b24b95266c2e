/**
 * The configuration validator of the system health monitor: it reads the
 * workspace's `.env`, `.env.local` and `.env.alerts` files and the process
 * environment, and reports which of the five known keys are present, which
 * are missing (required or optional) and, outside quick mode, what the Brave
 * and Telegram connectivity probes answered.
 *
 * File contents and the environment are inputs; the two probes (HTTP calls in
 * the source) are function parameters.
 */
module ValidateConfig {
  import opened Wrappers
  import opened Text

  // ---------------------------------------------------------------------------
  // Env files
  // ---------------------------------------------------------------------------

  /** The characters `value.strip('"\'')` removes. */
  const Quotes: set<char> := {'"', '\''}

  /**
   * One line of an env file: stripped of whitespace, a non-empty line that
   * does not start with `#` and contains `=` is split at its first `=`; the
   * key is kept as it stands and the value loses surrounding quote characters.
   */
  function ParseEnvLine(line: string): Option<(string, string)> {
    var t := Strip(line, Whitespace);
    if t == [] || t[0] == '#' || '=' !in t then None
    else
      var (key, raw) := SplitAtFirst(t, '=');
      Some((key, Strip(raw, Quotes)))
  }

  /**
   * A line defines a variable exactly when its stripped form is non-empty,
   * does not start with `#` and contains `=`; the key is the text before the
   * first `=` and the value the rest without surrounding quote characters.
   */
  lemma ParseEnvLineMeaning(line: string)
    ensures var t := Strip(line, Whitespace);
            ParseEnvLine(line).Some? <==> t != [] && t[0] != '#' && '=' in t
    ensures var r := ParseEnvLine(line);
            r.Some? ==>
            var t, n := Strip(line, Whitespace), |r.value.0|;
            && n < |t| && t[..n] == r.value.0 && t[n] == '=' && '=' !in r.value.0
            && r.value.1 == Strip(t[n + 1..], Quotes)
  {
    var t := Strip(line, Whitespace);
    if t != [] && t[0] != '#' && '=' in t {
      var (key, raw) := SplitAtFirst(t, '=');
      assert t[..|key|] == key;
      assert t[|key| + 1..] == raw;
    }
  }

  lemma {:induction false} SplitAtFirstOfJoined(key: string, value: string)
    requires '=' !in key
    ensures '=' in key + "=" + value
    ensures SplitAtFirst(key + "=" + value, '=') == (key, value)
  {
    var s := key + "=" + value;
    assert s[|key|] == '=';
    if key != [] {
      assert key[0] in key;
      SplitAtFirstOfJoined(key[1..], value);
      assert s[1..] == key[1..] + "=" + value;
      assert [key[0]] + key[1..] == key;
    }
  }

  /**
   * Writing `KEY=value` and parsing it back gives the pair again, for a key
   * without `=` that does not start with `#` or whitespace and a value that
   * does not end in whitespace and is not wrapped in quote characters.
   */
  lemma ParseFormattedLine(key: string, value: string)
    requires key != [] && '=' !in key && key[0] != '#' && key[0] !in Whitespace
    requires value != [] ==> value[0] !in Quotes && value[|value| - 1] !in Quotes && value[|value| - 1] !in Whitespace
    ensures ParseEnvLine(key + "=" + value) == Some((key, value))
  {
    var line := key + "=" + value;
    assert line[0] == key[0];
    assert line[|line| - 1] == if value == [] then '=' else value[|value| - 1];
    assert Strip(line, Whitespace) == line;
    SplitAtFirstOfJoined(key, value);
  }

  /** What each line of an env file assigns, in file order. */
  function Assignments(lines: seq<string>): (r: seq<Option<(string, string)>>)
    ensures |r| == |lines| && forall i :: 0 <= i < |lines| ==> r[i] == ParseEnvLine(lines[i])
  {
    seq(|lines|, i requires 0 <= i < |lines| => ParseEnvLine(lines[i]))
  }

  /** The variables a list of assignments defines; a later assignment to the same key wins. */
  function Assigned(as_: seq<Option<(string, string)>>): map<string, string> {
    if as_ == [] then map[]
    else
      var prev := Assigned(as_[..|as_| - 1]);
      match as_[|as_| - 1]
      case None => prev
      case Some((key, value)) => prev[key := value]
  }

  /** The variables an env file defines. */
  function EnvOf(lines: seq<string>): map<string, string> {
    Assigned(Assignments(lines))
  }

  /** The position of the last assignment to `key`, if any. */
  function LastAssignmentTo(as_: seq<Option<(string, string)>>, key: string): (r: Option<nat>)
    ensures r.Some? ==> r.value < |as_| && as_[r.value].Some? && as_[r.value].value.0 == key
    ensures r.Some? ==> forall j :: r.value < j < |as_| && as_[j].Some? ==> as_[j].value.0 != key
    ensures r.None? ==> forall j :: 0 <= j < |as_| && as_[j].Some? ==> as_[j].value.0 != key
  {
    if as_ == [] then None
    else if as_[|as_| - 1].Some? && as_[|as_| - 1].value.0 == key then Some(|as_| - 1)
    else LastAssignmentTo(as_[..|as_| - 1], key)
  }

  /** Last assignment wins: a key is defined exactly when something assigns it, with the last value assigned. */
  lemma {:induction false} LastAssignmentWins(as_: seq<Option<(string, string)>>, key: string)
    ensures key in Assigned(as_) <==> LastAssignmentTo(as_, key).Some?
    ensures key in Assigned(as_) ==> Assigned(as_)[key] == as_[LastAssignmentTo(as_, key).value].value.1
  {
    if as_ != [] {
      var n := |as_| - 1;
      LastAssignmentWins(as_[..n], key);
      var r := LastAssignmentTo(as_[..n], key);
      if r.Some? {
        assert as_[..n][r.value] == as_[r.value];
      }
    }
  }

  /**
   * For an env file: a key is defined exactly when some line defines it, and
   * its value is the one on the last line that defines it.
   */
  lemma EnvLastLineWins(lines: seq<string>, key: string)
    ensures var r := LastAssignmentTo(Assignments(lines), key);
      && (key in EnvOf(lines) <==> r.Some?)
      && (r.Some? ==> ParseEnvLine(lines[r.value]).Some? && ParseEnvLine(lines[r.value]).value.0 == key
                      && EnvOf(lines)[key] == ParseEnvLine(lines[r.value]).value.1)
      && (r.Some? ==> forall j :: r.value < j < |lines| && ParseEnvLine(lines[j]).Some? ==> ParseEnvLine(lines[j]).value.0 != key)
      && (r.None? ==> forall j :: 0 <= j < |lines| && ParseEnvLine(lines[j]).Some? ==> ParseEnvLine(lines[j]).value.0 != key)
  {
    LastAssignmentWins(Assignments(lines), key);
  }

  /** An env file: its lines, or `None` when it does not exist. */
  type EnvFile = Option<seq<string>>

  function EnvFileOf(file: EnvFile): map<string, string> {
    if file.None? then map[] else EnvOf(file.value)
  }

  /** `check_env_file`: the variables of one env file; a missing file defines none. */
  method CheckEnvFile(file: EnvFile) returns (envVars: map<string, string>)
    ensures envVars == EnvFileOf(file)
  {
    envVars := map[];
    if file.Some? {
      var lines := file.value;
      ghost var as_ := Assignments(lines);
      for i := 0 to |lines|
        invariant envVars == Assigned(as_[..i])
      {
        assert as_[..i + 1][..i] == as_[..i];
        var parsed := ParseEnvLine(lines[i]);
        if parsed.Some? {
          var (key, value) := parsed.value;
          envVars := envVars[key := value];
        }
      }
      assert as_[..|lines|] == as_;
    }
  }

  // ---------------------------------------------------------------------------
  // All sources
  // ---------------------------------------------------------------------------

  /** The three env files of the workspace and the process environment. */
  datatype Workspace = Workspace(env: EnvFile, envLocal: EnvFile, envAlerts: EnvFile, osEnv: map<string, string>)

  /** The env files in the order they are read. */
  function FilesInOrder(ws: Workspace): seq<EnvFile> {
    [ws.env, ws.envLocal, ws.envAlerts]
  }

  /** The env files merged in order, each overriding the ones before it. */
  function MergedFiles(files: seq<EnvFile>): map<string, string> {
    if files == [] then map[] else MergedFiles(files[..|files| - 1]) + EnvFileOf(files[|files| - 1])
  }

  function MergedConfigs(ws: Workspace): map<string, string> {
    MergedFiles(FilesInOrder(ws)) + ws.osEnv
  }

  /**
   * Precedence of the sources: the process environment, then `.env.alerts`,
   * then `.env.local`, then `.env`; a key none of them defines is absent.
   */
  lemma SourcePrecedence(ws: Workspace, key: string)
    ensures var merged, env, local, alerts := MergedConfigs(ws), EnvFileOf(ws.env), EnvFileOf(ws.envLocal), EnvFileOf(ws.envAlerts);
      && (key in merged <==> key in ws.osEnv || key in alerts || key in local || key in env)
      && (key in ws.osEnv ==> merged[key] == ws.osEnv[key])
      && (key !in ws.osEnv && key in alerts ==> merged[key] == alerts[key])
      && (key !in ws.osEnv && key !in alerts && key in local ==> merged[key] == local[key])
      && (key !in ws.osEnv && key !in alerts && key !in local && key in env ==> merged[key] == env[key])
  {
    var files := FilesInOrder(ws);
    assert files[..2] == [ws.env, ws.envLocal];
    assert files[..2][..1] == [ws.env];
    assert files[..2][..1][..0] == [];
    assert MergedFiles([ws.env]) == EnvFileOf(ws.env);
    assert MergedFiles(files) == EnvFileOf(ws.env) + EnvFileOf(ws.envLocal) + EnvFileOf(ws.envAlerts);
  }

  /** `check_all_sources`: the env files in order, then the process environment on top. */
  method CheckAllSources(ws: Workspace) returns (configs: map<string, string>)
    ensures configs == MergedConfigs(ws)
  {
    configs := map[];
    var files := FilesInOrder(ws);
    for i := 0 to |files|
      invariant configs == MergedFiles(files[..i])
    {
      assert files[..i + 1][..i] == files[..i];
      var envVars := CheckEnvFile(files[i]);
      configs := configs + envVars;
    }
    assert files[..|files|] == files;
    configs := configs + ws.osEnv;
  }

  // ---------------------------------------------------------------------------
  // Validation
  // ---------------------------------------------------------------------------

  /** One entry of the table of known keys. */
  datatype ConfigSpec = ConfigSpec(key: string, description: string, optional: bool, testMethod: Option<string>)

  const BraveKey: string := "BRAVE_API_KEY"
  const TelegramKey: string := "TELEGRAM_BOT_TOKEN"

  /** The known keys, in table order: only the Brave key is required. */
  const RequiredConfigs: seq<ConfigSpec> := [
    ConfigSpec(BraveKey, "Brave Search API for web searches", false, Some("brave")),
    ConfigSpec("MOONSHOT_API_KEY", "Moonshot LLM API (primary)", true, None),
    ConfigSpec("OKX_API_KEY", "OKX exchange API key", true, Some("okx")),
    ConfigSpec("OKX_API_SECRET", "OKX exchange API secret", true, None),
    ConfigSpec(TelegramKey, "Telegram bot token for notifications", true, Some("telegram"))
  ]

  /** What a connectivity probe answers: success and a message. */
  datatype ApiTest = ApiTest(success: bool, message: string)

  datatype MissingEntry = MissingEntry(key: string, description: string)

  /** The lists `validate` builds while walking the table. */
  datatype Tally = Tally(
    present: seq<string>,
    missingRequired: seq<MissingEntry>,
    missingOptional: seq<MissingEntry>,
    apiTests: seq<(string, ApiTest)>,
    healthy: bool)

  datatype ValidationReport = ValidationReport(
    timestamp: string,
    configsChecked: nat,
    present: seq<string>,
    missingRequired: seq<MissingEntry>,
    missingOptional: seq<MissingEntry>,
    apiTests: seq<(string, ApiTest)>,
    healthy: bool)

  /** `key in configs and configs[key]`: defined and not empty. */
  predicate IsSet(configs: map<string, string>, key: string) {
    key in configs && configs[key] != ""
  }

  /** The probe `validate` runs for a table entry, by its test method. */
  predicate Probed(spec: ConfigSpec, quickMode: bool) {
    !quickMode && (spec.testMethod == Some("brave") || spec.testMethod == Some("telegram"))
  }

  /** The answer of the probe a test method names. */
  function ProbeAnswer(testMethod: string, value: string, brave: string -> ApiTest, telegram: string -> ApiTest): ApiTest {
    if testMethod == "brave" then brave(value) else telegram(value)
  }

  /** What `validate` records for one table entry. */
  function TallyStep(t: Tally, spec: ConfigSpec, configs: map<string, string>, quickMode: bool,
                     brave: string -> ApiTest, telegram: string -> ApiTest): Tally
  {
    if IsSet(configs, spec.key) then
      var t' := t.(present := t.present + [spec.key]);
      if !quickMode && spec.testMethod.Some? && spec.testMethod.value != "" then
        if spec.testMethod.value == "brave" then
          var result := brave(configs[spec.key]);
          t'.(apiTests := t'.apiTests + [(spec.key, result)], healthy := t'.healthy && result.success)
        else if spec.testMethod.value == "telegram" then
          t'.(apiTests := t'.apiTests + [(spec.key, telegram(configs[spec.key]))])
        else t'
      else t'
    else if spec.optional then
      t.(missingOptional := t.missingOptional + [MissingEntry(spec.key, spec.description)])
    else
      t.(missingRequired := t.missingRequired + [MissingEntry(spec.key, spec.description)], healthy := false)
  }

  /** The lists after walking `specs` in order. */
  function Tallied(specs: seq<ConfigSpec>, configs: map<string, string>, quickMode: bool,
                   brave: string -> ApiTest, telegram: string -> ApiTest): Tally
  {
    if specs == [] then Tally([], [], [], [], true)
    else TallyStep(Tallied(specs[..|specs| - 1], configs, quickMode, brave, telegram), specs[|specs| - 1],
                   configs, quickMode, brave, telegram)
  }

  /** What one table entry adds to each list of the tally. */
  lemma TallyStepAdds(t: Tally, spec: ConfigSpec, configs: map<string, string>, quickMode: bool,
                      brave: string -> ApiTest, telegram: string -> ApiTest)
    ensures var t', set_ := TallyStep(t, spec, configs, quickMode, brave, telegram), IsSet(configs, spec.key);
      && t'.present == t.present + (if set_ then [spec.key] else [])
      && t'.missingRequired == t.missingRequired + (if !set_ && !spec.optional then [MissingEntry(spec.key, spec.description)] else [])
      && t'.missingOptional == t.missingOptional + (if !set_ && spec.optional then [MissingEntry(spec.key, spec.description)] else [])
      && t'.apiTests == t.apiTests + (if set_ && Probed(spec, quickMode)
                                      then [(spec.key, ProbeAnswer(spec.testMethod.value, configs[spec.key], brave, telegram))]
                                      else [])
      && (t'.healthy <==> t.healthy && (set_ || spec.optional)
                          && (set_ && !quickMode && spec.testMethod == Some("brave") ==> brave(configs[spec.key]).success))
  {
    if IsSet(configs, spec.key) && Probed(spec, quickMode) {
      assert spec.testMethod.value[0] in "bt";
    }
  }

  /** A key is listed as present exactly when it is a table key that is set. */
  lemma {:induction false} TallyPresent(specs: seq<ConfigSpec>, configs: map<string, string>, quickMode: bool,
                                  brave: string -> ApiTest, telegram: string -> ApiTest)
    ensures var t := Tallied(specs, configs, quickMode, brave, telegram);
      forall k :: k in t.present <==> exists s :: s in specs && s.key == k && IsSet(configs, k)
  {
    if specs != [] {
      var n := |specs| - 1;
      TallyPresent(specs[..n], configs, quickMode, brave, telegram);
      TallyStepAdds(Tallied(specs[..n], configs, quickMode, brave, telegram), specs[n], configs, quickMode, brave, telegram);
      assert specs == specs[..n] + [specs[n]];
      assert forall s :: s in specs <==> s in specs[..n] || s == specs[n];
    }
  }

  /** An entry is listed as missing-required exactly when it names a required table key that is unset. */
  lemma {:induction false} TallyMissingRequired(specs: seq<ConfigSpec>, configs: map<string, string>, quickMode: bool,
                                  brave: string -> ApiTest, telegram: string -> ApiTest)
    ensures var t := Tallied(specs, configs, quickMode, brave, telegram);
      forall m :: m in t.missingRequired <==>
        exists s :: s in specs && m == MissingEntry(s.key, s.description) && !IsSet(configs, s.key) && !s.optional
  {
    if specs != [] {
      var n := |specs| - 1;
      TallyMissingRequired(specs[..n], configs, quickMode, brave, telegram);
      var t0 := Tallied(specs[..n], configs, quickMode, brave, telegram);
      assert var t := Tallied(specs[..n], configs, quickMode, brave, telegram);
      forall m :: m in t.missingRequired <==>
        exists s :: s in specs[..n] && m == MissingEntry(s.key, s.description) && !IsSet(configs, s.key) && !s.optional;
      TallyStepAdds(t0, specs[n], configs, quickMode, brave, telegram);
      assert specs == specs[..n] + [specs[n]];
      assert forall s :: s in specs <==> s in specs[..n] || s == specs[n];
      var t := Tallied(specs, configs, quickMode, brave, telegram);
      forall m | m in t.missingRequired
        ensures exists s :: s in specs && m == MissingEntry(s.key, s.description) && !IsSet(configs, s.key) && !s.optional
      {
        if m in t0.missingRequired {
          var s :| s in specs[..n] && m == MissingEntry(s.key, s.description) && !IsSet(configs, s.key) && !s.optional;
          assert s in specs;
        } else {
          assert specs[n] in specs && m == MissingEntry(specs[n].key, specs[n].description);
        }
      }
      forall s | s in specs && !IsSet(configs, s.key) && !s.optional
        ensures MissingEntry(s.key, s.description) in t.missingRequired
      {
        if s != specs[n] {
          assert s in specs[..n];
          assert MissingEntry(s.key, s.description) in t0.missingRequired;
        }
      }
    }
  }

  /** An entry is listed as missing-optional exactly when it names an optional table key that is unset. */
  lemma {:induction false} TallyMissingOptional(specs: seq<ConfigSpec>, configs: map<string, string>, quickMode: bool,
                                  brave: string -> ApiTest, telegram: string -> ApiTest)
    ensures var t := Tallied(specs, configs, quickMode, brave, telegram);
      forall m :: m in t.missingOptional <==>
        exists s :: s in specs && m == MissingEntry(s.key, s.description) && !IsSet(configs, s.key) && s.optional
  {
    if specs != [] {
      var n := |specs| - 1;
      TallyMissingOptional(specs[..n], configs, quickMode, brave, telegram);
      var t0 := Tallied(specs[..n], configs, quickMode, brave, telegram);
      assert var t := Tallied(specs[..n], configs, quickMode, brave, telegram);
      forall m :: m in t.missingOptional <==>
        exists s :: s in specs[..n] && m == MissingEntry(s.key, s.description) && !IsSet(configs, s.key) && s.optional;
      TallyStepAdds(t0, specs[n], configs, quickMode, brave, telegram);
      assert specs == specs[..n] + [specs[n]];
      assert forall s :: s in specs <==> s in specs[..n] || s == specs[n];
      var t := Tallied(specs, configs, quickMode, brave, telegram);
      forall m | m in t.missingOptional
        ensures exists s :: s in specs && m == MissingEntry(s.key, s.description) && !IsSet(configs, s.key) && s.optional
      {
        if m in t0.missingOptional {
          var s :| s in specs[..n] && m == MissingEntry(s.key, s.description) && !IsSet(configs, s.key) && s.optional;
          assert s in specs;
        } else {
          assert specs[n] in specs && m == MissingEntry(specs[n].key, specs[n].description);
        }
      }
      forall s | s in specs && !IsSet(configs, s.key) && s.optional
        ensures MissingEntry(s.key, s.description) in t.missingOptional
      {
        if s != specs[n] {
          assert s in specs[..n];
          assert MissingEntry(s.key, s.description) in t0.missingOptional;
        }
      }
    }
  }

  /**
   * A probe result is recorded exactly for the set keys whose method is
   * `brave` or `telegram`, and only outside quick mode; each is that probe's
   * answer for the key's value.
   */
  lemma {:induction false} TallyApiTests(specs: seq<ConfigSpec>, configs: map<string, string>, quickMode: bool,
                                  brave: string -> ApiTest, telegram: string -> ApiTest)
    ensures var t := Tallied(specs, configs, quickMode, brave, telegram);
      forall e :: e in t.apiTests ==>
        exists s :: s in specs && s.key == e.0 && IsSet(configs, s.key) && Probed(s, quickMode)
                    && e.1 == ProbeAnswer(s.testMethod.value, configs[s.key], brave, telegram)
    ensures var t := Tallied(specs, configs, quickMode, brave, telegram);
      forall s :: s in specs && IsSet(configs, s.key) && Probed(s, quickMode) ==>
        (s.key, ProbeAnswer(s.testMethod.value, configs[s.key], brave, telegram)) in t.apiTests
  {
    if specs != [] {
      var n := |specs| - 1;
      TallyApiTests(specs[..n], configs, quickMode, brave, telegram);
      TallyStepAdds(Tallied(specs[..n], configs, quickMode, brave, telegram), specs[n], configs, quickMode, brave, telegram);
      assert specs == specs[..n] + [specs[n]];
      assert forall s :: s in specs <==> s in specs[..n] || s == specs[n];
    }
  }

  /** The tally is healthy exactly when no required key is unset and every Brave probe succeeded. */
  lemma {:induction false} TallyHealthy(specs: seq<ConfigSpec>, configs: map<string, string>, quickMode: bool,
                                  brave: string -> ApiTest, telegram: string -> ApiTest)
    ensures var t := Tallied(specs, configs, quickMode, brave, telegram);
      t.healthy <==>
        forall s :: s in specs ==>
          && (IsSet(configs, s.key) || s.optional)
          && (IsSet(configs, s.key) && !quickMode && s.testMethod == Some("brave") ==> brave(configs[s.key]).success)
  {
    if specs != [] {
      var n := |specs| - 1;
      TallyHealthy(specs[..n], configs, quickMode, brave, telegram);
      TallyStepAdds(Tallied(specs[..n], configs, quickMode, brave, telegram), specs[n], configs, quickMode, brave, telegram);
      assert specs == specs[..n] + [specs[n]];
      assert forall s :: s in specs <==> s in specs[..n] || s == specs[n];
    }
  }

  /** The validation over the merged configuration, with the two probes. */
  function ValidationOf(configs: map<string, string>, quickMode: bool,
                        brave: string -> ApiTest, telegram: string -> ApiTest): ValidationReport
  {
    var t := Tallied(RequiredConfigs, configs, quickMode, brave, telegram);
    ValidationReport("{}", |RequiredConfigs|, t.present, t.missingRequired, t.missingOptional, t.apiTests, t.healthy)
  }

  /**
   * `validate`: merge the sources, then walk the table of known keys. The
   * timestamp field holds the text `{}` (the JSON of an empty object).
   */
  method Validate(ws: Workspace, quickMode: bool, brave: string -> ApiTest, telegram: string -> ApiTest)
    returns (report: ValidationReport)
    ensures report == ValidationOf(MergedConfigs(ws), quickMode, brave, telegram)
  {
    var configs := CheckAllSources(ws);
    report := ValidationReport("{}", |RequiredConfigs|, [], [], [], [], true);
    for i := 0 to |RequiredConfigs|
      invariant var t := Tallied(RequiredConfigs[..i], configs, quickMode, brave, telegram);
        report == ValidationReport("{}", |RequiredConfigs|, t.present, t.missingRequired, t.missingOptional, t.apiTests, t.healthy)
    {
      assert RequiredConfigs[..i + 1][..i] == RequiredConfigs[..i];
      var spec := RequiredConfigs[i];
      var key := spec.key;
      if key in configs && configs[key] != "" {
        report := report.(present := report.present + [key]);
        if !quickMode && spec.testMethod.Some? && spec.testMethod.value != "" {
          if spec.testMethod.value == "brave" {
            var result := brave(configs[key]);
            report := report.(apiTests := report.apiTests + [(key, result)]);
            if !result.success {
              report := report.(healthy := false);
            }
          } else if spec.testMethod.value == "telegram" {
            var result := telegram(configs[key]);
            report := report.(apiTests := report.apiTests + [(key, result)]);
          }
        }
      } else {
        if spec.optional {
          report := report.(missingOptional := report.missingOptional + [MissingEntry(key, spec.description)]);
        } else {
          report := report.(missingRequired := report.missingRequired + [MissingEntry(key, spec.description)]);
          report := report.(healthy := false);
        }
      }
    }
    assert RequiredConfigs[..|RequiredConfigs|] == RequiredConfigs;
  }

  /** In the table, the Brave entry is the only required one and the only one probed with `brave`. */
  lemma BraveEntryIsSpecial(s: ConfigSpec)
    requires s in RequiredConfigs
    ensures !s.optional || s.testMethod == Some("brave") ==> s == RequiredConfigs[0]
    ensures s.testMethod.Some? && s.testMethod.value in {"brave", "telegram"} ==> s.key in {BraveKey, TelegramKey}
  {
  }

  /**
   * For the actual table: the report is healthy exactly when the Brave key is
   * set and, outside quick mode, its probe succeeds.
   */
  lemma ValidationHealth(configs: map<string, string>, quickMode: bool, brave: string -> ApiTest, telegram: string -> ApiTest)
    ensures var r := ValidationOf(configs, quickMode, brave, telegram);
      && r.timestamp == "{}" && r.configsChecked == 5
      && (r.healthy <==> IsSet(configs, BraveKey) && (quickMode || brave(configs[BraveKey]).success))
  {
    TallyHealthy(RequiredConfigs, configs, quickMode, brave, telegram);
    var brave0 := RequiredConfigs[0];
    assert brave0.key == BraveKey && !brave0.optional && brave0.testMethod == Some("brave");
    assert brave0 in RequiredConfigs;
    forall s | s in RequiredConfigs
      ensures s.optional || s == brave0
      ensures s.testMethod == Some("brave") ==> s == brave0
    {
      BraveEntryIsSpecial(s);
    }
    if quickMode {
      QuickModeProbesNothing(RequiredConfigs, configs, brave, telegram);
    }
  }

  /** In quick mode no probe runs. */
  lemma {:induction false} QuickModeProbesNothing(specs: seq<ConfigSpec>, configs: map<string, string>,
                                                  brave: string -> ApiTest, telegram: string -> ApiTest)
    ensures Tallied(specs, configs, true, brave, telegram).apiTests == []
  {
    if specs != [] {
      var n := |specs| - 1;
      QuickModeProbesNothing(specs[..n], configs, brave, telegram);
      TallyStepAdds(Tallied(specs[..n], configs, true, brave, telegram), specs[n], configs, true, brave, telegram);
    }
  }

  /** Only the Brave and Telegram keys are ever probed, and quick mode probes nothing. */
  lemma ValidationProbes(configs: map<string, string>, quickMode: bool, brave: string -> ApiTest, telegram: string -> ApiTest)
    ensures var r := ValidationOf(configs, quickMode, brave, telegram);
      && (forall e :: e in r.apiTests ==> e.0 == BraveKey || e.0 == TelegramKey)
      && (quickMode ==> r.apiTests == [])
  {
    TallyApiTests(RequiredConfigs, configs, quickMode, brave, telegram);
    var r := ValidationOf(configs, quickMode, brave, telegram);
    forall e | e in r.apiTests
      ensures e.0 == BraveKey || e.0 == TelegramKey
    {
      var s :| s in RequiredConfigs && s.key == e.0 && IsSet(configs, s.key) && Probed(s, quickMode)
               && e.1 == ProbeAnswer(s.testMethod.value, configs[s.key], brave, telegram);
      BraveEntryIsSpecial(s);
    }
    if quickMode {
      QuickModeProbesNothing(RequiredConfigs, configs, brave, telegram);
    }
  }

  /** Every known key lands in exactly one of the three lists. */
  lemma EachKeyInOneList(configs: map<string, string>, quickMode: bool, brave: string -> ApiTest, telegram: string -> ApiTest, spec: ConfigSpec)
    requires spec in RequiredConfigs
    ensures var r := ValidationOf(configs, quickMode, brave, telegram);
      && (spec.key in r.present <==> IsSet(configs, spec.key))
      && (MissingEntry(spec.key, spec.description) in r.missingRequired <==> !IsSet(configs, spec.key) && !spec.optional)
      && (MissingEntry(spec.key, spec.description) in r.missingOptional <==> !IsSet(configs, spec.key) && spec.optional)
  {
    TallyPresent(RequiredConfigs, configs, quickMode, brave, telegram);
    TallyMissingRequired(RequiredConfigs, configs, quickMode, brave, telegram);
    TallyMissingOptional(RequiredConfigs, configs, quickMode, brave, telegram);
    forall s | s in RequiredConfigs && s.key == spec.key ensures s == spec {
    }
  }
}
