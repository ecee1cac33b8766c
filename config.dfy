/** The scanner's configuration: built-in defaults, severity lookup, path exclusion and the
    merge of a user configuration file over the defaults. The file's parsed contents are
    passed in as a value; glob matching is a parameter. */
module Config {
  import opened Wrappers
  import opened Text
  import opened RuleIds

  const DefaultSeverity: map<string, string> := map[
    PY001 := "WARN",
    PY002 := "ERROR",
    PY003 := "ERROR",
    PY004 := "ERROR",
    PY005 := "WARN",
    PY006 := "ERROR",
    PY007 := "WARN",
    PY008 := "WARN"]

  const DefaultIgnorePaths: seq<string> := [
    "**/.venv/**", "**/venv/**", "**/.git/**", "**/node_modules/**",
    "**/dist/**", "**/build/**", "**/.eggs/**", "**/.mypy_cache/**",
    "**/__pycache__/**"]

  const DefaultHookNames: seq<string> :=
    ["before_snapshot", "after_restore", "snapstart_before_snapshot", "snapstart_after_restore"]

  const DefaultExitOn := "ERROR"
  const DefaultFormat := "json"

  /** The level a severity map gives a rule: its entry, or "WARN" when it has none. */
  function SeverityOf(severity: map<string, string>, ruleId: string): string {
    if ruleId in severity then severity[ruleId] else "WARN"
  }

  datatype RuleConfig = RuleConfig(
    severity: map<string, string>,
    ignorePaths: seq<string>,
    hookNames: seq<string>,
    exitOn: string,
    outputFormat: string)
  {
    function Sev(ruleId: string): (r: string)
      ensures ruleId in severity ==> r == severity[ruleId]
      ensures ruleId !in severity ==> r == "WARN"
    {
      SeverityOf(severity, ruleId)
    }

    /** Whether `path`, with every backslash turned into a slash, matches one of the
        configured ignore patterns or one of `extraExcludes`. */
    method PathIgnored(path: string, extraExcludes: Option<seq<string>>, matches: (string, string) -> bool)
      returns (ignored: bool)
      ensures ignored <==>
        || (exists k :: 0 <= k < |ignorePaths| && matches(Slashed(path), ignorePaths[k]))
        || (exists k :: 0 <= k < |extraExcludes.GetOr([])| && matches(Slashed(path), extraExcludes.GetOr([])[k]))
    {
      var s := Slashed(path);
      for k := 0 to |ignorePaths|
        invariant forall j :: 0 <= j < k ==> !matches(s, ignorePaths[j])
      {
        if matches(s, ignorePaths[k]) {
          return true;
        }
      }
      var extra := extraExcludes.GetOr([]);
      for k := 0 to |extra|
        invariant forall j :: 0 <= j < k ==> !matches(s, extra[j])
      {
        if matches(s, extra[k]) {
          return true;
        }
      }
      return false;
    }
  }

  /** `str(path).replace("\\", "/")`. */
  function Slashed(path: string): (r: string)
    ensures |r| == |path| && '\\' !in r
    ensures forall i :: 0 <= i < |path| && path[i] == '\\' ==> r[i] == '/'
    ensures forall i :: 0 <= i < |path| && path[i] != '\\' ==> r[i] == path[i]
  {
    seq(|path|, i requires 0 <= i < |path| => if path[i] == '\\' then '/' else path[i])
  }

  /** The configuration used when the project has no configuration file. */
  const DefaultRuleConfig := RuleConfig(DefaultSeverity, DefaultIgnorePaths, DefaultHookNames, DefaultExitOn, DefaultFormat)

  /** The parsed configuration file. A field is `None` when its key is absent or its value
      is null; an empty file parses as all fields `None`. */
  datatype UserConfig = UserConfig(
    severity: Option<map<string, string>>,
    ignorePaths: Option<seq<string>>,
    hookNames: Option<seq<string>>,
    exitOn: Option<string>,
    format: Option<string>)

  /** The configuration for a project whose configuration file is `file` (`None` when there
      is no such file): every present, non-null top-level value replaces its default, the
      user's severity entries are laid over the default ones, and `exit_on` and `format`
      are normalised to upper and lower case. */
  function LoadConfig(file: Option<UserConfig>): (cfg: RuleConfig)
    ensures file.None? ==> cfg == DefaultRuleConfig
    ensures file.Some? ==>
      var data := file.value;
      && (data.ignorePaths.Some? ==> cfg.ignorePaths == data.ignorePaths.value)
      && (data.ignorePaths.None? ==> cfg.ignorePaths == DefaultIgnorePaths)
      && (data.hookNames.Some? ==> cfg.hookNames == data.hookNames.value)
      && (data.hookNames.None? ==> cfg.hookNames == DefaultHookNames)
      && cfg.exitOn == Upper(if data.exitOn.Some? then data.exitOn.value else DefaultExitOn)
      && cfg.outputFormat == Lower(if data.format.Some? then data.format.value else DefaultFormat)
      && cfg.severity.Keys == DefaultSeverity.Keys + data.severity.GetOr(map[]).Keys
      && (forall r :: r in data.severity.GetOr(map[]) ==> cfg.severity[r] == data.severity.GetOr(map[])[r])
      && (forall r :: r in DefaultSeverity && r !in data.severity.GetOr(map[]) ==> cfg.severity[r] == DefaultSeverity[r])
  {
    match file
    case None => DefaultRuleConfig
    case Some(data) =>
      var ignorePaths := if data.ignorePaths.Some? then data.ignorePaths.value else DefaultIgnorePaths;
      var hookNames := if data.hookNames.Some? then data.hookNames.value else DefaultHookNames;
      var exitOn := if data.exitOn.Some? then data.exitOn.value else DefaultExitOn;
      var format := if data.format.Some? then data.format.value else DefaultFormat;
      var severity := DefaultSeverity + data.severity.GetOr(map[]);
      RuleConfig(severity, ignorePaths, hookNames, Upper(exitOn), Lower(format))
  }

  /** The built-in levels: ERROR for the network/process, thread, socket/file and boto3
      rules, WARN for the others. */
  lemma DefaultSeverities()
    ensures forall r :: r in {PY002, PY003, PY004, PY006} ==> DefaultRuleConfig.Sev(r) == "ERROR"
    ensures forall r :: r in {PY001, PY005, PY007, PY008} ==> DefaultRuleConfig.Sev(r) == "WARN"
  {
  }

  /** After loading, every rule id resolves to the user's entry if there is one, otherwise
      to its built-in level; the "WARN" fallback is reached only by ids that are neither
      built in nor configured. */
  lemma LoadedSeverity(file: Option<UserConfig>, ruleId: string)
    ensures var cfg := LoadConfig(file);
      var user := if file.Some? then file.value.severity.GetOr(map[]) else map[];
      cfg.Sev(ruleId) ==
        if ruleId in user then user[ruleId]
        else if ruleId in DefaultSeverity then DefaultSeverity[ruleId]
        else "WARN"
  {
  }
}
