/**
 * `ConfigLoader` (config/config_loader.py) after the YAML is parsed: the
 * `${VAR:-default}` / `${VAR}` references in the cloud settings replaced by
 * the environment's values, and the fallback sections `get_test_settings`
 * and `get_mock_settings` return. The environment is a parameter.
 */
module ConfigLoading {
  import opened Common
  import opened Strings
  import opened Json

  /** The process environment, as `os.getenv` reads it. */
  type Env = map<string, string>

  const Separator: string := ":-"

  /** `os.getenv(name, default)`: a variable that is set wins, even when it is empty. */
  function GetEnv(env: Env, name: string, default: string): string {
    if name in env then env[name] else default
  }

  /** `value.startswith('${') and value.endswith('}')`. */
  predicate IsReference(s: string) {
    StartsWith(s, "${") && EndsWith(s, "}")
  }

  /** A reference is at least `${}` long, so `value[2:-1]` is a proper slice. */
  lemma ReferenceLength(s: string)
    requires IsReference(s)
    ensures |s| >= 3
  {
    assert s[..2][1] == '{';
    assert s[|s| - 1..][0] == '}';
  }

  /** `value[2:-1]`: the text between `${` and `}`. */
  function Inner(s: string): string
    requires IsReference(s)
  {
    ReferenceLength(s);
    s[2..|s| - 1]
  }

  /** One setting after expansion. */
  function ExpandValue(v: Value, env: Env): Value {
    if v.Str? && IsReference(v.s) then
      var expr := Inner(v.s);
      match Find(expr, Separator)
        case Some(j) => Str(GetEnv(env, expr[..j], expr[j + 2..]))
        case None => Str(GetEnv(env, expr, v.s))
    else v
  }

  /**
   * Expansion: anything but a `${...}` string stays as it is. In
   * `${VAR:-default}` the name ends at the first `:-`, and the variable's
   * value wins over the default whenever it is set, even to the empty string;
   * `${VAR}` falls back to the reference itself.
   */
  lemma ExpandValueSpec(v: Value, env: Env)
    ensures !v.Str? || !IsReference(v.s) ==> ExpandValue(v, env) == v
    ensures v.Str? && IsReference(v.s) && Find(Inner(v.s), Separator).Some? ==>
      var expr := Inner(v.s);
      var j := Find(expr, Separator).value;
      var name, default := expr[..j], expr[j + 2..];
      expr == name + Separator + default && !Contains(name, Separator) &&
      ExpandValue(v, env) == Str(if name in env then env[name] else default)
    ensures v.Str? && IsReference(v.s) && !Contains(Inner(v.s), Separator) ==>
      ExpandValue(v, env) == Str(if Inner(v.s) in env then env[Inner(v.s)] else v.s)
  {
    if v.Str? && IsReference(v.s) && Find(Inner(v.s), Separator).Some? {
      var expr := Inner(v.s);
      var j := Find(expr, Separator).value;
      FirstOccurrence(expr, Separator, j);
      assert expr[j..j + 2] == Separator;
      assert expr == expr[..j] + expr[j..j + 2] + expr[j + 2..];
    }
  }

  /** Nothing before the first occurrence of `pat` contains `pat`. */
  lemma FirstOccurrence(s: string, pat: string, j: nat)
    requires |pat| > 0 && Find(s, pat) == Some(j)
    ensures !Contains(s[..j], pat)
  {
    var r := FindFrom(s[..j], pat, 0);
    if r.Some? {
      var k := r.value;
      assert s[..j][k..k + |pat|] == s[k..k + |pat|];
      assert k < j && OccursAt(s, pat, k);
    }
  }

  /** One cloud's settings after the inner loop: the same keys, each value expanded. */
  function ExpandSettings(settings: Dict, env: Env): (r: Dict)
    ensures |r| == |settings|
  {
    seq(|settings|, i requires 0 <= i < |settings| => Entry(settings[i].key, ExpandValue(settings[i].val, env)))
  }

  /** One `(cloud, settings)` item; `settings.items()` on something that is not a dict raises. */
  function ExpandCloud(e: Entry, env: Env): Result<Entry, ()> {
    if e.val.Obj? then Ok(Entry(e.key, Obj(ExpandSettings(e.val.entries, env)))) else Err(())
  }

  /** The `clouds` section after the outer loop. */
  function ExpandClouds(clouds: Dict, env: Env): Result<Dict, ()> {
    Traverse(clouds, e => ExpandCloud(e, env))
  }

  /**
   * `load_database_config()` after `yaml.safe_load`: the `clouds` section
   * expanded in place, everything else as parsed. A document that is not a
   * mapping, or a `clouds` entry that is not one, raises.
   */
  function LoadDatabaseConfig(config: Value, env: Env): (r: Result<Value, ()>)
    ensures r.Ok? ==> r.value.Obj?
  {
    if !config.Obj? then Err(())
    else match Get(config.entries, "clouds")
      case None => Ok(config)
      case Some(section) =>
        if !section.Obj? then Err(())
        else match ExpandClouds(section.entries, env)
          case Err(_) => Err(())
          case Ok(cs) => Ok(Obj(Set(config.entries, "clouds", Obj(cs))))
  }

  /**
   * Loading keeps the document's keys in order and leaves every section but
   * `clouds` untouched; it raises exactly for a document that is not a
   * mapping, a `clouds` that is not one, or a cloud whose settings are not.
   */
  lemma LoadDatabaseConfigSections(config: Value, env: Env, k: string)
    ensures LoadDatabaseConfig(config, env).Err? <==>
      !config.Obj? ||
      (HasKey(config.entries, "clouds") &&
       (!Get(config.entries, "clouds").value.Obj? ||
        exists i :: 0 <= i < |Get(config.entries, "clouds").value.entries| &&
          !Get(config.entries, "clouds").value.entries[i].val.Obj?))
    ensures LoadDatabaseConfig(config, env).Ok? ==>
      var c := LoadDatabaseConfig(config, env).value.entries;
      Keys(c) == Keys(config.entries) &&
      (k != "clouds" ==> Get(c, k) == Get(config.entries, k))
  {
    if config.Obj? && HasKey(config.entries, "clouds") {
      var section := Get(config.entries, "clouds").value;
      if section.Obj? {
        TraverseSpec(section.entries, e => ExpandCloud(e, env));
        if ExpandClouds(section.entries, env).Ok? {
          GetSet(config.entries, "clouds", Obj(ExpandClouds(section.entries, env).value), k);
        }
      }
    }
  }

  /**
   * Inside `clouds`, every cloud keeps its name and place, and its settings
   * keep their keys in order with each value expanded.
   */
  lemma LoadDatabaseConfigClouds(config: Value, env: Env)
    requires LoadDatabaseConfig(config, env).Ok? && config.Obj? && HasKey(config.entries, "clouds")
    ensures var before := Get(config.entries, "clouds").value;
      var after := Get(LoadDatabaseConfig(config, env).value.entries, "clouds").value;
      before.Obj? && after.Obj? && |after.entries| == |before.entries| &&
      forall i :: 0 <= i < |before.entries| ==>
        before.entries[i].val.Obj? &&
        after.entries[i] == Entry(before.entries[i].key, Obj(ExpandSettings(before.entries[i].val.entries, env)))
  {
    var section := Get(config.entries, "clouds").value;
    TraverseSpec(section.entries, e => ExpandCloud(e, env));
    GetSet(config.entries, "clouds", Obj(ExpandClouds(section.entries, env).value), "clouds");
  }

  /** `load_database_config()`: the loop over the clouds, each running the loop over its settings. */
  method ExpandEnvironment(config: Value, env: Env) returns (r: Result<Value, ()>)
    ensures r == LoadDatabaseConfig(config, env)
  {
    if !config.Obj? {
      return Err(());
    }
    var section := Get(config.entries, "clouds");
    if section.None? {
      return Ok(config);
    }
    if !section.value.Obj? {
      return Err(());
    }
    var clouds := section.value.entries;
    var f := e => ExpandCloud(e, env);
    var cs: Dict := [];
    var i := 0;
    while i < |clouds|
      invariant i <= |clouds|
      invariant Traverse(clouds[..i], f) == Ok(cs)
      decreases |clouds| - i
    {
      TraverseStep(clouds, f, i);
      var settings := clouds[i].val;
      if !settings.Obj? {
        TraverseFirstError(clouds, f, i);
        return Err(());
      }
      var expanded := ExpandSettingsInPlace(settings.entries, env);
      cs := cs + [Entry(clouds[i].key, Obj(expanded))];
      i := i + 1;
    }
    assert clouds[..i] == clouds;
    r := Ok(Obj(Set(config.entries, "clouds", Obj(cs))));
  }

  /** `for key, value in settings.items(): settings[key] = ...` on one cloud's settings. */
  method ExpandSettingsInPlace(settings: Dict, env: Env) returns (out: Dict)
    ensures out == ExpandSettings(settings, env)
  {
    out := settings;
    var i := 0;
    while i < |settings|
      invariant i <= |settings| && |out| == |settings|
      invariant forall k :: 0 <= k < i ==> out[k] == Entry(settings[k].key, ExpandValue(settings[k].val, env))
      invariant forall k :: i <= k < |settings| ==> out[k] == settings[k]
      decreases |settings| - i
    {
      var value := settings[i].val;
      if value.Str? && IsReference(value.s) {
        out := out[i := Entry(settings[i].key, ExpandValue(value, env))];
      }
      i := i + 1;
    }
    assert out == ExpandSettings(settings, env);
  }

  // ---------------------------------------------------------------------------
  // Sections with defaults

  const DefaultTestSettings: Value := Obj([
    Entry("chunk_size", Int(10)),
    Entry("max_concurrent_connections", Int(5)),
    Entry("retry_attempts", Int(3)),
    Entry("retry_delay", Float("1.0", 1.0))])

  const DefaultLatencyRanges: Value := Obj([
    Entry("gcp", List([Float("0.05", 0.05), Float("0.15", 0.15)])),
    Entry("azure", List([Float("0.08", 0.08), Float("0.18", 0.18)])),
    Entry("aws", List([Float("0.06", 0.06), Float("0.16", 0.16)]))])

  const DefaultMockSettings: Value := Obj([
    Entry("enabled", Bool(true)),
    Entry("simulate_latency", Bool(true)),
    Entry("latency_ranges", DefaultLatencyRanges)])

  /** `get_test_settings()`: the `test_settings` section, or the defaults without one. */
  function GetTestSettings(config: Value, env: Env): Result<Value, ()> {
    match LoadDatabaseConfig(config, env)
      case Err(_) => Err(())
      case Ok(c) => Ok(GetOr(c.entries, "test_settings", DefaultTestSettings))
  }

  /** `get_mock_settings()`: the `mock_mode` section, or the defaults without one. */
  function GetMockSettings(config: Value, env: Env): Result<Value, ()> {
    match LoadDatabaseConfig(config, env)
      case Err(_) => Err(())
      case Ok(c) => Ok(GetOr(c.entries, "mock_mode", DefaultMockSettings))
  }

  /**
   * Both sections come back exactly as written, unexpanded, when the document
   * has them, and as the literal defaults when it does not.
   */
  lemma SettingsSections(config: Value, env: Env)
    requires config.Obj? && LoadDatabaseConfig(config, env).Ok?
    ensures GetTestSettings(config, env) == Ok(GetOr(config.entries, "test_settings", DefaultTestSettings))
    ensures GetMockSettings(config, env) == Ok(GetOr(config.entries, "mock_mode", DefaultMockSettings))
    ensures !HasKey(config.entries, "test_settings") ==> GetTestSettings(config, env) == Ok(DefaultTestSettings)
    ensures !HasKey(config.entries, "mock_mode") ==> GetMockSettings(config, env) == Ok(DefaultMockSettings)
  {
    LoadDatabaseConfigSections(config, env, "test_settings");
    LoadDatabaseConfigSections(config, env, "mock_mode");
  }

  /** The test defaults: chunks of 10, 5 connections, 3 retries 1.0 seconds apart. */
  lemma DefaultTestSettingsValues()
    ensures var d := DefaultTestSettings.entries;
      Get(d, "chunk_size") == Some(Int(10)) &&
      Get(d, "max_concurrent_connections") == Some(Int(5)) &&
      Get(d, "retry_attempts") == Some(Int(3)) &&
      Get(d, "retry_delay") == Some(Float("1.0", 1.0))
  {
    var d := DefaultTestSettings.entries;
    GetAt(d, 0, "chunk_size");
    GetAt(d, 1, "max_concurrent_connections");
    GetAt(d, 2, "retry_attempts");
    GetAt(d, 3, "retry_delay");
  }

  /** The mock defaults: mock mode on, with simulated latency and built-in latency ranges. */
  lemma DefaultMockSettingsValues()
    ensures var d := DefaultMockSettings.entries;
      Get(d, "enabled") == Some(Bool(true)) &&
      Get(d, "simulate_latency") == Some(Bool(true)) &&
      Get(d, "latency_ranges") == Some(DefaultLatencyRanges)
  {
    var d := DefaultMockSettings.entries;
    GetAt(d, 0, "enabled");
    GetAt(d, 1, "simulate_latency");
    GetAt(d, 2, "latency_ranges");
  }
}
