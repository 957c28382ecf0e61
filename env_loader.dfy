/**
 * The `.env` loader: a line parser over the file's lines, the variables it keeps, the
 * copy of non-empty values it exports to the process environment, a three-level
 * lookup and the check that the required settings are present.
 *
 * The file itself is not read here: its lines are an input (`None` when the file does
 * not exist). The process environment is an object of its own that the loader updates.
 */
module Env {
  import opened Wrappers
  import opened Dicts
  import opened Text

  /** The process environment (`os.environ`). */
  class Environment {
    var vars: map<string, string>

    constructor (vars: map<string, string>)
      ensures this.vars == vars
    {
      this.vars := vars;
    }
  }

  /**
   * Whether the POSIX `os.environ[key] = value` refuses the pair by raising: `OSError`
   * from `setenv` for an empty name, `ValueError` for a NUL character in the name or
   * the value. (A name never holds '=' here, because lines are split at their first '='.)
   */
  predicate Refused(key: string, value: string) {
    key == [] || '\0' in key || '\0' in value
  }

  // ---------------------------------------------------------------------------
  // One line
  // ---------------------------------------------------------------------------

  /** `value[1:-1]` */
  function Inner(value: string): (r: string)
    ensures |value| >= 2 ==> r == value[1..|value| - 1]
    ensures |value| < 2 ==> r == []
  {
    if |value| >= 2 then value[1..|value| - 1] else []
  }

  /** Removes one layer of matching double quotes, or else of matching single quotes. */
  function Unquote(value: string): (r: string)
    ensures StartsWith(value, "\"") && EndsWith(value, "\"") ==> r == Inner(value)
    ensures !(StartsWith(value, "\"") && EndsWith(value, "\"")) && StartsWith(value, "'") && EndsWith(value, "'")
            ==> r == Inner(value)
    ensures !(StartsWith(value, "\"") && EndsWith(value, "\"")) && !(StartsWith(value, "'") && EndsWith(value, "'"))
            ==> r == value
  {
    if StartsWith(value, "\"") && EndsWith(value, "\"") then Inner(value)
    else if StartsWith(value, "'") && EndsWith(value, "'") then Inner(value)
    else value
  }

  /** A line that is blank or a comment once trimmed, or that has no '=', assigns nothing. */
  predicate Assigns(raw: string) {
    var line := Strip(raw);
    line != [] && line[0] != '#' && '=' in line
  }

  /** The (key, value) a line of the file assigns, if any. */
  function ParseLine(raw: string): (r: Option<(string, string)>)
    ensures r.Some? <==> Assigns(raw)
  {
    var line := Strip(raw);
    if line == [] || line[0] == '#' || '=' !in line then None
    else
      var i := FirstIndex(line, '=');
      Some((Strip(line[..i]), Unquote(Strip(line[i + 1..]))))
  }

  /** `m.get(key)` */
  function Lookup(m: map<string, string>, key: string): Option<string> {
    if key in m then Some(m[key]) else None
  }

  /** How `ParseLine` reads a line whose stripped form has its first '=' at `i`. */
  lemma ParseLineAt(raw: string, line: string, i: nat)
    requires Strip(raw) == line && i < |line| && line[i] == '=' && '=' !in line[..i] && line[0] != '#'
    ensures ParseLine(raw) == Some((Strip(line[..i]), Unquote(Strip(line[i + 1..]))))
  {
    FirstIndexAt(line, '=', i);
  }

  /** Neither end of the text is whitespace. */
  predicate Unpadded(s: string) {
    s == [] || (!IsSpace(s[0]) && !IsSpace(s[|s| - 1]))
  }

  /** A stripped line made of a key without '=', then '=', then an unquoted value, parses to that key and value. */
  lemma ParseAssignment(key: string, value: string, line: string)
    requires Unpadded(key) && '=' !in key && Unpadded(value)
    requires |key| < |line| && line[..|key|] == key && line[|key|] == '=' && line[|key| + 1..] == value
    requires Strip(line) == line && line[0] != '#'
    ensures ParseLine(line) == Some((key, Unquote(value)))
  {
    ParseLineAt(line, line, |key|);
    StripUnpadded(key);
    StripUnpadded(value);
  }

  /** The parts of `key + "=" + value`. */
  lemma AssignmentParts(key: string, value: string)
    requires Unpadded(key) && Unpadded(value) && (key == [] || key[0] != '#')
    ensures var line := key + "=" + value;
      && |key| < |line| && line[..|key|] == key && line[|key|] == '=' && line[|key| + 1..] == value
      && Strip(line) == line && line[0] != '#'
  {
    var line := key + "=" + value;
    assert line[..|key|] == key && line[|key| + 1..] == value;
    assert line[0] == (if key == [] then '=' else key[0]);
    assert line[|line| - 1] == (if value == [] then '=' else value[|value| - 1]);
    StripUnpadded(line);
  }

  /**
   * A line is split at its FIRST '=': a key without '=' and a value without quotes
   * around it (which may itself contain '=') read back as written.
   */
  lemma SplitAtFirstEquals(key: string, value: string)
    requires Unpadded(key) && '=' !in key && (key == [] || key[0] != '#')
    requires Unpadded(value)
    requires !(StartsWith(value, "\"") && EndsWith(value, "\""))
    requires !(StartsWith(value, "'") && EndsWith(value, "'"))
    ensures ParseLine(key + "=" + value) == Some((key, value))
  {
    AssignmentParts(key, value);
    ParseAssignment(key, value, key + "=" + value);
  }

  /** Any value written between double quotes reads back exactly, '=' and quotes included. */
  lemma DoubleQuotedValue(key: string, value: string)
    requires Unpadded(key) && '=' !in key && (key == [] || key[0] != '#')
    ensures ParseLine(key + "=\"" + value + "\"") == Some((key, value))
  {
    var quoted := "\"" + value + "\"";
    assert quoted[0] == '"' && quoted[|quoted| - 1] == '"';
    assert StartsWith(quoted, "\"") && EndsWith(quoted, "\"");
    assert quoted[1..|quoted| - 1] == value;
    assert key + "=\"" + value + "\"" == key + "=" + quoted;
    AssignmentParts(key, quoted);
    ParseAssignment(key, quoted, key + "=" + quoted);
  }

  /** A value that is a lone double quote passes both quote tests and becomes empty. */
  lemma LoneQuote(key: string)
    requires Unpadded(key) && '=' !in key && (key == [] || key[0] != '#')
    ensures ParseLine(key + "=" + "\"") == Some((key, ""))
  {
    AssignmentParts(key, "\"");
    ParseAssignment(key, "\"", key + "=" + "\"");
    LoneQuoteUnquoted();
  }

  lemma LoneQuoteUnquoted()
    ensures Unquote("\"") == []
  {
  }

  /** Blank lines, comments and lines without '=' are skipped. */
  lemma SkippedLines(raw: string)
    ensures Strip(raw) == [] ==> ParseLine(raw) == None
    ensures Strip(raw) != [] && Strip(raw)[0] == '#' ==> ParseLine(raw) == None
    ensures '=' !in Strip(raw) ==> ParseLine(raw) == None
  {
  }

  // ---------------------------------------------------------------------------
  // The whole file (`_load_env`)
  // ---------------------------------------------------------------------------

  /** What each line of the file assigns, in file order. */
  function Assignments(lines: seq<string>): (r: seq<Option<(string, string)>>)
    ensures |r| == |lines|
    ensures forall i :: 0 <= i < |lines| ==> r[i] == ParseLine(lines[i])
  {
    seq(|lines|, i requires 0 <= i < |lines| => ParseLine(lines[i]))
  }

  /**
   * What loading has produced so far: the loader's own variables, the process
   * environment, and the key whose export raised, if one did (loading stops there).
   */
  datatype LoadState = LoadState(vars: map<string, string>, environ: map<string, string>, raisedOn: Option<string>)

  /** The effect of one line. The loader's own table takes every value, the environment only non-empty ones. */
  function Step(st: LoadState, assignment: Option<(string, string)>): LoadState {
    if st.raisedOn.Some? then st
    else match assignment
      case None => st
      case Some((key, value)) =>
        var vars := st.vars[key := value];
        if value == [] then LoadState(vars, st.environ, None)
        else if Refused(key, value) then LoadState(vars, st.environ, Some(key))
        else LoadState(vars, st.environ[key := value], None)
  }

  /** The effect of the lines' assignments, in file order. */
  function LoadAll(st: LoadState, assignments: seq<Option<(string, string)>>): LoadState {
    if |assignments| == 0 then st
    else Step(LoadAll(st, assignments[..|assignments| - 1]), assignments[|assignments| - 1])
  }

  /** The value the last assignment to `key` gives it, if there is one. */
  function LastAssignment(assignments: seq<Option<(string, string)>>, key: string): (r: Option<string>)
    ensures r.Some? ==> exists i :: (0 <= i < |assignments| && assignments[i] == Some((key, r.value)) &&
      forall j :: i < j < |assignments| ==> assignments[j].None? || assignments[j].value.0 != key)
    ensures r.None? ==> forall i, v :: 0 <= i < |assignments| ==> assignments[i] != Some((key, v))
  {
    if |assignments| == 0 then None
    else
      var n := |assignments| - 1;
      var init := assignments[..n];
      assert forall i :: 0 <= i < n ==> init[i] == assignments[i];
      match assignments[n]
      case Some((k, v)) => if k == key then Some(v) else LastAssignment(init, key)
      case None => LastAssignment(init, key)
  }

  /** Once an export has raised, the remaining lines change nothing. */
  lemma {:induction false} RaisedStays(st: LoadState, assignments: seq<Option<(string, string)>>)
    requires st.raisedOn.Some?
    ensures LoadAll(st, assignments) == st
  {
    if |assignments| > 0 {
      RaisedStays(st, assignments[..|assignments| - 1]);
    }
  }

  /** Loading lines in two parts is loading them all. */
  lemma {:induction false} LoadAllAppend(st: LoadState, a: seq<Option<(string, string)>>, b: seq<Option<(string, string)>>)
    ensures LoadAll(st, a + b) == LoadAll(LoadAll(st, a), b)
  {
    if |b| == 0 {
      assert a + b == a;
    } else {
      assert (a + b)[..|a + b| - 1] == a + b[..|b| - 1];
      LoadAllAppend(st, a, b[..|b| - 1]);
    }
  }

  /**
   * When loading completes, the last assignment to a key wins; a key nothing assigns
   * keeps whatever it had before.
   */
  lemma {:induction false} LastAssignmentWins(st: LoadState, assignments: seq<Option<(string, string)>>, key: string)
    requires st.raisedOn.None? && LoadAll(st, assignments).raisedOn.None?
    ensures LastAssignment(assignments, key).Some? ==>
      Lookup(LoadAll(st, assignments).vars, key) == Some(LastAssignment(assignments, key).value)
    ensures LastAssignment(assignments, key).None? ==>
      Lookup(LoadAll(st, assignments).vars, key) == Lookup(st.vars, key)
  {
    if |assignments| > 0 {
      var init := assignments[..|assignments| - 1];
      if LoadAll(st, init).raisedOn.None? {
        LastAssignmentWins(st, init, key);
      }
    }
  }

  /**
   * Only non-empty values reach the process environment: every entry that loading
   * changed holds a non-empty value.
   */
  lemma {:induction false} ExportsNonEmpty(st: LoadState, assignments: seq<Option<(string, string)>>)
    ensures forall k :: k in LoadAll(st, assignments).environ ==>
      (k in st.environ && LoadAll(st, assignments).environ[k] == st.environ[k]) || LoadAll(st, assignments).environ[k] != []
  {
    if |assignments| > 0 {
      ExportsNonEmpty(st, assignments[..|assignments| - 1]);
    }
  }

  /** A completed load leaves a key's last value in the process environment when that value is non-empty. */
  lemma {:induction false} LastValueExported(st: LoadState, assignments: seq<Option<(string, string)>>, key: string)
    requires st.raisedOn.None? && LoadAll(st, assignments).raisedOn.None?
    requires LastAssignment(assignments, key).Some? && LastAssignment(assignments, key).value != []
    ensures Lookup(LoadAll(st, assignments).environ, key) == Some(LastAssignment(assignments, key).value)
  {
    var init := assignments[..|assignments| - 1];
    if LoadAll(st, init).raisedOn.None? &&
       (assignments[|assignments| - 1].None? || assignments[|assignments| - 1].value.0 != key) {
      LastValueExported(st, init, key);
    }
  }

  // ---------------------------------------------------------------------------
  // The loader object
  // ---------------------------------------------------------------------------

  const RequiredKeys: seq<string> := ["AZURE_SUBSCRIPTION_ID", "AZURE_RESOURCE_GROUP", "HEALTH_MODEL_NAME"]
  const AzureConfigKeys: seq<string> := ["subscriptionId", "resourceGroup", "healthModelName", "tenantId"]

  class EnvLoader {
    /** The variables read from the file, including empty ones. */
    var envVars: map<string, string>
    /** The process environment the loader reads and writes. */
    const environment: Environment

    /** `__init__` before the file is loaded. */
    constructor (environment: Environment)
      ensures this.environment == environment && envVars == map[]
    {
      this.environment := environment;
      envVars := map[];
    }

    /**
     * `_load_env` over the file's lines (`None` when there is no file, which loads
     * nothing). Returns the key whose export raised, if one did.
     */
    method LoadEnv(lines: Option<seq<string>>) returns (raisedOn: Option<string>)
      modifies this, environment
      ensures lines.None? ==> envVars == old(envVars) && environment.vars == old(environment.vars) && raisedOn.None?
      ensures lines.Some? ==>
        LoadState(envVars, environment.vars, raisedOn)
        == LoadAll(LoadState(old(envVars), old(environment.vars), None), Assignments(lines.value))
    {
      raisedOn := None;
      if lines.None? {
        return;
      }
      raisedOn := Apply(Assignments(lines.value));
    }

    /** The loop of `_load_env`, over what each line assigns. */
    method Apply(assignments: seq<Option<(string, string)>>) returns (raisedOn: Option<string>)
      modifies this, environment
      ensures LoadState(envVars, environment.vars, raisedOn)
        == LoadAll(LoadState(old(envVars), old(environment.vars), None), assignments)
    {
      raisedOn := None;
      ghost var start := LoadState(envVars, environment.vars, None);
      for i := 0 to |assignments|
        invariant raisedOn.None?
        invariant LoadState(envVars, environment.vars, None) == LoadAll(start, assignments[..i])
      {
        assert assignments[..i + 1][..i] == assignments[..i];
        if assignments[i].Some? {
          var (key, value) := assignments[i].value;
          envVars := envVars[key := value];
          if value != [] {
            if Refused(key, value) {
              raisedOn := Some(key);
              RaisedStays(LoadAll(start, assignments[..i + 1]), assignments[i + 1..]);
              LoadAllAppend(start, assignments[..i + 1], assignments[i + 1..]);
              assert assignments[..i + 1] + assignments[i + 1..] == assignments;
              return;
            }
            environment.vars := environment.vars[key := value];
          }
        }
      }
      assert assignments[..|assignments|] == assignments;
    }

    /** `get(key, default)`: the file's value, else the process environment's, else the default. */
    function Get(key: string, default: Option<string>): (r: Option<string>)
      reads this, environment
      ensures key in envVars ==> r == Some(envVars[key])
      ensures key !in envVars && key in environment.vars ==> r == Some(environment.vars[key])
      ensures key !in envVars && key !in environment.vars ==> r == default
    {
      if key in envVars then Some(envVars[key])
      else if key in environment.vars then Some(environment.vars[key])
      else default
    }

    /** `get_azure_config()` */
    function GetAzureConfig(): (r: Dict<string, Option<string>>)
      reads this, environment
      ensures Keys(r) == AzureConfigKeys
      ensures r[0].1 == Get("AZURE_SUBSCRIPTION_ID", None)
      ensures r[1].1 == Get("AZURE_RESOURCE_GROUP", None)
      ensures r[2].1 == Get("HEALTH_MODEL_NAME", None)
      ensures r[3].1 == Get("AZURE_TENANT_ID", Some(""))
      ensures r[3].1.Some?
      ensures "AZURE_TENANT_ID" !in envVars && "AZURE_TENANT_ID" !in environment.vars ==> r[3].1 == Some("")
    {
      [
        ("subscriptionId", Get("AZURE_SUBSCRIPTION_ID", None)),
        ("resourceGroup", Get("AZURE_RESOURCE_GROUP", None)),
        ("healthModelName", Get("HEALTH_MODEL_NAME", None)),
        ("tenantId", Get("AZURE_TENANT_ID", Some("")))
      ]
    }

    /** A required key counts as missing when it looks up to nothing or to the empty string. */
    predicate IsMissing(key: string)
      reads this, environment
    {
      var v := Get(key, None);
      v.None? || v.value == []
    }

    /** `validate()`: the required keys that are missing, in order; valid when there are none. */
    method Validate() returns (valid: bool, missing: seq<string>)
      ensures missing == MissingKeys(this, RequiredKeys)
      ensures valid <==> missing == []
      ensures valid <==> forall k :: k in RequiredKeys ==> !IsMissing(k)
    {
      missing := [];
      for i := 0 to |RequiredKeys|
        invariant missing == MissingKeys(this, RequiredKeys[..i])
      {
        assert RequiredKeys[..i + 1][..i] == RequiredKeys[..i];
        if IsMissing(RequiredKeys[i]) {
          missing := missing + [RequiredKeys[i]];
        }
      }
      assert RequiredKeys[..|RequiredKeys|] == RequiredKeys;
      MissingKeysEmpty(this, RequiredKeys);
      valid := |missing| == 0;
    }
  }

  /** The keys of `keys` that `loader` reports missing, in order. */
  function MissingKeys(loader: EnvLoader, keys: seq<string>): (r: seq<string>)
    reads loader, loader.environment
    ensures forall k :: k in r <==> k in keys && loader.IsMissing(k)
  {
    if |keys| == 0 then []
    else
      var init := keys[..|keys| - 1];
      var k := keys[|keys| - 1];
      assert keys == init + [k];
      MissingKeys(loader, init) + (if loader.IsMissing(k) then [k] else [])
  }

  lemma MissingKeysEmpty(loader: EnvLoader, keys: seq<string>)
    ensures MissingKeys(loader, keys) == [] <==> forall k :: k in keys ==> !loader.IsMissing(k)
  {
    if MissingKeys(loader, keys) != [] {
      assert MissingKeys(loader, keys)[0] in MissingKeys(loader, keys);
    }
  }

  /** A file value wins over the environment even when it is empty: `get` then returns "", not the default. */
  lemma EmptyFileValue(loader: EnvLoader, key: string, default: Option<string>)
    requires key in loader.envVars && loader.envVars[key] == []
    ensures loader.Get(key, default) == Some([])
    ensures loader.IsMissing(key)
  {
  }

  /**
   * `EnvLoader(path)`: a loader over the file's lines; when an export raises, no loader
   * is produced and the error names the key.
   */
  method NewEnvLoader(lines: Option<seq<string>>, environment: Environment) returns (r: Result<EnvLoader, string>)
    modifies environment
    ensures r.Ok? ==> fresh(r.value) && r.value.environment == environment
    ensures r.Ok? ==> lines.Some? ==>
      LoadState(r.value.envVars, environment.vars, None) == LoadAll(LoadState(map[], old(environment.vars), None), Assignments(lines.value))
    ensures r.Ok? && lines.None? ==> r.value.envVars == map[] && environment.vars == old(environment.vars)
    ensures r.Err? ==> (lines.Some? &&
      LoadAll(LoadState(map[], old(environment.vars), None), Assignments(lines.value)).raisedOn == Some(r.error))
    ensures r.Err? ==> (lines.Some? &&
      environment.vars == LoadAll(LoadState(map[], old(environment.vars), None), Assignments(lines.value)).environ)
  {
    var loader := new EnvLoader(environment);
    var raisedOn := loader.LoadEnv(lines);
    if raisedOn.Some? {
      return Err(raisedOn.value);
    }
    return Ok(loader);
  }
}
