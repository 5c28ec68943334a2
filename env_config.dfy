/**
 * config/env_config.py: reading settings from the process environment. The
 * environment is passed in as a map from variable names to values.
 */
module EnvConfig {
  import opened Options
  import opened Text

  /** `get_env_variable(var_name, default)`: the stored value when the variable is set, the default otherwise. */
  function GetEnvVariable(env: map<string, string>, name: string, default: Option<string>): (r: Option<string>)
    ensures name in env ==> r == Some(env[name])
    ensures name !in env ==> r == default
  {
    if name in env then Some(env[name]) else default
  }

  /** Python's `str(b)` for a boolean. */
  function BoolText(b: bool): (s: string)
    ensures Lower(s) == if b then "true" else "false"
  {
    if b then "True" else "False"
  }

  /** The lower-cased values `get_bool_env` reads as true. */
  predicate IsTrueWord(s: string)
  {
    s == "true" || s == "1" || s == "yes" || s == "on"
  }

  /**
   * `get_bool_env(var_name, default)`: true exactly when the variable's value,
   * lower-cased, is "true", "1", "yes" or "on"; an unset variable gives the
   * default back, because `str(default).lower()` is "true" or "false".
   */
  function GetBoolEnv(env: map<string, string>, name: string, default: bool): (r: bool)
    ensures name in env ==> (r <==> IsTrueWord(Lower(env[name])))
    ensures name !in env ==> r == default
  {
    IsTrueWord(Lower(GetEnvVariable(env, name, Some(BoolText(default))).value))
  }

  /** Storing `str(b)` in a variable and reading it back as a boolean gives `b`. */
  lemma GetBoolEnvRoundTrip(env: map<string, string>, name: string, b: bool, default: bool)
    ensures GetBoolEnv(env[name := BoolText(b)], name, default) == b
  {
  }

  /** Upper- or mixed-case spellings of the four words count as true. */
  lemma GetBoolEnvTrueExamples(name: string, default: bool)
    ensures GetBoolEnv(map[name := "TRUE"], name, default)
    ensures GetBoolEnv(map[name := "Yes"], name, default)
    ensures GetBoolEnv(map[name := "oN"], name, default)
  {
    assert Lower("TRUE") == "true";
    assert Lower("Yes") == "yes";
    assert Lower("oN") == "on";
  }

  /** Nothing but the four words counts, whatever the default: not "0", not an empty value, not a padded word. */
  lemma GetBoolEnvFalseExamples(name: string, default: bool)
    ensures !GetBoolEnv(map[name := "0"], name, default)
    ensures !GetBoolEnv(map[name := ""], name, default)
    ensures !GetBoolEnv(map[name := " true"], name, default)
    ensures !GetBoolEnv(map[name := "y"], name, default)
  {
    assert Lower("0") == "0";
    assert Lower(" true")[0] == ' ';
    assert Lower("y") == "y";
  }

  /** `[item.strip() for item in parts]`. */
  function StripAll(parts: seq<string>): (r: seq<string>)
    ensures |r| == |parts|
    ensures forall i :: 0 <= i < |parts| ==> r[i] == Strip(parts[i])
  {
    if parts == [] then [] else [Strip(parts[0])] + StripAll(parts[1..])
  }

  /**
   * `get_list_env(var_name, default)`: for a set, non-empty variable, its value
   * split at every comma and each item stripped, with as many items as commas
   * plus one; empty items are kept. For an unset or empty variable the default,
   * where a missing default is the empty list.
   */
  function GetListEnv(env: map<string, string>, name: string, default: Option<seq<string>>): (r: seq<string>)
    ensures (name !in env || env[name] == "") ==> r == default.GetOr([])
    ensures name in env && env[name] != "" ==>
      |r| == Count(env[name], ',') + 1
      && forall i :: 0 <= i < |r| ==> r[i] == Strip(Split(env[name], ',')[i])
  {
    var value := GetEnvVariable(env, name, None);
    if value.Some? && value.value != "" then StripAll(Split(value.value, ',')) else default.GetOr([])
  }

  /** No item holds a comma or begins or ends with whitespace. */
  lemma GetListEnvItems(env: map<string, string>, name: string, default: Option<seq<string>>)
    requires name in env && env[name] != ""
    ensures forall i :: 0 <= i < |GetListEnv(env, name, default)| ==>
      var item := GetListEnv(env, name, default)[i];
      ',' !in item && (item != [] ==> !IsSpace(item[0]) && !IsSpace(item[|item| - 1]))
  {
    var parts := Split(env[name], ',');
    forall i | 0 <= i < |parts| ensures ',' !in Strip(parts[i]) {
      var p := parts[i];
      StripParts(p);
      assert ',' !in p;
    }
  }

  /** When no item has whitespace around it, joining the items with commas gives the value back. */
  lemma GetListEnvJoin(env: map<string, string>, name: string, default: Option<seq<string>>)
    requires name in env && env[name] != ""
    requires forall i :: 0 <= i < |Split(env[name], ',')| ==> Strip(Split(env[name], ',')[i]) == Split(env[name], ',')[i]
    ensures Join(GetListEnv(env, name, default), ',') == env[name]
  {
    var parts := Split(env[name], ',');
    assert StripAll(parts) == parts;
  }

  lemma GetListEnvExamples(name: string)
    ensures GetListEnv(map[], name, None) == []
    ensures GetListEnv(map[name := ""], name, Some(["a"])) == ["a"]
    ensures |GetListEnv(map[name := "a, b,,c"], name, None)| == 4
  {
    assert Count("a, b,,c", ',') == 3;
  }
}
