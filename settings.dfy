/** `Settings.validate_settings`: the configuration check run before the pipeline starts. The
    process environment (what `load_dotenv` and `os.getenv` read) is a parameter. */
module Settings {
  import opened Wrappers

  /** The environment variables: name to value. */
  type Environment = map<string, string>

  /** The class attributes `Settings` reads from the environment. */
  const EnvironmentAttributes := ["GOOGLE_APPLICATION_CREDENTIALS", "GCS_BUCKET", "BIGQUERY_PROJECT_ID",
                                  "BIGQUERY_DATASET_ID", "BIGQUERY_TABLE_ID"]

  /** The list `validate_settings` checks, as written. */
  const RequiredSettingsAsWritten := ["GOOGLE_APPLICATION_CREDENTIALS", "GCS_BUCKET_RAW", "GCS_BUCKET_PROCESSED",
                                      "BIGQUERY_PROJECT_ID", "BIGQUERY_DATASET_ID", "BIGQUERY_TABLE_ID"]

  /** The list it evidently means: the attributes that exist, the bucket being `GCS_BUCKET`. */
  const RequiredSettings := EnvironmentAttributes

  /** The class's other attributes: the two processing constants and the check itself. */
  const ClassConstants: map<string, int> := map["CHUNK_SIZE" := 10000, "MAX_RETRIES" := 3]
  const ClassAttributes := EnvironmentAttributes + ["CHUNK_SIZE", "MAX_RETRIES", "validate_settings"]

  /** What `getattr` finds on the class: an attribute read from the environment, an integer
      constant, or the class method. */
  datatype AttrValue = EnvValue(setting: Option<string>) | Constant(n: int) | ClassMethod

  /** `getattr(Settings, name)`: the value `os.getenv` gave an environment attribute (`None` when
      the variable is unset), the constant or the method the class defines under that name, or an
      `AttributeError` for any other name. */
  function Attribute(env: Environment, name: string): (r: Result<AttrValue>)
    ensures r.Err? <==> name !in ClassAttributes
    ensures name in EnvironmentAttributes ==>
      r.Ok? && r.value.EnvValue? && (r.value.setting.Some? <==> name in env) &&
      (name in env ==> r.value.setting.value == env[name])
    ensures name in ClassConstants ==> r == Ok(Constant(ClassConstants[name]))
    ensures name == "validate_settings" ==> r == Ok(ClassMethod)
  {
    if name in EnvironmentAttributes then Ok(EnvValue(if name in env then Some(env[name]) else None))
    else if name in ClassConstants then Ok(Constant(ClassConstants[name]))
    else if name == "validate_settings" then Ok(ClassMethod)
    else Err("type object 'Settings' has no attribute '" + name + "'")
  }

  /** Python truthiness of an optional string. */
  predicate IsSet(v: Option<string>) {
    v.Some? && v.value != ""
  }

  /** Python truthiness of an attribute: a set, non-empty string, a non-zero integer, a method. */
  predicate Truthy(a: AttrValue) {
    match a
    case EnvValue(v) => IsSet(v)
    case Constant(n) => n != 0
    case ClassMethod => true
  }

  /** `[setting for setting in names if not getattr(cls, setting)]`, in order; the first lookup
      that raises ends the comprehension. */
  function MissingSettings(env: Environment, names: seq<string>): Result<seq<string>> {
    if names == [] then Ok([])
    else
      match MissingSettings(env, names[..|names| - 1])
      case Err(e) => Err(e)
      case Ok(missing) =>
        var name := names[|names| - 1];
        match Attribute(env, name)
        case Err(e) => Err(e)
        case Ok(v) => Ok(missing + (if Truthy(v) then [] else [name]))
  }

  /** `', '.join(names)`. */
  function Join(names: seq<string>): string {
    if names == [] then ""
    else if |names| == 1 then names[0]
    else names[0] + ", " + Join(names[1..])
  }

  /** The check over a list of names: an `AttributeError`, or a `ValueError` naming every missing
      setting, or success. */
  function CheckSettings(env: Environment, names: seq<string>): Result<()> {
    match MissingSettings(env, names)
    case Err(e) => Err(e)
    case Ok(missing) =>
      if missing != [] then Err("Missing required settings: " + Join(missing)) else Ok(())
  }

  /** `validate_settings()` as written. */
  function ValidateSettingsAsWritten(env: Environment): Result<()> {
    CheckSettings(env, RequiredSettingsAsWritten)
  }

  /** `validate_settings()` as evidently intended. */
  function ValidateSettings(env: Environment): Result<()> {
    CheckSettings(env, RequiredSettings)
  }

  /** Whatever the environment holds, the check as written raises on `GCS_BUCKET_RAW`, the first
      name of its list the class does not define. */
  lemma AsWrittenAlwaysFails(env: Environment)
    ensures ValidateSettingsAsWritten(env) == Err("type object 'Settings' has no attribute 'GCS_BUCKET_RAW'")
  {
    var names := RequiredSettingsAsWritten;
    assert names[..2] == ["GOOGLE_APPLICATION_CREDENTIALS", "GCS_BUCKET_RAW"];
    MissingSettingsFailsSecond(env, "GOOGLE_APPLICATION_CREDENTIALS", "GCS_BUCKET_RAW");
    MissingSettingsErrorSticks(env, names, 2);
  }

  /** A defined name followed by an undefined one: the comprehension raises on the second. */
  lemma MissingSettingsFailsSecond(env: Environment, a: string, b: string)
    requires a in EnvironmentAttributes && b !in ClassAttributes
    ensures MissingSettings(env, [a, b]) == Err("type object 'Settings' has no attribute '" + b + "'")
  {
    assert [a, b][..1] == [a];
    assert [a][..0] == [];
    assert MissingSettings(env, [a]).Ok?;
  }

  lemma {:induction false} MissingSettingsErrorSticks(env: Environment, names: seq<string>, n: nat)
    requires n <= |names| && MissingSettings(env, names[..n]).Err?
    ensures MissingSettings(env, names) == MissingSettings(env, names[..n])
  {
    if n < |names| {
      var init := names[..|names| - 1];
      assert init[..n] == names[..n];
      MissingSettingsErrorSticks(env, init, n);
    } else {
      assert names[..n] == names;
    }
  }

  /** Over the environment attributes, the comprehension never raises and lists exactly the names
      whose variable is unset or empty, in order. */
  lemma {:induction false} MissingSettingsCorrect(env: Environment, names: seq<string>)
    requires forall k :: 0 <= k < |names| ==> names[k] in EnvironmentAttributes
    ensures MissingSettings(env, names).Ok?
    ensures forall n :: n in MissingSettings(env, names).value <==>
      n in names && (n !in env || env[n] == "")
  {
    if names != [] {
      MissingSettingsCorrect(env, names[..|names| - 1]);
      assert forall n :: n in names <==> n in names[..|names| - 1] || n == names[|names| - 1];
    }
  }

  /** Names the class defines as constants or methods are truthy, so never listed as missing. */
  lemma ClassAttributesNeverMissing(env: Environment)
    ensures MissingSettings(env, ["CHUNK_SIZE", "MAX_RETRIES", "validate_settings"]) == Ok([])
  {
    var names := ["CHUNK_SIZE", "MAX_RETRIES", "validate_settings"];
    var none: seq<string> := [];
    var two := names[..2];
    var one := two[..1];
    assert one[..|one| - 1] == none && none + none == none;
    assert MissingSettings(env, one) == Ok(none);
    assert two[..|two| - 1] == one;
    assert MissingSettings(env, two) == Ok(none);
  }

  /** The corrected check passes exactly when every required variable is set and not empty, and
      otherwise names every one that is not. */
  lemma ValidateSettingsOkIff(env: Environment)
    ensures ValidateSettings(env).Ok? <==>
      forall n :: n in RequiredSettings ==> n in env && env[n] != ""
    ensures ValidateSettings(env).Err? ==>
      exists missing :: ValidateSettings(env) == Err("Missing required settings: " + Join(missing)) &&
        forall n :: n in missing <==> n in RequiredSettings && (n !in env || env[n] == "")
  {
    MissingSettingsCorrect(env, RequiredSettings);
    var missing := MissingSettings(env, RequiredSettings).value;
    if missing != [] {
      assert missing[0] in missing;
    }
  }
}
