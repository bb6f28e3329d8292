/** IConfigurationExtensions: configuration lookup with defaults and file
    indirection, the Postgres connection-string builder, and the two-stage
    loading of deploy-time settings.

    A built configuration is a map from key to value; the indexer
    configuration[key] is null (None) for an absent key. The file system is a
    map from path to contents: a path absent from it does not exist. */
module IConfigurationExtensions {
  import opened Wrappers
  import Text

  type Configuration = map<string, string>
  type Files = map<string, string>

  datatype ConfigError =
    | FileNotFound(path: string)  // FileNotFoundException
    | InvalidFilePath             // ArgumentException from AddJsonFile("")

  /** configuration[key]. */
  function Get(c: Configuration, key: string): (v: Option<string>)
    ensures v.Some? <==> key in c
    ensures v.Some? ==> v.value == c[key]
  {
    if key in c then Some(c[key]) else None
  }

  /** File.ReadAllText / File.ReadAllTextAsync. */
  function ReadAllText(files: Files, path: string): (r: Result<string, ConfigError>)
    ensures r.Success? <==> path in files
    ensures r.Success? ==> r.value == files[path]
    ensures r.Failure? ==> r.error == FileNotFound(path)
  {
    if path in files then Success(files[path]) else Failure(FileNotFound(path))
  }

  /** GetValueOrDefault<T> for T = string (the only instantiation the
      connection-string builder uses): a blank value gives the default,
      any other value is returned as configured. */
  function GetValueOrDefault(c: Configuration, key: string, defaultValue: Option<string> := None): (r: Option<string>)
    ensures Text.IsBlank(Get(c, key)) ==> r == defaultValue
    ensures !Text.IsBlank(Get(c, key)) ==> key in c && r == Some(c[key]) && !Text.IsBlank(r)
  {
    if Text.IsBlank(Get(c, key)) then defaultValue else Get(c, key)
  }

  /** The string overload GetValueOrDefault(key, defaultValue): a non-blank
      `<key>_FILE` names a file whose contents are the value, and then the
      default is never used; a missing file is an error. */
  function GetStringValueOrDefault(c: Configuration, files: Files, key: string, defaultValue: Option<string> := None)
    : (r: Result<Option<string>, ConfigError>)
    ensures var file := Get(c, key + "_FILE");
      Text.IsBlank(file) ==> r == Success(GetValueOrDefault(c, key, defaultValue))
    ensures var file := Get(c, key + "_FILE");
      !Text.IsBlank(file) ==>
        (file.value in files ==> r == Success(Some(files[file.value]))) &&
        (file.value !in files ==> r == Failure(FileNotFound(file.value)))
  {
    var file := Get(c, key + "_FILE");
    if Text.IsBlank(file) then
      Success(if Text.IsBlank(Get(c, key)) then defaultValue else Get(c, key))
    else if file.value !in files then
      Failure(FileNotFound(file.value))
    else
      Success(Some(files[file.value]))
  }

  const DefaultUser := "postgres"
  const DefaultDatabase := "db"
  const DefaultHost := "localhost"
  const DefaultPort := "5432"

  /** The password the connection string carries: `<prefix>_PASS` when it is
      non-blank, otherwise the contents of the file `<prefix>_PASS_FILE`
      names when that is non-blank, otherwise the blank `<prefix>_PASS`. */
  function Password(c: Configuration, files: Files, prefix: string): Result<Option<string>, ConfigError> {
    var pass := GetValueOrDefault(c, prefix + "_PASS");
    var passFile := GetValueOrDefault(c, prefix + "_PASS_FILE");
    if !Text.IsBlank(pass) || Text.IsBlank(passFile) then Success(pass)
    else
      match ReadAllText(files, passFile.value)
      case Failure(e) => Failure(e)
      case Success(text) => Success(Some(text))
  }

  /** The part of the connection string every configuration has. */
  function Fields(host: Option<string>, port: Option<string>, db: Option<string>, user: Option<string>): string {
    "Host=" + Text.Interpolate(host) + ";Port=" + Text.Interpolate(port) +
    ";Database=" + Text.Interpolate(db) + ";Username=" + Text.Interpolate(user) + ";"
  }

  /** The Password field, present exactly for a non-blank password. */
  function PasswordField(pass: Option<string>): string {
    if Text.IsBlank(pass) then "" else "Password=" + pass.value + ";"
  }

  /** What GetPostgresConnectionString yields: the whole `<prefix>_FILE` file
      when that key is non-blank, otherwise the fields assembled from the
      individual keys, each with its default. */
  function ConnectionString(c: Configuration, files: Files, prefix: string): Result<string, ConfigError> {
    var file := Get(c, prefix + "_FILE");
    if !Text.IsBlank(file) then ReadAllText(files, file.value)
    else
      match Password(c, files, prefix)
      case Failure(e) => Failure(e)
      case Success(pass) =>
        var user := GetValueOrDefault(c, prefix + "_USER", Some(DefaultUser));
        var db := GetValueOrDefault(c, prefix + "_DB", Some(DefaultDatabase));
        var host := GetValueOrDefault(c, prefix + "_HOST", Some(DefaultHost));
        var port := GetValueOrDefault(c, prefix + "_PORT", Some(DefaultPort));
        Success(Fields(host, port, db, user) + PasswordField(pass))
  }

  /** GetPostgresConnectionString, step by step as the source reads its keys. */
  method GetPostgresConnectionString(c: Configuration, files: Files, keyPrefix: string)
    returns (r: Result<string, ConfigError>)
    ensures r == ConnectionString(c, files, keyPrefix)
  {
    var file := Get(c, keyPrefix + "_FILE");
    if !Text.IsBlank(file) {
      return ReadAllText(files, file.value);
    }
    var user := GetValueOrDefault(c, keyPrefix + "_USER", Some(DefaultUser));
    var pass := GetValueOrDefault(c, keyPrefix + "_PASS");
    if Text.IsBlank(pass) {
      var passFile := GetValueOrDefault(c, keyPrefix + "_PASS_FILE");
      if !Text.IsBlank(passFile) {
        var text := ReadAllText(files, passFile.value);
        if text.Failure? {
          return Failure(text.error);
        }
        pass := Some(text.value);
      }
    }
    var db := GetValueOrDefault(c, keyPrefix + "_DB", Some(DefaultDatabase));
    var host := GetValueOrDefault(c, keyPrefix + "_HOST", Some(DefaultHost));
    var port := GetValueOrDefault(c, keyPrefix + "_PORT", Some(DefaultPort));
    if Text.IsBlank(pass) {
      assert Fields(host, port, db, user) + PasswordField(pass) == Fields(host, port, db, user);
      return Success(Fields(host, port, db, user));
    }
    assert Fields(host, port, db, user) + "Password=" + pass.value + ";" == Fields(host, port, db, user) + PasswordField(pass);
    return Success(Fields(host, port, db, user) + "Password=" + pass.value + ";");
  }

  /** Keys that share a prefix differ when their suffixes do. */
  lemma PrefixedKeysDiffer(prefix: string, a: string, b: string)
    requires a != b
    ensures prefix + a != prefix + b
  {
    assert (prefix + a)[|prefix|..] == a;
    assert (prefix + b)[|prefix|..] == b;
  }

  /** A non-blank `<prefix>_FILE` supplies the whole connection string. */
  lemma ConnectionFileWins(c: Configuration, files: Files, prefix: string)
    requires !Text.IsBlank(Get(c, prefix + "_FILE"))
    ensures ConnectionString(c, files, prefix) == ReadAllText(files, c[prefix + "_FILE"])
  {
  }

  /** With none of the prefix's keys configured, every default applies and
      no password is given. */
  lemma ConnectionDefaults(c: Configuration, files: Files, prefix: string)
    requires forall k :: k in c ==> !(|prefix| <= |k| && k[..|prefix|] == prefix)
    ensures ConnectionString(c, files, prefix) == Success("Host=localhost;Port=5432;Database=db;Username=postgres;")
  {
    forall suffix: string | suffix in KeySuffixes ensures Get(c, prefix + suffix) == None {
      assert (prefix + suffix)[..|prefix|] == prefix;
    }
    assert Get(c, prefix + "_FILE") == None;
    assert Get(c, prefix + "_PASS") == None;
    assert Get(c, prefix + "_PASS_FILE") == None;
    assert GetValueOrDefault(c, prefix + "_USER", Some(DefaultUser)) == Some(DefaultUser);
    assert GetValueOrDefault(c, prefix + "_DB", Some(DefaultDatabase)) == Some(DefaultDatabase);
    assert GetValueOrDefault(c, prefix + "_HOST", Some(DefaultHost)) == Some(DefaultHost);
    assert GetValueOrDefault(c, prefix + "_PORT", Some(DefaultPort)) == Some(DefaultPort);
    assert Password(c, files, prefix) == Success(None);
    DefaultFields();
    var fields := Fields(Some(DefaultHost), Some(DefaultPort), Some(DefaultDatabase), Some(DefaultUser));
    assert fields + PasswordField(None) == fields;
  }

  /** The fields as the defaults spell them out. */
  lemma DefaultFields()
    ensures Fields(Some(DefaultHost), Some(DefaultPort), Some(DefaultDatabase), Some(DefaultUser))
      == "Host=localhost;Port=5432;Database=db;Username=postgres;"
  {
    assert "Host=" + "localhost" == "Host=localhost";
    assert "Host=localhost" + ";Port=" == "Host=localhost;Port=";
    assert "Host=localhost;Port=" + "5432" == "Host=localhost;Port=5432";
    assert "Host=localhost;Port=5432" + ";Database=" == "Host=localhost;Port=5432;Database=";
    assert "Host=localhost;Port=5432;Database=" + "db" == "Host=localhost;Port=5432;Database=db";
    assert "Host=localhost;Port=5432;Database=db" + ";Username=" == "Host=localhost;Port=5432;Database=db;Username=";
    assert "Host=localhost;Port=5432;Database=db;Username=" + "postgres" == "Host=localhost;Port=5432;Database=db;Username=postgres";
    assert "Host=localhost;Port=5432;Database=db;Username=postgres" + ";" == "Host=localhost;Port=5432;Database=db;Username=postgres;";
  }

  /** The suffixes of every key GetPostgresConnectionString reads. */
  const KeySuffixes := ["_FILE", "_PASS", "_PASS_FILE", "_USER", "_DB", "_HOST", "_PORT"]

  /** Changing a key outside KeySuffixes leaves the connection string as it
      was. */
  lemma OtherKeysIgnored(c: Configuration, files: Files, prefix: string, suffix: string, v: string)
    requires suffix !in KeySuffixes
    ensures ConnectionString(c[prefix + suffix := v], files, prefix) == ConnectionString(c, files, prefix)
  {
    var c' := c[prefix + suffix := v];
    forall u | u in KeySuffixes ensures Get(c', prefix + u) == Get(c, prefix + u) {
      PrefixedKeysDiffer(prefix, u, suffix);
    }
  }

  /** The user, database, host and port keys are read through the generic
      overload: a `<prefix>_USER_FILE` (and likewise for the others) is never
      consulted. */
  lemma NoFileIndirectionForFields(c: Configuration, files: Files, prefix: string, field: string, v: string)
    requires field in {"_USER", "_DB", "_HOST", "_PORT"}
    ensures ConnectionString(c[prefix + field + "_FILE" := v], files, prefix) == ConnectionString(c, files, prefix)
  {
    assert prefix + field + "_FILE" == prefix + (field + "_FILE");
    assert field + "_FILE" !in KeySuffixes by {
      if field == "_USER" { assert field + "_FILE" == "_USER_FILE"; }
      else if field == "_DB" { assert field + "_FILE" == "_DB_FILE"; }
      else if field == "_HOST" { assert field + "_FILE" == "_HOST_FILE"; }
      else { assert field + "_FILE" == "_PORT_FILE"; }
    }
    OtherKeysIgnored(c, files, prefix, field + "_FILE", v);
  }

  /** A non-blank `<prefix>_PASS` wins: `<prefix>_PASS_FILE` is then not read,
      whatever it holds and whether or not its file exists. */
  lemma PassBeforePassFile(c: Configuration, files: Files, files': Files, prefix: string, v: string)
    requires Text.IsBlank(Get(c, prefix + "_FILE"))
    requires !Text.IsBlank(Get(c, prefix + "_PASS"))
    ensures Password(c, files, prefix) == Success(Get(c, prefix + "_PASS"))
    ensures ConnectionString(c[prefix + "_PASS_FILE" := v], files', prefix) == ConnectionString(c, files, prefix)
  {
    var c' := c[prefix + "_PASS_FILE" := v];
    forall u | u in KeySuffixes && u != "_PASS_FILE" ensures Get(c', prefix + u) == Get(c, prefix + u) {
      PrefixedKeysDiffer(prefix, u, "_PASS_FILE");
    }
  }

  /** With `<prefix>_FILE` blank the connection string is the four fields,
      followed by a Password field exactly when the password is non-blank. */
  lemma ConnectionStringShape(c: Configuration, files: Files, prefix: string)
    requires Text.IsBlank(Get(c, prefix + "_FILE"))
    requires Password(c, files, prefix).Success?
    ensures var pass := Password(c, files, prefix).value;
      var fields := Fields(
        GetValueOrDefault(c, prefix + "_HOST", Some(DefaultHost)),
        GetValueOrDefault(c, prefix + "_PORT", Some(DefaultPort)),
        GetValueOrDefault(c, prefix + "_DB", Some(DefaultDatabase)),
        GetValueOrDefault(c, prefix + "_USER", Some(DefaultUser)));
      ConnectionString(c, files, prefix) ==
        if Text.IsBlank(pass) then Success(fields) else Success(fields + "Password=" + pass.value + ";")
  {
    var pass := Password(c, files, prefix).value;
    var fields := Fields(
      GetValueOrDefault(c, prefix + "_HOST", Some(DefaultHost)),
      GetValueOrDefault(c, prefix + "_PORT", Some(DefaultPort)),
      GetValueOrDefault(c, prefix + "_DB", Some(DefaultDatabase)),
      GetValueOrDefault(c, prefix + "_USER", Some(DefaultUser)));
    if Text.IsBlank(pass) {
      assert fields + PasswordField(pass) == fields;
    } else {
      assert fields + PasswordField(pass) == fields + "Password=" + pass.value + ";";
    }
  }

  // ---------------------------------------------------------------------
  // Deploy-time settings

  /** A configuration source: in-memory pairs (standing for environment
      variables, command line and the like) or a JSON file. */
  datatype Source =
    | Memory(values: Configuration)
    | JsonFile(path: string, optional: bool, reloadOnChange: bool)

  /** The JSON files on disk, each already read as its key/value pairs. */
  type JsonFiles = map<string, Configuration>

  /** The pairs one source contributes; a missing optional file contributes
      none, a missing required one fails the build. */
  function Load(s: Source, files: JsonFiles): (r: Result<Configuration, ConfigError>)
    ensures s.JsonFile? && s.path !in files && !s.optional <==> r.Failure?
  {
    match s
    case Memory(values) => Success(values)
    case JsonFile(path, optional, _) =>
      if path in files then Success(files[path])
      else if optional then Success(map[])
      else Failure(FileNotFound(path))
  }

  /** IConfigurationBuilder.Build: sources load in order, and a later source
      overrides the keys of an earlier one. */
  function Merge(sources: seq<Source>, files: JsonFiles): Result<Configuration, ConfigError> {
    if sources == [] then Success(map[])
    else
      match Merge(sources[..|sources| - 1], files)
      case Failure(e) => Failure(e)
      case Success(before) =>
        match Load(sources[|sources| - 1], files)
        case Failure(e) => Failure(e)
        case Success(pairs) => Success(before + pairs)
  }

  /** Appending a source merges its pairs over those already built. */
  lemma MergeAppend(sources: seq<Source>, s: Source, files: JsonFiles)
    ensures Merge(sources + [s], files) ==
      match Merge(sources, files)
      case Failure(e) => Failure(e)
      case Success(before) =>
        match Load(s, files)
        case Failure(e) => Failure(e)
        case Success(pairs) => Success(before + pairs)
  {
    assert (sources + [s])[..|sources|] == sources;
  }

  class ConfigurationBuilder {
    var sources: seq<Source>

    constructor (sources: seq<Source>)
      ensures this.sources == sources
    {
      this.sources := sources;
    }

    /** AddJsonFile(path, optional, reloadOnChange): registers the file as a
        further source; an empty path is refused. */
    method AddJsonFile(path: string, optional: bool, reloadOnChange: bool) returns (r: Result<(), ConfigError>)
      modifies this
      ensures path == "" ==> r == Failure(InvalidFilePath) && sources == old(sources)
      ensures path != "" ==> r.Success? && sources == old(sources) + [JsonFile(path, optional, reloadOnChange)]
    {
      if path == "" {
        return Failure(InvalidFilePath);
      }
      sources := sources + [JsonFile(path, optional, reloadOnChange)];
      return Success(());
    }

    function Build(files: JsonFiles): Result<Configuration, ConfigError>
      reads this
    {
      Merge(sources, files)
    }
  }

  const DeployTimeSettingsKey := "deploy-time-settings"
  const DefaultDeployTimeSettings := "/var/app/config/appsettings.json"
  const EnvVarPrefixKey := "env-var-prefix"
  const DefaultEnvVarPrefix := "ANYWAYS_"

  /** GetDeployTimeSettings: reads the deploy-time settings path from what is
      configured so far (or its default), adds that file as an optional
      source, and reads the environment-variable prefix from the result, so
      that the deploy-time file can set it. The `??` defaults apply to an
      absent key only: a key configured as "" keeps "". */
  method GetDeployTimeSettings(builder: ConfigurationBuilder, files: JsonFiles)
    returns (r: Result<(string, string), ConfigError>)
    modifies builder
    ensures old(builder.Build(files)).Failure? ==>
      r == Failure(old(builder.Build(files)).error) && builder.sources == old(builder.sources)
    ensures old(builder.Build(files)).Success? ==>
      var path := Get(old(builder.Build(files)).value, DeployTimeSettingsKey).GetOr(DefaultDeployTimeSettings);
      if path == "" then
        r == Failure(InvalidFilePath) && builder.sources == old(builder.sources)
      else
        builder.sources == old(builder.sources) + [JsonFile(path, true, true)] &&
        builder.Build(files).Success? &&
        r == Success((path, Get(builder.Build(files).value, EnvVarPrefixKey).GetOr(DefaultEnvVarPrefix)))
  {
    var configuration := builder.Build(files);
    if configuration.Failure? {
      return Failure(configuration.error);
    }
    var deployTimeSettings := Get(configuration.value, DeployTimeSettingsKey).GetOr(DefaultDeployTimeSettings);
    var added := builder.AddJsonFile(deployTimeSettings, true, true);
    if added.Failure? {
      return Failure(added.error);
    }
    MergeAppend(old(builder.sources), JsonFile(deployTimeSettings, true, true), files);
    configuration := builder.Build(files);
    var envVarPrefix := Get(configuration.value, EnvVarPrefixKey).GetOr(DefaultEnvVarPrefix);
    return Success((deployTimeSettings, envVarPrefix));
  }

  /** An env-var-prefix set in the deploy-time file overrides the one
      configured before it; without that file, the earlier sources decide. */
  lemma DeployTimeFileDecidesPrefix(sources: seq<Source>, path: string, files: JsonFiles)
    requires Merge(sources, files).Success?
    ensures var after := Merge(sources + [JsonFile(path, true, true)], files);
      after.Success? &&
      (path in files && EnvVarPrefixKey in files[path] ==>
        Get(after.value, EnvVarPrefixKey) == Some(files[path][EnvVarPrefixKey])) &&
      (path !in files ==> after == Merge(sources, files))
  {
    MergeAppend(sources, JsonFile(path, true, true), files);
    assert Merge(sources, files).value + map[] == Merge(sources, files).value;
  }

  /** With nothing configured, the deploy-time file is looked for at its
      default path and, when that file does not set it, the prefix is
      ANYWAYS_. */
  lemma DeployTimeDefaults(files: JsonFiles)
    requires DefaultDeployTimeSettings !in files
    ensures Get(Merge([], files).value, DeployTimeSettingsKey).GetOr(DefaultDeployTimeSettings)
      == "/var/app/config/appsettings.json"
    ensures Merge([JsonFile(DefaultDeployTimeSettings, true, true)], files) == Success(map[])
  {
    MergeAppend([], JsonFile(DefaultDeployTimeSettings, true, true), files);
  }
}
