/**
 * Configuration loading (internal/config/config.go): defaults, then the global file, then the
 * project file, then the OPENROUTER_API_KEY environment variable, then the --model flag, each
 * later non-empty value winning; a key still missing at the end is an error. The home
 * directory, the environment variable and reading and YAML-decoding a file are parameters.
 */
module Config {
  import opened Wrappers
  import opened Text
  import opened FilePath

  /** The three settings, as a value: what a layer or a YAML file holds. */
  datatype Settings = Settings(apiKey: string, model: string, baseURL: string)

  /** What reading a config file gives: no file, a read error, or its YAML decoded or refused. */
  datatype FileRead = Missing | ReadFailed(msg: string) | Decoded(settings: Result<Settings>)

  const DefaultModel: string := "moonshotai/kimi-k2"
  const DefaultBaseURL: string := "https://openrouter.ai/api/v1"
  const ProjectPath: string := ".stormtrooper/config.yaml"
  const KeyVariable: string := "OPENROUTER_API_KEY"
  const KeyMissing: string := KeyVariable + " not set. Set it as an environment variable or in ~/.stormtrooper/config.yaml"

  function Defaults(): (d: Settings)
    ensures d.apiKey == "" && d.model != "" && d.baseURL != ""
  {
    Settings("", DefaultModel, DefaultBaseURL)
  }

  /** The three fields, each taken from `file` when it is non-empty there. */
  function Merge(base: Settings, file: Settings): Settings {
    Settings(
      if file.apiKey != "" then file.apiKey else base.apiKey,
      if file.model != "" then file.model else base.model,
      if file.baseURL != "" then file.baseURL else base.baseURL)
  }

  /** mergeFromFile's effect: no file changes nothing, a bad file is an error, a good one is merged. */
  function MergeFile(base: Settings, read: FileRead): Result<Settings> {
    match read
    case Missing => Ok(base)
    case ReadFailed(e) => Err(e)
    case Decoded(Err(e)) => Err("invalid YAML: " + e)
    case Decoded(Ok(file)) => Ok(Merge(base, file))
  }

  /** filepath.Join(home, ".stormtrooper", "config.yaml"). */
  function GlobalPath(home: string): string {
    if home == "" then Clean(ProjectPath) else Clean(home + "/" + ProjectPath)
  }

  /** The settings after every layer, before the key is checked. */
  function Layers(home: Result<string>, read: string -> FileRead, envKey: string, cliModel: string): Result<Settings> {
    var global :=
      if home.Err? then Ok(Defaults())
      else
        match MergeFile(Defaults(), read(GlobalPath(home.value)))
        case Err(e) => Err("global config " + GlobalPath(home.value) + ": " + e)
        case Ok(s) => Ok(s);
    if global.Err? then global
    else
      match MergeFile(global.value, read(ProjectPath))
      case Err(e) => Err("project config " + ProjectPath + ": " + e)
      case Ok(s) =>
        var withKey := if envKey != "" then s.(apiKey := envKey) else s;
        Ok(if cliModel != "" then withKey.(model := cliModel) else withKey)
  }

  /** What Load returns. */
  function Loaded(home: Result<string>, read: string -> FileRead, envKey: string, cliModel: string): Result<Settings> {
    var r := Layers(home, read, envKey, cliModel);
    if r.Ok? && r.value.apiKey == "" then Err(KeyMissing) else r
  }

  /** A Config, whose fields the layers overwrite one by one. */
  class Config {
    var apiKey: string
    var model: string
    var baseURL: string

    function Value(): Settings
      reads this
    {
      Settings(apiKey, model, baseURL)
    }

    /** defaults() */
    constructor ()
      ensures Value() == Defaults()
    {
      apiKey, model, baseURL := "", DefaultModel, DefaultBaseURL;
    }

    /** mergeFromFile: on an error the fields are left as they were. */
    method MergeFromFile(read: FileRead) returns (err: Option<string>)
      modifies this
      ensures var r := MergeFile(old(Value()), read);
        && (r.Ok? ==> err.None? && Value() == r.value)
        && (r.Err? ==> err == Some(r.error) && Value() == old(Value()))
    {
      if read.Missing? {
        return None;
      }
      if read.ReadFailed? {
        return Some(read.msg);
      }
      if read.settings.Err? {
        return Some("invalid YAML: " + read.settings.error);
      }
      var file := read.settings.value;
      if file.apiKey != "" {
        apiKey := file.apiKey;
      }
      if file.model != "" {
        model := file.model;
      }
      if file.baseURL != "" {
        baseURL := file.baseURL;
      }
      return None;
    }
  }

  method Load(cliModel: string, home: Result<string>, read: string -> FileRead, envKey: string) returns (cfg: Config?, err: Option<string>)
    ensures var r := Loaded(home, read, envKey, cliModel);
      && (r.Ok? ==> err.None? && cfg != null && cfg.Value() == r.value)
      && (r.Err? ==> err == Some(r.error) && cfg == null)
  {
    var c := new Config();
    if home.Ok? {
      var globalPath := GlobalPath(home.value);
      var e := c.MergeFromFile(read(globalPath));
      if e.Some? {
        return null, Some("global config " + globalPath + ": " + e.value);
      }
    }
    var e := c.MergeFromFile(read(ProjectPath));
    if e.Some? {
      return null, Some("project config " + ProjectPath + ": " + e.value);
    }
    if envKey != "" {
      c.apiKey := envKey;
    }
    if cliModel != "" {
      c.model := cliModel;
    }
    if c.apiKey == "" {
      return null, Some(KeyMissing);
    }
    return c, None;
  }

  // ---------------------------------------------------------------------------------------
  // What loading promises

  /** Merging is last-non-empty-wins: merging two files in turn is merging their own merge. */
  lemma MergeAssociative(a: Settings, b: Settings, c: Settings)
    ensures Merge(Merge(a, b), c) == Merge(a, Merge(b, c))
  {
  }

  /** A file that sets nothing changes nothing, and merging the same file twice is merging it once. */
  lemma MergeLaws(base: Settings, file: Settings)
    ensures Merge(base, Settings("", "", "")) == base
    ensures Merge(Merge(base, file), file) == Merge(base, file)
  {
  }

  /** A missing file changes nothing and an unreadable or undecodable one is an error. */
  lemma FileOutcomes(base: Settings, read: FileRead)
    ensures read.Missing? ==> MergeFile(base, read) == Ok(base)
    ensures MergeFile(base, read).Err? <==> read.ReadFailed? || (read.Decoded? && read.settings.Err?)
  {
  }

  /** Loading succeeds only with a key, and fails on a missing key with a message naming the variable. */
  lemma KeyRequired(home: Result<string>, read: string -> FileRead, envKey: string, cliModel: string)
    ensures Loaded(home, read, envKey, cliModel).Ok? ==> Loaded(home, read, envKey, cliModel).value.apiKey != ""
    ensures Layers(home, read, envKey, cliModel).Ok? && Layers(home, read, envKey, cliModel).value.apiKey == ""
      ==> Loaded(home, read, envKey, cliModel) == Err(KeyMissing) && Contains(KeyMissing, KeyVariable)
  {
    assert KeyMissing[..|KeyVariable|] == KeyVariable;
    ContainsAt(KeyMissing, KeyVariable, 0);
  }

  /** The environment variable, when set, gives the key and touches nothing else. */
  lemma EnvSetsOnlyKey(home: Result<string>, read: string -> FileRead, envKey: string, cliModel: string)
    requires envKey != ""
    ensures var with, without := Layers(home, read, envKey, cliModel), Layers(home, read, "", cliModel);
      with.Ok? == without.Ok?
      && (with.Ok? ==> with.value == without.value.(apiKey := envKey))
  {
  }

  /** The --model flag, when given, gives the model and touches nothing else. */
  lemma CliSetsOnlyModel(home: Result<string>, read: string -> FileRead, envKey: string, cliModel: string)
    requires cliModel != ""
    ensures var with, without := Layers(home, read, envKey, cliModel), Layers(home, read, envKey, "");
      with.Ok? == without.Ok?
      && (with.Ok? ==> with.value == without.value.(model := cliModel))
  {
  }

  /**
   * With both files present and valid, each setting comes from the last layer that gives it:
   * the layers fold by Merge over the defaults.
   */
  lemma LayerOrder(home: string, read: string -> FileRead, global: Settings, project: Settings, envKey: string, cliModel: string)
    requires read(GlobalPath(home)) == Decoded(Ok(global)) && read(ProjectPath) == Decoded(Ok(project))
    ensures Layers(Ok(home), read, envKey, cliModel)
      == Ok(Merge(Merge(Merge(Merge(Defaults(), global), project), Settings(envKey, "", "")), Settings("", cliModel, "")))
  {
  }

  /** Nothing configured anywhere but the key in the environment: the defaults with that key. */
  lemma OnlyEnvKey(home: Result<string>, read: string -> FileRead, envKey: string)
    requires envKey != "" && forall p :: read(p) == Missing
    ensures Loaded(home, read, envKey, "") == Ok(Settings(envKey, DefaultModel, DefaultBaseURL))
  {
  }

  /** A global file that cannot be read stops loading with an error naming it; the project file is not consulted. */
  lemma GlobalFailureStops(home: string, read: string -> FileRead, other: string -> FileRead, envKey: string, cliModel: string, msg: string)
    requires read(GlobalPath(home)) == ReadFailed(msg) && other(GlobalPath(home)) == ReadFailed(msg)
    ensures Loaded(Ok(home), read, envKey, cliModel) == Loaded(Ok(home), other, envKey, cliModel)
      == Err("global config " + GlobalPath(home) + ": " + msg)
  {
  }
}
