/** Locating and loading the YAML configuration file of the selected environment. */
module Yaml {
  import opened Wrappers
  import opened Text
  import opened CmdArgs

  const YamlDevPath: string := "config.dev.yml"
  const YamlStagingPath: string := "config.staging.yml"
  const YamlProdPath: string := "config.yml"

  /** The environment-to-file table. */
  const EnvYamlMapping: map<string, string> :=
    map[EnvDev := YamlDevPath, EnvStaging := YamlStagingPath, EnvProd := YamlProdPath]

  /** The `application` section of the document. */
  datatype ApplicationSection = ApplicationSection(port: int)

  /** The `database` section of the document. */
  datatype DatabaseSection = DatabaseSection(
    user: string,
    password: string,
    name: string,
    host: string,
    port: int,
    client: string,
    sslCertPath: string,
    sslKeyPath: string,
    rootCertPath: string)

  /** The decoded document. */
  datatype YamlConfig = YamlConfig(application: ApplicationSection, database: DatabaseSection)

  /** Go's zero `YamlConfig{}`: every number 0, every string empty. */
  const ZeroYamlConfig: YamlConfig :=
    YamlConfig(ApplicationSection(0), DatabaseSection("", "", "", "", 0, "", "", "", ""))

  /** The path looked up for an environment; an environment missing from the table gets `""`. */
  function YamlPath(env: string): (path: string)
    ensures env == EnvDev ==> path == "config.dev.yml"
    ensures env == EnvStaging ==> path == "config.staging.yml"
    ensures env == EnvProd ==> path == "config.yml"
    ensures path == "" <==> env !in {EnvDev, EnvStaging, EnvProd}
  {
    LookupOrEmpty(EnvYamlMapping, env)
  }

  /** What `ReadYaml` hands back: the decoded config and `None` (nil), or the zero config and the error. */
  datatype ReadOutcome<E> = ReadOutcome(config: YamlConfig, err: Option<E>)

  /**
   * `ReadYaml`. Opening a file and decoding an opened file are outside the model, so they are
   * parameters: `open(path)` is what opening `path` yields (a handle of type `F` or an error), and
   * `decode(f)` is what decoding the opened handle yields. Errors are passed through unchanged.
   */
  function ReadYaml<F, E>(cmdArgs: CmdArgsConfig, open: string -> Result<F, E>, decode: F -> Result<YamlConfig, E>)
    : (r: ReadOutcome<E>)
    ensures r.err.Some? ==> r.config == ZeroYamlConfig
    ensures open(YamlPath(cmdArgs.environment)).Failure? ==>
              r.err == Some(open(YamlPath(cmdArgs.environment)).error)
    ensures open(YamlPath(cmdArgs.environment)).Success? ==>
              var f := open(YamlPath(cmdArgs.environment)).value;
              (decode(f).Failure? ==> r.err == Some(decode(f).error)) &&
              (decode(f).Success? ==> r == ReadOutcome(decode(f).value, None))
  {
    var yamlPath := YamlPath(cmdArgs.environment);
    match open(yamlPath)
    case Failure(e) => ReadOutcome(ZeroYamlConfig, Some(e))
    case Success(f) =>
      match decode(f)
      case Failure(e) => ReadOutcome(ZeroYamlConfig, Some(e))
      case Success(config) => ReadOutcome(config, None)
  }

  /** The three paths are pairwise distinct, so no two environments share a file. */
  lemma YamlPathInjective(e1: string, e2: string)
    requires e1 in EnvYamlMapping && e2 in EnvYamlMapping
    requires YamlPath(e1) == YamlPath(e2)
    ensures e1 == e2
  {
  }

  /** Every raw `-env` value that normalisation does not recognise leads to the path `""`. */
  lemma UnrecognisedEnvHasEmptyPath(raw: string)
    requires raw !in {"dev", "development", "staging", "prod", "production"}
    ensures YamlPath(NormaliseEnv(raw)) == ""
  {
  }

  /** A failed open ends the read: whatever decoding would do has no effect on the outcome. */
  lemma OpenFailureSkipsDecode<F, E>(
    cmdArgs: CmdArgsConfig, open: string -> Result<F, E>,
    decode1: F -> Result<YamlConfig, E>, decode2: F -> Result<YamlConfig, E>)
    requires open(YamlPath(cmdArgs.environment)).Failure?
    ensures ReadYaml(cmdArgs, open, decode1) == ReadYaml(cmdArgs, open, decode2)
  {
  }

  /** Only the one looked-up path is opened: no fallback file is tried. */
  lemma NoFallbackPath<F, E>(
    cmdArgs: CmdArgsConfig, open1: string -> Result<F, E>, open2: string -> Result<F, E>,
    decode: F -> Result<YamlConfig, E>)
    requires open1(YamlPath(cmdArgs.environment)) == open2(YamlPath(cmdArgs.environment))
    ensures ReadYaml(cmdArgs, open1, decode) == ReadYaml(cmdArgs, open2, decode)
  {
  }

  /** The read succeeds exactly when both the open and the decode do, and then yields the decoded document. */
  lemma ReadYamlSucceeds<F, E>(cmdArgs: CmdArgsConfig, open: string -> Result<F, E>, decode: F -> Result<YamlConfig, E>)
    ensures ReadYaml(cmdArgs, open, decode).err.None? <==>
              open(YamlPath(cmdArgs.environment)).Success? &&
              decode(open(YamlPath(cmdArgs.environment)).value).Success?
    ensures ReadYaml(cmdArgs, open, decode).err.None? ==>
              ReadYaml(cmdArgs, open, decode).config == decode(open(YamlPath(cmdArgs.environment)).value).value
  {
  }
}
