/** The `-env` start-up flag and its normalisation to a canonical environment name. */
module CmdArgs {
  import opened Wrappers

  const EnvDev: string := "development"
  const EnvStaging: string := "staging"
  const EnvProd: string := "production"

  /** The flag's default, used when `-env` is not given. */
  const DefaultRawEnv: string := EnvDev

  /** The canonical names, plus `""` for a raw value no case matched. */
  predicate IsNormalised(env: string) {
    env == EnvDev || env == EnvStaging || env == EnvProd || env == ""
  }

  /** Configuration taken from the command line. */
  datatype CmdArgsConfig = CmdArgsConfig(environment: string)

  /**
   * The `switch` on the raw flag value. Matching is exact and case-sensitive, and there is no
   * `default` case: any other raw value leaves the environment at Go's zero value `""`.
   */
  function NormaliseEnv(raw: string): (env: string)
    ensures IsNormalised(env)
    ensures env == EnvDev <==> raw == "dev" || raw == "development"
    ensures env == EnvStaging <==> raw == "staging"
    ensures env == EnvProd <==> raw == "prod" || raw == "production"
    ensures env == "" <==> raw !in {"dev", "development", "staging", "prod", "production"}
  {
    match raw
    case "dev" => EnvDev
    case "development" => EnvDev
    case "staging" => EnvStaging
    case "prod" => EnvProd
    case "production" => EnvProd
    case _ => ""
  }

  /**
   * `ParseCMDArgs` after the flag package has run: `flagValue` is the text given with `-env`,
   * or `None` when the flag was absent.
   */
  function ParseCmdArgs(flagValue: Option<string>): (c: CmdArgsConfig)
    ensures flagValue.None? ==> c.environment == EnvDev
    ensures flagValue.Some? ==> c.environment == NormaliseEnv(flagValue.value)
    ensures IsNormalised(c.environment)
  {
    CmdArgsConfig(NormaliseEnv(flagValue.GetOr(DefaultRawEnv)))
  }

  /** Normalising an already normalised name changes nothing. */
  lemma NormaliseEnvIdempotent(raw: string)
    ensures NormaliseEnv(NormaliseEnv(raw)) == NormaliseEnv(raw)
  {
  }

  /** The canonical names are the fixed points of normalisation; `""` is one too. */
  lemma NormaliseEnvFixedPoints(env: string)
    ensures NormaliseEnv(env) == env <==> IsNormalised(env)
  {
  }

  /** Unrecognised values, the empty one and wrong-case spellings included, do not fall back to development. */
  lemma UnrecognisedIsNotDevelopment()
    ensures NormaliseEnv("") == ""
    ensures NormaliseEnv("DEV") == ""
    ensures NormaliseEnv("Production") == ""
    ensures NormaliseEnv("stage") == ""
  {
  }
}
