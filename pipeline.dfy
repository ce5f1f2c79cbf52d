/** The start-up path end to end: command line, file lookup and load, projection. */
module Pipeline {
  import opened Wrappers
  import opened CmdArgs
  import opened Yaml
  import opened Config

  /**
   * An unrecognised `-env` value does not load the development file: the only file opened is
   * the one at path `""`, and when that open fails its error is what the caller gets.
   */
  lemma UnrecognisedEnvOpensEmptyPath<F, E>(raw: string, open: string -> Result<F, E>, decode: F -> Result<YamlConfig, E>)
    requires raw !in {"dev", "development", "staging", "prod", "production"}
    requires open("").Failure?
    ensures ReadYaml(ParseCmdArgs(Some(raw)), open, decode) == ReadOutcome(ZeroYamlConfig, Some(open("").error))
  {
    UnrecognisedEnvHasEmptyPath(raw);
  }

  /**
   * The worked example: with `-env=dev`, or no flag at all, and `config.dev.yml` decoding to the
   * document below, the application config is the projection with TLS enforced and no password.
   */
  lemma DevelopmentExample<F, E>(flagValue: Option<string>, open: string -> Result<F, E>, decode: F -> Result<YamlConfig, E>, f: F)
    requires flagValue == None || flagValue == Some("dev")
    requires open("config.dev.yml") == Success(f)
    requires decode(f) == Success(YamlConfig(
      ApplicationSection(8080),
      DatabaseSection("u", "secret", "db", "h", 5432, "postgres", "c.pem", "k.pem", "r.pem")))
    ensures var r := ReadYaml(ParseCmdArgs(flagValue), open, decode);
      r.err == None && GetConfig(r.config) == Config(8080, Database(
        user := "u", host := "h", port := 5432, dbName := "db", client := "postgres",
        ssl := true, sslMode := "require", sslCert := "c.pem", sslKey := "k.pem", rootCert := "r.pem"))
  {
    assert ParseCmdArgs(flagValue).environment == EnvDev;
  }
}
