# goappstructure start-up configuration, modelled in Dafny

This project models the start-up glue of a small Go service: how the `-env` command-line value
becomes a canonical environment name, how that name selects a YAML configuration file, how the
decoded document becomes the application's `Config` (with a fixed TLS policy and without the
database password), how the database settings are rendered as a `lib/pq` connection string in
URL and keyword/value form, and how storage errors are classified by a string code.

All four parts are pure decisions, so the model is made of datatypes, functions and lemmas:

- `cmdargs.dfy` (module `CmdArgs`): the environment constants, the alias `switch` as
  `NormaliseEnv`, and `ParseCmdArgs`, which takes the `-env` value if one was given and applies
  the flag's default `development` itself when it was not.
- `yaml.dfy` (module `Yaml`): the three file paths, the environment-to-path table, the decoded
  document `YamlConfig` and its zero value, and `ReadYaml`. Opening and decoding are parameters:
  `open(path)` is what opening `path` yields, `decode(f)` what decoding the opened file yields.
- `config.dfy` (module `Config`): the `Database` and `Config` records, `GetConfig`, and the two
  builders `Database.String` and `Database.Stringify`, each with a parser that reads it back.
- `errorz.dfy` (module `Errorz`): the error codes, the code-to-description table, the `Error`
  record with `Message` (Go's `Error()` method) and `Debug`, and `New`.
- `pipeline.dfy` (module `Pipeline`): lemmas about the three steps composed.
- Helpers: `wrappers.dfy` (`Option`, `Result`), `text.dfy` (splitting, prefixes, Go's
  missing-key map lookup, and `Format`, which is `fmt.Sprintf` once every verb has been
  rendered), `decimal.dfy` (the `%d`/`%v` rendering of an `int` and the `%v` rendering of a
  `bool`, with parsers).

Each builder is written as `Format(lits, args)`: the literal pieces of the Go format string with
the rendered arguments between them. `UnformatFormat` proves, once for all formats, that the
arguments can be read back when every literal between two arguments is non-empty and no argument
contains the first character of the literal that follows it. The round trips of `String`,
`Stringify` and `Message` are instances of it. `FormatLeftNested` shows that `Format` is the
pieces concatenated in order, and the shape lemmas spell that out for each format.

An unrecognised `-env` value does not fall back to `development`. The `switch` has no `default`
case, so it leaves the environment at `""`. The table lookup then yields the path `""`, and
`ReadYaml` tries to open that path (configs/cmdargs.go:33-40, configs/yaml.go:47).

## Model

| member | source | states |
|---|---|---|
| `CmdArgs.NormaliseEnv` | configs/cmdargs.go:33-40 | the result is one of `development`, `staging`, `production`, `""`; it is `development` iff the raw value is `dev` or `development`, `staging` iff it is `staging`, `production` iff it is `prod` or `production`, and `""` for every other value |
| `CmdArgs.ParseCmdArgs` | configs/cmdargs.go:24-43 | an absent flag (default `development`) gives `development`; a given value is normalised as above; the environment is always a normalised name |
| `CmdArgs.NormaliseEnvIdempotent` | configs/cmdargs.go:34-39 | normalising an output of normalisation returns it unchanged |
| `CmdArgs.NormaliseEnvFixedPoints` | configs/cmdargs.go:33-40 | a string is left unchanged by normalisation iff it is one of the four possible outputs |
| `CmdArgs.UnrecognisedIsNotDevelopment` | configs/cmdargs.go:33-40 | `""`, `DEV`, `Production` and `stage` normalise to `""`, not to `development`: matching is exact and case-sensitive |
| `Text.LookupOrEmpty` | configs/yaml.go:47 | a map index yields the stored value for a present key and `""` for a missing one |
| `Yaml.YamlPath` | configs/yaml.go:16-20 | `development` maps to `config.dev.yml`, `staging` to `config.staging.yml`, `production` to `config.yml`; the path is `""` exactly for every other environment, `""` included |
| `Yaml.YamlPathInjective` | configs/yaml.go:11-13 | two table keys with the same path are the same key |
| `Yaml.UnrecognisedEnvHasEmptyPath` | configs/yaml.go:47 | every raw `-env` value that normalisation does not recognise resolves to the path `""` |
| `Yaml.ReadYaml` | configs/yaml.go:46-63 | a failed open returns that error; after a successful open a failed decode returns that error; on either error the config is the zero `YamlConfig`; otherwise the decoded config with no error |
| `Yaml.OpenFailureSkipsDecode` | configs/yaml.go:50-53 | when the open fails, the decode step has no influence on the outcome |
| `Yaml.NoFallbackPath` | configs/yaml.go:47-62 | the outcome depends only on opening the one looked-up path, so no other file is tried |
| `Yaml.ReadYamlSucceeds` | configs/yaml.go:56-62 | the error is nil iff both open and decode succeed, and then the config is exactly the decoded one |
| `Config.GetConfig` | configs/config.go:55-72 | always `ssl = true` and `sslmode = "require"`; `Port` from `application.port`, `DB.Port` from `database.port`; client, user and host copied; `DBName` from `name`; the three certificate paths copied to `SSLCert`, `SSLKey`, `RootCert`; no precondition |
| `Config.GetConfigIgnoresPassword` | configs/config.go:56-71 | changing the document's password does not change the config |
| `Config.GetConfigKernel` | configs/config.go:56-71 | two documents give the same config iff they agree on every field but the password |
| `Config.GetConfigImage` | configs/config.go:65-66 | a config is produced from some document iff it has `ssl = true` and `sslmode = "require"` |
| `Config.StringShape` | configs/config.go:23-26 | the specification of `Database.String`: `String()` is `Client://User@Host:Port/DBName?ssl=<bool>&sslmode=SSLMode&sslrootcert=RootCert&sslkey=SSLKey&sslcert=SSLCert`, fields in that order |
| `Config.StringRoundTrip` | configs/config.go:24-25 | when no field contains the delimiter after it, parsing `String()` gives back the whole `Database` |
| `Config.StringAmbiguous` | configs/config.go:24-25 | without escaping, user `a@b` with host `h` and user `a` with host `b@h` are distinct databases with the same `String()` |
| `Config.StringifyShape` | configs/config.go:30-41 | the specification of `Database.Stringify`: `Stringify()` is `user=U dbname=N host=H port=P sslmode=M sslrootcert=R sslkey=K sslcert=C ` with the trailing space |
| `Config.StringifyRoundTrip` | configs/config.go:31-40 | when no field contains a space, parsing `Stringify()` gives back every field except client and ssl, and nothing follows the final space |
| `Config.StringifyOmitsClientAndSsl` | configs/config.go:40 | `Stringify()` does not depend on `Client` or `SSL` |
| `Decimal.IntToDecimal` | configs/config.go:24 | the `%d` rendering is non-empty, starts with `-` iff the value is negative, holds only digits and `-`, and has no leading zero: a non-negative value longer than one digit does not start with `0`, and a negative one has a non-zero digit right after the `-` |
| `Decimal.IntToDecimalRoundTrip` | configs/config.go:24 | reading the rendering of an `int` back gives the same `int` |
| `Decimal.IntToDecimalInjective` | configs/config.go:24 | distinct ports render differently |
| `Text.UnformatFormat` | configs/config.go:24-25 | `fmt.Sprintf` with the verbs already rendered can be undone: the arguments are recovered when every literal between two arguments is non-empty and no argument contains the first character of the next literal |
| `Errorz.Description` | app/errorz/errorz.go:36-41 | `A012` is `record already exists`, `A011` is `record does not exist`, `A001` is `unknown sql error returned`; the description is `""` exactly for every other code |
| `Errorz.New` | app/errorz/errorz.go:27-34 | with `MessageShape`, the specification of `Error.Debug` (errorz.go:27-29): accepts any code, keeps it, and `Debug()` of the result is exactly the wrapped error |
| `Errorz.MessageShape` | app/errorz/errorz.go:23-25 | the specification of `Error.Message` (Go's `Error()`): the message is `Code <` + code + `>: ` + the table's description |
| `Errorz.UnknownCodeMessage` | app/errorz/errorz.go:24 | a code outside the table gives the message `Code <X>: ` |
| `Errorz.MessageRoundTrip` | app/errorz/errorz.go:23-25 | for a code without `>`, the code and its description can be read back from the message |
| `Errorz.KnownCodesPairwiseDistinct` | app/errorz/errorz.go:10-14 | `A001`, `A011` and `A012` are pairwise distinct |
| `Errorz.KnownCodesDistinct` | app/errorz/errorz.go:10-14 | two errors with distinct known codes have distinct messages |
| `Pipeline.UnrecognisedEnvOpensEmptyPath` | configs/yaml.go:46-53 | with an unrecognised `-env` value the file opened is `""`, and a failure to open it is returned with the zero config |
| `Pipeline.DevelopmentExample` | configs/config.go:55-72 | with `-env=dev` or no flag and `config.dev.yml` decoding to the sample document, the result has no error and the config holds the sample values, TLS enforced and no password |

## Left out

- `flag.StringVar`, `flag.Parse` and `log.Println` (configs/cmdargs.go:28-31): process arguments and logging. `ParseCmdArgs` takes the flag's value, or its absence, as a parameter.
- `os.Open`, `defer f.Close()` and the `yaml.v2` decoder (configs/yaml.go:50-57): file I/O and a foreign library. Their outcomes are the parameters `open` and `decode` of `ReadYaml`. Closing the file is not modelled, and neither is YAML parsing or the struct tags.
- `fmt.Sprintf` in general: only the `%s`, `%d` and `%v` verbs these formats use, on strings, an `int` and a `bool`.
- Go's fixed-width `int`: ports are unbounded integers. No operation here does arithmetic on them, so no wrap-around can occur.
- Pointers: `GetConfig` returns `*Config` and `New` returns `*Error`. Both are modelled as values, since nothing updates them after construction. A method call on a nil `*Error` is not modelled.
- The wrapped Go `error`: its behaviour is opaque, so it is the type parameter `E`.
- `Errorz.Error.Message` models Go's `Error()` method. The name differs because Dafny would confuse it with the constructor `Error`.
- `lib/pq`'s own reading of the connection strings, and its escaping rules: the parsers here only invert the two builders.
