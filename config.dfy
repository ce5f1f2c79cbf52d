/** The application-facing configuration and its two connection-string renderings. */
module Config {
  import opened Wrappers
  import opened Text
  import opened Decimal
  import opened Yaml

  /** Database connection settings; there is no password field. */
  datatype Database = Database(
    user: string,
    host: string,
    port: int,
    dbName: string,
    client: string,
    ssl: bool,
    sslMode: string,
    sslCert: string,
    sslKey: string,
    rootCert: string)
  {
    /** The arguments of `String()`, rendered, in the order the format names them. */
    function UrlArgs(): seq<string> {
      [client, user, host, IntToDecimal(port), dbName, BoolToString(ssl), sslMode, rootCert, sslKey, sslCert]
    }

    /**
     * The URL form of the connection string,
     * `Client://User@Host:Port/DBName?ssl=..&sslmode=..&sslrootcert=..&sslkey=..&sslcert=..`.
     * Fields are inserted as they are, without escaping.
     */
    function String(): string {
      Format(UrlFormat, UrlArgs())
    }

    /** The arguments of `Stringify()`, rendered; `client` and `ssl` are not among them. */
    function KeywordArgs(): seq<string> {
      [user, dbName, host, IntToDecimal(port), sslMode, rootCert, sslKey, sslCert]
    }

    /**
     * The keyword/value form,
     * `user=.. dbname=.. host=.. port=.. sslmode=.. sslrootcert=.. sslkey=.. sslcert=.. `,
     * ending in a space.
     */
    function Stringify(): string {
      Format(KeywordFormat, KeywordArgs())
    }
  }

  /** The literal pieces of `String()`'s format, around its ten verbs. */
  const UrlFormat: seq<string> :=
    ["", "://", "@", ":", "/", "?ssl=", "&sslmode=", "&sslrootcert=", "&sslkey=", "&sslcert=", ""]

  /** The literal pieces of `Stringify()`'s format, around its eight verbs. */
  const KeywordFormat: seq<string> :=
    ["user=", " dbname=", " host=", " port=", " sslmode=", " sslrootcert=", " sslkey=", " sslcert=", " "]

  /** The configuration passed around the application. */
  datatype Config = Config(port: int, db: Database)

  /** The TLS policy `GetConfig` imposes regardless of the document. */
  predicate EnforcesTls(c: Config) {
    c.db.ssl && c.db.sslMode == "require"
  }

  /** `GetConfig`: projects the decoded document onto the application config. */
  function GetConfig(cfg: YamlConfig): (c: Config)
    ensures EnforcesTls(c)
    ensures c.port == cfg.application.port
    ensures c.db.port == cfg.database.port
    ensures c.db.client == cfg.database.client
    ensures c.db.user == cfg.database.user
    ensures c.db.host == cfg.database.host
    ensures c.db.dbName == cfg.database.name
    ensures c.db.sslCert == cfg.database.sslCertPath
    ensures c.db.sslKey == cfg.database.sslKeyPath
    ensures c.db.rootCert == cfg.database.rootCertPath
  {
    Config(
      port := cfg.application.port,
      db := Database(
        client := cfg.database.client,
        user := cfg.database.user,
        host := cfg.database.host,
        port := cfg.database.port,
        dbName := cfg.database.name,
        ssl := true,
        sslMode := "require",
        sslCert := cfg.database.sslCertPath,
        sslKey := cfg.database.sslKeyPath,
        rootCert := cfg.database.rootCertPath))
  }

  /** The password in the document never reaches the application config. */
  lemma GetConfigIgnoresPassword(cfg: YamlConfig, password: string)
    ensures GetConfig(cfg.(database := cfg.database.(password := password))) == GetConfig(cfg)
  {
  }

  /** A document that yields a given config, with an empty password. */
  function ToYamlConfig(c: Config): (cfg: YamlConfig)
    ensures cfg.database.password == ""
  {
    YamlConfig(
      ApplicationSection(c.port),
      DatabaseSection(
        user := c.db.user, password := "", name := c.db.dbName, host := c.db.host,
        port := c.db.port, client := c.db.client, sslCertPath := c.db.sslCert,
        sslKeyPath := c.db.sslKey, rootCertPath := c.db.rootCert))
  }

  /** The configs `GetConfig` can produce are exactly those that enforce the TLS policy. */
  lemma GetConfigImage(c: Config)
    ensures (exists cfg :: GetConfig(cfg) == c) <==> EnforcesTls(c)
  {
    if EnforcesTls(c) {
      assert GetConfig(ToYamlConfig(c)) == c;
    }
  }

  /** Two documents give the same config exactly when they agree on everything but the password. */
  lemma GetConfigKernel(a: YamlConfig, b: YamlConfig)
    ensures GetConfig(a) == GetConfig(b) <==> a.(database := a.database.(password := "")) == b.(database := b.database.(password := ""))
  {
    if GetConfig(a) == GetConfig(b) {
      assert a.application == b.application;
    }
  }

  // ---------------------------------------------------------------------------
  // Reading the connection strings back

  /** Fields whose delimiters do not occur inside them, so `String()` can be split apart again. */
  predicate UrlDelimitable(d: Database) {
    && ':' !in d.client
    && '@' !in d.user
    && ':' !in d.host
    && '?' !in d.dbName
    && '&' !in d.sslMode
    && '&' !in d.rootCert
    && '&' !in d.sslKey
  }

  /** Splits a URL-form connection string into its fields. */
  function ParseUrl(s: string): Option<Database> {
    var args :- Unformat(UrlFormat, s);
    DatabaseFromUrlArgs(args)
  }

  /** The database whose `UrlArgs()` are `args`, if there is one. */
  function DatabaseFromUrlArgs(args: seq<string>): Option<Database> {
    if |args| != 10 then None
    else
      var port :- ParseInt(args[3]);
      var ssl :- ParseBool(args[5]);
      Some(Database(
        user := args[1], host := args[2], port := port, dbName := args[4], client := args[0],
        ssl := ssl, sslMode := args[6], sslCert := args[9], sslKey := args[8], rootCert := args[7]))
  }

  lemma DatabaseFromUrlArgsInverse(d: Database)
    ensures DatabaseFromUrlArgs(d.UrlArgs()) == Some(d)
  {
    var args := d.UrlArgs();
    IntToDecimalRoundTrip(d.port);
    BoolToStringRoundTrip(d.ssl);
    assert ParseInt(args[3]) == Some(d.port);
    assert ParseBool(args[5]) == Some(d.ssl);
  }

  lemma IntToDecimalExcludes(n: int, c: char)
    requires c != '-' && !IsDigit(c)
    ensures c !in IntToDecimal(n)
  {
  }

  /** `String()` keeps every field, in order: splitting it at its delimiters gives back the database. */
  lemma StringRoundTrip(d: Database)
    requires UrlDelimitable(d)
    ensures ParseUrl(d.String()) == Some(d)
  {
    UrlArgsSeparable(d);
    UnformatFormat(UrlFormat, d.UrlArgs());
    DatabaseFromUrlArgsInverse(d);
  }

  lemma UrlArgsSeparable(d: Database)
    requires UrlDelimitable(d)
    ensures Separable(UrlFormat, d.UrlArgs())
  {
    IntToDecimalExcludes(d.port, '/');
  }

  /** `String()` spelled out: the fields, in this order, between the literal pieces of its format. */
  lemma StringShape(d: Database)
    ensures d.String() ==
      d.client + "://" + d.user + "@" + d.host + ":" + IntToDecimal(d.port) + "/" +
      d.dbName + "?ssl=" + BoolToString(d.ssl) + "&sslmode=" + d.sslMode + "&sslrootcert=" +
      d.rootCert + "&sslkey=" + d.sslKey + "&sslcert=" + d.sslCert
  {
    var lits, args := UrlFormat, d.UrlArgs();
    FormatLeftNested(lits, args);
    assert FormatUpTo(lits, args, 1) == d.client;
    assert FormatUpTo(lits, args, 2) == FormatUpTo(lits, args, 1) + "://" + d.user;
    assert FormatUpTo(lits, args, 3) == FormatUpTo(lits, args, 2) + "@" + d.host;
    assert FormatUpTo(lits, args, 4) == FormatUpTo(lits, args, 3) + ":" + IntToDecimal(d.port);
    assert FormatUpTo(lits, args, 5) == FormatUpTo(lits, args, 4) + "/" + d.dbName;
    assert FormatUpTo(lits, args, 6) == FormatUpTo(lits, args, 5) + "?ssl=" + BoolToString(d.ssl);
    assert FormatUpTo(lits, args, 7) == FormatUpTo(lits, args, 6) + "&sslmode=" + d.sslMode;
    assert FormatUpTo(lits, args, 8) == FormatUpTo(lits, args, 7) + "&sslrootcert=" + d.rootCert;
    assert FormatUpTo(lits, args, 9) == FormatUpTo(lits, args, 8) + "&sslkey=" + d.sslKey;
    assert FormatUpTo(lits, args, 10) == FormatUpTo(lits, args, 9) + "&sslcert=" + d.sslCert;
  }

  /**
   * Without escaping, `String()` is ambiguous: a user name `a@b` with host `h` renders exactly as
   * user `a` with host `b@h`.
   */
  lemma StringAmbiguous(d: Database, a: string, b: string)
    requires d.user == a + "@" + b
    ensures d.(user := a, host := b + "@" + d.host) != d
    ensures d.(user := a, host := b + "@" + d.host).String() == d.String()
  {
    var d2 := d.(user := a, host := b + "@" + d.host);
    var lits, u1, u2 := UrlFormat, d.UrlArgs(), d2.UrlArgs();
    assert u1[3..] == u2[3..];
    FormatFromSuffix(lits, u1, u2, 3);
    var tail := FormatFrom(lits, u1, 3);
    assert FormatFrom(lits, u1, 1) == "://" + (d.user + ("@" + (d.host + tail)));
    assert FormatFrom(lits, u2, 1) == "://" + (a + ("@" + ((b + "@" + d.host) + tail)));
    MoveAt(a, b, d.host, tail);
    assert |d2.user| < |d.user|;
  }

  /** Regrouping behind `StringAmbiguous`: the `@` between `a` and `b` may sit in the user or in the host. */
  lemma MoveAt(a: string, b: string, h: string, t: string)
    ensures (a + "@" + b) + ("@" + (h + t)) == a + ("@" + ((b + "@" + h) + t))
  {
    assert (a + "@" + b) + ("@" + (h + t)) == a + ("@" + (b + ("@" + (h + t))));
    assert (b + "@" + h) + t == b + ("@" + (h + t));
  }

  /** Fields free of spaces, so `Stringify()` can be split apart again. */
  predicate KeywordDelimitable(d: Database) {
    && ' ' !in d.user
    && ' ' !in d.dbName
    && ' ' !in d.host
    && ' ' !in d.sslMode
    && ' ' !in d.rootCert
    && ' ' !in d.sslKey
    && ' ' !in d.sslCert
  }

  /**
   * Splits a keyword/value connection string into its fields. The form carries no client and
   * no `ssl` flag, so the result has `client == ""` and `ssl == false`.
   */
  function ParseKeywords(s: string): Option<Database> {
    var args :- Unformat(KeywordFormat, s);
    DatabaseFromKeywordArgs(args)
  }

  /** The database with empty client and `ssl == false` whose `KeywordArgs()` are `args`, if there is one. */
  function DatabaseFromKeywordArgs(args: seq<string>): Option<Database> {
    if |args| != 8 then None
    else
      var port :- ParseInt(args[3]);
      Some(Database(
        user := args[0], host := args[2], port := port, dbName := args[1], client := "",
        ssl := false, sslMode := args[4], sslCert := args[7], sslKey := args[6], rootCert := args[5]))
  }

  lemma DatabaseFromKeywordArgsInverse(d: Database)
    ensures DatabaseFromKeywordArgs(d.KeywordArgs()) == Some(d.(client := "", ssl := false))
  {
    IntToDecimalRoundTrip(d.port);
    assert ParseInt(d.KeywordArgs()[3]) == Some(d.port);
  }

  lemma KeywordArgsSeparable(d: Database)
    requires KeywordDelimitable(d)
    ensures Separable(KeywordFormat, d.KeywordArgs())
  {
    IntToDecimalExcludes(d.port, ' ');
  }

  /** `Stringify()` keeps every field except `client` and `ssl`, and ends right after the last space. */
  lemma StringifyRoundTrip(d: Database)
    requires KeywordDelimitable(d)
    ensures ParseKeywords(d.Stringify()) == Some(d.(client := "", ssl := false))
  {
    KeywordArgsSeparable(d);
    UnformatFormat(KeywordFormat, d.KeywordArgs());
    DatabaseFromKeywordArgsInverse(d);
  }

  /** `Stringify()` spelled out: the fields, in this order, each after its keyword, with a trailing space. */
  lemma StringifyShape(d: Database)
    ensures d.Stringify() ==
      "user=" + d.user + " dbname=" + d.dbName + " host=" + d.host + " port=" +
      IntToDecimal(d.port) + " sslmode=" + d.sslMode + " sslrootcert=" + d.rootCert +
      " sslkey=" + d.sslKey + " sslcert=" + d.sslCert + " "
  {
    var lits, args := KeywordFormat, d.KeywordArgs();
    FormatLeftNested(lits, args);
    assert FormatUpTo(lits, args, 1) == "user=" + d.user;
    assert FormatUpTo(lits, args, 2) == FormatUpTo(lits, args, 1) + " dbname=" + d.dbName;
    assert FormatUpTo(lits, args, 3) == FormatUpTo(lits, args, 2) + " host=" + d.host;
    assert FormatUpTo(lits, args, 4) == FormatUpTo(lits, args, 3) + " port=" + IntToDecimal(d.port);
    assert FormatUpTo(lits, args, 5) == FormatUpTo(lits, args, 4) + " sslmode=" + d.sslMode;
    assert FormatUpTo(lits, args, 6) == FormatUpTo(lits, args, 5) + " sslrootcert=" + d.rootCert;
    assert FormatUpTo(lits, args, 7) == FormatUpTo(lits, args, 6) + " sslkey=" + d.sslKey;
    assert FormatUpTo(lits, args, 8) == FormatUpTo(lits, args, 7) + " sslcert=" + d.sslCert;
  }

  /** `Stringify()` does not depend on `client` or `ssl`. */
  lemma StringifyOmitsClientAndSsl(d: Database, client: string, ssl: bool)
    ensures d.(client := client, ssl := ssl).Stringify() == d.Stringify()
  {
  }
}
