/** The application configuration record, its validation and the values
    derived from it. */
module Config {
  import opened Wrappers
  import opened GoStrings

  /** A time.Duration, in nanoseconds. */
  type Duration = int

  datatype ServerConfig = ServerConfig(host: string, port: int, readTimeout: Duration,
                                       writeTimeout: Duration, idleTimeout: Duration)

  datatype DatabaseConfig = DatabaseConfig(driver: string, host: string, port: int, username: string,
                                           password: string, database: string, sslMode: string)

  datatype JWTConfig = JWTConfig(secret: string, expiration: Duration, issuer: string)

  datatype AppConfig = AppConfig(name: string, version: string, environment: string, debug: bool,
                                 logLevel: string, assets: string)

  /** The JWT secret the defaults ship with, which validation refuses. */
  const DefaultJWTSecret := "your-secret-key"

  const PostgresScheme := "postgres://"

  const ValidEnvironments: seq<string> := ["development", "staging", "production"]

  /** fmt's `%v` of a string slice: the elements between brackets,
      separated by spaces. */
  function ListText(items: seq<string>): string
  {
    "[" + Join(items, " ") + "]"
  }

  /** The messages of validateConfig, one per check. */
  function PortMessage(port: int): string { "invalid server port: " + Itoa(port) }
  const DriverMessage := "database driver is required"
  const HostMessage := "database host is required"
  const SecretMessage := "JWT secret must be set and not use default value"
  const NameMessage := "app name is required"
  function EnvironmentMessage(env: string): string
  {
    "invalid environment: " + env + ", must be one of " + ListText(ValidEnvironments)
  }

  /** One check of validateConfig: whether it passes, and what it reports
      when it does not. */
  datatype Check = Check(passes: bool, message: string)

  datatype Config = Config(server: ServerConfig, database: DatabaseConfig, jwt: JWTConfig, app: AppConfig)
  {
    /** The checks of validateConfig, in the order it runs them. */
    function Checks(): seq<Check>
    {
      [ Check(0 < server.port <= 65535, PortMessage(server.port)),
        Check(database.driver != "", DriverMessage),
        Check(database.host != "", HostMessage),
        Check(jwt.secret != "" && jwt.secret != DefaultJWTSecret, SecretMessage),
        Check(app.name != "", NameMessage),
        Check(app.environment in ValidEnvironments, EnvironmentMessage(app.environment)) ]
    }

    /** Every requirement validateConfig states, at once. */
    predicate Valid()
    {
      && 0 < server.port <= 65535
      && database.driver != "" && database.host != ""
      && jwt.secret != "" && jwt.secret != DefaultJWTSecret
      && app.name != ""
      && (app.environment == "development" || app.environment == "staging" || app.environment == "production")
    }

    /** validateConfig: None (nil) when every check passes, otherwise the
        message of the first check that fails. */
    function Validate(): (err: Option<string>)
      ensures err.None? <==> Valid()
    {
      if server.port <= 0 || server.port > 65535 then Some(PortMessage(server.port))
      else if database.driver == "" then Some(DriverMessage)
      else if database.host == "" then Some(HostMessage)
      else if jwt.secret == "" || jwt.secret == DefaultJWTSecret then Some(SecretMessage)
      else if app.name == "" then Some(NameMessage)
      else if app.environment !in ValidEnvironments then Some(EnvironmentMessage(app.environment))
      else None
    }

    /** GetDatabaseURL: the connection string for postgres and mysql, and
        the empty string for any other driver. */
    function DatabaseURL(): (r: string)
      ensures r == "" <==> database.driver != "postgres" && database.driver != "mysql"
      ensures database.driver == "postgres" ==> |r| >= |PostgresScheme| && r[..|PostgresScheme|] == PostgresScheme
    {
      var d := database;
      if d.driver == "postgres" then
        PostgresScheme + (d.username + (":" + (d.password + "@" + d.host + ":" + Itoa(d.port)
          + "/" + d.database + "?sslmode=" + d.sslMode)))
      else if d.driver == "mysql" then
        d.username + (":" + (d.password + "@tcp(" + d.host + ":" + Itoa(d.port) + ")/" + d.database
          + "?charset=utf8mb4&parseTime=True&loc=Local"))
      else ""
    }

    /** GetServerAddress: the host, then a `:`, then a port text holding
        no `:`, so the last `:` separates the port whatever the host. */
    function ServerAddress(): (r: string)
      ensures |r| > |server.host| && r[..|server.host|] == server.host && r[|server.host|] == ':'
      ensures ':' !in r[|server.host| + 1..]
    {
      var r := server.host + ":" + Itoa(server.port);
      assert r[|server.host| + 1..] == Itoa(server.port);
      r
    }

    /** IsDevelopment: a development configuration passes the environment
        check, and a valid one that is not development runs in staging or
        production. */
    function IsDevelopment(): (r: bool)
      ensures r ==> Checks()[5].passes
      ensures Valid() && !r ==> app.environment in ValidEnvironments[1..]
    {
      app.environment == "development"
    }

    /** IsProduction: never together with IsDevelopment; in a valid
        configuration one of the two holds exactly outside staging. */
    function IsProduction(): (r: bool)
      ensures r ==> Checks()[5].passes
      ensures r ==> !IsDevelopment()
      ensures Valid() ==> (r || IsDevelopment() <==> app.environment != "staging")
    {
      app.environment == "production"
    }
  }

  /** The message of the first failing check, if any. */
  function FirstFailure(checks: seq<Check>): (r: Option<string>)
    ensures r.None? <==> forall i :: 0 <= i < |checks| ==> checks[i].passes
    ensures r.Some? ==> exists i :: 0 <= i < |checks| && !checks[i].passes && r.value == checks[i].message
                                    && forall j :: 0 <= j < i ==> checks[j].passes
  {
    if |checks| == 0 then None
    else if !checks[0].passes then Some(checks[0].message)
    else
      var r := FirstFailure(checks[1..]);
      assert forall i :: 1 <= i < |checks| ==> checks[i] == checks[1..][i - 1];
      if r.Some? then
        var i :| 0 <= i < |checks[1..]| && !checks[1..][i].passes && r.value == checks[1..][i].message
                 && forall j :: 0 <= j < i ==> checks[1..][j].passes;
        assert checks[i + 1] == checks[1..][i];
        r
      else r
  }

  lemma FirstFailureCons(c: Check, rest: seq<Check>)
    ensures FirstFailure([c] + rest) == if c.passes then FirstFailure(rest) else Some(c.message)
  {
    assert ([c] + rest)[1..] == rest;
  }

  /** validateConfig runs its checks in a fixed order and reports the
      first that fails. */
  lemma ValidateReportsFirstFailure(cfg: Config)
    ensures cfg.Validate() == FirstFailure(cfg.Checks())
  {
    var cs := cfg.Checks();
    assert cs == [cs[0]] + ([cs[1]] + ([cs[2]] + ([cs[3]] + ([cs[4]] + ([cs[5]] + [])))));
    FirstFailureCons(cs[0], [cs[1]] + ([cs[2]] + ([cs[3]] + ([cs[4]] + ([cs[5]] + [])))));
    FirstFailureCons(cs[1], [cs[2]] + ([cs[3]] + ([cs[4]] + ([cs[5]] + []))));
    FirstFailureCons(cs[2], [cs[3]] + ([cs[4]] + ([cs[5]] + [])));
    FirstFailureCons(cs[3], [cs[4]] + ([cs[5]] + []));
    FirstFailureCons(cs[4], [cs[5]] + []);
    FirstFailureCons(cs[5], []);
  }

  /** The secret the defaults ship with never passes validation, whatever
      else the configuration holds. */
  lemma DefaultSecretRejected(cfg: Config)
    requires cfg.jwt.secret == DefaultJWTSecret
    ensures cfg.Validate().Some?
  {
  }

  /** `%v` of the environments, as the last message spells it: the three
      names between brackets, separated by single spaces. */
  lemma EnvironmentMessageText(env: string)
    ensures EnvironmentMessage(env)
         == "invalid environment: " + env + ", must be one of "
            + ("[" + ("development" + " " + ("staging" + " " + "production")) + "]")
  {
    JoinThree("development", "staging", "production", " ");
  }

  lemma JoinThree(a: string, b: string, c: string, sep: string)
    ensures Join([a, b, c], sep) == a + sep + (b + sep + c)
  {
    assert [b, c][1..] == [c];
    assert Join([b, c], sep) == b + sep + c;
    assert [a, b, c][1..] == [b, c];
  }

  /** The text after the last occurrence of `c` (all of `s` without one). */
  function AfterLast(s: string, c: char): (r: string)
    ensures c !in r
  {
    if |s| == 0 then ""
    else if s[|s| - 1] == c then ""
    else AfterLast(s[..|s| - 1], c) + [s[|s| - 1]]
  }

  lemma {:induction false} AfterLastAppend(a: string, c: char, b: string)
    requires c !in b
    ensures AfterLast(a + [c] + b, c) == b
    decreases |b|
  {
    var s := a + [c] + b;
    if |b| == 0 {
      assert s[|s| - 1] == c;
    } else {
      var b' := b[..|b| - 1];
      assert s[..|s| - 1] == a + [c] + b';
      assert s[|s| - 1] == b[|b| - 1];
      AfterLastAppend(a, c, b');
      assert b == b' + [b[|b| - 1]];
    }
  }

  /** The port of a server address parses back from the text after its
      last `:`, whatever the host (IPv6 literals included). */
  lemma ServerAddressPort(cfg: Config)
    requires MinInt64 <= cfg.server.port <= MaxInt64
    ensures Atoi(AfterLast(cfg.ServerAddress(), ':')) == Some(cfg.server.port)
  {
    var p := Itoa(cfg.server.port);
    assert ':' !in p;
    assert cfg.ServerAddress() == cfg.server.host + [':'] + p;
    AfterLastAppend(cfg.server.host, ':', p);
    AtoiItoa(cfg.server.port);
  }

  /** The text before the first `:` of a string that starts with a name
      without `:` and a `:`. */
  lemma BeforeColon(name: string, rest: string)
    requires ':' !in name
    ensures Before(name + [':'] + rest, ':') == name
  {
    IndexOfPrefix(name, ':', rest);
    assert (name + [':'] + rest)[..|name|] == name;
  }

  /** The user name leads the postgres URL, after the scheme, up to the
      first `:`, for a name without `:`. */
  lemma PostgresURLUser(cfg: Config)
    requires cfg.database.driver == "postgres" && ':' !in cfg.database.username
    ensures var url := cfg.DatabaseURL();
      var n := |PostgresScheme|;
      |url| >= n && url[..n] == PostgresScheme && Before(url[n..], ':') == cfg.database.username
  {
    var d := cfg.database;
    var rest := d.password + "@" + d.host + ":" + Itoa(d.port) + "/" + d.database + "?sslmode=" + d.sslMode;
    var url := cfg.DatabaseURL();
    var tail := d.username + (":" + rest);
    assert url == PostgresScheme + tail;
    assert url[|PostgresScheme|..] == tail;
    assert tail == d.username + [':'] + rest;
    BeforeColon(d.username, rest);
  }

  /** The user name leads the mysql DSN, up to the first `:`, for a name
      without `:`. */
  lemma MysqlURLUser(cfg: Config)
    requires cfg.database.driver == "mysql" && ':' !in cfg.database.username
    ensures Before(cfg.DatabaseURL(), ':') == cfg.database.username
  {
    var d := cfg.database;
    var rest := d.password + "@tcp(" + d.host + ":" + Itoa(d.port) + ")/" + d.database
      + "?charset=utf8mb4&parseTime=True&loc=Local";
    assert cfg.DatabaseURL() == d.username + (":" + rest);
    assert d.username + (":" + rest) == d.username + [':'] + rest;
    BeforeColon(d.username, rest);
  }
}
