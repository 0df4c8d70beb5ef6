/**
  The configuration of the core (config.go): the value types, the two
  database connection strings, the mapping to CORS middleware options and
  the validation rules declared on the struct fields.

  Durations (time.Duration) are integers counting nanoseconds.
  The JWT section follows the shape session.go reads: one token
  configuration for access tokens and an optional one for refresh tokens.
*/
module Config {
  import opened Wrappers
  import Strconv
  import Strings

  const EnvDevelopment := "development"
  const EnvStaging := "staging"
  const EnvProduction := "production"

  /** cors.Options, the options handed to the CORS middleware. */
  datatype Options = Options(
    allowedOrigins: seq<string>,
    allowedMethods: seq<string>,
    allowedHeaders: seq<string>,
    exposedHeaders: seq<string>,  // the empty sequence stands for Go's nil slice
    allowCredentials: bool,
    maxAge: int,
    optionsPassthrough: bool,
    debug: bool)

  datatype CorsConfig = CorsConfig(
    maxAge: int,
    allowCredentials: bool,
    allowedOrigins: seq<string>,
    allowedMethods: seq<string>,
    allowedHeaders: seq<string>)

  /** The settings of one kind of token (access or refresh). */
  datatype TokenConfig = TokenConfig(
    audience: seq<string>,
    issuer: string,
    expiresAt: int,
    notBefore: int,
    secret: string)

  datatype JwtConfig = JwtConfig(accessToken: TokenConfig, refreshToken: Option<TokenConfig>)

  datatype LogConfig = LogConfig(level: string)

  datatype GraphqlConfig = GraphqlConfig(schema: string)

  datatype ServerConfig = ServerConfig(
    port: int,
    cors: CorsConfig,
    jwt: JwtConfig,
    log: LogConfig,
    graphql: GraphqlConfig)
  {
    /** The CORS options: the five configured fields copied, nothing exposed, no passthrough, no debug. */
    function CorsOptions(): (o: Options)
      ensures o.maxAge == cors.maxAge && o.allowCredentials == cors.allowCredentials
      ensures o.allowedOrigins == cors.allowedOrigins
      ensures o.allowedMethods == cors.allowedMethods
      ensures o.allowedHeaders == cors.allowedHeaders
      ensures o.exposedHeaders == [] && !o.optionsPassthrough && !o.debug
    {
      Options(cors.allowedOrigins, cors.allowedMethods, cors.allowedHeaders, [],
              cors.allowCredentials, cors.maxAge, false, false)
    }
  }

  datatype DatabaseConnectionConfig = DatabaseConnectionConfig(
    driver: string,
    host: string,
    port: int,
    dbname: string,
    user: string,
    password: string,
    schema: string,
    sslmode: string)
  {
    /** The key=value pairs of the data source name, in the order they are written. */
    function DsnPairs(): seq<(string, string)> {
      [("user", user), ("password", password), ("dbname", dbname),
       ("host", host), ("port", Strconv.Itoa(port)), ("sslmode", sslmode)]
    }

    /**
      A libpq-style data source name, "user=U password=P dbname=D host=H port=N sslmode=S":
      the key=value pieces of DsnPairs joined by single spaces, the port in decimal.
    */
    function DataSourceName(): (dsn: string)
      ensures dsn == ("user=" + user) + " " + ("password=" + password) + " " + ("dbname=" + dbname) + " "
                     + ("host=" + host) + " " + ("port=" + Strconv.Itoa(port)) + " " + ("sslmode=" + sslmode)
    {
      var ps := DsnPieces();
      assert ps[0] == "user=" + user && ps[1] == "password=" + password && ps[2] == "dbname=" + dbname;
      assert ps[3] == "host=" + host && ps[4] == "port=" + Strconv.Itoa(port) && ps[5] == "sslmode=" + sslmode;
      Strings.JoinSix(ps[0], ps[1], ps[2], ps[3], ps[4], ps[5], ' ');
      Strings.Join(ps, ' ')
    }

    function DsnPieces(): seq<string> {
      var pairs := DsnPairs();
      [KeyValue(pairs[0]), KeyValue(pairs[1]), KeyValue(pairs[2]),
       KeyValue(pairs[3]), KeyValue(pairs[4]), KeyValue(pairs[5])]
    }

    /** A URL-style connection string. */
    function ConnectionString(): (url: string)
      ensures Strings.HasPrefix(url, driver + "://" + user + ":" + password + "@" + host + ":")
      ensures Strings.HasSuffix(url, "?sslmode=" + sslmode)
      ensures url[|driver + "://" + user + ":" + password + "@" + host + ":"|..]
              == Strconv.Itoa(port) + "/" + dbname + "?sslmode=" + sslmode
    {
      driver + "://" + user + ":" + password + "@" + host + ":" + Strconv.Itoa(port)
        + "/" + dbname + "?sslmode=" + sslmode
    }
  }

  function KeyValue(pair: (string, string)): string {
    pair.0 + "=" + pair.1
  }

  /** The key and the value of one key=value piece: everything before and after the first '='. */
  function Cut(piece: string): (string, string) {
    var key := Strings.Split(piece, '=')[0];
    (key, if |key| < |piece| then piece[|key| + 1..] else "")
  }

  /** Reads a data source name back into its key=value pairs. */
  function ParseDsn(dsn: string): seq<(string, string)> {
    var pieces := Strings.Split(dsn, ' ');
    seq(|pieces|, i requires 0 <= i < |pieces| => Cut(pieces[i]))
  }

  datatype DatabaseConfig = DatabaseConfig(main: DatabaseConnectionConfig, test: DatabaseConnectionConfig)

  datatype GoogleCloudConfig = GoogleCloudConfig(projectId: string)

  datatype Config = Config(
    path: string,
    env: string,
    server: ServerConfig,
    database: DatabaseConfig,
    googleCloud: GoogleCloudConfig)
  {
    /** The core configuration embedded in an application's configuration: the receiver itself. */
    function CoreConfig(): (c: Config)
      ensures c == this
    {
      this
    }

    /**
      Each declared validation rule, named by the field it is declared on,
      with whether it holds, in the order the fields are declared: Env, then
      Server (Port, Cors, Jwt, Log), then Database.
    */
    function Rules(): seq<(string, bool)> {
      [("Config.Env", env in {EnvDevelopment, EnvStaging, EnvProduction}),
       ("Config.Server.Port", server.port >= 1),
       ("Config.Server.Cors.MaxAge", server.cors.maxAge >= 0),
       ("Config.Server.Cors.AllowCredentials", server.cors.allowCredentials),
       ("Config.Server.Cors.AllowedOrigins", |server.cors.allowedOrigins| >= 1),
       ("Config.Server.Cors.AllowedMethods", |server.cors.allowedMethods| >= 1),
       ("Config.Server.Cors.AllowedHeaders", |server.cors.allowedHeaders| >= 1)]
      + TokenRules("Config.Server.Jwt.AccessToken", server.jwt.accessToken)
      + (if server.jwt.refreshToken.Some?
         then TokenRules("Config.Server.Jwt.RefreshToken", server.jwt.refreshToken.value)
         else [])
      + [("Config.Server.Log.Level", server.log.level in {"debug", "info", "warn", "error"})]
      + ConnectionRules("Config.Database.Main", database.main)
    }

    predicate Valid() {
      AllHold(Rules())
    }

    /** The fields whose rule fails, in declaration order, as the validator reports them. */
    function Violations(): (fields: seq<string>)
      ensures fields == [] <==> Valid()
      ensures |fields| <= |Rules()|
    {
      Failing(Rules())
    }
  }

  /** The required fields of a database connection: strings non-empty, the port non-zero. */
  function ConnectionRules(prefix: string, c: DatabaseConnectionConfig): seq<(string, bool)> {
    [(prefix + ".Driver", c.driver != ""),
     (prefix + ".Host", c.host != ""),
     (prefix + ".Port", c.port != 0),
     (prefix + ".Dbname", c.dbname != ""),
     (prefix + ".User", c.user != ""),
     (prefix + ".Password", c.password != ""),
     (prefix + ".Schema", c.schema != ""),
     (prefix + ".Sslmode", c.sslmode != "")]
  }

  function TokenRules(prefix: string, t: TokenConfig): seq<(string, bool)> {
    [(prefix + ".Audience", |t.audience| >= 1),
     (prefix + ".Issuer", t.issuer != ""),
     (prefix + ".ExpiresAt", t.expiresAt != 0),
     (prefix + ".NotBefore", t.notBefore >= 0),
     (prefix + ".Secret", |t.secret| >= 20)]
  }

  /** Every rule holds. */
  predicate AllHold(rules: seq<(string, bool)>) {
    forall i :: 0 <= i < |rules| ==> rules[i].1
  }

  /** The names of the rules that do not hold, in order. */
  function Failing(rules: seq<(string, bool)>): (names: seq<string>)
    ensures names == [] <==> AllHold(rules)
    ensures |names| <= |rules|
    ensures forall n :: n in names ==> (n, false) in rules
    ensures forall j :: 0 <= j < |rules| && !rules[j].1 ==> rules[j].0 in names
    decreases |rules|
  {
    if rules == [] then []
    else
      var rest := Failing(rules[1..]);
      assert forall i :: 1 <= i < |rules| ==> rules[i] == rules[1..][i - 1];
      if rules[0].1 then rest else [rules[0].0] + rest
  }

  /**
    Failing keeps the declaration order: the failures of rules declared
    earlier are reported before those of rules declared later.
  */
  lemma {:induction false} FailingInOrder(earlier: seq<(string, bool)>, later: seq<(string, bool)>)
    ensures Failing(earlier + later) == Failing(earlier) + Failing(later)
    decreases |earlier|
  {
    if earlier == [] {
      assert earlier + later == later;
    } else {
      var all := earlier + later;
      assert all[0] == earlier[0] && all[1..] == earlier[1..] + later;
      FailingInOrder(earlier[1..], later);
    }
  }

  /** Neither connection string depends on the Schema field. */
  lemma SchemaNotInConnectionStrings(c: DatabaseConnectionConfig, schema: string)
    ensures c.(schema := schema).DataSourceName() == c.DataSourceName()
    ensures c.(schema := schema).ConnectionString() == c.ConnectionString()
  {
  }

  lemma {:induction false} CutKeyValue(key: string, value: string)
    requires '=' !in key
    ensures Cut(KeyValue((key, value))) == (key, value)
  {
    var piece := KeyValue((key, value));
    assert piece == key + ['='] + value;
    Strings.SplitPeel(key, '=', value);
    assert Strings.Split(piece, '=')[0] == key;
    assert piece[|key| + 1..] == value;
  }

  lemma NoSpaceInItoa(n: int)
    ensures ' ' !in Strconv.Itoa(n)
  {
    var s := Strconv.Itoa(n);
    if n < 0 {
      assert s == "-" + Strconv.NatDigits(-n);
      assert forall i :: 1 <= i < |s| ==> Strconv.IsDigit(s[i]);
    } else {
      assert Strconv.AllDigits(s);
    }
  }

  lemma NoSpaceInPieces(c: DatabaseConnectionConfig)
    requires ' ' !in c.user && ' ' !in c.password && ' ' !in c.dbname
    requires ' ' !in c.host && ' ' !in c.sslmode
    ensures forall i :: 0 <= i < |c.DsnPieces()| ==> ' ' !in c.DsnPieces()[i]
  {
    NoSpaceInItoa(c.port);
  }

  /** Reading back a Join of space-free key=value pieces with '='-free keys gives the pairs. */
  lemma {:induction false} ParseJoinedPairs(pairs: seq<(string, string)>, pieces: seq<string>)
    requires |pieces| == |pairs| >= 1
    requires forall i :: 0 <= i < |pairs| ==> pieces[i] == KeyValue(pairs[i])
    requires forall i :: 0 <= i < |pairs| ==> '=' !in pairs[i].0 && ' ' !in pieces[i]
    ensures ParseDsn(Strings.Join(pieces, ' ')) == pairs
  {
    Strings.SplitJoin(pieces, ' ');
    var parsed := ParseDsn(Strings.Join(pieces, ' '));
    forall i | 0 <= i < |pairs| ensures parsed[i] == pairs[i] {
      CutKeyValue(pairs[i].0, pairs[i].1);
    }
  }

  /**
    When no string field contains a space, reading the data source name back
    gives exactly the six pairs written, the port among them in decimal.
  */
  lemma DataSourceNameRoundTrip(c: DatabaseConnectionConfig)
    requires ' ' !in c.user && ' ' !in c.password && ' ' !in c.dbname
    requires ' ' !in c.host && ' ' !in c.sslmode
    ensures ParseDsn(c.DataSourceName()) == c.DsnPairs()
    ensures Strconv.Atoi(ParseDsn(c.DataSourceName())[4].1) == Some(c.port)
  {
    NoSpaceInPieces(c);
    ParseJoinedPairs(c.DsnPairs(), c.DsnPieces());
    Strconv.AtoiItoa(c.port);
  }
}
