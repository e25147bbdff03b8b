/** The SQL Server connector: configuration checking and defaults, the
    connection string, and the parts of `GetColumns` that do not touch the database. */
module SqlServer {
  import opened Wrappers
  import Text
  import Decimal
  import KeyValue
  import Required
  import Catalog
  import Json

  /** The name the connector registers under and reports from `Type()`. */
  const TypeName: string := "sqlserver"
  const DefaultPort: int := 1433
  const DefaultSchema: string := "dbo"

  /** The value held by a `Config` struct. */
  datatype Settings = Settings(
    server: string,
    port: int,
    database: string,
    username: string,
    password: string,
    encrypt: bool,
    trustServerCertificate: bool)

  /** The fields `Validate` requires, in the order it checks them, under the names its messages use. */
  function RequiredFields(s: Settings): seq<(string, string)>
  {
    [("server", s.server), ("database", s.database), ("username", s.username), ("password", s.password)]
  }

  /** The port default a successful `Validate` fills in. */
  function WithDefaults(s: Settings): (d: Settings)
    ensures s.port == 0 ==> d.port == DefaultPort
    ensures s.port != 0 ==> d.port == s.port
    ensures d.(port := s.port) == s
  {
    if s.port == 0 then s.(port := DefaultPort) else s
  }

  /** What `Validate` makes of a config: the first missing required field, or the config with defaults. */
  function Validated(s: Settings): (r: Result<Settings>)
    ensures r.Success? <==> s.server != "" && s.database != "" && s.username != "" && s.password != ""
    ensures r.Success? ==> r.value == WithDefaults(s)
  {
    var fields := RequiredFields(s);
    assert fields[0].1 == s.server && fields[1].1 == s.database;
    assert fields[2].1 == s.username && fields[3].1 == s.password;
    match Required.FirstMissing(RequiredFields(s))
    case Some(message) => Failure(message)
    case None => Success(WithDefaults(s))
  }

  /** `Validate` checks server, database, username and password in that order
      and reports the first empty one. */
  lemma ValidatedOrder(s: Settings)
    ensures s.server == "" ==> Validated(s) == Failure(Required.Message("server"))
    ensures s.server != "" && s.database == "" ==> Validated(s) == Failure(Required.Message("database"))
    ensures s.server != "" && s.database != "" && s.username == "" ==>
              Validated(s) == Failure(Required.Message("username"))
    ensures s.server != "" && s.database != "" && s.username != "" && s.password == "" ==>
              Validated(s) == Failure(Required.Message("password"))
  {
    var fields := RequiredFields(s);
    if s.server == "" {
      Required.FirstMissingAt(fields, 0);
    } else if s.database == "" {
      Required.FirstMissingAt(fields, 1);
    } else if s.username == "" {
      Required.FirstMissingAt(fields, 2);
    } else if s.password == "" {
      Required.FirstMissingAt(fields, 3);
    }
  }

  /** A validated config passes again unchanged: the defaults are a fixed point. */
  lemma ValidatedIdempotent(s: Settings)
    requires Validated(s).Success?
    ensures Validated(Validated(s).value) == Validated(s)
  {
  }

  /** The `Config` struct that `Validate` updates through its pointer receiver. */
  class Config {
    var server: string
    var port: int
    var database: string
    var username: string
    var password: string
    var encrypt: bool
    var trustServerCertificate: bool

    function Value(): Settings
      reads this
    {
      Settings(server, port, database, username, password, encrypt, trustServerCertificate)
    }

    constructor (s: Settings)
      ensures Value() == s
    {
      server, port, database := s.server, s.port, s.database;
      username, password := s.username, s.password;
      encrypt, trustServerCertificate := s.encrypt, s.trustServerCertificate;
    }

    /** Reports the first missing required field, leaving the config untouched,
        or fills in the default port and reports nothing. */
    method Validate() returns (err: Option<string>)
      modifies this`port
      ensures err.Some? <==> Validated(old(Value())).Failure?
      ensures err.Some? ==> Validated(old(Value())) == Failure(err.value) && Value() == old(Value())
      ensures err.None? ==> Value() == Validated(old(Value())).value
    {
      ValidatedOrder(Value());
      if server == "" {
        return Some(Required.Message("server"));
      }
      if database == "" {
        return Some(Required.Message("database"));
      }
      if username == "" {
        return Some(Required.Message("username"));
      }
      if password == "" {
        return Some(Required.Message("password"));
      }
      if port == 0 {
        port := DefaultPort;
      }
      return None;
    }
  }

  /** `ParseConfig` after the JSON round trip: decoding failures are wrapped,
      and a decoded config is returned only if it validates, with its defaults. */
  method ParseConfig(decoded: Json.Decoded<Settings>) returns (r: Result<Settings>)
    ensures decoded.MarshalFailed? ==> r == Failure("failed to marshal config: " + decoded.reason)
    ensures decoded.UnmarshalFailed? ==> r == Failure("failed to parse SQL Server config: " + decoded.reason)
    ensures decoded.Decoded? ==> r == Validated(decoded.value)
  {
    match decoded
    case MarshalFailed(reason) =>
      r := Failure("failed to marshal config: " + reason);
    case UnmarshalFailed(reason) =>
      r := Failure("failed to parse SQL Server config: " + reason);
    case Decoded(settings) =>
      var config := new Config(settings);
      var err := config.Validate();
      if err.Some? {
        r := Failure(err.value);
      } else {
        r := Success(config.Value());
      }
  }

  function BoolText(b: bool): string
  {
    if b then "true" else "false"
  }

  function ParseBool(t: string): Option<bool>
  {
    if t == "true" then Some(true) else if t == "false" then Some(false) else None
  }

  /** The fields of the connection string, in the order they are printed. */
  function Pairs(s: Settings): seq<(string, string)>
  {
    [("server", s.server), ("port", Decimal.FormatInt(s.port)), ("database", s.database),
     ("user id", s.username), ("password", s.password), ("encrypt", BoolText(s.encrypt)),
     ("TrustServerCertificate", BoolText(s.trustServerCertificate))]
  }

  /** The printed encrypt flag is "true" exactly when `Encrypt` is set, and the
      printed trust flag is "true" exactly when `TrustServerCertificate` is set. */
  lemma FlagsPrinted(s: Settings)
    ensures Pairs(s)[5] == ("encrypt", Pairs(s)[5].1) && (Pairs(s)[5].1 == "true" <==> s.encrypt)
    ensures Pairs(s)[6] == ("TrustServerCertificate", Pairs(s)[6].1) &&
            (Pairs(s)[6].1 == "true" <==> s.trustServerCertificate)
  {
    assert "false"[0] != "true"[0];
  }

  /** The settings whose text fields contain neither `;` nor `=`, so that
      their connection string can be read back unambiguously. */
  predicate Printable(s: Settings)
  {
    KeyValue.Plain(s.server, ';') && KeyValue.Plain(s.database, ';') &&
    KeyValue.Plain(s.username, ';') && KeyValue.Plain(s.password, ';')
  }

  /** `buildConnectionString`: the fields of `Pairs` printed as `key=value` and
      joined by `;`, which is the string its format
      `server=%s;port=%d;database=%s;user id=%s;password=%s;encrypt=%s;TrustServerCertificate=%s`
      produces. For printable settings the string splits back into exactly those
      seven fields, in that order, and from them into the settings: every
      field is carried, `encrypt=true` exactly when `Encrypt` is set and
      `TrustServerCertificate=true` exactly when that flag is set. */
  function ConnectionString(s: Settings): (dsn: string)
    ensures dsn == "server=" + s.server + ";port=" + Decimal.FormatInt(s.port) + ";database=" + s.database +
                   ";user id=" + s.username + ";password=" + s.password + ";encrypt=" + BoolText(s.encrypt) +
                   ";TrustServerCertificate=" + BoolText(s.trustServerCertificate)
    ensures Printable(s) ==> KeyValue.Parse(dsn, ';') == Some(Pairs(s))
    ensures Printable(s) ==> ParseConnectionString(dsn) == Some(s)
  {
    Spelled(s);
    RenderedSettings(s);
    KeyValue.Render(Pairs(s), ';')
  }

  /** Reads a connection string with exactly the fields `ConnectionString` prints, in its order. */
  function ParseConnectionString(dsn: string): Option<Settings>
  {
    match KeyValue.Parse(dsn, ';')
    case None => None
    case Some(p) =>
      if |p| == 7 && p[0].0 == "server" && p[1].0 == "port" && p[2].0 == "database" &&
         p[3].0 == "user id" && p[4].0 == "password" && p[5].0 == "encrypt" &&
         p[6].0 == "TrustServerCertificate" &&
         Decimal.ParseInt(p[1].1).Some? && ParseBool(p[5].1).Some? && ParseBool(p[6].1).Some?
      then Some(Settings(p[0].1, Decimal.ParseInt(p[1].1).value, p[2].1, p[3].1, p[4].1,
                         ParseBool(p[5].1).value, ParseBool(p[6].1).value))
      else None
  }

  /** No key of the connection string contains `;` or `=`; the facts are split
      into three helpers because checking all seven literals at once is costly. */
  lemma KeysArePlain()
    ensures KeyValue.Plain("server", ';') && KeyValue.Plain("port", ';')
    ensures KeyValue.Plain("database", ';') && KeyValue.Plain("user id", ';')
  {
  }

  lemma MoreKeysArePlain()
    ensures KeyValue.Plain("password", ';') && KeyValue.Plain("encrypt", ';')
  {
  }

  lemma TrustKeyIsPlain()
    ensures KeyValue.Plain("TrustServerCertificate", ';')
  {
  }

  /** The rendered fields of printable settings split back into the fields. */
  lemma RenderedFields(s: Settings)
    ensures Printable(s) ==> KeyValue.Parse(KeyValue.Render(Pairs(s), ';'), ';') == Some(Pairs(s))
  {
    if Printable(s) {
      var p := Pairs(s);
      KeysArePlain();
      MoreKeysArePlain();
      TrustKeyIsPlain();
      var port := Decimal.FormatInt(s.port);
      forall i | 0 <= i < |port| ensures port[i] != ';' && port[i] != '=' { }
      assert KeyValue.Plain(BoolText(s.encrypt), ';') && KeyValue.Plain(BoolText(s.trustServerCertificate), ';');
      KeyValue.ParseRender(p, ';');
    }
  }

  /** ... and from the fields back into the settings. */
  lemma RenderedSettings(s: Settings)
    ensures Printable(s) ==> KeyValue.Parse(KeyValue.Render(Pairs(s), ';'), ';') == Some(Pairs(s))
    ensures Printable(s) ==> ParseConnectionString(KeyValue.Render(Pairs(s), ';')) == Some(s)
  {
    RenderedFields(s);
    Decimal.ParseFormatInt(s.port);
  }

  /** The pieces of the format: each separator, key and `=` as one literal.
      Split in four because literal equalities are costly to the verifier. */
  lemma LeadingLiterals()
    ensures "server=" == "server" + "=" && ";port=" == [';'] + "port" + "="
  {
  }

  lemma MiddleLiterals()
    ensures ";database=" == [';'] + "database" + "=" && ";user id=" == [';'] + "user id" + "="
  {
  }

  lemma LaterLiterals()
    ensures ";password=" == [';'] + "password" + "=" && ";encrypt=" == [';'] + "encrypt" + "="
  {
  }

  lemma TrustLiteral()
    ensures ";TrustServerCertificate=" == [';'] + "TrustServerCertificate" + "="
  {
  }

  /** The connection string spelled out as the format prints it. */
  lemma Spelled(s: Settings)
    ensures KeyValue.Render(Pairs(s), ';') ==
              "server=" + s.server + ";port=" + Decimal.FormatInt(s.port) + ";database=" + s.database +
              ";user id=" + s.username + ";password=" + s.password + ";encrypt=" + BoolText(s.encrypt) +
              ";TrustServerCertificate=" + BoolText(s.trustServerCertificate)
  {
    var p := Pairs(s);
    LeadingLiterals();
    MiddleLiterals();
    LaterLiterals();
    TrustLiteral();
    assert KeyValue.Render(p[..1], ';') == "server=" + s.server;
    KeyValue.RenderAppend(p[..1], "port", p[1].1, ';', ";port=");
    assert p[..2] == p[..1] + [("port", p[1].1)];
    KeyValue.RenderAppend(p[..2], "database", p[2].1, ';', ";database=");
    assert p[..3] == p[..2] + [("database", p[2].1)];
    KeyValue.RenderAppend(p[..3], "user id", p[3].1, ';', ";user id=");
    assert p[..4] == p[..3] + [("user id", p[3].1)];
    KeyValue.RenderAppend(p[..4], "password", p[4].1, ';', ";password=");
    assert p[..5] == p[..4] + [("password", p[4].1)];
    KeyValue.RenderAppend(p[..5], "encrypt", p[5].1, ';', ";encrypt=");
    assert p[..6] == p[..5] + [("encrypt", p[5].1)];
    KeyValue.RenderAppend(p[..6], "TrustServerCertificate", p[6].1, ';', ";TrustServerCertificate=");
    assert p == p[..6] + [("TrustServerCertificate", p[6].1)];
  }

  /** The config of the "basic config" unit test, whose `TrustServerCertificate` is unset. */
  const BasicTestConfig: Settings := Settings("localhost", 1433, "testdb", "sa", "password", false, false)

  /** For that config the code prints `encrypt=false` and `TrustServerCertificate=false`;
      the unit test expects `TrustServerCertificate=true`. */
  lemma BasicTestValuesArePlain()
    ensures KeyValue.Plain("localhost", ';') && KeyValue.Plain("testdb", ';') && KeyValue.Plain("sa", ';')
  {
  }

  lemma BasicTestConnectionString()
    ensures KeyValue.Parse(ConnectionString(BasicTestConfig), ';') == Some(Pairs(BasicTestConfig))
    ensures Pairs(BasicTestConfig)[5] == ("encrypt", "false")
    ensures Pairs(BasicTestConfig)[6] == ("TrustServerCertificate", "false")
    ensures Pairs(BasicTestConfig)[6] != ("TrustServerCertificate", "true")
  {
    BasicTestValuesArePlain();
    assert Printable(BasicTestConfig);
  }

  /** The schema/table split at the top of `GetColumns`, with schema "dbo" by default. */
  function SchemaAndTable(tableName: string): (r: (string, string))
    ensures Text.Count(tableName, '.') != 1 ==> r == (DefaultSchema, tableName)
    ensures Text.Count(tableName, '.') == 1 ==>
              '.' !in r.0 && '.' !in r.1 && r.0 + "." + r.1 == tableName
  {
    Catalog.SplitTableName(tableName, DefaultSchema)
  }
}
