/** The PostgreSQL connector: configuration checking and defaults, the
    connection string, and the parts of `GetColumns` that do not touch the database. */
module PostgreSql {
  import opened Wrappers
  import Text
  import Decimal
  import KeyValue
  import Required
  import Catalog
  import Json

  /** The name the connector registers under and reports from `Type()`. */
  const TypeName: string := "postgresql"
  const DefaultPort: int := 5432
  const DefaultSslMode: string := "prefer"
  const DefaultSchema: string := "public"

  /** The value held by a `Config` struct. */
  datatype Settings = Settings(
    host: string,
    port: int,
    database: string,
    username: string,
    password: string,
    sslMode: string)

  /** The fields `Validate` requires, in the order it checks them, under the names its messages use. */
  function RequiredFields(s: Settings): seq<(string, string)>
  {
    [("host", s.host), ("database", s.database), ("username", s.username), ("password", s.password)]
  }

  /** The port and SSL-mode defaults a successful `Validate` fills in; set values are kept. */
  function WithDefaults(s: Settings): (d: Settings)
    ensures s.port == 0 ==> d.port == DefaultPort
    ensures s.port != 0 ==> d.port == s.port
    ensures s.sslMode == "" ==> d.sslMode == DefaultSslMode
    ensures s.sslMode != "" ==> d.sslMode == s.sslMode
    ensures d.(port := s.port, sslMode := s.sslMode) == s
  {
    s.(port := if s.port == 0 then DefaultPort else s.port,
       sslMode := if s.sslMode == "" then DefaultSslMode else s.sslMode)
  }

  /** What `Validate` makes of a config: the first missing required field, or the config with defaults. */
  function Validated(s: Settings): (r: Result<Settings>)
    ensures r.Success? <==> s.host != "" && s.database != "" && s.username != "" && s.password != ""
    ensures r.Success? ==> r.value == WithDefaults(s)
  {
    var fields := RequiredFields(s);
    assert fields[0].1 == s.host && fields[1].1 == s.database;
    assert fields[2].1 == s.username && fields[3].1 == s.password;
    match Required.FirstMissing(RequiredFields(s))
    case Some(message) => Failure(message)
    case None => Success(WithDefaults(s))
  }

  /** `Validate` checks host, database, username and password in that order
      and reports the first empty one. */
  lemma ValidatedOrder(s: Settings)
    ensures s.host == "" ==> Validated(s) == Failure(Required.Message("host"))
    ensures s.host != "" && s.database == "" ==> Validated(s) == Failure(Required.Message("database"))
    ensures s.host != "" && s.database != "" && s.username == "" ==>
              Validated(s) == Failure(Required.Message("username"))
    ensures s.host != "" && s.database != "" && s.username != "" && s.password == "" ==>
              Validated(s) == Failure(Required.Message("password"))
  {
    var fields := RequiredFields(s);
    if s.host == "" {
      Required.FirstMissingAt(fields, 0);
    } else if s.database == "" {
      Required.FirstMissingAt(fields, 1);
    } else if s.username == "" {
      Required.FirstMissingAt(fields, 2);
    } else if s.password == "" {
      Required.FirstMissingAt(fields, 3);
    }
  }

  /** A validated config passes again unchanged: the defaults are a fixed point. */
  lemma ValidatedIdempotent(s: Settings)
    requires Validated(s).Success?
    ensures Validated(Validated(s).value) == Validated(s)
  {
  }

  /** The `Config` struct that `Validate` updates through its pointer receiver. */
  class Config {
    var host: string
    var port: int
    var database: string
    var username: string
    var password: string
    var sslMode: string

    function Value(): Settings
      reads this
    {
      Settings(host, port, database, username, password, sslMode)
    }

    constructor (s: Settings)
      ensures Value() == s
    {
      host, port, database := s.host, s.port, s.database;
      username, password, sslMode := s.username, s.password, s.sslMode;
    }

    /** Reports the first missing required field, leaving the config untouched,
        or fills in the default port and SSL mode and reports nothing. */
    method Validate() returns (err: Option<string>)
      modifies this`port, this`sslMode
      ensures err.Some? <==> Validated(old(Value())).Failure?
      ensures err.Some? ==> Validated(old(Value())) == Failure(err.value) && Value() == old(Value())
      ensures err.None? ==> Value() == Validated(old(Value())).value
    {
      ValidatedOrder(Value());
      if host == "" {
        return Some(Required.Message("host"));
      }
      if database == "" {
        return Some(Required.Message("database"));
      }
      if username == "" {
        return Some(Required.Message("username"));
      }
      if password == "" {
        return Some(Required.Message("password"));
      }
      if port == 0 {
        port := DefaultPort;
      }
      if sslMode == "" {
        sslMode := DefaultSslMode;
      }
      return None;
    }
  }

  /** `ParseConfig` after the JSON round trip: decoding failures are wrapped,
      and a decoded config is returned only if it validates, with its defaults. */
  method ParseConfig(decoded: Json.Decoded<Settings>) returns (r: Result<Settings>)
    ensures decoded.MarshalFailed? ==> r == Failure("failed to marshal config: " + decoded.reason)
    ensures decoded.UnmarshalFailed? ==> r == Failure("failed to parse PostgreSQL config: " + decoded.reason)
    ensures decoded.Decoded? ==> r == Validated(decoded.value)
  {
    match decoded
    case MarshalFailed(reason) =>
      r := Failure("failed to marshal config: " + reason);
    case UnmarshalFailed(reason) =>
      r := Failure("failed to parse PostgreSQL config: " + reason);
    case Decoded(settings) =>
      var config := new Config(settings);
      var err := config.Validate();
      if err.Some? {
        r := Failure(err.value);
      } else {
        r := Success(config.Value());
      }
  }

  /** The fields of the connection string, in the order they are printed. */
  function Pairs(s: Settings): seq<(string, string)>
  {
    [("host", s.host), ("port", Decimal.FormatInt(s.port)), ("user", s.username),
     ("password", s.password), ("dbname", s.database), ("sslmode", s.sslMode)]
  }

  /** The settings whose text fields contain neither a space nor `=`, so that
      their connection string can be read back unambiguously. */
  predicate Printable(s: Settings)
  {
    KeyValue.Plain(s.host, ' ') && KeyValue.Plain(s.database, ' ') && KeyValue.Plain(s.username, ' ') &&
    KeyValue.Plain(s.password, ' ') && KeyValue.Plain(s.sslMode, ' ')
  }

  /** `buildConnectionString`: the fields of `Pairs` printed as `key=value` and
      joined by spaces, which is the string its format
      `host=%s port=%d user=%s password=%s dbname=%s sslmode=%s` produces. For
      printable settings the string splits back into exactly those six fields,
      in that order, and from them into the settings, every field carried. */
  function ConnectionString(s: Settings): (dsn: string)
    ensures dsn == "host=" + s.host + " port=" + Decimal.FormatInt(s.port) + " user=" + s.username +
                   " password=" + s.password + " dbname=" + s.database + " sslmode=" + s.sslMode
    ensures Printable(s) ==> KeyValue.Parse(dsn, ' ') == Some(Pairs(s))
    ensures Printable(s) ==> ParseConnectionString(dsn) == Some(s)
  {
    Spelled(s);
    RenderedSettings(s);
    KeyValue.Render(Pairs(s), ' ')
  }

  /** Reads a connection string with exactly the fields `ConnectionString` prints, in its order. */
  function ParseConnectionString(dsn: string): Option<Settings>
  {
    match KeyValue.Parse(dsn, ' ')
    case None => None
    case Some(p) =>
      if |p| == 6 && p[0].0 == "host" && p[1].0 == "port" && p[2].0 == "user" &&
         p[3].0 == "password" && p[4].0 == "dbname" && p[5].0 == "sslmode" &&
         Decimal.ParseInt(p[1].1).Some?
      then Some(Settings(p[0].1, Decimal.ParseInt(p[1].1).value, p[4].1, p[2].1, p[3].1, p[5].1))
      else None
  }

  /** No key of the connection string contains a space or `=`. */
  lemma PlainKeys()
    ensures KeyValue.Plain("host", ' ') && KeyValue.Plain("port", ' ') && KeyValue.Plain("user", ' ')
    ensures KeyValue.Plain("password", ' ') && KeyValue.Plain("dbname", ' ') && KeyValue.Plain("sslmode", ' ')
  {
  }

  /** The rendered fields of printable settings split back into the fields. */
  lemma RenderedFields(s: Settings)
    ensures Printable(s) ==> KeyValue.Parse(KeyValue.Render(Pairs(s), ' '), ' ') == Some(Pairs(s))
  {
    if Printable(s) {
      var p := Pairs(s);
      PlainKeys();
      var port := Decimal.FormatInt(s.port);
      forall i | 0 <= i < |port| ensures port[i] != ' ' && port[i] != '=' { }
      KeyValue.ParseRender(p, ' ');
    }
  }

  /** ... and from the fields back into the settings. */
  lemma RenderedSettings(s: Settings)
    ensures Printable(s) ==> KeyValue.Parse(KeyValue.Render(Pairs(s), ' '), ' ') == Some(Pairs(s))
    ensures Printable(s) ==> ParseConnectionString(KeyValue.Render(Pairs(s), ' ')) == Some(s)
  {
    RenderedFields(s);
    Decimal.ParseFormatInt(s.port);
  }

  /** The pieces of the format: each separator, key and `=` as one literal.
      Split in three because literal equalities are costly to the verifier. */
  lemma LeadingLiterals()
    ensures "host=" == "host" + "=" && " port=" == [' '] + "port" + "="
  {
  }

  lemma MiddleLiterals()
    ensures " user=" == [' '] + "user" + "=" && " password=" == [' '] + "password" + "="
  {
  }

  lemma LaterLiterals()
    ensures " dbname=" == [' '] + "dbname" + "=" && " sslmode=" == [' '] + "sslmode" + "="
  {
  }

  /** The connection string spelled out as the format prints it. */
  lemma Spelled(s: Settings)
    ensures KeyValue.Render(Pairs(s), ' ') ==
              "host=" + s.host + " port=" + Decimal.FormatInt(s.port) + " user=" + s.username +
              " password=" + s.password + " dbname=" + s.database + " sslmode=" + s.sslMode
  {
    var p := Pairs(s);
    LeadingLiterals();
    MiddleLiterals();
    LaterLiterals();
    assert KeyValue.Render(p[..1], ' ') == "host=" + s.host;
    KeyValue.RenderAppend(p[..1], "port", p[1].1, ' ', " port=");
    assert p[..2] == p[..1] + [("port", p[1].1)];
    KeyValue.RenderAppend(p[..2], "user", p[2].1, ' ', " user=");
    assert p[..3] == p[..2] + [("user", p[2].1)];
    KeyValue.RenderAppend(p[..3], "password", p[3].1, ' ', " password=");
    assert p[..4] == p[..3] + [("password", p[3].1)];
    KeyValue.RenderAppend(p[..4], "dbname", p[4].1, ' ', " dbname=");
    assert p[..5] == p[..4] + [("dbname", p[4].1)];
    KeyValue.RenderAppend(p[..5], "sslmode", p[5].1, ' ', " sslmode=");
    assert p == p[..5] + [("sslmode", p[5].1)];
  }

  /** The schema/table split at the top of `GetColumns`, with schema "public" by default. */
  function SchemaAndTable(tableName: string): (r: (string, string))
    ensures Text.Count(tableName, '.') != 1 ==> r == (DefaultSchema, tableName)
    ensures Text.Count(tableName, '.') == 1 ==>
              '.' !in r.0 && '.' !in r.1 && r.0 + "." + r.1 == tableName
  {
    Catalog.SplitTableName(tableName, DefaultSchema)
  }
}
