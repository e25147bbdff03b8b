/** The Databricks connector: configuration checking, the connection string,
    and the parts of `GetColumns` that do not touch the database. Unlike the
    other connectors, its `Validate` only reads the config. */
module Databricks {
  import opened Wrappers
  import Text
  import Required
  import Catalog
  import Json

  /** The name the connector registers under and reports from `Type()`. */
  const TypeName: string := "databricks"
  const DefaultSchema: string := "default"
  /** What precedes the access token in every connection string. */
  const Scheme: string := "databricks://token:"
  /** The port every connection string names, with its colon. */
  const PortSuffix: string := ":443"

  /** The value held by a `Config` struct. */
  datatype Config = Config(workspace: string, httpPath: string, accessToken: string)

  /** The fields `Validate` requires, in the order it checks them, under the names its messages use. */
  function RequiredFields(c: Config): seq<(string, string)>
  {
    [("workspace URL", c.workspace), ("HTTP path", c.httpPath), ("access token", c.accessToken)]
  }

  /** `Validate`: reports the first empty field of workspace, HTTP path and access token. */
  function Validate(c: Config): (err: Option<string>)
    ensures err == Required.FirstMissing(RequiredFields(c))
  {
    var fields := RequiredFields(c);
    assert fields[0].1 == c.workspace && fields[1].1 == c.httpPath && fields[2].1 == c.accessToken;
    if c.workspace == "" then
      Required.FirstMissingAt(fields, 0);
      Some(Required.Message("workspace URL"))
    else if c.httpPath == "" then
      Required.FirstMissingAt(fields, 1);
      Some(Required.Message("HTTP path"))
    else if c.accessToken == "" then
      Required.FirstMissingAt(fields, 2);
      Some(Required.Message("access token"))
    else
      None
  }

  /** `Validate` passes exactly when workspace, HTTP path and access token are all set. */
  lemma ValidateSucceeds(c: Config)
    ensures Validate(c).None? <==> c.workspace != "" && c.httpPath != "" && c.accessToken != ""
  {
    var fields := RequiredFields(c);
    assert fields[0].1 == c.workspace && fields[1].1 == c.httpPath && fields[2].1 == c.accessToken;
  }

  /** `ParseConfig` after the JSON round trip: decoding failures are wrapped, and
      a decoded config is returned, unchanged, exactly when it validates. */
  function ParseConfig(decoded: Json.Decoded<Config>): (r: Result<Config>)
    ensures decoded.MarshalFailed? ==> r == Failure("failed to marshal config: " + decoded.reason)
    ensures decoded.UnmarshalFailed? ==> r == Failure("failed to parse Databricks config: " + decoded.reason)
    ensures decoded.Decoded? ==> (r.Success? <==> Required.FirstMissing(RequiredFields(decoded.value)).None?)
    ensures decoded.Decoded? && r.Success? ==> r.value == decoded.value
    ensures decoded.Decoded? && r.Failure? ==> Some(r.error) == Required.FirstMissing(RequiredFields(decoded.value))
  {
    match decoded
    case MarshalFailed(reason) => Failure("failed to marshal config: " + reason)
    case UnmarshalFailed(reason) => Failure("failed to parse Databricks config: " + reason)
    case Decoded(config) =>
      match Validate(config)
      case Some(message) => Failure(message)
      case None => Success(config)
  }

  /** The host of the connection string: the workspace URL without one leading
      "https://" and then without one leading "http://". */
  function Host(workspace: string): (host: string)
    ensures workspace == host || workspace == "https://" + host ||
            workspace == "http://" + host || workspace == "https://http://" + host
  {
    var once := Text.TrimPrefix(workspace, "https://");
    var host := Text.TrimPrefix(once, "http://");
    assert Text.HasPrefix(workspace, "https://") && Text.HasPrefix(once, "http://") ==>
             workspace == "https://" + ("http://" + host);
    host
  }

  /** A workspace given without a scheme is used as it is. */
  lemma HostWithoutScheme(workspace: string)
    requires !Text.HasPrefix(workspace, "https://") && !Text.HasPrefix(workspace, "http://")
    ensures Host(workspace) == workspace
  {
  }

  /** "https://" is removed once. */
  lemma HostOfHttps(host: string)
    requires !Text.HasPrefix(host, "http://")
    ensures Host("https://" + host) == host
  {
    assert ("https://" + host)[..8] == "https://";
    assert ("https://" + host)[8..] == host;
  }

  /** "http://" is removed once. */
  lemma HostOfHttp(host: string)
    ensures Host("http://" + host) == host
  {
    var w := "http://" + host;
    assert w[4] == ':';
    assert |w| >= 8 ==> w[..8][4] == w[4];
    assert w[..7] == "http://";
    assert w[7..] == host;
  }

  /** "https://http://" is removed as a whole. */
  lemma HostOfBoth(host: string)
    ensures Host("https://http://" + host) == host
  {
  }

  /** The connections whose token has no '@' and whose host has no ':', so
      that their connection string can be read back unambiguously. */
  predicate Printable(c: Config)
  {
    '@' !in c.accessToken && ':' !in Host(c.workspace)
  }

  /** `buildConnectionString`: `databricks://token:<token>@<host>:443<http path>`.
      For a printable config the string gives back the token, the host and
      the HTTP path, and its port is always 443. */
  function ConnectionString(c: Config): (dsn: string)
    ensures Printable(c) ==> ParseConnectionString(dsn) == Some((c.accessToken, Host(c.workspace), c.httpPath))
  {
    RenderedRoundTrip(c.accessToken, Host(c.workspace), c.httpPath);
    Scheme + (c.accessToken + ['@'] + (Host(c.workspace) + PortSuffix + c.httpPath))
  }

  /** Reads a connection string back into token, host and HTTP path: the token
      ends at the first '@', the host at the next ':', which must begin ":443". */
  function ParseConnectionString(dsn: string): Option<(string, string, string)>
  {
    if !Text.HasPrefix(dsn, Scheme) then None
    else
      var rest := dsn[|Scheme|..];
      match Text.IndexOf(rest, '@')
      case None => None
      case Some(i) =>
        match ParseHostAndPath(rest[i + 1..])
        case None => None
        case Some(hp) => Some((rest[..i], hp.0, hp.1))
  }

  /** The part after the '@': host up to the first ':', then ":443", then the path. */
  function ParseHostAndPath(s: string): Option<(string, string)>
  {
    match Text.IndexOf(s, ':')
    case None => None
    case Some(j) =>
      var tail := s[j..];
      if Text.HasPrefix(tail, PortSuffix) then Some((s[..j], tail[|PortSuffix|..]))
      else None
  }

  lemma HostAndPathRoundTrip(host: string, path: string)
    requires ':' !in host
    ensures ParseHostAndPath(host + PortSuffix + path) == Some((host, path))
  {
    var s := host + PortSuffix + path;
    assert s == host + [':'] + ("443" + path);
    Text.IndexOfAfter(host, ':', "443" + path);
    assert s[|host|..] == PortSuffix + path;
    Text.PrefixOf(PortSuffix, path);
  }

  /** A token without '@' and a host without ':' are read back from the
      printed string, together with the path. */
  lemma RenderedRoundTrip(token: string, host: string, path: string)
    ensures '@' !in token && ':' !in host ==>
              ParseConnectionString(Scheme + (token + ['@'] + (host + PortSuffix + path))) == Some((token, host, path))
  {
    if '@' !in token && ':' !in host {
      var afterToken := host + PortSuffix + path;
      var rest := token + ['@'] + afterToken;
      Text.PrefixOf(Scheme, rest);
      Text.IndexOfAfter(token, '@', afterToken);
      HostAndPathRoundTrip(host, path);
    }
  }

  /** The schema/table split at the top of `GetColumns`, with schema "default" by default. */
  function SchemaAndTable(tableName: string): (r: (string, string))
    ensures Text.Count(tableName, '.') != 1 ==> r == (DefaultSchema, tableName)
    ensures Text.Count(tableName, '.') == 1 ==>
              '.' !in r.0 && '.' !in r.1 && r.0 + "." + r.1 == tableName
  {
    Catalog.SplitTableName(tableName, DefaultSchema)
  }
}
