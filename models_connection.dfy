/** `internal/models/connection.go`: the connection types and the `Scan` hook
    that loads a connection's JSON config column. */
module ConnectionModel {
  import opened Wrappers
  import Json

  /** The three `ConnectionType` constants. */
  datatype ConnectionType = SqlServer | Databricks | PostgreSql
  {
    /** The string stored for the type. */
    function Name(): string
    {
      match this
      case SqlServer => "sqlserver"
      case Databricks => "databricks"
      case PostgreSql => "postgresql"
    }
  }

  /** The connection type a stored string stands for, if any. */
  function ParseConnectionType(s: string): (r: Option<ConnectionType>)
    ensures r.Some? ==> r.value.Name() == s
  {
    if s == "sqlserver" then Some(SqlServer)
    else if s == "databricks" then Some(Databricks)
    else if s == "postgresql" then Some(PostgreSql)
    else None
  }

  /** Every type is read back from its name, so the three names are distinct. */
  lemma ParseName(t: ConnectionType)
    ensures ParseConnectionType(t.Name()) == Some(t)
  {
    match t
    case SqlServer =>
    case Databricks =>
      assert "databricks"[0] != "sqlserver"[0];
    case PostgreSql =>
      assert "postgresql"[0] != "sqlserver"[0];
      assert "postgresql"[0] != "databricks"[0];
  }

  /** A string is a stored connection type exactly when it is one of the three names. */
  lemma ParseExactlyNames(s: string)
    ensures ParseConnectionType(s).Some? <==> exists t: ConnectionType :: t.Name() == s
  {
    if exists t: ConnectionType :: t.Name() == s {
      var t: ConnectionType :| t.Name() == s;
      ParseName(t);
    }
  }

  /** `ConnectionConfig`, a `map[string]interface{}` the driver fills through `Scan`. */
  class ConnectionConfig {
    var entries: Json.JsonObject

    constructor (entries: Json.JsonObject)
      ensures this.entries == entries
    {
      this.entries := entries;
    }

    /** `Scan`: nil empties the map without error; a non-byte value is an error
        that leaves the map alone; bytes go to the JSON decoder, given as `unmarshal`. */
    method Scan(value: Json.DriverValue, unmarshal: Json.Unmarshal) returns (err: Option<string>)
      modifies this
      ensures value.Nil? ==> entries == map[] && err == None
      ensures value.NonBytes? ==> entries == old(entries) && err == Some(Json.NonBytesMessage("ConnectionConfig"))
      ensures value.Bytes? ==> (entries, err) == unmarshal(value.data, old(entries))
    {
      match value
      case Nil =>
        entries := map[];
        err := None;
      case NonBytes =>
        err := Some(Json.NonBytesMessage("ConnectionConfig"));
      case Bytes(data) =>
        var decoded := unmarshal(data, entries);
        entries, err := decoded.0, decoded.1;
    }
  }
}
