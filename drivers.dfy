/** The three connector packages as seen by the registry: each connector's
    `Type()` and the `init()` function that registers its factory. */
module Drivers {
  import opened Wrappers
  import Registry
  import SqlServer
  import PostgreSql
  import Databricks
  import ConnectionModel

  /** A connector instance, as built by one of the packages' `New()`. */
  datatype Connector = SqlServerConnector | PostgreSqlConnector | DatabricksConnector
  {
    /** `Type()`: the unique identifier of the connector, which is the name of
        one of the connection types a stored connection may carry. */
    function Type(): (name: string)
      ensures ConnectionModel.ParseConnectionType(name).Some?
    {
      match this
      case SqlServerConnector =>
        ConnectionModel.ParseName(ConnectionModel.SqlServer);
        SqlServer.TypeName
      case PostgreSqlConnector =>
        ConnectionModel.ParseName(ConnectionModel.PostgreSql);
        PostgreSql.TypeName
      case DatabricksConnector =>
        ConnectionModel.ParseName(ConnectionModel.Databricks);
        Databricks.TypeName
    }
  }

  /** The connector whose `Type()` is the given name, if there is one. */
  function ConnectorOfType(name: string): (r: Option<Connector>)
    ensures r.Some? ==> r.value.Type() == name
  {
    if name == SqlServer.TypeName then Some(SqlServerConnector)
    else if name == PostgreSql.TypeName then Some(PostgreSqlConnector)
    else if name == Databricks.TypeName then Some(DatabricksConnector)
    else None
  }

  /** The three type names are distinct: each connector is found from its own `Type()`. */
  lemma TypeIdentifies(c: Connector)
    ensures ConnectorOfType(c.Type()) == Some(c)
  {
    match c
    case SqlServerConnector =>
    case PostgreSqlConnector =>
      assert PostgreSql.TypeName[0] != SqlServer.TypeName[0];
    case DatabricksConnector =>
      assert Databricks.TypeName[0] != SqlServer.TypeName[0];
      assert Databricks.TypeName[0] != PostgreSql.TypeName[0];
  }

  /** The connector a stored `ConnectionType` selects, by name. */
  function ConnectorFor(t: ConnectionModel.ConnectionType): (c: Connector)
    ensures c.Type() == t.Name()
  {
    match t
    case SqlServer => SqlServerConnector
    case Databricks => DatabricksConnector
    case PostgreSql => PostgreSqlConnector
  }

  /** The three `init()` functions, run in turn: each registers a factory for
      its connector under the connector's own type name. */
  method RegisterAll(r: Registry.Registry<Connector>)
    modifies r
    ensures r.factories == old(r.factories)[SqlServer.TypeName := () => SqlServerConnector]
                                           [PostgreSql.TypeName := () => PostgreSqlConnector]
                                           [Databricks.TypeName := () => DatabricksConnector]
    ensures forall t: ConnectionModel.ConnectionType ::
              t.Name() in r.factories && r.factories[t.Name()]() == ConnectorFor(t)
  {
    r.Register(SqlServer.TypeName, () => SqlServerConnector);
    r.Register(PostgreSql.TypeName, () => PostgreSqlConnector);
    r.Register(Databricks.TypeName, () => DatabricksConnector);
  }

  /** Once the packages are loaded, `Get` succeeds for every stored connection
      type and yields a connector whose `Type()` is that type's name. */
  method GetLoaded(t: ConnectionModel.ConnectionType) returns (r: Result<Connector>)
    ensures r.Success? && r.value.Type() == t.Name()
  {
    var registry := new Registry.Registry<Connector>();
    RegisterAll(registry);
    r := registry.Get(t.Name());
  }
}
