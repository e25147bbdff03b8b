# CompareFlow core, modelled in Dafny

CompareFlow compares data between databases. Users store connections (SQL
Server, PostgreSQL, Databricks) and validations that compare a source query
against a target query. This project models the deterministic core of that
system:

- **Connectors** (`internal/connectors`):
  - each connector's `Config.Validate`, which reports the first missing
    required field and fills in defaults only on success;
  - `ParseConfig` after its JSON round trip;
  - `Type()`;
  - `buildConnectionString`;
  - the schema/table split and the `IS_NULLABLE = "YES"` mapping of
    `GetColumns`;
  - the registry (`Register`, `Get`, `List`) and the `init()`
    registrations of the three packages.
- **Persisted models** (`internal/models`):
  - the `ConnectionType` and `ValidationStatus` constants;
  - the `BeforeCreate` hook that defaults a validation's status to
    "pending";
  - the nil and non-bytes branches of the three `Scan` methods.
- **Frontend store** (`connectionSlice.ts`, `validationSlice.ts`): the
  initial state and every reducer, each as a method that updates the
  slice's state in place for a given payload.

How the project is laid out:

- Go methods with pointer receivers that assign fields (`Validate`,
  `BeforeCreate`, `Scan`) are methods on classes. Each has a `modifies`
  clause. `Validate` and `BeforeCreate` state the new state through a pure
  specification function (`Validated`, `DefaultStatus`). The `Scan` methods
  state it directly: the empty map, the old entries, or the decoder's result.
- The Databricks `Validate`, which assigns nothing, is a function.
- Connection strings have parser partners. Round-trip lemmas show that
  each field can be read back from the printed string.
- The reducers are specified by the list functions of `Reducers`.

Module layout:

| module | file |
|---|---|
| `Wrappers` | `wrappers.dfy` |
| `Text` | `text.dfy` |
| `Decimal` | `decimal.dfy` |
| `KeyValue` | `keyvalue.dfy` |
| `Required` | `required.dfy` |
| `Catalog` | `catalog.dfy` |
| `Json` | `json.dfy` |
| `SqlServer` | `sqlserver.dfy` |
| `PostgreSql` | `postgresql.dfy` |
| `Databricks` | `databricks.dfy` |
| `Registry` | `registry.dfy` |
| `Drivers` | `drivers.dfy` |
| `ConnectionModel` | `models_connection.dfy` |
| `ValidationModel` | `models_validation.dfy` |
| `FrontendTypes` | `frontend_types.dfy` |
| `Reducers` | `reducers.dfy` |
| `ConnectionSlice` | `connection_slice.dfy` |
| `ValidationSlice` | `validation_slice.dfy` |

The SQL Server unit tests disagree with the code on one point. The tests at
`internal/connectors/sqlserver/sqlserver_test.go:151` and `:163` expect
`TrustServerCertificate=true` for configs that leave the flag unset. The code
(`internal/connectors/sqlserver/sqlserver.go:195-198`) prints `true` only when
the flag is set. The model follows the code. `SqlServer.BasicTestConnectionString`
shows that the first test's config yields the field
`TrustServerCertificate=false`, not `true`.

## Model

| member | source | states |
|---|---|---|
| Text.Split | internal/connectors/sqlserver/sqlserver.go:148 | `strings.Split`: one more part than there are separators; no part contains the separator; joining the parts gives the input back |
| Text.SplitJoin | internal/connectors/sqlserver/sqlserver.go:148 | splitting the join of separator-free parts gives those parts back |
| Text.TrimPrefix | internal/connectors/databricks/databricks.go:183-184 | `strings.TrimPrefix`: with the prefix present, prefix + result is the input; otherwise the input is unchanged |
| Decimal.ParseFormatInt | internal/connectors/sqlserver/sqlserver.go:200 | the `%d` rendering of any integer, including negatives, parses back to that integer |
| Decimal.FormatIntInjective | internal/connectors/sqlserver/sqlserver.go:200 | different ports print differently |
| KeyValue.ParseRender | internal/connectors/sqlserver/sqlserver.go:200-202 | `key=value` fields joined by a separator parse back into the same fields when keys and values contain neither the separator nor `=` |
| Required.FirstMissing | internal/connectors/sqlserver/sqlserver.go:33-44 | there is an error exactly when some required field is empty |
| Required.FirstMissingAt | internal/connectors/sqlserver/sqlserver.go:33-44 | the error names the earliest empty field in check order, as "<field> is required" |
| Catalog.SplitTableName | internal/connectors/sqlserver/sqlserver.go:148-156 | a name with exactly one dot gives dot-free (schema, table) that rejoin to the name; any other name gives (default schema, whole name) |
| Catalog.SplitQualified | internal/connectors/sqlserver/sqlserver.go:148-152 | `schema.table` with dot-free parts splits back into those parts |
| Catalog.ColumnFromRow | internal/connectors/sqlserver/sqlserver.go:181 | a column is nullable exactly when the catalog value is "YES" |
| SqlServer.WithDefaults | internal/connectors/sqlserver/sqlserver.go:45-47 | a zero port becomes 1433; a nonzero port is kept; no other field changes |
| SqlServer.Validated | internal/connectors/sqlserver/sqlserver.go:32-49 | validation succeeds exactly when server, database, username and password are all non-empty, and then yields the defaulted config |
| SqlServer.ValidatedOrder | internal/connectors/sqlserver/sqlserver.go:33-44 | the fields are checked in the order server, database, username, password; the first empty one is reported |
| SqlServer.ValidatedIdempotent | internal/connectors/sqlserver/sqlserver.go:32-49 | a validated config validates again to itself |
| SqlServer.Config.constructor | internal/connectors/sqlserver/sqlserver.go:21-29 | the config holds the given settings |
| SqlServer.Config.Validate | internal/connectors/sqlserver/sqlserver.go:32-49 | on error, the message is the first missing field's and the config, port included, is untouched; on success, the config is the defaulted one |
| SqlServer.ParseConfig | internal/connectors/sqlserver/sqlserver.go:65-83 | marshal and unmarshal failures are wrapped with their prefixes; a decoded config fails exactly when validation fails and otherwise comes back with defaults |
| SqlServer.FlagsPrinted | internal/connectors/sqlserver/sqlserver.go:190-198 | the printed encrypt flag is "true" exactly when `Encrypt` is set; the printed trust flag is "true" exactly when `TrustServerCertificate` is set |
| SqlServer.ConnectionString | internal/connectors/sqlserver/sqlserver.go:189-203 | the string is exactly `server=<server>;port=<port>;database=<database>;user id=<username>;password=<password>;encrypt=<flag>;TrustServerCertificate=<flag>` for every config, values unescaped; for text fields without `;` or `=` it splits back into those seven fields in that order, and every setting, a negative port and both flags included, is read back from it |
| SqlServer.BasicTestConnectionString | internal/connectors/sqlserver/sqlserver_test.go:143-152 | for the "basic config" test, the code prints `encrypt=false` and `TrustServerCertificate=false`, not the `true` the test expects |
| SqlServer.SchemaAndTable | internal/connectors/sqlserver/sqlserver.go:148-156 | the split with default schema "dbo" |
| PostgreSql.WithDefaults | internal/connectors/postgresql/postgresql.go:44-49 | a zero port becomes 5432 and a nonzero one is kept; an empty SSL mode becomes "prefer" and a non-empty one is kept; no other field changes |
| PostgreSql.Validated | internal/connectors/postgresql/postgresql.go:31-51 | validation succeeds exactly when host, database, username and password are all non-empty, and then yields the defaulted config |
| PostgreSql.ValidatedOrder | internal/connectors/postgresql/postgresql.go:32-43 | the fields are checked in the order host, database, username, password; the first empty one is reported |
| PostgreSql.ValidatedIdempotent | internal/connectors/postgresql/postgresql.go:31-51 | a validated config validates again to itself |
| PostgreSql.Config.constructor | internal/connectors/postgresql/postgresql.go:21-28 | the config holds the given settings |
| PostgreSql.Config.Validate | internal/connectors/postgresql/postgresql.go:31-51 | on error, neither port nor SSL mode is touched; on success, both defaults are applied |
| PostgreSql.ParseConfig | internal/connectors/postgresql/postgresql.go:67-85 | decoding failures are wrapped; a decoded config succeeds exactly when it validates, and comes back with defaults |
| PostgreSql.ConnectionString | internal/connectors/postgresql/postgresql.go:191-194 | the string is exactly `host=<host> port=<port> user=<username> password=<password> dbname=<database> sslmode=<mode>` for every config, values unescaped; for text fields without a space or `=` it splits back into those six fields in that order, and every setting is read back from it |
| PostgreSql.SchemaAndTable | internal/connectors/postgresql/postgresql.go:150-158 | the split with default schema "public" |
| Databricks.Validate | internal/connectors/databricks/databricks.go:28-39 | the error is the first of workspace URL, HTTP path and access token that is empty; the config is never changed |
| Databricks.ValidateSucceeds | internal/connectors/databricks/databricks.go:28-39 | validation passes exactly when all three fields are non-empty |
| Databricks.ParseConfig | internal/connectors/databricks/databricks.go:55-73 | decoding failures are wrapped; a decoded config comes back unchanged exactly when it validates, otherwise the validation error is returned |
| Databricks.Host | internal/connectors/databricks/databricks.go:183-184 | the host is the workspace with at most one "https://" and then at most one "http://" removed |
| Databricks.HostWithoutScheme | internal/connectors/databricks/databricks.go:183-184 | a workspace with neither prefix is its own host |
| Databricks.HostOfHttps | internal/connectors/databricks/databricks.go:183 | "https://" + h gives host h (when h does not itself start with "http://") |
| Databricks.HostOfHttp | internal/connectors/databricks/databricks.go:184 | "http://" + h gives host h |
| Databricks.HostOfBoth | internal/connectors/databricks/databricks.go:183-184 | "https://http://" + h gives host h: both prefixes are removed, in that order |
| Databricks.HostAndPathRoundTrip | internal/connectors/databricks/databricks.go:187-188 | after the token, host and HTTP path are read back around the fixed ":443" |
| Databricks.ConnectionString | internal/connectors/databricks/databricks.go:181-188 | for a token without '@' and a host without ':', the token, host and HTTP path are read back from `databricks://token:<token>@<host>:443<path>`; the port is always 443 |
| Databricks.SchemaAndTable | internal/connectors/databricks/databricks.go:140-148 | the split with default schema "default" |
| Registry.Registry.constructor | internal/connectors/registry.go:10 | the registry starts empty |
| Registry.Registry.Register | internal/connectors/registry.go:15-19 | the name maps to the new factory, overwriting any old one; every other entry is unchanged |
| Registry.Registry.Get | internal/connectors/registry.go:22-31 | succeeds exactly for registered names, with the factory's product; otherwise fails with "unsupported connector type: <name>"; the registry is not modified |
| Registry.Registry.List | internal/connectors/registry.go:34-42 | every registered name appears exactly once, in any order; the length is the registry size |
| Drivers.Connector.Type | internal/connectors/sqlserver/sqlserver.go:60-62 | each connector's type is the name of a connection type a stored connection may carry |
| Drivers.ConnectorOfType | internal/connectors/sqlserver/sqlserver.go:60-62 | a connector found by name reports that name from `Type()` |
| Drivers.TypeIdentifies | internal/connectors/databricks/databricks.go:50-52 | the three `Type()` names are distinct: each connector is found again by its own name |
| Drivers.ConnectorFor | internal/models/connection.go:13-15 | each stored connection type names the connector whose `Type()` equals it |
| Drivers.RegisterAll | internal/connectors/sqlserver/sqlserver.go:13-17 | the three `init()` calls register each connector's factory under its type name |
| Drivers.GetLoaded | internal/models/connection.go:13-15 | once the packages are loaded, `Get` succeeds for every connection type and yields a connector of that type |
| ConnectionModel.ParseConnectionType | internal/models/connection.go:12-16 | a string read as a connection type is that type's name |
| ConnectionModel.ParseName | internal/models/connection.go:13-15 | every connection type is read back from its name, so the three names are distinct |
| ConnectionModel.ParseExactlyNames | internal/models/connection.go:12-16 | a string is a connection type exactly when it is one of the three names |
| ConnectionModel.ConnectionConfig.constructor | internal/models/connection.go:18 | the config holds the given entries |
| ConnectionModel.ConnectionConfig.Scan | internal/models/connection.go:24-36 | nil gives an empty map and no error; a non-byte value gives "cannot scan non-byte value into ConnectionConfig" and leaves the map alone; bytes give the decoder's result |
| ValidationModel.ParseStatus | internal/models/validation.go:14-19 | a string read as a status is that status's name |
| ValidationModel.ParseName | internal/models/validation.go:14-19 | every status is read back from its name, so the four names are distinct |
| ValidationModel.ParseExactlyNames | internal/models/validation.go:14-19 | a string is a status exactly when it is pending, running, completed or failed |
| ValidationModel.DefaultStatus | internal/models/validation.go:78-80 | the result is never empty, and a non-empty status is kept |
| ValidationModel.DefaultStatusIdempotent | internal/models/validation.go:77-82 | defaulting twice is defaulting once |
| ValidationModel.DefaultStatusKnown | internal/models/validation.go:77-82 | an empty or known status becomes a known one; an empty one becomes pending |
| ValidationModel.Validation.constructor | internal/models/validation.go:61-75 | the record holds the given fields |
| ValidationModel.Validation.BeforeCreate | internal/models/validation.go:77-82 | an empty status becomes "pending", any other status is kept, and the hook returns no error |
| ValidationModel.ValidationConfig.constructor | internal/models/validation.go:21 | the config holds the given entries |
| ValidationModel.ValidationConfig.Scan | internal/models/validation.go:27-39 | nil gives an empty map and no error; a non-byte value gives "cannot scan non-byte value into ValidationConfig" and leaves the map alone; bytes give the decoder's result |
| ValidationModel.ValidationResults.constructor | internal/models/validation.go:41 | the results hold the given entries |
| ValidationModel.ValidationResults.Scan | internal/models/validation.go:47-59 | the same three cases, naming ValidationResults in the error |
| Reducers.FindIndex | frontend/src/store/slices/connectionSlice.ts:101 | -1 exactly when no element has the id; otherwise the first position holding it |
| Reducers.ReplaceFirst | frontend/src/store/slices/connectionSlice.ts:101-104 | the length is preserved |
| Reducers.ReplaceFirstSpec | frontend/src/store/slices/connectionSlice.ts:101-104 | with no matching id the list is unchanged; otherwise only the first matching position is replaced |
| Reducers.ReplaceFirstKeys | frontend/src/store/slices/connectionSlice.ts:101-104 | replacing never changes the list of ids |
| Reducers.RemoveAll | frontend/src/store/slices/connectionSlice.ts:108 | no remaining element has the id, and the list does not grow |
| Reducers.RemoveAllAppend | frontend/src/store/slices/connectionSlice.ts:108 | filtering distributes over concatenation, so the kept elements keep their order |
| Reducers.RemoveAllCounts | frontend/src/store/slices/connectionSlice.ts:108 | every element without the id keeps its number of occurrences; elements with the id are gone |
| Reducers.RemoveAbsent | frontend/src/store/slices/connectionSlice.ts:108 | deleting an absent id is a no-op |
| Reducers.RemoveAllIdempotent | frontend/src/store/slices/connectionSlice.ts:108 | deleting twice is deleting once |
| Reducers.UpdateAfterRemove | frontend/src/store/slices/connectionSlice.ts:100-109 | an update for an id that was deleted changes nothing |
| Reducers.RejectedMessage | frontend/src/store/slices/connectionSlice.ts:89 | a present, non-empty message is used; otherwise the fallback is used; the result is non-empty when the fallback is |
| ConnectionSlice.ConnectionStore.constructor | frontend/src/store/slices/connectionSlice.ts:13-19 | the initial state: no connections, no current connection, not loading, no error, no test result |
| ConnectionSlice.ConnectionStore.ClearError | frontend/src/store/slices/connectionSlice.ts:70-72 | only the error is cleared |
| ConnectionSlice.ConnectionStore.ClearTestResult | frontend/src/store/slices/connectionSlice.ts:73-75 | only the test result is cleared |
| ConnectionSlice.ConnectionStore.FetchConnectionsPending | frontend/src/store/slices/connectionSlice.ts:80-82 | loading becomes true; everything else, the error included, is unchanged |
| ConnectionSlice.ConnectionStore.FetchConnectionsFulfilled | frontend/src/store/slices/connectionSlice.ts:83-86 | loading ends and the list is exactly the payload |
| ConnectionSlice.ConnectionStore.FetchConnectionsRejected | frontend/src/store/slices/connectionSlice.ts:87-90 | loading ends and the error is the message, or 'Failed to fetch connections'; the list is unchanged |
| ConnectionSlice.ConnectionStore.FetchConnectionFulfilled | frontend/src/store/slices/connectionSlice.ts:92-94 | only the current connection is set |
| ConnectionSlice.ConnectionStore.CreateConnectionFulfilled | frontend/src/store/slices/connectionSlice.ts:96-98 | the payload is appended; the old list is a prefix and the length grows by one |
| ConnectionSlice.ConnectionStore.UpdateConnectionFulfilled | frontend/src/store/slices/connectionSlice.ts:100-105 | the first connection with the payload's id is replaced, with the length kept; nothing else changes |
| ConnectionSlice.ConnectionStore.DeleteConnectionFulfilled | frontend/src/store/slices/connectionSlice.ts:107-109 | every connection with the id is removed and the others keep their order |
| ConnectionSlice.ConnectionStore.TestConnectionFulfilled | frontend/src/store/slices/connectionSlice.ts:111-113 | only the test result is set |
| ValidationSlice.ValidationStore.constructor | frontend/src/store/slices/validationSlice.ts:12-17 | the initial state: no validations, no current validation, not loading, no error |
| ValidationSlice.ValidationStore.ClearError | frontend/src/store/slices/validationSlice.ts:68-70 | only the error is cleared |
| ValidationSlice.ValidationStore.FetchValidationsPending | frontend/src/store/slices/validationSlice.ts:75-77 | loading becomes true; the rest is unchanged |
| ValidationSlice.ValidationStore.FetchValidationsFulfilled | frontend/src/store/slices/validationSlice.ts:78-81 | loading ends and the list is exactly the payload |
| ValidationSlice.ValidationStore.FetchValidationsRejected | frontend/src/store/slices/validationSlice.ts:82-85 | loading ends and the error is the message, or 'Failed to fetch validations' |
| ValidationSlice.ValidationStore.FetchValidationFulfilled | frontend/src/store/slices/validationSlice.ts:87-89 | only the current validation is set |
| ValidationSlice.ValidationStore.CreateValidationFulfilled | frontend/src/store/slices/validationSlice.ts:91-93 | the payload is appended at the end |
| ValidationSlice.ValidationStore.UpdateValidationFulfilled | frontend/src/store/slices/validationSlice.ts:95-100 | the first validation with the payload's id is replaced, with the length kept |
| ValidationSlice.ValidationStore.DeleteValidationFulfilled | frontend/src/store/slices/validationSlice.ts:102-104 | every validation with the id is removed and the others keep their order |
| ValidationSlice.ValidationStore.RunValidationFulfilled | frontend/src/store/slices/validationSlice.ts:106-111 | the run's result replaces the first validation with its id, as an update does |

## Left out

- Database access is not modelled. This covers `Connect`, `TestConnection`,
  `GetTables` and the query half of `GetColumns`, which are `database/sql`
  driver calls. Only the table-name split and the nullable mapping are modelled.
- The JSON codec is not modelled, because it is a foreign library. The
  configs' `Value` methods (`json.Marshal`) are left out for the same reason.
  - `ParseConfig` takes the outcome of its marshal/unmarshal round trip as
    input (`Json.Decoded`).
  - `Scan` takes the decoder as a function parameter.
  - Decoding errors, such as a string port, are therefore inputs, not
    derived.
- The registry's `sync.RWMutex` is not modelled. Calls are taken to be
  sequential.
- Go's `int` is unbounded here. The Go `int` width of `Port` is not modelled
  because no operation does arithmetic on it.
- `Databricks.ConnectionString` promises the round trip only when the token
  contains no '@' and the host contains no ':'. Other strings print
  ambiguously; the printed string itself is still modelled exactly.
- `SqlServer.ConnectionString` and `PostgreSql.ConnectionString` promise the
  round trip only when the text fields contain no separator and no `=`. Other
  values print ambiguously.
- Registry factories are pure functions returning a connector value. Go
  returns a fresh `*Connector` each time; pointer identity is not modelled.
- Drivers do not model the order in which Go runs the three package `init()`
  functions. Registration under three distinct names makes the order
  irrelevant.
- `Registry.Registry.List`: the Go order of map iteration is unspecified, and
  the model picks an arbitrary remaining name at each step.
- Frontend entities keep numbers only as integer ids. Results hold
  floating-point values such as `success_rate`; they are kept as opaque JSON.
  `createAsyncThunk`, the services' HTTP calls and the React pages are not
  modelled.
- The user, timestamp and association fields of the Go records are not
  modelled, and neither are the HTTP handlers, services and database setup.
