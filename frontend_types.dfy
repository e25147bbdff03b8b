/** The entities the frontend store holds, mirroring `frontend/src/types/index.ts`.
    Nested JSON (a connection's config, a validation's config and results) is
    kept as JSON objects; numbers are ids only, so floating point does not arise. */
module FrontendTypes {
  import opened Wrappers
  import Json

  datatype Connection = Connection(
    id: int,
    name: string,
    connectionType: string,
    config: Json.JsonObject,
    createdAt: Option<string>,
    updatedAt: Option<string>)

  datatype Validation = Validation(
    id: int,
    name: string,
    sourceConnectionId: int,
    targetConnectionId: int,
    config: Json.JsonObject,
    status: string,
    results: Option<Json.JsonObject>,
    createdAt: Option<string>,
    updatedAt: Option<string>)

  /** The payload of a connection test. */
  datatype TestResult = TestResult(success: bool, message: string)

  /** The id selectors the reducers compare with `===`. */
  function ConnectionId(c: Connection): int { c.id }

  function ValidationId(v: Validation): int { v.id }
}
