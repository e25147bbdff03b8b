/** The boundary to `encoding/json` and `database/sql`: JSON values, the outcome
    of the JSON round trip a connector's `ParseConfig` performs, and the values a
    database driver hands to a `Scan` method. The JSON codec itself is not part of
    this model; its results are inputs. */
module Json {
  import opened Wrappers

  /** A JSON value; numbers are kept as their literal text. */
  datatype Json =
    | Null
    | Bool(b: bool)
    | Number(literal: string)
    | String(text: string)
    | Array(items: seq<Json>)
    | Object(members: map<string, Json>)

  /** A decoded JSON object, the Go `map[string]interface{}` behind the
      `ConnectionConfig`, `ValidationConfig` and `ValidationResults` columns. */
  type JsonObject = map<string, Json>

  /** What `json.Marshal` followed by `json.Unmarshal` made of a raw config map. */
  datatype Decoded<T> =
    | MarshalFailed(reason: string)
    | UnmarshalFailed(reason: string)
    | Decoded(value: T)

  /** The dynamic value a driver passes to `Scan`: nil, a `[]byte`, or anything else. */
  datatype DriverValue = Nil | Bytes(data: seq<bv8>) | NonBytes

  /** `json.Unmarshal(data, target)` on a map: the map afterwards and the error, if any. */
  type Unmarshal = (seq<bv8>, JsonObject) -> (JsonObject, Option<string>)

  /** The error a `Scan` method returns for a value that is neither nil nor bytes. */
  function NonBytesMessage(typeName: string): string
  {
    "cannot scan non-byte value into " + typeName
  }
}
