/** The `connections` slice of the frontend store
    (`frontend/src/store/slices/connectionSlice.ts`): its state and every
    reducer, each a method that updates the state in place for a given action
    payload. The async thunks and their HTTP calls are outside the model. */
module ConnectionSlice {
  import opened Wrappers
  import opened FrontendTypes
  import Reducers

  /** The message stored when fetching the list fails without one. */
  const FetchFailed: string := "Failed to fetch connections"

  /** `ConnectionState` as a value. */
  datatype ConnectionState = ConnectionState(
    connections: seq<Connection>,
    currentConnection: Option<Connection>,
    loading: bool,
    error: Option<string>,
    testResult: Option<TestResult>)

  /** `initialState`. */
  const Initial: ConnectionState := ConnectionState([], None, false, None, None)

  class ConnectionStore {
    var connections: seq<Connection>
    var currentConnection: Option<Connection>
    var loading: bool
    var error: Option<string>
    var testResult: Option<TestResult>

    /** The whole state of the slice. */
    function State(): ConnectionState
      reads this
    {
      ConnectionState(connections, currentConnection, loading, error, testResult)
    }

    /** The store starts from `initialState`: no connections, nothing current,
        not loading, no error and no test result. */
    constructor ()
      ensures State() == Initial
    {
      connections := [];
      currentConnection := None;
      loading := false;
      error := None;
      testResult := None;
    }

    /** `clearError`: only the error is cleared. */
    method ClearError()
      modifies this`error
      ensures State() == old(State()).(error := None)
    {
      error := None;
    }

    /** `clearTestResult`: only the test result is cleared. */
    method ClearTestResult()
      modifies this`testResult
      ensures State() == old(State()).(testResult := None)
    {
      testResult := None;
    }

    /** `fetchConnections.pending`: loading starts; an earlier error stays. */
    method FetchConnectionsPending()
      modifies this`loading
      ensures State() == old(State()).(loading := true)
    {
      loading := true;
    }

    /** `fetchConnections.fulfilled`: loading ends and the list is exactly the payload. */
    method FetchConnectionsFulfilled(payload: seq<Connection>)
      modifies this`loading, this`connections
      ensures State() == old(State()).(loading := false, connections := payload)
    {
      loading := false;
      connections := payload;
    }

    /** `fetchConnections.rejected`: loading ends and the error is the message,
        or the fallback when the message is missing or empty; the list stays. */
    method FetchConnectionsRejected(message: Option<string>)
      modifies this`loading, this`error
      ensures State() == old(State()).(loading := false, error := Some(Reducers.RejectedMessage(message, FetchFailed)))
      ensures error.Some? && error.value != ""
    {
      loading := false;
      error := Some(Reducers.RejectedMessage(message, FetchFailed));
    }

    /** `fetchConnection.fulfilled`: only the current connection is set; loading is untouched. */
    method FetchConnectionFulfilled(payload: Connection)
      modifies this`currentConnection
      ensures State() == old(State()).(currentConnection := Some(payload))
    {
      currentConnection := Some(payload);
    }

    /** `createConnection.fulfilled`: the payload is pushed at the end. */
    method CreateConnectionFulfilled(payload: Connection)
      modifies this`connections
      ensures State() == old(State()).(connections := old(connections) + [payload])
      ensures |connections| == |old(connections)| + 1 && connections[..|old(connections)|] == old(connections)
    {
      connections := connections + [payload];
    }

    /** `updateConnection.fulfilled`: the first connection with the payload's id
        is replaced; with none, nothing changes. */
    method UpdateConnectionFulfilled(payload: Connection)
      modifies this`connections
      ensures State() == old(State()).(connections := Reducers.ReplaceFirst(old(connections), ConnectionId, payload))
      ensures |connections| == |old(connections)|
    {
      var index := Reducers.FindIndex(connections, ConnectionId, payload.id);
      if index != -1 {
        connections := connections[index := payload];
      }
    }

    /** `deleteConnection.fulfilled`: every connection with the id is filtered out. */
    method DeleteConnectionFulfilled(id: int)
      modifies this`connections
      ensures State() == old(State()).(connections := Reducers.RemoveAll(old(connections), ConnectionId, id))
      ensures forall i :: 0 <= i < |connections| ==> connections[i].id != id
    {
      connections := Reducers.RemoveAll(connections, ConnectionId, id);
    }

    /** `testConnection.fulfilled`: only the test result is set. */
    method TestConnectionFulfilled(payload: TestResult)
      modifies this`testResult
      ensures State() == old(State()).(testResult := Some(payload))
    {
      testResult := Some(payload);
    }
  }
}
