/** `internal/models/validation.go`: the validation status values, the
    `BeforeCreate` hook that defaults the status, and the `Scan` hooks of the
    JSON config and results columns. */
module ValidationModel {
  import opened Wrappers
  import Json

  /** The four `ValidationStatus` constants. */
  datatype ValidationStatus = Pending | Running | Completed | Failed
  {
    /** The string stored for the status. */
    function Name(): string
    {
      match this
      case Pending => "pending"
      case Running => "running"
      case Completed => "completed"
      case Failed => "failed"
    }
  }

  /** The status a stored string stands for, if any. */
  function ParseStatus(s: string): (r: Option<ValidationStatus>)
    ensures r.Some? ==> r.value.Name() == s
  {
    if s == "pending" then Some(Pending)
    else if s == "running" then Some(Running)
    else if s == "completed" then Some(Completed)
    else if s == "failed" then Some(Failed)
    else None
  }

  /** Every status is read back from its name, so the four names are distinct. */
  lemma ParseName(st: ValidationStatus)
    ensures ParseStatus(st.Name()) == Some(st)
  {
    match st
    case Pending =>
    case Running =>
      assert "running"[0] != "pending"[0];
    case Completed =>
      assert "completed"[0] != "pending"[0] && "completed"[0] != "running"[0];
    case Failed =>
      assert "failed"[0] != "pending"[0] && "failed"[0] != "running"[0];
      assert "failed"[0] != "completed"[0];
  }

  /** A string is a status exactly when it is one of the four names. */
  lemma ParseExactlyNames(s: string)
    ensures ParseStatus(s).Some? <==> exists st: ValidationStatus :: st.Name() == s
  {
    if exists st: ValidationStatus :: st.Name() == s {
      var st: ValidationStatus :| st.Name() == s;
      ParseName(st);
    }
  }

  /** The status `BeforeCreate` leaves behind: an empty one becomes "pending". */
  function DefaultStatus(status: string): (r: string)
    ensures r != ""
    ensures status != "" ==> r == status
  {
    if status == "" then Pending.Name() else status
  }

  /** Defaulting twice is defaulting once. */
  lemma DefaultStatusIdempotent(status: string)
    ensures DefaultStatus(DefaultStatus(status)) == DefaultStatus(status)
  {
  }

  /** A record created with no status or a known one has a known status afterwards,
      and the empty status is the pending one. */
  lemma DefaultStatusKnown(status: string)
    requires status == "" || ParseStatus(status).Some?
    ensures ParseStatus(DefaultStatus(status)).Some?
    ensures status == "" ==> ParseStatus(DefaultStatus(status)) == Some(Pending)
  {
    if status == "" {
      ParseName(Pending);
    }
  }

  /** The `Validation` record, with the fields the model touches; the
      connection and user associations and the timestamps are not modelled. */
  class Validation {
    var name: string
    var sourceConnectionId: nat
    var targetConnectionId: nat
    var status: string

    constructor (name: string, sourceConnectionId: nat, targetConnectionId: nat, status: string)
      ensures this.name == name && this.status == status
      ensures this.sourceConnectionId == sourceConnectionId && this.targetConnectionId == targetConnectionId
    {
      this.name := name;
      this.sourceConnectionId := sourceConnectionId;
      this.targetConnectionId := targetConnectionId;
      this.status := status;
    }

    /** `BeforeCreate`: an empty status becomes "pending", any other status is
        kept, and the hook never fails. */
    method BeforeCreate() returns (err: Option<string>)
      modifies this`status
      ensures status == DefaultStatus(old(status))
      ensures old(status) == "" ==> status == Pending.Name()
      ensures err == None
    {
      if status == "" {
        status := Pending.Name();
      }
      err := None;
    }
  }

  /** `ValidationConfig`, the JSON config column of a validation. */
  class ValidationConfig {
    var entries: Json.JsonObject

    constructor (entries: Json.JsonObject)
      ensures this.entries == entries
    {
      this.entries := entries;
    }

    /** `Scan`: nil empties the map without error; a non-byte value is an error
        that leaves the map alone; bytes go to the JSON decoder, given as `unmarshal`. */
    method Scan(value: Json.DriverValue, unmarshal: Json.Unmarshal) returns (err: Option<string>)
      modifies this
      ensures value.Nil? ==> entries == map[] && err == None
      ensures value.NonBytes? ==> entries == old(entries) && err == Some(Json.NonBytesMessage("ValidationConfig"))
      ensures value.Bytes? ==> (entries, err) == unmarshal(value.data, old(entries))
    {
      match value
      case Nil =>
        entries := map[];
        err := None;
      case NonBytes =>
        err := Some(Json.NonBytesMessage("ValidationConfig"));
      case Bytes(data) =>
        var decoded := unmarshal(data, entries);
        entries, err := decoded.0, decoded.1;
    }
  }

  /** `ValidationResults`, the JSON results column of a validation. */
  class ValidationResults {
    var entries: Json.JsonObject

    constructor (entries: Json.JsonObject)
      ensures this.entries == entries
    {
      this.entries := entries;
    }

    /** `Scan`, as for `ValidationConfig` but naming `ValidationResults` in its error. */
    method Scan(value: Json.DriverValue, unmarshal: Json.Unmarshal) returns (err: Option<string>)
      modifies this
      ensures value.Nil? ==> entries == map[] && err == None
      ensures value.NonBytes? ==> entries == old(entries) && err == Some(Json.NonBytesMessage("ValidationResults"))
      ensures value.Bytes? ==> (entries, err) == unmarshal(value.data, old(entries))
    {
      match value
      case Nil =>
        entries := map[];
        err := None;
      case NonBytes =>
        err := Some(Json.NonBytesMessage("ValidationResults"));
      case Bytes(data) =>
        var decoded := unmarshal(data, entries);
        entries, err := decoded.0, decoded.1;
    }
  }
}
