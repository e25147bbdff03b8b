/** The required-field check shared by every connector's `Config.Validate`:
    fields are examined in a fixed order and the first empty one is reported as
    "<name> is required". */
module Required {
  import opened Wrappers

  /** The message reported for a missing field. */
  function Message(name: string): string
  {
    name + " is required"
  }

  /** The error for the first `(name, value)` pair whose value is empty, if any. */
  function FirstMissing(fields: seq<(string, string)>): (r: Option<string>)
    ensures r.None? <==> forall i :: 0 <= i < |fields| ==> fields[i].1 != ""
  {
    if |fields| == 0 then None
    else if fields[0].1 == "" then Some(Message(fields[0].0))
    else FirstMissing(fields[1..])
  }

  /** The message names the earliest empty field. */
  lemma {:induction false} FirstMissingAt(fields: seq<(string, string)>, i: nat)
    requires i < |fields| && fields[i].1 == ""
    requires forall j :: 0 <= j < i ==> fields[j].1 != ""
    ensures FirstMissing(fields) == Some(Message(fields[i].0))
    decreases i
  {
    if i > 0 {
      FirstMissingAt(fields[1..], i - 1);
    }
  }
}
