/** Connection strings made of `key=value` fields joined by a separator
    (`;` for SQL Server, a space for PostgreSQL), and the reader that splits
    such a string back into its fields. */
module KeyValue {
  import opened Wrappers
  import Text

  /** One `key=value` field. */
  function Field(key: string, value: string): string
  {
    key + "=" + value
  }

  function Fields(pairs: seq<(string, string)>): (fields: seq<string>)
    ensures |fields| == |pairs|
    ensures forall i :: 0 <= i < |pairs| ==> fields[i] == Field(pairs[i].0, pairs[i].1)
  {
    if |pairs| == 0 then [] else [Field(pairs[0].0, pairs[0].1)] + Fields(pairs[1..])
  }

  /** `k1=v1<sep>k2=v2<sep>...`, in the order of `pairs`. */
  function Render(pairs: seq<(string, string)>, sep: char): string
  {
    Text.Join(Fields(pairs), sep)
  }

  /** One more field at the end: the separator, the key and `=` (together
      `lit`), then the value. */
  lemma RenderAppend(pairs: seq<(string, string)>, key: string, value: string, sep: char, lit: string)
    requires |pairs| >= 1 && lit == [sep] + key + "="
    ensures Render(pairs + [(key, value)], sep) == Render(pairs, sep) + lit + value
  {
    assert Fields(pairs + [(key, value)]) == Fields(pairs) + [Field(key, value)];
    Text.JoinSnoc(Fields(pairs), Field(key, value), sep);
  }

  /** A field with exactly one `=`, split around it. */
  function ParseField(field: string): Option<(string, string)>
  {
    var parts := Text.Split(field, '=');
    if |parts| == 2 then Some((parts[0], parts[1])) else None
  }

  function ParseFields(fields: seq<string>): (r: Option<seq<(string, string)>>)
    ensures r.Some? ==> |r.value| == |fields|
  {
    if |fields| == 0 then Some([])
    else match (ParseField(fields[0]), ParseFields(fields[1..]))
      case (Some(p), Some(ps)) => Some([p] + ps)
      case _ => None
  }

  /** Splits a connection string at `sep`, then every field at its `=`. */
  function Parse(s: string, sep: char): Option<seq<(string, string)>>
  {
    ParseFields(Text.Split(s, sep))
  }

  /** A key or value that contains neither the field separator nor `=`. */
  predicate Plain(t: string, sep: char)
  {
    sep !in t && '=' !in t
  }

  lemma {:induction false} ParseFieldOf(key: string, value: string)
    requires '=' !in key && '=' !in value
    ensures ParseField(Field(key, value)) == Some((key, value))
  {
    assert Text.Join([key, value], '=') == Field(key, value);
    Text.SplitJoin([key, value], '=');
  }

  lemma {:induction false} ParseFieldsOf(pairs: seq<(string, string)>)
    requires forall i :: 0 <= i < |pairs| ==> '=' !in pairs[i].0 && '=' !in pairs[i].1
    ensures ParseFields(Fields(pairs)) == Some(pairs)
    decreases |pairs|
  {
    if |pairs| > 0 {
      ParseFieldOf(pairs[0].0, pairs[0].1);
      ParseFieldsOf(pairs[1..]);
      assert Fields(pairs)[1..] == Fields(pairs[1..]);
      assert pairs == [pairs[0]] + pairs[1..];
    }
  }

  /** A rendering whose keys and values avoid both separators is read back
      field for field: the connection string is unambiguous. */
  lemma {:induction false} ParseRender(pairs: seq<(string, string)>, sep: char)
    requires |pairs| >= 1 && sep != '='
    requires forall i :: 0 <= i < |pairs| ==> Plain(pairs[i].0, sep) && Plain(pairs[i].1, sep)
    ensures Parse(Render(pairs, sep), sep) == Some(pairs)
  {
    var fields := Fields(pairs);
    forall i | 0 <= i < |fields|
      ensures sep !in fields[i]
    {
      assert fields[i] == pairs[i].0 + (['='] + pairs[i].1);
    }
    Text.SplitJoin(fields, sep);
    ParseFieldsOf(pairs);
  }
}
