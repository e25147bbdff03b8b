/** The connector-independent part of `GetColumns`: how a requested table name
    is split into schema and table, and how a catalog row becomes a `ColumnInfo`. */
module Catalog {
  import Text

  /** Column information as reported by a connector. */
  datatype ColumnInfo = ColumnInfo(name: string, dataType: string, nullable: bool)

  /** `strings.Split(tableName, ".")`: exactly two parts are `(schema, table)`;
      anything else is a table of the connector's default schema. */
  function SplitTableName(tableName: string, defaultSchema: string): (r: (string, string))
    ensures Text.Count(tableName, '.') == 1 ==>
              '.' !in r.0 && '.' !in r.1 && r.0 + "." + r.1 == tableName
    ensures Text.Count(tableName, '.') != 1 ==> r == (defaultSchema, tableName)
  {
    var parts := Text.Split(tableName, '.');
    if |parts| == 2 then
      assert Text.Join(parts, '.') == parts[0] + "." + parts[1];
      (parts[0], parts[1])
    else
      (defaultSchema, tableName)
  }

  /** A qualified name of dot-free parts is split back into those parts, whatever the default. */
  lemma {:induction false} SplitQualified(schema: string, table: string, defaultSchema: string)
    requires '.' !in schema && '.' !in table
    ensures SplitTableName(schema + "." + table, defaultSchema) == (schema, table)
  {
    assert Text.Join([schema, table], '.') == schema + "." + table;
    Text.SplitJoin([schema, table], '.');
  }

  /** A catalog row `(column_name, data_type, is_nullable)` as a `ColumnInfo`:
      nullable exactly when the catalog says "YES". */
  function ColumnFromRow(name: string, dataType: string, isNullable: string): (c: ColumnInfo)
    ensures c.name == name && c.dataType == dataType
    ensures c.nullable <==> isNullable == "YES"
  {
    ColumnInfo(name, dataType, isNullable == "YES")
  }
}
