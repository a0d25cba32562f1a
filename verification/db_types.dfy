/**
 Database metadata as the schema-introspection layer reports it: tables,
 columns, and the closed enumerations the plan rules test against.
 */
module DbTypes {
  import opened Wrappers

  /** Index classification of a column (MySQL's COLUMN_KEY). */
  datatype ColumnKey = NoKey | Pri | Uni | Mul

  /** Extra attribute of a column; only auto-increment matters to the rules. */
  datatype ColumnExtra = NoExtra | AutoIncrement

  /** The Java and JDBC type names a database data type maps to. */
  datatype ColumnDataType = ColumnDataType(javaType: string, jdbcType: string)

  /** Simple class names the rules compare a column's Java type against. */
  const DateJavaType: string := "Date"
  const IntegralJavaTypes: set<string> := {"Integer", "Long", "Short"}
  const DecimalJavaTypes: set<string> := {"Float", "Double", "BigDecimal"}

  /** The jdbcType of the long-text data type TEXT. */
  const TextJdbcType: string := "LONGVARCHAR"

  /** Names of the identity column and the free-text remarks column. */
  const IdColumn: string := "id"
  const RemarksColumn: string := "remarks"

  /** Names of the standard audit and identity columns shared by every table. */
  const DefaultColumns: set<string> :=
    {"id", "create_by", "create_time", "update_by", "create_date", "update_time", "remarks"}

  predicate IsDate(t: ColumnDataType) {
    t.javaType == DateJavaType
  }

  predicate IsText(t: ColumnDataType) {
    t.jdbcType == TextJdbcType
  }

  predicate IsIntegral(t: ColumnDataType) {
    t.javaType in IntegralJavaTypes
  }

  predicate IsDecimal(t: ColumnDataType) {
    t.javaType in DecimalJavaTypes
  }

  /** A table as found by name: its name and human-readable comment. */
  datatype DbTable = DbTable(name: string, comment: string)

  /**
   One physical column of a table. `columnKey` and `extra` are `None` when the
   database reported an empty string; `dataType` is already mapped to its
   Java/JDBC type names.
   */
  datatype DbTableColumn = DbTableColumn(
    name: string,
    comment: string,
    columnKey: Option<ColumnKey>,
    extra: Option<ColumnExtra>,
    columnType: string,
    dataType: ColumnDataType,
    maxLength: int,
    nullable: bool,
    sort: int)
}
