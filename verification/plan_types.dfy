/** The generation plan handed to the template renderer. */
module PlanTypes {
  import opened Wrappers
  import opened DbTypes

  /** The form widget generated for a column. */
  datatype InputType = Hidden | Text | TextArea | Date | IntegralNumber | Decimal

  /** How a search field compares; the rules only ever choose equality. */
  datatype QueryType = Equal

  /** The kind of feature generated for a table; the plan maker always picks CRUD. */
  datatype TemplateType = Crud

  /** How one column is rendered: copied metadata plus the rule-derived decisions. */
  datatype ColumnPlan = ColumnPlan(
    dbColumnName: string,
    columnComment: string,
    columnKey: ColumnKey,
    extra: ColumnExtra,
    columnType: string,
    dataType: ColumnDataType,
    maxLength: int,
    javaFieldName: string,
    nullable: bool,
    sort: int,
    insert: bool,
    update: bool,
    list: bool,
    search: bool,
    inputType: InputType,
    queryType: Option<QueryType>)

  /** How a whole table is rendered, with the table-wide import and feature flags. */
  datatype TablePlan = TablePlan(
    tableName: string,
    menuName: string,
    functionName: string,
    templateType: TemplateType,
    className: string,
    columnPlans: seq<ColumnPlan>,
    importDate: bool,
    hasBlob: bool,
    importBigDecimal: bool,
    hasSearch: bool)
}
