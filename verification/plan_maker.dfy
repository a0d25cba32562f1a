/**
 The plan maker proper: looks a table up, derives the table-level names,
 and folds the column rules over the columns in order while carrying the
 table-wide flags.
 */
module PlanMaker {
  import opened Wrappers
  import opened DbTypes
  import opened PlanTypes
  import opened Strings
  import opened ColumnRules

  /** Both failures of the plan maker are argument errors carrying a message. */
  datatype PlanError = IllegalArgument(message: string)

  const BlankTableNameMessage: string := "tableName must not empty"
  const TableNotFoundPrefix: string := "can't find tableName:"

  /**
   Module and function name of a table: the parts before and after the first
   delimiter, or the whole name twice when there is no delimiter.
   */
  function ExtractModuleAndFunction(tableName: string): (r: (string, string))
    ensures DbDelimiter !in tableName ==> r.0 == tableName && r.1 == tableName
    ensures DbDelimiter in tableName ==> DbDelimiter !in r.0 && r.0 + [DbDelimiter] + r.1 == tableName
  {
    var parts := SplitOnce(tableName, DbDelimiter);
    (parts[0], if |parts| == 2 then parts[1] else parts[0])
  }

  /** The split is the only one with a delimiter-free module part: any such
      module and function joined by the delimiter split back into themselves. */
  lemma ExtractInvertsJoin(moduleName: string, functionName: string)
    requires DbDelimiter !in moduleName
    ensures ExtractModuleAndFunction(moduleName + [DbDelimiter] + functionName) == (moduleName, functionName)
  {
    SplitOnceOfJoin(moduleName, DbDelimiter, functionName);
  }

  /**
   The column plans in input order, and the flags after the last column.
   Each plan depends only on its own column, and the flags are those of
   raising each column's flags in turn.
   */
  function CreateColumnPlans(cols: seq<DbTableColumn>, acc: Flags): (r: (seq<ColumnPlan>, Flags))
    ensures |r.0| == |cols|
    ensures forall i :: 0 <= i < |cols| ==> r.0[i] == ColumnPlanOf(cols[i])
    ensures r.1 == FoldFlags(cols, acc)
    decreases |cols|
  {
    if |cols| == 0 then ([], acc)
    else
      var first := PlanColumn(cols[0], acc);
      var rest := CreateColumnPlans(cols[1..], first.flags);
      ChainMatchesReference(cols[0], acc);
      PrependMapped(cols, ColumnPlanOf, first.plan, rest.0);
      ([first.plan] + rest.0, rest.1)
  }

  /** The flags after raising, column by column, the flags each one triggers. */
  function FoldFlags(cols: seq<DbTableColumn>, acc: Flags): (r: Flags)
    ensures FlagsGrow(acc, r)
    decreases |cols|
  {
    if |cols| == 0 then acc else FoldFlags(cols[1..], RaiseFlags(cols[0], acc))
  }

  /** The four table-wide flags, by name. */
  datatype FlagKind = ImportDate | HasBlob | ImportBigDecimal | HasSearch

  function Flag(f: Flags, k: FlagKind): bool {
    match k
    case ImportDate => f.importDate
    case HasBlob => f.hasBlob
    case ImportBigDecimal => f.importBigDecimal
    case HasSearch => f.hasSearch
  }

  /** Whether column `c` raises flag `k`. */
  predicate Triggers(c: DbTableColumn, k: FlagKind) {
    match k
    case ImportDate => NeedsDate(c)
    case HasBlob => IsBlob(c)
    case ImportBigDecimal => NeedsBigDecimal(c)
    case HasSearch => Searchable(c)
  }

  /** A flag after the columns is raised exactly when it was raised on entry
      or some column triggers it. */
  lemma {:induction false} FlagRaisedBySome(cols: seq<DbTableColumn>, acc: Flags, k: FlagKind)
    ensures Flag(FoldFlags(cols, acc), k) <==> Flag(acc, k) || exists i :: 0 <= i < |cols| && Triggers(cols[i], k)
    decreases |cols|
  {
    if |cols| > 0 {
      var mid := RaiseFlags(cols[0], acc);
      assert Flag(mid, k) <==> Flag(acc, k) || Triggers(cols[0], k);
      FlagRaisedBySome(cols[1..], mid, k);
      if exists i :: 0 <= i < |cols| && Triggers(cols[i], k) {
        var i :| 0 <= i < |cols| && Triggers(cols[i], k);
        if i > 0 {
          assert Triggers(cols[1..][i - 1], k);
        }
      }
    }
  }

  /** Each flag after the columns is raised exactly when it was raised on
      entry or some column triggers it. */
  lemma FlagsRaisedBySome(cols: seq<DbTableColumn>, acc: Flags)
    ensures var r := FoldFlags(cols, acc);
      && (r.importDate <==> acc.importDate || exists i :: 0 <= i < |cols| && NeedsDate(cols[i]))
      && (r.hasBlob <==> acc.hasBlob || exists i :: 0 <= i < |cols| && IsBlob(cols[i]))
      && (r.importBigDecimal <==> acc.importBigDecimal || exists i :: 0 <= i < |cols| && NeedsBigDecimal(cols[i]))
      && (r.hasSearch <==> acc.hasSearch || exists i :: 0 <= i < |cols| && Searchable(cols[i]))
  {
    FlagRaisedBySome(cols, acc, ImportDate);
    FlagRaisedBySome(cols, acc, HasBlob);
    FlagRaisedBySome(cols, acc, ImportBigDecimal);
    FlagRaisedBySome(cols, acc, HasSearch);
  }

  /** Putting `f` of the first element in front of `f` mapped over the rest
      maps `f` over the whole sequence. */
  lemma PrependMapped<A, B>(xs: seq<A>, f: A -> B, first: B, rest: seq<B>)
    requires |xs| > 0 && |rest| == |xs| - 1
    requires first == f(xs[0])
    requires forall i :: 0 <= i < |rest| ==> rest[i] == f(xs[1..][i])
    ensures forall i :: 0 <= i < |xs| ==> ([first] + rest)[i] == f(xs[i])
  {
    forall i | 0 < i < |xs|
      ensures ([first] + rest)[i] == f(xs[i])
    {
      assert xs[1..][i - 1] == xs[i];
    }
  }

  /**
   The default plan of a table. The menu name is first the table comment and
   is then overwritten by the module part, so the comment does not survive.
   */
  function CreateDefaultTablePlan(table: DbTable, cols: seq<DbTableColumn>): (r: TablePlan)
    ensures r.tableName == table.name
    ensures (r.menuName, r.functionName) == ExtractModuleAndFunction(table.name)
    ensures r.templateType == Crud
    ensures r.className == ToCamelCase(table.name, true)
    ensures |r.columnPlans| == |cols|
    ensures forall i :: 0 <= i < |cols| ==> r.columnPlans[i] == ColumnPlanOf(cols[i])
    ensures r.importDate <==> exists i :: 0 <= i < |cols| && NeedsDate(cols[i])
    ensures r.hasBlob <==> exists i :: 0 <= i < |cols| && IsBlob(cols[i])
    ensures r.importBigDecimal <==> exists i :: 0 <= i < |cols| && NeedsBigDecimal(cols[i])
    ensures r.hasSearch <==> exists i :: 0 <= i < |cols| && Searchable(cols[i])
  {
    var initial := TablePlan(
      tableName := table.name,
      menuName := table.comment,
      functionName := "",
      templateType := Crud,
      className := "",
      columnPlans := [],
      importDate := NoFlags.importDate,
      hasBlob := NoFlags.hasBlob,
      importBigDecimal := NoFlags.importBigDecimal,
      hasSearch := NoFlags.hasSearch);
    var names := ExtractModuleAndFunction(table.name);
    var named := initial.(menuName := names.0, functionName := names.1, className := ToCamelCase(table.name, true));
    var columns := CreateColumnPlans(cols, NoFlags);
    FlagsRaisedBySome(cols, NoFlags);
    named.(
      columnPlans := columns.0,
      importDate := columns.1.importDate,
      hasBlob := columns.1.hasBlob,
      importBigDecimal := columns.1.importBigDecimal,
      hasSearch := columns.1.hasSearch)
  }

  /**
   The plan for `tableName`, given what the schema lookup returned for it:
   `foundTables` for the table query and `columns` for the column query.
   A blank name is rejected before any lookup; an empty table lookup is
   rejected next; otherwise the first table found is planned.
   */
  function GetPlan(tableName: string, foundTables: seq<DbTable>, columns: seq<DbTableColumn>): (r: Result<TablePlan, PlanError>)
    ensures !HasText(tableName) ==> r == Failure(IllegalArgument(BlankTableNameMessage))
    ensures HasText(tableName) && |foundTables| == 0 ==>
              r == Failure(IllegalArgument(TableNotFoundPrefix + tableName))
    ensures r.Success? <==> HasText(tableName) && |foundTables| > 0
    ensures r.Success? ==> r.value == CreateDefaultTablePlan(foundTables[0], columns)
  {
    if !HasText(tableName) then Failure(IllegalArgument(BlankTableNameMessage))
    else if |foundTables| == 0 then Failure(IllegalArgument(TableNotFoundPrefix + tableName))
    else Success(CreateDefaultTablePlan(foundTables[0], columns))
  }

  // ---------------------------------------------------------------------------
  // Properties of whole plans
  // ---------------------------------------------------------------------------

  /** The menu name is the module part of the table name; with the function
      part it rebuilds the table name whenever the name has a delimiter. */
  lemma MenuNameIsModulePart(table: DbTable, cols: seq<DbTableColumn>)
    ensures var plan := CreateDefaultTablePlan(table, cols);
      && (DbDelimiter !in table.name ==> plan.menuName == table.name && plan.functionName == table.name)
      && (DbDelimiter in table.name ==>
            DbDelimiter !in plan.menuName && plan.menuName + [DbDelimiter] + plan.functionName == table.name)
  {
  }

  /** The table comment has no influence on the plan. */
  lemma CommentIsOverwritten(name: string, comment1: string, comment2: string, cols: seq<DbTableColumn>)
    ensures CreateDefaultTablePlan(DbTable(name, comment1), cols) == CreateDefaultTablePlan(DbTable(name, comment2), cols)
  {
  }

  /** The class name is the table name's words, each capitalized, joined;
      lower-casing it gives the table name without delimiters. A name made
      only of delimiters is its own class name. */
  lemma ClassNameIsUpperCamel(table: DbTable, cols: seq<DbTableColumn>)
    ensures HasWord(table.name) ==>
              && CreateDefaultTablePlan(table, cols).className == JoinCapitalized(Words(LowerCase(table.name)))
              && LowerCase(CreateDefaultTablePlan(table, cols).className) == RemoveDelimiters(LowerCase(table.name))
    ensures !HasWord(table.name) ==> CreateDefaultTablePlan(table, cols).className == table.name
  {
    var className := CreateDefaultTablePlan(table, cols).className;
    assert className == ToCamelCase(table.name, true);
    UpperCamelCaseIsCapitalizedWords(table.name);
    CamelCaseLowersToName(table.name, true);
  }

  /** Columns are neither reordered nor dropped: the i-th plan carries the
      metadata of the i-th column. */
  lemma ColumnOrderPreserved(table: DbTable, cols: seq<DbTableColumn>, i: nat)
    requires i < |cols|
    ensures |CreateDefaultTablePlan(table, cols).columnPlans| == |cols|
    ensures var p := CreateDefaultTablePlan(table, cols).columnPlans[i];
      && p.dbColumnName == cols[i].name
      && p.columnComment == cols[i].comment
      && p.columnType == cols[i].columnType
      && p.dataType == cols[i].dataType
      && p.maxLength == cols[i].maxLength
      && p.nullable == cols[i].nullable
      && p.sort == cols[i].sort
  {
  }

  /** Appending a column can only raise table flags, never lower them. */
  lemma FlagsMonotoneInColumns(table: DbTable, cols: seq<DbTableColumn>, extra: DbTableColumn)
    ensures var before := CreateDefaultTablePlan(table, cols);
      var after := CreateDefaultTablePlan(table, cols + [extra]);
      && (before.importDate ==> after.importDate)
      && (before.hasBlob ==> after.hasBlob)
      && (before.importBigDecimal ==> after.importBigDecimal)
      && (before.hasSearch ==> after.hasSearch)
  {
    var all := cols + [extra];
    forall i | 0 <= i < |cols|
      ensures all[i] == cols[i]
    {
    }
  }
}
