/**
 The per-column rule chain of the plan maker: a column is copied into a
 fresh `ColumnPlan`, then nine rules run in a fixed order, each free to
 override what an earlier one decided and to raise table-wide flags.
 */
module ColumnRules {
  import opened Wrappers
  import opened DbTypes
  import opened PlanTypes
  import opened Strings

  /** Columns that are never updated by the generated form. */
  const DefaultNotUpdateColumns: set<string> := {"id", "create_by", "create_date"}

  /** Columns that are hidden from the generated list view by default. */
  const DefaultNotListColumns: set<string> := {"id", "create_by", "create_time", "update_by", "remarks"}

  /** The table-wide flags the rules may raise while columns are processed. */
  datatype Flags = Flags(importDate: bool, hasBlob: bool, importBigDecimal: bool, hasSearch: bool)

  /** The flags of a freshly created table plan. */
  const NoFlags := Flags(false, false, false, false)

  /** Every flag raised in `a` is still raised in `b`. */
  predicate FlagsGrow(a: Flags, b: Flags) {
    && (a.importDate ==> b.importDate)
    && (a.hasBlob ==> b.hasBlob)
    && (a.importBigDecimal ==> b.importBigDecimal)
    && (a.hasSearch ==> b.hasSearch)
  }

  /** A column plan under construction together with the table-wide flags. */
  datatype Step = Step(plan: ColumnPlan, flags: Flags)

  /** An empty key string means no key, an empty extra string no extra. */
  function ResolveKey(k: Option<ColumnKey>): (r: ColumnKey)
    ensures r == NoKey <==> k == None || k == Some(NoKey)
    ensures k.Some? ==> r == k.value
  {
    match k
    case None => NoKey
    case Some(key) => key
  }

  function ResolveExtra(e: Option<ColumnExtra>): (r: ColumnExtra)
    ensures r == AutoIncrement <==> e == Some(AutoIncrement)
  {
    match e
    case None => NoExtra
    case Some(extra) => extra
  }

  /** The plan as the builder leaves it, before any rule has run: metadata
      copied, flags false, a text widget and no query type. */
  function BuildPlan(c: DbTableColumn): (r: ColumnPlan)
    ensures r.dbColumnName == c.name && r.dataType == c.dataType
    ensures r.columnComment == c.comment && r.columnType == c.columnType
    ensures r.maxLength == c.maxLength && r.nullable == c.nullable && r.sort == c.sort
    ensures r.javaFieldName == ToCamelCase(c.name, false)
    ensures r.columnKey == ResolveKey(c.columnKey) && r.extra == ResolveExtra(c.extra)
    ensures !r.insert && !r.update && !r.list && !r.search
    ensures r.inputType == Text && r.queryType == None
    ensures HasWord(c.name) ==> DbDelimiter !in r.javaFieldName
    ensures |r.javaFieldName| == 0 || !IsUpperAscii(r.javaFieldName[0])
  {
    LowerCamelStartsLower(c.name);
    ColumnPlan(
      dbColumnName := c.name,
      columnComment := c.comment,
      columnKey := ResolveKey(c.columnKey),
      extra := ResolveExtra(c.extra),
      columnType := c.columnType,
      dataType := c.dataType,
      maxLength := c.maxLength,
      javaFieldName := ToCamelCase(c.name, false),
      nullable := c.nullable,
      sort := c.sort,
      insert := false,
      update := false,
      list := false,
      search := false,
      inputType := Text,
      queryType := None)
  }

  /** The plan fields copied from the column, which no rule touches. */
  predicate SameMetadata(p: ColumnPlan, q: ColumnPlan) {
    && p.dbColumnName == q.dbColumnName
    && p.columnComment == q.columnComment
    && p.columnKey == q.columnKey
    && p.extra == q.extra
    && p.columnType == q.columnType
    && p.dataType == q.dataType
    && p.maxLength == q.maxLength
    && p.javaFieldName == q.javaFieldName
    && p.nullable == q.nullable
    && p.sort == q.sort
  }

  function DecideInsert(s: Step): (r: Step)
    ensures SameMetadata(s.plan, r.plan)
    ensures r.plan.insert <==> s.plan.extra != AutoIncrement
    ensures r.plan.update == s.plan.update && r.plan.list == s.plan.list
    ensures r.plan.search == s.plan.search && r.plan.inputType == s.plan.inputType && r.plan.queryType == s.plan.queryType
    ensures r.flags == s.flags
  {
    Step(s.plan.(insert := s.plan.extra != AutoIncrement), s.flags)
  }

  function DecideUpdate(s: Step): (r: Step)
    ensures SameMetadata(s.plan, r.plan)
    ensures r.plan.update <==> s.plan.dbColumnName !in DefaultNotUpdateColumns
    ensures r.plan.insert == s.plan.insert && r.plan.list == s.plan.list
    ensures r.plan.search == s.plan.search && r.plan.inputType == s.plan.inputType && r.plan.queryType == s.plan.queryType
    ensures r.flags == s.flags
  {
    Step(s.plan.(update := s.plan.dbColumnName !in DefaultNotUpdateColumns), s.flags)
  }

  function DecideList(s: Step): (r: Step)
    ensures SameMetadata(s.plan, r.plan)
    ensures r.plan.list <==> s.plan.dbColumnName !in DefaultNotListColumns
    ensures r.plan.insert == s.plan.insert && r.plan.update == s.plan.update
    ensures r.plan.search == s.plan.search && r.plan.inputType == s.plan.inputType && r.plan.queryType == s.plan.queryType
    ensures r.flags == s.flags
  {
    Step(s.plan.(list := s.plan.dbColumnName !in DefaultNotListColumns), s.flags)
  }

  function HideId(s: Step): (r: Step)
    ensures SameMetadata(s.plan, r.plan)
    ensures r.plan.insert == s.plan.insert && r.plan.update == s.plan.update
    ensures r.plan.search == s.plan.search && r.plan.queryType == s.plan.queryType
    ensures r.flags == s.flags
    ensures s.plan.dbColumnName == IdColumn ==> r.plan.inputType == Hidden && !r.plan.list
    ensures s.plan.dbColumnName != IdColumn ==> r == s
  {
    if s.plan.dbColumnName == IdColumn then Step(s.plan.(inputType := Hidden, list := false), s.flags)
    else s
  }

  function RemarksAsTextArea(s: Step): (r: Step)
    ensures SameMetadata(s.plan, r.plan)
    ensures r.plan.insert == s.plan.insert && r.plan.update == s.plan.update
    ensures r.plan.search == s.plan.search && r.plan.queryType == s.plan.queryType
    ensures r.flags == s.flags
    ensures s.plan.dbColumnName == RemarksColumn ==> r.plan.inputType == TextArea && !r.plan.list
    ensures s.plan.dbColumnName != RemarksColumn ==> r == s
  {
    if s.plan.dbColumnName == RemarksColumn then Step(s.plan.(inputType := TextArea, list := false), s.flags)
    else s
  }

  function DateWidget(s: Step): (r: Step)
    ensures SameMetadata(s.plan, r.plan)
    ensures r.plan.insert == s.plan.insert && r.plan.update == s.plan.update && r.plan.list == s.plan.list
    ensures r.plan.search == s.plan.search && r.plan.queryType == s.plan.queryType
    ensures r.flags.(importDate := s.flags.importDate) == s.flags
    ensures IsDate(s.plan.dataType) ==> r.plan.inputType == Date && r.flags.importDate
    ensures !IsDate(s.plan.dataType) ==> r == s
  {
    if IsDate(s.plan.dataType) then Step(s.plan.(inputType := Date), s.flags.(importDate := true))
    else s
  }

  function LongTextWidget(s: Step): (r: Step)
    ensures SameMetadata(s.plan, r.plan)
    ensures r.plan.insert == s.plan.insert && r.plan.update == s.plan.update
    ensures r.plan.search == s.plan.search && r.plan.queryType == s.plan.queryType
    ensures r.flags.(hasBlob := s.flags.hasBlob) == s.flags
    ensures IsText(s.plan.dataType) ==> r.plan.inputType == TextArea && !r.plan.list && r.flags.hasBlob
    ensures !IsText(s.plan.dataType) ==> r == s
  {
    if IsText(s.plan.dataType) then Step(s.plan.(inputType := TextArea, list := false), s.flags.(hasBlob := true))
    else s
  }

  /** Numeric widgets are never chosen for the identity column. */
  function NumericWidget(s: Step): (r: Step)
    ensures SameMetadata(s.plan, r.plan)
    ensures r.plan.insert == s.plan.insert && r.plan.update == s.plan.update && r.plan.list == s.plan.list
    ensures r.plan.search == s.plan.search && r.plan.queryType == s.plan.queryType
    ensures r.flags.(importBigDecimal := s.flags.importBigDecimal) == s.flags
    ensures s.plan.dbColumnName != IdColumn && IsIntegral(s.plan.dataType) ==> r.plan.inputType == IntegralNumber && r.flags == s.flags
    ensures s.plan.dbColumnName != IdColumn && !IsIntegral(s.plan.dataType) && IsDecimal(s.plan.dataType) ==>
      r.plan.inputType == Decimal && r.flags.importBigDecimal
    ensures s.plan.dbColumnName == IdColumn || (!IsIntegral(s.plan.dataType) && !IsDecimal(s.plan.dataType)) ==> r == s
  {
    var p := s.plan;
    if p.dbColumnName == IdColumn then s
    else if IsIntegral(p.dataType) then Step(p.(inputType := IntegralNumber), s.flags)
    else if IsDecimal(p.dataType) then Step(p.(inputType := Decimal), s.flags.(importBigDecimal := true))
    else s
  }

  function SearchOnIndex(s: Step): (r: Step)
    ensures SameMetadata(s.plan, r.plan)
    ensures r.plan.insert == s.plan.insert && r.plan.update == s.plan.update && r.plan.list == s.plan.list
    ensures r.plan.inputType == s.plan.inputType
    ensures r.flags.(hasSearch := s.flags.hasSearch) == s.flags
    ensures s.plan.columnKey in {Mul, Uni} && s.plan.dbColumnName !in DefaultColumns ==>
      r.plan.search && r.plan.queryType == Some(Equal) && r.flags.hasSearch
    ensures !(s.plan.columnKey in {Mul, Uni} && s.plan.dbColumnName !in DefaultColumns) ==> r == s
  {
    var p := s.plan;
    if (p.columnKey == Mul || p.columnKey == Uni) && p.dbColumnName !in DefaultColumns then
      Step(p.(search := true, queryType := Some(Equal)), s.flags.(hasSearch := true))
    else s
  }

  /**
   The rules that run after the list decision, in the source's order. None
   of them touches the insert or update decision or lowers a flag, and
   together they can only clear the list flag, never set it.
   */
  function AfterList(s: Step): (r: Step)
    ensures SameMetadata(s.plan, r.plan)
    ensures FlagsGrow(s.flags, r.flags)
    ensures r.plan.insert == s.plan.insert && r.plan.update == s.plan.update
    ensures r.plan.list ==> s.plan.list
  {
    SearchOnIndex(NumericWidget(LongTextWidget(DateWidget(RemarksAsTextArea(HideId(s))))))
  }

  /** The nine rules applied in turn: insert, update and list decisions, then the rest. */
  function Chain(s: Step): (r: Step)
    ensures SameMetadata(s.plan, r.plan)
    ensures FlagsGrow(s.flags, r.flags)
  {
    AfterList(DecideList(DecideUpdate(DecideInsert(s))))
  }

  // ---------------------------------------------------------------------------
  // What the chain decides, stated without reference to the rules
  // ---------------------------------------------------------------------------

  /** The widget of a column, highest-priority match first. */
  function ExpectedInputType(c: DbTableColumn): InputType {
    if c.name != IdColumn && IsIntegral(c.dataType) then IntegralNumber
    else if c.name != IdColumn && IsDecimal(c.dataType) then Decimal
    else if IsText(c.dataType) then TextArea
    else if IsDate(c.dataType) then Date
    else if c.name == RemarksColumn then TextArea
    else if c.name == IdColumn then Hidden
    else Text
  }

  /** An indexed (non-unique or unique) column that is not a standard column. */
  predicate Searchable(c: DbTableColumn) {
    ResolveKey(c.columnKey) in {Mul, Uni} && c.name !in DefaultColumns
  }

  /** A column that makes the generated entity import Date. */
  predicate NeedsDate(c: DbTableColumn) {
    IsDate(c.dataType)
  }

  /** A long-text column, which makes the plan handle blobs. */
  predicate IsBlob(c: DbTableColumn) {
    IsText(c.dataType)
  }

  /** A column that makes the generated entity import BigDecimal. */
  predicate NeedsBigDecimal(c: DbTableColumn) {
    c.name != IdColumn && IsDecimal(c.dataType)
  }

  /**
   The plan of one column and the flags after it, given the flags before it.
   Every field of the plan is determined by the column alone; each flag ends
   up raised exactly when it was raised before or this column triggers it.
   */
  function PlanColumn(c: DbTableColumn, acc: Flags): (r: Step)
    ensures r.plan.dbColumnName == c.name
    ensures r.plan.columnComment == c.comment
    ensures r.plan.columnKey == ResolveKey(c.columnKey)
    ensures r.plan.extra == ResolveExtra(c.extra)
    ensures r.plan.columnType == c.columnType
    ensures r.plan.dataType == c.dataType
    ensures r.plan.maxLength == c.maxLength
    ensures r.plan.javaFieldName == ToCamelCase(c.name, false)
    ensures r.plan.nullable == c.nullable
    ensures r.plan.sort == c.sort
    ensures r.plan.insert <==> c.extra != Some(AutoIncrement)
    ensures r.plan.update <==> c.name !in DefaultNotUpdateColumns
    ensures r.plan.list <==> c.name !in DefaultNotListColumns && !IsText(c.dataType)
    ensures r.plan.inputType == ExpectedInputType(c)
    ensures r.plan.search <==> Searchable(c)
    ensures r.plan.queryType == (if Searchable(c) then Some(Equal) else None)
    ensures r.flags.importDate <==> acc.importDate || NeedsDate(c)
    ensures r.flags.hasBlob <==> acc.hasBlob || IsBlob(c)
    ensures r.flags.importBigDecimal <==> acc.importBigDecimal || NeedsBigDecimal(c)
    ensures r.flags.hasSearch <==> acc.hasSearch || Searchable(c)
  {
    var s0 := Step(BuildPlan(c), acc);
    ChainFlags(c, acc);
    ChainDecisions(c, acc);
    ChainWidget(c, acc);
    Chain(s0)
  }

  /** The flags after the later rules, in terms of the plan they start from. */
  lemma AfterListFlags(s: Step)
    ensures var p := s.plan;
      var f := AfterList(s).flags;
      && (f.importDate <==> s.flags.importDate || IsDate(p.dataType))
      && (f.hasBlob <==> s.flags.hasBlob || IsText(p.dataType))
      && (f.importBigDecimal <==> s.flags.importBigDecimal || (p.dbColumnName != IdColumn && IsDecimal(p.dataType)))
      && (f.hasSearch <==> s.flags.hasSearch || (p.columnKey in {Mul, Uni} && p.dbColumnName !in DefaultColumns))
  {
    var s5 := RemarksAsTextArea(HideId(s));
    assert s5.flags == s.flags && SameMetadata(s.plan, s5.plan);
    var s7 := LongTextWidget(DateWidget(s5));
    assert SameMetadata(s.plan, s7.plan);
    var s8 := NumericWidget(s7);
    assert SameMetadata(s.plan, s8.plan);
  }

  lemma ChainFlags(c: DbTableColumn, acc: Flags)
    ensures var r := Chain(Step(BuildPlan(c), acc));
      && (r.flags.importDate <==> acc.importDate || NeedsDate(c))
      && (r.flags.hasBlob <==> acc.hasBlob || IsBlob(c))
      && (r.flags.importBigDecimal <==> acc.importBigDecimal || NeedsBigDecimal(c))
      && (r.flags.hasSearch <==> acc.hasSearch || Searchable(c))
  {
    var s3 := DecideList(DecideUpdate(DecideInsert(Step(BuildPlan(c), acc))));
    assert s3.flags == acc && s3.plan.dataType == c.dataType && s3.plan.dbColumnName == c.name;
    assert s3.plan.columnKey == ResolveKey(c.columnKey);
    AfterListFlags(s3);
  }

  /** The list, search and query-type decisions after the later rules, in
      terms of the plan they start from. */
  lemma AfterListDecisions(s: Step)
    requires !s.plan.search && s.plan.queryType == None
    ensures var p := s.plan;
      var q := AfterList(s).plan;
      && (q.list <==> p.list && p.dbColumnName != IdColumn && p.dbColumnName != RemarksColumn && !IsText(p.dataType))
      && (q.search <==> p.columnKey in {Mul, Uni} && p.dbColumnName !in DefaultColumns)
      && q.queryType == (if q.search then Some(Equal) else None)
  {
    var s5 := RemarksAsTextArea(HideId(s));
    assert s5.plan.list <==> s.plan.list && s.plan.dbColumnName != IdColumn && s.plan.dbColumnName != RemarksColumn;
    assert SameMetadata(s.plan, s5.plan) && !s5.plan.search && s5.plan.queryType == None;
    var s8 := NumericWidget(LongTextWidget(DateWidget(s5)));
    assert s8.plan.list <==> s5.plan.list && !IsText(s.plan.dataType);
    assert SameMetadata(s.plan, s8.plan) && !s8.plan.search && s8.plan.queryType == None;
  }

  lemma ChainDecisions(c: DbTableColumn, acc: Flags)
    ensures var r := Chain(Step(BuildPlan(c), acc));
      && (r.plan.insert <==> c.extra != Some(AutoIncrement))
      && (r.plan.update <==> c.name !in DefaultNotUpdateColumns)
      && (r.plan.list <==> c.name !in DefaultNotListColumns && !IsText(c.dataType))
      && (r.plan.search <==> Searchable(c))
      && r.plan.queryType == (if Searchable(c) then Some(Equal) else None)
  {
    var s3 := DecideList(DecideUpdate(DecideInsert(Step(BuildPlan(c), acc))));
    assert s3.plan.insert <==> c.extra != Some(AutoIncrement);
    assert s3.plan.update <==> c.name !in DefaultNotUpdateColumns;
    assert s3.plan.list <==> c.name !in DefaultNotListColumns;
    assert !s3.plan.search && s3.plan.queryType == None;
    assert s3.plan.dbColumnName == c.name && s3.plan.dataType == c.dataType;
    AfterListDecisions(s3);
  }

  /** The widget after the identity, remarks and date rules. */
  lemma NameAndDateWidget(s: Step)
    ensures var p := s.plan;
      && SameMetadata(p, DateWidget(RemarksAsTextArea(HideId(s))).plan)
      && DateWidget(RemarksAsTextArea(HideId(s))).plan.inputType ==
           if IsDate(p.dataType) then Date
           else if p.dbColumnName == RemarksColumn then TextArea
           else if p.dbColumnName == IdColumn then Hidden
           else p.inputType
  {
    var s5 := RemarksAsTextArea(HideId(s));
    assert s5.plan.inputType ==
      if s.plan.dbColumnName == RemarksColumn then TextArea
      else if s.plan.dbColumnName == IdColumn then Hidden
      else s.plan.inputType;
  }

  /** The widget after the long-text, numeric and search rules. */
  lemma TypeWidget(s: Step)
    ensures var p := s.plan;
      SearchOnIndex(NumericWidget(LongTextWidget(s))).plan.inputType ==
        if p.dbColumnName != IdColumn && IsIntegral(p.dataType) then IntegralNumber
        else if p.dbColumnName != IdColumn && IsDecimal(p.dataType) then Decimal
        else if IsText(p.dataType) then TextArea
        else p.inputType
  {
    var s7 := LongTextWidget(s);
    assert SameMetadata(s.plan, s7.plan);
  }

  /** The widget after the later rules, in terms of the plan they start from. */
  lemma AfterListWidget(s: Step)
    ensures var p := s.plan;
      AfterList(s).plan.inputType ==
        if p.dbColumnName != IdColumn && IsIntegral(p.dataType) then IntegralNumber
        else if p.dbColumnName != IdColumn && IsDecimal(p.dataType) then Decimal
        else if IsText(p.dataType) then TextArea
        else if IsDate(p.dataType) then Date
        else if p.dbColumnName == RemarksColumn then TextArea
        else if p.dbColumnName == IdColumn then Hidden
        else p.inputType
  {
    NameAndDateWidget(s);
    TypeWidget(DateWidget(RemarksAsTextArea(HideId(s))));
  }

  lemma ChainWidget(c: DbTableColumn, acc: Flags)
    ensures Chain(Step(BuildPlan(c), acc)).plan.inputType == ExpectedInputType(c)
  {
    var s3 := DecideList(DecideUpdate(DecideInsert(Step(BuildPlan(c), acc))));
    assert s3.plan.inputType == Text && s3.plan.dbColumnName == c.name && s3.plan.dataType == c.dataType;
    AfterListWidget(s3);
  }

  /**
   The plan of a column stated field by field, without running the rules:
   the builder's copy of the column with every decision taken from the
   reference definitions above.
   */
  function ColumnPlanOf(c: DbTableColumn): ColumnPlan {
    BuildPlan(c).(
      insert := c.extra != Some(AutoIncrement),
      update := c.name !in DefaultNotUpdateColumns,
      list := c.name !in DefaultNotListColumns && !IsText(c.dataType),
      search := Searchable(c),
      inputType := ExpectedInputType(c),
      queryType := if Searchable(c) then Some(Equal) else None)
  }

  /** The flags after a column: those raised before, and those it triggers. */
  function RaiseFlags(c: DbTableColumn, acc: Flags): Flags {
    Flags(
      importDate := acc.importDate || NeedsDate(c),
      hasBlob := acc.hasBlob || IsBlob(c),
      importBigDecimal := acc.importBigDecimal || NeedsBigDecimal(c),
      hasSearch := acc.hasSearch || Searchable(c))
  }

  /** Running the rules on a column gives exactly the plan stated field by
      field, whatever flags were raised before, and raises exactly the flags
      the column triggers. */
  lemma ChainMatchesReference(c: DbTableColumn, acc: Flags)
    ensures PlanColumn(c, acc) == Step(ColumnPlanOf(c), RaiseFlags(c, acc))
  {
    var r := PlanColumn(c, acc);
    assert r.plan == ColumnPlanOf(c);
  }

  // ---------------------------------------------------------------------------
  // Consequences of the order in which the rules run
  // ---------------------------------------------------------------------------

  /** The identity column never gets a numeric widget: it stays hidden unless
      its type is a date or long text, and it is never listed. */
  lemma IdColumnWidget(c: DbTableColumn, acc: Flags)
    requires c.name == IdColumn
    ensures PlanColumn(c, acc).plan.inputType in {Hidden, Date, TextArea}
    ensures PlanColumn(c, acc).plan.inputType == Hidden <==> !IsDate(c.dataType) && !IsText(c.dataType)
    ensures !PlanColumn(c, acc).plan.list && !PlanColumn(c, acc).plan.update
  {
  }

  /** Any other column with a numeric Java type gets the matching numeric widget,
      overriding the date, long-text and remarks widgets. */
  lemma NumericWidgetWins(c: DbTableColumn, acc: Flags)
    requires c.name != IdColumn
    ensures IsIntegral(c.dataType) ==> PlanColumn(c, acc).plan.inputType == IntegralNumber
    ensures IsDecimal(c.dataType) ==> PlanColumn(c, acc).plan.inputType == Decimal
    ensures PlanColumn(c, acc).plan.inputType in {IntegralNumber, Decimal} <==> IsIntegral(c.dataType) || IsDecimal(c.dataType)
  {
  }

  /** The long-text widget beats the date widget. */
  lemma LongTextBeatsDate(c: DbTableColumn, acc: Flags)
    requires IsText(c.dataType) && IsDate(c.dataType)
    ensures PlanColumn(c, acc).plan.inputType == TextArea
    ensures !PlanColumn(c, acc).plan.list
  {
  }

  /** The remarks column is never listed; it is a text area unless a date or
      numeric Java type overrides that. */
  lemma RemarksColumnWidget(c: DbTableColumn, acc: Flags)
    requires c.name == RemarksColumn
    ensures !PlanColumn(c, acc).plan.list
    ensures PlanColumn(c, acc).plan.inputType == TextArea <==>
              !IsIntegral(c.dataType) && !IsDecimal(c.dataType) && (IsText(c.dataType) || !IsDate(c.dataType))
  {
  }

  /** Primary-key and unindexed columns are never searchable; searchable
      columns always compare by equality. */
  lemma SearchNeedsSecondaryIndex(c: DbTableColumn, acc: Flags)
    ensures ResolveKey(c.columnKey) in {Pri, NoKey} ==> !PlanColumn(c, acc).plan.search
    ensures PlanColumn(c, acc).plan.search <==> PlanColumn(c, acc).plan.queryType == Some(Equal)
    ensures PlanColumn(c, acc).plan.search ==> c.name != IdColumn && c.name != RemarksColumn
  {
  }
}
