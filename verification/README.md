# Generation-plan engine of the seezoon code generator

This project models, in Dafny, the part of the seezoon code generator that turns
database metadata into a generation plan (`SystemTablePlanMaker`). Given a table
name, the table the schema lookup found and the table's columns, it builds a
`TablePlan`:

- the table name is split at its first `_` into a module part, stored as the menu
  name, and a function part;
- the class name is the table name in upper camel case;
- the template type is always CRUD;
- every column becomes a `ColumnPlan` through nine rules run in a fixed order.
  A later rule overrides an earlier one. The rules decide insert, update, list,
  widget and search, and they raise four table-wide flags: `importDate`,
  `hasBlob`, `importBigDecimal` and `hasSearch`.

Modules, one per concern:

- `Wrappers` (`wrappers.dfy`): `Option` and `Result`.
- `DbTypes` (`db_types.dfy`): the table and column metadata, the key and extra
  enumerations, the Java/JDBC type names the rules compare against, and the
  standard column names.
- `PlanTypes` (`plan_types.dfy`): `ColumnPlan`, `TablePlan` and their enumerations.
- `Strings` (`strings.dfy`): Spring's `hasText`, Java's `split(delimiter, 2)` and
  commons-text's `toCamelCase`, restated over `seq<char>` for ASCII names.
- `ColumnRules` (`column_rules.dfy`): the builder step, each rule as a function
  over a `Step` (plan plus flags), the chain of the nine rules in the source's
  order, and a reference that states what the chain decides without running the
  rules (`ExpectedInputType`, `Searchable`, `ColumnPlanOf`, `RaiseFlags`, ...).
- `PlanMaker` (`plan_maker.dfy`): `getPlan`, `createDefaultTablePlan`,
  `createColumnPlan` (a fold over the columns that carries the flags) and
  `extractModuleAndFuntion`.
- `Scenarios` (`scenarios.dfy`): worked examples (`sys_user`, `user_login_log`,
  and the `create_by`, `email`, `id` and long-text columns).

The schema lookups `findTable` and `findColumnByTableName` are database I/O. Their
results are parameters of `PlanMaker.GetPlan`.

Behaviour of the code worth noting:

- A column named `remarks` gets a text area unless an integral or decimal Java
  type, or a Date Java type without the long-text JDBC type, overrides it
  (`RemarksColumnWidget`).
- The `id` column is hidden unless its type is Date or long text. Those rules run
  after the id rule (`IdColumnWidget`).
- A name is rejected when it is empty or whitespace-only (`Assert.hasText`).
- Both failures are the same argument error with different messages; a table
  that is not found raises the same kind of error as a blank name.
- The module part goes into the menu name. That overwrites the table comment,
  which the line before had stored there, so the comment never reaches the plan
  (`CommentIsOverwritten`).

## Model

| member | source | states |
|---|---|---|
| PlanMaker.GetPlan | seezoon-generator/src/main/java/com/seezoon/generator/service/SystemTablePlanMaker.java:51-58 | a name without text fails with "tableName must not empty"; otherwise an empty lookup fails with "can't find tableName:" plus the name; it succeeds exactly when neither happens, and then plans the first table found |
| Strings.HasText | seezoon-generator/src/main/java/com/seezoon/generator/service/SystemTablePlanMaker.java:52 | a name has text iff some character is not Java whitespace |
| PlanMaker.CreateDefaultTablePlan | seezoon-generator/src/main/java/com/seezoon/generator/service/SystemTablePlanMaker.java:60-72 | table name copied; menu/function names are the first-delimiter split; template CRUD; class name the upper camel case; one plan per column, in order; each flag true iff some column triggers it |
| PlanMaker.MenuNameIsModulePart | seezoon-generator/src/main/java/com/seezoon/generator/service/SystemTablePlanMaker.java:63-67 | menu and function name both equal the table name when it has no `_`; otherwise the menu name has no `_` and menu + `_` + function rebuilds the table name |
| PlanMaker.CommentIsOverwritten | seezoon-generator/src/main/java/com/seezoon/generator/service/SystemTablePlanMaker.java:63-66 | two tables that differ only in their comment get the same plan |
| PlanMaker.ClassNameIsUpperCamel | seezoon-generator/src/main/java/com/seezoon/generator/service/SystemTablePlanMaker.java:69 | for a table name with a non-`_` character, the class name is the words of the lower-cased name, each capitalized, joined, and lower-casing it gives the name without delimiters; a name of only `_` is the class name itself |
| PlanMaker.ExtractModuleAndFunction | seezoon-generator/src/main/java/com/seezoon/generator/service/SystemTablePlanMaker.java:149-152 | without `_` both parts are the whole name; otherwise the module part has no `_` and module + `_` + function is the name, so later `_` stay in the function part |
| PlanMaker.ExtractInvertsJoin | seezoon-generator/src/main/java/com/seezoon/generator/service/SystemTablePlanMaker.java:149-152 | joining a `_`-free module and any function with `_` and splitting again gives back the same module and function |
| Strings.SplitOnce | seezoon-generator/src/main/java/com/seezoon/generator/service/SystemTablePlanMaker.java:150 | `split(d, 2)` yields one piece, the whole string, iff `d` does not occur, else two pieces: the `d`-free text before the first `d` and the rest |
| Strings.SplitOnceOfJoin | seezoon-generator/src/main/java/com/seezoon/generator/service/SystemTablePlanMaker.java:150 | the two-piece split of head + `d` + tail is [head, tail] whenever head has no `d` |
| PlanMaker.CreateColumnPlans | seezoon-generator/src/main/java/com/seezoon/generator/service/SystemTablePlanMaker.java:74-140 | as many plans as columns; the i-th plan is the reference plan of the i-th column alone; the flags are those of raising each column's triggers in turn |
| PlanMaker.FoldFlags | seezoon-generator/src/main/java/com/seezoon/generator/service/SystemTablePlanMaker.java:76-138 | folding the columns through the rules never lowers a flag raised on entry |
| PlanMaker.FlagRaisedBySome | seezoon-generator/src/main/java/com/seezoon/generator/service/SystemTablePlanMaker.java:107-136 | after all columns, a flag is raised iff it was raised on entry or some column triggers it |
| PlanMaker.FlagsRaisedBySome | seezoon-generator/src/main/java/com/seezoon/generator/service/SystemTablePlanMaker.java:107-136 | the same for importDate (a Date column), hasBlob (a long-text column), importBigDecimal (a non-id decimal column) and hasSearch (a searchable column) at once |
| PlanMaker.ColumnOrderPreserved | seezoon-generator/src/main/java/com/seezoon/generator/service/SystemTablePlanMaker.java:74-90 | the i-th column plan carries the i-th column's name, comment, column type, data type, max length, nullability and sort position |
| PlanMaker.FlagsMonotoneInColumns | seezoon-generator/src/main/java/com/seezoon/generator/service/SystemTablePlanMaker.java:107-136 | adding a column never lowers a table flag |
| ColumnRules.PlanColumn | seezoon-generator/src/main/java/com/seezoon/generator/service/SystemTablePlanMaker.java:76-137 | metadata copied; insert iff extra is not auto-increment; update iff name not in {id, create_by, create_date}; list iff name not in {id, create_by, create_time, update_by, remarks} and type not long text; widget as `ExpectedInputType`; search iff key MUL/UNI and not a standard column, with EQUAL exactly then; each flag is the old flag or this column's trigger |
| ColumnRules.ChainMatchesReference | seezoon-generator/src/main/java/com/seezoon/generator/service/SystemTablePlanMaker.java:76-136 | running the rules gives the reference plan of the column, whatever flags earlier columns raised, and the old flags plus the column's triggers |
| ColumnRules.BuildPlan | seezoon-generator/src/main/java/com/seezoon/generator/service/SystemTablePlanMaker.java:78-90 | the builder copies name, comment, column type, data type, length, nullability and sort; resolves key and extra; the field name is the lower camel case of the name (`ToCamelCase(name, false)`), free of `_` when the name has a non-`_` character and never starting upper case; decisions false, widget TEXT, no query type |
| ColumnRules.ResolveKey | seezoon-generator/src/main/java/com/seezoon/generator/service/SystemTablePlanMaker.java:81-82 | an empty key becomes NONE; a parsed key is kept |
| ColumnRules.ResolveExtra | seezoon-generator/src/main/java/com/seezoon/generator/service/SystemTablePlanMaker.java:83 | the extra is auto-increment exactly when the column says so; an empty extra becomes none |
| ColumnRules.Chain | seezoon-generator/src/main/java/com/seezoon/generator/service/SystemTablePlanMaker.java:93-136 | the nine rules in order keep the metadata the builder copied and never lower a flag |
| ColumnRules.DecideInsert | seezoon-generator/src/main/java/com/seezoon/generator/service/SystemTablePlanMaker.java:93 | the insert rule sets insert iff extra is not auto-increment and leaves metadata, the other decisions, widget, query type and flags alone |
| ColumnRules.DecideUpdate | seezoon-generator/src/main/java/com/seezoon/generator/service/SystemTablePlanMaker.java:94 | the update rule sets update iff the name is not id, create_by or create_date and leaves metadata, the other decisions, widget, query type and flags alone |
| ColumnRules.DecideList | seezoon-generator/src/main/java/com/seezoon/generator/service/SystemTablePlanMaker.java:95 | the list rule sets list iff the name is not id, create_by, create_time, update_by or remarks and leaves metadata, the other decisions, widget, query type and flags alone |
| ColumnRules.HideId | seezoon-generator/src/main/java/com/seezoon/generator/service/SystemTablePlanMaker.java:97-100 | the `id` column becomes hidden and unlisted; any other column is left unchanged; metadata, insert, update, search, query type and flags are never touched |
| ColumnRules.RemarksAsTextArea | seezoon-generator/src/main/java/com/seezoon/generator/service/SystemTablePlanMaker.java:102-105 | the `remarks` column becomes an unlisted text area; any other column is left unchanged; metadata, insert, update, search, query type and flags are never touched |
| ColumnRules.DateWidget | seezoon-generator/src/main/java/com/seezoon/generator/service/SystemTablePlanMaker.java:107-110 | a Date Java type gets the DATE widget and raises importDate; any other column is left unchanged; metadata, decisions, search and the other flags are never touched |
| ColumnRules.LongTextWidget | seezoon-generator/src/main/java/com/seezoon/generator/service/SystemTablePlanMaker.java:112-117 | the long-text JDBC type gets an unlisted text area and raises hasBlob; any other column is left unchanged; metadata, insert, update, search and the other flags are never touched |
| ColumnRules.NumericWidget | seezoon-generator/src/main/java/com/seezoon/generator/service/SystemTablePlanMaker.java:119-128 | a non-id column of integral Java type gets INTEGRAL_NUMBER with flags unchanged; else a non-id decimal type gets DECIMAL and raises importBigDecimal; otherwise unchanged; metadata, decisions and search are never touched |
| ColumnRules.SearchOnIndex | seezoon-generator/src/main/java/com/seezoon/generator/service/SystemTablePlanMaker.java:130-136 | a MUL or UNI key on a non-standard column gets search with EQUAL and raises hasSearch; any other column is left unchanged; metadata, insert, update, list, widget and the other flags are never touched |
| ColumnRules.AfterList | seezoon-generator/src/main/java/com/seezoon/generator/service/SystemTablePlanMaker.java:97-136 | the six rules after the list decision keep the metadata, the insert and update decisions, never lower a flag and can only clear list |
| ColumnRules.NameAndDateWidget | seezoon-generator/src/main/java/com/seezoon/generator/service/SystemTablePlanMaker.java:97-110 | after the id, remarks and date rules the widget is Date for a Date type, else text area for remarks, else hidden for id, else unchanged |
| ColumnRules.TypeWidget | seezoon-generator/src/main/java/com/seezoon/generator/service/SystemTablePlanMaker.java:112-136 | after the long-text, numeric and search rules the widget is numeric for a non-id numeric type, else text area for long text, else unchanged |
| ColumnRules.AfterListWidget | seezoon-generator/src/main/java/com/seezoon/generator/service/SystemTablePlanMaker.java:97-136 | after all six later rules the widget is the highest-priority match among numeric, long text, date, remarks and id, else unchanged |
| ColumnRules.AfterListFlags | seezoon-generator/src/main/java/com/seezoon/generator/service/SystemTablePlanMaker.java:107-136 | after the later rules each flag is the old flag or the trigger read off the plan: Date type, long-text type, non-id decimal type, MUL/UNI key on a non-standard column |
| ColumnRules.AfterListDecisions | seezoon-generator/src/main/java/com/seezoon/generator/service/SystemTablePlanMaker.java:97-136 | the six later rules clear list for id, remarks and long text and otherwise keep it; they set search, with EQUAL, exactly for a MUL/UNI key on a non-standard column |
| ColumnRules.ChainFlags | seezoon-generator/src/main/java/com/seezoon/generator/service/SystemTablePlanMaker.java:107-136 | after the chain, importDate, hasBlob, importBigDecimal and hasSearch are each the old flag or this column's trigger |
| ColumnRules.ChainDecisions | seezoon-generator/src/main/java/com/seezoon/generator/service/SystemTablePlanMaker.java:93-136 | after the chain, the insert, update, list, search and query-type decisions are as `PlanColumn` states |
| ColumnRules.ChainWidget | seezoon-generator/src/main/java/com/seezoon/generator/service/SystemTablePlanMaker.java:97-128 | the widget left by the chain is the highest-priority match: numeric (non-id), long text, date, remarks, id, else text |
| ColumnRules.IdColumnWidget | seezoon-generator/src/main/java/com/seezoon/generator/service/SystemTablePlanMaker.java:97-128 | the id column never gets a numeric widget, is hidden iff its type is neither Date nor long text, and is never listed or updated |
| ColumnRules.NumericWidgetWins | seezoon-generator/src/main/java/com/seezoon/generator/service/SystemTablePlanMaker.java:119-128 | a non-id column gets INTEGRAL_NUMBER for Integer/Long/Short, DECIMAL for Float/Double/BigDecimal, and a numeric widget only then |
| ColumnRules.LongTextBeatsDate | seezoon-generator/src/main/java/com/seezoon/generator/service/SystemTablePlanMaker.java:107-117 | a column that is both Date and long text gets a text area and is not listed |
| ColumnRules.RemarksColumnWidget | seezoon-generator/src/main/java/com/seezoon/generator/service/SystemTablePlanMaker.java:102-128 | the remarks column is never listed and is a text area iff no numeric type applies and it is long text or not a date |
| ColumnRules.SearchNeedsSecondaryIndex | seezoon-generator/src/main/java/com/seezoon/generator/service/SystemTablePlanMaker.java:130-136 | PRI and unkeyed columns are never searchable; search iff query type EQUAL; id and remarks are never searchable |
| Strings.ToCamelCase | seezoon-generator/src/main/java/com/seezoon/generator/service/SystemTablePlanMaker.java:69 | the camel-case form is no longer than the name; for a name with a non-`_` character it is non-empty and has no `_`; a name made only of `_` (or empty) comes back unchanged |
| Strings.CamelFrom | seezoon-generator/src/main/java/com/seezoon/generator/service/SystemTablePlanMaker.java:87 | the camel-case loop never emits a delimiter and never lengthens its input |
| Strings.LowerCamelStartsLower | seezoon-generator/src/main/java/com/seezoon/generator/service/SystemTablePlanMaker.java:87 | the lower camel case of any name is empty or does not start with an upper-case letter |
| Strings.CamelEmitsWords | seezoon-generator/src/main/java/com/seezoon/generator/service/SystemTablePlanMaker.java:87 | the camel-case loop emits something exactly when its input has a non-`_` character |
| Strings.LowerCaseKeepsWords | seezoon-generator/src/main/java/com/seezoon/generator/service/SystemTablePlanMaker.java:87 | lower-casing keeps whether a name has a non-`_` character, and leaves a name of only `_` unchanged |
| Strings.UpperCamelCaseIsCapitalizedWords | seezoon-generator/src/main/java/com/seezoon/generator/service/SystemTablePlanMaker.java:69 | for a name with a non-`_` character, upper camel case is the lower-cased name's words, each capitalized, joined; otherwise the name itself |
| Strings.UpperCamelIsCapitalizedLowerCamel | seezoon-generator/src/main/java/com/seezoon/generator/service/SystemTablePlanMaker.java:69-87 | the class-name form is the field-name form with its first character capitalized |
| Strings.CamelCaseLowersToName | seezoon-generator/src/main/java/com/seezoon/generator/service/SystemTablePlanMaker.java:87 | for a name with a non-`_` character, lower-casing the camel-case form gives the lower-cased name without delimiters; otherwise the name itself |
| Scenarios.SysUserScenario | seezoon-generator/src/main/java/com/seezoon/generator/service/SystemTablePlanMaker.java:65-69 | `sys_user` gives module `sys`, function `user`, class `SysUser`, field `sysUser` |
| Scenarios.UserLoginLogScenario | seezoon-generator/src/main/java/com/seezoon/generator/service/SystemTablePlanMaker.java:149-152 | `user_login_log` gives module `user` and function `login_log` |
| Scenarios.CreateByColumnScenario | seezoon-generator/src/main/java/com/seezoon/generator/service/SystemTablePlanMaker.java:93-136 | an unkeyed varchar `create_by` is insertable, not updatable, not listed, not searched, a text field |
| Scenarios.EmailColumnScenario | seezoon-generator/src/main/java/com/seezoon/generator/service/SystemTablePlanMaker.java:130-136 | a unique `email` column is searched by EQUAL, and a table holding it has search |
| Scenarios.IdColumnScenario | seezoon-generator/src/main/java/com/seezoon/generator/service/SystemTablePlanMaker.java:93-100 | an auto-increment bigint primary key `id` is hidden and neither inserted, updated, listed nor searched |
| Scenarios.DescriptionColumnScenario | seezoon-generator/src/main/java/com/seezoon/generator/service/SystemTablePlanMaker.java:112-117 | a long-text column is an unlisted text area, and a table holding it has blobs |

## Left out

- The schema lookups (`GeneratorDao.findTable`, `findColumnByTableName`) are database I/O. Their results are parameters of `GetPlan`. Failures raised inside them are not modelled.
- `ColumnDataType.parse`, `ColumnKey.valueOf` and `ColumnExtra.valueOf` belong to enumerations that are not part of this model. A column carries its Java/JDBC type names already mapped. Its key and extra are already parsed, with `None` for the empty string. The exception `valueOf` throws for an unknown non-empty string is not modelled.
- `DefaultColumns` is an enumeration that is not part of this model. Its names are taken as id, create_by, create_time, update_by, create_date, update_time and remarks. Only `id` and `remarks` are named in the code itself.
- The jdbcType of TEXT is taken to be `LONGVARCHAR`, from the code comment at line 111. `ColumnDataType` itself is not part of this model.
- The builder defaults of `ColumnPlan` are not visible. The model starts a plan with a TEXT widget, no query type and all decision flags false.
- `TablePlan` is not part of this model. `new TablePlan()` is taken to start with all four flags false (`NoFlags`).
- `TemplateType` and `QueryType` are given only the constants the code uses (CRUD and EQUAL).
- Strings.ToCamelCase: it states commons-text's behaviour only for names of lower-case ASCII letters, digits and `_`, with `_` as the delimiter, including its fallback to the lower-cased input when nothing is emitted. The library also treats a space as a delimiter and applies Unicode lower-case and title-case mappings; neither is modelled. Its `toLowerCase()` follows the JVM default locale, while the model lower-cases A–Z as the root locale does, so under a Turkish or Azerbaijani locale an upper-case `I` differs (`ID` is `ıd` there, `id` here).
- Strings.HasText: it follows the current Unicode table of `Character.isWhitespace`. Older Java releases also counted U+180E. Java's UTF-16 code units are modelled as Unicode scalar values, which makes no difference because no surrogate is whitespace.
- Java `null`s (a null name, comment or boxed field) are not modelled. Strings are sequences, and `maxLength` and `sort` are unbounded integers.
- Logging, Spring wiring and Lombok builders are not modelled. The plans are immutable records.
