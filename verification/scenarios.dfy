/** Worked examples of plans for typical tables and columns. */
module Scenarios {
  import opened Wrappers
  import opened DbTypes
  import opened PlanTypes
  import opened Strings
  import opened ColumnRules
  import opened PlanMaker

  const Varchar := ColumnDataType("String", "VARCHAR")
  const Bigint := ColumnDataType("Long", "BIGINT")
  const LongText := ColumnDataType("String", TextJdbcType)

  function Column(name: string, key: Option<ColumnKey>, extra: Option<ColumnExtra>, dataType: ColumnDataType): DbTableColumn {
    DbTableColumn(name, "", key, extra, "", dataType, 0, true, 0)
  }

  lemma SysUserIsLowerCase()
    ensures LowerCase("sys_user") == "sys_user"
  {
  }

  lemma UserCamelSteps()
    ensures CamelFrom("_user", false, true, false) == "User"
  {
  }

  lemma SysUserLowerCamelSteps()
    ensures CamelFrom("sys_user", false, false, false) == "sysUser"
  {
    UserCamelSteps();
  }

  lemma SysUserCapitalized()
    ensures Capitalize("sysUser") == "SysUser"
  {
  }

  /** `sys_user` is module `sys`, function `user`, class `SysUser`, field `sysUser`. */
  lemma SysUserScenario()
    ensures ExtractModuleAndFunction("sys_user") == ("sys", "user")
    ensures ToCamelCase("sys_user", false) == "sysUser"
    ensures ToCamelCase("sys_user", true) == "SysUser"
  {
    ExtractInvertsJoin("sys", "user");
    assert "sys" + [DbDelimiter] + "user" == "sys_user";
    SysUserIsLowerCase();
    SysUserLowerCamelSteps();
    UpperCamelIsCapitalizedLowerCamel("sys_user");
    SysUserCapitalized();
  }

  /** Only the first delimiter splits: `user_login_log` is `user` / `login_log`. */
  lemma UserLoginLogScenario()
    ensures ExtractModuleAndFunction("user_login_log") == ("user", "login_log")
  {
    ExtractInvertsJoin("user", "login_log");
    assert "user" + [DbDelimiter] + "login_log" == "user_login_log";
  }

  /** An audit column is insertable but neither updatable, listed nor searched. */
  lemma CreateByColumnScenario()
    ensures var p := PlanColumn(Column("create_by", None, None, Varchar), NoFlags).plan;
      p.insert && !p.update && !p.list && !p.search && p.inputType == Text
  {
  }

  /** A uniquely indexed ordinary column is searched by equality. */
  lemma EmailColumnScenario(table: DbTable)
    ensures var p := PlanColumn(Column("email", Some(Uni), None, Varchar), NoFlags).plan;
      p.search && p.queryType == Some(Equal) && p.list && p.update
    ensures CreateDefaultTablePlan(table, [Column("email", Some(Uni), None, Varchar)]).hasSearch
  {
    var cols := [Column("email", Some(Uni), None, Varchar)];
    assert Searchable(cols[0]);
  }

  /** The auto-increment primary key is hidden, not insertable and not listed. */
  lemma IdColumnScenario()
    ensures var p := PlanColumn(Column("id", Some(Pri), Some(AutoIncrement), Bigint), NoFlags).plan;
      !p.insert && !p.update && !p.list && !p.search && p.inputType == Hidden
  {
  }

  /** A long-text column is a text area, not listed, and makes the table hold blobs. */
  lemma DescriptionColumnScenario(table: DbTable)
    ensures var p := PlanColumn(Column("description", None, None, LongText), NoFlags).plan;
      p.inputType == TextArea && !p.list
    ensures CreateDefaultTablePlan(table, [Column("description", None, None, LongText)]).hasBlob
  {
    var cols := [Column("description", None, None, LongText)];
    assert IsBlob(cols[0]);
  }
}
