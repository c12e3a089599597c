/**
 * The translator's expected outputs, one lemma per test case of
 * fizz/translators/postgres_test.go: each script is written as the operation it evaluates
 * to, and the lemma states the exact DDL the test expects. The expected text is written in
 * pieces split where a quoted identifier starts or ends; joined, the pieces are the test's
 * string character for character. The `create_table` case writes its expected column
 * lines as a list and joins them with `Join` and `,\n`.
 */
module PostgresTest {
  import opened Wrappers
  import opened Strings
  import opened Fizz
  import opened Postgres
  import opened PostgresLines

  /** `Translate(op)` succeeds with exactly `ddl`. */
  predicate Yields(op: Operation, ddl: string) {
    var r := Translate(op);
    r.Ok? && r.value == ddl
  }

  // ---------------------------------------------------------------------------------------
  // create_table

  /** The columns the test's `create_table("users", ...)` block declares, in order. */
  function UsersColumns(): seq<Column> {
    [PlainColumn("first_name", "string"),
     PlainColumn("last_name", "string"),
     Column("email", "string", false, None, Some(20), false),
     Column("permissions", "jsonb", true, None, None, false),
     Column("age", "integer", true, Some(LitInt(40)), None, false)]
  }

  /** The column lines of the create_table test's expected DDL, without their separators. */
  function UsersTableLines(): seq<string> {
    ["\"id\"" + " SERIAL PRIMARY KEY",
     "\"created_at\"" + " timestamp NOT NULL",
     "\"updated_at\"" + " timestamp NOT NULL",
     "\"first_name\"" + " VARCHAR (255) NOT NULL",
     "\"last_name\"" + " VARCHAR (255) NOT NULL",
     "\"email\"" + " VARCHAR (20) NOT NULL",
     "\"permissions\"" + " jsonb",
     "\"age\"" + " integer DEFAULT '40'"]
  }

  lemma CreateTableUsers()
    ensures Yields(CreateTableOp("users", UsersColumns()),
      "CREATE TABLE IF NOT EXISTS " + "\"users\"" + " (\n" + Join(UsersTableLines(), ",\n") + "\n);")
  {
    var t := NewTable("users", UsersColumns());
    var defs, expected := ColumnDefinitions(t.columns), UsersTableLines();
    forall i | 0 <= i < 8 ensures defs[i] == expected[i] {
      if i == 0 {
        IdLine();
      } else if i == 1 {
        CreatedAtLine();
      } else if i == 2 {
        UpdatedAtLine();
      } else if i == 3 {
        FirstNameLine();
      } else if i == 4 {
        LastNameLine();
      } else if i == 5 {
        EmailLine();
      } else if i == 6 {
        PermissionsLine();
      } else {
        AgeLine();
      }
    }
    assert defs == expected;
    assert Quote("users") == "\"users\"";
  }

  lemma FirstNameLine()
    ensures ColumnDefinition(PlainColumn("first_name", "string")) == "\"first_name\"" + " VARCHAR (255) NOT NULL"
  {
    assert Quote("first_name") == "\"first_name\"";
    Varchar255NotNull();
  }

  lemma LastNameLine()
    ensures ColumnDefinition(PlainColumn("last_name", "string")) == "\"last_name\"" + " VARCHAR (255) NOT NULL"
  {
    assert Quote("last_name") == "\"last_name\"";
    Varchar255NotNull();
  }

  /** A column with no option but its type is its type text followed by NOT NULL. */
  lemma PlainSpec(c: Column, typeText: string)
    requires !c.primary && !c.nullable && c.default.None? && TypeText(c) == typeText
    ensures ColumnSpec(c) == " " + typeText + " NOT NULL"
  {
    assert " " + typeText + " NOT NULL" + "" == " " + typeText + " NOT NULL";
  }

  /** The `string` type with length `n`, whose numeral is `d`. */
  lemma VarcharOf(c: Column, n: nat, d: string)
    requires c.colType == "string" && c.size.GetOr(DefaultVarcharSize) == n && NatToString(n) == d
    ensures TypeText(c) == "VARCHAR (" + d + ")"
  {
  }

  lemma Varchar255NotNull()
    ensures forall name :: ColumnSpec(PlainColumn(name, "string")) == " VARCHAR (255) NOT NULL"
  {
    forall name ensures ColumnSpec(PlainColumn(name, "string")) == " VARCHAR (255) NOT NULL" {
      var c := PlainColumn(name, "string");
      Numeral255();
      VarcharOf(c, 255, "255");
      Varchar255Literal();
      PlainSpec(c, "VARCHAR (255)");
      Spec255Literal();
    }
  }

  lemma Numeral255() ensures NatToString(255) == "255" {}
  lemma Varchar255Literal() ensures "VARCHAR (" + "255" + ")" == "VARCHAR (255)" {}
  lemma Spec255Literal() ensures " " + "VARCHAR (255)" + " NOT NULL" == " VARCHAR (255) NOT NULL" {}

  lemma EmailLine()
    ensures ColumnDefinition(Column("email", "string", false, None, Some(20), false)) == "\"email\"" + " VARCHAR (20) NOT NULL"
  {
    var c := Column("email", "string", false, None, Some(20), false);
    assert Quote("email") == "\"email\"";
    assert NatToString(20) == "20";
    VarcharOf(c, 20, "20");
    Varchar20Literal();
    PlainSpec(c, "VARCHAR (20)");
    Spec20Literal();
  }

  lemma Varchar20Literal() ensures "VARCHAR (" + "20" + ")" == "VARCHAR (20)" {}
  lemma Spec20Literal() ensures " " + "VARCHAR (20)" + " NOT NULL" == " VARCHAR (20) NOT NULL" {}

  lemma PermissionsLine()
    ensures ColumnDefinition(Column("permissions", "jsonb", true, None, None, false)) == "\"permissions\"" + " jsonb"
  {
    assert Quote("permissions") == "\"permissions\"";
    assert " " + "jsonb" + "" + "" == " jsonb";
  }

  lemma AgeLine()
    ensures ColumnDefinition(Column("age", "integer", true, Some(LitInt(40)), None, false)) == "\"age\"" + " integer DEFAULT '40'"
  {
    assert Quote("age") == "\"age\"";
    assert IntToString(40) == "40";
    assert " " + "integer" + "" + (" DEFAULT '" + "40" + "'") == " integer DEFAULT '40'";
  }

  // ---------------------------------------------------------------------------------------
  // Tables and columns

  lemma DropTableUsers()
    ensures Yields(DropTableOp("users"), "DROP TABLE IF EXISTS " + "\"users\"" + ";")
  {
    assert Quote("users") == "\"users\"";
  }

  lemma RenameTableUsers()
    ensures Yields(RenameTableOp("users", "people"), "ALTER TABLE " + "\"users\"" + " RENAME TO " + "\"people\"" + ";")
  {
    assert Quote("users") == "\"users\"";
    assert Quote("people") == "\"people\"";
  }

  /** Called directly with no tables, RenameTable fails and gives no DDL. */
  lemma RenameTableNotEnoughValues()
    ensures RenameTable([]) == Err(NotEnoughTables)
  {
  }

  lemma AddColumnMyColumn()
    ensures Yields(AddColumnOp("mytable", Column("mycolumn", "string", false, Some(LitString("foo")), Some(50), false)),
      "ALTER TABLE " + "\"mytable\"" + " ADD COLUMN " + "\"mycolumn\"" + " VARCHAR (50) NOT NULL DEFAULT 'foo'" + ";")
  {
    var c := Column("mycolumn", "string", false, Some(LitString("foo")), Some(50), false);
    assert Quote("mytable") == "\"mytable\"";
    assert Quote("mycolumn") == "\"mycolumn\"";
    MyColumnSpec();
    assert Translate(AddColumnOp("mytable", c)) == AddColumn("mytable", c);
  }

  lemma MyColumnSpec()
    ensures ColumnSpec(Column("mycolumn", "string", false, Some(LitString("foo")), Some(50), false))
         == " VARCHAR (50) NOT NULL DEFAULT 'foo'"
  {
    var c := Column("mycolumn", "string", false, Some(LitString("foo")), Some(50), false);
    assert NatToString(50) == "50";
    VarcharOf(c, 50, "50");
    Varchar50Literal();
    Spec50Literal();
    DefaultFooLiteral();
    Spec50DefaultLiteral();
  }

  lemma Varchar50Literal() ensures "VARCHAR (" + "50" + ")" == "VARCHAR (50)" {}
  lemma Spec50Literal() ensures " " + "VARCHAR (50)" + " NOT NULL" == " VARCHAR (50) NOT NULL" {}
  lemma DefaultFooLiteral() ensures " DEFAULT '" + "foo" + "'" == " DEFAULT 'foo'" {}
  lemma Spec50DefaultLiteral()
    ensures " VARCHAR (50) NOT NULL" + " DEFAULT 'foo'" == " VARCHAR (50) NOT NULL DEFAULT 'foo'"
  {
  }

  lemma DropColumnTableName()
    ensures Yields(DropColumnOp("table_name", "column_name"),
      "ALTER TABLE " + "\"table_name\"" + " DROP COLUMN " + "\"column_name\"" + ";")
  {
    assert Quote("table_name") == "\"table_name\"";
    assert Quote("column_name") == "\"column_name\"";
    assert Translate(DropColumnOp("table_name", "column_name")) == DropColumn("table_name", "column_name");
  }

  lemma RenameColumnTableName()
    ensures Yields(RenameColumnOp("table_name", "old_column", "new_column"),
      "ALTER TABLE " + "\"table_name\"" + " RENAME COLUMN " + "\"old_column\"" + " TO " + "\"new_column\"" + ";")
  {
    assert Quote("table_name") == "\"table_name\"";
    assert Quote("old_column") == "\"old_column\"";
    assert Quote("new_column") == "\"new_column\"";
    assert Translate(RenameColumnOp("table_name", "old_column", "new_column"))
        == RenameColumn("table_name", "old_column", "new_column");
  }

  // ---------------------------------------------------------------------------------------
  // Indexes

  lemma AddIndexDefaultName()
    ensures Yields(AddIndexOp("table_name", One("column_name"), false, None),
      "CREATE INDEX " + "\"table_name_column_name_idx\"" + " ON " + "\"table_name\"" + " (" + "column_name" + ");")
  {
    var ix := Index(["column_name"], false, None);
    ColumnNameIndex(ix);
    assert Quote("table_name") == "\"table_name\"";
    assert "CREATE " + "" + "INDEX " == "CREATE INDEX ";
    assert Translate(AddIndexOp("table_name", One("column_name"), false, None)) == AddIndex("table_name", ix);
  }

  lemma AddIndexUnique()
    ensures Yields(AddIndexOp("table_name", One("column_name"), true, None),
      "CREATE UNIQUE INDEX " + "\"table_name_column_name_idx\"" + " ON " + "\"table_name\"" + " (" + "column_name" + ");")
  {
    var ix := Index(["column_name"], true, None);
    ColumnNameIndex(ix);
    assert Quote("table_name") == "\"table_name\"";
    assert "CREATE " + "UNIQUE " + "INDEX " == "CREATE UNIQUE INDEX ";
    assert Translate(AddIndexOp("table_name", One("column_name"), true, None)) == AddIndex("table_name", ix);
  }

  /** The derived name of an index on `table_name (column_name)`, quoted, and its column list. */
  lemma ColumnNameIndex(ix: Index)
    requires ix.columns == ["column_name"] && ix.name.None?
    ensures Quote(IndexName("table_name", ix)) == "\"table_name_column_name_idx\""
    ensures Join(ix.columns, ", ") == "column_name"
  {
    ColumnNameIndexName();
    QuotedColumnNameIndex();
  }

  lemma AddIndexMultiColumn()
    ensures Yields(AddIndexOp("table_name", Many(["col1", "col2", "col3"]), false, None),
      "CREATE INDEX " + "\"table_name_col1_col2_col3_idx\"" + " ON " + "\"table_name\"" + " (" + "col1, col2, col3" + ");")
  {
    var ix := Index(["col1", "col2", "col3"], false, None);
    MultiColumnName(ix);
    MultiColumnList(ix.columns);
    assert Quote("table_name") == "\"table_name\"";
    assert "CREATE " + "" + "INDEX " == "CREATE INDEX ";
    assert Translate(AddIndexOp("table_name", Many(["col1", "col2", "col3"]), false, None)) == AddIndex("table_name", ix);
  }

  lemma MultiColumnJoin(cs: seq<string>, sep: string)
    requires cs == ["col1", "col2", "col3"]
    ensures Join(cs, sep) == "col1" + sep + ("col2" + sep + "col3")
  {
    assert cs[1..] == ["col2", "col3"];
    assert cs[1..][1..] == ["col3"];
    assert Join(["col3"], sep) == "col3";
    assert Join(["col2", "col3"], sep) == "col2" + sep + "col3";
  }

  lemma MultiColumnList(cs: seq<string>)
    requires cs == ["col1", "col2", "col3"]
    ensures Join(cs, ", ") == "col1, col2, col3"
  {
    MultiColumnJoin(cs, ", ");
    assert "col1" + ", " + ("col2" + ", " + "col3") == "col1, col2, col3";
  }

  lemma MultiColumnName(ix: Index)
    requires ix.columns == ["col1", "col2", "col3"] && ix.name.None?
    ensures Quote(IndexName("table_name", ix)) == "\"table_name_col1_col2_col3_idx\""
  {
    MultiColumnJoin(ix.columns, "_");
    var j := "col1_col2_col3";
    assert "col1" + "_" + ("col2" + "_" + "col3") == j;
    MultiColumnIndexName();
    QuotedMultiColumnIndex();
  }

  lemma ColumnNameIndexName()
    ensures "table_name" + "_" + "column_name" + "_idx" == "table_name_column_name_idx"
  {
  }

  lemma QuotedColumnNameIndex()
    ensures "\"" + "table_name_column_name_idx" + "\"" == "\"table_name_column_name_idx\""
  {
  }

  lemma MultiColumnIndexName()
    ensures "table_name" + "_" + "col1_col2_col3" + "_idx" == "table_name_col1_col2_col3_idx"
  {
  }

  lemma QuotedMultiColumnIndex()
    ensures "\"" + "table_name_col1_col2_col3_idx" + "\"" == "\"table_name_col1_col2_col3_idx\""
  {
  }

  lemma AddIndexCustomName()
    ensures Yields(AddIndexOp("table_name", One("column_name"), false, Some("custom_name")),
      "CREATE INDEX " + "\"custom_name\"" + " ON " + "\"table_name\"" + " (" + "column_name" + ");")
  {
    var ix := Index(["column_name"], false, Some("custom_name"));
    assert Quote("custom_name") == "\"custom_name\"";
    assert Quote("table_name") == "\"table_name\"";
    assert Join(ix.columns, ", ") == "column_name";
    assert "CREATE " + "" + "INDEX " == "CREATE INDEX ";
    assert Translate(AddIndexOp("table_name", One("column_name"), false, Some("custom_name"))) == AddIndex("table_name", ix);
  }

  lemma DropIndexMyIdx()
    ensures Yields(DropIndexOp("my_idx"), "DROP INDEX IF EXISTS " + "\"my_idx\"" + ";")
  {
    assert Quote("my_idx") == "\"my_idx\"";
  }

  lemma RenameIndexOldIx()
    ensures Yields(RenameIndexOp("old_ix", "new_ix"), "ALTER INDEX " + "\"old_ix\"" + " RENAME TO " + "\"new_ix\"" + ";")
  {
    assert Quote("old_ix") == "\"old_ix\"";
    assert Quote("new_ix") == "\"new_ix\"";
  }
}
