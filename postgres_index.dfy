/**
 * Indexes and the remaining argument rules: how an index is named when no name is given,
 * what `unique` changes, that one column name means a one-column list, and which tables
 * RenameTable reads.
 */
module PostgresIndex {
  import opened Wrappers
  import opened Strings
  import opened Fizz
  import opened Postgres
  import opened PostgresProperties

  /** The derivation rule read left to right: start from the table, append `_<column>` per column. */
  function DerivedName(table: string, columns: seq<string>): string
    decreases |columns|
  {
    if |columns| == 0 then table
    else DerivedName(table, columns[..|columns| - 1]) + "_" + columns[|columns| - 1]
  }

  lemma {:induction false} JoinDerived(table: string, columns: seq<string>)
    requires |columns| > 0
    ensures table + "_" + Join(columns, "_") == DerivedName(table, columns)
    decreases |columns|
  {
    var n := |columns|;
    var init, last := columns[..n - 1], columns[n - 1];
    assert columns == init + [last];
    if n == 1 {
      assert DerivedName(table, init) == table;
    } else {
      JoinSnoc(init, last, "_");
      JoinDerived(table, init);
      Assoc(table + "_", Join(init, "_") + "_", last);
      Assoc(table + "_", Join(init, "_"), "_");
    }
  }

  /** An unnamed index is called `<table>_<col1>_..._<colN>_idx`. */
  lemma IndexNameDerived(table: string, ix: Index)
    requires ix.name.None? && |ix.columns| > 0
    ensures IndexName(table, ix) == DerivedName(table, ix.columns) + "_idx"
  {
    JoinDerived(table, ix.columns);
  }

  /** The one-column case of the rule. */
  lemma SingleColumnIndexName(table: string, column: string, unique: bool)
    ensures IndexName(table, Index([column], unique, None)) == table + "_" + column + "_idx"
  {
    IndexNameDerived(table, Index([column], unique, None));
    assert [column][..0] == [];
  }

  /** A given name is used as it is, whatever the table and the columns. */
  lemma ExplicitIndexName(table: string, ix: Index, name: string)
    requires ix.name == Some(name)
    ensures IndexName(table, ix) == name
  {
  }

  lemma DropPrefix(p: string, x: string)
    ensures (p + x)[|p|..] == x
  {
  }

  /**
   * `unique` only inserts `UNIQUE ` after `CREATE `: the rest of the statement, the
   * index name included, is that of the non-unique index.
   */
  lemma UniqueIndexPrefix(table: string, ix: Index)
    requires |ix.columns| > 0
    ensures AddIndex(table, ix.(unique := true)).value
         == "CREATE UNIQUE " + AddIndex(table, ix.(unique := false)).value[7..]
  {
    var u, p := ix.(unique := true), ix.(unique := false);
    var n := Quote(IndexName(table, ix));
    var rest := " ON " + Quote(table) + (" (" + Join(ix.columns, ", ") + ");");
    var x := "INDEX " + n + rest;
    AddIndexShape(table, u);
    AddIndexShape(table, p);
    Assoc("CREATE UNIQUE ", "INDEX " + n, rest);
    Assoc("CREATE UNIQUE ", "INDEX ", n);
    Assoc("CREATE ", "INDEX " + n, rest);
    Assoc("CREATE ", "INDEX ", n);
    assert "CREATE " + "" == "CREATE ";
    assert "CREATE " + "UNIQUE " == "CREATE UNIQUE ";
    DropPrefix("CREATE ", x);
  }

  /** A single column name and the one-element list holding it give the same index. */
  lemma SingleColumnArg(table: string, column: string, unique: bool, name: Option<string>)
    ensures Translate(AddIndexOp(table, One(column), unique, name))
         == Translate(AddIndexOp(table, Many([column]), unique, name))
  {
  }

  /** An index over a list of columns fails exactly when the list is empty. */
  lemma IndexColumnsRequired(table: string, columns: ColumnsArg, unique: bool, name: Option<string>)
    ensures Translate(AddIndexOp(table, columns, unique, name)).Err?
        <==> columns.Many? && columns.columns == []
    ensures Translate(AddIndexOp(table, columns, unique, name)).Err?
        ==> Translate(AddIndexOp(table, columns, unique, name)).error == NoIndexColumns
  {
  }

  /** RenameTable reads only the first two tables it is given. */
  lemma RenameTableFirstTwo(tables: seq<Table>)
    requires |tables| >= 2
    ensures RenameTable(tables) == RenameTable(tables[..2])
  {
  }
}
