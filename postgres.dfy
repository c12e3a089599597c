/**
 * The Postgres translator: one function per operation of the migration language, each
 * rendering its arguments as the exact DDL text Postgres accepts, or failing with an error.
 * The translator holds no state.
 */
module Postgres {
  import opened Wrappers
  import opened Strings
  import opened Fizz

  /** An identifier wrapped in double quotes; embedded quotes are not escaped. */
  function Quote(id: string): string {
    "\"" + id + "\""
  }

  /** The length a `string` column gets when no `size` is given. */
  const DefaultVarcharSize: nat := 255

  /**
   * The Postgres type of a column: `string` becomes a sized VARCHAR, `text` becomes TEXT,
   * any other type is used as written.
   */
  function TypeText(c: Column): string {
    if c.colType == "string" then "VARCHAR (" + NatToString(c.size.GetOr(DefaultVarcharSize)) + ")"
    else if c.colType == "text" then "TEXT"
    else c.colType
  }

  /** A default value as it appears between the single quotes. */
  function LiteralText(v: Literal): string {
    match v
    case LitString(s) => s
    case LitInt(i) => IntToString(i)
  }

  function NullClause(nullable: bool): string {
    if nullable then "" else " NOT NULL"
  }

  /** A default is always single-quoted, whatever its type. */
  function DefaultClause(default: Option<Literal>): string {
    match default
    case None => ""
    case Some(v) => " DEFAULT '" + LiteralText(v) + "'"
  }

  /** One column as CREATE TABLE and ADD COLUMN write it: the quoted name, then its specification. */
  function ColumnDefinition(c: Column): string {
    Quote(c.name) + ColumnSpec(c)
  }

  /** The primary key is SERIAL; any other column has its type, nullability and default, in that order. */
  function ColumnSpec(c: Column): string {
    if c.primary then " SERIAL PRIMARY KEY"
    else " " + TypeText(c) + NullClause(c.nullable) + DefaultClause(c.default)
  }

  function ColumnDefinitions(cols: seq<Column>): seq<string> {
    seq(|cols|, i requires 0 <= i < |cols| => ColumnDefinition(cols[i]))
  }

  /** The explicit name of an index, or `<table>_<col1>_..._<colN>_idx`. */
  function IndexName(table: string, ix: Index): string {
    match ix.name
    case Some(n) => n
    case None => table + "_" + Join(ix.columns, "_") + "_idx"
  }

  function CreateTable(t: Table): Result<string, Error> {
    Ok("CREATE TABLE IF NOT EXISTS " + Quote(t.name) + " (\n"
       + Join(ColumnDefinitions(t.columns), ",\n") + "\n);")
  }

  function DropTable(t: Table): Result<string, Error> {
    Ok("DROP TABLE IF EXISTS " + Quote(t.name) + ";")
  }

  /** Renames the first table to the second; fewer than two tables is an error. */
  function RenameTable(tables: seq<Table>): (r: Result<string, Error>)
    ensures r.Err? <==> |tables| < 2
    ensures r.Err? ==> r.error == NotEnoughTables
  {
    if |tables| < 2 then Err(NotEnoughTables)
    else Ok("ALTER TABLE " + Quote(tables[0].name) + " RENAME TO " + Quote(tables[1].name) + ";")
  }

  function AddColumn(table: string, c: Column): Result<string, Error> {
    Ok("ALTER TABLE " + Quote(table) + " ADD COLUMN " + ColumnDefinition(c) + ";")
  }

  function DropColumn(table: string, column: string): Result<string, Error> {
    Ok("ALTER TABLE " + Quote(table) + " DROP COLUMN " + Quote(column) + ";")
  }

  function RenameColumn(table: string, oldColumn: string, newColumn: string): Result<string, Error> {
    Ok("ALTER TABLE " + Quote(table) + " RENAME COLUMN " + Quote(oldColumn) + " TO " + Quote(newColumn) + ";")
  }

  /** The column list is written unquoted and comma-separated; an index over no columns is an error. */
  function AddIndex(table: string, ix: Index): (r: Result<string, Error>)
    ensures r.Err? <==> |ix.columns| == 0
    ensures r.Err? ==> r.error == NoIndexColumns
  {
    if |ix.columns| == 0 then Err(NoIndexColumns)
    else Ok("CREATE " + (if ix.unique then "UNIQUE " else "") + "INDEX " + Quote(IndexName(table, ix))
            + " ON " + Quote(table) + " (" + Join(ix.columns, ", ") + ");")
  }

  function DropIndex(index: string): Result<string, Error> {
    Ok("DROP INDEX IF EXISTS " + Quote(index) + ";")
  }

  function RenameIndex(oldIndex: string, newIndex: string): Result<string, Error> {
    Ok("ALTER INDEX " + Quote(oldIndex) + " RENAME TO " + Quote(newIndex) + ";")
  }

  /**
   * One operation of a script rendered by the matching translator function. Only an
   * index over an empty column list fails: the script's two-name `rename_table` always
   * hands RenameTable an old and a new table.
   */
  function Translate(op: Operation): (r: Result<string, Error>)
    ensures r.Err? <==> op.AddIndexOp? && IndexColumns(op.indexColumns) == []
  {
    match op
    case CreateTableOp(name, cols) => CreateTable(NewTable(name, cols))
    case DropTableOp(name) => DropTable(Table(name, []))
    case RenameTableOp(o, n) => RenameTable([Table(o, []), Table(n, [])])
    case AddColumnOp(t, c) => AddColumn(t, c)
    case DropColumnOp(t, c) => DropColumn(t, c)
    case RenameColumnOp(t, o, n) => RenameColumn(t, o, n)
    case AddIndexOp(t, cols, u, n) => AddIndex(t, Index(IndexColumns(cols), u, n))
    case DropIndexOp(n) => DropIndex(n)
    case RenameIndexOp(o, n) => RenameIndex(o, n)
  }
}
