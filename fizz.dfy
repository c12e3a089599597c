/**
 * The dialect-neutral description of a migration: tables, their columns and indexes, and
 * the nine operations a migration script can request. A translator turns each operation
 * into DDL text for one database.
 */
module Fizz {
  import opened Wrappers

  /** A column default as the script writes it: a string or an integer literal. */
  datatype Literal = LitString(s: string) | LitInt(i: int)

  /**
   * A column with its options: `nullable` is the script's `null` option (absent or false
   * means NOT NULL), `default` its default value, `size` the length of a sized type,
   * `primary` marks the auto-incrementing primary key.
   */
  datatype Column = Column(
    name: string,
    colType: string,
    nullable: bool,
    default: Option<Literal>,
    size: Option<nat>,
    primary: bool)

  /** An index over columns of one table; without `name` the translator derives one. */
  datatype Index = Index(columns: seq<string>, unique: bool, name: Option<string>)

  /** A table and its columns, in the order they were declared. */
  datatype Table = Table(name: string, columns: seq<Column>)

  /** How `add_index` names its columns: one column name or a list of them. */
  datatype ColumnsArg = One(column: string) | Many(columns: seq<string>)

  /** The nine operations of the migration language, with the arguments each takes. */
  datatype Operation =
    | CreateTableOp(table: string, columns: seq<Column>)
    | DropTableOp(table: string)
    | RenameTableOp(oldTable: string, newTable: string)
    | AddColumnOp(table: string, column: Column)
    | DropColumnOp(table: string, columnName: string)
    | RenameColumnOp(table: string, oldColumn: string, newColumn: string)
    | AddIndexOp(table: string, indexColumns: ColumnsArg, unique: bool, indexName: Option<string>)
    | DropIndexOp(index: string)
    | RenameIndexOp(oldIndex: string, newIndex: string)

  /** Why a translator call produced no DDL. */
  datatype Error =
    | NotEnoughTables  // RenameTable was given fewer than an old and a new table
    | NoIndexColumns   // an index over no columns

  /** A plain column: no options set. */
  function PlainColumn(name: string, colType: string): Column {
    Column(name, colType, false, None, None, false)
  }

  /** The primary key every table created by `create_table` starts with. */
  const IdColumn: Column := Column("id", "integer", false, None, None, true)

  /** The timestamp columns every table created by `create_table` carries. */
  const CreatedAtColumn: Column := PlainColumn("created_at", "timestamp")
  const UpdatedAtColumn: Column := PlainColumn("updated_at", "timestamp")

  /**
   * The table `create_table(name, block)` builds: the implicit `id` key, the two
   * timestamp columns, then the columns the block declares, in call order.
   */
  function NewTable(name: string, declared: seq<Column>): (t: Table)
    ensures t.name == name
    ensures |t.columns| == |declared| + 3
    ensures t.columns[0].name == "id" && t.columns[0].primary
    ensures t.columns[1].name == "created_at" && t.columns[2].name == "updated_at"
    ensures t.columns[3..] == declared
  {
    Table(name, [IdColumn, CreatedAtColumn, UpdatedAtColumn] + declared)
  }

  /** The column list of an index: a single column name counts as a one-element list. */
  function IndexColumns(arg: ColumnsArg): seq<string>
  {
    match arg
    case One(c) => [c]
    case Many(cs) => cs
  }
}
