# fizz: the Postgres translator

`fizz` is the migration language of the `pop` ORM. A migration script calls operations
such as `create_table`, `add_column` or `add_index`. A translator turns each operation
into one DDL statement for a particular database. This project models the Postgres
translator: a stateless set of functions that take a table, column or index description
and return the statement text, or an error. It also proves what those texts promise.

The model follows the DDL that the translator's tests in
`fizz/translators/postgres_test.go` fix. It reproduces that DDL character for character
and generalises each expectation to the rule it illustrates.

Files:

- `wrappers.dfy`: `Option` and `Result`.
- `strings.dfy`:
  - `Join`, which works like Go's `strings.Join`;
  - `IndexOf` and `SplitOn`;
  - `JoinInjective`: parts free of the separator's first character are determined by
    their join;
  - decimal numerals, with `NatToString` and `IntToString` and the parsers
    `ParseNat` and `ParseInt` that invert them.
- `fizz.dfy`: the language's entities.
  - `Column` has the options `null`, `default`, `size` and `primary`. The model names
    `null` as `nullable`, because `null` is a Dafny keyword.
  - `Index` has a column list, `unique` and an optional `name`.
  - `Table` and `Operation`.
  - `NewTable` is the table `create_table` builds. It holds the implicit `id` key and the
    `created_at` and `updated_at` timestamps ahead of the declared columns.
- `postgres.dfy`: the translator.
  - `CreateTable`, `DropTable`, `RenameTable`, `AddColumn`, `DropColumn`,
    `RenameColumn`, `AddIndex`, `DropIndex` and `RenameIndex`.
  - The helpers they share: `Quote`, `TypeText`, `ColumnDefinition` and `IndexName`.
  - `Translate`, which runs one script operation through the matching function.
- `postgres_properties.dfy`: an identifier the DDL quotes, if it holds no `"`, is read
  back where it stands. What each statement gives back:
  - CREATE TABLE: the table name. Column names are read back line by line only when no
    column's name, type or string default holds a line break (`CreateTableLines` in
    `postgres_lines.dfy`, then `ColumnNameFirst` in `postgres_columns.dfy`);
  - DROP TABLE, DROP INDEX: the name;
  - RenameTable, RenameIndex: the old and the new name;
  - ADD COLUMN: the table, the column name and the column's specification text;
  - DROP COLUMN: the table and the column; RENAME COLUMN: the table, old and new column;
  - CREATE INDEX: the index name, the table and `unique`, and the column list's joined
    text. The list itself is read back only when no column name holds a `,`.

  Two lemmas show how texts collide: an identifier holding a `"`, and an index column
  name holding `, `.
- `postgres_columns.dfy`: type mapping, nullability and defaults. The VARCHAR size,
  nullability and default are proved by decoders that read the column text back; the
  `text`, verbatim-type and primary-key rules are stated directly.
- `postgres_lines.dfy`: the line layout of CREATE TABLE, and that ADD COLUMN writes a
  column exactly as CREATE TABLE does.
- `postgres_index.dfy`: index naming, `unique`, a single column standing for a
  one-element list, and the argument rules of RenameTable.
- `postgres_test.dfy`: one lemma per test case. Each states the exact expected DDL,
  written in pieces split at the identifier boundaries. The `create_table` case writes
  its expected column lines as a list and joins them with `Join` and `,\n`.

## Model

| member | source | states |
|---|---|---|
| `Fizz.NewTable` | fizz/translators/postgres_test.go:16-34 | `create_table` yields the `id` primary key, then `created_at` and `updated_at`, then the declared columns in call order |
| `Postgres.RenameTable` | fizz/translators/postgres_test.go:57-62 | fails with NotEnoughTables exactly when it is given fewer than two tables, otherwise renames the first to the second |
| `Postgres.AddIndex` | fizz/translators/postgres_test.go:90-120 | every index in the tests has a column list and succeeds; the translator fails with NoIndexColumns exactly when the list is empty |
| `Postgres.Translate` | fizz/translators/postgres_test.go:27-35 | a script operation fails exactly when it is an index over an empty column list |
| `PostgresTest.CreateTableUsers` | fizz/translators/postgres_test.go:14-37 | the `users` script gives the header, the id, timestamp and five declared column lines joined by `,\n`, then `);` |
| `PostgresTest.DropTableUsers` | fizz/translators/postgres_test.go:39-46 | `drop_table("users")` gives `DROP TABLE IF EXISTS "users";` |
| `PostgresTest.RenameTableUsers` | fizz/translators/postgres_test.go:48-55 | `rename_table("users", "people")` gives `ALTER TABLE "users" RENAME TO "people";` |
| `PostgresTest.RenameTableNotEnoughValues` | fizz/translators/postgres_test.go:57-62 | RenameTable of no tables is the NotEnoughTables error |
| `PostgresTest.AddColumnMyColumn` | fizz/translators/postgres_test.go:64-71 | a `string` column of size 50 with default `foo` is added as `VARCHAR (50) NOT NULL DEFAULT 'foo'` |
| `PostgresTest.DropColumnTableName` | fizz/translators/postgres_test.go:73-80 | the exact DROP COLUMN statement of the test |
| `PostgresTest.RenameColumnTableName` | fizz/translators/postgres_test.go:82-88 | the exact RENAME COLUMN statement of the test |
| `PostgresTest.AddIndexDefaultName` | fizz/translators/postgres_test.go:90-96 | an unnamed index on one column is called `table_name_column_name_idx` |
| `PostgresTest.AddIndexUnique` | fizz/translators/postgres_test.go:98-104 | `unique` gives `CREATE UNIQUE INDEX` with the same name |
| `PostgresTest.AddIndexMultiColumn` | fizz/translators/postgres_test.go:106-112 | three columns give the name `table_name_col1_col2_col3_idx` and the list `(col1, col2, col3)` |
| `PostgresTest.AddIndexCustomName` | fizz/translators/postgres_test.go:114-120 | a given name replaces the derived one |
| `PostgresTest.DropIndexMyIdx` | fizz/translators/postgres_test.go:122-128 | `drop_index("my_idx")` gives `DROP INDEX IF EXISTS "my_idx";` |
| `PostgresTest.RenameIndexOldIx` | fizz/translators/postgres_test.go:130-137 | `rename_index("old_ix", "new_ix")` gives `ALTER INDEX "old_ix" RENAME TO "new_ix";` |
| `PostgresProperties.QuoteRoundTrip` | fizz/translators/postgres_test.go:73-80 | a quoted identifier without `"` is read back exactly, together with the text that follows it |
| `PostgresProperties.CreateTableInjective` | fizz/translators/postgres_test.go:16 | equal CREATE TABLE statements name the same table |
| `PostgresProperties.DropTableInjective` | fizz/translators/postgres_test.go:42 | equal DROP TABLE statements name the same table |
| `PostgresProperties.RenameTableInjective` | fizz/translators/postgres_test.go:51 | equal renames have the same old and new table names |
| `PostgresProperties.AddColumnInjective` | fizz/translators/postgres_test.go:66 | equal ADD COLUMN statements have the same table, column name and column specification |
| `PostgresProperties.DropColumnInjective` | fizz/translators/postgres_test.go:75 | equal DROP COLUMN statements have the same table and column |
| `PostgresProperties.RenameColumnInjective` | fizz/translators/postgres_test.go:84 | equal RENAME COLUMN statements have the same table, old and new column |
| `PostgresProperties.AddIndexInjective` | fizz/translators/postgres_test.go:92-116 | equal CREATE INDEX statements have the same index name, table and uniqueness, and the same joined column text |
| `PostgresProperties.AddIndexColumnCollision` | fizz/translators/postgres_test.go:108 | columns are listed unquoted, so one column named `x, y` and the two columns `x` and `y` give the same CREATE INDEX text |
| `PostgresProperties.AddIndexColumnsInjective` | fizz/translators/postgres_test.go:92-116 | with no `,` in any column name, equal CREATE INDEX statements also have the same column list |
| `PostgresProperties.DropIndexInjective` | fizz/translators/postgres_test.go:124 | equal DROP INDEX statements name the same index |
| `PostgresProperties.RenameIndexInjective` | fizz/translators/postgres_test.go:133 | equal index renames have the same old and new names |
| `PostgresProperties.RenameTableQuoteCollision` | fizz/translators/postgres_test.go:51 | quotes are not escaped, so a name holding `" RENAME TO "` makes two different renames print the same text |
| `PostgresColumns.VarcharSize` | fizz/translators/postgres_test.go:20-22 | a `string` column reads back as `VARCHAR (n)`, where n is its size, or 255 without one |
| `PostgresColumns.SizeDeterminesVarchar` | fizz/translators/postgres_test.go:20-22 | two `string` columns get the same type text exactly when their effective sizes agree |
| `PostgresColumns.TextType` | fizz/translators/postgres_test.go:20-24 | a `text` column is written `TEXT`, whatever its `size` |
| `PostgresColumns.OtherTypesVerbatim` | fizz/translators/postgres_test.go:23-24 | any type other than `string` and `text` is written as given, and `size` does not change it |
| `PostgresColumns.DefaultClauseRoundTrip` | fizz/translators/postgres_test.go:66 | the default clause reads back to the default's text, and never reads as NOT NULL |
| `PostgresColumns.ClausesRoundTrip` | fizz/translators/postgres_test.go:20-24 | NOT NULL appears exactly when the column is not nullable, and the default clause gives back the default's text |
| `PostgresColumns.DefaultIntQuoted` | fizz/translators/postgres_test.go:24 | an integer default is its decimal numeral in single quotes, read back to the same integer |
| `PostgresColumns.ColumnNameFirst` | fizz/translators/postgres_test.go:17-24 | a column line starts with the quoted name, read back exactly, followed by the column's specification |
| `PostgresColumns.ColumnSpecDecodes` | fizz/translators/postgres_test.go:20-24 | any column that is not the primary key is its type text, then clauses that decode to its nullability and default |
| `PostgresColumns.PrimaryKeySerial` | fizz/translators/postgres_test.go:17 | the primary key is `SERIAL PRIMARY KEY` whatever its type, nullability, default or size |
| `PostgresLines.CreateTableText` | fizz/translators/postgres_test.go:16-25 | for a table with at least one column, CREATE TABLE is the header line, the column lines with commas on all but the last, and `);`, joined by newlines |
| `PostgresLines.CreateTableNoColumns` | fizz/translators/postgres_test.go:16-25 | for a table with no columns, the header line is followed by an empty line and `);` |
| `PostgresLines.CreateTableLines` | fizz/translators/postgres_test.go:16-25 | when the identifiers hold no line break, splitting CREATE TABLE at newlines gives back exactly those lines |
| `PostgresLines.CreateTableLineAt` | fizz/translators/postgres_test.go:17-24 | line k+1 is the definition of column k, with a comma unless that column is the last |
| `PostgresLines.NewTableLines` | fizz/translators/postgres_test.go:16-34 | a `create_table` table has these lines in order: header, `id SERIAL PRIMARY KEY`, the two `timestamp NOT NULL` columns, the declared columns, `);` |
| `PostgresLines.ColumnDefinitionSingleLine` | fizz/translators/postgres_test.go:17-24 | a column's definition is one line when its name, type and string default are |
| `PostgresLines.AddColumnMatchesCreateTable` | fizz/translators/postgres_test.go:64-71 | ADD COLUMN writes the column exactly as the matching CREATE TABLE line writes it |
| `PostgresIndex.IndexNameDerived` | fizz/translators/postgres_test.go:106-112 | an unnamed index is the table name with `_<column>` appended per column and `_idx` after them |
| `PostgresIndex.SingleColumnIndexName` | fizz/translators/postgres_test.go:90-96 | on one column, the derived name is `<table>_<column>_idx` |
| `PostgresIndex.ExplicitIndexName` | fizz/translators/postgres_test.go:114-120 | a given index name is used as written |
| `PostgresIndex.UniqueIndexPrefix` | fizz/translators/postgres_test.go:98-104 | a unique index is the plain statement with `UNIQUE ` inserted after `CREATE ` |
| `PostgresIndex.SingleColumnArg` | fizz/translators/postgres_test.go:94 | a single column name is the same as a one-element list holding it |
| `PostgresIndex.IndexColumnsRequired` | fizz/translators/postgres_test.go:106-112 | `add_index` fails with NoIndexColumns exactly when it is given an empty list |
| `PostgresIndex.RenameTableFirstTwo` | fizz/translators/postgres_test.go:60 | RenameTable reads only its first two tables |
| `Strings.ParseNatToString` | fizz/translators/postgres_test.go:20-22 | a VARCHAR length is written as a decimal numeral that parses back to the same number |
| `Strings.ParseIntToString` | fizz/translators/postgres_test.go:24 | an integer default is written as a signed decimal numeral that parses back to the same integer |
| `Strings.JoinInjective` | fizz/translators/postgres_test.go:108 | a list of parts without the separator's first character can be read back from its join |
| `Strings.JoinSplitOn` | fizz/translators/postgres_test.go:16-25 | splitting a text at a character and joining the pieces back with it gives the original text |

## Left out

- The JavaScript interpreter behind `fizz.AString` is not modelled. The model starts
  from the operation a script evaluates to, so `Translate` stands in for evaluating one
  script statement.
- Running several statements in sequence, and the test harness, are left out.
- The other dialects (MySQL, SQLite and others) are not part of this model.
- Reading and writing migration files, and talking to a database, are left out.
- The translator's implementation file is not part of this model. The model follows
  the behaviour its tests fix. Where the tests say nothing, the model takes the simplest
  rule consistent with them:
  - only `string` and `text` are mapped to other types (`text` to `TEXT`, as the
    language's documented type table says);
  - the primary key's declared type is ignored;
  - RenameTable uses the first two tables it is given.
- Quote: identifiers are wrapped in double quotes and embedded quotes are not escaped.
  The injectivity lemmas therefore require identifiers free of `"`.
  `RenameTableQuoteCollision` shows why this requirement is needed.
- DefaultClause: a string default is wrapped in single quotes and an embedded `'` is not
  escaped; the default `x' NOT NULL` is written `DEFAULT 'x' NOT NULL'`.
- AddIndexInjective: index columns are written unquoted, so the lemma recovers only their
  joined text. `AddIndexColumnCollision` shows two lists with the same text, and
  `AddIndexColumnsInjective` recovers the list when no column name holds a `,`.
- No test shows AddIndex with an empty column list. The NoIndexColumns error follows the
  language's documented rule that an index has at least one column.
- The model fails only with NotEnoughTables and NoIndexColumns. It does not check for
  empty identifiers or unknown type names, because no test shows such an error.
- Defaults are strings or integers. Float and boolean defaults are left out because no
  test fixes how they are written.
- A table's indexes and its options, such as turning off the timestamps, are left out.
- Column options beyond `null`, `default`, `size` and `primary` are left out.
