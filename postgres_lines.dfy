/**
 * The layout of CREATE TABLE: a header line, one line per column in table order (all but
 * the last ending in a comma), then a closing line. A table made by `create_table` starts
 * with the `id` key and the two timestamps, and ADD COLUMN writes a column exactly as
 * CREATE TABLE does.
 */
module PostgresLines {
  import opened Wrappers
  import opened Strings
  import opened Fizz
  import opened Postgres

  predicate SingleLine(s: string) {
    '\n' !in s
  }

  /** A column whose name, type and default text hold no line break. */
  predicate OneLineColumn(c: Column) {
    SingleLine(c.name) && SingleLine(c.colType)
    && (c.default.Some? && c.default.value.LitString? ==> SingleLine(c.default.value.s))
  }

  /** Lines separated by `,\n`, seen line by line: every line but the last ends in a comma. */
  function CommaTerminated(lines: seq<string>): (r: seq<string>)
    ensures |r| == |lines|
  {
    seq(|lines|, i requires 0 <= i < |lines| => lines[i] + (if i < |lines| - 1 then "," else ""))
  }

  lemma DigitsSingleLine(s: string)
    requires AllDigits(s)
    ensures SingleLine(s)
  {
  }

  lemma ConcatSingleLine(a: string, b: string)
    requires SingleLine(a) && SingleLine(b)
    ensures SingleLine(a + b)
  {
  }

  lemma TypeTextSingleLine(c: Column)
    requires SingleLine(c.colType)
    ensures SingleLine(TypeText(c))
  {
    if c.colType == "string" {
      var d := NatToString(c.size.GetOr(DefaultVarcharSize));
      DigitsSingleLine(d);
      ConcatSingleLine("VARCHAR (", d);
      ConcatSingleLine("VARCHAR (" + d, ")");
    }
  }

  lemma DefaultClauseSingleLine(d: Option<Literal>)
    requires d.Some? && d.value.LitString? ==> SingleLine(d.value.s)
    ensures SingleLine(DefaultClause(d))
  {
    if d.Some? {
      var v := LiteralText(d.value);
      if d.value.LitInt? {
        var i := d.value.i;
        if i < 0 {
          DigitsSingleLine(NatToString(-i));
          ConcatSingleLine("-", NatToString(-i));
        } else {
          DigitsSingleLine(NatToString(i));
        }
      }
      ConcatSingleLine(" DEFAULT '", v);
      ConcatSingleLine(" DEFAULT '" + v, "'");
    }
  }

  /** A column definition is one line when what it is built from is. */
  lemma ColumnDefinitionSingleLine(c: Column)
    requires OneLineColumn(c)
    ensures SingleLine(ColumnDefinition(c))
  {
    ConcatSingleLine("\"", c.name);
    ConcatSingleLine("\"" + c.name, "\"");
    if !c.primary {
      TypeTextSingleLine(c);
      DefaultClauseSingleLine(c.default);
      ConcatSingleLine(" ", TypeText(c));
      ConcatSingleLine(" " + TypeText(c), NullClause(c.nullable));
      ConcatSingleLine(" " + TypeText(c) + NullClause(c.nullable), DefaultClause(c.default));
    }
    ConcatSingleLine(Quote(c.name), ColumnSpec(c));
  }

  lemma CommaTerminatedCons(l: string, rest: seq<string>)
    requires |rest| > 0
    ensures CommaTerminated([l] + rest) == [l + ","] + CommaTerminated(rest)
  {
    var a, b := CommaTerminated([l] + rest), [l + ","] + CommaTerminated(rest);
    forall i | 0 <= i < |a| ensures a[i] == b[i] {
      if i > 0 {
        assert ([l] + rest)[i] == rest[i - 1];
      }
    }
  }

  lemma JoinCons(l: string, rest: seq<string>, sep: string)
    requires |rest| > 0
    ensures Join([l] + rest, sep) == l + sep + Join(rest, sep)
  {
    assert ([l] + rest)[1..] == rest;
  }

  /** Lines one per line: splitting their newline-join gives them back. */
  lemma {:induction false} SplitJoinNewlines(lines: seq<string>)
    requires |lines| > 0
    requires forall i :: 0 <= i < |lines| ==> SingleLine(lines[i])
    ensures SplitOn(Join(lines, "\n"), '\n') == lines
  {
    var l := lines[0];
    if |lines| == 1 {
      SplitOnNone(l, '\n');
    } else {
      var rest := lines[1..];
      assert lines == [l] + rest;
      JoinCons(l, rest, "\n");
      SplitOnCons(l, '\n', Join(rest, "\n"));
      SplitJoinNewlines(rest);
    }
  }

  /** Joining with `,\n` is joining the comma-terminated lines with `\n`. */
  lemma {:induction false} JoinCommaTerminated(lines: seq<string>)
    requires |lines| > 0
    ensures Join(CommaTerminated(lines), "\n") == Join(lines, ",\n")
  {
    var l := lines[0];
    if |lines| == 1 {
      assert l + "" == l;
      assert CommaTerminated(lines) == [l];
    } else {
      var rest := lines[1..];
      assert lines == [l] + rest;
      CommaTerminatedCons(l, rest);
      JoinCons(l + ",", CommaTerminated(rest), "\n");
      JoinCommaTerminated(rest);
      JoinCons(l, rest, ",\n");
      var nl: string := "\n";
      assert ",\n" == "," + nl;
      Assoc(l, ",", nl);
    }
  }

  function CreateTableHeader(name: string): string {
    "CREATE TABLE IF NOT EXISTS " + Quote(name) + " ("
  }

  /** The lines of CREATE TABLE, in order. */
  function CreateTableLayout(t: Table): seq<string> {
    [CreateTableHeader(t.name)] + CommaTerminated(ColumnDefinitions(t.columns)) + [");"]
  }

  /** A first line, middle lines and a last line joined by `sep`. */
  lemma JoinFramed(first: string, lines: seq<string>, last: string, sep: string)
    requires |lines| > 0
    ensures Join([first] + lines + [last], sep) == first + sep + Join(lines, sep) + sep + last
  {
    JoinSnoc([first] + lines, last, sep);
    JoinCons(first, lines, sep);
  }

  /** A header, lines and a closing line joined by newlines, regrouped into CREATE TABLE's pieces. */
  lemma FramedJoin(p: string, lines: seq<string>)
    requires |lines| > 0
    ensures Join([p + " ("] + lines + [");"], "\n") == p + " (\n" + Join(lines, "\n") + "\n);"
  {
    var j := Join(lines, "\n");
    JoinFramed(p + " (", lines, ");", "\n");
    FrameLiterals();
    Assoc(p, " (", "\n");
    Assoc(p + " (\n" + j, "\n", ");");
  }

  lemma FrameLiterals()
    ensures " (" + "\n" == " (\n" && "\n" + ");" == "\n);"
  {
  }

  /** CREATE TABLE is its layout joined by newlines. */
  lemma CreateTableText(t: Table)
    requires |t.columns| > 0
    ensures CreateTable(t).value == Join(CreateTableLayout(t), "\n")
  {
    var defs := ColumnDefinitions(t.columns);
    var p := "CREATE TABLE IF NOT EXISTS " + Quote(t.name);
    JoinCommaTerminated(defs);
    FramedJoin(p, CommaTerminated(defs));
  }

  /** With no columns, the header line is followed by an empty line and the closing line. */
  lemma CreateTableNoColumns(name: string)
    ensures CreateTable(Table(name, [])).value == CreateTableHeader(name) + "\n" + "\n);"
  {
    var p := "CREATE TABLE IF NOT EXISTS " + Quote(name);
    var nl: string := "\n";
    assert Join(ColumnDefinitions([]), ",\n") == "";
    assert " (\n" == " (" + nl;
    Assoc(p, " (", nl);
    assert p + " (\n" + "" == p + " (\n";
  }

  lemma HeaderSingleLine(name: string)
    requires SingleLine(name)
    ensures SingleLine(CreateTableHeader(name))
  {
    ConcatSingleLine("\"", name);
    ConcatSingleLine("\"" + name, "\"");
    ConcatSingleLine("CREATE TABLE IF NOT EXISTS ", Quote(name));
    ConcatSingleLine("CREATE TABLE IF NOT EXISTS " + Quote(name), " (");
  }

  /** The lines of CREATE TABLE: the header, one line per column in order, then `);`. */
  lemma CreateTableLines(t: Table)
    requires SingleLine(t.name) && |t.columns| > 0
    requires forall i :: 0 <= i < |t.columns| ==> OneLineColumn(t.columns[i])
    ensures SplitOn(CreateTable(t).value, '\n') == CreateTableLayout(t)
  {
    LayoutSingleLine(t);
    CreateTableText(t);
    SplitJoinNewlines(CreateTableLayout(t));
  }

  lemma LayoutSingleLine(t: Table)
    requires SingleLine(t.name)
    requires forall i :: 0 <= i < |t.columns| ==> OneLineColumn(t.columns[i])
    ensures forall i :: 0 <= i < |CreateTableLayout(t)| ==> SingleLine(CreateTableLayout(t)[i])
  {
    var defs := ColumnDefinitions(t.columns);
    var ct := CommaTerminated(defs);
    var layout := CreateTableLayout(t);
    HeaderSingleLine(t.name);
    forall i | 0 <= i < |ct| ensures SingleLine(ct[i]) {
      ColumnDefinitionSingleLine(t.columns[i]);
      ConcatSingleLine(defs[i], if i < |defs| - 1 then "," else "");
    }
    forall i | 0 <= i < |layout| ensures SingleLine(layout[i]) {
      if 0 < i < |layout| - 1 {
        assert layout[i] == ct[i - 1];
      }
    }
  }

  /** Line `k + 1` of CREATE TABLE is the definition of column `k`, with a comma unless it is the last. */
  lemma CreateTableLineAt(t: Table, k: nat)
    requires SingleLine(t.name) && k < |t.columns|
    requires forall i :: 0 <= i < |t.columns| ==> OneLineColumn(t.columns[i])
    ensures var lines := SplitOn(CreateTable(t).value, '\n');
            && |lines| == |t.columns| + 2
            && lines[0] == CreateTableHeader(t.name)
            && lines[k + 1] == ColumnDefinition(t.columns[k]) + (if k < |t.columns| - 1 then "," else "")
            && lines[|t.columns| + 1] == ");"
  {
    CreateTableLines(t);
    var ct := CommaTerminated(ColumnDefinitions(t.columns));
    LineOf(CreateTableLayout(t), CreateTableHeader(t.name), ct, k);
  }

  lemma LineOf(lines: seq<string>, h: string, ct: seq<string>, k: nat)
    requires lines == [h] + ct + [");"] && k < |ct|
    ensures |lines| == |ct| + 2 && lines[0] == h && lines[k + 1] == ct[k] && lines[|ct| + 1] == ");"
  {
  }

  /**
   * The table `create_table(name, declared)` builds is written as the header, the `id`
   * line, the `created_at` and `updated_at` lines, the declared columns in order, and `);`.
   */
  lemma NewTableLines(name: string, declared: seq<Column>)
    requires SingleLine(name)
    requires forall i :: 0 <= i < |declared| ==> OneLineColumn(declared[i])
    ensures var lines := SplitOn(CreateTable(NewTable(name, declared)).value, '\n');
            && |lines| == |declared| + 5
            && lines[0] == CreateTableHeader(name)
            && lines[1] == "\"id\"" + " SERIAL PRIMARY KEY" + ","
            && lines[2] == "\"created_at\"" + " timestamp NOT NULL" + ","
            && lines[3] == "\"updated_at\"" + " timestamp NOT NULL" + (if |declared| > 0 then "," else "")
            && (forall i :: 0 <= i < |declared| ==>
                  lines[4 + i] == ColumnDefinition(declared[i]) + (if i < |declared| - 1 then "," else ""))
            && lines[|declared| + 4] == ");"
  {
    var t := NewTable(name, declared);
    NewTableOneLine(name, declared);
    CreateTableLineAt(t, 0);
    CreateTableLineAt(t, 1);
    CreateTableLineAt(t, 2);
    IdLine();
    CreatedAtLine();
    UpdatedAtLine();
    forall i | 0 <= i < |declared|
      ensures SplitOn(CreateTable(t).value, '\n')[4 + i]
           == ColumnDefinition(declared[i]) + (if i < |declared| - 1 then "," else "")
    {
      CreateTableLineAt(t, 3 + i);
      assert t.columns[3 + i] == declared[i];
    }
  }

  /** The implicit columns are one line each, so a table of one-line columns stays one. */
  lemma NewTableOneLine(name: string, declared: seq<Column>)
    requires forall i :: 0 <= i < |declared| ==> OneLineColumn(declared[i])
    ensures var t := NewTable(name, declared);
            forall i :: 0 <= i < |t.columns| ==> OneLineColumn(t.columns[i])
  {
    var t := NewTable(name, declared);
    assert OneLineColumn(IdColumn) && OneLineColumn(CreatedAtColumn) && OneLineColumn(UpdatedAtColumn);
    forall i | 0 <= i < |t.columns| ensures OneLineColumn(t.columns[i]) {
      if i >= 3 {
        assert t.columns[i] == declared[i - 3];
      }
    }
  }

  lemma IdLine()
    ensures ColumnDefinition(IdColumn) == "\"id\"" + " SERIAL PRIMARY KEY"
  {
    assert Quote("id") == "\"id\"";
  }

  lemma CreatedAtLine()
    ensures ColumnDefinition(CreatedAtColumn) == "\"created_at\"" + " timestamp NOT NULL"
  {
    TimestampLine("created_at");
    assert Quote("created_at") == "\"created_at\"";
  }

  lemma UpdatedAtLine()
    ensures ColumnDefinition(UpdatedAtColumn) == "\"updated_at\"" + " timestamp NOT NULL"
  {
    TimestampLine("updated_at");
    assert Quote("updated_at") == "\"updated_at\"";
  }

  lemma TimestampLine(name: string)
    ensures ColumnDefinition(PlainColumn(name, "timestamp")) == Quote(name) + " timestamp NOT NULL"
  {
    assert " " + "timestamp" + " NOT NULL" == " timestamp NOT NULL";
  }

  /**
   * ADD COLUMN writes a column exactly as the line CREATE TABLE gives it in a table of
   * that one column.
   */
  lemma AddColumnMatchesCreateTable(table: string, c: Column, name: string)
    requires OneLineColumn(c) && SingleLine(name)
    ensures var lines := SplitOn(CreateTable(Table(name, [c])).value, '\n');
            |lines| == 3 && AddColumn(table, c).value == "ALTER TABLE " + Quote(table) + " ADD COLUMN " + lines[1] + ";"
  {
    CreateTableLineAt(Table(name, [c]), 0);
    assert ColumnDefinition(c) + "" == ColumnDefinition(c);
  }
}
