/**
 * Quoting and injectivity: an identifier the DDL quotes, if it holds no `"`, is read back
 * where it stands; the lemmas below say what each statement gives back. Two lemmas show
 * how texts collide when quotes are not escaped or index columns are not quoted.
 */
module PostgresProperties {
  import opened Wrappers
  import opened Strings
  import opened Fizz
  import opened Postgres

  // ---------------------------------------------------------------------------------------
  // Quoting

  /** Reads a double-quoted identifier off the front of `s`, returning it and what follows. */
  function UnquotePrefix(s: string): Option<(string, string)> {
    if |s| == 0 || s[0] != '"' then None
    else
      var k := IndexOf(s[1..], '"');
      if k == |s| - 1 then None else Some((s[1..k + 1], s[k + 2..]))
  }

  /** An identifier without double quotes is read back exactly, with the text after it. */
  lemma QuoteRoundTrip(id: string, rest: string)
    requires '"' !in id
    ensures UnquotePrefix(Quote(id) + rest) == Some((id, rest))
  {
    var s := Quote(id) + rest;
    assert s[1..] == id + ['"'] + rest;
    IndexOfFirst(id, '"', rest);
    assert s[1..|id| + 1] == id;
    assert s[|id| + 2..] == rest;
  }

  lemma PrefixCancel(p: string, x: string, y: string)
    requires p + x == p + y
    ensures x == y
  {
    assert x == (p + x)[|p|..];
    assert y == (p + y)[|p|..];
  }

  lemma SuffixCancel(x: string, y: string, p: string)
    requires x + p == y + p
    ensures x == y
  {
    assert x == (x + p)[..|x|];
    assert y == (y + p)[..|y|];
  }

  /** After a common prefix, a quoted identifier without quotes determines both itself and the rest. */
  lemma QuotedCancel(p: string, a: string, x: string, b: string, y: string)
    requires '"' !in a && '"' !in b
    requires p + Quote(a) + x == p + Quote(b) + y
    ensures a == b && x == y
  {
    assert p + Quote(a) + x == p + (Quote(a) + x);
    assert p + Quote(b) + y == p + (Quote(b) + y);
    PrefixCancel(p, Quote(a) + x, Quote(b) + y);
    QuoteRoundTrip(a, x);
    QuoteRoundTrip(b, y);
  }

  /** Splicing `"` + m + `"` into the first or the second of two quoted names gives one text. */
  lemma SpliceAmbiguous(p: string, m: string, s: string, x: string, y: string, z: string)
    ensures p + Quote(x) + m + Quote(y + ("\"" + m + "\"") + z) + s
         == p + Quote(x + ("\"" + m + "\"") + y) + m + Quote(z) + s
  {
  }

  /**
   * Quoting does not escape: an identifier holding `" RENAME TO "` makes two different
   * renames produce the same statement.
   */
  lemma RenameTableQuoteCollision(x: string, y: string, z: string)
    ensures RenameTable([Table(x, []), Table(y + "\" RENAME TO \"" + z, [])])
         == RenameTable([Table(x + "\" RENAME TO \"" + y, []), Table(z, [])])
  {
    var m := " RENAME TO ";
    assert "\" RENAME TO \"" == "\"" + m + "\"";
    SpliceAmbiguous("ALTER TABLE ", m, ";", x, y, z);
  }

  // ---------------------------------------------------------------------------------------
  // What each statement gives back

  lemma CreateTableInjective(a: Table, b: Table)
    requires '"' !in a.name && '"' !in b.name
    requires CreateTable(a) == CreateTable(b)
    ensures a.name == b.name
  {
    var p := "CREATE TABLE IF NOT EXISTS ";
    CreateTableShape(a);
    CreateTableShape(b);
    QuotedCancel(p, a.name, CreateTableBody(a), b.name, CreateTableBody(b));
  }

  function CreateTableBody(t: Table): string {
    " (\n" + Join(ColumnDefinitions(t.columns), ",\n") + "\n);"
  }

  lemma CreateTableShape(t: Table)
    ensures CreateTable(t).value == "CREATE TABLE IF NOT EXISTS " + Quote(t.name) + CreateTableBody(t)
  {
    var x, j := "CREATE TABLE IF NOT EXISTS " + Quote(t.name), Join(ColumnDefinitions(t.columns), ",\n");
    Assoc(x, " (\n", j);
    Assoc(x, " (\n" + j, "\n);");
  }

  lemma DropTableInjective(a: Table, b: Table)
    requires '"' !in a.name && '"' !in b.name
    requires DropTable(a) == DropTable(b)
    ensures a.name == b.name
  {
    QuotedCancel("DROP TABLE IF EXISTS ", a.name, ";", b.name, ";");
  }

  /** `p + "<a>" + m + "<b>" + s` regrouped so that each quoted name starts a suffix. */
  lemma TwoNameShape(p: string, a: string, m: string, b: string, s: string)
    ensures p + Quote(a) + m + Quote(b) + s == p + Quote(a) + (m + Quote(b) + s)
  {
    var x := p + Quote(a);
    Assoc(x, m, Quote(b));
    Assoc(x, m + Quote(b), s);
  }

  /** A statement with two quoted names in fixed surroundings determines both names. */
  lemma TwoNamesCancel(p: string, m: string, s: string, a1: string, b1: string, a2: string, b2: string)
    requires '"' !in a1 && '"' !in b1 && '"' !in a2 && '"' !in b2
    requires p + Quote(a1) + m + Quote(b1) + s == p + Quote(a2) + m + Quote(b2) + s
    ensures a1 == a2 && b1 == b2
  {
    TwoNameShape(p, a1, m, b1, s);
    TwoNameShape(p, a2, m, b2, s);
    QuotedCancel(p, a1, m + Quote(b1) + s, a2, m + Quote(b2) + s);
    QuotedCancel(m, b1, s, b2, s);
  }

  lemma RenameTableInjective(a: seq<Table>, b: seq<Table>)
    requires |a| >= 2 && |b| >= 2
    requires '"' !in a[0].name && '"' !in a[1].name && '"' !in b[0].name && '"' !in b[1].name
    requires RenameTable(a) == RenameTable(b)
    ensures a[0].name == b[0].name && a[1].name == b[1].name
  {
    TwoNamesCancel("ALTER TABLE ", " RENAME TO ", ";", a[0].name, a[1].name, b[0].name, b[1].name);
  }

  lemma AddColumnInjective(t1: string, c1: Column, t2: string, c2: Column)
    requires '"' !in t1 && '"' !in t2 && '"' !in c1.name && '"' !in c2.name
    requires AddColumn(t1, c1) == AddColumn(t2, c2)
    ensures t1 == t2 && c1.name == c2.name && ColumnSpec(c1) == ColumnSpec(c2)
  {
    var p, m := "ALTER TABLE ", " ADD COLUMN ";
    AddColumnShape(t1, c1);
    AddColumnShape(t2, c2);
    QuotedCancel(p, t1, m + Quote(c1.name) + (ColumnSpec(c1) + ";"), t2, m + Quote(c2.name) + (ColumnSpec(c2) + ";"));
    QuotedCancel(m, c1.name, ColumnSpec(c1) + ";", c2.name, ColumnSpec(c2) + ";");
    SuffixCancel(ColumnSpec(c1), ColumnSpec(c2), ";");
  }

  lemma AddColumnShape(t: string, c: Column)
    ensures AddColumn(t, c).value
         == "ALTER TABLE " + Quote(t) + (" ADD COLUMN " + Quote(c.name) + (ColumnSpec(c) + ";"))
  {
    var x, m, q, e := "ALTER TABLE " + Quote(t), " ADD COLUMN ", Quote(c.name), ColumnSpec(c);
    Assoc(x, m, q + e);
    Assoc(x, m + (q + e), ";");
    Assoc(m, q, e);
    Assoc(m + q, e, ";");
  }

  lemma DropColumnInjective(t1: string, c1: string, t2: string, c2: string)
    requires '"' !in t1 && '"' !in t2 && '"' !in c1 && '"' !in c2
    requires DropColumn(t1, c1) == DropColumn(t2, c2)
    ensures t1 == t2 && c1 == c2
  {
    TwoNamesCancel("ALTER TABLE ", " DROP COLUMN ", ";", t1, c1, t2, c2);
  }

  lemma RenameColumnInjective(t1: string, o1: string, n1: string, t2: string, o2: string, n2: string)
    requires '"' !in t1 && '"' !in o1 && '"' !in n1 && '"' !in t2 && '"' !in o2 && '"' !in n2
    requires RenameColumn(t1, o1, n1) == RenameColumn(t2, o2, n2)
    ensures t1 == t2 && o1 == o2 && n1 == n2
  {
    var p, m, k := "ALTER TABLE ", " RENAME COLUMN ", " TO ";
    RenameColumnShape(t1, o1, n1);
    RenameColumnShape(t2, o2, n2);
    QuotedCancel(p, t1, m + Quote(o1) + k + Quote(n1) + ";", t2, m + Quote(o2) + k + Quote(n2) + ";");
    TwoNamesCancel(m, k, ";", o1, n1, o2, n2);
  }

  lemma RenameColumnShape(t: string, o: string, n: string)
    ensures RenameColumn(t, o, n).value
         == "ALTER TABLE " + Quote(t) + (" RENAME COLUMN " + Quote(o) + " TO " + Quote(n) + ";")
  {
    var x, m, k := "ALTER TABLE " + Quote(t), " RENAME COLUMN ", " TO ";
    var y := x + m + Quote(o);
    Assoc(y, k, Quote(n));
    Assoc(y, k + Quote(n), ";");
    Assoc(x, m, Quote(o));
    Assoc(x, m + Quote(o), k + Quote(n) + ";");
    Assoc(m, Quote(o), k + Quote(n));
    Assoc(m + Quote(o), k + Quote(n), ";");
    Assoc(m + Quote(o), k, Quote(n));
    Assoc(m + Quote(o) + k, Quote(n), ";");
  }

  /** The keyword part of CREATE INDEX fixes uniqueness: the eighth character is `U` or `I`. */
  lemma IndexKindDetermined(u1: bool, x: string, u2: bool, y: string)
    requires "CREATE " + (if u1 then "UNIQUE " else "") + "INDEX " + x
          == "CREATE " + (if u2 then "UNIQUE " else "") + "INDEX " + y
    ensures u1 == u2
  {
    var s1 := "CREATE " + (if u1 then "UNIQUE " else "") + "INDEX " + x;
    assert s1[7] == (if u1 then 'U' else 'I');
    var s2 := "CREATE " + (if u2 then "UNIQUE " else "") + "INDEX " + y;
    assert s2[7] == (if u2 then 'U' else 'I');
  }

  /**
   * The index name, the table and uniqueness can be read back from CREATE INDEX; of the
   * columns only their joined text is, since the list is written unquoted.
   */
  lemma AddIndexInjective(t1: string, i1: Index, t2: string, i2: Index)
    requires '"' !in t1 && '"' !in t2
    requires '"' !in IndexName(t1, i1) && '"' !in IndexName(t2, i2)
    requires AddIndex(t1, i1).Ok? && AddIndex(t1, i1) == AddIndex(t2, i2)
    ensures IndexName(t1, i1) == IndexName(t2, i2) && t1 == t2 && i1.unique == i2.unique
    ensures Join(i1.columns, ", ") == Join(i2.columns, ", ")
  {
    var n1, n2 := IndexName(t1, i1), IndexName(t2, i2);
    var j1, j2 := Join(i1.columns, ", "), Join(i2.columns, ", ");
    var k1 := "CREATE " + (if i1.unique then "UNIQUE " else "") + "INDEX ";
    var k2 := "CREATE " + (if i2.unique then "UNIQUE " else "") + "INDEX ";
    AddIndexShape(t1, i1);
    AddIndexShape(t2, i2);
    Assoc(k1, Quote(n1), " ON " + Quote(t1) + (" (" + j1 + ");"));
    Assoc(k2, Quote(n2), " ON " + Quote(t2) + (" (" + j2 + ");"));
    IndexKindDetermined(i1.unique, Quote(n1) + (" ON " + Quote(t1) + (" (" + j1 + ");")),
                        i2.unique, Quote(n2) + (" ON " + Quote(t2) + (" (" + j2 + ");")));
    QuotedCancel(k1, n1, " ON " + Quote(t1) + (" (" + j1 + ");"), n2, " ON " + Quote(t2) + (" (" + j2 + ");"));
    QuotedCancel(" ON ", t1, " (" + j1 + ");", t2, " (" + j2 + ");");
    Assoc(" (", j1, ");");
    Assoc(" (", j2, ");");
    PrefixCancel(" (", j1 + ");", j2 + ");");
    SuffixCancel(j1, j2, ");");
  }

  /**
   * The column list is not quoted: with a name given, a column called `x, y` and the two
   * columns `x` and `y` give the same CREATE INDEX text.
   */
  lemma AddIndexColumnCollision(t: string, x: string, y: string, unique: bool, name: string)
    ensures AddIndex(t, Index([x + ", " + y], unique, Some(name)))
         == AddIndex(t, Index([x, y], unique, Some(name)))
  {
    assert [x, y][1..] == [y];
    assert Join([x + ", " + y], ", ") == x + ", " + y == Join([x, y], ", ");
  }

  /** With no `,` in any column name, the column list is read back too. */
  lemma AddIndexColumnsInjective(t1: string, i1: Index, t2: string, i2: Index)
    requires '"' !in t1 && '"' !in t2
    requires '"' !in IndexName(t1, i1) && '"' !in IndexName(t2, i2)
    requires forall i :: 0 <= i < |i1.columns| ==> ',' !in i1.columns[i]
    requires forall i :: 0 <= i < |i2.columns| ==> ',' !in i2.columns[i]
    requires AddIndex(t1, i1).Ok? && AddIndex(t1, i1) == AddIndex(t2, i2)
    ensures IndexName(t1, i1) == IndexName(t2, i2) && t1 == t2 && i1.unique == i2.unique
    ensures i1.columns == i2.columns
  {
    AddIndexInjective(t1, i1, t2, i2);
    JoinInjective(i1.columns, i2.columns, ", ");
  }

  lemma AddIndexShape(t: string, ix: Index)
    requires |ix.columns| > 0
    ensures AddIndex(t, ix).value
         == "CREATE " + (if ix.unique then "UNIQUE " else "") + "INDEX " + Quote(IndexName(t, ix))
            + (" ON " + Quote(t) + (" (" + Join(ix.columns, ", ") + ");"))
  {
    var a := "CREATE " + (if ix.unique then "UNIQUE " else "") + "INDEX " + Quote(IndexName(t, ix));
    var j := Join(ix.columns, ", ");
    var y := a + " ON " + Quote(t);
    Assoc(y, " (", j);
    Assoc(y, " (" + j, ");");
    Assoc(a, " ON ", Quote(t));
    Assoc(a, " ON " + Quote(t), " (" + j + ");");
  }

  lemma DropIndexInjective(a: string, b: string)
    requires '"' !in a && '"' !in b
    requires DropIndex(a) == DropIndex(b)
    ensures a == b
  {
    QuotedCancel("DROP INDEX IF EXISTS ", a, ";", b, ";");
  }

  lemma RenameIndexInjective(o1: string, n1: string, o2: string, n2: string)
    requires '"' !in o1 && '"' !in n1 && '"' !in o2 && '"' !in n2
    requires RenameIndex(o1, n1) == RenameIndex(o2, n2)
    ensures o1 == o2 && n1 == n2
  {
    TwoNamesCancel("ALTER INDEX ", " RENAME TO ", ";", o1, n1, o2, n2);
  }
}
