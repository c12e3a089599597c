/**
 * How one column is written: the quoted name comes first, a `string` column becomes a
 * VARCHAR whose length is the `size` option (255 without one), `text` becomes TEXT, every
 * other type is kept as written, NOT NULL appears unless the column is nullable, and a
 * default is always single-quoted. The VARCHAR size, nullability and default are proved
 * by decoders that read the text back; the `text`, verbatim-type and primary-key rules
 * are stated directly.
 */
module PostgresColumns {
  import opened Wrappers
  import opened Strings
  import opened Fizz
  import opened Postgres
  import opened PostgresProperties

  // ---------------------------------------------------------------------------------------
  // Types

  /** The length inside `VARCHAR (<n>)`, or `None` for any other text. */
  function ParseVarchar(s: string): Option<nat> {
    if |s| >= 10 && s[..9] == "VARCHAR (" && s[|s| - 1] == ')' then ParseNat(s[9..|s| - 1])
    else None
  }

  /** A `string` column is a VARCHAR of its `size`, or of 255 when no size is given. */
  lemma VarcharSize(c: Column)
    requires c.colType == "string"
    ensures c.size.Some? ==> ParseVarchar(TypeText(c)) == Some(c.size.value)
    ensures c.size.None? ==> ParseVarchar(TypeText(c)) == Some(DefaultVarcharSize)
  {
    var n := c.size.GetOr(DefaultVarcharSize);
    var d := NatToString(n);
    var s := "VARCHAR (" + d + ")";
    assert s[..9] == "VARCHAR (";
    assert s[9..|s| - 1] == d;
    ParseNatToString(n);
  }

  /** Two `string` columns get the same type exactly when their effective sizes agree. */
  lemma SizeDeterminesVarchar(c1: Column, c2: Column)
    requires c1.colType == "string" && c2.colType == "string"
    ensures TypeText(c1) == TypeText(c2) <==> c1.size.GetOr(DefaultVarcharSize) == c2.size.GetOr(DefaultVarcharSize)
  {
    VarcharSize(c1);
    VarcharSize(c2);
  }

  /** A `text` column is TEXT, whatever its `size`. */
  lemma TextType(c: Column, size: Option<nat>)
    requires c.colType == "text"
    ensures TypeText(c.(size := size)) == "TEXT"
  {
  }

  /** Any type other than `string` and `text` is written verbatim, and `size` has no effect on it. */
  lemma OtherTypesVerbatim(c: Column, size: Option<nat>)
    requires c.colType != "string" && c.colType != "text"
    ensures TypeText(c.(size := size)) == c.colType
  {
  }

  // ---------------------------------------------------------------------------------------
  // Nullability and defaults

  /**
   * Reads back the clauses after the type: whether the column may be null (no leading
   * ` NOT NULL`) and the text of its default, if a ` DEFAULT '...'` follows.
   */
  function ParseClauses(s: string): Option<(bool, Option<string>)> {
    var notNull := |s| >= 9 && s[..9] == " NOT NULL";
    var rest := if notNull then s[9..] else s;
    if rest == [] then Some((!notNull, None))
    else if |rest| >= 11 && rest[..10] == " DEFAULT '" && rest[|rest| - 1] == '\'' then
      Some((!notNull, Some(rest[10..|rest| - 1])))
    else None
  }

  /** The default's text, as it appears between the quotes. */
  function DefaultText(d: Option<Literal>): Option<string> {
    match d
    case None => None
    case Some(v) => Some(LiteralText(v))
  }

  /** The default clause alone: read back to its text, never taken for NOT NULL. */
  lemma DefaultClauseRoundTrip(d: Option<Literal>)
    ensures ParseClauses(DefaultClause(d)) == Some((true, DefaultText(d)))
  {
    var s := DefaultClause(d);
    if d.Some? {
      var v := LiteralText(d.value);
      assert s == " DEFAULT '" + v + "'";
      assert s[1] == 'D';
      assert s[..10] == " DEFAULT '";
      assert s[10..|s| - 1] == v;
    }
  }

  /** Nullability and default are both recoverable from the clauses a column gets. */
  lemma ClausesRoundTrip(nullable: bool, d: Option<Literal>)
    ensures ParseClauses(NullClause(nullable) + DefaultClause(d)) == Some((nullable, DefaultText(d)))
  {
    var t := DefaultClause(d);
    DefaultClauseRoundTrip(d);
    if !nullable {
      var s := " NOT NULL" + t;
      assert s[..9] == " NOT NULL";
      assert s[9..] == t;
      if d.Some? {
        assert t[1] == 'D';
      }
    } else {
      assert NullClause(nullable) + t == t;
    }
  }

  /** An integer default is written as its decimal numeral inside single quotes. */
  lemma DefaultIntQuoted(i: int)
    ensures var r := ParseClauses(DefaultClause(Some(LitInt(i))));
            r.Some? && r.value.1.Some? && ParseInt(r.value.1.value) == Some(i)
  {
    DefaultClauseRoundTrip(Some(LitInt(i)));
    ParseIntToString(i);
  }

  // ---------------------------------------------------------------------------------------
  // The whole column

  /** The column's name is read back from the front of its definition, the specification follows. */
  lemma ColumnNameFirst(c: Column)
    requires '"' !in c.name
    ensures UnquotePrefix(ColumnDefinition(c)) == Some((c.name, ColumnSpec(c)))
  {
    QuoteRoundTrip(c.name, ColumnSpec(c));
  }

  /**
   * A column that is not the primary key is written as its type followed by the clauses,
   * and those clauses give back its nullability and default.
   */
  lemma ColumnSpecDecodes(c: Column)
    requires !c.primary
    ensures exists clauses :: ColumnSpec(c) == " " + TypeText(c) + clauses
                           && ParseClauses(clauses) == Some((c.nullable, DefaultText(c.default)))
  {
    var clauses := NullClause(c.nullable) + DefaultClause(c.default);
    Assoc(" " + TypeText(c), NullClause(c.nullable), DefaultClause(c.default));
    ClausesRoundTrip(c.nullable, c.default);
  }

  /** The primary key is `SERIAL PRIMARY KEY` whatever its type, nullability, default or size. */
  lemma PrimaryKeySerial(c: Column, colType: string, nullable: bool, d: Option<Literal>, size: Option<nat>)
    requires c.primary
    ensures ColumnDefinition(c.(colType := colType, nullable := nullable, default := d, size := size))
         == Quote(c.name) + " SERIAL PRIMARY KEY"
  {
  }
}
