/**
 * The processor's existence probes: the catalog query each one sends, built by filling
 * a fixed template with names made safe by `FormatToSafeSchemaName` / `FormatToSafeName`.
 *
 * PostgresQuoter (UnQuote, UnQuoteSchemaName, QuoteTableName) and
 * FormatHelper.FormatSqlEscape are not part of this model; they are the fields of a
 * `Helpers` value, about which nothing is assumed except where a lemma says so.
 */
module Probes {
  import opened Wrappers
  import opened CompositeFormat
  import opened SqlLiteral

  datatype Helpers = Helpers(
    unQuote: string -> string,
    unQuoteSchemaName: string -> string,
    quoteTableName: (string, string) -> string, // (tableName, schemaName)
    formatSqlEscape: string -> string)

  /** The escape is the quote doubling of ISO/IEC 9075-2, section 5.3. */
  ghost predicate DoublesQuotes(h: Helpers) {
    forall x :: h.formatSqlEscape(x) == DoubleQuotes(x)
  }

  /** `text` written between two quotes is read as one literal whose content is `content`. */
  ghost predicate ReadsBackAs(text: string, content: string) {
    ReadLiteral([Quote] + text + [Quote]) == Some((content, ""))
  }

  /**
   * The schema name with its identifier quotes removed (UnQuoteSchemaName), escaped for
   * use inside a string literal: under the quote-doubling escape, the result between
   * quotes reads back as the unquoted schema name.
   */
  function FormatToSafeSchemaName(h: Helpers, schemaName: string): (r: string)
    ensures DoublesQuotes(h) ==> ReadsBackAs(r, h.unQuoteSchemaName(schemaName))
  {
    var raw := h.unQuoteSchemaName(schemaName);
    assert DoublesQuotes(h) ==> ReadsBackAs(h.formatSqlEscape(raw), raw) by {
      if DoublesQuotes(h) {
        LiteralRoundTrip(raw, "");
        assert [Quote] + DoubleQuotes(raw) + [Quote] + "" == [Quote] + DoubleQuotes(raw) + [Quote];
      }
    }
    h.formatSqlEscape(raw)
  }

  /**
   * An object name with its identifier quotes removed (UnQuote), escaped for use inside a
   * string literal: under the quote-doubling escape, the result between quotes reads back
   * as the unquoted name.
   */
  function FormatToSafeName(h: Helpers, sqlName: string): (r: string)
    ensures DoublesQuotes(h) ==> ReadsBackAs(r, h.unQuote(sqlName))
  {
    var raw := h.unQuote(sqlName);
    assert DoublesQuotes(h) ==> ReadsBackAs(h.formatSqlEscape(raw), raw) by {
      if DoublesQuotes(h) {
        LiteralRoundTrip(raw, "");
        assert [Quote] + DoubleQuotes(raw) + [Quote] + "" == [Quote] + DoubleQuotes(raw) + [Quote];
      }
    }
    h.formatSqlEscape(raw)
  }

  /** The seven catalog probes and the names each is given. */
  datatype Probe =
    | SchemaProbe(schemaName: string)
    | TableProbe(schemaName: string, tableName: string)
    | ColumnProbe(schemaName: string, tableName: string, columnName: string)
    | ConstraintProbe(schemaName: string, tableName: string, constraintName: string)
    | IndexProbe(schemaName: string, tableName: string, indexName: string)
    | SequenceProbe(schemaName: string, sequenceName: string)
    | DefaultValueProbe(schemaName: string, tableName: string, columnName: string, defaultValue: string)

  // ---------------------------------------------------------------------------
  // Templates whose holes all stand inside quotes: parts[0] '{0}' parts[1] '{1}' ... parts[n].

  /** The template with holes `first`, `first + 1`, ... each between two quotes. */
  function QuotedTemplate(parts: seq<string>, first: nat): Template
    requires |parts| > 0
    decreases |parts|
  {
    if |parts| == 1 then [Lit(parts[0])]
    else [Lit(parts[0] + [Quote]), Hole(first), Lit([Quote])] + QuotedTemplate(parts[1..], first + 1)
  }

  /** The text such a template yields: each value between two quotes, the parts around them. */
  function Splice(parts: seq<string>, values: seq<string>): string
    requires |parts| == |values| + 1
    decreases |values|
  {
    if values == [] then parts[0]
    else parts[0] + [Quote] + values[0] + [Quote] + Splice(parts[1..], values[1..])
  }

  lemma {:induction false} FormatQuotedTemplate(parts: seq<string>, first: nat, args: seq<string>)
    requires |parts| > 0 && first + |parts| - 1 <= |args|
    ensures Format(QuotedTemplate(parts, first), args) == Success(Splice(parts, args[first..first + |parts| - 1]))
    decreases |parts|
  {
    var values := args[first..first + |parts| - 1];
    if |parts| == 1 {
      assert [Lit(parts[0])][1..] == [];
      assert parts[0] + "" == parts[0];
    } else {
      var head: Template := [Lit(parts[0] + [Quote]), Hole(first), Lit([Quote])];
      var rest := QuotedTemplate(parts[1..], first + 1);
      var tail := Splice(parts[1..], values[1..]);
      assert values[1..] == args[first + 1..first + 1 + |parts[1..]| - 1];
      FormatQuotedTemplate(parts[1..], first + 1, args);
      assert Format(rest, args) == Success(tail);
      FormatLitThen([Quote], [], args);
      FormatHoleThen(first, [Lit([Quote])], args);
      FormatLitThen(parts[0] + [Quote], [Hole(first), Lit([Quote])], args);
      assert [Lit(parts[0] + [Quote])] + [Hole(first), Lit([Quote])] == head;
      assert [Hole(first)] + [Lit([Quote])] == [Hole(first), Lit([Quote])];
      assert [Lit([Quote])] + [] == [Lit([Quote])];
      var h := parts[0] + [Quote] + (args[first] + ([Quote] + ""));
      assert Format(head, args) == Success(h);
      FormatAppend(head, rest, args);
      assert QuotedTemplate(parts, first) == head + rest;
      assert Format(QuotedTemplate(parts, first), args) == Success(h + tail);
      assert values[0] == args[first];
      assert h + tail == parts[0] + [Quote] + values[0] + [Quote] + tail;
    }
  }

  // ---------------------------------------------------------------------------
  // The probes' catalog queries, written in pieces: the text before the first hole
  // (the head) and the text between two holes.

  const SelectFromInformationSchema := "select * from information_schema"
  const SchemataWhere := ".schemata where schema_name = "
  const TablesWhere := ".tables where table_schema = "
  const ColumnsWhere := ".columns where table_schema = "
  const TableConstraintsWhere := ".table_constraints where "
  const ConstraintCatalogIsCurrent := "constraint_catalog = current_catalog"
  const AndTableSchema := " and table_schema = "
  const SelectFromPgIndexes := "select * from pg_catalog.pg_indexes"
  const WhereSchemaname := " where schemaname="
  const SequencesWhere := ".sequences where "
  const SequenceCatalogIsCurrent := "sequence_catalog = current_catalog"
  const AndSequenceSchema := " and sequence_schema ="

  const AndTableName := " and table_name = "
  const AndColumnName := " and column_name = "
  const AndConstraintName := " and constraint_name = "
  const AndTablename := " and tablename = "
  const AndIndexname := " and indexname = "
  const AndSequenceName := " and sequence_name = "
  const AndColumnDefaultLike := " and column_default like "

  /** The text around the quoted holes of each probe's template. */
  function ProbeParts(p: Probe): (parts: seq<string>)
    ensures |parts| > 0
  {
    match p
    case SchemaProbe(_) =>
      [SelectFromInformationSchema + SchemataWhere, ""]
    case TableProbe(_, _) =>
      [SelectFromInformationSchema + TablesWhere, AndTableName, ""]
    case ColumnProbe(_, _, _) =>
      [SelectFromInformationSchema + ColumnsWhere, AndTableName, AndColumnName, ""]
    case ConstraintProbe(_, _, _) =>
      [SelectFromInformationSchema + TableConstraintsWhere + ConstraintCatalogIsCurrent + AndTableSchema,
       AndTableName, AndConstraintName, ""]
    case IndexProbe(_, _, _) =>
      [SelectFromPgIndexes + WhereSchemaname, AndTablename, AndIndexname, ""]
    case SequenceProbe(_, _) =>
      [SelectFromInformationSchema + SequencesWhere + SequenceCatalogIsCurrent + AndSequenceSchema,
       AndSequenceName, ""]
    case DefaultValueProbe(_, _, _, _) =>
      [SelectFromInformationSchema + ColumnsWhere, AndTableName, AndColumnName, AndColumnDefaultLike, ""]
  }

  /** The probe's fixed template, holes numbered from zero. */
  function ProbeTemplate(p: Probe): Template {
    QuotedTemplate(ProbeParts(p), 0)
  }

  const LikePattern: Template := [Lit("%"), Hole(0), Lit("%")]

  /** DefaultValueExists's `{3}`: the escaped default value (not unquoted) between two `%`. */
  function DefaultValuePattern(h: Helpers, defaultValue: string): (r: string)
    ensures r == "%" + h.formatSqlEscape(defaultValue) + "%"
  {
    var args := [h.formatSqlEscape(defaultValue)];
    FormatTextOfTemplate(LikePattern, args);
    FormatLitThen("%", [], args);
    FormatHoleThen(0, [Lit("%")], args);
    FormatLitThen("%", [Hole(0), Lit("%")], args);
    assert [Lit("%")] + [] == [Lit("%")];
    assert [Hole(0)] + [Lit("%")] == [Hole(0), Lit("%")];
    assert [Lit("%")] + [Hole(0), Lit("%")] == LikePattern;
    FormatText(Text(LikePattern), args).value
  }

  /** The arguments each probe passes, in order: schema, object, sub-object (and pattern). */
  function ProbeArgs(h: Helpers, p: Probe): (args: seq<string>)
    ensures |args| + 1 == |ProbeParts(p)|
  {
    match p
    case SchemaProbe(s) => [FormatToSafeSchemaName(h, s)]
    case TableProbe(s, t) => [FormatToSafeSchemaName(h, s), FormatToSafeName(h, t)]
    case ColumnProbe(s, t, c) =>
      [FormatToSafeSchemaName(h, s), FormatToSafeName(h, t), FormatToSafeName(h, c)]
    case ConstraintProbe(s, t, c) =>
      [FormatToSafeSchemaName(h, s), FormatToSafeName(h, t), FormatToSafeName(h, c)]
    case IndexProbe(s, t, i) =>
      [FormatToSafeSchemaName(h, s), FormatToSafeName(h, t), FormatToSafeName(h, i)]
    case SequenceProbe(s, q) => [FormatToSafeSchemaName(h, s), FormatToSafeName(h, q)]
    case DefaultValueProbe(s, t, c, v) =>
      [FormatToSafeSchemaName(h, s), FormatToSafeName(h, t), FormatToSafeName(h, c),
       DefaultValuePattern(h, v)]
  }

  /** The query a probe sends: each safe name between quotes in the probe's catalog SQL. */
  function ProbeQuery(h: Helpers, p: Probe): string {
    Splice(ProbeParts(p), ProbeArgs(h, p))
  }

  /** Filling the probe's template text with its arguments yields exactly its catalog query. */
  lemma ProbeRendersQuery(h: Helpers, p: Probe)
    ensures FormatText(Text(ProbeTemplate(p)), ProbeArgs(h, p)) == Success(ProbeQuery(h, p))
  {
    var parts, args := ProbeParts(p), ProbeArgs(h, p);
    FormatTextOfTemplate(ProbeTemplate(p), args);
    FormatQuotedTemplate(parts, 0, args);
    assert args[0..|parts| - 1] == args;
  }

  /** ReadTableData's template: the table name, quoted by QuoteTableName, after SELECT * FROM. */
  const TableDataTemplate: Template := [Lit("SELECT * FROM "), Hole(0)]

  lemma TableDataRendersQuery(h: Helpers, schemaName: string, tableName: string)
    ensures FormatText(Text(TableDataTemplate), [h.quoteTableName(tableName, schemaName)])
         == Success("SELECT * FROM " + h.quoteTableName(tableName, schemaName))
  {
    PrefixedHoleRenders("SELECT * FROM ", h.quoteTableName(tableName, schemaName));
  }

  lemma PrefixedHoleRenders(prefix: string, arg: string)
    ensures FormatText(Text([Lit(prefix), Hole(0)]), [arg]) == Success(prefix + arg)
  {
    var t: Template := [Lit(prefix), Hole(0)];
    FormatTextOfTemplate(t, [arg]);
    FormatHoleThen(0, [], [arg]);
    FormatLitThen(prefix, [Hole(0)], [arg]);
    assert [Hole(0)] + [] == [Hole(0)];
    assert [Lit(prefix)] + [Hole(0)] == t;
    assert arg + "" == arg;
  }

  // ---------------------------------------------------------------------------
  // Injection safety under the quote-doubling escape.

  /**
   * The quoted literals of a SQL text, in order; None when one is never closed.
   * Text outside literals is skipped.
   */
  function Literals(s: string): Option<seq<string>>
    decreases |s|
  {
    if s == [] then Some([])
    else if s[0] != Quote then Literals(s[1..])
    else
      match ReadBody(s[1..])
      case None => None
      case Some((v, rest)) =>
        (match Literals(rest)
         case None => None
         case Some(vs) => Some([v] + vs))
  }

  lemma {:induction false} LiteralsSkipText(t: string, rest: string)
    requires Quote !in t
    ensures Literals(t + rest) == Literals(rest)
    decreases |t|
  {
    if t != [] {
      var s := t + rest;
      assert t[0] in t;
      assert s[0] == t[0] && s[0] != Quote;
      assert s[1..] == t[1..] + rest;
      assert t == [t[0]] + t[1..];
      assert Quote !in t[1..];
      LiteralsSkipText(t[1..], rest);
      assert Literals(s) == Literals(s[1..]);
    } else {
      assert t + rest == rest;
    }
  }

  function DoubleEach(raws: seq<string>): (r: seq<string>)
    ensures |r| == |raws|
    ensures forall i :: 0 <= i < |raws| ==> r[i] == DoubleQuotes(raws[i])
    decreases |raws|
  {
    if raws == [] then [] else [DoubleQuotes(raws[0])] + DoubleEach(raws[1..])
  }

  /** A quote-doubled value between quotes is one literal, followed by the literals after it. */
  lemma LiteralsOfQuoted(v: string, tail: string)
    requires tail == [] || tail[0] != Quote
    ensures Literals([Quote] + DoubleQuotes(v) + [Quote] + tail) ==
      match Literals(tail)
      case None => None
      case Some(vs) => Some([v] + vs)
  {
    var body := DoubleQuotes(v) + [Quote] + tail;
    var s := [Quote] + DoubleQuotes(v) + [Quote] + tail;
    assert s == [Quote] + body;
    assert s != [] && s[0] == Quote && s[1..] == body;
    ReadBodyOfEscaped(v, tail);
    assert ReadBody(s[1..]) == Some((v, tail));
  }

  /** A splice whose first part is quote-free, and non-empty when values follow, does not start with a quote. */
  lemma SpliceStart(parts: seq<string>, values: seq<string>)
    requires |parts| == |values| + 1
    requires Quote !in parts[0] && (values != [] ==> parts[0] != "")
    ensures var s := Splice(parts, values); s == [] || s[0] != Quote
  {
    if values != [] {
      assert Splice(parts, values)[0] == parts[0][0];
      assert parts[0][0] in parts[0];
    } else if parts[0] != [] {
      assert parts[0][0] in parts[0];
    }
  }

  /**
   * Text parts without quotes, the inner ones non-empty, spliced with quote-doubled
   * values: reading the literals back gives exactly the values.
   */
  lemma {:induction false} LiteralsOfSplice(parts: seq<string>, raws: seq<string>)
    requires |parts| == |raws| + 1
    requires forall i :: 0 <= i < |parts| ==> Quote !in parts[i]
    requires forall i :: 0 < i < |parts| - 1 ==> parts[i] != ""
    ensures Literals(Splice(parts, DoubleEach(raws))) == Some(raws)
    decreases |raws|
  {
    var values := DoubleEach(raws);
    if raws == [] {
      LiteralsSkipText(parts[0], "");
      assert parts[0] + "" == parts[0];
    } else {
      var tail := Splice(parts[1..], values[1..]);
      assert values[1..] == DoubleEach(raws[1..]);
      assert Quote !in parts[1];
      assert |parts| > 2 ==> parts[1] != "";
      LiteralsOfSplice(parts[1..], raws[1..]);
      SpliceStart(parts[1..], values[1..]);
      var quoted := [Quote] + values[0] + [Quote] + tail;
      assert Splice(parts, values) == parts[0] + quoted;
      LiteralsSkipText(parts[0], quoted);
      LiteralsOfQuoted(raws[0], tail);
      assert [raws[0]] + raws[1..] == raws;
    }
  }

  /** The values a probe asks about, before escaping. */
  function RawValues(h: Helpers, p: Probe): seq<string> {
    match p
    case SchemaProbe(s) => [h.unQuoteSchemaName(s)]
    case TableProbe(s, t) => [h.unQuoteSchemaName(s), h.unQuote(t)]
    case ColumnProbe(s, t, c) => [h.unQuoteSchemaName(s), h.unQuote(t), h.unQuote(c)]
    case ConstraintProbe(s, t, c) => [h.unQuoteSchemaName(s), h.unQuote(t), h.unQuote(c)]
    case IndexProbe(s, t, i) => [h.unQuoteSchemaName(s), h.unQuote(t), h.unQuote(i)]
    case SequenceProbe(s, q) => [h.unQuoteSchemaName(s), h.unQuote(q)]
    case DefaultValueProbe(s, t, c, v) =>
      [h.unQuoteSchemaName(s), h.unQuote(t), h.unQuote(c), "%" + v + "%"]
  }

  lemma DoubleQuotesPattern(v: string)
    ensures DoubleQuotes("%" + v + "%") == "%" + DoubleQuotes(v) + "%"
  {
    DoubleQuotesAppend("%", v + "%");
    DoubleQuotesAppend(v, "%");
    assert "%" + v + "%" == "%" + (v + "%");
  }

  lemma {:induction false} DoubleQuotesAppend(a: string, b: string)
    ensures DoubleQuotes(a + b) == DoubleQuotes(a) + DoubleQuotes(b)
    decreases |a|
  {
    if a == [] {
      assert a + b == b;
    } else {
      assert (a + b)[0] == a[0] && (a + b)[1..] == a[1..] + b;
      DoubleQuotesAppend(a[1..], b);
    }
  }

  // Each piece of catalog text is checked on its own, which keeps every proof small.

  ghost predicate QuoteFree(s: string) {
    Quote !in s
  }

  lemma QuoteFreeJoin(a: string, b: string)
    requires QuoteFree(a) && QuoteFree(b)
    ensures QuoteFree(a + b)
  {
  }

  lemma InformationSchemaIsQuoteFree() ensures QuoteFree(SelectFromInformationSchema) { }
  lemma SchemataWhereIsQuoteFree() ensures QuoteFree(SchemataWhere) { }
  lemma TablesWhereIsQuoteFree() ensures QuoteFree(TablesWhere) { }
  lemma ColumnsWhereIsQuoteFree() ensures QuoteFree(ColumnsWhere) { }
  lemma TableConstraintsWhereIsQuoteFree() ensures QuoteFree(TableConstraintsWhere) { }
  lemma ConstraintCatalogIsQuoteFree() ensures QuoteFree(ConstraintCatalogIsCurrent) { }
  lemma AndTableSchemaIsQuoteFree() ensures QuoteFree(AndTableSchema) { }
  lemma PgIndexesIsQuoteFree() ensures QuoteFree(SelectFromPgIndexes) { }
  lemma WhereSchemanameIsQuoteFree() ensures QuoteFree(WhereSchemaname) { }
  lemma SequencesWhereIsQuoteFree() ensures QuoteFree(SequencesWhere) { }
  lemma SequenceCatalogIsQuoteFree() ensures QuoteFree(SequenceCatalogIsCurrent) { }
  lemma AndSequenceSchemaIsQuoteFree() ensures QuoteFree(AndSequenceSchema) { }
  lemma AndTableNameIsQuoteFree() ensures QuoteFree(AndTableName) { }
  lemma AndColumnNameIsQuoteFree() ensures QuoteFree(AndColumnName) { }
  lemma AndConstraintNameIsQuoteFree() ensures QuoteFree(AndConstraintName) { }
  lemma AndTablenameIsQuoteFree() ensures QuoteFree(AndTablename) { }
  lemma AndIndexnameIsQuoteFree() ensures QuoteFree(AndIndexname) { }
  lemma AndSequenceNameIsQuoteFree() ensures QuoteFree(AndSequenceName) { }
  lemma AndColumnDefaultLikeIsQuoteFree() ensures QuoteFree(AndColumnDefaultLike) { }

  lemma HeadIsQuoteFree(p: Probe)
    ensures QuoteFree(ProbeParts(p)[0])
  {
    InformationSchemaIsQuoteFree();
    match p {
      case SchemaProbe(_) =>
        SchemataWhereIsQuoteFree();
        QuoteFreeJoin(SelectFromInformationSchema, SchemataWhere);
      case TableProbe(_, _) =>
        TablesWhereIsQuoteFree();
        QuoteFreeJoin(SelectFromInformationSchema, TablesWhere);
      case ColumnProbe(_, _, _) =>
        ColumnsWhereIsQuoteFree();
        QuoteFreeJoin(SelectFromInformationSchema, ColumnsWhere);
      case DefaultValueProbe(_, _, _, _) =>
        ColumnsWhereIsQuoteFree();
        QuoteFreeJoin(SelectFromInformationSchema, ColumnsWhere);
      case ConstraintProbe(_, _, _) =>
        TableConstraintsWhereIsQuoteFree();
        ConstraintCatalogIsQuoteFree();
        AndTableSchemaIsQuoteFree();
        QuoteFreeJoin(SelectFromInformationSchema, TableConstraintsWhere);
        QuoteFreeJoin(SelectFromInformationSchema + TableConstraintsWhere, ConstraintCatalogIsCurrent);
        QuoteFreeJoin(SelectFromInformationSchema + TableConstraintsWhere + ConstraintCatalogIsCurrent, AndTableSchema);
      case IndexProbe(_, _, _) =>
        PgIndexesIsQuoteFree();
        WhereSchemanameIsQuoteFree();
        QuoteFreeJoin(SelectFromPgIndexes, WhereSchemaname);
      case SequenceProbe(_, _) =>
        SequencesWhereIsQuoteFree();
        SequenceCatalogIsQuoteFree();
        AndSequenceSchemaIsQuoteFree();
        QuoteFreeJoin(SelectFromInformationSchema, SequencesWhere);
        QuoteFreeJoin(SelectFromInformationSchema + SequencesWhere, SequenceCatalogIsCurrent);
        QuoteFreeJoin(SelectFromInformationSchema + SequencesWhere + SequenceCatalogIsCurrent, AndSequenceSchema);
    }
  }

  lemma LaterPartsAreQuoteFree(p: Probe)
    ensures forall i :: 1 <= i < |ProbeParts(p)| ==> QuoteFree(ProbeParts(p)[i])
  {
    assert QuoteFree("");
    AndTableNameIsQuoteFree();
    AndColumnNameIsQuoteFree();
    AndConstraintNameIsQuoteFree();
    AndTablenameIsQuoteFree();
    AndIndexnameIsQuoteFree();
    AndSequenceNameIsQuoteFree();
    AndColumnDefaultLikeIsQuoteFree();
  }

  /** No probe's catalog text contains a quote of its own, and only the last part is empty. */
  lemma ProbePartsAreQuoteFree(p: Probe)
    ensures forall i :: 0 <= i < |ProbeParts(p)| ==> Quote !in ProbeParts(p)[i]
    ensures forall i :: 0 < i < |ProbeParts(p)| - 1 ==> ProbeParts(p)[i] != ""
  {
    HeadIsQuoteFree(p);
    LaterPartsAreQuoteFree(p);
    forall i | 0 <= i < |ProbeParts(p)| ensures Quote !in ProbeParts(p)[i] {
      assert QuoteFree(ProbeParts(p)[i]);
    }
  }

  /**
   * With the quote-doubling escape, every name a probe interpolates stays inside its own
   * literal: reading the query's literals back yields exactly the unquoted names (and the
   * `%`-wrapped default value), in argument order.
   */
  lemma ProbeLiteralsAreItsNames(h: Helpers, p: Probe)
    requires DoublesQuotes(h)
    ensures Literals(ProbeQuery(h, p)) == Some(RawValues(h, p))
  {
    var parts, args, raws := ProbeParts(p), ProbeArgs(h, p), RawValues(h, p);
    if p.DefaultValueProbe? {
      DoubleQuotesPattern(p.defaultValue);
    }
    assert |args| == |raws|;
    forall i | 0 <= i < |args| ensures args[i] == DoubleEach(raws)[i] {
    }
    assert args == DoubleEach(raws);
    ProbePartsAreQuoteFree(p);
    LiteralsOfSplice(parts, raws);
  }
}
