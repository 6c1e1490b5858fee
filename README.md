# PostgresProcessor, modelled in Dafny

This project models the migration processor for PostgreSQL in FluentMigrator
(`PostgresProcessor`). The model covers the following:

- **The statement executor.**
  - `Process(sql)` logs the statement. Unless the processor is in preview mode or the statement is empty, it then opens the connection and runs the statement once.
  - When the driver fails, `Process(sql)` rethrows the failure with a three-line message, and the driver's exception is the cause.
  - `Execute` formats a template and passes the result to `Process`.
  - `Process(PerformDBOperationExpression)` logs "Performing DB Operation". Unless in preview mode, it then opens the connection and calls the operation, if there is one.
- **The query primitives.**
  - `Read` opens the connection, formats the query, runs it and returns the rows.
  - `Exists` does the same and returns whether there is at least one row.
  - Neither logs anything, and preview mode does not suppress either of them.
- **The catalog probes.**
  - `SchemaExists`, `TableExists`, `ColumnExists`, `ConstraintExists`, `IndexExists`, `SequenceExists` and `DefaultValueExists` each fill a fixed catalog query. Every hole sits between quotes.
  - The fillers are names made safe by `FormatToSafeSchemaName` or `FormatToSafeName`.
  - `ReadTableData` reads `SELECT * FROM` the quoted table name.

Modules:

- `Wrappers`: `Option` and `Result`.
- `CompositeFormat`: the part of .NET's `string.Format` that the processor uses. It covers literal text, `{{`/`}}` escapes, and numbered holes `{n}` filled with strings, where spaces may stand before the closing brace. The text is read left to right, and a hole numbered past the arguments fails as soon as it has been read, before any later malformed brace, as in .NET 7 and later.
  - A template is a sequence of segments. `Text` renders it as the composite-format string that callers pass, and `Parse` reads such a string back, given the number of arguments.
  - `FormatTextOfTemplate` proves that formatting the text of a template is the same as formatting the template.
- `SqlLiteral`: quote doubling and a lexer for quoted SQL literals, with a round trip between them. The processor's escape helper lives outside the model. The quote-doubling rule is the character-string-literal rule of ISO/IEC 9075-2, section 5.3 `<literal>`, and the model takes it as an explicit assumption wherever it is used.
- `Executor`: the processor context as a `State`, which holds:
  - whether the connection is open;
  - the log;
  - the commands issued on the connection.

  Each operation is a pure transition over `State`, run against an abstract `Database`. For each command the `Database` receives the commands issued before it, and it answers with rows or with a failure message. Lemmas cover runs of several statements: preview runs, successful live runs, and live runs that stop at the first failure.
- `Probes`:
  - the probes' catalog queries, and the proof that each probe's template text renders that query;
  - under the quote-doubling escape, the proof that reading the query's literals back yields exactly the names asked about, in order, so no name can end its literal early.
- `Processor`: the class `PostgresProcessor`. Its fields are `connOpen`, `log` and `commands`, and its methods update them in place. Each method is proved to perform exactly the corresponding `Executor` transition, or, for the probes, to issue exactly the probe's query.

## Model

| member | source | states |
|---|---|---|
| CompositeFormat.Format | src/FluentMigrator.Runner.Postgres/Processors/Postgres/PostgresProcessor.cs:44 | Formatting succeeds iff every hole names an existing argument. Otherwise it fails with an index-out-of-range error for a hole of the template that has no argument. |
| CompositeFormat.FormatAppend | src/FluentMigrator.Runner.Postgres/Processors/Postgres/PostgresProcessor.cs:92 | Formatting a concatenation of templates joins the two formatted halves, and the left half's error wins. |
| CompositeFormat.Decimal | src/FluentMigrator.Runner.Postgres/Processors/Postgres/PostgresProcessor.cs:84 | The numeral written in a hole `{n}` is a non-empty run of digits whose value is n. |
| CompositeFormat.Parse | src/FluentMigrator.Runner.Postgres/Processors/Postgres/PostgresProcessor.cs:84 | Reading a composite-format string for n arguments yields only holes numbered below n. A failure is either a malformed brace or an index error for a hole number of n or more; both are FormatExceptions. |
| CompositeFormat.FormatText | src/FluentMigrator.Runner.Postgres/Processors/Postgres/PostgresProcessor.cs:92 | `string.Format` on template text succeeds exactly when the text can be read for the given arguments, and otherwise fails with the reading error. |
| CompositeFormat.SpacesBeforeClosingBrace | src/FluentMigrator.Runner.Postgres/Processors/Postgres/PostgresProcessor.cs:44 | `{0 }` with the argument "a" formats to "a": spaces may follow the number of a hole. |
| CompositeFormat.IndexCheckedInTextOrder | src/FluentMigrator.Runner.Postgres/Processors/Postgres/PostgresProcessor.cs:103 | `{5}{` with one argument fails with the index error for hole 5, not with the malformed brace after it. |
| CompositeFormat.ExplodeBelow | src/FluentMigrator.Runner.Postgres/Processors/Postgres/PostgresProcessor.cs:103 | What reading the text of a template yields: it succeeds iff every hole is below the argument count, and then gives the segments with literals split into characters. Otherwise it fails with the index error of the leftmost hole numbered n or more: every hole before it is below n. |
| CompositeFormat.ExplodeBelowFailure | src/FluentMigrator.Runner.Postgres/Processors/Postgres/PostgresProcessor.cs:44 | When reading the text of a template fails, formatting the template itself fails with the same error: the first hole, from the left, without an argument. |
| CompositeFormat.ParseText | src/FluentMigrator.Runner.Postgres/Processors/Postgres/PostgresProcessor.cs:92 | Reading the text of any template gives back its segments, with literals split into single characters, or fails with the index error of its leftmost hole without an argument, never as malformed. |
| CompositeFormat.FormatTextOfTemplate | src/FluentMigrator.Runner.Postgres/Processors/Postgres/PostgresProcessor.cs:42-45 | `string.Format` on the text of a template gives the same result as filling the template's segments. |
| SqlLiteral.ReadBodyOfEscaped | src/FluentMigrator.Runner.Postgres/Processors/Postgres/PostgresProcessor.cs:156-159 | A quote-doubled value followed by a quote reads back as exactly the value, and the rest of the text is left untouched. |
| SqlLiteral.LiteralRoundTrip | src/FluentMigrator.Runner.Postgres/Processors/Postgres/PostgresProcessor.cs:151-154 | An escaped value between quotes is read as one literal equal to the value, ending at the closing quote. |
| Executor.ErrorMessageCarriesStatement | src/FluentMigrator.Runner.Postgres/Processors/Postgres/PostgresProcessor.cs:127-133 | The error text carries the failed statement verbatim between the header line and the line with the cause, so the statement can be recovered from the text. |
| Executor.EnsureOpen | src/FluentMigrator.Runner.Postgres/Processors/Postgres/PostgresProcessor.cs:117 | After the call the connection is open, and nothing else changes. |
| Executor.ProcessSql | src/FluentMigrator.Runner.Postgres/Processors/Postgres/PostgresProcessor.cs:110-137 | The statement is logged exactly once, in every case. In preview mode or for an empty statement, the call succeeds and leaves the connection and the commands unchanged. Otherwise the connection is open and exactly one NonQuery(sql) is added; the call succeeds iff the driver does. A failure carries the three-line message and has the driver's exception as its cause. |
| Executor.Execute | src/FluentMigrator.Runner.Postgres/Processors/Postgres/PostgresProcessor.cs:42-45 | A template that cannot be formatted throws a FormatException before anything is logged. Otherwise the call has exactly the effect of Process on the formatted text. |
| Executor.ProcessOperation | src/FluentMigrator.Runner.Postgres/Processors/Postgres/PostgresProcessor.cs:139-149 | The marker "Performing DB Operation" is logged. In preview mode, neither the connection nor the commands change. Otherwise the connection is open, and the operation is invoked exactly once only if it is not null. Its failure is rethrown without wrapping. |
| Executor.Read | src/FluentMigrator.Runner.Postgres/Processors/Postgres/PostgresProcessor.cs:88-97 | The connection is opened even when formatting then fails, and nothing is logged. The formatted query is issued once as a reader, and the call returns the driver's rows or its failure. |
| Executor.Exists | src/FluentMigrator.Runner.Postgres/Processors/Postgres/PostgresProcessor.cs:99-108 | The call has the same effect as Read, and the result is true iff the query yields at least one row. |
| Executor.ReadIgnoresPreview | src/FluentMigrator.Runner.Postgres/Processors/Postgres/PostgresProcessor.cs:88-92 | Queries do not depend on the preview setting. |
| Executor.PreviewRunOnlyLogs | src/FluentMigrator.Runner.Postgres/Processors/Postgres/PostgresProcessor.cs:112-115 | In preview mode, a run of statements logs every one of them in order, touches neither the connection nor the driver, and succeeds. |
| Executor.LiveRunExecutesEachOnce | src/FluentMigrator.Runner.Postgres/Processors/Postgres/PostgresProcessor.cs:112-123 | A live run that succeeds logs every statement and issues each non-empty one exactly once, in order. |
| Executor.LiveRunStopsAtFirstFailure | src/FluentMigrator.Runner.Postgres/Processors/Postgres/PostgresProcessor.cs:119-134 | A live run that fails stops at a non-empty statement. The statements up to and including that one are logged and issued once each, the later ones are neither logged nor issued, and the error names the failing statement. |
| Probes.FormatToSafeSchemaName | src/FluentMigrator.Runner.Postgres/Processors/Postgres/PostgresProcessor.cs:151-154 | The safe schema name is the escape of the name unquoted by UnQuoteSchemaName. Under the quote-doubling escape, put between quotes it reads back as exactly that unquoted schema name. |
| Probes.FormatToSafeName | src/FluentMigrator.Runner.Postgres/Processors/Postgres/PostgresProcessor.cs:156-159 | The safe name is the escape of the name unquoted by UnQuote. Under the quote-doubling escape, put between quotes it reads back as exactly that unquoted name. |
| Probes.FormatQuotedTemplate | src/FluentMigrator.Runner.Postgres/Processors/Postgres/PostgresProcessor.cs:54 | A template whose holes all stand between quotes formats to its literal parts with each argument between two quotes, in hole order. |
| Probes.DefaultValuePattern | src/FluentMigrator.Runner.Postgres/Processors/Postgres/PostgresProcessor.cs:84 | The pattern for the default value is the escaped default value, with no unquote step, between two `%`. |
| Probes.ProbeRendersQuery | src/FluentMigrator.Runner.Postgres/Processors/Postgres/PostgresProcessor.cs:47-75 | Each probe's template text, filled with its arguments, gives exactly its catalog query. Each argument is a safe name or the pattern, between quotes, in the order schema, object, sub-object, pattern. |
| Probes.TableDataRendersQuery | src/FluentMigrator.Runner.Postgres/Processors/Postgres/PostgresProcessor.cs:79 | ReadTableData's query is "SELECT * FROM " followed by QuoteTableName(tableName, schemaName). |
| Probes.LiteralsOfSplice | src/FluentMigrator.Runner.Postgres/Processors/Postgres/PostgresProcessor.cs:47-86 | Quote-free catalog text spliced with quote-doubled values reads back as exactly those values, one literal each. |
| Probes.ProbePartsAreQuoteFree | src/FluentMigrator.Runner.Postgres/Processors/Postgres/PostgresProcessor.cs:47-86 | No probe's catalog text holds a quote of its own, and each text between two holes is non-empty. |
| Probes.ProbeLiteralsAreItsNames | src/FluentMigrator.Runner.Postgres/Processors/Postgres/PostgresProcessor.cs:82-86 | Under the quote-doubling escape, the literals of every probe's query are exactly the unquoted names, plus `%value%` for the default value, in argument order. No name can close its literal early. |
| Processor.PostgresProcessor.constructor | src/FluentMigrator.Runner.Postgres/Processors/Postgres/PostgresProcessor.cs:32-40 | A new processor has a closed connection, an empty log and no commands. |
| Processor.PostgresProcessor.EnsureConnectionIsOpen | src/FluentMigrator.Runner.Postgres/Processors/Postgres/PostgresProcessor.cs:90 | The method opens the connection and changes nothing else. |
| Processor.PostgresProcessor.Process | src/FluentMigrator.Runner.Postgres/Processors/Postgres/PostgresProcessor.cs:110-137 | The new state and the outcome are exactly those of Executor.ProcessSql. |
| Processor.PostgresProcessor.Execute | src/FluentMigrator.Runner.Postgres/Processors/Postgres/PostgresProcessor.cs:42-45 | The new state and the outcome are exactly those of Executor.Execute. |
| Processor.PostgresProcessor.ProcessOperation | src/FluentMigrator.Runner.Postgres/Processors/Postgres/PostgresProcessor.cs:139-149 | The new state and the outcome are exactly those of Executor.ProcessOperation. |
| Processor.PostgresProcessor.Read | src/FluentMigrator.Runner.Postgres/Processors/Postgres/PostgresProcessor.cs:88-97 | The new state and the rows are exactly those of Executor.Read. |
| Processor.PostgresProcessor.Exists | src/FluentMigrator.Runner.Postgres/Processors/Postgres/PostgresProcessor.cs:99-108 | The new state and the answer are exactly those of Executor.Exists. |
| Processor.PostgresProcessor.RunProbe | src/FluentMigrator.Runner.Postgres/Processors/Postgres/PostgresProcessor.cs:101-106 | The connection is opened and one reader command carrying the probe's query is issued, whatever the preview setting. Nothing is logged. The answer is whether the driver returned a row, or the driver's failure. |
| Processor.PostgresProcessor.SchemaExists | src/FluentMigrator.Runner.Postgres/Processors/Postgres/PostgresProcessor.cs:47-50 | The method issues the schemata query for the safe schema name and answers whether it found a row. |
| Processor.PostgresProcessor.TableExists | src/FluentMigrator.Runner.Postgres/Processors/Postgres/PostgresProcessor.cs:52-55 | The method issues the tables query for the safe schema and table names and answers whether it found a row. |
| Processor.PostgresProcessor.ColumnExists | src/FluentMigrator.Runner.Postgres/Processors/Postgres/PostgresProcessor.cs:57-60 | The method issues the columns query for the safe schema, table and column names and answers whether it found a row. |
| Processor.PostgresProcessor.ConstraintExists | src/FluentMigrator.Runner.Postgres/Processors/Postgres/PostgresProcessor.cs:62-65 | The method issues the table_constraints query, restricted to the current catalog, and answers whether it found a row. |
| Processor.PostgresProcessor.IndexExists | src/FluentMigrator.Runner.Postgres/Processors/Postgres/PostgresProcessor.cs:67-70 | The method issues the pg_indexes query for the safe schema, table and index names and answers whether it found a row. |
| Processor.PostgresProcessor.SequenceExists | src/FluentMigrator.Runner.Postgres/Processors/Postgres/PostgresProcessor.cs:72-75 | The method issues the sequences query, restricted to the current catalog, and answers whether it found a row. |
| Processor.PostgresProcessor.DefaultValueExists | src/FluentMigrator.Runner.Postgres/Processors/Postgres/PostgresProcessor.cs:82-86 | The method issues the columns query with a `like` on the `%`-wrapped escaped default value, and answers whether it found a row. |
| Processor.PostgresProcessor.ReadTableData | src/FluentMigrator.Runner.Postgres/Processors/Postgres/PostgresProcessor.cs:77-80 | The method issues "SELECT * FROM " followed by the quoted table name once, as a reader, and returns the rows. |

## Left out

- ADO.NET itself is replaced by the abstract `Database`: the connection and command objects, `ExecuteNonQuery`, `ExecuteReader` and the `using` disposal. The SQL the server runs, including what the catalog queries return, is whatever that driver answers.
- Opening a connection never fails in the model. `EnsureConnectionIsOpen` and `CreateCommand` belong to the base class, which is not part of this model.
- The transaction and the connection are not passed to a DB operation. An operation is identified by an `OperationId`, and its own effects on the database fall to the driver's `perform` answer.
- Executor.Read and Processor.PostgresProcessor.Read return the driver's rows. `ReadDataSet` and the materialisation of a `DataSet` are not modelled.
- `PostgresQuoter` (`UnQuote`, `UnQuoteSchemaName`, `QuoteTableName`) and `FormatHelper.FormatSqlEscape` are not part of this model. They are uninterpreted function fields of `Helpers`.
- Probes.ProbeLiteralsAreItsNames: the injection-safety result holds only under the assumption that the escape doubles quotes, as ISO/IEC 9075-2, section 5.3 says. The model does not check this assumption against `FormatSqlEscape`. It also assumes ISO lexing of literals, where a backslash is an ordinary character. PostgreSQL treats a backslash as an escape when `standard_conforming_strings` is off, and inside `E''` literals. There, a name ending in a backslash escapes its closing quote, so the literal runs on and the next name ends up outside any literal.
- Probes.FormatToSafeSchemaName and Probes.FormatToSafeName: the read-back holds under the same quote-doubling and ISO-lexing assumptions.
- Composite formatting is limited to string arguments and `{n}` holes:
  - alignment and format specifiers (`{0,5}`, `{0:x}`) are read as malformed;
  - .NET's upper limit on hole numbers is not modelled;
  - CompositeFormat.Parse checks a hole's number after its closing brace, as .NET 7 and later do. .NET Framework and .NET Core up to 6 check it right after the digits, so there `{5 ` or `{5x}` with one argument throws the index error, where the model reports a malformed template;
  - CompositeFormat.Parse: its own contract bounds an index error only by the number being n or more. That the error names the leftmost such hole is proved for the text of a template, through CompositeFormat.ParseText and CompositeFormat.ExplodeBelow, not for arbitrary text;
  - a null template, for which `string.Format` throws ArgumentNullException in `Execute`, `Read` and `Exists`, cannot be expressed;
  - `object.ToString()` of arguments is not modelled.
- `DefaultValueExists` takes the default value as its `ToString()` text, so a null default value, which throws in the source, is not represented.
- A null `PerformDBOperationExpression` cannot be expressed: `Process` takes only its `Operation`. In the source, a null expression throws NullReferenceException at line 148, after the marker is logged and the connection opened.
- A null `sql` is not distinct from the empty string. `Process` treats both alike: they are logged and not run.
- The line terminator that `StringWriter.WriteLine` uses is the parameter `newLine`, not a platform constant.
- The following are not modelled:
  - the logger's formatting and destination, beyond the sequence of entries;
  - `Options` other than `PreviewOnly`;
  - the constructors' dependency injection, and the obsolete constructor;
  - `DatabaseType` and `DatabaseTypeAliases`.
