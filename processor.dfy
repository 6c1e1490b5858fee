/**
 * PostgresProcessor: the processor object, its connection flag, its log and the
 * commands it has issued, updated in place by its operations.  Each method is proved to
 * perform exactly the transition of module Executor, whose contracts and lemmas state
 * what the transitions mean.
 */
module Processor {
  import opened Wrappers
  import opened CompositeFormat
  import opened Executor
  import opened Probes

  class PostgresProcessor {
    const config: Config
    const helpers: Helpers

    var connOpen: bool
    var log: seq<LogEntry>
    var commands: seq<Command>

    /** The processor context as a value. */
    function Snapshot(): State
      reads this
    {
      State(connOpen, log, commands)
    }

    constructor (config: Config, helpers: Helpers)
      ensures this.config == config && this.helpers == helpers
      ensures Snapshot() == State(false, [], [])
    {
      this.config := config;
      this.helpers := helpers;
      connOpen := false;
      log := [];
      commands := [];
    }

    method EnsureConnectionIsOpen()
      modifies this
      ensures Snapshot() == EnsureOpen(old(Snapshot()))
    {
      if !connOpen {
        connOpen := true;
      }
    }

    /** Execute(template, args). */
    method Execute(template: string, args: seq<string>) returns (r: Result<(), Exception>)
      modifies this
      ensures Step(Snapshot(), r) == Executor.Execute(config, old(Snapshot()), template, args)
    {
      var sql := FormatText(template, args);
      if sql.Failure? {
        return Failure(FormatException(sql.error));
      }
      r := Process(sql.value);
    }

    /** Process(string sql). */
    method Process(sql: string) returns (r: Result<(), Exception>)
      modifies this
      ensures Step(Snapshot(), r) == ProcessSql(config, old(Snapshot()), sql)
    {
      log := log + [SqlEntry(sql)];
      if config.previewOnly || sql == "" {
        return Success(());
      }
      EnsureConnectionIsOpen();
      var before := commands;
      commands := commands + [NonQuery(sql)];
      var failure := config.db.nonQuery(before, sql);
      if failure.Some? {
        var cause := failure.value;
        return Failure(ProcessException(ErrorMessage(config.newLine, sql, cause), DbException(cause)));
      }
      return Success(());
    }

    /** Process(PerformDBOperationExpression): `operation` is the expression's Operation, None when null. */
    method ProcessOperation(operation: Option<OperationId>) returns (r: Result<(), Exception>)
      modifies this
      ensures Step(Snapshot(), r) == Executor.ProcessOperation(config, old(Snapshot()), operation)
    {
      log := log + [SayEntry(OperationMarker)];
      if config.previewOnly {
        return Success(());
      }
      EnsureConnectionIsOpen();
      if operation.Some? {
        var before := commands;
        commands := commands + [Invoke(operation.value)];
        var failure := config.db.perform(before, operation.value);
        if failure.Some? {
          return Failure(DbException(failure.value));
        }
      }
      return Success(());
    }

    /** Read(template, args): the rows of the query, as the driver returns them. */
    method Read(template: string, args: seq<string>) returns (r: Result<seq<Row>, Exception>)
      modifies this
      ensures Step(Snapshot(), r) == Executor.Read(config, old(Snapshot()), template, args)
    {
      EnsureConnectionIsOpen();
      var sql := FormatText(template, args);
      if sql.Failure? {
        return Failure(FormatException(sql.error));
      }
      var before := commands;
      commands := commands + [ExecuteReader(sql.value)];
      var rows := config.db.reader(before, sql.value);
      if rows.Failure? {
        return Failure(DbException(rows.error));
      }
      return Success(rows.value);
    }

    /** Exists(template, args): whether the query yields a first row. */
    method Exists(template: string, args: seq<string>) returns (r: Result<bool, Exception>)
      modifies this
      ensures Step(Snapshot(), r) == Executor.Exists(config, old(Snapshot()), template, args)
    {
      EnsureConnectionIsOpen();
      var sql := FormatText(template, args);
      if sql.Failure? {
        return Failure(FormatException(sql.error));
      }
      var before := commands;
      commands := commands + [ExecuteReader(sql.value)];
      var rows := config.db.reader(before, sql.value);
      if rows.Failure? {
        return Failure(DbException(rows.error));
      }
      return Success(|rows.value| > 0);
    }

    /**
     * Runs probe `p`: one reader command carrying the probe's catalog query, on a
     * connection opened whatever the preview setting; nothing is logged.
     */
    method RunProbe(p: Probe) returns (r: Result<bool, Exception>)
      modifies this
      ensures Snapshot() == old(Snapshot()).(connOpen := true,
                                             commands := old(commands) + [ExecuteReader(ProbeQuery(helpers, p))])
      ensures r == match config.db.reader(old(commands), ProbeQuery(helpers, p))
                   case Success(rows) => Success(|rows| > 0)
                   case Failure(cause) => Failure(DbException(cause))
    {
      ProbeRendersQuery(helpers, p);
      r := Exists(Text(ProbeTemplate(p)), ProbeArgs(helpers, p));
    }

    method SchemaExists(schemaName: string) returns (r: Result<bool, Exception>)
      modifies this
      ensures var q := ProbeQuery(helpers, SchemaProbe(schemaName));
        && Snapshot() == old(Snapshot()).(connOpen := true, commands := old(commands) + [ExecuteReader(q)])
        && r == match config.db.reader(old(commands), q)
                case Success(rows) => Success(|rows| > 0)
                case Failure(cause) => Failure(DbException(cause))
    {
      r := RunProbe(SchemaProbe(schemaName));
    }

    method TableExists(schemaName: string, tableName: string) returns (r: Result<bool, Exception>)
      modifies this
      ensures var q := ProbeQuery(helpers, TableProbe(schemaName, tableName));
        && Snapshot() == old(Snapshot()).(connOpen := true, commands := old(commands) + [ExecuteReader(q)])
        && r == match config.db.reader(old(commands), q)
                case Success(rows) => Success(|rows| > 0)
                case Failure(cause) => Failure(DbException(cause))
    {
      r := RunProbe(TableProbe(schemaName, tableName));
    }

    method ColumnExists(schemaName: string, tableName: string, columnName: string) returns (r: Result<bool, Exception>)
      modifies this
      ensures var q := ProbeQuery(helpers, ColumnProbe(schemaName, tableName, columnName));
        && Snapshot() == old(Snapshot()).(connOpen := true, commands := old(commands) + [ExecuteReader(q)])
        && r == match config.db.reader(old(commands), q)
                case Success(rows) => Success(|rows| > 0)
                case Failure(cause) => Failure(DbException(cause))
    {
      r := RunProbe(ColumnProbe(schemaName, tableName, columnName));
    }

    method ConstraintExists(schemaName: string, tableName: string, constraintName: string)
      returns (r: Result<bool, Exception>)
      modifies this
      ensures var q := ProbeQuery(helpers, ConstraintProbe(schemaName, tableName, constraintName));
        && Snapshot() == old(Snapshot()).(connOpen := true, commands := old(commands) + [ExecuteReader(q)])
        && r == match config.db.reader(old(commands), q)
                case Success(rows) => Success(|rows| > 0)
                case Failure(cause) => Failure(DbException(cause))
    {
      r := RunProbe(ConstraintProbe(schemaName, tableName, constraintName));
    }

    method IndexExists(schemaName: string, tableName: string, indexName: string) returns (r: Result<bool, Exception>)
      modifies this
      ensures var q := ProbeQuery(helpers, IndexProbe(schemaName, tableName, indexName));
        && Snapshot() == old(Snapshot()).(connOpen := true, commands := old(commands) + [ExecuteReader(q)])
        && r == match config.db.reader(old(commands), q)
                case Success(rows) => Success(|rows| > 0)
                case Failure(cause) => Failure(DbException(cause))
    {
      r := RunProbe(IndexProbe(schemaName, tableName, indexName));
    }

    method SequenceExists(schemaName: string, sequenceName: string) returns (r: Result<bool, Exception>)
      modifies this
      ensures var q := ProbeQuery(helpers, SequenceProbe(schemaName, sequenceName));
        && Snapshot() == old(Snapshot()).(connOpen := true, commands := old(commands) + [ExecuteReader(q)])
        && r == match config.db.reader(old(commands), q)
                case Success(rows) => Success(|rows| > 0)
                case Failure(cause) => Failure(DbException(cause))
    {
      r := RunProbe(SequenceProbe(schemaName, sequenceName));
    }

    /** `defaultValue` is the default value's ToString(). */
    method DefaultValueExists(schemaName: string, tableName: string, columnName: string, defaultValue: string)
      returns (r: Result<bool, Exception>)
      modifies this
      ensures var q := ProbeQuery(helpers, DefaultValueProbe(schemaName, tableName, columnName, defaultValue));
        && Snapshot() == old(Snapshot()).(connOpen := true, commands := old(commands) + [ExecuteReader(q)])
        && r == match config.db.reader(old(commands), q)
                case Success(rows) => Success(|rows| > 0)
                case Failure(cause) => Failure(DbException(cause))
    {
      r := RunProbe(DefaultValueProbe(schemaName, tableName, columnName, defaultValue));
    }

    /** ReadTableData: every row of the table, named through QuoteTableName(tableName, schemaName). */
    method ReadTableData(schemaName: string, tableName: string) returns (r: Result<seq<Row>, Exception>)
      modifies this
      ensures var q := "SELECT * FROM " + helpers.quoteTableName(tableName, schemaName);
        && Snapshot() == old(Snapshot()).(connOpen := true, commands := old(commands) + [ExecuteReader(q)])
        && r == match config.db.reader(old(commands), q)
                case Success(rows) => Success(rows)
                case Failure(cause) => Failure(DbException(cause))
    {
      TableDataRendersQuery(helpers, schemaName, tableName);
      r := Read(Text(TableDataTemplate), [helpers.quoteTableName(tableName, schemaName)]);
    }
  }
}
