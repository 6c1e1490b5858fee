/**
 * The processor's statement executor and query primitive as pure state transitions.
 *
 * The ADO.NET connection is replaced by an abstract `Database`: for each command it is
 * given the commands issued before it and the statement text, and answers with a failure
 * message or, for a reader, with the rows.  The processor context is a `State`: whether
 * the connection is open, the log, and every command issued on the connection.
 * `PostgresProcessor` (module Processor) is proved to perform exactly these transitions.
 */
module Executor {
  import opened Wrappers
  import opened CompositeFormat

  /** What the processor's operations can throw. */
  datatype Exception =
    | FormatException(reason: FormatError)             // thrown by string.Format
    | DbException(message: string)                     // thrown by the driver or by a DB operation
    | ProcessException(message: string, inner: Exception) // Process(sql)'s wrapping of a driver failure

  type Row = seq<string>

  /** Identifies the delegate of a PerformDBOperationExpression. */
  type OperationId = nat

  datatype LogEntry =
    | SqlEntry(sql: string)    // Logger.LogSql
    | SayEntry(message: string) // Logger.LogSay

  /** A command issued on the open connection. */
  datatype Command =
    | NonQuery(sql: string)      // command.ExecuteNonQuery()
    | ExecuteReader(sql: string) // command.ExecuteReader()
    | Invoke(operation: OperationId) // a DB operation called with the connection

  /**
   * The driver.  Each answer may depend on every command issued before, which stands
   * for whatever state the server keeps.  Failures carry the driver's message.
   */
  datatype Database = Database(
    nonQuery: (seq<Command>, string) -> Option<string>,
    reader: (seq<Command>, string) -> Result<seq<Row>, string>,
    perform: (seq<Command>, OperationId) -> Option<string>)

  /** What the processor is constructed with: Options.PreviewOnly, the line terminator, the driver. */
  datatype Config = Config(previewOnly: bool, newLine: string, db: Database)

  datatype State = State(connOpen: bool, log: seq<LogEntry>, commands: seq<Command>)

  /** The state after an operation, and what it returned or threw. */
  datatype Step<+T> = Step(state: State, result: Result<T, Exception>)

  /** No command is ever issued on a connection that has not been opened. */
  predicate Consistent(s: State) {
    s.commands != [] ==> s.connOpen
  }

  /**
   * How any single operation may change the state: the log and the commands only grow,
   * an open connection stays open, and at most one command is issued (no retries).
   */
  predicate Advances(s: State, s': State) {
    && s.log <= s'.log
    && s.commands <= s'.commands
    && |s'.commands| <= |s.commands| + 1
    && (s.connOpen ==> s'.connOpen)
    && (Consistent(s) ==> Consistent(s'))
  }

  const ErrorHeader := "An error occurred executing the following sql:"
  const ErrorCauseLead := "The error was "

  /** The text of the exception that Process(sql) throws when the driver fails with `cause`. */
  function ErrorMessage(newLine: string, sql: string, cause: string): string {
    ErrorHeader + newLine + sql + newLine + ErrorCauseLead + cause + newLine
  }

  /** Recovers the statement from an error message, knowing the line terminator and the cause. */
  function StatementOfErrorMessage(newLine: string, message: string, cause: string): Option<string> {
    var lead := ErrorHeader + newLine;
    var trail := newLine + ErrorCauseLead + cause + newLine;
    if |lead| + |trail| <= |message|
       && message[..|lead|] == lead
       && message[|message| - |trail|..] == trail
    then Some(message[|lead|..|message| - |trail|])
    else None
  }

  /** The message carries the statement verbatim, between the header line and the cause line. */
  lemma ErrorMessageCarriesStatement(newLine: string, sql: string, cause: string)
    ensures StatementOfErrorMessage(newLine, ErrorMessage(newLine, sql, cause), cause) == Some(sql)
  {
    var lead := ErrorHeader + newLine;
    var trail := newLine + ErrorCauseLead + cause + newLine;
    var m := ErrorMessage(newLine, sql, cause);
    assert m == lead + sql + trail;
    assert m[..|lead|] == lead;
    assert m[|m| - |trail|..] == trail;
    assert m[|lead|..|m| - |trail|] == sql;
  }

  /** EnsureConnectionIsOpen: opening an open connection is a no-op. */
  function EnsureOpen(s: State): (s': State)
    ensures s'.connOpen
    ensures s' == s.(connOpen := true)
  {
    s.(connOpen := true)
  }

  /**
   * Process(sql): log the statement; unless in preview mode or the statement is empty,
   * open the connection and execute it once, wrapping a driver failure.
   */
  function ProcessSql(c: Config, s: State, sql: string): (r: Step<()>)
    ensures Advances(s, r.state)
    ensures r.state.log == s.log + [SqlEntry(sql)]
    ensures c.previewOnly || sql == "" ==>
      && r.result.Success?
      && r.state.connOpen == s.connOpen
      && r.state.commands == s.commands
    ensures !c.previewOnly && sql != "" ==>
      && r.state.connOpen
      && r.state.commands == s.commands + [NonQuery(sql)]
      && (r.result.Success? <==> c.db.nonQuery(s.commands, sql).None?)
    ensures r.result.Failure? ==>
      var cause := c.db.nonQuery(s.commands, sql).value;
      && c.db.nonQuery(s.commands, sql).Some?
      && r.result.error == ProcessException(ErrorMessage(c.newLine, sql, cause), DbException(cause))
  {
    var logged := s.(log := s.log + [SqlEntry(sql)]);
    if c.previewOnly || sql == "" then Step(logged, Success(()))
    else
      var live := EnsureOpen(logged);
      var ran := live.(commands := live.commands + [NonQuery(sql)]);
      match c.db.nonQuery(s.commands, sql)
      case None => Step(ran, Success(()))
      case Some(cause) =>
        Step(ran, Failure(ProcessException(ErrorMessage(c.newLine, sql, cause), DbException(cause))))
  }

  /** Execute(template, args): format, then Process; a format error throws before anything is logged. */
  function Execute(c: Config, s: State, template: string, args: seq<string>): (r: Step<()>)
    ensures Advances(s, r.state)
    ensures FormatText(template, args).Failure? ==>
      r == Step(s, Failure(FormatException(FormatText(template, args).error)))
    ensures FormatText(template, args).Success? ==>
      r == ProcessSql(c, s, FormatText(template, args).value)
  {
    match FormatText(template, args)
    case Failure(e) => Step(s, Failure(FormatException(e)))
    case Success(sql) => ProcessSql(c, s, sql)
  }

  const OperationMarker := "Performing DB Operation"

  /**
   * Process(PerformDBOperationExpression): log the marker; unless in preview mode, open
   * the connection and call the operation if there is one.  Its failure is not wrapped.
   */
  function ProcessOperation(c: Config, s: State, operation: Option<OperationId>): (r: Step<()>)
    ensures Advances(s, r.state)
    ensures r.state.log == s.log + [SayEntry(OperationMarker)]
    ensures c.previewOnly ==>
      r.result.Success? && r.state.connOpen == s.connOpen && r.state.commands == s.commands
    ensures !c.previewOnly ==> r.state.connOpen
    ensures !c.previewOnly && operation.None? ==> r.result.Success? && r.state.commands == s.commands
    ensures !c.previewOnly && operation.Some? ==>
      && r.state.commands == s.commands + [Invoke(operation.value)]
      && (r.result.Success? <==> c.db.perform(s.commands, operation.value).None?)
    ensures r.result.Failure? ==>
      && operation.Some?
      && c.db.perform(s.commands, operation.value).Some?
      && r.result.error == DbException(c.db.perform(s.commands, operation.value).value)
  {
    var logged := s.(log := s.log + [SayEntry(OperationMarker)]);
    if c.previewOnly then Step(logged, Success(()))
    else
      var live := EnsureOpen(logged);
      match operation
      case None => Step(live, Success(()))
      case Some(op) =>
        var ran := live.(commands := live.commands + [Invoke(op)]);
        match c.db.perform(s.commands, op)
        case None => Step(ran, Success(()))
        case Some(cause) => Step(ran, Failure(DbException(cause)))
  }

  /**
   * Read(template, args): open the connection, format, run the query and return its
   * rows.  Nothing is logged and preview mode does not suppress it.
   */
  function Read(c: Config, s: State, template: string, args: seq<string>): (r: Step<seq<Row>>)
    ensures Advances(s, r.state)
    ensures r.state.connOpen && r.state.log == s.log
    ensures FormatText(template, args).Failure? ==>
      && r.state.commands == s.commands
      && r.result == Failure(FormatException(FormatText(template, args).error))
    ensures FormatText(template, args).Success? ==>
      var sql := FormatText(template, args).value;
      && r.state.commands == s.commands + [ExecuteReader(sql)]
      && r.result == match c.db.reader(s.commands, sql)
                     case Success(rows) => Success(rows)
                     case Failure(cause) => Failure(DbException(cause))
  {
    var live := EnsureOpen(s);
    match FormatText(template, args)
    case Failure(e) => Step(live, Failure(FormatException(e)))
    case Success(sql) =>
      var ran := live.(commands := live.commands + [ExecuteReader(sql)]);
      match c.db.reader(s.commands, sql)
      case Success(rows) => Step(ran, Success(rows))
      case Failure(cause) => Step(ran, Failure(DbException(cause)))
  }

  /** Exists(template, args): the same query as Read; true iff it yields at least one row. */
  function Exists(c: Config, s: State, template: string, args: seq<string>): (r: Step<bool>)
    ensures r.state == Read(c, s, template, args).state
    ensures r.result.Success? <==> Read(c, s, template, args).result.Success?
    ensures r.result.Success? ==> r.result.value == (|Read(c, s, template, args).result.value| > 0)
    ensures r.result.Failure? ==> r.result.error == Read(c, s, template, args).result.error
  {
    var q := Read(c, s, template, args);
    match q.result
    case Success(rows) => Step(q.state, Success(|rows| > 0))
    case Failure(e) => Step(q.state, Failure(e))
  }

  /** Queries run whatever the preview setting: Read behaves the same with it on or off. */
  lemma ReadIgnoresPreview(c: Config, s: State, template: string, args: seq<string>)
    ensures Read(c.(previewOnly := true), s, template, args) == Read(c.(previewOnly := false), s, template, args)
  {
  }

  // ---------------------------------------------------------------------------
  // Several statements in a row, as a migration run issues them.

  /** Processes `sqls` in order; the first exception ends the run. */
  function ProcessAll(c: Config, s: State, sqls: seq<string>): Step<()>
    decreases |sqls|
  {
    if sqls == [] then Step(s, Success(()))
    else
      var first := ProcessSql(c, s, sqls[0]);
      if first.result.Failure? then first else ProcessAll(c, first.state, sqls[1..])
  }

  function SqlEntries(sqls: seq<string>): (r: seq<LogEntry>)
    ensures |r| == |sqls|
    decreases |sqls|
  {
    if sqls == [] then [] else [SqlEntry(sqls[0])] + SqlEntries(sqls[1..])
  }

  /** The commands a live run issues for `sqls`: one per non-empty statement. */
  function NonQueries(sqls: seq<string>): seq<Command>
    decreases |sqls|
  {
    if sqls == [] then []
    else (if sqls[0] == "" then [] else [NonQuery(sqls[0])]) + NonQueries(sqls[1..])
  }

  /** A preview run logs every statement, touches neither the connection nor the driver, and cannot fail. */
  lemma {:induction false} PreviewRunOnlyLogs(c: Config, s: State, sqls: seq<string>)
    requires c.previewOnly
    ensures ProcessAll(c, s, sqls) == Step(s.(log := s.log + SqlEntries(sqls)), Success(()))
    decreases |sqls|
  {
    if sqls != [] {
      var first := ProcessSql(c, s, sqls[0]);
      PreviewRunOnlyLogs(c, first.state, sqls[1..]);
      assert s.log + SqlEntries(sqls) == s.log + [SqlEntry(sqls[0])] + SqlEntries(sqls[1..]);
    }
  }

  /** A live run that succeeds has logged every statement and executed each non-empty one once, in order. */
  lemma {:induction false} LiveRunExecutesEachOnce(c: Config, s: State, sqls: seq<string>)
    requires !c.previewOnly
    ensures var r := ProcessAll(c, s, sqls);
      r.result.Success? ==>
        && r.state.log == s.log + SqlEntries(sqls)
        && r.state.commands == s.commands + NonQueries(sqls)
    decreases |sqls|
  {
    if sqls != [] {
      var first := ProcessSql(c, s, sqls[0]);
      if first.result.Success? {
        var rest := sqls[1..];
        var r := ProcessAll(c, first.state, rest);
        assert ProcessAll(c, s, sqls) == r;
        LiveRunExecutesEachOnce(c, first.state, rest);
        if r.result.Success? {
          assert SqlEntries(sqls) == [SqlEntry(sqls[0])] + SqlEntries(rest);
          assert NonQueries(sqls) == (if sqls[0] == "" then [] else [NonQuery(sqls[0])]) + NonQueries(rest);
          assert first.state.log == s.log + [SqlEntry(sqls[0])];
          assert first.state.commands == s.commands + (if sqls[0] == "" then [] else [NonQuery(sqls[0])]);
        }
      }
    }
  }

  /** The error a failed statement raises names it: its message carries `sql`, its cause is a driver exception. */
  predicate NamesStatement(c: Config, e: Exception, sql: string) {
    && e.ProcessException?
    && e.inner.DbException?
    && StatementOfErrorMessage(c.newLine, e.message, e.inner.message) == Some(sql)
  }

  lemma RunOfCons(sql: string, rest: seq<string>)
    ensures SqlEntries([sql] + rest) == [SqlEntry(sql)] + SqlEntries(rest)
    ensures NonQueries([sql] + rest) == (if sql == "" then [] else [NonQuery(sql)]) + NonQueries(rest)
  {
    assert ([sql] + rest)[0] == sql && ([sql] + rest)[1..] == rest;
  }

  /** When the first statement of a live run fails, the run ends with it. */
  lemma FirstStatementFails(c: Config, s: State, sqls: seq<string>)
    requires !c.previewOnly && sqls != []
    requires ProcessSql(c, s, sqls[0]).result.Failure?
    ensures sqls[0] != ""
    ensures ProcessAll(c, s, sqls).state.log == s.log + SqlEntries(sqls[..1])
    ensures ProcessAll(c, s, sqls).state.commands == s.commands + NonQueries(sqls[..1])
    ensures NamesStatement(c, ProcessAll(c, s, sqls).result.error, sqls[0])
  {
    assert sqls[..1] == [sqls[0]] + [];
    RunOfCons(sqls[0], []);
    ErrorMessageCarriesStatement(c.newLine, sqls[0], c.db.nonQuery(s.commands, sqls[0]).value);
  }

  /**
   * A live run that fails stops at a non-empty statement `sqls[k]`, executed once like
   * every non-empty statement before it; the statements after it are neither logged nor
   * executed, and the exception names `sqls[k]`.  The lemma returns that `k`.
   */
  lemma {:induction false} LiveRunStopsAtFirstFailure(c: Config, s: State, sqls: seq<string>) returns (k: nat)
    requires !c.previewOnly
    requires ProcessAll(c, s, sqls).result.Failure?
    ensures k < |sqls| && sqls[k] != ""
    ensures ProcessAll(c, s, sqls).state.log == s.log + SqlEntries(sqls[..k + 1])
    ensures ProcessAll(c, s, sqls).state.commands == s.commands + NonQueries(sqls[..k + 1])
    ensures NamesStatement(c, ProcessAll(c, s, sqls).result.error, sqls[k])
    decreases |sqls|
  {
    var first := ProcessSql(c, s, sqls[0]);
    if first.result.Failure? {
      FirstStatementFails(c, s, sqls);
      k := 0;
    } else {
      var rest := sqls[1..];
      var j := LiveRunStopsAtFirstFailure(c, first.state, rest);
      k := j + 1;
      var done := rest[..j + 1];
      assert sqls[..k + 1] == [sqls[0]] + done;
      RunOfCons(sqls[0], done);
      var head := if sqls[0] == "" then [] else [NonQuery(sqls[0])];
      assert first.state.log + SqlEntries(done) == s.log + ([SqlEntry(sqls[0])] + SqlEntries(done));
      assert first.state.commands + NonQueries(done) == s.commands + (head + NonQueries(done));
      assert sqls[k] == rest[j];
    }
  }
}
