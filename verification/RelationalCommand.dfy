/// The relational command executor: it builds a provider command from the
/// command text, the connection's transaction and timeout and the
/// parameters, and runs one fixed skeleton (open, log, execute, close,
/// telemetry) for non-query, scalar and reader execution, synchronously or
/// asynchronously.
///
/// The provider (ADO.NET) objects are abstract: a connection that records its
/// open and close calls, a command that records its executions and whether it
/// was disposed. Every physical step that may fail (opening the connection,
/// executing the command) takes its outcome as a parameter. The logger and the
/// telemetry source write to one diagnostics log, so the order of their
/// events is visible.
module RelationalCommands {

  import opened Options

  /// An exception, by identity: `throw;` rethrows the very same one.
  datatype Fault = Fault(id: nat)

  datatype CancellationToken = CancellationToken(id: nat)

  /// `RelationalTelemetry.ExecuteMethod`.
  datatype ExecuteMethod = ExecuteNonQuery | ExecuteScalar | ExecuteReader

  /// A scalar result: a database null or a value.
  datatype DbValue = DbNull | DbScalar(value: int)

  /// `RelationalParameter`: a name, a value, nullability and the type
  /// mapping (by id) that creates the provider parameter.
  datatype RelationalParameter = RelationalParameter(name: string, value: DbValue, nullable: bool, typeMapping: nat)

  /// The provider parameter `RelationalTypeMapping.CreateParameter` makes.
  datatype DbParameter = DbParameter(name: string, value: DbValue, nullable: bool, createdBy: nat)

  /// `IRelationalTransaction`: `GetService()` is the provider transaction (by id).
  datatype RelationalTransaction = RelationalTransaction(service: nat)

  /// One call of `Open` or `OpenAsync` on the connection.
  datatype OpenCall = OpenCall(async: bool)

  /// One execution of the provider command: which method, whether it was the
  /// asynchronous one, and the cancellation token it was given.
  datatype Execution = Execution(executeMethod: ExecuteMethod, async: bool, token: Option<CancellationToken>)

  /// The diagnostics written around an execution.
  datatype Event =
    | BeforeExecuteCommand(command: DbCommand, executeMethod: ExecuteMethod, async: bool)
    | LogCommand(command: DbCommand)
    | AfterExecuteCommand(command: DbCommand, executeMethod: ExecuteMethod, async: bool)
    | CommandError(command: DbCommand, executeMethod: ExecuteMethod, async: bool, exception: Fault)

  /// What a physical step does: return a value or throw.
  datatype Physical<T> = Returns(value: T) | Throws(fault: Fault)

  /// The action handed to the skeleton, with the outcome of its physical
  /// execution; a reader action also knows whether it hands the connection
  /// to the reader.
  datatype Action =
    | NonQueryAction(rows: Physical<int>)
    | ScalarAction(scalar: Physical<DbValue>)
    | ReaderAction(manageConnection: bool, reader: Physical<nat>)

  datatype ActionResult = Rows(count: int) | Scalar(value: DbValue) | Reader(reader: RelationalDataReader)

  /// How an execution ends: with the action's result, or by throwing.
  datatype Outcome = Completed(result: ActionResult) | Threw(fault: Fault)

  /// `IRelationalConnection`, reduced to what the executor uses.
  class Connection {
    var isOpen: bool
    var opens: seq<OpenCall>
    var closes: nat
    const transaction: Option<RelationalTransaction>
    const commandTimeout: Option<int>

    constructor(transaction: Option<RelationalTransaction>, commandTimeout: Option<int>)
      ensures !isOpen && opens == [] && closes == 0
      ensures this.transaction == transaction && this.commandTimeout == commandTimeout
    {
      isOpen, opens, closes := false, [], 0;
      this.transaction, this.commandTimeout := transaction, commandTimeout;
    }

    /// `Open()` or `OpenAsync()`; `fault` is what the provider throws, if anything.
    method Open(async: bool, fault: Option<Fault>)
      modifies this
      ensures opens == old(opens) + [OpenCall(async)] && closes == old(closes)
      ensures isOpen == (fault.None? || old(isOpen))
    {
      opens := opens + [OpenCall(async)];
      if fault.None? {
        isOpen := true;
      }
    }

    method Close()
      modifies this
      ensures opens == old(opens) && closes == old(closes) + 1 && !isOpen
    {
      closes := closes + 1;
      isOpen := false;
    }
  }

  /// `DbCommand`, reduced to the state the executor touches.
  class DbCommand {
    var commandText: string
    var transaction: Option<nat>
    /// `None` keeps the provider's default timeout.
    var commandTimeout: Option<int>
    var parameters: seq<DbParameter>
    var executions: seq<Execution>
    var disposed: bool

    /// `DbConnection.CreateCommand()`: a blank command.
    constructor()
      ensures commandText == [] && transaction.None? && commandTimeout.None?
      ensures parameters == [] && executions == [] && !disposed
    {
      commandText, transaction, commandTimeout := [], None, None;
      parameters, executions, disposed := [], [], false;
    }

    method Execute(executeMethod: ExecuteMethod, async: bool, token: Option<CancellationToken>)
      modifies this
      ensures executions == old(executions) + [Execution(executeMethod, async, token)]
      ensures commandText == old(commandText) && transaction == old(transaction)
      ensures commandTimeout == old(commandTimeout) && parameters == old(parameters)
      ensures disposed == old(disposed)
    {
      executions := executions + [Execution(executeMethod, async, token)];
    }

    method Dispose()
      modifies this
      ensures disposed
      ensures commandText == old(commandText) && transaction == old(transaction)
      ensures commandTimeout == old(commandTimeout) && parameters == old(parameters)
      ensures executions == old(executions)
    {
      disposed := true;
    }
  }

  /// The logger and the telemetry source: one append-only event log.
  class DiagnosticsLog {
    var events: seq<Event>

    constructor()
      ensures events == []
    {
      events := [];
    }

    method Write(event: Event)
      modifies this
      ensures events == old(events) + [event]
    {
      events := events + [event];
    }
  }

  /// `RelationalDataReader`: the connection it closes when disposed (none
  /// when the caller manages the connection), the command it disposes, and
  /// the provider reader (by id).
  class RelationalDataReader {
    const connection: Connection?
    const command: DbCommand
    const reader: nat

    constructor(connection: Connection?, command: DbCommand, reader: nat)
      ensures this.connection == connection && this.command == command && this.reader == reader
    {
      this.connection, this.command, this.reader := connection, command, reader;
    }
  }

  // ---------------------------------------------------------------------
  // Specification of the skeleton

  /// The provider parameter made for `p`.
  function CreateParameter(p: RelationalParameter): DbParameter {
    DbParameter(p.name, p.value, p.nullable, p.typeMapping)
  }

  /// The provider parameters for `parameters`, one per entry, in order.
  function BoundParameters(parameters: seq<RelationalParameter>): (r: seq<DbParameter>)
    ensures |r| == |parameters|
    ensures forall i :: 0 <= i < |r| ==>
      r[i].name == parameters[i].name && r[i].value == parameters[i].value &&
      r[i].nullable == parameters[i].nullable && r[i].createdBy == parameters[i].typeMapping
  {
    seq(|parameters|, i requires 0 <= i < |parameters| => CreateParameter(parameters[i]))
  }

  /// The physical method an action executes.
  function MethodOf(action: Action): ExecuteMethod {
    match action
    case NonQueryAction(_) => ExecuteMethod.ExecuteNonQuery
    case ScalarAction(_) => ExecuteMethod.ExecuteScalar
    case ReaderAction(_, _) => ExecuteMethod.ExecuteReader
  }

  /// The exception the action throws, if it throws.
  function ActionFault(action: Action): Option<Fault> {
    match action
    case NonQueryAction(Throws(f)) => Some(f)
    case ScalarAction(Throws(f)) => Some(f)
    case ReaderAction(_, Throws(f)) => Some(f)
    case _ => None
  }

  /// Whether the action disposes the command: the non-query and scalar
  /// actions always do (`using`), the reader action only when it throws.
  function ActionDisposes(action: Action): bool {
    !action.ReaderAction? || ActionFault(action).Some?
  }

  /// The `Close` calls made once the `try` is entered: one in the catch
  /// block when the executor opened the connection but is not the one to
  /// close it, and one in the finally block when it is. The executor never
  /// closes twice, and it closes whenever it is asked to, or when it opened
  /// the connection and the action threw.
  function Closes(openConnection: bool, closeConnection: bool, faulted: bool): (n: nat)
    ensures n <= 1
    ensures n == 1 <==> closeConnection || (openConnection && faulted)
  {
    (if faulted && openConnection && !closeConnection then 1 else 0) + (if closeConnection then 1 else 0)
  }

  /// The events an execution writes. A fault from opening the connection is
  /// raised before the `try`, after the before event only; otherwise the
  /// command is logged, then the command-error event (carrying the
  /// exception) or the after event follows.
  function Trace(command: DbCommand, executeMethod: ExecuteMethod, async: bool, openFailed: bool, actionFault: Option<Fault>)
    : (t: seq<Event>)
    ensures 1 <= |t| <= 3 && t[0] == BeforeExecuteCommand(command, executeMethod, async)
    ensures openFailed <==> |t| == 1
    ensures !openFailed ==> t[1] == LogCommand(command)
    ensures (exists i :: 0 <= i < |t| && t[i].AfterExecuteCommand?) <==> !openFailed && actionFault.None?
    ensures forall i :: 0 <= i < |t| && t[i].CommandError? ==> Some(t[i].exception) == actionFault && !openFailed
    ensures forall i :: 0 <= i < |t| && !t[i].LogCommand? ==>
      t[i].command == command && t[i].executeMethod == executeMethod && t[i].async == async
  {
    if openFailed then [BeforeExecuteCommand(command, executeMethod, async)]
    else
      match actionFault
      case None =>
        var t := [BeforeExecuteCommand(command, executeMethod, async), LogCommand(command),
                  AfterExecuteCommand(command, executeMethod, async)];
        assert t[2].AfterExecuteCommand?;
        t
      case Some(f) =>
        [BeforeExecuteCommand(command, executeMethod, async), LogCommand(command),
         CommandError(command, executeMethod, async, f)]
  }

  /// An execution that is not stopped by the open writes a command-error
  /// event exactly when the action throws, and then it is the last event.
  lemma CommandErrorIffFault(command: DbCommand, executeMethod: ExecuteMethod, async: bool, actionFault: Option<Fault>)
    ensures var t := Trace(command, executeMethod, async, false, actionFault);
      (exists i :: 0 <= i < |t| && t[i].CommandError?) <==> actionFault.Some?
    ensures var t := Trace(command, executeMethod, async, false, actionFault);
      actionFault.Some? ==> t[|t| - 1] == CommandError(command, executeMethod, async, actionFault.value)
  {
    var t := Trace(command, executeMethod, async, false, actionFault);
    if actionFault.Some? {
      assert t[2].CommandError?;
    }
  }

  /// The events of an asynchronous execution are those of the synchronous
  /// one, step for step, with the async flag set.
  lemma AsyncMirrorsSync(command: DbCommand, executeMethod: ExecuteMethod, openFailed: bool, actionFault: Option<Fault>)
    ensures var s := Trace(command, executeMethod, false, openFailed, actionFault);
      var a := Trace(command, executeMethod, true, openFailed, actionFault);
      |a| == |s| && forall i :: 0 <= i < |s| ==> a[i] == WithAsync(s[i])
  {
  }

  function WithAsync(e: Event): Event {
    match e
    case BeforeExecuteCommand(c, m, _) => BeforeExecuteCommand(c, m, true)
    case LogCommand(c) => LogCommand(c)
    case AfterExecuteCommand(c, m, _) => AfterExecuteCommand(c, m, true)
    case CommandError(c, m, _, f) => CommandError(c, m, true, f)
  }

  /// The outcome of an execution: the open's exception, else the action's
  /// exception rethrown unchanged, else the action's result.
  ghost predicate OutcomeOf(outcome: Outcome, openFailure: Option<Fault>, action: Action)
  {
    if openFailure.Some? then outcome == Threw(openFailure.value)
    else match action
      case NonQueryAction(Throws(f)) => outcome == Threw(f)
      case ScalarAction(Throws(f)) => outcome == Threw(f)
      case ReaderAction(_, Throws(f)) => outcome == Threw(f)
      case NonQueryAction(Returns(n)) => outcome == Completed(Rows(n))
      case ScalarAction(Returns(v)) => outcome == Completed(Scalar(v))
      case ReaderAction(_, Returns(_)) => outcome.Completed? && outcome.result.Reader?
  }

  /// The command the skeleton builds for `connection` and `text`.
  ghost predicate BuiltFor(command: DbCommand, connection: Connection, text: string, parameters: seq<RelationalParameter>)
    reads command
  {
    && command.commandText == text
    && command.transaction == (match connection.transaction case None => None case Some(t) => Some(t.service))
    && command.commandTimeout == connection.commandTimeout
    && command.parameters == BoundParameters(parameters)
  }

  // ---------------------------------------------------------------------
  // The executor

  class RelationalCommand {
    const diagnostics: DiagnosticsLog
    const commandText: string
    const parameters: seq<RelationalParameter>

    constructor(diagnostics: DiagnosticsLog, commandText: string, parameters: seq<RelationalParameter>)
      ensures this.diagnostics == diagnostics && this.commandText == commandText && this.parameters == parameters
    {
      this.diagnostics, this.commandText, this.parameters := diagnostics, commandText, parameters;
    }

    /// A new provider command with the command text, the connection's
    /// transaction and timeout when it has them, and one provider parameter
    /// per parameter, in order.
    method CreateCommand(connection: Connection) returns (command: DbCommand)
      ensures fresh(command)
      ensures BuiltFor(command, connection, commandText, parameters)
      ensures command.executions == [] && !command.disposed
    {
      command := new DbCommand();
      command.commandText := commandText;
      if connection.transaction.Some? {
        command.transaction := Some(connection.transaction.value.service);
      }
      if connection.commandTimeout.Some? {
        command.commandTimeout := connection.commandTimeout;
      }
      var i := 0;
      while i < |parameters|
        invariant i <= |parameters|
        invariant command.parameters == BoundParameters(parameters[..i])
        invariant command.commandText == commandText && command.executions == [] && !command.disposed
        invariant command.transaction == (match connection.transaction case None => None case Some(t) => Some(t.service))
        invariant command.commandTimeout == connection.commandTimeout
      {
        command.parameters := command.parameters + [CreateParameter(parameters[i])];
        assert parameters[..i + 1] == parameters[..i] + [parameters[i]];
        i := i + 1;
      }
      assert parameters[..i] == parameters;
    }

    /// The actions of the six public methods: execute the command, with the
    /// token when asynchronous. The non-query and scalar actions dispose the
    /// command on every path; the reader action disposes it only when the
    /// execution throws, and otherwise wraps the command (and, if it manages
    /// the connection, the connection) in a new reader.
    method RunAction(connection: Connection, command: DbCommand, action: Action, async: bool, token: Option<CancellationToken>)
      returns (outcome: Outcome)
      modifies command
      ensures OutcomeOf(outcome, None, action)
      ensures command.executions == old(command.executions) + [Execution(MethodOf(action), async, token)]
      ensures command.disposed == (old(command.disposed) || ActionDisposes(action))
      ensures command.commandText == old(command.commandText) && command.transaction == old(command.transaction)
      ensures command.commandTimeout == old(command.commandTimeout) && command.parameters == old(command.parameters)
      ensures outcome.Completed? && outcome.result.Reader? ==>
        && fresh(outcome.result.reader)
        && outcome.result.reader.command == command
        && outcome.result.reader.connection == (if action.manageConnection then connection else null)
        && action.ReaderAction? && action.reader.Returns? && outcome.result.reader.reader == action.reader.value
    {
      command.Execute(MethodOf(action), async, token);
      match action
      case NonQueryAction(rows) =>
        command.Dispose();
        outcome := if rows.Throws? then Threw(rows.fault) else Completed(Rows(rows.value));
      case ScalarAction(scalar) =>
        command.Dispose();
        outcome := if scalar.Throws? then Threw(scalar.fault) else Completed(Scalar(scalar.value));
      case ReaderAction(manageConnection, reader) =>
        if reader.Throws? {
          command.Dispose();
          outcome := Threw(reader.fault);
        } else {
          var dataReader := new RelationalDataReader(if manageConnection then connection else null, command, reader.value);
          outcome := Completed(Reader(dataReader));
        }
    }

    /// The skeleton shared by `Execute` and `ExecuteAsync`: create the
    /// command, write the before event, open the connection if asked, log
    /// the command and run the action; on a fault write the command-error
    /// event, close the connection if the executor opened it and is not the
    /// one to close it, and rethrow; finally close it if asked; on success
    /// write the after event. `openFault` is what opening throws, if it does.
    method Run(
      connection: Connection, action: Action, executeMethod: ExecuteMethod,
      openConnection: bool, closeConnection: bool, async: bool, token: Option<CancellationToken>,
      openFault: Option<Fault>)
      returns (outcome: Outcome, ghost command: DbCommand)
      modifies connection, diagnostics
      ensures fresh(command) && BuiltFor(command, connection, commandText, parameters)
      ensures var openFailed := openConnection && openFault.Some?;
        && OutcomeOf(outcome, if openFailed then openFault else None, action)
        && diagnostics.events == old(diagnostics.events) + Trace(command, executeMethod, async, openFailed, ActionFault(action))
        && connection.opens == old(connection.opens) + (if openConnection then [OpenCall(async)] else [])
        && connection.closes == old(connection.closes) +
             (if openFailed then 0 else Closes(openConnection, closeConnection, ActionFault(action).Some?))
        && command.executions == (if openFailed then [] else [Execution(MethodOf(action), async, token)])
        && command.disposed == (!openFailed && ActionDisposes(action))
        && connection.isOpen == (
             if !openFailed && Closes(openConnection, closeConnection, ActionFault(action).Some?) == 1 then false
             else if openConnection && !openFailed then true
             else old(connection.isOpen))
      ensures outcome.Completed? && outcome.result.Reader? ==>
        && fresh(outcome.result.reader)
        && outcome.result.reader.command == command
        && outcome.result.reader.connection == (if action.manageConnection then connection else null)
        && action.ReaderAction? && action.reader.Returns? && outcome.result.reader.reader == action.reader.value
    {
      var dbCommand := CreateCommand(connection);
      command := dbCommand;
      diagnostics.Write(BeforeExecuteCommand(dbCommand, executeMethod, async));
      if openConnection {
        connection.Open(async, openFault);
        if openFault.Some? {
          return Threw(openFault.value), command;
        }
      }
      outcome := Attempt(connection, dbCommand, action, executeMethod, openConnection, closeConnection, async, token);
    }

    /// The `try`/`catch`/`finally` part of the skeleton and the after event,
    /// for an opened (or caller-managed) connection.
    method Attempt(
      connection: Connection, command: DbCommand, action: Action, executeMethod: ExecuteMethod,
      openConnection: bool, closeConnection: bool, async: bool, token: Option<CancellationToken>)
      returns (outcome: Outcome)
      requires command.executions == [] && !command.disposed
      modifies connection, diagnostics, command
      ensures OutcomeOf(outcome, None, action)
      ensures diagnostics.events ==
        old(diagnostics.events) + Trace(command, executeMethod, async, false, ActionFault(action))[1..]
      ensures connection.opens == old(connection.opens)
      ensures connection.closes == old(connection.closes) + Closes(openConnection, closeConnection, ActionFault(action).Some?)
      ensures connection.isOpen ==
        (if Closes(openConnection, closeConnection, ActionFault(action).Some?) == 1 then false else old(connection.isOpen))
      ensures command.executions == [Execution(MethodOf(action), async, token)]
      ensures command.disposed == ActionDisposes(action)
      ensures command.commandText == old(command.commandText) && command.transaction == old(command.transaction)
      ensures command.commandTimeout == old(command.commandTimeout) && command.parameters == old(command.parameters)
      ensures outcome.Completed? && outcome.result.Reader? ==>
        && fresh(outcome.result.reader)
        && outcome.result.reader.command == command
        && outcome.result.reader.connection == (if action.manageConnection then connection else null)
        && action.ReaderAction? && action.reader.Returns? && outcome.result.reader.reader == action.reader.value
    {
      diagnostics.Write(LogCommand(command));
      outcome := RunAction(connection, command, action, async, token);
      if outcome.Threw? {
        diagnostics.Write(CommandError(command, executeMethod, async, outcome.fault));
        if openConnection && !closeConnection {
          connection.Close();
        }
      }
      if closeConnection {
        connection.Close();
      }
      if outcome.Completed? {
        diagnostics.Write(AfterExecuteCommand(command, executeMethod, async));
      }
    }

    /// `Execute`: the skeleton with `async: false`; the action gets no token.
    method Execute(
      connection: Connection, action: Action, executeMethod: ExecuteMethod,
      openConnection: bool, closeConnection: bool, openFault: Option<Fault>)
      returns (outcome: Outcome, ghost command: DbCommand)
      modifies connection, diagnostics
      ensures fresh(command) && BuiltFor(command, connection, commandText, parameters)
      ensures var openFailed := openConnection && openFault.Some?;
        && OutcomeOf(outcome, if openFailed then openFault else None, action)
        && diagnostics.events == old(diagnostics.events) + Trace(command, executeMethod, false, openFailed, ActionFault(action))
        && connection.opens == old(connection.opens) + (if openConnection then [OpenCall(false)] else [])
        && connection.closes == old(connection.closes) +
             (if openFailed then 0 else Closes(openConnection, closeConnection, ActionFault(action).Some?))
        && command.executions == (if openFailed then [] else [Execution(MethodOf(action), false, None)])
        && command.disposed == (!openFailed && ActionDisposes(action))
        && connection.isOpen == (
             if !openFailed && Closes(openConnection, closeConnection, ActionFault(action).Some?) == 1 then false
             else if openConnection && !openFailed then true
             else old(connection.isOpen))
      ensures outcome.Completed? && outcome.result.Reader? ==>
        && fresh(outcome.result.reader)
        && outcome.result.reader.command == command
        && outcome.result.reader.connection == (if action.manageConnection then connection else null)
        && action.ReaderAction? && action.reader.Returns? && outcome.result.reader.reader == action.reader.value
    {
      outcome, command := Run(connection, action, executeMethod, openConnection, closeConnection, false, None, openFault);
    }

    /// `ExecuteAsync`: the skeleton with `async: true`; the token goes to the
    /// action and not to `OpenAsync`.
    method ExecuteAsync(
      connection: Connection, action: Action, executeMethod: ExecuteMethod,
      openConnection: bool, closeConnection: bool, token: CancellationToken, openFault: Option<Fault>)
      returns (outcome: Outcome, ghost command: DbCommand)
      modifies connection, diagnostics
      ensures fresh(command) && BuiltFor(command, connection, commandText, parameters)
      ensures var openFailed := openConnection && openFault.Some?;
        && OutcomeOf(outcome, if openFailed then openFault else None, action)
        && diagnostics.events == old(diagnostics.events) + Trace(command, executeMethod, true, openFailed, ActionFault(action))
        && connection.opens == old(connection.opens) + (if openConnection then [OpenCall(true)] else [])
        && connection.closes == old(connection.closes) +
             (if openFailed then 0 else Closes(openConnection, closeConnection, ActionFault(action).Some?))
        && command.executions == (if openFailed then [] else [Execution(MethodOf(action), true, Some(token))])
        && command.disposed == (!openFailed && ActionDisposes(action))
        && connection.isOpen == (
             if !openFailed && Closes(openConnection, closeConnection, ActionFault(action).Some?) == 1 then false
             else if openConnection && !openFailed then true
             else old(connection.isOpen))
      ensures outcome.Completed? && outcome.result.Reader? ==>
        && fresh(outcome.result.reader)
        && outcome.result.reader.command == command
        && outcome.result.reader.connection == (if action.manageConnection then connection else null)
        && action.ReaderAction? && action.reader.Returns? && outcome.result.reader.reader == action.reader.value
    {
      outcome, command := Run(connection, action, executeMethod, openConnection, closeConnection, true, Some(token), openFault);
    }

    // -------------------------------------------------------------------
    // The six public methods. `manageConnection` decides whether the
    // executor opens the connection (and, for non-query and scalar, closes
    // it); `openFault` is what opening throws, if it does, and the physical
    // outcome of the command is the last parameter.

    method ExecuteNonQuery(connection: Connection, manageConnection: bool, openFault: Option<Fault>, rows: Physical<int>)
      returns (outcome: Outcome, ghost command: DbCommand)
      modifies connection, diagnostics
      ensures fresh(command) && BuiltFor(command, connection, commandText, parameters)
      ensures var openFailed := manageConnection && openFault.Some?;
        && outcome == (if openFailed then Threw(openFault.value)
                       else if rows.Throws? then Threw(rows.fault) else Completed(Rows(rows.value)))
        && connection.opens == old(connection.opens) + (if manageConnection then [OpenCall(false)] else [])
        && connection.closes == old(connection.closes) + (if manageConnection && !openFailed then 1 else 0)
        && connection.isOpen == (if manageConnection && !openFailed then false else old(connection.isOpen))
        && command.disposed == !openFailed
        && command.executions == (if openFailed then [] else [Execution(ExecuteMethod.ExecuteNonQuery, false, None)])
        && diagnostics.events == old(diagnostics.events) +
             Trace(command, ExecuteMethod.ExecuteNonQuery, false, openFailed, ActionFault(NonQueryAction(rows)))
    {
      outcome, command := Execute(
        connection, NonQueryAction(rows), ExecuteMethod.ExecuteNonQuery, manageConnection, manageConnection, openFault);
    }

    method ExecuteNonQueryAsync(
      connection: Connection, cancellationToken: CancellationToken, manageConnection: bool,
      openFault: Option<Fault>, rows: Physical<int>)
      returns (outcome: Outcome, ghost command: DbCommand)
      modifies connection, diagnostics
      ensures fresh(command) && BuiltFor(command, connection, commandText, parameters)
      ensures var openFailed := manageConnection && openFault.Some?;
        && outcome == (if openFailed then Threw(openFault.value)
                       else if rows.Throws? then Threw(rows.fault) else Completed(Rows(rows.value)))
        && connection.opens == old(connection.opens) + (if manageConnection then [OpenCall(true)] else [])
        && connection.closes == old(connection.closes) + (if manageConnection && !openFailed then 1 else 0)
        && connection.isOpen == (if manageConnection && !openFailed then false else old(connection.isOpen))
        && command.disposed == !openFailed
        && command.executions ==
             (if openFailed then [] else [Execution(ExecuteMethod.ExecuteNonQuery, true, Some(cancellationToken))])
        && diagnostics.events == old(diagnostics.events) +
             Trace(command, ExecuteMethod.ExecuteNonQuery, true, openFailed, ActionFault(NonQueryAction(rows)))
    {
      outcome, command := ExecuteAsync(
        connection, NonQueryAction(rows), ExecuteMethod.ExecuteNonQuery, manageConnection, manageConnection,
        cancellationToken, openFault);
    }

    method ExecuteScalar(connection: Connection, manageConnection: bool, openFault: Option<Fault>, scalar: Physical<DbValue>)
      returns (outcome: Outcome, ghost command: DbCommand)
      modifies connection, diagnostics
      ensures fresh(command) && BuiltFor(command, connection, commandText, parameters)
      ensures var openFailed := manageConnection && openFault.Some?;
        && outcome == (if openFailed then Threw(openFault.value)
                       else if scalar.Throws? then Threw(scalar.fault) else Completed(Scalar(scalar.value)))
        && connection.opens == old(connection.opens) + (if manageConnection then [OpenCall(false)] else [])
        && connection.closes == old(connection.closes) + (if manageConnection && !openFailed then 1 else 0)
        && connection.isOpen == (if manageConnection && !openFailed then false else old(connection.isOpen))
        && command.disposed == !openFailed
        && command.executions == (if openFailed then [] else [Execution(ExecuteMethod.ExecuteScalar, false, None)])
        && diagnostics.events == old(diagnostics.events) +
             Trace(command, ExecuteMethod.ExecuteScalar, false, openFailed, ActionFault(ScalarAction(scalar)))
    {
      outcome, command := Execute(
        connection, ScalarAction(scalar), ExecuteMethod.ExecuteScalar, manageConnection, manageConnection, openFault);
    }

    method ExecuteScalarAsync(
      connection: Connection, cancellationToken: CancellationToken, manageConnection: bool,
      openFault: Option<Fault>, scalar: Physical<DbValue>)
      returns (outcome: Outcome, ghost command: DbCommand)
      modifies connection, diagnostics
      ensures fresh(command) && BuiltFor(command, connection, commandText, parameters)
      ensures var openFailed := manageConnection && openFault.Some?;
        && outcome == (if openFailed then Threw(openFault.value)
                       else if scalar.Throws? then Threw(scalar.fault) else Completed(Scalar(scalar.value)))
        && connection.opens == old(connection.opens) + (if manageConnection then [OpenCall(true)] else [])
        && connection.closes == old(connection.closes) + (if manageConnection && !openFailed then 1 else 0)
        && connection.isOpen == (if manageConnection && !openFailed then false else old(connection.isOpen))
        && command.disposed == !openFailed
        && command.executions ==
             (if openFailed then [] else [Execution(ExecuteMethod.ExecuteScalar, true, Some(cancellationToken))])
        && diagnostics.events == old(diagnostics.events) +
             Trace(command, ExecuteMethod.ExecuteScalar, true, openFailed, ActionFault(ScalarAction(scalar)))
    {
      outcome, command := ExecuteAsync(
        connection, ScalarAction(scalar), ExecuteMethod.ExecuteScalar, manageConnection, manageConnection,
        cancellationToken, openFault);
    }

    /// Reader mode never closes on success: the reader owns the command and,
    /// when the executor manages the connection, the open connection.
    method ExecuteReader(connection: Connection, manageConnection: bool, openFault: Option<Fault>, reader: Physical<nat>)
      returns (outcome: Outcome, ghost command: DbCommand)
      modifies connection, diagnostics
      ensures fresh(command) && BuiltFor(command, connection, commandText, parameters)
      ensures var openFailed := manageConnection && openFault.Some?;
        && (openFailed ==> outcome == Threw(openFault.value))
        && (!openFailed && reader.Throws? ==> outcome == Threw(reader.fault))
        && (!openFailed && reader.Returns? ==>
              && outcome.Completed? && outcome.result.Reader?
              && fresh(outcome.result.reader)
              && outcome.result.reader.command == command && !command.disposed
              && outcome.result.reader.connection == (if manageConnection then connection else null)
              && outcome.result.reader.reader == reader.value)
        && connection.opens == old(connection.opens) + (if manageConnection then [OpenCall(false)] else [])
        && connection.closes == old(connection.closes) + (if manageConnection && !openFailed && reader.Throws? then 1 else 0)
        && connection.isOpen == (
             if manageConnection && !openFailed then reader.Returns? else old(connection.isOpen))
        && command.disposed == (!openFailed && reader.Throws?)
        && command.executions == (if openFailed then [] else [Execution(ExecuteMethod.ExecuteReader, false, None)])
        && diagnostics.events == old(diagnostics.events) +
             Trace(command, ExecuteMethod.ExecuteReader, false, openFailed, ActionFault(ReaderAction(manageConnection, reader)))
    {
      outcome, command := Execute(
        connection, ReaderAction(manageConnection, reader), ExecuteMethod.ExecuteReader, manageConnection, false, openFault);
    }

    method ExecuteReaderAsync(
      connection: Connection, cancellationToken: CancellationToken, manageConnection: bool,
      openFault: Option<Fault>, reader: Physical<nat>)
      returns (outcome: Outcome, ghost command: DbCommand)
      modifies connection, diagnostics
      ensures fresh(command) && BuiltFor(command, connection, commandText, parameters)
      ensures var openFailed := manageConnection && openFault.Some?;
        && (openFailed ==> outcome == Threw(openFault.value))
        && (!openFailed && reader.Throws? ==> outcome == Threw(reader.fault))
        && (!openFailed && reader.Returns? ==>
              && outcome.Completed? && outcome.result.Reader?
              && fresh(outcome.result.reader)
              && outcome.result.reader.command == command && !command.disposed
              && outcome.result.reader.connection == (if manageConnection then connection else null)
              && outcome.result.reader.reader == reader.value)
        && connection.opens == old(connection.opens) + (if manageConnection then [OpenCall(true)] else [])
        && connection.closes == old(connection.closes) + (if manageConnection && !openFailed && reader.Throws? then 1 else 0)
        && connection.isOpen == (
             if manageConnection && !openFailed then reader.Returns? else old(connection.isOpen))
        && command.disposed == (!openFailed && reader.Throws?)
        && command.executions ==
             (if openFailed then [] else [Execution(ExecuteMethod.ExecuteReader, true, Some(cancellationToken))])
        && diagnostics.events == old(diagnostics.events) +
             Trace(command, ExecuteMethod.ExecuteReader, true, openFailed, ActionFault(ReaderAction(manageConnection, reader)))
    {
      outcome, command := ExecuteAsync(
        connection, ReaderAction(manageConnection, reader), ExecuteMethod.ExecuteReader, manageConnection, false,
        cancellationToken, openFault);
    }
  }
}
