/** The SQLite wrapper: one connection, at most one transaction, and the
    operations that open, use and close them. Every wrapper method is proved
    to behave as a specification function over the pair (connection,
    transaction) that spells out its try/catch/finally paths; what those
    functions guarantee is proved here and in WrapperProperties. */
module Wrapper {
  import opened Core
  import opened Config
  import opened Models
  import opened Driver

  /** The connection object: the descriptor it was created with, and whether it is open. */
  datatype Conn = Conn(descriptor: string, isOpen: bool)

  /** The wrapper's mutable state: its `Connection` and `Transaction` references. */
  datatype Snapshot = Snapshot(connection: Option<Conn>, transaction: Option<TxHandle>)

  /** What a wrapper operation does: its outcome, the state it leaves, and the
      driver calls it made, in order. */
  datatype Effect<+T> = Effect(result: Outcome<T>, after: Snapshot, events: seq<Event>)

  predicate IsOpen(s: Snapshot) {
    s.connection.Some? && s.connection.value.isOpen
  }

  function Closed(s: Snapshot): (t: Snapshot)
    requires s.connection.Some?
    ensures t.connection.Some? && !IsOpen(t) && t.transaction == s.transaction
    ensures t.connection.value.descriptor == s.connection.value.descriptor
  {
    s.(connection := Some(s.connection.value.(isOpen := false)))
  }

  function Fail<T>(m: string): Outcome<T> {
    Threw(DriverError(m))
  }

  // ---------------------------------------------------------------------
  // The steps every operation is built from

  /** `finally { Connection.Close(); }`: closes the connection; on a null
      connection the NullReferenceException replaces whatever was pending. */
  function Finally<T>(e: Effect<T>): (r: Effect<T>)
    ensures !IsOpen(r.after) && r.after.transaction == e.after.transaction
    ensures r.result == (if e.after.connection.None? then Threw(NullReference) else e.result)
    ensures e.events <= r.events
  {
    if e.after.connection.None? then Effect(Threw(NullReference), e.after, e.events)
    else Effect(e.result, Closed(e.after), e.events + [Close])
  }

  /** `Connection.Open()`. */
  function OpenSpec(s: Snapshot, d: Driver): (r: Effect<()>)
    ensures r.result.Returned? <==> s.connection.Some? && d.open(s.connection.value.descriptor).Ok?
    ensures r.result.Returned? ==> IsOpen(r.after)
    ensures r.after.transaction == s.transaction
  {
    if s.connection.None? then Effect(Threw(NullReference), s, [])
    else
      var descriptor := s.connection.value.descriptor;
      match d.open(descriptor)
      case Err(m) => Effect(Fail(m), s, [Open(descriptor)])
      case Ok(_) => Effect(Returned(()), s.(connection := Some(Conn(descriptor, true))), [Open(descriptor)])
  }

  /** The command a transaction statement runs. */
  function QueryCommand(q: Query, tx: Option<TxHandle>): Command {
    BoundCommand(q.commandText, q.parameters, tx)
  }

  /** The rows `ExecuteReader` builds from a cursor: one per record, each with
      one column per field, named after the field. */
  function Materialise(c: Cursor): (rows: seq<Row>) {
    seq(|c.records|, k requires 0 <= k < |c.records| =>
      Row(seq(FieldCount(c), i requires 0 <= i < FieldCount(c) => Column(c.names[i], c.records[k][i]))))
  }

  // ---------------------------------------------------------------------
  // Single-statement operations

  function NonQuerySpec(s: Snapshot, text: string, values: seq<Value>, d: Driver): (r: Effect<int>)
    ensures !IsOpen(r.after) && r.after.transaction == s.transaction
  {
    var o := OpenSpec(s, d);
    if o.result.Threw? then Finally(Effect(Threw(o.result.exception), o.after, o.events))
    else
      var command := BoundCommand(text, values, o.after.transaction);
      var answer := d.nonQuery(0, command);
      Finally(Effect(if answer.Ok? then Returned(answer.value) else Fail(answer.message),
                     o.after, o.events + [NonQuery(command)]))
  }

  function ReaderSpec(s: Snapshot, text: string, values: seq<Value>, d: Driver): (r: Effect<Table>)
    ensures !IsOpen(r.after) && r.after.transaction == s.transaction
  {
    var o := OpenSpec(s, d);
    if o.result.Threw? then Finally(Effect(Threw(o.result.exception), o.after, o.events))
    else
      var command := BoundCommand(text, values, o.after.transaction);
      var answer := d.reader(command);
      Finally(Effect(if answer.Ok? then Returned(Table(Materialise(answer.value))) else Fail(answer.message),
                     o.after, o.events + [Reader(command)]))
  }

  /** `cast` is the `(T)` conversion: the value as a `T`, or the exception the
      conversion throws (an InvalidCastException for a value of another type,
      a NullReferenceException when a null is unboxed into a value type). */
  function ScalarSpec<T>(s: Snapshot, text: string, values: seq<Value>, d: Driver, cast: Value -> Outcome<T>): (r: Effect<T>)
    ensures !IsOpen(r.after) && r.after.transaction == s.transaction
  {
    var o := OpenSpec(s, d);
    if o.result.Threw? then Finally(Effect(Threw(o.result.exception), o.after, o.events))
    else
      var command := BoundCommand(text, values, o.after.transaction);
      var answer := d.scalar(command);
      var result: Outcome<T> := if answer.Err? then Fail(answer.message) else cast(answer.value);
      Finally(Effect(result, o.after, o.events + [Scalar(command)]))
  }

  /** `TestConnection`: the flag and the error message, or the exception its
      finally block throws on a null connection. */
  function TestSpec(s: Snapshot, d: Driver): (r: Effect<(bool, string)>)
    ensures !IsOpen(r.after) && r.after.transaction == s.transaction
  {
    var o := OpenSpec(s, d);
    var tried := if o.result.Returned? then Returned((true, "")) else Returned((false, Message(o.result.exception)));
    Finally(Effect(tried, o.after, o.events))
  }

  // ---------------------------------------------------------------------
  // The transaction sub-protocol

  /** `StartTransaction`: open the connection unless it is open, begin a
      transaction; on failure dispose and clear the transaction and rethrow. */
  function StartSpec(s: Snapshot, d: Driver): (r: Effect<()>)
    ensures r.result.Threw? ==> r.after.transaction.None?
    ensures r.result.Returned? ==> IsOpen(r.after) && r.after.transaction == Some(Handle)
  {
    var tried: Effect<()> :=
      if s.connection.None? then Effect(Threw(NullReference), s, [])
      else
        var o := if IsOpen(s) then Effect(Returned(()), s, []) else OpenSpec(s, d);
        if o.result.Threw? then o
        else if d.begin.Err? then Effect(Fail(d.begin.message), o.after, o.events + [Begin])
        else Effect(Returned(()), o.after.(transaction := Some(Handle)), o.events + [Begin]);
    if tried.result.Returned? then tried
    else
      Effect(tried.result, tried.after.(transaction := None),
             tried.events + (if tried.after.transaction.Some? then [DisposeTransaction] else []))
  }

  /** The finally block shared by `CommitTransaction` and `RollbackTransaction`:
      close the connection, dispose the transaction, clear it. A null
      connection or transaction throws and skips the rest of the block. */
  function EndSpec(pending: Outcome<()>, s: Snapshot, events: seq<Event>): (r: Effect<()>)
    ensures s.connection.Some? ==> !IsOpen(r.after)
    ensures s.connection.Some? || s.transaction.None? ==> r.after.transaction.None?
    ensures r.result.Returned? ==> pending.Returned?
  {
    if s.connection.None? then Effect(Threw(NullReference), s, events)
    else
      var c := Closed(s);
      if c.transaction.None? then Effect(Threw(NullReference), c, events + [Close])
      else Effect(pending, c.(transaction := None), events + [Close, DisposeTransaction])
  }

  /** `CommitTransaction`. */
  function CommitSpec(s: Snapshot, d: Driver): (r: Effect<()>)
    ensures s.connection.Some? ==> !IsOpen(r.after)
    ensures s.connection.Some? || s.transaction.None? ==> r.after.transaction.None?
    ensures r.result.Returned? <==> s.connection.Some? && s.transaction.Some? && d.commit.Ok?
  {
    if s.transaction.None? then EndSpec(Threw(NullReference), s, [])
    else EndSpec(if d.commit.Ok? then Returned(()) else Fail(d.commit.message), s, [Commit])
  }

  /** `RollbackTransaction`. */
  function RollbackSpec(s: Snapshot, d: Driver): (r: Effect<()>)
    ensures s.connection.Some? ==> !IsOpen(r.after)
    ensures s.connection.Some? || s.transaction.None? ==> r.after.transaction.None?
    ensures r.result.Returned? <==> s.connection.Some? && s.transaction.Some? && d.rollback.Ok?
  {
    if s.transaction.None? then EndSpec(Threw(NullReference), s, [])
    else EndSpec(if d.rollback.Ok? then Returned(()) else Fail(d.rollback.message), s, [Rollback])
  }

  /** The position of the first statement, from `from` on, that the driver
      rejects, or `|qs|` when none does. */
  function FirstFailure(qs: seq<Query>, d: Driver, tx: Option<TxHandle>, from: nat): (k: nat)
    requires from <= |qs|
    ensures from <= k <= |qs|
    ensures forall j :: from <= j < k ==> d.nonQuery(j, QueryCommand(qs[j], tx)).Ok?
    ensures k < |qs| ==> d.nonQuery(k, QueryCommand(qs[k], tx)).Err?
    decreases |qs| - from
  {
    if from == |qs| then |qs|
    else if d.nonQuery(from, QueryCommand(qs[from], tx)).Err? then from
    else FirstFailure(qs, d, tx, from + 1)
  }

  /** The driver calls that run the given statements, in order. */
  function Statements(qs: seq<Query>, tx: Option<TxHandle>): (es: seq<Event>)
    ensures |es| == |qs|
  {
    seq(|qs|, i requires 0 <= i < |qs| => NonQuery(QueryCommand(qs[i], tx)))
  }

  /** The try block of `ExecuteTransaction` after a successful start: run the
      statements in order up to the first failure, then commit. */
  function RunSpec(s: Snapshot, qs: seq<Query>, d: Driver): (r: Effect<()>)
    requires s.connection.Some? && s.transaction.Some?
    ensures !IsOpen(r.after) || r.result.Threw?
    ensures r.result.Returned? ==> r.after.transaction.None?
    ensures r.after.transaction.Some? ==> r.result.Threw? && r.after == s
    ensures r.after.transaction.Some? ==> FirstFailure(qs, d, s.transaction, 0) < |qs|
  {
    var tx := s.transaction;
    var k := FirstFailure(qs, d, tx, 0);
    if k < |qs| then
      Effect(Fail(d.nonQuery(k, QueryCommand(qs[k], tx)).message), s, Statements(qs[..k + 1], tx))
    else
      var c := CommitSpec(s, d);
      Effect(c.result, c.after, Statements(qs, tx) + c.events)
  }

  /** The try block of `ExecuteTransaction`. It starts with the start's
      driver calls; a normal exit leaves the connection closed and no
      transaction; a transaction survives it only when a statement failed,
      with the connection still open. */
  function TrySpec(s: Snapshot, qs: seq<Query>, d: Driver): (r: Effect<()>)
    ensures StartSpec(s, d).events <= r.events
    ensures r.result.Returned? ==> StartSpec(s, d).result.Returned?
    ensures r.result.Returned? ==> !IsOpen(r.after) && r.after.transaction.None?
    ensures r.after.transaction.Some? ==> r.result.Threw? && IsOpen(r.after) && r.after.transaction == Some(Handle)
    ensures r.after.transaction.Some? ==>
              StartSpec(s, d).result.Returned? && FirstFailure(qs, d, Some(Handle), 0) < |qs|
  {
    var st := StartSpec(s, d);
    if st.result.Threw? then st
    else
      var run := RunSpec(st.after, qs, d);
      Effect(run.result, run.after, st.events + run.events)
  }

  /** `catch (Exception ex) { RollbackTransaction(); throw ex; }`: a normal
      exit passes through untouched; otherwise the call still throws, and an
      exception from the rollback (the driver's, or a NullReferenceException
      when the connection or the transaction is null) replaces `ex`. */
  function CatchSpec(e: Effect<()>, d: Driver): (r: Effect<()>)
    ensures e.result.Returned? ==> r == e
    ensures e.result.Threw? ==> r.result.Threw? && e.events <= r.events
    ensures e.result.Threw? && (e.after.connection.None? || e.after.transaction.None?) ==>
              r.result == Threw(NullReference)
    ensures e.result.Threw? && e.after.connection.Some? && e.after.transaction.Some? ==>
              r.result == (if d.rollback.Ok? then e.result else Threw(DriverError(d.rollback.message)))
              && r.events == e.events + [Rollback, Close, DisposeTransaction]
  {
    if e.result.Returned? then e
    else
      var rb := RollbackSpec(e.after, d);
      Effect(if rb.result.Threw? then rb.result else e.result, rb.after, e.events + rb.events)
  }

  /** `ExecuteTransaction(queries)`: the connection is closed and the
      transaction cleared on every exit. */
  function TransactionSpec(s: Snapshot, qs: seq<Query>, d: Driver): (r: Effect<()>)
    ensures !IsOpen(r.after)
    ensures r.after.transaction.None?
  {
    Finally(CatchSpec(TrySpec(s, qs, d), d))
  }

  /** `Dispose`: releases the transaction and the connection if present. */
  function DisposeSpec(s: Snapshot): (r: Effect<()>)
    ensures r.result == Returned(())
    ensures r.after == Snapshot(None, None)
  {
    var events := if s.transaction.Some? then [DisposeTransaction] else [];
    if s.connection.Some? then Effect(Returned(()), Snapshot(None, None), events + [Close, DisposeConnection])
    else Effect(Returned(()), Snapshot(None, None), events)
  }

  // ---------------------------------------------------------------------
  // The materialisation loop of ExecuteReader

  /** Reads every record of the cursor into a row of named columns. */
  method ReadRows(reader: Cursor) returns (rows: seq<Row>)
    ensures |rows| == |reader.records|
    ensures forall k :: 0 <= k < |rows| ==> |rows[k].columns| == FieldCount(reader)
    ensures forall k, i :: 0 <= k < |rows| && 0 <= i < FieldCount(reader) ==>
              rows[k].columns[i] == Column(reader.names[i], reader.records[k][i])
    ensures rows == Materialise(reader)
  {
    rows := [];
    var k := 0;
    while k < |reader.records|
      invariant 0 <= k <= |reader.records|
      invariant |rows| == k
      invariant forall m :: 0 <= m < k ==> rows[m] == Materialise(reader)[m]
    {
      var columns: seq<Column> := [];
      for i := 0 to FieldCount(reader)
        invariant |columns| == i
        invariant forall j :: 0 <= j < i ==> columns[j] == Column(reader.names[j], reader.records[k][j])
      {
        columns := columns + [Column(reader.names[i], reader.records[k][i])];
      }
      rows := rows + [Row(columns)];
      k := k + 1;
    }
  }

  // ---------------------------------------------------------------------
  // The wrapper object

  class SqLiteWrapper {
    const Configuration: SqLiteConfiguration
    var Connection: Option<Conn>
    var Transaction: Option<TxHandle>
    /** The driver calls made through this wrapper so far. */
    ghost var Log: seq<Event>

    function State(): Snapshot
      reads this
    {
      Snapshot(Connection, Transaction)
    }

    /** The part of both source constructors that builds the object:
        keep the configuration, create a closed connection from its string. */
    constructor (configuration: SqLiteConfiguration)
      ensures Configuration == configuration
      ensures State() == Snapshot(Some(Conn(configuration.ToString(), false)), None)
      ensures Log == []
    {
      Configuration := configuration;
      Connection := Some(Conn(configuration.ToString(), false));
      Transaction := None;
      Log := [];
    }

    /** `SqLiteWrapper(databasePath, databaseVersion, password, doWrite)`:
        builds the configuration in memory, persists it at the well-known
        path when asked to, and fails with the driver's message when the
        database cannot be opened. */
    static method New(databasePath: NullableString, databaseVersion: NullableString, password: NullableString,
                      doWrite: bool, defaultPath: string, store: Store, d: Driver)
      returns (r: Outcome<SqLiteWrapper>, store': Store)
      ensures store' == if doWrite then store[defaultPath := Settings(databasePath, databaseVersion, password)] else store
      ensures var descriptor := Render(Settings(databasePath, databaseVersion, password));
        && (r.Returned? <==> d.open(descriptor).Ok?)
        && (d.open(descriptor).Err? ==> r == Threw(General(d.open(descriptor).message)))
        && (r.Returned? ==>
              fresh(r.value) && fresh(r.value.Configuration)
              && r.value.Configuration.Values() == Settings(databasePath, databaseVersion, password)
              && r.value.State() == Snapshot(Some(Conn(descriptor, false)), None)
              && r.value.Log == [Open(descriptor), Close])
    {
      var configuration := new SqLiteConfiguration(defaultPath);
      configuration.DatabaseVersion := databaseVersion;
      configuration.DatabasePath := databasePath;
      configuration.Pwd := password;
      store' := store;
      if doWrite {
        store' := configuration.Write(store);
      }
      var wrapper := new SqLiteWrapper(configuration);
      var test := wrapper.TestConnection(d);
      var (ok, error) := test.value;
      if !ok {
        r := Threw(General(error));
      } else {
        r := Returned(wrapper);
      }
    }

    /** `SqLiteWrapper(configurationPath)`: loads the configuration from the
        given file, or from the well-known one when the path is null or
        empty, then validates the connection as `New` does. */
    static method FromConfigurationFile(configurationPath: NullableString, defaultPath: string, store: Store, d: Driver)
      returns (r: Outcome<SqLiteWrapper>)
      ensures var path := if IsNullOrEmpty(configurationPath) then defaultPath else configurationPath.value;
        && (Load(store, path).None? ==> r == Threw(General(LoadFailureMessage)))
        && (Load(store, path).Some? ==>
              var descriptor := Render(Load(store, path).value);
              && (r.Returned? <==> d.open(descriptor).Ok?)
              && (d.open(descriptor).Err? ==> r == Threw(General(d.open(descriptor).message)))
              && (r.Returned? ==>
                    fresh(r.value) && fresh(r.value.Configuration)
                    && r.value.Configuration.Values() == Load(store, path).value
                    && r.value.State() == Snapshot(Some(Conn(descriptor, false)), None)
                    && r.value.Log == [Open(descriptor), Close]))
    {
      var configuration := new SqLiteConfiguration(defaultPath);
      if !IsNullOrEmpty(configurationPath) {
        configuration := new SqLiteConfiguration(configurationPath.value);
      }
      var loaded := configuration.Read(store);
      if loaded.Threw? {
        return Threw(loaded.exception);
      }
      var wrapper := new SqLiteWrapper(configuration);
      var test := wrapper.TestConnection(d);
      var (ok, error) := test.value;
      if !ok {
        r := Threw(General(error));
      } else {
        r := Returned(wrapper);
      }
    }

    /** `Connection.Open()`. */
    method OpenConnection(d: Driver) returns (r: Outcome<()>)
      modifies this
      ensures var e := OpenSpec(old(State()), d); r == e.result && State() == e.after && Log == old(Log) + e.events
    {
      if Connection.None? {
        return Threw(NullReference);
      }
      var descriptor := Connection.value.descriptor;
      Log := Log + [Open(descriptor)];
      var answer := d.open(descriptor);
      if answer.Err? {
        return Fail(answer.message);
      }
      Connection := Some(Conn(descriptor, true));
      r := Returned(());
    }

    /** `Connection.Close()` in a finally block: the exception it throws, if any. */
    method CloseConnection() returns (failure: Option<Exception>)
      modifies this
      ensures old(Connection).None? ==> failure == Some(NullReference) && State() == old(State()) && Log == old(Log)
      ensures old(Connection).Some? ==> failure == None && State() == Closed(old(State())) && Log == old(Log) + [Close]
    {
      if Connection.None? {
        return Some(NullReference);
      }
      Connection := Some(Connection.value.(isOpen := false));
      Log := Log + [Close];
      failure := None;
    }

    /** `GetCommand`: the command text, the parameters bound in order under
        `@0`, `@1`, ..., and the transaction when one is active. */
    method GetCommand(commandText: string, parameters: seq<Value>) returns (command: Command)
      requires Connection.Some?
      ensures command.text == commandText
      ensures command.transaction == Transaction
      ensures |command.parameters| == |parameters|
      ensures forall i :: 0 <= i < |parameters| ==> command.parameters[i] == Parameter(ParameterName(i), parameters[i])
      ensures command == BoundCommand(commandText, parameters, Transaction)
    {
      var bound: seq<Parameter> := [];
      for i := 0 to |parameters|
        invariant |bound| == i
        invariant forall j :: 0 <= j < i ==> bound[j] == Parameter(ParameterName(j), parameters[j])
      {
        bound := bound + [Parameter(ParameterName(i), parameters[i])];
      }
      command := Command(commandText, bound, if Transaction.Some? then Transaction else None);
    }

    method ExecuteNonQuery(commandText: string, parameters: seq<Value>, d: Driver) returns (r: Outcome<int>)
      modifies this
      ensures var e := NonQuerySpec(old(State()), commandText, parameters, d);
        r == e.result && State() == e.after && Log == old(Log) + e.events
    {
      var result: Outcome<int>;
      var opening := OpenConnection(d);
      if opening.Threw? {
        result := Threw(opening.exception);
      } else {
        var command := GetCommand(commandText, parameters);
        Log := Log + [NonQuery(command)];
        var answer := d.nonQuery(0, command);
        result := if answer.Ok? then Returned(answer.value) else Fail(answer.message);
      }
      var failure := CloseConnection();
      r := if failure.Some? then Threw(failure.value) else result;
    }

    method ExecuteReader(commandText: string, parameters: seq<Value>, d: Driver) returns (r: Outcome<Table>)
      modifies this
      ensures var e := ReaderSpec(old(State()), commandText, parameters, d);
        r == e.result && State() == e.after && Log == old(Log) + e.events
    {
      var result: Outcome<Table>;
      var opening := OpenConnection(d);
      if opening.Threw? {
        result := Threw(opening.exception);
      } else {
        var command := GetCommand(commandText, parameters);
        Log := Log + [Reader(command)];
        var answer := d.reader(command);
        if answer.Ok? {
          var rows := ReadRows(answer.value);
          result := Returned(Table(rows));
        } else {
          result := Fail(answer.message);
        }
      }
      var failure := CloseConnection();
      r := if failure.Some? then Threw(failure.value) else result;
    }

    method ExecuteScalar<T(==)>(commandText: string, parameters: seq<Value>, d: Driver, cast: Value -> Outcome<T>)
      returns (r: Outcome<T>)
      modifies this
      ensures var e := ScalarSpec(old(State()), commandText, parameters, d, cast);
        r == e.result && State() == e.after && Log == old(Log) + e.events
    {
      var result: Outcome<T>;
      var opening := OpenConnection(d);
      if opening.Threw? {
        result := Threw(opening.exception);
      } else {
        var command := GetCommand(commandText, parameters);
        Log := Log + [Scalar(command)];
        var answer := d.scalar(command);
        if answer.Err? {
          result := Fail(answer.message);
        } else {
          result := cast(answer.value);
        }
      }
      var failure := CloseConnection();
      r := if failure.Some? then Threw(failure.value) else result;
    }

    /** `TestConnection(out error)`: the returned flag and message, as a pair. */
    method TestConnection(d: Driver) returns (r: Outcome<(bool, string)>)
      modifies this
      ensures var e := TestSpec(old(State()), d); r == e.result && State() == e.after && Log == old(Log) + e.events
    {
      var result: Outcome<(bool, string)>;
      var opening := OpenConnection(d);
      if opening.Returned? {
        result := Returned((true, ""));
      } else {
        result := Returned((false, Message(opening.exception)));
      }
      var failure := CloseConnection();
      r := if failure.Some? then Threw(failure.value) else result;
    }

    method StartTransaction(d: Driver) returns (r: Outcome<()>)
      modifies this
      ensures var e := StartSpec(old(State()), d); r == e.result && State() == e.after && Log == old(Log) + e.events
    {
      if Connection.None? {
        r := Threw(NullReference);
      } else {
        r := Returned(());
        if !Connection.value.isOpen {
          r := OpenConnection(d);
        }
        if r.Returned? {
          Log := Log + [Begin];
          if d.begin.Err? {
            r := Fail(d.begin.message);
          } else {
            Transaction := Some(Handle);
          }
        }
      }
      if r.Threw? {
        if Transaction.Some? {
          Log := Log + [DisposeTransaction];
        }
        Transaction := None;
      }
    }

    /** The finally block of Commit/RollbackTransaction. */
    method EndTransaction(pending: Outcome<()>) returns (r: Outcome<()>)
      modifies this
      ensures var e := EndSpec(pending, old(State()), []); r == e.result && State() == e.after && Log == old(Log) + e.events
    {
      var failure := CloseConnection();
      if failure.Some? {
        return Threw(failure.value);
      }
      if Transaction.None? {
        return Threw(NullReference);
      }
      Log := Log + [DisposeTransaction];
      Transaction := None;
      r := pending;
    }

    method CommitTransaction(d: Driver) returns (r: Outcome<()>)
      modifies this
      ensures var e := CommitSpec(old(State()), d); r == e.result && State() == e.after && Log == old(Log) + e.events
    {
      var pending: Outcome<()>;
      if Transaction.None? {
        pending := Threw(NullReference);
      } else {
        Log := Log + [Commit];
        pending := if d.commit.Ok? then Returned(()) else Fail(d.commit.message);
      }
      r := EndTransaction(pending);
    }

    method RollbackTransaction(d: Driver) returns (r: Outcome<()>)
      modifies this
      ensures var e := RollbackSpec(old(State()), d); r == e.result && State() == e.after && Log == old(Log) + e.events
    {
      var pending: Outcome<()>;
      if Transaction.None? {
        pending := Threw(NullReference);
      } else {
        Log := Log + [Rollback];
        pending := if d.rollback.Ok? then Returned(()) else Fail(d.rollback.message);
      }
      r := EndTransaction(pending);
    }

    /** The statements and the commit of `ExecuteTransaction`'s try block,
        run once the transaction has started. */
    method RunStatements(queries: seq<Query>, d: Driver) returns (r: Outcome<()>)
      requires Connection.Some? && Transaction.Some?
      modifies this
      ensures var e := RunSpec(old(State()), queries, d); r == e.result && State() == e.after && Log == old(Log) + e.events
    {
      ghost var tx := Transaction;
      var i := 0;
      while i < |queries|
        invariant 0 <= i <= |queries|
        invariant State() == old(State())
        invariant FirstFailure(queries, d, tx, 0) == FirstFailure(queries, d, tx, i)
        invariant Log == old(Log) + Statements(queries[..i], tx)
      {
        var command := GetCommand(queries[i].commandText, queries[i].parameters);
        Log := Log + [NonQuery(command)];
        assert Statements(queries[..i + 1], tx) == Statements(queries[..i], tx) + [NonQuery(command)];
        var answer := d.nonQuery(i, command);
        if answer.Err? {
          return Fail(answer.message);
        }
        i := i + 1;
      }
      assert queries[..i] == queries;
      r := CommitTransaction(d);
    }

    /** `ExecuteTransaction(queries)`. */
    method ExecuteTransaction(queries: seq<Query>, d: Driver) returns (r: Outcome<()>)
      modifies this
      ensures var e := TransactionSpec(old(State()), queries, d);
        r == e.result && State() == e.after && Log == old(Log) + e.events
    {
      // try
      var pending := StartTransaction(d);
      if pending.Returned? {
        pending := RunStatements(queries, d);
      }
      assert var e := TrySpec(old(State()), queries, d); pending == e.result && State() == e.after && Log == old(Log) + e.events;
      // catch
      if pending.Threw? {
        var rolledBack := RollbackTransaction(d);
        if rolledBack.Threw? {
          pending := rolledBack;
        }
      }
      assert var e := CatchSpec(TrySpec(old(State()), queries, d), d); pending == e.result && State() == e.after && Log == old(Log) + e.events;
      // finally
      var failure := CloseConnection();
      r := if failure.Some? then Threw(failure.value) else pending;
    }

    /** `ExecuteTransaction(queryText, parameters)`: a one-statement transaction. */
    method ExecuteTransactionText(queryText: string, parameters: seq<Value>, d: Driver) returns (r: Outcome<()>)
      modifies this
      ensures var e := TransactionSpec(old(State()), [Query(queryText, parameters)], d);
        r == e.result && State() == e.after && Log == old(Log) + e.events
    {
      r := ExecuteTransaction([Query(queryText, parameters)], d);
    }

    method Dispose()
      modifies this
      ensures var e := DisposeSpec(old(State())); State() == e.after && Log == old(Log) + e.events
    {
      if Transaction.Some? {
        Log := Log + [DisposeTransaction];
        Transaction := None;
      }
      if Connection.Some? {
        Log := Log + [Close, DisposeConnection];
        Connection := None;
      }
    }
  }
}
