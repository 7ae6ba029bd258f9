# NoRe.Database.SqLite in Dafny

A model of the SQLite data-access wrapper of NoRe.Database.SqLite:

- `SqLiteConfiguration` holds three optional fields (database path, version,
  password). It renders them as a `Key=Value;` connection string and loads
  them from a persisted configuration file.
- `SqLiteWrapper` owns one connection and at most one transaction. Its
  operations open the connection, run a statement (non-query, reader, scalar)
  or a transaction of several statements, and close the connection again.

The SQLite driver is an abstract collaborator. A `Driver` value says how every
driver call answers during one wrapper call: opening, beginning, each
statement, the reader's cursor, the scalar, commit and rollback each succeed or
fail with a message. Every `try`/`catch`/`finally` of the wrapper is written
out. A `finally` block that throws replaces the pending exception. A member
access through a null `Connection` or `Transaction` throws a
`NullReferenceException`.

Each wrapper method is proved equal to a specification function over the pair
(connection, transaction). The function gives the method's outcome, the state
it leaves behind, and the driver calls it made in order (the ghost field
`Log`). The lemmas in `WrapperProperties` state what these functions guarantee:

- The connection is closed when every operation exits.
- The transaction is cleared when `ExecuteTransaction` exits.
- Statements run in list order, and a commit is attempted only after all of
  them succeeded.
- A failing statement is followed by a rollback.
- A failure to start or to commit reaches the caller as a
  `NullReferenceException`. The `catch` block calls `RollbackTransaction`,
  which dereferences the transaction that is already null.

Files: `core.dfy` (nullable values, exceptions, outcomes), `models.dfy`
(`Column`, `Row`, `Table`, `Query`), `config.dfy` (the configuration),
`driver.dfy` (commands, parameter names, cursors, the driver oracle, driver
calls), `wrapper.dfy` (specification functions and the wrapper class),
`properties.dfy` (lemmas about the single-statement outcomes, the transaction
protocol, the connection test and disposal).

## Failure paths

What the wrapper's `catch` and `finally` blocks make of a failure:

- A failing statement in a transaction is rethrown after the rollback, unless
  the rollback fails too; then the rollback's error propagates instead
  (`TransactionStatementFailed`, `CatchSpec`).
- A failing `StartTransaction` or `CommitTransaction` leaves no transaction,
  so the rollback in the `catch` block dereferences null. The caller gets a
  `NullReferenceException`, not the driver's error (`TransactionStartFailed`,
  `TransactionCommitFailed`).
- `TestConnection` on a disposed wrapper does not report a failure. Its
  `finally` block throws a `NullReferenceException` (`TestConnectionReports`).

## Model

| member | source | states |
|---|---|---|
| `Config.Render` | NoRe.Database.SqLite/SqLiteConfiguration.cs:41-50 | the connection string is empty iff all three fields are null or empty; otherwise it ends with `;`; its length is the sum of the present segments' lengths; it starts with `Data Source=` iff the path is non-empty |
| `Config.RenderIsJoin` | NoRe.Database.SqLite/SqLiteConfiguration.cs:43-49 | the connection string is exactly the present entries, in the order path, version, password, each written `key=value;` |
| `Config.ParseJoin` | NoRe.Database.SqLite/SqLiteConfiguration.cs:45-47 | entries whose keys hold no `;` or `=` and whose values hold no `;` parse back from their written form unchanged |
| `Config.ParseRender` | NoRe.Database.SqLite/SqLiteConfiguration.cs:43-49 | when no value contains `;`, parsing the connection string gives back exactly the present fields in the fixed order |
| `Config.LookupRender` | NoRe.Database.SqLite/SqLiteConfiguration.cs:45-47 | `Data Source`, `Version` and `Password` each appear in the parsed connection string iff their field is non-empty, and then with that field's value |
| `Config.RenderNotInjective` | NoRe.Database.SqLite/SqLiteConfiguration.cs:45-46 | a path containing `;Version=3` renders the same string as a separate version field `3` |
| `Config.SqLiteConfiguration.constructor` | NoRe.Database.SqLite/SqLiteConfiguration.cs:24-25 | a new configuration has the given file path and no field set |
| `Config.SqLiteConfiguration.ToString` | NoRe.Database.SqLite/SqLiteConfiguration.cs:41-50 | reads the fields without changing them; the result is the written form of the present entries, and parses back to them when no value contains `;` |
| `Config.SqLiteConfiguration.Read` | NoRe.Database.SqLite/SqLiteConfiguration.cs:27-35 | when nothing is loaded it throws "Could not load configuration file" and leaves the fields unchanged; otherwise it sets the three fields to exactly the loaded object's values |
| `Driver.ParameterName` | NoRe.Database.SqLite/SqLiteWrapper.cs:256 | the name is `@` followed by decimal digits that read back as the parameter's position |
| `Driver.ParseDecimalOfDecimal` | NoRe.Database.SqLite/SqLiteWrapper.cs:256 | the decimal digits used in a parameter name read back as the position they were written for |
| `Driver.ParameterNamesDistinct` | NoRe.Database.SqLite/SqLiteWrapper.cs:256 | parameters at different positions are bound under different names |
| `Wrapper.Finally` | NoRe.Database.SqLite/SqLiteWrapper.cs:72-75 | after the `finally` block the connection is not open and the transaction is untouched; a null connection turns the outcome into a NullReferenceException, otherwise the pending outcome stands |
| `Wrapper.OpenSpec` | NoRe.Database.SqLite/SqLiteWrapper.cs:65 | opening succeeds iff the connection exists and the driver opens its descriptor, and then leaves it open; the transaction is untouched |
| `Wrapper.NonQuerySpec` | NoRe.Database.SqLite/SqLiteWrapper.cs:61-76 | whether it returns or throws, `ExecuteNonQuery` leaves the connection closed and the transaction as it was |
| `Wrapper.ReaderSpec` | NoRe.Database.SqLite/SqLiteWrapper.cs:78-114 | whether it returns or throws, `ExecuteReader` leaves the connection closed and the transaction as it was |
| `Wrapper.ScalarSpec` | NoRe.Database.SqLite/SqLiteWrapper.cs:116-131 | whether it returns or throws (from the driver or from the `(T)` conversion), `ExecuteScalar` leaves the connection closed and the transaction as it was |
| `Wrapper.TestSpec` | NoRe.Database.SqLite/SqLiteWrapper.cs:165-183 | whether it returns or throws, `TestConnection` leaves the connection closed and the transaction as it was |
| `Wrapper.StartSpec` | NoRe.Database.SqLite/SqLiteWrapper.cs:224-242 | a failed start leaves no transaction; a successful one leaves the connection open with a transaction |
| `Wrapper.EndSpec` | NoRe.Database.SqLite/SqLiteWrapper.cs:195-200 | the cleanup of commit and rollback closes an existing connection and clears the transaction unless a null connection stops it first; it returns normally only if the commit or rollback did |
| `Wrapper.CommitSpec` | NoRe.Database.SqLite/SqLiteWrapper.cs:207-219 | commit returns normally iff connection and transaction exist and the driver commits; the connection ends closed and, when the connection exists, the transaction cleared even when the commit throws |
| `Wrapper.RollbackSpec` | NoRe.Database.SqLite/SqLiteWrapper.cs:189-202 | rollback returns normally iff connection and transaction exist and the driver rolls back; the connection ends closed and, when the connection exists, the transaction cleared even when the rollback throws |
| `Wrapper.FirstFailure` | NoRe.Database.SqLite/SqLiteWrapper.cs:139-142 | the index of the first statement the driver rejects: all earlier ones were accepted, and that one was rejected (or none was and it is the list length) |
| `Wrapper.RunSpec` | NoRe.Database.SqLite/SqLiteWrapper.cs:137-144 | after the statements and the commit, the try block either threw or left the connection closed; a normal return leaves no transaction; a transaction is left only when a statement was rejected (the first failure lies inside the list), and then the run threw and the state is as the start left it |
| `Wrapper.TrySpec` | NoRe.Database.SqLite/SqLiteWrapper.cs:135-145 | the try block begins with the start's driver calls; it returns only if the start did, and then leaves the connection closed and no transaction; a transaction outlives it only when the start succeeded and a statement was rejected, and then it threw with the connection still open |
| `Wrapper.CatchSpec` | NoRe.Database.SqLite/SqLiteWrapper.cs:146-150 | a normal exit passes through unchanged; a pending exception is always rethrown, replaced by the rollback's exception when the rollback throws: a NullReferenceException when connection or transaction is null, otherwise the driver's rollback error; with both present exactly the rollback, close and dispose reach the driver |
| `Wrapper.TransactionSpec` | NoRe.Database.SqLite/SqLiteWrapper.cs:133-155 | on every path `ExecuteTransaction` leaves the connection closed and the transaction null |
| `Wrapper.DisposeSpec` | NoRe.Database.SqLite/SqLiteWrapper.cs:266-280 | disposal never throws and leaves both connection and transaction null |
| `Wrapper.ReadRows` | NoRe.Database.SqLite/SqLiteWrapper.cs:91-101 | one row per cursor record, in cursor order; each row has exactly `FieldCount` columns, column `i` holding field `i`'s name and the record's value `i` |
| `Wrapper.SqLiteWrapper.constructor` | NoRe.Database.SqLite/SqLiteWrapper.cs:40 | the wrapper keeps the configuration and a closed connection created from its connection string, with no transaction |
| `Wrapper.SqLiteWrapper.New` | NoRe.Database.SqLite/SqLiteWrapper.cs:30-43 | persists the given fields at the well-known path iff asked to; succeeds iff the driver opens the rendered connection string, with a closed connection and no transaction; otherwise throws a plain exception with the driver's message |
| `Wrapper.SqLiteWrapper.FromConfigurationFile` | NoRe.Database.SqLite/SqLiteWrapper.cs:50-59 | reads the given path, or the well-known one for a null or empty path; throws "Could not load configuration file" when nothing is stored there; otherwise validates the loaded configuration's connection as `New` does |
| `Wrapper.SqLiteWrapper.OpenConnection` | NoRe.Database.SqLite/SqLiteWrapper.cs:65 | behaves as `OpenSpec` on the wrapper's state and logs the driver call |
| `Wrapper.SqLiteWrapper.CloseConnection` | NoRe.Database.SqLite/SqLiteWrapper.cs:74 | a null connection throws and changes nothing; otherwise the connection is closed and the call logged |
| `Wrapper.SqLiteWrapper.GetCommand` | NoRe.Database.SqLite/SqLiteWrapper.cs:248-261 | the command has the given text, parameter `i` bound as `@i` to the `i`-th value for every position in order, and the wrapper's transaction attached iff one is active |
| `Wrapper.SqLiteWrapper.ExecuteNonQuery` | NoRe.Database.SqLite/SqLiteWrapper.cs:61-76 | outcome, new state and driver calls are those of `NonQuerySpec` |
| `Wrapper.SqLiteWrapper.ExecuteReader` | NoRe.Database.SqLite/SqLiteWrapper.cs:78-114 | outcome, new state and driver calls are those of `ReaderSpec`; the table holds the materialised cursor |
| `Wrapper.SqLiteWrapper.ExecuteScalar` | NoRe.Database.SqLite/SqLiteWrapper.cs:116-131 | outcome, new state and driver calls are those of `ScalarSpec`; the result is the `(T)` conversion of the driver's value, which may itself fail with an exception |
| `Wrapper.SqLiteWrapper.TestConnection` | NoRe.Database.SqLite/SqLiteWrapper.cs:165-183 | outcome, new state and driver calls are those of `TestSpec` |
| `Wrapper.SqLiteWrapper.StartTransaction` | NoRe.Database.SqLite/SqLiteWrapper.cs:224-242 | outcome, new state and driver calls are those of `StartSpec` |
| `Wrapper.SqLiteWrapper.EndTransaction` | NoRe.Database.SqLite/SqLiteWrapper.cs:213-218 | outcome, new state and driver calls are those of `EndSpec` |
| `Wrapper.SqLiteWrapper.CommitTransaction` | NoRe.Database.SqLite/SqLiteWrapper.cs:207-219 | outcome, new state and driver calls are those of `CommitSpec` |
| `Wrapper.SqLiteWrapper.RollbackTransaction` | NoRe.Database.SqLite/SqLiteWrapper.cs:189-202 | outcome, new state and driver calls are those of `RollbackSpec` |
| `Wrapper.SqLiteWrapper.RunStatements` | NoRe.Database.SqLite/SqLiteWrapper.cs:139-144 | runs the statements in list order, stops at the first rejected one, and commits only after all were accepted, as `RunSpec` says |
| `Wrapper.SqLiteWrapper.ExecuteTransaction` | NoRe.Database.SqLite/SqLiteWrapper.cs:133-155 | outcome, new state and driver calls are those of `TransactionSpec` |
| `Wrapper.SqLiteWrapper.ExecuteTransactionText` | NoRe.Database.SqLite/SqLiteWrapper.cs:157-163 | behaves exactly as `ExecuteTransaction` on the one-element list holding this query |
| `Wrapper.SqLiteWrapper.Dispose` | NoRe.Database.SqLite/SqLiteWrapper.cs:266-280 | new state and driver calls are those of `DisposeSpec` |
| `WrapperProperties.FirstFailureIs` | NoRe.Database.SqLite/SqLiteWrapper.cs:139-142 | a statement preceded only by accepted ones and itself rejected is the first failure |
| `WrapperProperties.StartSpecSucceeds` | NoRe.Database.SqLite/SqLiteWrapper.cs:224-234 | the start succeeds iff the connection exists, is open or opens, and the driver begins; it then makes exactly the open call (if needed) and the begin call |
| `WrapperProperties.StartOpensOnlyWhenClosed` | NoRe.Database.SqLite/SqLiteWrapper.cs:228-239 | the start asks the driver to open iff the connection exists and is not already open; on failure no transaction is left |
| `WrapperProperties.TransactionCommitted` | NoRe.Database.SqLite/SqLiteWrapper.cs:133-155 | when everything succeeds, the call returns and the driver sees the open (if needed), begin, every statement in list order inside the transaction, commit, close, dispose, close |
| `WrapperProperties.TransactionStatementFailed` | NoRe.Database.SqLite/SqLiteWrapper.cs:137-154 | when statement `k` is the first rejected, statements 0..k ran in order, no commit was attempted, a rollback was, and the caller gets the statement's error, or the rollback's if that failed too |
| `WrapperProperties.TransactionCommitFailed` | NoRe.Database.SqLite/SqLiteWrapper.cs:144-154 | when the commit fails, the caller gets a NullReferenceException instead of the commit error, and no rollback reaches the driver |
| `WrapperProperties.TransactionStartFailed` | NoRe.Database.SqLite/SqLiteWrapper.cs:135-154 | when the start fails, the caller gets a NullReferenceException instead of the driver error, and no statement, commit or rollback reaches the driver |
| `WrapperProperties.TransactionSucceedsIff` | NoRe.Database.SqLite/SqLiteWrapper.cs:133-155 | a transaction returns normally iff it started, every statement was accepted and the commit succeeded |
| `WrapperProperties.CommitOnlyAfterAllStatements` | NoRe.Database.SqLite/SqLiteWrapper.cs:137-144 | a commit reaches the driver only if the start succeeded and every statement was accepted |
| `WrapperProperties.NonQueryOutcome` | NoRe.Database.SqLite/SqLiteWrapper.cs:61-76 | on a live connection the statement runs once between open and close and the caller gets the driver's row count or error unchanged; if opening fails the statement never runs and the open error propagates; on a disposed wrapper a NullReferenceException with no driver call |
| `WrapperProperties.ReaderOutcome` | NoRe.Database.SqLite/SqLiteWrapper.cs:78-114 | on a live connection the query runs once between open and close and the caller gets the cursor's records as rows or the driver's error unchanged; the open-failure and disposed cases as for `ExecuteNonQuery` |
| `WrapperProperties.ScalarOutcome` | NoRe.Database.SqLite/SqLiteWrapper.cs:116-131 | on a live connection the query runs once between open and close and the caller gets the `(T)` conversion of the driver's value (or the exception it throws) or the driver's error; the open-failure and disposed cases as for `ExecuteNonQuery` |
| `WrapperProperties.TestConnectionReports` | NoRe.Database.SqLite/SqLiteWrapper.cs:165-183 | `(true, "")` iff the driver opens the connection, `(false, message)` with the driver's message otherwise; a NullReferenceException on a null connection |
| `WrapperProperties.DisposeIdempotent` | NoRe.Database.SqLite/SqLiteWrapper.cs:266-280 | a second disposal makes no driver call and leaves both references null |

## Left out

- XML serialisation: the configuration files are a map from path to stored
  fields. `Read<T>` is `Config.Load`, a lookup in that map, and
  `Configuration.Write()` is `Config.SqLiteConfiguration.Write`, an update of
  it. Both stand in for the persistence library and model nothing of it. I/O
  errors while reading or writing are not modelled.
- Path resolution: `Pathmanager.ConfigurationDirectory` combined with
  `SqLiteConfiguration.xml` is the `defaultPath` parameter.
  `Path.Combine` and `Pathmanager` are not part of this model.
- The SQLite engine: SQL parsing, affected-row counts, constraint violations,
  and what a rollback undoes on disk. Each of these is only the driver's
  answer. A failure of `Prepare` is part of the answer to executing the command.
- The schema table (`GetSchemaTable`, `Table.DataTable`) that `ExecuteReader`
  attaches to its result.
- The `(T)` conversion in `ExecuteScalar` is a `cast` parameter that returns
  the converted value or the exception the conversion throws. The .NET rules
  for which conversions succeed are not modelled: InvalidCastException for a
  value of another type, and NullReferenceException when the null of a query
  without rows is unboxed into a value type.
- Null arguments: a null `params` array faults at `parameters.Length` in
  `GetCommand`, and a null query list faults in the `foreach` of
  `ExecuteTransaction`. Both throw a NullReferenceException inside the `try`.
  Sequences cannot be null, so the model has neither case.
- The data reader is never closed by the source, and the model has no event
  for it.
- Closing or disposing a connection or transaction that is not null never
  fails.
- Values: only the null reference, SQL NULL, integers and text. Other .NET parameter types are left out.
- Constructors are static methods returning the new wrapper or the exception,
  because a Dafny constructor cannot throw. The object a failing constructor
  has already allocated is not returned.
- Within one wrapper call, the driver's answer depends only on the command and
  its position in the call.
- Concurrent use of one wrapper, and the test project, which needs a live
  database file.
