/** What the wrapper's specification functions guarantee across several
    steps: the outcome and the driver calls of a transaction on each of its
    paths, the connection test, and disposal. */
module WrapperProperties {
  import opened Core
  import opened Models
  import opened Driver
  import opened Wrapper

  /** `StartTransaction` gets a transaction: the connection exists, is open
      or opens, and the driver begins a transaction. */
  predicate StartSucceeds(s: Snapshot, d: Driver) {
    s.connection.Some?
    && (IsOpen(s) || d.open(s.connection.value.descriptor).Ok?)
    && d.begin.Ok?
  }

  /** The open call `StartTransaction` makes: none when the connection is already open. */
  function OpenEvents(s: Snapshot): seq<Event>
    requires s.connection.Some?
  {
    if IsOpen(s) then [] else [Open(s.connection.value.descriptor)]
  }

  /** Every statement of the transaction is accepted by the driver. */
  predicate AllAccepted(qs: seq<Query>, d: Driver) {
    forall j :: 0 <= j < |qs| ==> d.nonQuery(j, QueryCommand(qs[j], Some(Handle))).Ok?
  }

  /** Statement `k` is the first one the driver rejects. */
  predicate FirstRejected(qs: seq<Query>, d: Driver, k: nat) {
    k < |qs|
    && (forall j :: 0 <= j < k ==> d.nonQuery(j, QueryCommand(qs[j], Some(Handle))).Ok?)
    && d.nonQuery(k, QueryCommand(qs[k], Some(Handle))).Err?
  }

  lemma {:induction false} FirstFailureIs(qs: seq<Query>, d: Driver, tx: Option<TxHandle>, from: nat, k: nat)
    requires from <= k <= |qs|
    requires forall j :: from <= j < k ==> d.nonQuery(j, QueryCommand(qs[j], tx)).Ok?
    requires k < |qs| ==> d.nonQuery(k, QueryCommand(qs[k], tx)).Err?
    ensures FirstFailure(qs, d, tx, from) == k
    decreases k - from
  {
    if from < k {
      FirstFailureIs(qs, d, tx, from + 1, k);
    }
  }

  lemma StartSpecSucceeds(s: Snapshot, d: Driver)
    ensures StartSpec(s, d).result.Returned? <==> StartSucceeds(s, d)
    ensures StartSucceeds(s, d) ==>
      StartSpec(s, d).events == OpenEvents(s) + [Begin]
      && StartSpec(s, d).after == Snapshot(Some(Conn(s.connection.value.descriptor, true)), Some(Handle))
  {
  }

  /** `StartTransaction` asks the driver to open the connection exactly when
      the connection exists and is not open, and leaves no transaction behind
      when it fails. */
  lemma StartOpensOnlyWhenClosed(s: Snapshot, d: Driver)
    ensures (exists i :: 0 <= i < |StartSpec(s, d).events| && StartSpec(s, d).events[i].Open?)
            <==> s.connection.Some? && !IsOpen(s)
    ensures StartSpec(s, d).result.Threw? ==> StartSpec(s, d).after.transaction.None?
  {
    var e := StartSpec(s, d);
    if s.connection.Some? && !IsOpen(s) {
      assert e.events[0].Open?;
    }
  }

  /** Commit path: every statement ran, in order, inside the transaction;
      the commit succeeded; the connection was closed twice (once by the
      commit's cleanup, once by the final block) and the transaction disposed. */
  lemma TransactionCommitted(s: Snapshot, qs: seq<Query>, d: Driver)
    requires StartSucceeds(s, d) && AllAccepted(qs, d) && d.commit.Ok?
    ensures TransactionSpec(s, qs, d).result == Returned(())
    ensures TransactionSpec(s, qs, d).events
            == OpenEvents(s) + [Begin] + Statements(qs, Some(Handle)) + [Commit, Close, DisposeTransaction, Close]
  {
    StartSpecSucceeds(s, d);
    FirstFailureIs(qs, d, Some(Handle), 0, |qs|);
  }

  /** Statement-failure path: the statements up to and including the first
      rejected one ran, in order; no commit was attempted; the rollback was;
      the caller gets the statement's error, or the rollback's if the
      rollback itself failed. */
  lemma TransactionStatementFailed(s: Snapshot, qs: seq<Query>, d: Driver, k: nat)
    requires StartSucceeds(s, d) && FirstRejected(qs, d, k)
    ensures TransactionSpec(s, qs, d).result
            == if d.rollback.Ok? then Threw(DriverError(d.nonQuery(k, QueryCommand(qs[k], Some(Handle))).message))
               else Threw(DriverError(d.rollback.message))
    ensures TransactionSpec(s, qs, d).events
            == OpenEvents(s) + [Begin] + Statements(qs[..k + 1], Some(Handle)) + [Rollback, Close, DisposeTransaction, Close]
  {
    StartSpecSucceeds(s, d);
    FirstFailureIs(qs, d, Some(Handle), 0, k);
  }

  /** Commit-failure path: the commit's cleanup already cleared the
      transaction, so the rollback in the catch block dereferences null. The
      caller gets a NullReferenceException, not the commit's error, and no
      rollback reaches the driver. */
  lemma TransactionCommitFailed(s: Snapshot, qs: seq<Query>, d: Driver)
    requires StartSucceeds(s, d) && AllAccepted(qs, d) && d.commit.Err?
    ensures TransactionSpec(s, qs, d).result == Threw(NullReference)
    ensures TransactionSpec(s, qs, d).events
            == OpenEvents(s) + [Begin] + Statements(qs, Some(Handle)) + [Commit, Close, DisposeTransaction, Close, Close]
  {
    StartSpecSucceeds(s, d);
    FirstFailureIs(qs, d, Some(Handle), 0, |qs|);
  }

  /** Start-failure path: no transaction exists, so the rollback in the catch
      block dereferences null. The caller gets a NullReferenceException, not
      the driver's error; no statement, commit or rollback reaches the driver. */
  lemma TransactionStartFailed(s: Snapshot, qs: seq<Query>, d: Driver)
    requires !StartSucceeds(s, d)
    ensures TransactionSpec(s, qs, d).result == Threw(NullReference)
    ensures forall i :: 0 <= i < |TransactionSpec(s, qs, d).events| ==>
              var e := TransactionSpec(s, qs, d).events[i];
              !e.NonQuery? && !e.Commit? && !e.Rollback?
  {
    StartSpecSucceeds(s, d);
    var st := StartSpec(s, d);
    var events := TransactionSpec(s, qs, d).events;
    assert events == st.events + (if s.connection.Some? then [Close, Close] else []);
    forall i | 0 <= i < |st.events| ensures !st.events[i].NonQuery? && !st.events[i].Commit? && !st.events[i].Rollback? {
    }
  }

  /** A transaction returns normally exactly when it started, the driver
      accepted every statement and the commit succeeded. */
  lemma TransactionSucceedsIff(s: Snapshot, qs: seq<Query>, d: Driver)
    ensures TransactionSpec(s, qs, d).result.Returned?
            <==> StartSucceeds(s, d) && AllAccepted(qs, d) && d.commit.Ok?
  {
    if StartSucceeds(s, d) {
      var k := FirstFailure(qs, d, Some(Handle), 0);
      if k < |qs| {
        TransactionStatementFailed(s, qs, d, k);
      } else if d.commit.Ok? {
        TransactionCommitted(s, qs, d);
      } else {
        TransactionCommitFailed(s, qs, d);
      }
    } else {
      TransactionStartFailed(s, qs, d);
    }
  }

  /** A commit reaches the driver only after every statement was accepted. */
  lemma CommitOnlyAfterAllStatements(s: Snapshot, qs: seq<Query>, d: Driver)
    requires Commit in TransactionSpec(s, qs, d).events
    ensures StartSucceeds(s, d) && AllAccepted(qs, d)
  {
    if !StartSucceeds(s, d) {
      TransactionStartFailed(s, qs, d);
    } else {
      var k := FirstFailure(qs, d, Some(Handle), 0);
      if k < |qs| {
        TransactionStatementFailed(s, qs, d, k);
      }
    }
  }

  /** `ExecuteNonQuery` on a live connection: when the driver opens it, the
      statement runs exactly once between the open and the close and the
      caller gets the driver's row count or its error unchanged; when the
      driver refuses to open, the statement never runs and the caller gets
      the open error. On a disposed wrapper the finally block's
      NullReferenceException is what leaves, and no driver call is made. */
  lemma NonQueryOutcome(s: Snapshot, text: string, values: seq<Value>, d: Driver)
    ensures s.connection.None? ==> NonQuerySpec(s, text, values, d) == Effect(Threw(NullReference), s, [])
    ensures s.connection.Some? ==>
      var descriptor := s.connection.value.descriptor;
      var command := BoundCommand(text, values, s.transaction);
      var a := d.nonQuery(0, command);
      && (d.open(descriptor).Err? ==>
            NonQuerySpec(s, text, values, d).result == Threw(DriverError(d.open(descriptor).message))
            && NonQuerySpec(s, text, values, d).events == [Open(descriptor), Close])
      && (d.open(descriptor).Ok? ==>
            NonQuerySpec(s, text, values, d).result == (if a.Ok? then Returned(a.value) else Threw(DriverError(a.message)))
            && NonQuerySpec(s, text, values, d).events == [Open(descriptor), NonQuery(command), Close])
  {
  }

  /** `ExecuteReader` on a live connection: when the driver opens it, the
      query runs exactly once and the caller gets every record of the
      cursor as a row, or the driver's error unchanged; otherwise as
      `NonQueryOutcome`. */
  lemma ReaderOutcome(s: Snapshot, text: string, values: seq<Value>, d: Driver)
    ensures s.connection.None? ==> ReaderSpec(s, text, values, d) == Effect(Threw(NullReference), s, [])
    ensures s.connection.Some? ==>
      var descriptor := s.connection.value.descriptor;
      var command := BoundCommand(text, values, s.transaction);
      var a := d.reader(command);
      && (d.open(descriptor).Err? ==>
            ReaderSpec(s, text, values, d).result == Threw(DriverError(d.open(descriptor).message))
            && ReaderSpec(s, text, values, d).events == [Open(descriptor), Close])
      && (d.open(descriptor).Ok? ==>
            ReaderSpec(s, text, values, d).result
              == (if a.Ok? then Returned(Table(Materialise(a.value))) else Threw(DriverError(a.message)))
            && ReaderSpec(s, text, values, d).events == [Open(descriptor), Reader(command), Close])
  {
  }

  /** `ExecuteScalar` on a live connection: when the driver opens it, the
      query runs exactly once and the caller gets the `(T)` conversion of
      the driver's value (including the exception the conversion throws),
      or the driver's error unchanged; otherwise as `NonQueryOutcome`. */
  lemma ScalarOutcome<T>(s: Snapshot, text: string, values: seq<Value>, d: Driver, cast: Value -> Outcome<T>)
    ensures s.connection.None? ==> ScalarSpec(s, text, values, d, cast) == Effect(Threw(NullReference), s, [])
    ensures s.connection.Some? ==>
      var descriptor := s.connection.value.descriptor;
      var command := BoundCommand(text, values, s.transaction);
      var a := d.scalar(command);
      && (d.open(descriptor).Err? ==>
            ScalarSpec(s, text, values, d, cast).result == Threw(DriverError(d.open(descriptor).message))
            && ScalarSpec(s, text, values, d, cast).events == [Open(descriptor), Close])
      && (d.open(descriptor).Ok? ==>
            ScalarSpec(s, text, values, d, cast).result == (if a.Ok? then cast(a.value) else Threw(DriverError(a.message)))
            && ScalarSpec(s, text, values, d, cast).events == [Open(descriptor), Scalar(command), Close])
  {
  }

  /** `TestConnection` reports success with an empty message exactly when the
      driver opens the connection, and the driver's message otherwise; on a
      disposed wrapper its finally block throws. */
  lemma TestConnectionReports(s: Snapshot, d: Driver)
    ensures s.connection.None? ==> TestSpec(s, d).result == Threw(NullReference)
    ensures s.connection.Some? ==>
      var answer := d.open(s.connection.value.descriptor);
      TestSpec(s, d).result == Returned(if answer.Ok? then (true, "") else (false, answer.message))
  {
  }

  /** Disposing twice does nothing the second time. */
  lemma DisposeIdempotent(s: Snapshot)
    ensures DisposeSpec(DisposeSpec(s).after) == Effect(Returned(()), Snapshot(None, None), [])
  {
  }
}
