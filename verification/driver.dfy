/** The database driver as the wrapper sees it: the commands it builds, the
    cursors it reads, the outcome of every driver call, and a record of the
    calls that reached the driver. */
module Driver {
  import opened Core

  // ---------------------------------------------------------------------
  // Positional parameter names: `@0`, `@1`, ...

  function Digit(d: nat): (c: char)
    requires d < 10
    ensures '0' <= c <= '9'
  {
    ('0' as int + d) as char
  }

  function DigitValue(c: char): nat
    requires '0' <= c <= '9'
  {
    c as int - '0' as int
  }

  predicate AllDigits(s: string) {
    forall i :: 0 <= i < |s| ==> '0' <= s[i] <= '9'
  }

  /** The decimal notation of `n` (what string interpolation writes for an `int`). */
  function Decimal(n: nat): (s: string)
    ensures |s| > 0 && AllDigits(s)
  {
    if n < 10 then [Digit(n)] else Decimal(n / 10) + [Digit(n % 10)]
  }

  /** Reads a string of decimal digits back as a number. */
  function ParseDecimal(s: string): nat
    requires AllDigits(s)
  {
    if s == [] then 0 else ParseDecimal(s[..|s| - 1]) * 10 + DigitValue(s[|s| - 1])
  }

  lemma {:induction false} ParseDecimalOfDecimal(n: nat)
    ensures ParseDecimal(Decimal(n)) == n
  {
    if n >= 10 {
      var s := Decimal(n);
      assert s[..|s| - 1] == Decimal(n / 10);
      ParseDecimalOfDecimal(n / 10);
    }
  }

  /** The name under which the parameter at position `i` is bound. */
  function ParameterName(i: nat): (name: string)
    ensures |name| >= 2 && name[0] == '@' && AllDigits(name[1..])
    ensures ParseDecimal(name[1..]) == i
  {
    var written := "@" + Decimal(i);
    assert written[1..] == Decimal(i);
    ParseDecimalOfDecimal(i);
    written
  }

  /** Different positions get different names, so no binding shadows another. */
  lemma ParameterNamesDistinct(i: nat, j: nat)
    requires i != j
    ensures ParameterName(i) != ParameterName(j)
  {
  }

  // ---------------------------------------------------------------------
  // Commands

  /** The transaction object of an open transaction. */
  datatype TxHandle = Handle

  datatype Parameter = Parameter(name: string, value: Value)

  /** A prepared command: its text, its bound parameters in order, and the
      transaction it is enlisted in, if any. */
  datatype Command = Command(text: string, parameters: seq<Parameter>, transaction: Option<TxHandle>)

  /** The command `GetCommand` prepares for this text, these positional values and this transaction. */
  function BoundCommand(text: string, values: seq<Value>, transaction: Option<TxHandle>): (command: Command) {
    Command(text, seq(|values|, i requires 0 <= i < |values| => Parameter(ParameterName(i), values[i])), transaction)
  }

  // ---------------------------------------------------------------------
  // Cursors

  datatype CursorData = CursorData(names: seq<string>, records: seq<seq<Value>>)

  /** A data reader over a finished query: the field names, and the records
      in the order `Read` yields them, each with one value per field. */
  type Cursor = c: CursorData | forall r | r in c.records :: |r| == |c.names|
    witness CursorData([], [])

  function FieldCount(c: Cursor): nat {
    |c.names|
  }

  // ---------------------------------------------------------------------
  // The driver

  /** The answer of one driver call: a value, or an exception with its message. */
  datatype Answer<+T> = Ok(value: T) | Err(message: string)

  /** How the driver behaves during one wrapper call. Each field says what one
      kind of driver call answers; `nonQuery` also receives the position of the
      statement within the wrapper call (0 for a single statement). Closing a
      connection and disposing a connection or transaction never fail. */
  datatype Driver = Driver(
    open: string -> Answer<()>,
    begin: Answer<()>,
    nonQuery: (nat, Command) -> Answer<int>,
    reader: Command -> Answer<Cursor>,
    scalar: Command -> Answer<Value>,
    commit: Answer<()>,
    rollback: Answer<()>)

  /** A call that reached the driver. */
  datatype Event =
    | Open(descriptor: string)
    | Close
    | Begin
    | NonQuery(command: Command)
    | Reader(command: Command)
    | Scalar(command: Command)
    | Commit
    | Rollback
    | DisposeTransaction
    | DisposeConnection
}
