/** Values shared by every part of the model: nullable references, the
    exceptions the wrapper can raise, and results that either return a value
    or throw. */
module Core {

  /** A reference that may be null. */
  datatype Option<+T> = None | Some(value: T)

  /** A .NET string reference: null or a sequence of characters. */
  type NullableString = Option<string>

  /** `string.IsNullOrEmpty`. */
  predicate IsNullOrEmpty(s: NullableString) {
    s.None? || s.value == []
  }

  /** The message carried by a `NullReferenceException`. */
  const NullReferenceMessage: string := "Object reference not set to an instance of an object."

  /** The message carried by an `InvalidCastException`. */
  const InvalidCastMessage: string := "Specified cast is not valid."

  /** The exceptions that can leave a wrapper operation. */
  datatype Exception =
    | DriverError(message: string)   // raised by the database driver
    | NullReference                  // a member access through a null reference
    | InvalidCast                    // the `(T)` conversion in ExecuteScalar
    | General(message: string)       // a plain `System.Exception` thrown by the wrapper itself

  /** `Exception.Message`. */
  function Message(e: Exception): string {
    match e
    case DriverError(m) => m
    case NullReference => NullReferenceMessage
    case InvalidCast => InvalidCastMessage
    case General(m) => m
  }

  /** What a call does from its caller's point of view: it returns a value or throws. */
  datatype Outcome<+T> = Returned(value: T) | Threw(exception: Exception)

  /** A database value as it is passed as a parameter or read from a cursor.
      `Null` is the C# null reference, which the driver's `ExecuteScalar`
      yields for a query without rows; `DbNull` is SQL NULL. */
  datatype Value = Null | DbNull | Integer(i: int) | Text(s: string)
}
