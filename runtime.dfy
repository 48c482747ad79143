/** Stand-ins for the .NET runtime values that the BioLens core passes around:
    nullable references, identifiers, clock readings, byte buffers and the
    exceptions whose messages end up in traces and error texts. */
module Runtime {

  /** A nullable reference or nullable value: `None` is `null`. */
  datatype Option<+T> = None | Some(value: T) {
    /** The `??` operator. */
    function GetOr(default: T): T {
      if Some? then value else default
    }
  }

  /** A `Guid` in its canonical textual form. `Guid.NewGuid()` is not modelled:
      the caller supplies the fresh value. */
  datatype Guid = Guid(text: string)

  /** A reading of `DateTimeOffset.UtcNow`, supplied by the caller. */
  datatype Timestamp = Timestamp(ticks: int)

  type Byte = b: int | 0 <= b < 256
  type Bytes = seq<Byte>

  /** The exceptions the core raises, catches or turns into text. The ones whose
      message the runtime fixes carry no message of their own. */
  datatype Exception =
    | NullReference
    | ArgumentNull(paramName: string)
    | ArgumentOutOfRange
    | KeyNotFound(message: string)
    | InvalidOperation(message: string)
    | HttpRequest(message: string)
    | TaskCanceled(message: string)
    | TimeoutRejected(message: string)
    | BrokenCircuit(message: string)
    | JsonFailure(message: string)
    | Unexpected(typeName: string, message: string)
  {
    /** `Exception.Message`. */
    function Message(): string {
      match this
      case NullReference => "Object reference not set to an instance of an object."
      case ArgumentNull(p) => "Value cannot be null. (Parameter '" + p + "')"
      case ArgumentOutOfRange =>
        "Index was out of range. Must be non-negative and less than the size of the collection. (Parameter 'index')"
      case KeyNotFound(m) => m
      case InvalidOperation(m) => m
      case HttpRequest(m) => m
      case TaskCanceled(m) => m
      case TimeoutRejected(m) => m
      case BrokenCircuit(m) => m
      case JsonFailure(m) => m
      case Unexpected(_, m) => m
    }
  }

  /** The message of the `KeyNotFoundException` that a `Dictionary` indexer
      raises for a missing key. */
  function MissingKey(key: string): (e: Exception)
    ensures e.KeyNotFound?
  {
    KeyNotFound("The given key '" + key + "' was not present in the dictionary.")
  }
}
