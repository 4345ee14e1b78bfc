/** The error values the core returns, and their `Error()` texts where the
    protocol forwards them (a job's status is its error's text). */
module Errors {

  import opened Bytes

  datatype Error =
    | InvalidResponseType        // ErrInvalidResposeType: a frame without ':'
    | ClosedPipe                 // io.ErrClosedPipe: a write after close
    | EOF                        // io.EOF: a read after close and drain
    | WriteOnReadonlyStream      // ErrWriteOnReadonlyStream
    | ReadOnWriteonlyStream      // ErrReadOnWriteonlyStream
    | NilConnectionPool          // ErrNilConnectionPool
    | NotImplemented             // fmt.Errorf("Not implemented")
    | NoSuchJob(name: Bytes)     // fmt.Errorf("No such job: %s", name)
    | StatusLookup(cause: Error) // fmt.Errorf("Error getting job status: %s", err)
    | ShortArray                 // redigo's Scan of an odd number of values
    | NilReply                   // redigo's ErrNil: a missing value where a string was expected
    | Transport(reason: Bytes)   // the connection to the broker failed
    | WrongType                  // broker: the key holds another kind of value
    | WrongArity                 // broker: wrong number of arguments
    | NotInteger                 // broker: the index argument is not a number
    | Handler(text: Bytes)       // an error returned by a job handler

  /** `err.Error()`. */
  function Message(e: Error): Bytes
  {
    match e
    case InvalidResponseType => Ascii("Invalid response type")
    case ClosedPipe => Ascii("io: read/write on closed pipe")
    case EOF => Ascii("EOF")
    case WriteOnReadonlyStream => Ascii("Cannot write on readonly stream")
    case ReadOnWriteonlyStream => Ascii("Cannot read on writeonly stream")
    case NilConnectionPool => Ascii("Connection pool cannot be nil")
    case NotImplemented => Ascii("Not implemented")
    case NoSuchJob(name) => Ascii("No such job: ") + name
    case StatusLookup(cause) => Ascii("Error getting job status: ") + Message(cause)
    case ShortArray => Ascii("redigo.Scan: array short")
    case NilReply => Ascii("redigo: nil returned")
    case Transport(reason) => reason
    case WrongType => Ascii("WRONGTYPE Operation against a key holding the wrong kind of value")
    case WrongArity => Ascii("ERR wrong number of arguments")
    case NotInteger => Ascii("ERR value is not an integer or out of range")
    case Handler(text) => text
  }
}
