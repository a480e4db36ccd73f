/** Shared vocabulary of the DPScope model: bytes, the exceptions the driver
    raises, and failure-compatible result types. */
module Common {

  /** One octet on the serial link. */
  type Byte = b: int | 0 <= b < 256

  datatype Option<+T> = None | Some(value: T)

  /** Why a CommsException was raised. */
  datatype CommsFault =
    | AckMismatch           // the echoed byte is not the opcode
    | TrailingBytes(n: nat) // unread bytes after the exchange
    | WrongShape            // a reply does not hold two values
    | DeviceFault           // a command the fake device was told to fail

  /** The exceptions of the driver, one constructor per Python exception kind,
      and `NoDataYet`, which is not one: it ends a readback script that runs out
      before a block arrives, where the source's poll loop would wait forever. */
  datatype Error =
    | CommandError              // CommandException: wrong argument count
    | CommsError(fault: CommsFault)
    | StructError               // struct.error: value does not fit, wrong item count, short read
    | ValueError                // ValueError (chr out of range, unknown option)
    | UnicodeError              // UnicodeEncodeError / UnicodeDecodeError
    | TypeError
    | AttributeError
    | AssertionError
    | KeyError
    | ZeroDivisionError
    | SerialError               // serial.SerialException: port already open
    | GainError                 // GainException
    | TriggerSettingsError      // TriggerSettingsException
    | ResolutionSettingsError   // ResolutionSettingsException
    | InvalidPollType
    | ConcurrentError           // ConcurrentException
    | NoDataYet                 // not a Python exception: the scripted device has no block left

  datatype Result<+T> = Ok(value: T) | Err(error: Error) {
    predicate IsFailure() { Err? }
    function PropagateFailure<U>(): Result<U>
      requires Err?
    {
      Err(error)
    }
    function Extract(): T
      requires Ok?
    {
      value
    }
  }

  /** A result without a value. */
  datatype Outcome = Pass | Fail(error: Error) {
    predicate IsFailure() { Fail? }
    function PropagateFailure<U>(): Result<U>
      requires Fail?
    {
      Err(error)
    }
  }

  function Min(a: int, b: int): int { if a <= b then a else b }

  /** Concatenation regroups: the log after two steps is the log before plus
      both steps' commands. */
  lemma AppendAssoc<T>(a: seq<T>, b: seq<T>, c: seq<T>)
    ensures a + b + c == a + (b + c)
  {
  }
}
