/** The failures the decoders, the layout code and the comparison tools can raise.
    Each constructor stands for one Python exception raised by the save-file tools;
    a decoder returns `Err` where the Python code raises. */
module Errors {

  datatype Error =
    | NoData                               // ValueError: the buffer is empty
    | UnrecognizedFileType                 // Exception: the `COLONIZE\0` marker is missing
    | WrongLength(expected: nat, actual: nat) // ValueError: a record slice has the wrong size
    | IndexOutOfRange(index: int)          // IndexError: a byte index past the buffer
    | UnknownCode(offset: int, code: int)  // KeyError: a byte missing from an inverted code table
    | NotAscii(position: nat)              // UnicodeDecodeError: `bytes.decode('ascii')` failed
    | NoMatch(code: int)                   // StopIteration: `next(...)` found no table entry
    | UnsupportedView(view: int)           // ValueError: `Map.display` got an unknown view
    | DifferentMapSize                     // ValueError: the two maps have different dimensions
    | DifferentFileSizes                   // ValueError: the two buffers have different lengths
    | DivisionByZero                       // ZeroDivisionError: map width 0 in a map position
    | LengthAssertion                      // AssertionError: `byte_compare` got unequal lengths

  datatype Option<+T> = None | Some(value: T)

  /** A decoded value or the failure that stopped decoding; usable with `:-`. */
  datatype Result<+T> = Ok(value: T) | Err(error: Error) {
    predicate IsFailure() { Err? }
    function PropagateFailure<U>(): Result<U> requires Err? { Err(error) }
    function Extract(): T requires Ok? { value }
  }

  /** What a Python loop that appends one item per round has appended after some rounds,
      and the exception that stopped it, if one did. */
  datatype Run<+T> = Run(appended: seq<T>, failure: Option<Error>)

  /** One more round of such a loop: nothing happens once a round has raised; otherwise
      the round either appends its item or raises. */
  function Extend<T>(run: Run<T>, next: Result<T>): Run<T>
  {
    if run.failure.Some? then run
    else match next
      case Ok(item) => Run(run.appended + [item], None)
      case Err(e) => Run(run.appended, Some(e))
  }
}
