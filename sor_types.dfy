/** Bytes, the errors a SOR decode can end in, and the result types every reader returns. */
module SorTypes {

  /** One byte of the input file. */
  type Byte = b: int | 0 <= b < 256

  /** A run of bytes; text fields of a SOR file are kept as bytes (no UTF-8/ASCII decoding). */
  type Bytes = seq<Byte>

  /** The hard errors of a decode; each one aborts the whole document. */
  datatype Error =
    | Truncated                                     // a field read ran past the end of the input
    | BlockNameMismatch(expected: Bytes, found: Bytes) // a V2 block does not start with "<Name>\0"
    | UnsupportedFiberType(code: int)               // FiberType(code) with code outside 651..657
    | UnsupportedEventType(subtype: Byte)           // EventType(int(c)) with c not '0', '1' or '2'
    | UnsupportedEventMode(mode: Byte)              // EventModeType(c) with c not one of A E F M D
    | NoDataPoints                                  // min()/max() of a DataPts block with no samples

  /** The two generations of the format: version 2 blocks start with their own name. */
  datatype Version = V1 | V2

  datatype Option<+T> = None | Some(value: T)

  datatype Result<+T> = Ok(value: T) | Err(error: Error) {
    predicate IsFailure() { Err? }
    function PropagateFailure<U>(): Result<U> requires Err? { Err(error) }
    function Extract(): T requires Ok? { value }
  }

  /** A decoded value together with the cursor position just past it. */
  datatype Parsed<+T> = Parsed(value: T, next: nat)

  /** Forgets where a successful read ended. */
  function ValueOf<T>(r: Result<Parsed<T>>): Result<T> {
    match r
    case Ok(p) => Ok(p.value)
    case Err(e) => Err(e)
  }

  /** No byte of `s` is the string terminator 0x00. */
  predicate NoZero(s: Bytes) {
    forall i | 0 <= i < |s| :: s[i] != 0
  }

  /** No terminator occurs in `data` at or after `pos`. */
  predicate NoZeroFrom(data: Bytes, pos: nat) {
    forall k | pos <= k < |data| :: data[k] != 0
  }

  function Min(a: int, b: int): int { if a <= b then a else b }

  function Max(a: int, b: int): int { if a >= b then a else b }

  lemma Associate<T>(a: seq<T>, b: seq<T>, c: seq<T>)
    ensures a + b + c == a + (b + c)
  {
  }
}
