/** Optional values, fallible results and a sequence helper shared by the other modules. */
module Common {

  /** Python's `None` or a value. */
  datatype Option<+T> = None | Some(value: T) {
    function GetOr(default: T): T {
      match this
      case Some(v) => v
      case None => default
    }
  }

  /** The value a call returns, or the exception it raises. */
  datatype Result<+R, +E> = Ok(value: R) | Err(error: E)

  /** `s` written `n` times in a row: what a loop that repeats `s` leaves behind. */
  function Repeat<T>(s: seq<T>, n: nat): seq<T>
  {
    if n == 0 then [] else Repeat(s, n - 1) + s
  }
}
