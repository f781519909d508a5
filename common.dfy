/** Shared value types: the optional and fallible results the engine returns,
    the one-byte run length of the packed format, and the integer casts the
    engine relies on. */
module Common {

  datatype Option<+T> = None | Some(value: T) {
    /** `Option::unwrap_or` */
    function GetOr(default: T): T {
      match this
      case Some(v) => v
      case None => default
    }
  }

  datatype Result<+T, +E> = Ok(value: T) | Err(error: E)

  /** A run length is stored as one unsigned byte (`u8`). */
  type Byte = x: int | 0 <= x < 256

  /** `n as u8`: keeps the low eight bits of a length. */
  function AsByte(n: nat): (b: Byte)
    ensures n < 256 ==> b == n
    ensures b <= n
  {
    n % 256
  }

  lemma AppendAssoc<T>(a: seq<T>, b: seq<T>, c: seq<T>)
    ensures a + (b + c) == (a + b) + c
  {
  }

  /** A non-empty sequence is its head before its tail. */
  lemma HeadTail<T>(s: seq<T>)
    requires s != []
    ensures s == [s[0]] + s[1..]
  {
  }

  function Min(a: int, b: int): (m: int)
    ensures m <= a && m <= b
    ensures m == a || m == b
  {
    if a <= b then a else b
  }
}
