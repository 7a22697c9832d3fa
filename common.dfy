/** Small value types shared by the response maker and the folder. */
module Common {

  datatype Option<T> = None | Some(value: T)

  /** A C++ `pair`, or a two-element C array read as `[0]` = first, `[1]` = second. */
  datatype Pair<T> = Pair(first: T, second: T)

  /** An opaque pointer to a ROOT object (file, branch); `Null` is `0x0`/`NULL`. */
  datatype Ptr = Null | Ref(id: nat)

  const TWO_32: nat := 0x1_0000_0000
  const TWO_64: nat := 0x1_0000_0000_0000_0000
  const TWO_63: nat := 0x8000_0000_0000_0000

  /** The value an `int64_t` takes when it is stored in a `uint64_t`
      (two's-complement reinterpretation, i.e. reduction modulo 2^64). */
  function ToUint64(x: int): (u: nat)
    ensures u < TWO_64
    ensures 0 <= x < TWO_64 ==> u == x
    ensures -(TWO_63 as int) <= x < 0 ==> u == x + TWO_64
    ensures (u - x) % TWO_64 == 0
  {
    x % TWO_64
  }

  /** The value a `size_t` count takes when it is stored in a `uint32_t`. */
  function ToUint32(n: nat): (u: nat)
    ensures u < TWO_32
    ensures n < TWO_32 ==> u == n
  {
    n % TWO_32
  }
}
