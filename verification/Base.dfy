/** Small shared vocabulary: bytes, optional values, and sequences of equal elements. */
module Base {

  newtype byte = b: int | 0 <= b < 256

  datatype Option<+T> = None | Some(value: T)

  /** n copies of x. */
  function Repeat<T>(x: T, n: nat): (r: seq<T>)
    ensures |r| == n
    ensures forall i :: 0 <= i < n ==> r[i] == x
  {
    seq(n, _ => x)
  }

  /** The bit of `flags` worth `mask`, where mask is a power of two. */
  predicate HasFlag(flags: byte, mask: nat)
    requires mask > 0
  {
    (flags as nat / mask) % 2 == 1
  }
}
