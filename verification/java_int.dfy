/** Java's 32-bit `int` and the hash functions of `java.lang.String` and `java.util.Objects`. */
module JavaInt {

  const TwoTo32: int := 0x1_0000_0000

  /** A Java `int`: two's complement, 32 bits. */
  newtype Int32 = x: int | -0x8000_0000 <= x < 0x8000_0000

  /** The `int` that Java arithmetic yields for the mathematical value `x`: `x` modulo 2^32, read as signed. */
  function Wrap(x: int): (r: Int32)
    ensures (r as int - x) % TwoTo32 == 0
    ensures -0x8000_0000 <= x < 0x8000_0000 ==> r as int == x
  {
    var m := x % TwoTo32;
    assert x == (x / TwoTo32) * TwoTo32 + m;
    if m < 0x8000_0000 then m as Int32 else (m - TwoTo32) as Int32
  }

  /**
   * `String.hashCode`: h = 31 * h + c for each character in order, in `int` arithmetic.
   * A character counts as its code point (see README for characters outside the BMP).
   */
  function StringHash(s: string): Int32
  {
    if s == [] then 0 else Wrap(31 * StringHash(s[..|s| - 1]) as int + s[|s| - 1] as int)
  }

  /** `Objects.hash(i, s)` for an `Integer` and a non-null `String`: result = 1, then result = 31 * result + hash, per element. */
  function ObjectsHash(i: Int32, s: string): Int32
  {
    var afterInt := Wrap(31 * 1 + i as int);
    Wrap(31 * afterInt as int + StringHash(s) as int)
  }
}
