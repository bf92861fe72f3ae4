/** Small shared vocabulary: octets, optional values, powers of two. */
module Common {

  /** One octet as it travels on the SPI wire. */
  type byte = x: int | 0 <= x < 256

  datatype Option<+T> = None | Some(value: T)

  /** 2^n. */
  function Pow2(n: nat): (r: nat)
    ensures r >= 1
  {
    if n == 0 then 1 else 2 * Pow2(n - 1)
  }

  /** The octet a MicroPython `bytearray` stores when an int is appended to it:
      the low eight bits, with no range check (so -1 becomes 0xFF). */
  function Wire8(v: int): (r: byte)
    ensures (v - r) % 256 == 0
    ensures 0 <= v < 256 ==> r == v
  {
    v % 256
  }

  /** `n` copies of `b`. */
  function Repeat(b: byte, n: nat): (r: seq<byte>)
    ensures |r| == n && forall k :: 0 <= k < n ==> r[k] == b
  {
    seq(n, _ => b)
  }

  lemma {:induction false} Pow2Monotone(a: nat, b: nat)
    requires a < b
    ensures 2 * Pow2(a) <= Pow2(b)
    decreases b
  {
    if a + 1 < b {
      Pow2Monotone(a, b - 1);
    }
  }
}
