/** Fixed-width unsigned and signed integers as the C++ code stores them. */
module MachineInts {
  const U16Limit: nat := 0x1_0000
  const U32Limit: nat := 0x1_0000_0000
  const U64Limit: nat := 0x1_0000_0000_0000_0000

  /** The largest `uint32_t`. */
  const U32Max: nat := 0xFFFF_FFFF

  /** Storing an integer into a `uint16_t`: reduction modulo 2^16. */
  function U16(x: int): (r: nat)
    ensures r < U16Limit
    ensures (r - x) % U16Limit == 0
    ensures 0 <= x < U16Limit ==> r == x
  {
    x % U16Limit
  }

  /** Storing an integer into a `uint32_t`: reduction modulo 2^32. */
  function U32(x: int): (r: nat)
    ensures r < U32Limit
    ensures (r - x) % U32Limit == 0
    ensures 0 <= x < U32Limit ==> r == x
  {
    x % U32Limit
  }

  /** Storing an integer into a `uint64_t`: reduction modulo 2^64. */
  function U64(x: int): (r: nat)
    ensures r < U64Limit
    ensures (r - x) % U64Limit == 0
    ensures 0 <= x < U64Limit ==> r == x
  {
    x % U64Limit
  }

  /** Converting a `uint32_t` value to `int`: two's complement reinterpretation. */
  function I32(x: nat): (r: int)
    requires x < U32Limit
    ensures -0x8000_0000 <= r < 0x8000_0000
    ensures U32(r) == x
    ensures x < 0x8000_0000 ==> r == x
  {
    if x < 0x8000_0000 then x else x - U32Limit
  }

  /** C++'s `(int)` of a double: the integer part, truncated toward zero. */
  function TruncateToInt(x: real): (n: int)
    ensures x >= 0.0 ==> 0 <= n && n as real <= x < n as real + 1.0
    ensures x < 0.0 ==> n <= 0 && n as real - 1.0 < x <= n as real
  {
    if x >= 0.0 then x.Floor else -((-x).Floor)
  }

  /** A double the `(uint64_t)` cast is defined on. */
  predicate FitsU64(x: real) { 0.0 <= x < U64Limit as real }

  /** `(uint64_t) x`: truncation toward zero. */
  function ToU64(x: real): (n: nat)
    requires FitsU64(x)
    ensures n < U64Limit
    ensures n as real <= x < n as real + 1.0
  {
    x.Floor
  }

  /** A product with a positive factor is at least the other factor. */
  lemma MulAtLeast(q: nat, d: nat)
    requires d >= 1
    ensures q * d >= q
  {
    var k: nat := d - 1;
    assert q * d == q * k + q;
  }

  /** Dividing by a positive number never increases a natural number. */
  lemma QuotientAtMost(x: nat, d: nat)
    requires d > 0
    ensures x / d <= x
  {
    var q := x / d;
    assert x == q * d + x % d;
    MulAtLeast(q, d);
  }
}
