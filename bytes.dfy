/**
 * Unsigned 32-bit fields on the wire: network byte order (most significant
 * byte first, as a header's buffer iterator writes them) and least
 * significant byte first (as ns-3's `TagBuffer::WriteU32` writes a packet
 * tag's fields, shifting out one byte at a time whatever the host's order).
 */
module ByteCodec {
  type byte = bv8

  /** The four bytes of `x`, most significant first. */
  function BigEndian32(x: bv32): (b: seq<byte>)
    ensures |b| == 4
  {
    [(x >> 24) as byte, ((x >> 16) & 0xFF) as byte, ((x >> 8) & 0xFF) as byte, (x & 0xFF) as byte]
  }

  /** The value of four bytes, most significant first. */
  function ReadBigEndian32(b: seq<byte>): bv32
    requires |b| >= 4
  {
    (b[0] as bv32 << 24) | (b[1] as bv32 << 16) | (b[2] as bv32 << 8) | b[3] as bv32
  }

  /** The four bytes of `x`, least significant first. */
  function LittleEndian32(x: bv32): (b: seq<byte>)
    ensures |b| == 4
  {
    [(x & 0xFF) as byte, ((x >> 8) & 0xFF) as byte, ((x >> 16) & 0xFF) as byte, (x >> 24) as byte]
  }

  /** The value of four bytes, least significant first. */
  function ReadLittleEndian32(b: seq<byte>): bv32
    requires |b| >= 4
  {
    b[0] as bv32 | (b[1] as bv32 << 8) | (b[2] as bv32 << 16) | (b[3] as bv32 << 24)
  }

  lemma BigEndianRoundTrip(x: bv32)
    ensures ReadBigEndian32(BigEndian32(x)) == x
  {
  }

  lemma BigEndianReEncode(b: seq<byte>)
    requires |b| == 4
    ensures BigEndian32(ReadBigEndian32(b)) == b
  {
  }

  lemma LittleEndianRoundTrip(x: bv32)
    ensures ReadLittleEndian32(LittleEndian32(x)) == x
  {
  }

  lemma LittleEndianReEncode(b: seq<byte>)
    requires |b| == 4
    ensures LittleEndian32(ReadLittleEndian32(b)) == b
  {
  }

  /** The two byte orders are each other's reversal. */
  lemma OrdersAreReversed(x: bv32)
    ensures
      var be := BigEndian32(x);
      var le := LittleEndian32(x);
      be == [le[3], le[2], le[1], le[0]]
  {
  }

  /** How a `bool` is written as one byte. */
  function BoolByte(v: bool): (b: byte)
    ensures b <= 1 && (b == 1 <==> v)
  {
    if v then 1 else 0
  }

  /** How one byte is read back into a `bool`: any non-zero byte is true. */
  function ByteBool(b: byte): bool {
    b != 0
  }
}
