/**
 * The in-band telemetry packet tag: queue and link statistics as 32-bit
 * fields and a lock flag, carried in a tag buffer in host byte order
 * (least significant byte first).
 */
module IntPacketTags {
  import opened ByteCodec

  /** Bytes the tag occupies. */
  const TagSize: nat := 9

  /** The factor the link statistic was multiplied by to make it an integer. */
  const DefaultConversionFactor: bv32 := 10000

  /** The three values a tag carries on the wire. */
  datatype TagFields = TagFields(queue: bv32, link: bv32, lock: bool)

  /** `Serialize`: queue, link, then the lock as one byte. */
  function EncodeTag(f: TagFields): (b: seq<byte>)
    ensures |b| == TagSize
    ensures b[..4] == LittleEndian32(f.queue) && b[4..8] == LittleEndian32(f.link) && b[8] == BoolByte(f.lock)
  {
    LittleEndian32(f.queue) + LittleEndian32(f.link) + [BoolByte(f.lock)]
  }

  /** `Deserialize`: the same order read back. */
  function DecodeTag(b: seq<byte>): (f: TagFields)
    requires |b| >= TagSize
    ensures f.queue == ReadLittleEndian32(b[..4]) && f.link == ReadLittleEndian32(b[4..8])
    ensures f.lock <==> b[8] != 0
  {
    TagFields(ReadLittleEndian32(b[..4]), ReadLittleEndian32(b[4..8]), ByteBool(b[8]))
  }

  /** Reading a written tag restores all three values. */
  lemma TagRoundTrip(f: TagFields)
    ensures DecodeTag(EncodeTag(f)) == f
  {
    LittleEndianRoundTrip(f.queue);
    LittleEndianRoundTrip(f.link);
  }

  /** Nine bytes are rewritten unchanged exactly when their lock byte is 0 or 1. */
  lemma TagReEncode(b: seq<byte>)
    requires |b| == TagSize
    ensures EncodeTag(DecodeTag(b)) == b <==> b[8] <= 1
  {
    LittleEndianReEncode(b[..4]);
    LittleEndianReEncode(b[4..8]);
    var e := EncodeTag(DecodeTag(b));
    if b[8] <= 1 {
      assert e == e[..4] + e[4..8] + [e[8]];
      assert b == b[..4] + b[4..8] + [b[8]];
    } else {
      assert e[8] != b[8];
    }
  }

  /** The link statistic converted back to a utilisation: the statistic over the factor. */
  function LinkConverted(link: nat, conversionFactor: nat): (u: real)
    requires conversionFactor != 0
    ensures u * conversionFactor as real == link as real
    ensures u >= 0.0
  {
    var l: real := link as real;
    var c: real := conversionFactor as real;
    l / c
  }

  class IntPacketTag {
    var queue: bv32
    var link: bv32
    var lock: bool
    var conversionFactor: bv32

    function Fields(): TagFields
      reads this
    {
      TagFields(queue, link, lock)
    }

    /** The member defaults: no statistics, unlocked, factor 10000. */
    constructor ()
      ensures queue == 0 && link == 0 && !lock && conversionFactor == DefaultConversionFactor
    {
      queue, link, lock := 0, 0, false;
      conversionFactor := DefaultConversionFactor;
    }

    /** `GetSerializedSize`: two 32-bit fields and one byte. */
    function SerializedSize(): (n: nat)
      ensures n == 4 + 4 + 1
    {
      TagSize
    }

    method SetQueue(value: bv32)
      modifies this
      ensures queue == value
      ensures link == old(link) && lock == old(lock) && conversionFactor == old(conversionFactor)
    {
      queue := value;
    }

    method SetLink(value: bv32)
      modifies this
      ensures link == value
      ensures queue == old(queue) && lock == old(lock) && conversionFactor == old(conversionFactor)
    {
      link := value;
    }

    method SetLock(value: bool)
      modifies this
      ensures lock == value
      ensures queue == old(queue) && link == old(link) && conversionFactor == old(conversionFactor)
    {
      lock := value;
    }

    method GetQueue() returns (r: bv32)
      ensures r == queue
    {
      r := queue;
    }

    method GetLink() returns (r: bv32)
      ensures r == link
    {
      r := link;
    }

    method GetLock() returns (r: bool)
      ensures r == lock
    {
      r := lock;
    }

    method GetConversionFactor() returns (r: bv32)
      ensures r == conversionFactor
    {
      r := conversionFactor;
    }

    /** `GetLinkConverted`: the link statistic divided by the conversion factor. */
    method GetLinkConverted() returns (u: real)
      requires conversionFactor != 0
      ensures u == LinkConverted(link as nat, conversionFactor as nat)
    {
      u := LinkConverted(link as nat, conversionFactor as nat);
    }

    /** `Serialize`: the tag's bytes. */
    method Serialize() returns (bytes: seq<byte>)
      ensures bytes == EncodeTag(Fields())
      ensures |bytes| == SerializedSize()
    {
      bytes := LittleEndian32(queue);
      bytes := bytes + LittleEndian32(link);
      bytes := bytes + [BoolByte(lock)];
    }

    /** `Deserialize`: reads the three values from the front of `bytes`; the factor is not carried. */
    method Deserialize(bytes: seq<byte>)
      requires |bytes| >= TagSize
      modifies this
      ensures Fields() == DecodeTag(bytes)
      ensures conversionFactor == old(conversionFactor)
    {
      queue := ReadLittleEndian32(bytes[..4]);
      link := ReadLittleEndian32(bytes[4..8]);
      lock := bytes[8] != 0;
    }
  }

  /** A fresh tag's link statistic converts to zero. */
  method FreshTagConvertsToZero() returns (u: real)
    ensures u == 0.0
  {
    var tag := new IntPacketTag();
    u := tag.GetLinkConverted();
  }
}
