/**
 * The in-band telemetry header carried on point-to-point links: queue and
 * link statistics as two 32-bit fields in network byte order and a lock
 * flag byte, nine bytes in all.
 */
module IntHeaders {
  import opened ByteCodec

  /** Bytes the header occupies. */
  const HeaderSize: nat := 9

  /** The three values a header carries. */
  datatype IntFields = IntFields(queue: bv32, link: bv32, lock: bool)

  /** `Serialize`: queue and link most significant byte first, then the lock as one byte. */
  function EncodeHeader(f: IntFields): (b: seq<byte>)
    ensures |b| == HeaderSize
    ensures b[..4] == BigEndian32(f.queue) && b[4..8] == BigEndian32(f.link) && b[8] == BoolByte(f.lock)
  {
    BigEndian32(f.queue) + BigEndian32(f.link) + [BoolByte(f.lock)]
  }

  /** `Deserialize`: the same layout read back from the first nine bytes. */
  function DecodeHeader(b: seq<byte>): (f: IntFields)
    requires |b| >= HeaderSize
    ensures f.queue == ReadBigEndian32(b[..4]) && f.link == ReadBigEndian32(b[4..8])
    ensures f.lock <==> b[8] != 0
  {
    IntFields(ReadBigEndian32(b[..4]), ReadBigEndian32(b[4..8]), ByteBool(b[8]))
  }

  /** Reading a written header restores all three values. */
  lemma HeaderRoundTrip(f: IntFields)
    ensures DecodeHeader(EncodeHeader(f)) == f
  {
    var b := EncodeHeader(f);
    BigEndianRoundTrip(f.queue);
    BigEndianRoundTrip(f.link);
  }

  /** Nine bytes are rewritten unchanged exactly when their lock byte is 0 or 1. */
  lemma HeaderReEncode(b: seq<byte>)
    requires |b| == HeaderSize
    ensures EncodeHeader(DecodeHeader(b)) == b <==> b[8] <= 1
  {
    var f := DecodeHeader(b);
    BigEndianReEncode(b[..4]);
    BigEndianReEncode(b[4..8]);
    var e := EncodeHeader(f);
    if b[8] <= 1 {
      assert e[..4] == b[..4] && e[4..8] == b[4..8] && e[8] == b[8];
      assert e == e[..4] + e[4..8] + [e[8]];
      assert b == b[..4] + b[4..8] + [b[8]];
    } else {
      assert e[8] != b[8];
    }
  }

  /** The header of a point-to-point link's packets. */
  class IntHeader {
    var queue: bv32
    var link: bv32
    var lock: bool
    /** Whether each field has been given a value; the constructor leaves them unset. */
    ghost var queueSet: bool
    ghost var linkSet: bool
    ghost var lockSet: bool

    function Fields(): IntFields
      reads this
    {
      IntFields(queue, link, lock)
    }

    ghost predicate Complete()
      reads this
    {
      queueSet && linkSet && lockSet
    }

    constructor ()
      ensures !queueSet && !linkSet && !lockSet
    {
      queueSet, linkSet, lockSet := false, false, false;
    }

    /** `GetSerializedSize`: two 32-bit fields and one byte. */
    function SerializedSize(): (n: nat)
      ensures n == 4 + 4 + 1
    {
      HeaderSize
    }

    method SetQueue(value: bv32)
      modifies this
      ensures queue == value && queueSet
      ensures link == old(link) && lock == old(lock) && linkSet == old(linkSet) && lockSet == old(lockSet)
    {
      queue := value;
      queueSet := true;
    }

    method SetLink(value: bv32)
      modifies this
      ensures link == value && linkSet
      ensures queue == old(queue) && lock == old(lock) && queueSet == old(queueSet) && lockSet == old(lockSet)
    {
      link := value;
      linkSet := true;
    }

    method SetLock(value: bool)
      modifies this
      ensures lock == value && lockSet
      ensures queue == old(queue) && link == old(link) && queueSet == old(queueSet) && linkSet == old(linkSet)
    {
      lock := value;
      lockSet := true;
    }

    method GetQueue() returns (r: bv32)
      ensures r == queue
    {
      r := queue;
    }

    method GetLink() returns (r: bv32)
      ensures r == link
    {
      r := link;
    }

    method GetLock() returns (r: bool)
      ensures r == lock
    {
      r := lock;
    }

    /** `Serialize`: the wire form of the header; every field must have been set. */
    method Serialize() returns (bytes: seq<byte>)
      requires Complete()
      ensures bytes == EncodeHeader(Fields())
      ensures |bytes| == SerializedSize()
    {
      bytes := BigEndian32(queue);
      bytes := bytes + BigEndian32(link);
      bytes := bytes + [BoolByte(lock)];
    }

    /** `Deserialize`: reads the fields from the front of `bytes` and returns the bytes consumed. */
    method Deserialize(bytes: seq<byte>) returns (consumed: nat)
      requires |bytes| >= HeaderSize
      modifies this
      ensures Fields() == DecodeHeader(bytes) && Complete()
      ensures consumed == SerializedSize()
    {
      queue := ReadBigEndian32(bytes[..4]);
      link := ReadBigEndian32(bytes[4..8]);
      lock := bytes[8] != 0;
      queueSet, linkSet, lockSet := true, true, true;
      consumed := SerializedSize();
    }
  }

  /** Writing a header and reading it into another restores its fields. */
  method RoundTrip(sent: IntHeader) returns (received: IntHeader)
    requires sent.Complete()
    ensures received.Fields() == sent.Fields()
  {
    var bytes := sent.Serialize();
    received := new IntHeader();
    var _ := received.Deserialize(bytes);
    HeaderRoundTrip(sent.Fields());
  }
}
