/**
 * The pure helpers of the topology setup: how a bottleneck buffer is split
 * between the device queue and the queue discipline (`splitBufferLen`),
 * and the on/off application pattern record.
 */
module TopologySetup {
  import opened Wrappers
  import opened MachineInts
  import opened Text

  /** `ApplicationPattern`: mean and bound of the on and off periods. */
  datatype ApplicationPattern = ApplicationPattern(onMean: real, onBound: real, offMean: real, offBound: real)

  /** The unit of an ns-3 `QueueSize`. */
  datatype QueueSizeUnit = Packets | Bytes

  /** An ns-3 `QueueSize`: a unit and a `uint32_t` count. */
  datatype QueueSize = QueueSize(unit: QueueSizeUnit, value: nat)

  /** `ceil` of a real, as an integer. */
  function Ceil(x: real): (n: int)
    ensures x <= n as real < x + 1.0
  {
    -((-x).Floor)
  }

  /** `floor(deviceFraction * totalLen)`, stored into an `int`. */
  function DeviceLen(total: int, deviceFraction: real): int {
    (deviceFraction * total as real).Floor
  }

  /** `ceil((1 - deviceFraction) * totalLen)`, stored into an `int`. */
  function QdiscLen(total: int, deviceFraction: real): int {
    Ceil((1.0 - deviceFraction) * total as real)
  }

  /** "p" for a size in packets, "B" otherwise. */
  function UnitSuffix(unit: QueueSizeUnit): string {
    if unit == Packets then "p" else "B"
  }

  /**
   * `splitBufferLen`: the device and queue-discipline sizes as ns-3 size
   * strings, both with the unit of the whole buffer.
   */
  function SplitBufferLen(bufferLen: QueueSize, deviceFraction: real): (r: (string, string))
    requires bufferLen.value < U32Limit
    ensures var total := I32(bufferLen.value);
            r.0 == IntToDecimal(DeviceLen(total, deviceFraction)) + UnitSuffix(bufferLen.unit)
            && r.1 == IntToDecimal(QdiscLen(total, deviceFraction)) + UnitSuffix(bufferLen.unit)
  {
    var totalLen := I32(bufferLen.value);
    var deviceLen := DeviceLen(totalLen, deviceFraction);
    var qdiscLen := QdiscLen(totalLen, deviceFraction);
    var unit := UnitSuffix(bufferLen.unit);
    (IntToDecimal(deviceLen) + unit, IntToDecimal(qdiscLen) + unit)
  }

  /** Computed exactly, the two parts add up to the whole buffer, for any fraction. */
  lemma SplitAddsUp(total: int, deviceFraction: real)
    ensures DeviceLen(total, deviceFraction) + QdiscLen(total, deviceFraction) == total
  {
    var y := deviceFraction * total as real;
    assert (1.0 - deviceFraction) * total as real == total as real - y;
    var d := y.Floor;
    var q := QdiscLen(total, deviceFraction);
    assert total as real - y <= q as real < total as real - y + 1.0;
    assert d as real <= y < d as real + 1.0;
  }

  /** For a fraction in [0, 1], each part lies between nothing and the whole buffer. */
  lemma SplitWithinBuffer(total: nat, deviceFraction: real)
    requires 0.0 <= deviceFraction <= 1.0
    ensures 0 <= DeviceLen(total, deviceFraction) <= total
    ensures 0 <= QdiscLen(total, deviceFraction) <= total
  {
    var y := deviceFraction * total as real;
    assert 0.0 <= y <= total as real by {
      assert total as real - y == (1.0 - deviceFraction) * total as real;
    }
    SplitAddsUp(total, deviceFraction);
  }

  /**
   * Both strings end in the unit's letter ("p" exactly for packets), and
   * what precedes it reads back as the part's size.
   */
  lemma SplitStringsReadBack(bufferLen: QueueSize, deviceFraction: real)
    requires bufferLen.value < 0x8000_0000 && 0.0 <= deviceFraction <= 1.0
    ensures var r := SplitBufferLen(bufferLen, deviceFraction);
            var total := bufferLen.value;
            |r.0| >= 2 && |r.1| >= 2
            && (r.0[|r.0| - 1] == 'p' <==> bufferLen.unit == Packets)
            && (r.1[|r.1| - 1] == 'p' <==> bufferLen.unit == Packets)
            && (r.0[|r.0| - 1] == 'B' <==> bufferLen.unit == Bytes)
            && ParseInt(r.0[..|r.0| - 1]) == Some(DeviceLen(total, deviceFraction))
            && ParseInt(r.1[..|r.1| - 1]) == Some(QdiscLen(total, deviceFraction))
  {
    var r := SplitBufferLen(bufferLen, deviceFraction);
    var total := bufferLen.value;
    SplitWithinBuffer(total, deviceFraction);
    var d: nat := DeviceLen(total, deviceFraction);
    var q: nat := QdiscLen(total, deviceFraction);
    var unit := UnitSuffix(bufferLen.unit);
    assert r.0 == NatToDecimal(d) + unit && r.1 == NatToDecimal(q) + unit;
    assert r.0[..|r.0| - 1] == NatToDecimal(d);
    assert r.1[..|r.1| - 1] == NatToDecimal(q);
    ParseIntOfDecimal(d);
    ParseIntOfDecimal(q);
  }
}
