/**
 * The Remy congestion controller of one connection: it feeds one sample per
 * acknowledgement into its memory, looks up the rule whose domain holds the
 * memory, and applies that rule's window law and pacing interval.
 */
module TcpRemyControl {
  import opened Wrappers
  import opened MachineInts
  import opened Packets
  import opened RemyMemory
  import opened Whiskers
  import MemoryRanges
  import opened TcpSockets

  /** Largest window, in segments, the controller ever sets. */
  const WindowCap: nat := 16384

  /** What a rule decides: the window in segments and the intersend time. */
  datatype Decision = Decision(cwnd: nat, intersendTime: real)

  /**
   * The decision a rule makes for a previous window and a receive average:
   * the rule's window, capped; and the rule's intersend scaled by the
   * average (memory field 1).
   */
  function Decide(w: Whisker, previous: nat, recRecEwma: real): (d: Decision)
    ensures d.cwnd <= WindowCap
    ensures d.cwnd == w.Window(previous) || (d.cwnd == WindowCap && w.Window(previous) > WindowCap)
    ensures d.intersendTime == w.intersend * recRecEwma
  {
    var window := w.Window(previous);
    Decision(if window > WindowCap then WindowCap else window, w.intersend * recRecEwma)
  }

  /**
   * The pacing rate for one segment every `intersendTime` microseconds:
   * the quotient in bits per second, cut to whole bits per second as it
   * is converted to the integer a `DataRate` holds.
   */
  function PacingRate(segmentSize: nat, intersendTime: real): (rate: int)
    requires intersendTime != 0.0
    ensures var bits := (segmentSize * 8 * 1000000) as real;
            intersendTime > 0.0 ==>
              0 <= rate && rate as real * intersendTime <= bits < (rate + 1) as real * intersendTime
  {
    var bits := (segmentSize * 8 * 1000000) as real;
    var rate := TruncateToInt(bits / intersendTime);
    if intersendTime > 0.0 then
      ScaledQuotient(bits, intersendTime, rate);
      rate
    else rate
  }

  /** An integer within one of a quotient, scaled back by the positive divisor. */
  lemma ScaledQuotient(x: real, t: real, n: int)
    requires t > 0.0 && n as real <= x / t < n as real + 1.0
    ensures (n as real) * t <= x < ((n + 1) as real) * t
  {
    var q := x / t;
    var m := (n + 1) as real;
    assert q * t == x;
    ScaleBy(n as real, q, t);
    ScaleBy(q, m, t);
    assert x < m * t;
  }

  /** Scaling by a positive factor keeps the order of two reals. */
  lemma ScaleBy(a: real, b: real, t: real)
    requires t > 0.0
    ensures a <= b ==> a * t <= b * t
    ensures a < b ==> a * t < b * t
  {
  }

  /** What applying a decision does to the socket: window in bytes, pacing switch and rate. */
  function Applied(v: SocketView, d: Decision): (r: SocketView)
    ensures r.cWnd < U32Limit && (d.cwnd * v.segmentSize < U32Limit ==> r.cWnd == d.cwnd * v.segmentSize)
    ensures r.pacing <==> d.intersendTime != 0.0
    ensures r.pacing ==> r.pacingRate == PacingRate(v.segmentSize, d.intersendTime)
    ensures !r.pacing ==> r.pacingRate == v.pacingRate
    ensures r.(cWnd := v.cWnd, pacing := v.pacing, pacingRate := v.pacingRate) == v
  {
    v.(cWnd := U32(d.cwnd * v.segmentSize),
       pacing := d.intersendTime != 0.0,
       pacingRate := if d.intersendTime == 0.0 then v.pacingRate else PacingRate(v.segmentSize, d.intersendTime))
  }

  /** The sample's sequence number: acknowledged bytes over segment size, as a C `int`. */
  function RemySeqNo(lastAckedSeq: nat, segmentSize: nat): (n: int)
    requires lastAckedSeq < U32Limit && segmentSize > 0
    ensures lastAckedSeq < 0x8000_0000 ==> n == lastAckedSeq / segmentSize
    ensures U32(n) == lastAckedSeq / segmentSize
  {
    var q: nat := lastAckedSeq / segmentSize;
    QuotientAtMost(lastAckedSeq, segmentSize);
    I32(q)
  }

  /**
   * The sample fed into the memory on an acknowledgement: sent `rtt`
   * before its delivery, received at delivery (both in microseconds).
   */
  function AckSample(deliveredNs: real, echoNs: real, seqNo: int, intQueue: nat, intLink: nat): (p: RemyPacket)
    ensures Rtt(p) == echoNs / 1000.0
    ensures p.tickReceived == deliveredNs / 1000.0 && p.seqNo == seqNo as real
    ensures p.queueStat == intQueue as real && p.linkStat == intLink as real
  {
    var rtt := echoNs / 1000.0;
    RemyPacket(deliveredNs / 1000.0 - rtt, deliveredNs / 1000.0, seqNo as real, intQueue as real, intLink as real)
  }

  /** The acknowledgement counters: the data latch, the number of acks that acked data, and the last count. */
  datatype AckCounters = AckCounters(pktsAcked: bool, pkts: int, acks: int)

  /** `PktsAcked`: how the counters move on an acknowledgement of `segmentsAcked` segments. */
  function CountAck(c: AckCounters, segmentsAcked: nat): (r: AckCounters)
    requires segmentsAcked < U32Limit
    ensures r.pktsAcked <==> c.pktsAcked || segmentsAcked != 0
    ensures r.pkts == if segmentsAcked > 0 then c.pkts + 1 else c.pkts
    ensures U32(r.acks) == segmentsAcked
  {
    AckCounters(
      if !c.pktsAcked && segmentsAcked == 0 then false else true,
      if segmentsAcked > 0 then c.pkts + 1 else c.pkts,
      I32(segmentsAcked))
  }

  /** The data latch never resets: once set, any sequence of acknowledgements leaves it set. */
  lemma {:induction false} LatchStaysSet(c: AckCounters, acks: seq<nat>)
    requires c.pktsAcked
    requires forall k :: 0 <= k < |acks| ==> acks[k] < U32Limit
    ensures CountAll(c, acks).pktsAcked
    decreases |acks|
  {
    if acks != [] {
      LatchStaysSet(CountAck(c, acks[0]), acks[1..]);
    }
  }

  /** A run of acknowledgements, in order. */
  function CountAll(c: AckCounters, acks: seq<nat>): AckCounters
    requires forall k :: 0 <= k < |acks| ==> acks[k] < U32Limit
    decreases |acks|
  {
    if acks == [] then c else CountAll(CountAck(c, acks[0]), acks[1..])
  }

  /** After a run of acknowledgements the latch is set exactly when it was, or some ack carried data. */
  lemma {:induction false} LatchIff(c: AckCounters, acks: seq<nat>)
    requires forall k :: 0 <= k < |acks| ==> acks[k] < U32Limit
    ensures CountAll(c, acks).pktsAcked <==> c.pktsAcked || exists k :: 0 <= k < |acks| && acks[k] != 0
    decreases |acks|
  {
    if acks != [] {
      LatchIff(CountAck(c, acks[0]), acks[1..]);
      assert forall k :: 1 <= k < |acks| ==> acks[k] == acks[1..][k - 1];
      if CountAll(c, acks).pktsAcked && !c.pktsAcked && acks[0] == 0 {
        var k :| 0 <= k < |acks[1..]| && acks[1..][k] != 0;
        assert acks[k + 1] != 0;
      }
    }
  }

  /** The Remy congestion-control state of a connection. */
  class TcpRemy {
    /** The rule table, looked up by first match. */
    const whiskers: seq<Whisker>
    /** The connection's memory, updated in place. */
    const memory: Memory
    var intersendTime: real
    /** Set once an acknowledgement has acknowledged data. */
    var pktsAcked: bool
    /** Window in segments. */
    var cwnd: nat
    var acks: int
    var pkts: int
    var isIdle: bool

    /** The constructor with the rule table already loaded; the memory has `datasize` active axes. */
    constructor (whiskers: seq<Whisker>, datasize: nat)
      ensures this.whiskers == whiskers && fresh(memory) && memory.Snapshot() == Zero(datasize)
      ensures !pktsAcked && acks == 0 && pkts == 0 && !isIdle
    {
      this.whiskers := whiskers;
      memory := new Memory(datasize);
      pktsAcked := false;
      acks, pkts := 0, 0;
      isIdle := false;
    }

    /** `GetName`. */
    function Name(): (s: string)
      ensures s == "TcpRemy"
    {
      "TcpRemy"
    }

    /**
     * `update_cwnd_and_pacing`: applies the rule whose domain holds the
     * memory. `ok` is false when no rule's domain holds it (the lookup fails
     * there and nothing is changed).
     */
    method UpdateCwndAndPacing(tcb: TcpSocketState) returns (ok: bool)
      modifies this, tcb
      ensures ok <==> UseWhisker(whiskers, memory.Snapshot()).Some?
      ensures !ok ==> cwnd == old(cwnd) && intersendTime == old(intersendTime) && tcb.View() == old(tcb.View())
      ensures ok ==>
        var d := Decide(whiskers[UseWhisker(whiskers, memory.Snapshot()).value], old(cwnd), memory.stats.Field(1));
        && cwnd == d.cwnd && intersendTime == d.intersendTime
        && tcb.View() == Applied(old(tcb.View()), d)
      ensures pktsAcked == old(pktsAcked) && acks == old(acks) && pkts == old(pkts) && isIdle == old(isIdle)
    {
      var found := UseWhisker(whiskers, memory.Snapshot());
      if found.None? {
        return false;
      }
      var current := whiskers[found.value];
      var newCwnd := current.Window(cwnd);
      if newCwnd > WindowCap {
        newCwnd := WindowCap;
      }
      cwnd := newCwnd;
      tcb.cWnd := U32(newCwnd * tcb.segmentSize);
      intersendTime := current.intersend * memory.stats.Field(1);
      if intersendTime == 0.0 {
        tcb.pacing := false;
      } else {
        tcb.pacing := true;
        tcb.pacingRate := PacingRate(tcb.segmentSize, intersendTime);
      }
      ok := true;
    }

    /** `IncreaseWindow`: the window is driven by `CongControl` only, so nothing changes. */
    method IncreaseWindow(tcb: TcpSocketState, segmentsAcked: nat)
      ensures tcb.View() == old(tcb.View())
    {
    }

    /** `CongestionStateSet`: nothing changes. */
    method CongestionStateSet(tcb: TcpSocketState)
      ensures tcb.View() == old(tcb.View())
    {
    }

    /** `GetSsThresh`: the threshold the stack already has. */
    method GetSsThresh(tcb: TcpSocketState, bytesInFlight: nat) returns (r: nat)
      ensures r == tcb.ssThresh
    {
      r := tcb.ssThresh;
    }

    /** `NotifyIdle`: records whether the connection is idle. */
    method NotifyIdle(idle: bool)
      modifies this
      ensures isIdle == idle
      ensures pktsAcked == old(pktsAcked) && cwnd == old(cwnd) && acks == old(acks) && pkts == old(pkts)
      ensures intersendTime == old(intersendTime)
    {
      isIdle := idle;
    }

    /** `PktsAcked`: updates the acknowledgement counters and the data latch. */
    method PktsAcked(tcb: TcpSocketState, segmentsAcked: nat)
      requires segmentsAcked < U32Limit
      modifies this
      ensures AckCounters(pktsAcked, pkts, acks) == CountAck(old(AckCounters(pktsAcked, pkts, acks)), segmentsAcked)
      ensures cwnd == old(cwnd) && isIdle == old(isIdle) && intersendTime == old(intersendTime)
    {
      acks := I32(segmentsAcked);
      pkts := if segmentsAcked > 0 then pkts + 1 else pkts;
      pktsAcked := if !pktsAcked && segmentsAcked == 0 then false else true;
    }

    /**
     * `Reset`: empties the memory, restarts the window and the latch,
     * applies the rule for the empty memory, and records the resulting
     * window in segments as the initial window.
     */
    method Reset(tcb: TcpSocketState) returns (ok: bool)
      requires tcb.segmentSize > 0
      modifies this, tcb, memory
      ensures memory.Snapshot() == Zero(memory.datasize)
      ensures !pktsAcked && acks == old(acks) && pkts == old(pkts) && isIdle == old(isIdle)
      ensures ok <==> UseWhisker(whiskers, Zero(memory.datasize)).Some?
      ensures !ok ==> cwnd == 0 && intersendTime == old(intersendTime) && tcb.View() == old(tcb.View())
      ensures ok ==>
        var d := Decide(whiskers[UseWhisker(whiskers, Zero(memory.datasize)).value], 0, 0.0);
        var applied := Applied(old(tcb.View()), d);
        && cwnd == d.cwnd && intersendTime == d.intersendTime
        && tcb.View() == applied.(initialCWnd := applied.cWnd / applied.segmentSize)
    {
      memory.Reset();
      cwnd := 0;
      pktsAcked := false;
      ok := UpdateCwndAndPacing(tcb);
      if ok {
        tcb.initialCWnd := tcb.cWnd / tcb.segmentSize;
      }
    }

    /**
     * `Init`: turns pacing (and pacing of the initial window) on, restarts
     * the window, applies the rule for the current memory, and records the
     * resulting window in segments as the initial window.
     */
    method Init(tcb: TcpSocketState) returns (ok: bool)
      requires tcb.segmentSize > 0
      modifies this, tcb
      ensures memory.Snapshot() == old(memory.Snapshot())
      ensures pktsAcked == old(pktsAcked) && acks == old(acks) && pkts == old(pkts) && isIdle == old(isIdle)
      ensures ok <==> UseWhisker(whiskers, memory.Snapshot()).Some?
      ensures !ok ==>
        && cwnd == 0 && intersendTime == old(intersendTime)
        && tcb.View() == old(tcb.View()).(pacing := true, paceInitialWindow := true)
      ensures ok ==>
        var d := Decide(whiskers[UseWhisker(whiskers, memory.Snapshot()).value], 0, memory.stats.Field(1));
        var applied := Applied(old(tcb.View()).(paceInitialWindow := true), d);
        && cwnd == d.cwnd && intersendTime == d.intersendTime
        && tcb.View() == applied.(initialCWnd := applied.cWnd / applied.segmentSize)
    {
      tcb.pacing := true;
      tcb.paceInitialWindow := true;
      cwnd := 0;
      ok := UpdateCwndAndPacing(tcb);
      if ok {
        tcb.initialCWnd := tcb.cWnd / tcb.segmentSize;
      }
    }

    /**
     * `CongControl`: before data has been acknowledged, or while idle,
     * sending is suppressed (no pacing, zero window) and the memory is left
     * alone. Otherwise exactly one sample built from the acknowledgement is
     * fed into the memory and the rule for the new memory is applied.
     * `ok` is false when the memory's assertion or the lookup fails. Only
     * the active branch divides by the segment size.
     */
    method CongControl(tcb: TcpSocketState, deliveredNs: real, echoNs: real) returns (ok: bool)
      requires pktsAcked && !isIdle ==> tcb.segmentSize > 0
      requires tcb.lastAckedSeq < U32Limit
      modifies this, tcb, memory
      ensures pktsAcked == old(pktsAcked) && isIdle == old(isIdle) && acks == old(acks) && pkts == old(pkts)
      ensures !old(pktsAcked) || old(isIdle) ==>
        && ok && tcb.View() == old(tcb.View()).(pacing := false, cWnd := 0)
        && memory.Snapshot() == old(memory.Snapshot())
        && cwnd == old(cwnd) && intersendTime == old(intersendTime)
      ensures old(pktsAcked) && !old(isIdle) ==>
        var p := AckSample(deliveredNs, echoNs, RemySeqNo(old(tcb.lastAckedSeq), old(tcb.segmentSize)),
                           old(tcb.lastIntQueue), old(tcb.lastIntLink));
        var fed := ReceiveAll(old(memory.Snapshot()), [p]);
        var paced := old(tcb.View()).(pacing := true);
        && (!ok ==> tcb.View() == paced && cwnd == old(cwnd) && intersendTime == old(intersendTime))
        && (fed.Failure? ==> !ok)
        && (fed.Success? ==>
              && memory.Snapshot() == fed.value
              && (ok <==> UseWhisker(whiskers, fed.value).Some?)
              && (ok ==>
                    var d := Decide(whiskers[UseWhisker(whiskers, fed.value).value], old(cwnd), fed.value.stats.Field(1));
                    && cwnd == d.cwnd && intersendTime == d.intersendTime
                    && tcb.View() == Applied(paced, d)))
    {
      if !pktsAcked {
        tcb.pacing := false;
        tcb.cWnd := 0;
        return true;
      } else if isIdle {
        tcb.pacing := false;
        tcb.cWnd := 0;
        return true;
      }
      tcb.pacing := true;
      var seqNo := RemySeqNo(tcb.lastAckedSeq, tcb.segmentSize);
      var p := AckSample(deliveredNs, echoNs, seqNo, tcb.lastIntQueue, tcb.lastIntLink);
      var fedOk := memory.PacketsReceived([p]);
      if !fedOk {
        return false;
      }
      ok := UpdateCwndAndPacing(tcb);
    }
  }

  /** Pacing is off exactly when the rule's intersend or the receive average is zero. */
  lemma PacingOffIff(w: Whisker, previous: nat, recRecEwma: real)
    ensures Decide(w, previous, recRecEwma).intersendTime == 0.0 <==> w.intersend == 0.0 || recRecEwma == 0.0
  {
  }
}
