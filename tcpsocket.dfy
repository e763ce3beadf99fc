/**
 * The part of a TCP connection's congestion state record that the
 * congestion controllers read and write.
 */
module TcpSockets {
  import opened MachineInts

  /** A value view of the record, for stating what a controller changed. */
  datatype SocketView = SocketView(
    cWnd: nat,
    initialCWnd: nat,
    pacing: bool,
    paceInitialWindow: bool,
    pacingRate: int,
    ssThresh: nat,
    segmentSize: nat,
    lastAckedSeq: nat,
    lastIntQueue: nat,
    lastIntLink: nat)

  class TcpSocketState {
    /** Congestion window in bytes (`uint32_t`). */
    var cWnd: nat
    /** Initial congestion window in segments. */
    var initialCWnd: nat
    var pacing: bool
    var paceInitialWindow: bool
    /** Pacing rate: a `DataRate`, whole bits per second. */
    var pacingRate: int
    var ssThresh: nat
    /** Segment size in bytes. */
    var segmentSize: nat
    /** Highest cumulatively acknowledged sequence number (`uint32_t`). */
    var lastAckedSeq: nat
    /** In-band telemetry from the last acknowledgement. */
    var lastIntQueue: nat
    var lastIntLink: nat

    function View(): SocketView
      reads this
    {
      SocketView(cWnd, initialCWnd, pacing, paceInitialWindow, pacingRate, ssThresh,
                 segmentSize, lastAckedSeq, lastIntQueue, lastIntLink)
    }

    /** A record as the stack sets it up, with the given segment size and thresholds. */
    constructor (segmentSize: nat, ssThresh: nat, cWnd: nat)
      requires cWnd < U32Limit
      ensures View() == SocketView(cWnd, 0, false, false, 0, ssThresh, segmentSize, 0, 0, 0)
    {
      this.cWnd := cWnd;
      this.initialCWnd := 0;
      this.pacing := false;
      this.paceInitialWindow := false;
      this.pacingRate := 0;
      this.ssThresh := ssThresh;
      this.segmentSize := segmentSize;
      this.lastAckedSeq := 0;
      this.lastIntQueue := 0;
      this.lastIntLink := 0;
    }
  }
}
