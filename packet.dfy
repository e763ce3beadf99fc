/** The per-acknowledgement sample the Remy memory consumes (`RemyPacket`). */
module Packets {
  /**
   * One sample: send and receive ticks, sequence number, and the in-band
   * queue and link statistics; all of them doubles in the source.
   */
  datatype RemyPacket = RemyPacket(
    tickSent: real,
    tickReceived: real,
    seqNo: real,
    queueStat: real,
    linkStat: real)

  /** The three-argument constructor: no in-band statistics, so both are 0. */
  function WithoutStats(tickSent: real, tickReceived: real, seqNo: real): (p: RemyPacket)
    ensures p.queueStat == 0.0 && p.linkStat == 0.0
    ensures p.tickSent == tickSent && p.tickReceived == tickReceived && p.seqNo == seqNo
  {
    RemyPacket(tickSent, tickReceived, seqNo, 0.0, 0.0)
  }

  /**
   * The two value constructors agree on the timing and sequence fields, and
   * differ at most in the statistics.
   */
  lemma ConstructorsAgree(tickSent: real, tickReceived: real, seqNo: real, queue: real, link: real)
    ensures WithoutStats(tickSent, tickReceived, seqNo)
         == RemyPacket(tickSent, tickReceived, seqNo, queue, link).(queueStat := 0.0, linkStat := 0.0)
  {
  }
}
