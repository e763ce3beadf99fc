/**
 * The Remy flow memory: nine running statistics that a congestion controller
 * keys its rule table on, plus the trackers needed to update them from
 * per-acknowledgement samples or from summary statistics.
 *
 * `MemoryState` is the value of a memory (what `field`, the comparisons and
 * `str` read); `Memory` is the object the controller updates in place.
 */
module RemyMemory {
  import opened Wrappers
  import opened Text
  import opened Packets

  /** Ceiling of the averages and of the rtt ratio after a sample. */
  const SampleCeiling: real := 16380.0
  /** Ceiling of the queueing delay and receive average after `update`. */
  const SummaryCeiling: real := 163839.0
  /** Largest value `update` stores as the recent loss count. */
  const LossMemory: real := 20.0
  /** Number of statistics in a memory. */
  const FieldCount: nat := 9

  /** Names under which `str` prints the nine statistics, in field order. */
  const FieldNames: seq<string> :=
    ["sewma", "rewma", "rttr", "slowrewma", "rttd", "qdelay", "loss", "intq", "intl"]

  function Min(a: real, b: real): real { if a <= b then a else b }
  function Max(a: real, b: real): real { if a >= b then a else b }

  /** An exponentially weighted moving average step. */
  function Ewma(average: real, sample: real, weight: real): real {
    (1.0 - weight) * average + weight * sample
  }

  /** The fast averages: weight 1/8 on the new sample. */
  function FastEwma(average: real, sample: real): real { Ewma(average, sample, 0.125) }

  /** The slow receive average: weight 1/256 on the new sample. */
  function SlowEwma(average: real, sample: real): real { Ewma(average, sample, 0.00390625) }

  /** The outcome of a double division, including the IEEE special values. */
  datatype Quotient = Finite(value: real) | PosInf | NegInf | NaN

  function Divide(a: real, b: real): (q: Quotient)
    ensures q.Finite? <==> b != 0.0
    ensures q.Finite? ==> q.value * b == a
    ensures q.PosInf? <==> b == 0.0 && a > 0.0
  {
    if b != 0.0 then Finite(a / b)
    else if a > 0.0 then PosInf
    else if a < 0.0 then NegInf
    else NaN
  }

  /** Whether a quotient passes the `ratio >= 1.0` assertion (NaN fails it, +inf passes). */
  predicate AtLeastOne(q: Quotient) {
    (q.Finite? && q.value >= 1.0) || q.PosInf?
  }

  /** Conditions under which the memory's assertions abort the process. */
  datatype Fault = RttRatioBelowOne | RttDiffNegative | RttRatioInfinite

  /** The nine statistics, in the order `field` numbers them. */
  datatype Statistics = Statistics(
    recSendEwma: real,
    recRecEwma: real,
    rttRatio: real,
    slowRecRecEwma: real,
    rttDiff: real,
    queueingDelay: real,
    recentLoss: real,
    intQueue: real,
    intLink: real)
  {
    /** `field(i)`: statistic number `i`; every index from 8 on reads the link statistic. */
    function Field(i: nat): real {
      if i == 0 then recSendEwma
      else if i == 1 then recRecEwma
      else if i == 2 then rttRatio
      else if i == 3 then slowRecRecEwma
      else if i == 4 then rttDiff
      else if i == 5 then queueingDelay
      else if i == 6 then recentLoss
      else if i == 7 then intQueue
      else intLink
    }

    /** Writing through `mutable_field(i)`: exactly the statistic `field(i)` reads changes. */
    function WithField(i: nat, v: real): (m: Statistics)
      ensures forall j: nat :: m.Field(j) == if Slot(j) == Slot(i) then v else Field(j)
    {
      if i == 0 then this.(recSendEwma := v)
      else if i == 1 then this.(recRecEwma := v)
      else if i == 2 then this.(rttRatio := v)
      else if i == 3 then this.(slowRecRecEwma := v)
      else if i == 4 then this.(rttDiff := v)
      else if i == 5 then this.(queueingDelay := v)
      else if i == 6 then this.(recentLoss := v)
      else if i == 7 then this.(intQueue := v)
      else this.(intLink := v)
    }

    /** The nine `name=value` items `str` joins. */
    function Rendered(): (items: seq<string>)
      ensures |items| == FieldCount
      ensures forall i :: 0 <= i < FieldCount ==> items[i] == FieldNames[i] + "=" + FormatFixed(Field(i), 6)
    {
      seq(FieldCount, i requires 0 <= i < FieldCount => FieldNames[i] + "=" + FormatFixed(Field(i), 6))
    }
  }

  /** Which stored statistic index `i` addresses. */
  function Slot(i: nat): (k: nat)
    ensures k < FieldCount
    ensures i < 8 ==> k == i
  {
    if i < 8 then i else 8
  }

  /** The value of a memory: statistics, trackers, loss queue and active-axis count. */
  datatype MemoryState = MemoryState(
    stats: Statistics,
    lastTickSent: real,
    lastTickReceived: real,
    minRtt: real,
    lastSeqNo: real,
    losses: seq<real>,
    datasize: nat)
  {
    /** `this >= other`: no active statistic is below the other's. */
    predicate Ge(other: MemoryState) {
      forall i: nat :: i < datasize ==> stats.Field(i) >= other.stats.Field(i)
    }

    /** `this < other`: every active statistic is below the other's. */
    predicate Lt(other: MemoryState) {
      forall i: nat :: i < datasize ==> stats.Field(i) < other.stats.Field(i)
    }

    /** `this == other`: the active statistics agree. */
    predicate Eq(other: MemoryState) {
      forall i: nat :: i < datasize ==> stats.Field(i) == other.stats.Field(i)
    }

    /** `str`: the nine statistics as `name=%f` joined by ", ", cut to 511 characters. */
    function Str(): (s: string)
      ensures |s| <= 511 && StartsWith(Join(stats.Rendered(), ", "), s)
      ensures |Join(stats.Rendered(), ", ")| <= 511 ==> s == Join(stats.Rendered(), ", ")
    {
      Truncate(Join(stats.Rendered(), ", "), 511)
    }
  }

  const ZeroStatistics: Statistics := Statistics(0.0, 0.0, 0.0, 0.0, 0.0, 0.0, 0.0, 0.0, 0.0)

  /** A memory with every statistic and tracker at zero and no recorded losses. */
  function Zero(datasize: nat): (m: MemoryState)
    ensures forall i: nat :: m.stats.Field(i) == 0.0
    ensures m.lastTickSent == m.lastTickReceived == m.minRtt == m.lastSeqNo == 0.0
    ensures m.losses == [] && m.datasize == datasize
  {
    MemoryState(ZeroStatistics, 0.0, 0.0, 0.0, 0.0, [], datasize)
  }

  /**
   * The vector constructor: the nine statistics are `data[0..8]` in field
   * order and the trackers are zero. A vector shorter than nine values
   * makes `at` throw `std::out_of_range`, which is `None` here.
   */
  function FromData(data: seq<real>, datasize: nat): (m: Option<MemoryState>)
    ensures m.None? <==> |data| < FieldCount
    ensures m.Some? ==>
              && (forall i: nat :: i < FieldCount ==> m.value.stats.Field(i) == data[i])
              && m.value.lastTickSent == m.value.lastTickReceived == m.value.minRtt == m.value.lastSeqNo == 0.0
              && m.value.losses == [] && m.value.datasize == datasize
  {
    if |data| < FieldCount then None
    else
      Some(MemoryState(Statistics(data[0], data[1], data[2], data[3], data[4], data[5], data[6], data[7], data[8]),
                       0.0, 0.0, 0.0, 0.0, [], datasize))
  }

  /** With no active axes every comparison holds, so `<` is not the negation of `>=`. */
  lemma NoAxesCompareTrue(a: MemoryState, b: MemoryState)
    requires a.datasize == 0
    ensures a.Ge(b) && a.Lt(b) && a.Eq(b)
  {
  }

  /** With at least one active axis, `<` does exclude `>=`. */
  lemma LtExcludesGe(a: MemoryState, b: MemoryState)
    requires a.datasize > 0
    ensures a.Lt(b) ==> !a.Ge(b)
  {
    var zero: nat := 0;
    if a.Lt(b) {
      assert a.stats.Field(zero) < b.stats.Field(zero);
    }
  }

  /** Two memories on two axes that are neither `>=` nor `<` each other. */
  lemma IncomparableMemories()
    ensures
      var a := Zero(2).(stats := ZeroStatistics.(recSendEwma := 1.0));
      var b := Zero(2).(stats := ZeroStatistics.(recRecEwma := 1.0));
      !a.Ge(b) && !a.Lt(b)
  {
    var a := Zero(2).(stats := ZeroStatistics.(recSendEwma := 1.0));
    var b := Zero(2).(stats := ZeroStatistics.(recRecEwma := 1.0));
    var zero: nat, one: nat := 0, 1;
    assert a.stats.Field(one) < b.stats.Field(one);
    assert a.stats.Field(zero) >= b.stats.Field(zero);
  }

  /**
   * Writing a statistic the comparisons do not look at leaves `>=` unchanged;
   * every index from 8 on writes the ninth statistic, which is active when
   * all nine axes are.
   */
  lemma GeIgnoresInactiveWrite(a: MemoryState, b: MemoryState, i: nat, v: real)
    requires a.datasize <= Slot(i)
    ensures a.(stats := a.stats.WithField(i, v)).Ge(b) <==> a.Ge(b)
  {
    var a' := a.(stats := a.stats.WithField(i, v));
    forall j: nat | j < a.datasize
      ensures a'.stats.Field(j) == a.stats.Field(j)
    {
      assert Slot(j) == j;
    }
  }

  /** A sample on a memory that has not yet seen both ticks only starts the trackers. */
  predicate IsBootstrap(s: MemoryState) {
    s.lastTickSent == 0.0 || s.lastTickReceived == 0.0
  }

  function Rtt(p: RemyPacket): real { p.tickReceived - p.tickSent }

  /** A sample whose sequence number skips past the next expected one counts as a loss. */
  predicate IsGap(s: MemoryState, p: RemyPacket) { p.seqNo > s.lastSeqNo + 1.0 }

  /** The send gap: measured only when the send tick did not go backwards. */
  function IntersendGap(s: MemoryState, p: RemyPacket): real {
    if p.tickSent >= s.lastTickSent then p.tickSent - s.lastTickSent else s.stats.recSendEwma
  }

  /** The receive gap: measured only when the receive tick strictly advanced. */
  function InterreceiveGap(s: MemoryState, p: RemyPacket): real {
    if p.tickReceived > s.lastTickReceived then p.tickReceived - s.lastTickReceived else s.stats.recRecEwma
  }

  /** The ratio after a sample, clamped; +inf clamps to the ceiling. */
  function ClampedRatio(q: Quotient): real
    requires AtLeastOne(q)
  {
    if q.PosInf? then SampleCeiling else Min(q.value, SampleCeiling)
  }

  /** The averages, the rtt ratio and the loss average lie in the range samples keep them in. */
  predicate Bounded(s: Statistics) {
    s.recSendEwma <= SampleCeiling && s.recRecEwma <= SampleCeiling
    && s.slowRecRecEwma <= SampleCeiling && s.rttRatio <= SampleCeiling
    && 0.0 <= s.recentLoss <= 1.0
  }

  /** One iteration of `packets_received`: the memory after one sample, or the failed assertion. */
  function Receive(s: MemoryState, p: RemyPacket): (r: Result<MemoryState, Fault>)
    ensures r.Success? ==> r.value.datasize == s.datasize && r.value.losses == s.losses
    ensures r.Success? ==> r.value.lastSeqNo >= s.lastSeqNo
  {
    if IsBootstrap(s) then Success(Restart(s, p)) else Absorb(s, p)
  }

  /** A bootstrap sample: the trackers restart from the sample. */
  function Restart(s: MemoryState, p: RemyPacket): MemoryState {
    s.(lastTickSent := p.tickSent, lastTickReceived := p.tickReceived, minRtt := Rtt(p))
  }

  /** Any other sample: the averages, trackers and ratio absorb it, or the ratio assertion fails. */
  function Absorb(s: MemoryState, p: RemyPacket): Result<MemoryState, Fault> {
    var interreceive := InterreceiveGap(s, p);
    var minRtt := Min(s.minRtt, Rtt(p));
    var ratio := Divide(Rtt(p), minRtt);
    if !AtLeastOne(ratio) then Failure(RttRatioBelowOne)
    else
      Success(s.(
        stats := s.stats.(
          recSendEwma := Min(FastEwma(s.stats.recSendEwma, IntersendGap(s, p)), SampleCeiling),
          recRecEwma := Min(FastEwma(s.stats.recRecEwma, interreceive), SampleCeiling),
          rttRatio := ClampedRatio(ratio),
          slowRecRecEwma := Min(SlowEwma(s.stats.slowRecRecEwma, interreceive), SampleCeiling),
          recentLoss := FastEwma(s.stats.recentLoss, if IsGap(s, p) then 1.0 else 0.0),
          intQueue := p.queueStat,
          intLink := FastEwma(s.stats.intLink, p.linkStat)),
        lastTickSent := if p.tickSent >= s.lastTickSent then p.tickSent else s.lastTickSent,
        lastTickReceived := if p.tickReceived > s.lastTickReceived then p.tickReceived else s.lastTickReceived,
        minRtt := minRtt,
        lastSeqNo := Max(s.lastSeqNo, p.seqNo)))
  }

  /**
   * A bootstrap sample cannot fail: no statistic moves, the ticks and the
   * min rtt are (re)started from the sample, and the sequence tracker stays.
   */
  lemma ReceiveBootstrap(s: MemoryState, p: RemyPacket)
    requires IsBootstrap(s)
    ensures
      var r := Receive(s, p);
      && r.Success? && r.value.stats == s.stats
      && r.value.lastTickSent == p.tickSent && r.value.lastTickReceived == p.tickReceived
      && r.value.minRtt == Rtt(p) && r.value.lastSeqNo == s.lastSeqNo
  {
  }

  /**
   * Any other sample fails exactly when its rtt over the new min rtt does
   * not pass the ratio assertion.
   */
  lemma ReceiveFails(s: MemoryState, p: RemyPacket)
    requires !IsBootstrap(s)
    ensures Receive(s, p).Success? <==> AtLeastOne(Divide(Rtt(p), Min(s.minRtt, Rtt(p))))
  {
  }

  /** What an accepted non-bootstrap sample does to each statistic and tracker. */
  lemma ReceiveEffects(s: MemoryState, p: RemyPacket)
    requires !IsBootstrap(s) && Receive(s, p).Success?
    ensures
      var m := Receive(s, p).value;
      && m.minRtt <= s.minRtt && m.minRtt <= Rtt(p) && (m.minRtt == s.minRtt || m.minRtt == Rtt(p))
      && 1.0 <= m.stats.rttRatio <= SampleCeiling
      && m.stats.rttRatio == ClampedRatio(Divide(Rtt(p), m.minRtt))
      && (m.minRtt != 0.0 ==> m.stats.rttRatio == Min(Rtt(p) / m.minRtt, SampleCeiling))
      && m.stats.recSendEwma == Min(FastEwma(s.stats.recSendEwma, IntersendGap(s, p)), SampleCeiling)
      && m.stats.recRecEwma == Min(FastEwma(s.stats.recRecEwma, InterreceiveGap(s, p)), SampleCeiling)
      && m.stats.slowRecRecEwma == Min(SlowEwma(s.stats.slowRecRecEwma, InterreceiveGap(s, p)), SampleCeiling)
      && m.stats.recentLoss == FastEwma(s.stats.recentLoss, if IsGap(s, p) then 1.0 else 0.0)
      && m.lastSeqNo == Max(s.lastSeqNo, p.seqNo)
      && m.lastTickSent == Max(s.lastTickSent, p.tickSent)
      && m.lastTickReceived == Max(s.lastTickReceived, p.tickReceived)
      && m.stats.intQueue == p.queueStat
      && m.stats.intLink == FastEwma(s.stats.intLink, p.linkStat)
      && m.stats.rttDiff == s.stats.rttDiff && m.stats.queueingDelay == s.stats.queueingDelay
  {
  }

  /** A sample keeps bounded statistics bounded. */
  lemma ReceiveKeepsBounds(s: MemoryState, p: RemyPacket)
    requires Bounded(s.stats) && Receive(s, p).Success?
    ensures Bounded(Receive(s, p).value.stats)
  {
  }

  /**
   * With a positive min rtt, any sample whose rtt is positive passes the
   * ratio assertion.
   */
  lemma PositiveRttAccepted(s: MemoryState, p: RemyPacket)
    requires s.minRtt > 0.0 && Rtt(p) > 0.0
    ensures Receive(s, p).Success?
  {
    var m := Min(s.minRtt, Rtt(p));
    RatioAtLeastOne(Rtt(p), m);
  }

  /** `packets_received`: the samples in order; the first failed assertion aborts. */
  function ReceiveAll(s: MemoryState, packets: seq<RemyPacket>): Result<MemoryState, Fault>
    decreases |packets|
  {
    if packets == [] then Success(s)
    else
      match Receive(s, packets[0])
      case Failure(e) => Failure(e)
      case Success(t) => ReceiveAll(t, packets[1..])
  }

  /** Once bounded, the statistics stay bounded over any run of samples. */
  lemma {:induction false} ReceiveAllKeepsBounds(s: MemoryState, packets: seq<RemyPacket>)
    requires Bounded(s.stats)
    ensures ReceiveAll(s, packets).Success? ==> Bounded(ReceiveAll(s, packets).value.stats)
    decreases |packets|
  {
    if packets != [] {
      var r := Receive(s, packets[0]);
      if r.Success? {
        ReceiveKeepsBounds(s, packets[0]);
        ReceiveAllKeepsBounds(r.value, packets[1..]);
      }
    }
  }

  /**
   * Over any run of samples the highest sequence number seen never
   * decreases, and the rtt difference, queueing delay, active-axis count
   * and loss queue are untouched.
   */
  lemma {:induction false} ReceiveAllPreserves(s: MemoryState, packets: seq<RemyPacket>)
    ensures ReceiveAll(s, packets).Success? ==>
      var m := ReceiveAll(s, packets).value;
      && m.lastSeqNo >= s.lastSeqNo
      && m.stats.rttDiff == s.stats.rttDiff && m.stats.queueingDelay == s.stats.queueingDelay
      && m.datasize == s.datasize && m.losses == s.losses
    decreases |packets|
  {
    if packets != [] {
      var r := Receive(s, packets[0]);
      if r.Success? {
        if IsBootstrap(s) {
          ReceiveBootstrap(s, packets[0]);
        } else {
          ReceiveEffects(s, packets[0]);
        }
        ReceiveAllPreserves(r.value, packets[1..]);
      }
    }
  }

  /** Feeding two batches is feeding their concatenation: a failure in the first stops both. */
  lemma {:induction false} ReceiveAllSplit(s: MemoryState, front: seq<RemyPacket>, back: seq<RemyPacket>)
    ensures ReceiveAll(s, front + back) ==
      match ReceiveAll(s, front)
      case Failure(e) => Failure(e)
      case Success(t) => ReceiveAll(t, back)
    decreases |front|
  {
    if front == [] {
      assert front + back == back;
    } else {
      assert (front + back)[0] == front[0];
      assert (front + back)[1..] == front[1..] + back;
      var r := Receive(s, front[0]);
      if r.Success? {
        ReceiveAllSplit(r.value, front[1..], back);
      }
    }
  }

  /**
   * Two samples into a fresh memory: (sent 0, received 10, seq 0) followed
   * by (sent 10, received 25, seq 1). The first leaves the send tick at 0,
   * so the second is again a bootstrap sample: no statistic moves and only
   * the trackers take the second sample's ticks.
   */
  lemma TwoSamplesFromZero()
    ensures
      var p1 := RemyPacket(0.0, 10.0, 0.0, 0.0, 0.0);
      var p2 := RemyPacket(10.0, 25.0, 1.0, 0.0, 0.0);
      var r := ReceiveAll(Zero(7), [p1, p2]);
      && r.Success? && r.value.stats == ZeroStatistics
      && r.value.lastTickSent == 10.0 && r.value.lastTickReceived == 25.0 && r.value.minRtt == 15.0
  {
    var p1 := RemyPacket(0.0, 10.0, 0.0, 0.0, 0.0);
    var p2 := RemyPacket(10.0, 25.0, 1.0, 0.0, 0.0);
    var m1 := Zero(7).(lastTickSent := 0.0, lastTickReceived := 10.0, minRtt := 10.0);
    assert Receive(Zero(7), p1) == Success(m1);
    assert [p1, p2][1..] == [p2];
    var m2 := m1.(lastTickSent := 10.0, lastTickReceived := 25.0, minRtt := 15.0);
    assert Receive(m1, p2) == Success(m2);
    assert [p2][1..] == [];
    assert ReceiveAll(m1, [p2]) == Success(m2);
  }

  /** A finite quotient is at least one exactly when the signs and magnitudes say so. */
  lemma RatioAtLeastOne(a: real, b: real)
    ensures b != 0.0 ==> (a / b >= 1.0 <==> (b > 0.0 && a >= b) || (b < 0.0 && a <= b))
  {
    if b == 0.0 {
      return;
    }
    var q := a / b;
    assert q * b == a;
    if b > 0.0 {
      assert q >= 1.0 ==> q * b >= 1.0 * b;
      assert a >= b ==> q >= 1.0;
    } else {
      assert q >= 1.0 ==> q * b <= 1.0 * b;
      assert a <= b ==> q >= 1.0;
    }
  }

  /** The queueing delay `update` derives: the receive average times the packets in flight, capped. */
  function QueueingDelay(average: real, inflight: nat): real {
    Min(average * inflight as real, SummaryCeiling)
  }

  /** Whether `update`'s two assertions hold (and the ratio is finite) for these round-trip times. */
  predicate SummaryAccepted(minrtt: real, lastrtt: real) {
    (minrtt > 0.0 && lastrtt >= minrtt) || (minrtt < 0.0 && lastrtt == minrtt)
  }

  /** The statistics after `update` has blended in the rates (the first summary does not). */
  function Blended(s: Statistics, isFirst: bool, sendrate: real, deliveryrate: real): Statistics {
    if isFirst then s
    else s.(recSendEwma := FastEwma(s.recSendEwma, sendrate),
            recRecEwma := FastEwma(s.recRecEwma, deliveryrate),
            slowRecRecEwma := SlowEwma(s.slowRecRecEwma, deliveryrate))
  }

  /**
   * `update`: the memory after a summary of the last interval, or the failed
   * assertion.
   */
  function Summarize(s: MemoryState, isFirst: bool, sendrate: real, deliveryrate: real, losses: nat,
                     minrtt: real, lastrtt: real, inflight: nat): (r: Result<MemoryState, Fault>)
    ensures r.Success? <==> SummaryAccepted(minrtt, lastrtt)
    ensures r.Success? ==>
      var m := r.value.stats;
      var b := Blended(s.stats, isFirst, sendrate, deliveryrate);
      && (isFirst ==> m.recSendEwma == s.stats.recSendEwma && m.slowRecRecEwma == s.stats.slowRecRecEwma)
      && m.recSendEwma == b.recSendEwma && m.slowRecRecEwma == b.slowRecRecEwma
      && m.recRecEwma == Min(b.recRecEwma, SummaryCeiling)
      && m.recentLoss == Min(losses as real, LossMemory) && 0.0 <= m.recentLoss <= LossMemory
      && r.value.minRtt == minrtt && m.rttRatio * minrtt == lastrtt && m.rttRatio >= 1.0
      && m.rttDiff == lastrtt - minrtt && m.rttDiff >= 0.0
      && m.queueingDelay == QueueingDelay(b.recRecEwma, inflight)
      && m.queueingDelay <= SummaryCeiling && m.recRecEwma <= SummaryCeiling
      && m.intQueue == s.stats.intQueue && m.intLink == s.stats.intLink
    ensures r.Success? ==>
      && r.value.lastTickSent == s.lastTickSent && r.value.lastTickReceived == s.lastTickReceived
      && r.value.lastSeqNo == s.lastSeqNo && r.value.datasize == s.datasize && r.value.losses == s.losses
  {
    RatioAtLeastOne(lastrtt, minrtt);
    var b := Blended(s.stats, isFirst, sendrate, deliveryrate);
    var ratio := Divide(lastrtt, minrtt);
    if !AtLeastOne(ratio) then Failure(RttRatioBelowOne)
    else if ratio.PosInf? then Failure(RttRatioInfinite)
    else if lastrtt - minrtt < 0.0 then Failure(RttDiffNegative)
    else
      var delay := QueueingDelay(b.recRecEwma, inflight);
      Success(s.(
        stats := b.(
          recentLoss := if losses as real > LossMemory then LossMemory else losses as real,
          rttRatio := ratio.value,
          rttDiff := lastrtt - minrtt,
          queueingDelay := delay,
          recRecEwma := Min(b.recRecEwma, SummaryCeiling)),
        minRtt := minrtt))
  }

  lemma ScaleUp(x: real, n: real)
    requires x >= 0.0 && n >= 1.0
    ensures x * n >= x
  {
    assert x * n - x == x * (n - 1.0);
  }

  /**
   * Capping the receive average before or after deriving the queueing
   * delay from it gives the same delay.
   */
  lemma QueueingDelayCapOrder(average: real, inflight: nat)
    ensures Min(average * inflight as real, SummaryCeiling)
         == Min(Min(average, SummaryCeiling) * inflight as real, SummaryCeiling)
  {
    var n := inflight as real;
    var capped := Min(average, SummaryCeiling);
    if average <= SummaryCeiling {
      assert capped == average;
    } else if inflight == 0 {
      assert capped == SummaryCeiling;
      assert average * n == 0.0 && capped * n == 0.0;
    } else {
      assert capped == SummaryCeiling;
      ScaleUp(average, n);
      ScaleUp(SummaryCeiling, n);
      assert Min(average * n, SummaryCeiling) == SummaryCeiling;
      assert Min(capped * n, SummaryCeiling) == SummaryCeiling;
    }
  }

  /** The memory object of a Remy connection. */
  class Memory {
    /** The nine statistics `field(i)` numbers. */
    var stats: Statistics
    var lastTickSent: real
    var lastTickReceived: real
    var minRtt: real
    var lastSeqNo: real
    var losses: seq<real>
    /** Number of active statistics the comparisons look at. */
    const datasize: nat

    /** The current value of this memory. */
    function Snapshot(): MemoryState
      reads this
    {
      MemoryState(stats, lastTickSent, lastTickReceived, minRtt, lastSeqNo, losses, datasize)
    }

    /** The default constructor: everything zero. */
    constructor (datasize: nat)
      ensures Snapshot() == Zero(datasize)
    {
      this.datasize := datasize;
      stats := ZeroStatistics;
      lastTickSent, lastTickReceived, minRtt, lastSeqNo := 0.0, 0.0, 0.0, 0.0;
      losses := [];
    }

    /**
     * The constructor from a vector: a new memory holding the vector's
     * first nine values, or `None` where the constructor throws because the
     * vector is shorter than nine values.
     */
    static method FromVector(data: seq<real>, datasize: nat) returns (r: Option<Memory>)
      ensures r.None? <==> |data| < FieldCount
      ensures r.Some? ==> fresh(r.value) && FromData(data, datasize) == Some(r.value.Snapshot())
    {
      if |data| < FieldCount {
        return None;
      }
      var m := new Memory(datasize);
      m.stats := Statistics(data[0], data[1], data[2], data[3], data[4], data[5], data[6], data[7], data[8]);
      r := Some(m);
    }

    /** `reset`: back to the freshly constructed memory, whatever the state was. */
    method Reset()
      modifies this
      ensures Snapshot() == Zero(datasize)
    {
      stats := ZeroStatistics;
      lastTickSent, lastTickReceived, minRtt, lastSeqNo := 0.0, 0.0, 0.0, 0.0;
      losses := [];
    }

    /** `mutable_field(i) = v`: writes the statistic `field(i)` reads, and nothing else. */
    method SetField(i: nat, v: real)
      modifies this
      ensures Snapshot() == old(Snapshot()).(stats := old(stats).WithField(i, v))
      ensures stats.Field(i) == v
    {
      stats := stats.WithField(i, v);
    }

    /** One iteration of `packets_received`: folds one sample into the memory. */
    method ReceiveOne(x: RemyPacket) returns (ok: bool)
      modifies this
      ensures ok <==> Receive(old(Snapshot()), x).Success?
      ensures ok ==> Receive(old(Snapshot()), x) == Success(Snapshot())
    {
      var rtt := x.tickReceived - x.tickSent;
      if lastTickSent == 0.0 || lastTickReceived == 0.0 {
        lastTickSent := x.tickSent;
        lastTickReceived := x.tickReceived;
        minRtt := rtt;
        return true;
      }
      stats := stats.(recentLoss := FastEwma(stats.recentLoss, if x.seqNo > lastSeqNo + 1.0 then 1.0 else 0.0));
      lastSeqNo := Max(lastSeqNo, x.seqNo);
      var intersend := if x.tickSent >= lastTickSent then x.tickSent - lastTickSent else stats.recSendEwma;
      var interreceive := if x.tickReceived > lastTickReceived then x.tickReceived - lastTickReceived else stats.recRecEwma;
      stats := stats.(recSendEwma := FastEwma(stats.recSendEwma, intersend));
      stats := stats.(recRecEwma := FastEwma(stats.recRecEwma, interreceive));
      stats := stats.(slowRecRecEwma := SlowEwma(stats.slowRecRecEwma, interreceive));
      lastTickSent := if x.tickSent >= lastTickSent then x.tickSent else lastTickSent;
      lastTickReceived := if x.tickReceived > lastTickReceived then x.tickReceived else lastTickReceived;
      minRtt := Min(minRtt, rtt);
      var ratio := Divide(rtt, minRtt);
      if !AtLeastOne(ratio) {
        return false;
      }
      // an infinite ratio passes the assertion and is then cut to the ceiling
      stats := stats.(rttRatio := if ratio.PosInf? then SampleCeiling else ratio.value);
      stats := stats.(intQueue := x.queueStat);
      stats := stats.(intLink := FastEwma(stats.intLink, x.linkStat));
      stats := stats.(slowRecRecEwma := Min(stats.slowRecRecEwma, SampleCeiling));
      stats := stats.(recSendEwma := Min(stats.recSendEwma, SampleCeiling));
      stats := stats.(recRecEwma := Min(stats.recRecEwma, SampleCeiling));
      stats := stats.(rttRatio := Min(stats.rttRatio, SampleCeiling));
      ok := true;
    }

    /**
     * `packets_received`: folds the samples into the memory in order.
     * `ok` is false when a sample fails the rtt-ratio assertion (where the
     * process aborts).
     */
    method PacketsReceived(packets: seq<RemyPacket>) returns (ok: bool)
      modifies this
      ensures ok <==> ReceiveAll(old(Snapshot()), packets).Success?
      ensures ok ==> ReceiveAll(old(Snapshot()), packets) == Success(Snapshot())
    {
      var i := 0;
      while i < |packets|
        invariant 0 <= i <= |packets|
        invariant ReceiveAll(old(Snapshot()), packets) == ReceiveAll(Snapshot(), packets[i..])
      {
        var x := packets[i];
        assert packets[i..][0] == x && packets[i..][1..] == packets[i + 1..];
        var sampleOk := ReceiveOne(x);
        if !sampleOk {
          return false;
        }
        i := i + 1;
      }
      ok := true;
    }

    /**
     * `update`: folds a summary of the last interval into the memory. `ok`
     * is false when one of the assertions fails, or when the ratio would be
     * infinite.
     */
    method Update(isFirst: bool, sendrate: real, deliveryrate: real, losses: nat,
                  minrtt: real, lastrtt: real, inflight: nat) returns (ok: bool)
      modifies this
      ensures ok <==> SummaryAccepted(minrtt, lastrtt)
      ensures ok ==> Summarize(old(Snapshot()), isFirst, sendrate, deliveryrate, losses, minrtt, lastrtt, inflight)
                     == Success(Snapshot())
    {
      RatioAtLeastOne(lastrtt, minrtt);
      if !isFirst {
        stats := stats.(recSendEwma := FastEwma(stats.recSendEwma, sendrate));
        stats := stats.(recRecEwma := FastEwma(stats.recRecEwma, deliveryrate));
        stats := stats.(slowRecRecEwma := SlowEwma(stats.slowRecRecEwma, deliveryrate));
      }
      stats := stats.(recentLoss := if losses as real > LossMemory then LossMemory else losses as real);
      minRtt := minrtt;
      var ratio := Divide(lastrtt, minRtt);
      if !AtLeastOne(ratio) || ratio.PosInf? {
        return false;
      }
      stats := stats.(rttRatio := ratio.value);
      stats := stats.(rttDiff := lastrtt - minRtt);
      if stats.rttDiff < 0.0 {
        return false;
      }
      stats := stats.(queueingDelay := QueueingDelay(stats.recRecEwma, inflight));
      stats := stats.(recRecEwma := Min(stats.recRecEwma, SummaryCeiling));
      ok := true;
    }
  }
}
