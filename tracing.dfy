/**
 * Flow identifiers and the per-flow score bookkeeping of the tracing
 * utilities: a flow id packs a source and a destination node id into one
 * `uint32_t`, and the score tracker accumulates, per tracked flow, received
 * packets, RTT samples and the fair share of the bottleneck each flow was
 * entitled to while it was switched on.
 */
module Tracing {
  import opened MachineInts

  /**
   * A source/destination pair. The C++ record holds two `int`s; decoding
   * only ever stores 16-bit values in them, so 32-bit words represent them
   * exactly here.
   */
  datatype FlowId = FlowId(sourceId: bv32, destinationId: bv32)

  /** `(sourceId << 16) | dstId` over `uint32_t`; nothing masks `dstId`. */
  function GenerateFlowId(sourceId: bv32, dstId: bv32): bv32 {
    (sourceId << 16) | dstId
  }

  /**
   * The low half of an id is the destination's low half; when the
   * destination fits 16 bits, the high half is the source's low half.
   */
  lemma FlowIdHalves(sourceId: bv32, dstId: bv32)
    ensures GenerateFlowId(sourceId, dstId) & 0xFFFF == dstId & 0xFFFF
    ensures dstId < 0x1_0000 ==> GenerateFlowId(sourceId, dstId) >> 16 == sourceId & 0xFFFF
  {
  }

  /** The high half is the source, the low half the destination. */
  function DeserializeFlowId(flowId: bv32): (f: FlowId)
    ensures f.sourceId < 0x1_0000 && f.destinationId < 0x1_0000
    ensures flowId == f.sourceId * 0x1_0000 + f.destinationId
  {
    FlowId(flowId >> 16, flowId & 0xFFFF)
  }

  /** Ids whose halves both fit 16 bits come back unchanged. */
  lemma FlowIdRoundTrip(sourceId: bv32, dstId: bv32)
    requires sourceId < 0x1_0000 && dstId < 0x1_0000
    ensures DeserializeFlowId(GenerateFlowId(sourceId, dstId)) == FlowId(sourceId, dstId)
  {
    FlowIdHalves(sourceId, dstId);
  }

  /** Every 32-bit id is the encoding of the pair it decodes to. */
  lemma FlowIdReEncode(flowId: bv32)
    ensures var f := DeserializeFlowId(flowId);
            GenerateFlowId(f.sourceId, f.destinationId) == flowId
  {
  }

  /**
   * A destination id of 2^16 or more spills into the source half: the
   * flows 0 -> 65536 and 1 -> 0 get the same id, and a source id of 2^16
   * is shifted out entirely.
   */
  lemma FlowIdBleed()
    ensures GenerateFlowId(0, 0x1_0000) == GenerateFlowId(1, 0)
    ensures DeserializeFlowId(GenerateFlowId(0, 0x1_0000)) == FlowId(1, 0)
    ensures GenerateFlowId(0x1_0000, 0) == GenerateFlowId(0, 0)
  {
  }

  /** One flow's running totals (`total_share` is a double in the source). */
  datatype FlowScoreTracker = FlowScoreTracker(
    totalDelay: real,
    worstDelay: real,
    totalBytes: nat,
    totalShare: real,
    totalTime: real,
    totalPackets: nat,
    isOn: bool,
    initialSeq: nat,
    ackDiff: nat,
    id: int)

  /** The tracker a newly set-up flow starts from: everything zero, switched off. */
  function NewFlowScoreTracker(name: int): (t: FlowScoreTracker)
    ensures t.totalDelay == 0.0 && t.worstDelay == 0.0 && t.totalShare == 0.0 && t.totalTime == 0.0
    ensures t.totalBytes == 0 && t.totalPackets == 0 && !t.isOn && t.id == name
  {
    FlowScoreTracker(0.0, 0.0, 0, 0.0, 0.0, 0, false, 0, 0, name)
  }

  /** The share a switched-on flow accrues over `elapsed` with `numFlows` flows on. */
  function FairShare(bandwidth: nat, numFlows: int, elapsed: real): (share: real)
    requires numFlows != 0
    ensures bandwidth as real * elapsed == share * numFlows as real
  {
    (bandwidth as real / numFlows as real) * elapsed
  }

  /** Whether the share `share` can be added to tracker `t`, should it be on. */
  predicate CanAccrue(t: FlowScoreTracker, share: real) {
    t.isOn ==> FitsU64(t.totalShare) && FitsU64(share)
  }

  /**
   * A switched-on tracker after a period: its share, truncated, grows by the
   * truncated `share` modulo 2^64, and, when `countTime` holds, its on-time
   * by `elapsed`. A switched-off tracker is left alone.
   */
  function Accrue(t: FlowScoreTracker, share: real, elapsed: real, countTime: bool): (u: FlowScoreTracker)
    requires CanAccrue(t, share)
    ensures !t.isOn ==> u == t
    ensures u.isOn == t.isOn && u.totalPackets == t.totalPackets && u.totalDelay == t.totalDelay
    ensures u.id == t.id && u.worstDelay == t.worstDelay && u.totalBytes == t.totalBytes
    ensures t.isOn ==> u.totalShare == U64(ToU64(t.totalShare) + ToU64(share)) as real
    ensures u.totalTime == if t.isOn && countTime then t.totalTime + elapsed else t.totalTime
  {
    if !t.isOn then t
    else
      var current := ToU64(t.totalShare);
      var added := U64(current + ToU64(share));
      t.(totalShare := added as real,
         totalTime := if countTime then t.totalTime + elapsed else t.totalTime)
  }

  predicate AllCanAccrue(trackers: map<real, FlowScoreTracker>, share: real) {
    forall k :: k in trackers ==> CanAccrue(trackers[k], share)
  }

  /** Every tracker after the period, keyed as before. */
  function AccrueAll(trackers: map<real, FlowScoreTracker>, share: real, elapsed: real, countTime: bool)
    : (r: map<real, FlowScoreTracker>)
    requires AllCanAccrue(trackers, share)
    ensures r.Keys == trackers.Keys
    ensures forall k :: k in r ==> r[k] == Accrue(trackers[k], share, elapsed, countTime)
  {
    map k | k in trackers :: Accrue(trackers[k], share, elapsed, countTime)
  }

  /** The keys of the flows that are switched on. */
  function OnFlows(trackers: map<real, FlowScoreTracker>): (s: set<real>)
    ensures forall k :: k in s <==> k in trackers && trackers[k].isOn
  {
    set k | k in trackers && trackers[k].isOn
  }

  /** Accruing never switches a flow on or off. */
  lemma AccrueKeepsOnFlows(trackers: map<real, FlowScoreTracker>, share: real, elapsed: real, countTime: bool)
    requires AllCanAccrue(trackers, share)
    ensures OnFlows(AccrueAll(trackers, share, elapsed, countTime)) == OnFlows(trackers)
  {
    var r := AccrueAll(trackers, share, elapsed, countTime);
    forall k ensures k in OnFlows(r) <==> k in OnFlows(trackers) {
      if k in trackers {
        assert r[k].isOn == trackers[k].isOn;
      }
    }
  }

  /** The trackers after one on/off event of flow `key` at `now`. */
  function ShareUpdated(trackers: map<real, FlowScoreTracker>, bandwidth: nat, numFlows: int,
                        lastFlowChange: real, now: real, key: real, newValue: bool)
    : (r: map<real, FlowScoreTracker>)
    requires key in trackers
    requires numFlows != 0 ==> AllCanAccrue(trackers, FairShare(bandwidth, numFlows, now - lastFlowChange))
    ensures r.Keys == trackers.Keys && r[key].isOn == newValue
    ensures forall k :: k in r && k != key ==> r[k].isOn == trackers[k].isOn
  {
    var accrued :=
      if numFlows != 0 then AccrueAll(trackers, FairShare(bandwidth, numFlows, now - lastFlowChange), now - lastFlowChange, true)
      else trackers;
    accrued[key := accrued[key].(isOn := newValue)]
  }

  /**
   * When the on/off counter agrees with the number of flows switched on and
   * the event really toggles flow `key`, the counter still agrees afterwards.
   */
  lemma {:induction false} ShareUpdateKeepsOnCount(trackers: map<real, FlowScoreTracker>, bandwidth: nat,
                                                    numFlows: int, lastFlowChange: real, now: real,
                                                    key: real, newValue: bool)
    requires key in trackers && trackers[key].isOn != newValue
    requires numFlows != 0 ==> AllCanAccrue(trackers, FairShare(bandwidth, numFlows, now - lastFlowChange))
    requires numFlows == |OnFlows(trackers)|
    ensures (if newValue then numFlows + 1 else numFlows - 1)
            == |OnFlows(ShareUpdated(trackers, bandwidth, numFlows, lastFlowChange, now, key, newValue))|
  {
    var r := ShareUpdated(trackers, bandwidth, numFlows, lastFlowChange, now, key, newValue);
    if newValue {
      assert OnFlows(r) == OnFlows(trackers) + {key};
      assert key !in OnFlows(trackers);
    } else {
      assert OnFlows(r) == OnFlows(trackers) - {key};
      assert key in OnFlows(trackers);
    }
  }

  /** The score tracker for all flows of one run. */
  class AllScoreTracker {
    var flowTrackers: map<real, FlowScoreTracker>
    var numFlows: int
    var lastFlowChange: real
    const bandwidth: nat
    const totalFlows: int

    constructor (btlbw: nat, flows: int)
      ensures flowTrackers == map[] && numFlows == 0 && lastFlowChange == 0.0
      ensures bandwidth == btlbw && totalFlows == flows
    {
      flowTrackers := map[];
      numFlows := 0;
      lastFlowChange := 0.0;
      bandwidth := btlbw;
      totalFlows := flows;
    }

    /** Registering the flow keyed `flowId` for node `nodeId` (replacing any earlier tracker). */
    method Track(nodeId: int, flowId: real)
      modifies this
      ensures flowTrackers == old(flowTrackers)[flowId := NewFlowScoreTracker(nodeId)]
      ensures numFlows == old(numFlows) && lastFlowChange == old(lastFlowChange)
    {
      flowTrackers := flowTrackers[flowId := NewFlowScoreTracker(nodeId)];
    }

    /**
     * A packet arrived for the flow keyed `flowId`, whose socket's latest
     * RTT sample is `delay` microseconds. Unknown keys are ignored.
     */
    method UpdatePacketsAndDelay(flowId: real, delay: int)
      modifies this
      ensures flowId !in old(flowTrackers) ==> flowTrackers == old(flowTrackers)
      ensures flowId in old(flowTrackers) ==>
        var t := old(flowTrackers)[flowId];
        flowTrackers == old(flowTrackers)[flowId := t.(
          totalPackets := U64(t.totalPackets + 1),
          totalDelay := t.totalDelay + delay as real,
          worstDelay := if t.worstDelay < delay as real then delay as real else t.worstDelay)]
      ensures numFlows == old(numFlows) && lastFlowChange == old(lastFlowChange)
    {
      if flowId in flowTrackers {
        var t := flowTrackers[flowId];
        var packets := t.totalPackets;
        t := t.(totalPackets := U64(packets + 1));
        var newDelay := delay as real;
        t := t.(totalDelay := t.totalDelay + newDelay);
        t := t.(worstDelay := if t.worstDelay < newDelay then newDelay else t.worstDelay);
        flowTrackers := flowTrackers[flowId := t];
      }
    }

    /** Accrue every switched-on tracker, one key at a time in no particular order. */
    method AccrueEach(share: real, elapsed: real, countTime: bool)
      requires AllCanAccrue(flowTrackers, share)
      modifies this
      ensures flowTrackers == AccrueAll(old(flowTrackers), share, elapsed, countTime)
      ensures numFlows == old(numFlows) && lastFlowChange == old(lastFlowChange)
    {
      ghost var before := flowTrackers;
      var pending := flowTrackers.Keys;
      while pending != {}
        invariant pending <= before.Keys && flowTrackers.Keys == before.Keys
        invariant numFlows == old(numFlows) && lastFlowChange == old(lastFlowChange)
        invariant forall k :: k in before ==>
          flowTrackers[k] == if k in pending then before[k] else Accrue(before[k], share, elapsed, countTime)
        decreases pending
      {
        if forall k :: k !in pending {
          assert false;
        }
        var k :| k in pending;
        flowTrackers := flowTrackers[k := Accrue(flowTrackers[k], share, elapsed, countTime)];
        pending := pending - {k};
      }
      ghost var after := AccrueAll(before, share, elapsed, countTime);
      assert flowTrackers.Keys == after.Keys;
      assert forall k :: k in flowTrackers ==> flowTrackers[k] == after[k];
    }

    /**
     * Flow `flowId` switched on (`newValue`) or off at time `now`: every flow
     * that was on is first credited its fair share of the period since the
     * last change, then the flow's state and the on-counter change.
     */
    method UpdateShare(flowId: real, newValue: bool, now: real)
      requires flowId in flowTrackers
      requires numFlows != 0 ==> AllCanAccrue(flowTrackers, FairShare(bandwidth, numFlows, now - lastFlowChange))
      modifies this
      ensures flowTrackers == ShareUpdated(old(flowTrackers), bandwidth, old(numFlows), old(lastFlowChange), now, flowId, newValue)
      ensures lastFlowChange == now
      ensures numFlows == if newValue then old(numFlows) + 1 else old(numFlows) - 1
      ensures old(numFlows) == |OnFlows(old(flowTrackers))| && old(flowTrackers)[flowId].isOn != newValue
              ==> numFlows == |OnFlows(flowTrackers)|
    {
      if numFlows == |OnFlows(flowTrackers)| && flowTrackers[flowId].isOn != newValue {
        ShareUpdateKeepsOnCount(flowTrackers, bandwidth, numFlows, lastFlowChange, now, flowId, newValue);
      }
      if numFlows != 0 {
        var share := FairShare(bandwidth, numFlows, now - lastFlowChange);
        AccrueEach(share, now - lastFlowChange, true);
      }
      lastFlowChange := now;
      flowTrackers := flowTrackers[flowId := flowTrackers[flowId].(isOn := newValue)];
      if newValue {
        numFlows := numFlows + 1;
      } else {
        numFlows := numFlows - 1;
      }
    }

    /** At the end of the run, credit the flows still on with their share up to `endTime`. */
    method UpdateShareFinal(endTime: real)
      requires numFlows != 0 ==> AllCanAccrue(flowTrackers, FairShare(bandwidth, numFlows, endTime - lastFlowChange))
      modifies this
      ensures old(numFlows) == 0 ==> flowTrackers == old(flowTrackers)
      ensures old(numFlows) != 0 ==>
        var elapsed := endTime - old(lastFlowChange);
        flowTrackers == AccrueAll(old(flowTrackers), FairShare(bandwidth, old(numFlows), elapsed), elapsed, false)
      ensures numFlows == old(numFlows) && lastFlowChange == old(lastFlowChange)
    {
      if numFlows != 0 {
        var share := FairShare(bandwidth, numFlows, endTime - lastFlowChange);
        AccrueEach(share, endTime - lastFlowChange, false);
      }
    }
  }

  /** The final accrual touches only the share, and only of flows that are on. */
  lemma FinalAccrualOnlyShare(trackers: map<real, FlowScoreTracker>, share: real, elapsed: real, k: real)
    requires AllCanAccrue(trackers, share) && k in trackers
    ensures var u := AccrueAll(trackers, share, elapsed, false)[k];
            u.totalTime == trackers[k].totalTime
            && (u.totalShare != trackers[k].totalShare ==> trackers[k].isOn)
  {
  }
}
