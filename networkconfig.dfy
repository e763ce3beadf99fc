/**
 * Sampling of network configurations (`NetworkRange::generateNetworks`)
 * from a configuration range, and their one-line rendering
 * (`NetworkConfig::toString`).  Doubles are modelled as reals.
 */
module NetworkConfigs {
  import opened Text
  import opened MachineInts

  // ------------------------------------------------------------ the engine

  /** `std::default_random_engine` in libstdc++ is `minstd_rand0`: x := 16807·x mod (2^31 − 1). */
  const Modulus: nat := 2147483647
  const Multiplier: nat := 16807

  function Advance(state: nat): (next: nat)
    ensures next < Modulus
  {
    state * Multiplier % Modulus
  }

  /** The engine state after `steps` further draws. */
  function AdvanceBy(state: nat, steps: nat): (s: nat)
    ensures steps > 0 ==> s < Modulus
  {
    if steps == 0 then state else Advance(AdvanceBy(state, steps - 1))
  }

  lemma AdvanceOnce(state: nat, steps: nat)
    ensures AdvanceBy(state, steps + 1) == Advance(AdvanceBy(state, steps))
  {
  }

  lemma {:induction false} AdvanceByAdds(state: nat, a: nat, b: nat)
    ensures AdvanceBy(AdvanceBy(state, a), b) == AdvanceBy(state, a + b)
    decreases b
  {
    if b > 0 {
      AdvanceByAdds(state, a, b - 1);
    }
  }

  /** The state `seed(s)` installs: `s mod m`, or 1 when that is 0. */
  function SeedState(seed: nat): (state: nat)
    ensures 0 < state < Modulus
    ensures seed % Modulus != 0 ==> state == seed % Modulus
  {
    if seed % Modulus == 0 then 1 else seed % Modulus
  }

  /** The engine a `std::default_random_engine*` points at. */
  class Engine {
    var state: nat

    ghost predicate Valid()
      reads this
    {
      state < Modulus
    }

    constructor(seed: nat)
      ensures Valid() && state == SeedState(seed)
    {
      state := SeedState(seed);
    }

    /** `(*prng)()`: advance, then return the new state. */
    method Next() returns (v: nat)
      requires Valid()
      modifies this
      ensures Valid() && state == Advance(old(state)) && v == state
    {
      state := Advance(state);
      v := state;
    }
  }

  // ----------------------------------------------------------- sampling

  /** `(int)(floor((max - min) / incr) + 1)`: the number of grid points. */
  function GridPoints(min: real, max: real, incr: real): int
    requires incr != 0.0
  {
    ((max - min) / incr).Floor + 1
  }

  /** The modulus is neither a division by zero nor undefined. */
  predicate Samplable(min: real, max: real, incr: real) {
    incr != 0.0 && GridPoints(min, max, incr) != 0
  }

  /**
   * The grid index `_sample_range` picks: `draw % count`.  A negative count
   * is converted to the engine's 64-bit unsigned result type, where it
   * exceeds every draw, so the draw itself is the index.
   */
  function SampleIndex(min: real, max: real, incr: real, draw: nat): (index: nat)
    requires Samplable(min, max, incr) && draw < Modulus
    ensures GridPoints(min, max, incr) > 0 ==> index < GridPoints(min, max, incr)
  {
    var count := GridPoints(min, max, incr);
    if count > 0 then draw % count else draw
  }

  /** `_sample_range`: the point of the grid `min + incr·ℕ` at the drawn index. */
  function SampleRange(min: real, max: real, incr: real, draw: nat): (r: real)
    requires Samplable(min, max, incr) && draw < Modulus
    ensures incr > 0.0 && min <= max ==> min <= r <= max
    ensures max == min ==> r == min
  {
    var index := SampleIndex(min, max, incr, draw);
    IndexOnGrid(min, max, incr, index);
    min + incr * index as real
  }

  lemma ScaleBelow(incr: real, index: real, q: real)
    requires incr > 0.0 && 0.0 <= index <= q
    ensures 0.0 <= incr * index <= incr * q
  {
  }

  lemma IndexOnGrid(min: real, max: real, incr: real, index: nat)
    ensures incr > 0.0 && min <= max && index < GridPoints(min, max, incr) ==> min <= min + incr * index as real <= max
  {
    if incr > 0.0 && min <= max && index < GridPoints(min, max, incr) {
      var q := (max - min) / incr;
      assert index as real <= q.Floor as real <= q;
      ScaleBelow(incr, index as real, q);
      assert incr * q == max - min;
    }
  }

  /** With a positive step and `min <= max`, the sample sits on one of the grid's points. */
  lemma SampleOnGrid(min: real, max: real, incr: real, draw: nat)
    requires incr > 0.0 && min <= max && draw < Modulus
    ensures Samplable(min, max, incr)
    ensures SampleIndex(min, max, incr, draw) < GridPoints(min, max, incr)
    ensures (SampleRange(min, max, incr, draw) - min) / incr == SampleIndex(min, max, incr, draw) as real
  {
  }

  // ----------------------------------------------------------- the records

  /** A `low`/`high`/`incr` triple of the configuration range (configrange.hh is not part of this model). */
  datatype Range = Range(low: real, high: real, incr: real)

  datatype ConfigRange = ConfigRange(
    linkPpt: Range, rtt: Range, numSenders: Range, meanOnDuration: Range,
    meanOffDuration: Range, stochasticLossRate: Range, bufferSize: Range)

  /** `ParameterRange`: a min, a max and a step. */
  datatype ParameterRange = ParameterRange(min: real, max: real, step: real)

  /** `NetworkRange`: one parameter range per sampled quantity. */
  datatype NetworkRange = NetworkRange(
    rtt: ParameterRange, rate: ParameterRange, nsrc: ParameterRange, on: ParameterRange,
    off: ParameterRange, sloss: ParameterRange, buffer: ParameterRange)

  /** `NetworkConfig`: the ten values one simulation runs with. */
  datatype NetworkConfig = NetworkConfig(
    rtt: real, linkRate: real, remyRate: real, nSrc: int, onMean: real, onBound: real,
    offMean: real, offBound: real, errorRate: real, bufferSize: real)

  /** The `NetworkRange` constructor: each (min, max, incr) triple, in order, becomes a range. */
  function MakeNetworkRange(minRtt: real, maxRtt: real, rttIncr: real,
                            minLinkRate: real, maxLinkRate: real, linkIncr: real,
                            minNsrc: int, maxNsrc: int, nsrcIncr: int,
                            minOn: real, maxOn: real, onIncr: real,
                            minOff: real, maxOff: real, offIncr: real,
                            minSloss: real, maxSloss: real, slossIncr: real,
                            minBufSize: int, maxBufSize: int, bufSizeIncr: int): (r: NetworkRange)
    ensures r.rtt == ParameterRange(minRtt, maxRtt, rttIncr)
    ensures r.rate == ParameterRange(minLinkRate, maxLinkRate, linkIncr)
    ensures r.nsrc == ParameterRange(minNsrc as real, maxNsrc as real, nsrcIncr as real)
    ensures r.on == ParameterRange(minOn, maxOn, onIncr)
    ensures r.off == ParameterRange(minOff, maxOff, offIncr)
    ensures r.sloss == ParameterRange(minSloss, maxSloss, slossIncr)
    ensures r.buffer == ParameterRange(minBufSize as real, maxBufSize as real, bufSizeIncr as real)
  {
    NetworkRange(ParameterRange(minRtt, maxRtt, rttIncr), ParameterRange(minLinkRate, maxLinkRate, linkIncr),
                 ParameterRange(minNsrc as real, maxNsrc as real, nsrcIncr as real), ParameterRange(minOn, maxOn, onIncr),
                 ParameterRange(minOff, maxOff, offIncr), ParameterRange(minSloss, maxSloss, slossIncr),
                 ParameterRange(minBufSize as real, maxBufSize as real, bufSizeIncr as real))
  }

  // ---------------------------------------------------------- generation

  predicate RangeSamplable(r: Range) { Samplable(r.low, r.high, r.incr) }

  predicate AllSamplable(range: ConfigRange) {
    RangeSamplable(range.linkPpt) && RangeSamplable(range.rtt) && RangeSamplable(range.numSenders)
    && RangeSamplable(range.meanOnDuration) && RangeSamplable(range.meanOffDuration)
    && RangeSamplable(range.stochasticLossRate) && RangeSamplable(range.bufferSize)
  }

  function Sample(r: Range, draw: nat): real
    requires RangeSamplable(r) && draw < Modulus
  {
    SampleRange(r.low, r.high, r.incr, draw)
  }

  /** `packet_size_adj`: eight more bytes when INT headers ride on every packet. */
  function AdjustedPacketSize(intHeaders: bool, packetSize: int): int {
    if intHeaders then packetSize + 8 else packetSize
  }

  /** `packet_size_adj * 8 * pow(10, 6) * link_ppt`: the link rate the sampled `link_ppt` stands for. */
  function LinkRate(packetSize: int, linkPpt: real): real {
    (packetSize * 8) as real * 1000000.0 * linkPpt
  }

  /**
   * One configuration from the seven draws following engine state `state`,
   * taken in the order link_ppt, rtt, senders, on, off, loss, buffer.
   */
  function SampleConfig(range: ConfigRange, state: nat, intHeaders: bool, packetSize: int): NetworkConfig
    requires AllSamplable(range)
  {
    var linkPpt := Sample(range.linkPpt, AdvanceBy(state, 1));
    var linkRate := LinkRate(AdjustedPacketSize(intHeaders, packetSize), linkPpt);
    var rtt := Sample(range.rtt, AdvanceBy(state, 2));
    var senders := TruncateToInt(Sample(range.numSenders, AdvanceBy(state, 3)));
    var onMean := Sample(range.meanOnDuration, AdvanceBy(state, 4));
    var offMean := Sample(range.meanOffDuration, AdvanceBy(state, 5));
    var loss := Sample(range.stochasticLossRate, AdvanceBy(state, 6));
    var buffer := Sample(range.bufferSize, AdvanceBy(state, 7));
    NetworkConfig(rtt, linkRate, linkPpt, senders, onMean, onMean * 10.0, offMean, offMean * 10.0, loss, buffer)
  }

  /** The configurations `generateNetworks` returns, from engine state `state`. */
  function Networks(range: ConfigRange, state: nat, count: int, intHeaders: bool, packetSize: int): seq<NetworkConfig>
    requires AllSamplable(range)
    decreases count
  {
    if count <= 0 then []
    else [SampleConfig(range, state, intHeaders, packetSize)] + Networks(range, AdvanceBy(state, 7), count - 1, intHeaders, packetSize)
  }

  /** Exactly `sample_size` configurations, none when it is not positive. */
  lemma {:induction false} NetworksCount(range: ConfigRange, state: nat, count: int, intHeaders: bool, packetSize: int)
    requires AllSamplable(range)
    ensures |Networks(range, state, count, intHeaders, packetSize)| == if count > 0 then count else 0
    decreases count
  {
    if count > 0 {
      NetworksCount(range, AdvanceBy(state, 7), count - 1, intHeaders, packetSize);
    }
  }

  /** Configuration `i` is sampled from draws 7i+1 … 7i+7. */
  lemma {:induction false} NetworksDrawOrder(range: ConfigRange, state: nat, count: int, intHeaders: bool, packetSize: int, i: nat)
    requires AllSamplable(range) && i < count
    ensures i < |Networks(range, state, count, intHeaders, packetSize)|
    ensures Networks(range, state, count, intHeaders, packetSize)[i] == SampleConfig(range, AdvanceBy(state, 7 * i), intHeaders, packetSize)
    decreases i
  {
    NetworksCount(range, state, count, intHeaders, packetSize);
    if i > 0 {
      NetworksDrawOrder(range, AdvanceBy(state, 7), count - 1, intHeaders, packetSize, i - 1);
      AdvanceByAdds(state, 7, 7 * (i - 1));
    }
  }

  predicate Ordered(r: Range) { r.incr > 0.0 && r.low <= r.high }

  /**
   * The link rate is bits per packet times 10^6 times link_ppt, which is
   * also the Remy rate, and the on/off bounds are ten times their means.
   */
  lemma SampleConfigDerived(range: ConfigRange, state: nat, intHeaders: bool, packetSize: int)
    requires AllSamplable(range)
    ensures var c := SampleConfig(range, state, intHeaders, packetSize);
            c.linkRate == LinkRate(AdjustedPacketSize(intHeaders, packetSize), c.remyRate)
            && c.onBound == 10.0 * c.onMean && c.offBound == 10.0 * c.offMean
  {
    var c := SampleConfig(range, state, intHeaders, packetSize);
    var linkPpt := Sample(range.linkPpt, AdvanceBy(state, 1));
    assert c.remyRate == linkPpt;
  }

  /** With increasing ranges every sampled value lies within its range. */
  lemma SampleConfigWithin(range: ConfigRange, state: nat, intHeaders: bool, packetSize: int)
    requires AllSamplable(range)
    ensures var c := SampleConfig(range, state, intHeaders, packetSize);
            (Ordered(range.linkPpt) ==> range.linkPpt.low <= c.remyRate <= range.linkPpt.high)
            && (Ordered(range.rtt) ==> range.rtt.low <= c.rtt <= range.rtt.high)
            && (Ordered(range.numSenders) && range.numSenders.low >= 0.0 ==> 0 <= c.nSrc && c.nSrc as real <= range.numSenders.high)
            && (Ordered(range.meanOnDuration) ==> range.meanOnDuration.low <= c.onMean <= range.meanOnDuration.high)
            && (Ordered(range.meanOffDuration) ==> range.meanOffDuration.low <= c.offMean <= range.meanOffDuration.high)
            && (Ordered(range.stochasticLossRate) ==> range.stochasticLossRate.low <= c.errorRate <= range.stochasticLossRate.high)
            && (Ordered(range.bufferSize) ==> range.bufferSize.low <= c.bufferSize <= range.bufferSize.high)
  {
    var c := SampleConfig(range, state, intHeaders, packetSize);
    assert c.remyRate == Sample(range.linkPpt, AdvanceBy(state, 1));
    assert c.rtt == Sample(range.rtt, AdvanceBy(state, 2));
    assert c.nSrc == TruncateToInt(Sample(range.numSenders, AdvanceBy(state, 3)));
    assert c.onMean == Sample(range.meanOnDuration, AdvanceBy(state, 4));
    assert c.offMean == Sample(range.meanOffDuration, AdvanceBy(state, 5));
    assert c.errorRate == Sample(range.stochasticLossRate, AdvanceBy(state, 6));
    assert c.bufferSize == Sample(range.bufferSize, AdvanceBy(state, 7));
  }

  /** The packet grows by exactly eight bytes with INT headers, and only then. */
  lemma AdjustedPacketSizeGrows(intHeaders: bool, packetSize: int)
    ensures AdjustedPacketSize(intHeaders, packetSize) == packetSize + 8 <==> intHeaders
    ensures AdjustedPacketSize(intHeaders, packetSize) == packetSize <==> !intHeaders
  {
  }

  /** One round of the `generateNetworks` loop: seven draws make one configuration. */
  method SampleOne(range: ConfigRange, prng: Engine, intHeaders: bool, packetSize: int) returns (config: NetworkConfig)
    requires prng.Valid() && AllSamplable(range)
    modifies prng
    ensures prng.Valid() && prng.state == AdvanceBy(old(prng.state), 7)
    ensures config == SampleConfig(range, old(prng.state), intHeaders, packetSize)
  {
    ghost var s := prng.state;
    var linkPpt := prng.Next();
    var linkPptValue := Sample(range.linkPpt, linkPpt);
    var linkRate := LinkRate(AdjustedPacketSize(intHeaders, packetSize), linkPptValue);
    AdvanceOnce(s, 0);
    var rtt := prng.Next();
    AdvanceOnce(s, 1);
    var senders := prng.Next();
    AdvanceOnce(s, 2);
    var onMean := prng.Next();
    AdvanceOnce(s, 3);
    var offMean := prng.Next();
    AdvanceOnce(s, 4);
    var loss := prng.Next();
    AdvanceOnce(s, 5);
    var buffer := prng.Next();
    AdvanceOnce(s, 6);
    var onValue, offValue := Sample(range.meanOnDuration, onMean), Sample(range.meanOffDuration, offMean);
    config := NetworkConfig(Sample(range.rtt, rtt), linkRate, linkPptValue,
                            TruncateToInt(Sample(range.numSenders, senders)),
                            onValue, onValue * 10.0, offValue, offValue * 10.0,
                            Sample(range.stochasticLossRate, loss), Sample(range.bufferSize, buffer));
  }

  /**
   * `generateNetworks`: `sample_size` rounds of seven draws each; the
   * engine is left seven draws further on per configuration.
   */
  method GenerateNetworks(range: ConfigRange, prng: Engine, sampleSize: int, intHeaders: bool, packetSize: int)
    returns (configs: seq<NetworkConfig>)
    requires prng.Valid() && AllSamplable(range)
    modifies prng
    ensures prng.Valid()
    ensures configs == Networks(range, old(prng.state), sampleSize, intHeaders, packetSize)
    ensures prng.state == AdvanceBy(old(prng.state), 7 * (if sampleSize > 0 then sampleSize else 0))
  {
    ghost var start := prng.state;
    configs := [];
    var i := 0;
    while i < sampleSize
      invariant prng.Valid() && 0 <= i <= (if sampleSize > 0 then sampleSize else 0)
      invariant prng.state == AdvanceBy(start, 7 * i)
      invariant Networks(range, start, sampleSize, intHeaders, packetSize) == configs + Networks(range, prng.state, sampleSize - i, intHeaders, packetSize)
      decreases sampleSize - i
    {
      ghost var s := prng.state;
      var config := SampleOne(range, prng, intHeaders, packetSize);
      AdvanceByAdds(start, 7 * i, 7);
      ghost var rest := Networks(range, prng.state, sampleSize - i - 1, intHeaders, packetSize);
      assert Networks(range, s, sampleSize - i, intHeaders, packetSize) == [config] + rest;
      assert configs + ([config] + rest) == (configs + [config]) + rest;
      configs := configs + [config];
      i := i + 1;
    }
  }

  // ----------------------------------------------------------- rendering

  /**
   * `toString`: `{rtt=…;rate=…;remyrate=…;senders=…;onmean=…;onbound=…;offmean=…;offbound=…;sloss=…;buf=…}`
   * and a newline.  How `operator<<` renders a double (six significant
   * digits, `%g` style) is the parameter `show`; the sender count is an
   * integer rendering.
   */
  function ConfigText(c: NetworkConfig, show: real -> string): string {
    "{" + Join(Assignments(ConfigFields(c, show)), ";") + "}\n"
  }

  /** The keys `toString` writes, in order. */
  const ConfigKeys: seq<string> :=
    ["rtt", "rate", "remyrate", "senders", "onmean", "onbound", "offmean", "offbound", "sloss", "buf"]

  /** The key/value pairs `toString` writes, in order. */
  function ConfigFields(c: NetworkConfig, show: real -> string): (fields: seq<(string, string)>)
    ensures |fields| == |ConfigKeys|
    ensures forall i :: 0 <= i < |fields| ==> fields[i].0 == ConfigKeys[i]
    ensures fields[3].1 == IntToDecimal(c.nSrc)
  {
    [("rtt", show(c.rtt)), ("rate", show(c.linkRate)), ("remyrate", show(c.remyRate)),
     ("senders", IntToDecimal(c.nSrc)), ("onmean", show(c.onMean)), ("onbound", show(c.onBound)),
     ("offmean", show(c.offMean)), ("offbound", show(c.offBound)), ("sloss", show(c.errorRate)),
     ("buf", show(c.bufferSize))]
  }

  /** The text opens with `{rtt=` followed by the rendered round-trip time, and closes with `}` and a newline. */
  lemma ConfigTextFrame(c: NetworkConfig, show: real -> string)
    ensures var text := ConfigText(c, show);
            StartsWith(text, "{rtt=" + show(c.rtt))
            && |text| >= 2 && text[|text| - 2..] == "}\n"
  {
    var fields := ConfigFields(c, show);
    var tokens := Assignments(fields);
    var head := "{rtt=" + show(c.rtt);
    var rest := ";" + Join(tokens[1..], ";") + "}\n";
    assert tokens[0] == "rtt=" + show(c.rtt);
    assert Join(tokens, ";") == tokens[0] + ";" + Join(tokens[1..], ";");
    assert ConfigText(c, show) == head + rest;
    assert (head + rest)[..|head|] == head;
  }
}
