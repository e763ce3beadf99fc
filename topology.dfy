/**
 * The values of the simulation topologies: nodes, links, the subnet
 * counter, the per-topology configurations with their defaults, the
 * parameter and configuration factories, and the node and link layouts the
 * deterministic builders (dumbbell, line, fat-tree datacenter) produce.
 *
 * A topology keeps its nodes in one arena; the C++ vectors of node pointers
 * become sequences of arena positions, so two vectors that share a node
 * share its position.
 */
module SimTopology {
  import opened Wrappers
  import opened MachineInts
  import opened Text

  const MaxFanout: nat := 32

  /** Per-output-port trace flags, all clear. */
  function NoneTraced(): (flags: seq<bool>)
    ensures |flags| == MaxFanout && forall i :: 0 <= i < |flags| ==> !flags[i]
  {
    seq(MaxFanout, _ => false)
  }

  /** What a node is, apart from its adjacency. */
  datatype NodeLabel = NodeLabel(id: int, isEndHost: bool, isUntracedHost: bool)

  datatype TopologyNode = TopologyNode(
    id: int,
    isEndHost: bool,
    isUntracedHost: bool,
    neighbors: seq<int>,
    routerNeighbors: seq<int>,
    isTraced: seq<bool>)
  {
    function Label(): NodeLabel { NodeLabel(id, isEndHost, isUntracedHost) }

    /**
     * `addNeighbor`: every neighbour is recorded, and routers (non-end
     * hosts) once more in the router list.
     */
    function AddNeighbor(neighborId: int, neighborIsEndHost: bool): (n: TopologyNode)
      ensures n.Label() == Label() && n.isTraced == isTraced
      ensures n.neighbors == neighbors + [neighborId]
      ensures n.routerNeighbors == if neighborIsEndHost then routerNeighbors else routerNeighbors + [neighborId]
    {
      this.(neighbors := neighbors + [neighborId],
            routerNeighbors := if neighborIsEndHost then routerNeighbors else routerNeighbors + [neighborId])
    }

    /** `canAddNewNeighbor`: fewer neighbours than `candidates`. */
    predicate CanAddNewNeighbor(candidates: int) { candidates > |neighbors| }

    /** `canAddNewRouterNeighbor`: fewer router neighbours than `candidates`. */
    predicate CanAddNewRouterNeighbor(candidates: int) { candidates > |routerNeighbors| }
  }

  /** A fresh node: no neighbours, no port traced, not an untraced extra host. */
  function NewNode(newId: int, isHost: bool): (n: TopologyNode)
    ensures n.Label() == NodeLabel(newId, isHost, false)
    ensures n.neighbors == [] && n.routerNeighbors == [] && n.isTraced == NoneTraced()
  {
    TopologyNode(newId, isHost, false, [], [], NoneTraced())
  }

  /** `isNeighbor`: a scan of the neighbour list. */
  method IsNeighbor(node: TopologyNode, nodeId: int) returns (b: bool)
    ensures b <==> nodeId in node.neighbors
  {
    var i := 0;
    while i < |node.neighbors|
      invariant 0 <= i <= |node.neighbors|
      invariant nodeId !in node.neighbors[..i]
    {
      if nodeId == node.neighbors[i] {
        return true;
      }
      i := i + 1;
    }
    assert node.neighbors[..i] == node.neighbors;
    return false;
  }

  /** A node counts as able to take a neighbour exactly until it has `candidates` of them. */
  lemma CanAddUntilFull(node: TopologyNode, candidates: int, neighborId: int, neighborIsEndHost: bool)
    ensures node.CanAddNewNeighbor(candidates) <==> |node.neighbors| < candidates
    ensures node.AddNeighbor(neighborId, neighborIsEndHost).CanAddNewNeighbor(candidates)
            <==> |node.neighbors| + 1 < candidates
    ensures !neighborIsEndHost ==>
              (node.AddNeighbor(neighborId, neighborIsEndHost).CanAddNewRouterNeighbor(candidates)
               <==> |node.routerNeighbors| + 1 < candidates)
    ensures neighborIsEndHost ==>
              (node.AddNeighbor(neighborId, neighborIsEndHost).CanAddNewRouterNeighbor(candidates)
               <==> node.CanAddNewRouterNeighbor(candidates))
  {
  }

  // ---------------------------------------------------------------- subnets

  /** The four bytes of the next subnet address (`uint8_t addressBytes[4]`). */
  datatype AddressBytes = AddressBytes(b0: bv8, b1: bv8, b2: bv8, b3: bv8)

  const InitialAddress: AddressBytes := AddressBytes(10, 0, 100, 0)
  const InitialPort: nat := 5000

  /** The dotted-decimal text of an address. */
  function Dotted(a: AddressBytes): (s: string)
    ensures |s| >= 7
  {
    NatToDecimal(a.b0 as nat) + "." + NatToDecimal(a.b1 as nat) + "."
      + NatToDecimal(a.b2 as nat) + "." + NatToDecimal(a.b3 as nat)
  }

  /**
   * The address `getNewSubnet` leaves behind: the third byte counts
   * 1..255 and, past 255, restarts at 1 with a carry into the (wrapping)
   * second byte.
   */
  function NextAddress(a: AddressBytes): (r: AddressBytes)
    ensures r.b0 == a.b0 && r.b3 == a.b3 && r.b2 != 0
    ensures a.b2 == 255 ==> r.b2 == 1 && r.b1 == a.b1 + 1
    ensures a.b2 != 255 ==> r.b2 == a.b2 + 1 && r.b1 == a.b1
  {
    if a.b2 == 255 then a.(b1 := a.b1 + 1, b2 := 1) else a.(b2 := a.b2 + 1)
  }

  /** The address after `m` subnets have been handed out. */
  function AddressAfter(a: AddressBytes, m: nat): AddressBytes
    decreases m
  {
    if m == 0 then a else NextAddress(AddressAfter(a, m - 1))
  }

  lemma {:induction false} AddressAfterAdds(a: AddressBytes, m: nat, k: nat)
    ensures AddressAfter(AddressAfter(a, m), k) == AddressAfter(a, m + k)
    decreases k
  {
    if k > 0 {
      AddressAfterAdds(a, m, k - 1);
    }
  }

  /** The number of distinct (second byte, third byte) pairs the counter runs through. */
  const SubnetCycle: nat := 256 * 255

  /** Position of an address in the counter's cycle (third byte 1..255). */
  function SubnetSerial(a: AddressBytes): (s: int)
    requires a.b2 != 0
    ensures 0 <= s < SubnetCycle
  {
    (a.b1 as int) * 255 + (a.b2 as int) - 1
  }

  lemma SubnetSerialStep(a: AddressBytes)
    requires a.b2 != 0 && SubnetSerial(a) + 1 < SubnetCycle
    ensures SubnetSerial(NextAddress(a)) == SubnetSerial(a) + 1
  {
    if a.b2 == 255 {
      assert (NextAddress(a).b1 as int) == (a.b1 as int) + 1;
    } else {
      assert (NextAddress(a).b2 as int) == (a.b2 as int) + 1;
    }
  }

  /** Until the counter comes round, every subnet handed out moves one place along the cycle. */
  lemma {:induction false} SubnetSerialAfter(a: AddressBytes, m: nat)
    requires a.b2 != 0 && SubnetSerial(a) + m < SubnetCycle
    ensures AddressAfter(a, m).b2 != 0
    ensures SubnetSerial(AddressAfter(a, m)) == SubnetSerial(a) + m
    decreases m
  {
    if m > 0 {
      SubnetSerialAfter(a, m - 1);
      SubnetSerialStep(AddressAfter(a, m - 1));
    }
  }

  /**
   * From the initial address 10.0.100.0, the first 65181 subnets handed
   * out are pairwise different: the first is 10.0.100.0 itself, and the
   * later ones walk the counter's cycle from 10.0.101.0 without coming
   * round.
   */
  lemma SubnetsDistinct(m1: nat, m2: nat)
    requires 1 <= m1 < m2 <= SubnetCycle - 100
    ensures AddressAfter(InitialAddress, m1) != AddressAfter(InitialAddress, m2)
    ensures AddressAfter(InitialAddress, m1) != InitialAddress
  {
    var start := NextAddress(InitialAddress);
    assert AddressAfter(InitialAddress, 1) == start;
    assert SubnetSerial(start) == 100;
    var x1 := AddressAfter(InitialAddress, m1);
    var x2 := AddressAfter(InitialAddress, m2);
    assert x1 == AddressAfter(start, m1 - 1) by {
      AddressAfterAdds(InitialAddress, 1, m1 - 1);
    }
    assert x2 == AddressAfter(start, m2 - 1) by {
      AddressAfterAdds(InitialAddress, 1, m2 - 1);
    }
    SubnetSerialAfter(start, m1 - 1);
    SubnetSerialAfter(start, m2 - 1);
    assert SubnetSerial(x1) == 100 + m1 - 1;
    assert SubnetSerial(x2) == 100 + m2 - 1;
    assert SubnetSerial(InitialAddress) < SubnetSerial(x1);
  }

  /** The four numbers of a dotted address, each in decimal. */
  function DottedParts(a: AddressBytes): (parts: seq<string>)
    ensures |parts| == 4 && forall k :: 0 <= k < 4 ==> AllDigits(parts[k])
  {
    [NatToDecimal(a.b0 as nat), NatToDecimal(a.b1 as nat), NatToDecimal(a.b2 as nat), NatToDecimal(a.b3 as nat)]
  }

  /** Four texts joined by points. */
  lemma JoinFour(p0: string, p1: string, p2: string, p3: string)
    ensures Join([p0, p1, p2, p3], ".") == p0 + "." + p1 + "." + p2 + "." + p3
  {
    var parts := [p0, p1, p2, p3];
    assert parts[1..] == [p1, p2, p3] && parts[2..] == [p2, p3] && parts[3..] == [p3];
    assert Join(parts[2..], ".") == p2 + "." + p3;
    assert Join(parts[1..], ".") == p1 + "." + (p2 + "." + p3);
  }

  /** The dotted text is its four numbers joined by points. */
  lemma DottedJoin(a: AddressBytes)
    ensures Join(DottedParts(a), ".") == Dotted(a)
  {
    JoinFour(NatToDecimal(a.b0 as nat), NatToDecimal(a.b1 as nat), NatToDecimal(a.b2 as nat), NatToDecimal(a.b3 as nat));
  }

  /** Splitting a dotted address at its points gives back its four numbers, which read back as its bytes. */
  lemma DottedReadsBack(a: AddressBytes)
    ensures Split(Dotted(a), ".") == DottedParts(a)
    ensures var parts := DottedParts(a);
            DigitsValue(parts[0]) == a.b0 as nat && DigitsValue(parts[1]) == a.b1 as nat
            && DigitsValue(parts[2]) == a.b2 as nat && DigitsValue(parts[3]) == a.b3 as nat
  {
    var parts := DottedParts(a);
    forall k | 0 <= k < 4 ensures Avoids(parts[k], '.') {
      assert AllDigits(parts[k]);
    }
    DottedJoin(a);
    SplitJoin(parts, ".");
    DigitsValueOfDecimal(a.b0 as nat);
    DigitsValueOfDecimal(a.b1 as nat);
    DigitsValueOfDecimal(a.b2 as nat);
    DigitsValueOfDecimal(a.b3 as nat);
  }

  /** Equal decimal texts name equal numbers. */
  lemma DecimalInjective(x: nat, y: nat)
    requires NatToDecimal(x) == NatToDecimal(y)
    ensures x == y
  {
    DigitsValueOfDecimal(x);
    DigitsValueOfDecimal(y);
  }

  /** A byte is determined by its value. */
  lemma ByteOfValue(x: bv8, y: bv8)
    requires x as nat == y as nat
    ensures x == y
  {
  }

  /** The four numbers of an address determine it. */
  lemma DottedPartsDetermine(a: AddressBytes, b: AddressBytes)
    requires DottedParts(a) == DottedParts(b)
    ensures a == b
  {
    var pa, pb := DottedParts(a), DottedParts(b);
    assert pa[0] == pb[0] && pa[1] == pb[1] && pa[2] == pb[2] && pa[3] == pb[3];
    DecimalInjective(a.b0 as nat, b.b0 as nat);
    DecimalInjective(a.b1 as nat, b.b1 as nat);
    DecimalInjective(a.b2 as nat, b.b2 as nat);
    DecimalInjective(a.b3 as nat, b.b3 as nat);
    ByteOfValue(a.b0, b.b0);
    ByteOfValue(a.b1, b.b1);
    ByteOfValue(a.b2, b.b2);
    ByteOfValue(a.b3, b.b3);
  }

  /** Different addresses have different dotted texts. */
  lemma DottedInjective(a: AddressBytes, b: AddressBytes)
    ensures Dotted(a) == Dotted(b) <==> a == b
  {
    if Dotted(a) == Dotted(b) {
      DottedReadsBack(a);
      DottedReadsBack(b);
      DottedPartsDetermine(a, b);
    }
  }

  /** The subnet strings `getNewSubnet` returns before the counter comes round are pairwise distinct. */
  lemma SubnetStringsDistinct(m1: nat, m2: nat)
    requires 1 <= m1 < m2 <= SubnetCycle - 100
    ensures Dotted(AddressAfter(InitialAddress, m1)) != Dotted(AddressAfter(InitialAddress, m2))
  {
    SubnetsDistinct(m1, m2);
    DottedInjective(AddressAfter(InitialAddress, m1), AddressAfter(InitialAddress, m2));
  }

  /** `getPort`: the port counter is bumped (as a `uint16_t`) before it is returned. */
  function NextPort(currPort: nat): (p: nat)
    ensures p < U16Limit
    ensures currPort + 1 < U16Limit ==> p == currPort + 1
    ensures currPort + 1 == U16Limit ==> p == 0
  {
    U16(currPort + 1)
  }

  // ------------------------------------------------------------------ links

  /** A point-to-point link between two arena positions, with its settings. */
  datatype Link = Link(
    node1: nat,
    node2: nat,
    linkRate: real,
    rateUnit: string,
    delay: real,
    delayUnit: string,
    bufferLen: int,
    addresses: string,
    mask: string)

  const LinkMask: string := "255.255.255.0"

  predicate LinksWithin(links: seq<Link>, bound: nat) {
    forall l :: 0 <= l < |links| ==> links[l].node1 < bound && links[l].node2 < bound
  }

  /**
   * The neighbour ids a node at position `v` has collected from `links`,
   * in link order (only routers' ids when `routersOnly`).
   */
  function Partners(nodes: seq<TopologyNode>, links: seq<Link>, v: nat, routersOnly: bool): seq<int>
    requires LinksWithin(links, |nodes|)
    decreases |links|
  {
    if links == [] then []
    else
      var l := links[|links| - 1];
      var other1 := nodes[l.node2];
      var other2 := nodes[l.node1];
      Partners(nodes, links[..|links| - 1], v, routersOnly)
        + (if l.node1 == v && (!routersOnly || !other1.isEndHost) then [other1.id] else [])
        + (if l.node2 == v && (!routersOnly || !other2.isEndHost) then [other2.id] else [])
  }

  /**
   * The node arena agrees with the link list: every node is as created
   * (nothing traced) and its neighbour lists are exactly the ids collected
   * from the links that touch it.
   */
  predicate Wired(nodes: seq<TopologyNode>, links: seq<Link>) {
    LinksWithin(links, |nodes|) && forall v :: 0 <= v < |nodes| ==> NodeWired(nodes, links, v)
  }

  predicate NodeWired(nodes: seq<TopologyNode>, links: seq<Link>, v: nat)
    requires LinksWithin(links, |nodes|) && v < |nodes|
  {
    nodes[v].neighbors == Partners(nodes, links, v, false)
    && nodes[v].routerNeighbors == Partners(nodes, links, v, true)
    && nodes[v].isTraced == NoneTraced()
  }

  function Labels(nodes: seq<TopologyNode>): (ls: seq<NodeLabel>)
    ensures |ls| == |nodes| && forall v :: 0 <= v < |nodes| ==> ls[v] == nodes[v].Label()
  {
    seq(|nodes|, v requires 0 <= v < |nodes| => nodes[v].Label())
  }

  /** Neighbour collection depends only on the labels of the nodes the links touch. */
  lemma {:induction false} PartnersFrame(a: seq<TopologyNode>, b: seq<TopologyNode>, links: seq<Link>, v: nat, routersOnly: bool)
    requires |a| <= |b| && LinksWithin(links, |a|)
    requires forall x :: 0 <= x < |a| ==> a[x].Label() == b[x].Label()
    ensures LinksWithin(links, |b|)
    ensures Partners(a, links, v, routersOnly) == Partners(b, links, v, routersOnly)
    decreases |links|
  {
    if links != [] {
      PartnersFrame(a, b, links[..|links| - 1], v, routersOnly);
      var l := links[|links| - 1];
      assert a[l.node1].Label() == b[l.node1].Label();
      assert a[l.node2].Label() == b[l.node2].Label();
    }
  }

  /** A position no link touches has collected no neighbours. */
  lemma {:induction false} PartnersUntouched(nodes: seq<TopologyNode>, links: seq<Link>, v: nat, bound: nat, routersOnly: bool)
    requires LinksWithin(links, |nodes|) && LinksWithin(links, bound) && bound <= v
    ensures Partners(nodes, links, v, routersOnly) == []
    decreases |links|
  {
    if links != [] {
      PartnersUntouched(nodes, links[..|links| - 1], v, bound, routersOnly);
    }
  }

  // ---------------------------------------------------------------- configs

  /** `DatacenterTopologyConfig`; a zero argument keeps the default. */
  datatype DatacenterConfig = DatacenterConfig(
    serverUplinkRate: real, torUplinkRate: real, aggUplinkRate: real, linkDelay: real, bufferLen: int)

  function NewDatacenterConfig(serverRate: real, torUpRate: real, aggUpRate: real, delay: real, bufLen: int)
    : (c: DatacenterConfig)
    ensures c.serverUplinkRate == if serverRate != 0.0 then serverRate else 100.0
    ensures c.torUplinkRate == if torUpRate != 0.0 then torUpRate else 100.0
    ensures c.aggUplinkRate == if aggUpRate != 0.0 then aggUpRate else 100.0
    ensures c.linkDelay == if delay != 0.0 then delay else 0.001
    ensures c.bufferLen == if bufLen != 0 then bufLen else 100
  {
    DatacenterConfig(
      if serverRate != 0.0 then serverRate else 100.0,
      if torUpRate != 0.0 then torUpRate else 100.0,
      if aggUpRate != 0.0 then aggUpRate else 100.0,
      if delay != 0.0 then delay else 0.001,
      if bufLen != 0 then bufLen else 100)
  }

  /** `DumbbellTopologyConfig`; a zero argument keeps the default. */
  datatype DumbbellConfig = DumbbellConfig(
    bottleneckRate: real, bottleneckDelay: real, bottleneckBufferLen: int, hostBufferLen: int, hostLinkRate: real)

  function NewDumbbellConfig(btlRate: real, btlDelay: real, btlBuf: int, hostBuf: int, hostRate: real)
    : (c: DumbbellConfig)
    ensures c.bottleneckRate == if btlRate != 0.0 then btlRate else 1.0
    ensures c.bottleneckDelay == if btlDelay != 0.0 then btlDelay else 10.0
    ensures c.bottleneckBufferLen == if btlBuf != 0 then btlBuf else 100
    ensures c.hostBufferLen == if hostBuf != 0 then hostBuf else 10000
    ensures c.hostLinkRate == if hostRate != 0.0 then hostRate else 1000000.0
  {
    DumbbellConfig(
      if btlRate != 0.0 then btlRate else 1.0,
      if btlDelay != 0.0 then btlDelay else 10.0,
      if btlBuf != 0 then btlBuf else 100,
      if hostBuf != 0 then hostBuf else 10000,
      if hostRate != 0.0 then hostRate else 1000000.0)
  }

  /** `LineTopologyConfig`; a zero argument keeps the default. */
  datatype LineConfig = LineConfig(
    maxRtt: real, bottleneckRate: real, bufferLen: int, hostBufferLen: int, hostLinkRate: real)

  function NewLineConfig(maxDelay: real, btlRate: real, buf: int, hostBuf: int, hostRate: real)
    : (c: LineConfig)
    ensures c.maxRtt == if maxDelay != 0.0 then maxDelay else 1.0
    ensures c.bottleneckRate == if btlRate != 0.0 then btlRate else 10.0
    ensures c.bufferLen == if buf != 0 then buf else 100
    ensures c.hostBufferLen == if hostBuf != 0 then hostBuf else 10000
    ensures c.hostLinkRate == if hostRate != 0.0 then hostRate else 1000000.0
  {
    LineConfig(
      if maxDelay != 0.0 then maxDelay else 1.0,
      if btlRate != 0.0 then btlRate else 10.0,
      if buf != 0 then buf else 100,
      if hostBuf != 0 then hostBuf else 10000,
      if hostRate != 0.0 then hostRate else 1000000.0)
  }

  /** Any non-zero argument is kept as given. */
  lemma NonZeroArgumentsKept(x: real, y: real, z: real, d: real, b: int)
    requires x != 0.0 && y != 0.0 && z != 0.0 && d != 0.0 && b != 0
    ensures NewDatacenterConfig(x, y, z, d, b) == DatacenterConfig(x, y, z, d, b)
    ensures NewDumbbellConfig(x, d, b, b, y) == DumbbellConfig(x, d, b, b, y)
    ensures NewLineConfig(d, x, b, b, y) == LineConfig(d, x, b, b, y)
  {
  }

  datatype TopologyType = Random | Datacenter | Dumbbell | Line

  datatype TopologyConfig =
    | DatacenterTopologyConfig(datacenter: DatacenterConfig)
    | DumbbellTopologyConfig(dumbbell: DumbbellConfig)
    | LineTopologyConfig(line: LineConfig)

  /**
   * `TopologyConfigFactory::CreateTopologyConfig`: no configuration for a
   * random topology, the defaults for a datacenter, and the given delay and
   * buffer (zero meaning default) for a dumbbell or a line.
   */
  function CreateTopologyConfig(topoType: TopologyType, delay: real, buffer: int): (c: Option<TopologyConfig>)
    ensures topoType == Random <==> c.None?
    ensures topoType == Datacenter ==> c == Some(DatacenterTopologyConfig(DatacenterConfig(100.0, 100.0, 100.0, 0.001, 100)))
    ensures topoType == Dumbbell ==>
              c.Some? && c.value.DumbbellTopologyConfig?
              && c.value.dumbbell.bottleneckRate == 1.0
              && c.value.dumbbell.bottleneckDelay == (if delay != 0.0 then delay else 10.0)
              && c.value.dumbbell.bottleneckBufferLen == (if buffer != 0 then buffer else 100)
              && c.value.dumbbell.hostBufferLen == 10000 && c.value.dumbbell.hostLinkRate == 1000000.0
    ensures topoType == Line ==>
              c.Some? && c.value.LineTopologyConfig?
              && c.value.line.maxRtt == (if delay != 0.0 then delay else 1.0)
              && c.value.line.bottleneckRate == 10.0
              && c.value.line.bufferLen == (if buffer != 0 then buffer else 100)
              && c.value.line.hostBufferLen == 10000 && c.value.line.hostLinkRate == 1000000.0
  {
    match topoType
    case Random => None
    case Datacenter => Some(DatacenterTopologyConfig(NewDatacenterConfig(0.0, 0.0, 0.0, 0.0, 0)))
    case Dumbbell => Some(DumbbellTopologyConfig(NewDumbbellConfig(0.0, delay, buffer, 0, 0.0)))
    case Line => Some(LineTopologyConfig(NewLineConfig(delay, 0.0, buffer, 0, 0.0)))
  }

  /** The topology parameters; the flags are the ones each C++ constructor sets. */
  datatype TopologyParameter =
    | RandomTopologyParameter(numEndHosts: int, numRouters: int)
    | DatacenterTopologyParameter(k: int)
    | DumbbellTopologyParameter(n: int, hasExtraFlows: bool)
    | LineTopologyParameter(numRouters: int, numHostsPerRouter: int, numSenders: int, hasExtraFlows: bool)
  {
    /** Only the random topology is not deterministic. */
    predicate IsDeterministic() { !RandomTopologyParameter? }
  }

  /**
   * `TopologyParameterFactory::CreateTopologyParameter`: the first argument
   * goes to every kind, the second and third only where the kind has
   * room; a dumbbell starts without extra flows and a line with them.
   */
  function CreateTopologyParameter(topoType: TopologyType, arg1: int, arg2: int, arg3: int): (p: TopologyParameter)
    ensures p.IsDeterministic() <==> topoType != Random
    ensures topoType == Random ==> p == RandomTopologyParameter(arg1, arg2)
    ensures topoType == Datacenter ==> p == DatacenterTopologyParameter(arg1)
    ensures topoType == Dumbbell ==> p == DumbbellTopologyParameter(arg1, false)
    ensures topoType == Line ==> p == LineTopologyParameter(arg1, arg2, arg3, true)
  {
    match topoType
    case Random => RandomTopologyParameter(arg1, arg2)
    case Datacenter => DatacenterTopologyParameter(arg1)
    case Dumbbell => DumbbellTopologyParameter(arg1, false)
    case Line => LineTopologyParameter(arg1, arg2, arg3, true)
  }

  // ------------------------------------------------------- link settings

  datatype LinkType = Host | Tor | Aggregator

  /** The settings each topology's `addLink` chooses for a new link. */
  datatype LinkStyle =
    | DumbbellStyle(dumbbell: DumbbellConfig)
    | LineStyle(line: LineConfig, routerCount: nat)
    | DatacenterStyle(datacenter: DatacenterConfig, linkType: LinkType)

  /**
   * When a line link's delay is defined: a router-to-router link divides
   * by half the (integer) number of routers, an extra host's link by half
   * of it as a double.
   */
  predicate StyleAllows(style: LinkStyle, end1: NodeLabel, end2: NodeLabel) {
    style.LineStyle? ==>
      (!end1.isEndHost && !end2.isEndHost ==> style.routerCount >= 2)
      && (end1.isUntracedHost || end2.isUntracedHost ==> style.routerCount >= 1)
  }

  /**
   * The link `addLink` appends between positions `i` and `j`, given what
   * their nodes are and the subnet it takes.
   */
  function LinkFor(style: LinkStyle, end1: NodeLabel, end2: NodeLabel, i: nat, j: nat, subnet: string): (l: Link)
    requires StyleAllows(style, end1, end2)
    ensures l.node1 == i && l.node2 == j && l.addresses == subnet && l.mask == LinkMask
  {
    var hostLink := end1.isEndHost || end2.isEndHost;
    match style
    case DumbbellStyle(c) =>
      if hostLink then Link(i, j, c.hostLinkRate, "Gbps", 0.0, "us", c.hostBufferLen, subnet, LinkMask)
      else Link(i, j, c.bottleneckRate, "Gbps", c.bottleneckDelay, "us", c.bottleneckBufferLen, subnet, LinkMask)
    case LineStyle(c, routers) =>
      if hostLink && (end1.isUntracedHost || end2.isUntracedHost) then
        var half := routers as real / 2.0;
        Link(i, j, c.hostLinkRate, "Gbps", (c.maxRtt - c.maxRtt / half) / 2.0, "us", c.hostBufferLen, subnet, LinkMask)
      else if hostLink then
        Link(i, j, c.hostLinkRate, "Gbps", 0.0, "us", c.hostBufferLen, subnet, LinkMask)
      else
        var half: nat := routers / 2;
        Link(i, j, c.bottleneckRate, "Gbps", c.maxRtt / half as real, "us", c.bufferLen, subnet, LinkMask)
    case DatacenterStyle(c, t) =>
      var rate := match t
        case Host => c.serverUplinkRate
        case Tor => c.torUplinkRate
        case Aggregator => c.aggUplinkRate;
      Link(i, j, TruncateToInt(rate) as real, "Mbps", c.linkDelay, "ms", c.bufferLen, subnet, LinkMask)
  }

  /**
   * What each kind of link carries: host links of a dumbbell or a line run
   * at the host rate with the host buffer, router links at the bottleneck
   * rate with the bottleneck buffer; datacenter links use Mbps and ms with
   * the one configured delay and buffer, the others Gbps and us.
   */
  lemma LinkSettings(style: LinkStyle, end1: NodeLabel, end2: NodeLabel, i: nat, j: nat, subnet: string)
    requires StyleAllows(style, end1, end2)
    ensures var l := LinkFor(style, end1, end2, i, j, subnet);
            var hostLink := end1.isEndHost || end2.isEndHost;
            (l.rateUnit == if style.DatacenterStyle? then "Mbps" else "Gbps")
            && (l.delayUnit == if style.DatacenterStyle? then "ms" else "us")
            && (style.DumbbellStyle? && hostLink ==>
                  l.linkRate == style.dumbbell.hostLinkRate && l.delay == 0.0
                  && l.bufferLen == style.dumbbell.hostBufferLen)
            && (style.DumbbellStyle? && !hostLink ==>
                  l.linkRate == style.dumbbell.bottleneckRate && l.delay == style.dumbbell.bottleneckDelay
                  && l.bufferLen == style.dumbbell.bottleneckBufferLen)
            && (style.LineStyle? && hostLink ==>
                  l.linkRate == style.line.hostLinkRate && l.bufferLen == style.line.hostBufferLen)
            && (style.LineStyle? && hostLink && !end1.isUntracedHost && !end2.isUntracedHost ==> l.delay == 0.0)
            && (style.LineStyle? && !hostLink ==>
                  l.linkRate == style.line.bottleneckRate && l.bufferLen == style.line.bufferLen)
            && (style.DatacenterStyle? ==>
                  l.delay == style.datacenter.linkDelay && l.bufferLen == style.datacenter.bufferLen
                  && l.linkRate == (TruncateToInt(match style.linkType
                                                  case Host => style.datacenter.serverUplinkRate
                                                  case Tor => style.datacenter.torUplinkRate
                                                  case Aggregator => style.datacenter.aggUplinkRate)) as real)
  {
  }

  /**
   * On a line with an even number of routers, an extra flow's path (extra
   * host, one router hop, extra host) has the configured `maxRtt` as its
   * total delay: the two extra-host links make up what the hop leaves.
   */
  lemma LineExtraFlowDelay(c: LineConfig, routers: nat, extra1: NodeLabel, router1: NodeLabel, router2: NodeLabel,
                           extra2: NodeLabel)
    requires routers >= 2 && routers % 2 == 0
    requires extra1.isEndHost && extra1.isUntracedHost && extra2.isEndHost && extra2.isUntracedHost
    requires !router1.isEndHost && !router2.isEndHost
    ensures var style := LineStyle(c, routers);
            LinkFor(style, extra1, router1, 0, 0, "").delay + LinkFor(style, router1, router2, 0, 0, "").delay
              + LinkFor(style, extra2, router2, 0, 0, "").delay == c.maxRtt
  {
    var half: nat := routers / 2;
    assert routers as real / 2.0 == half as real;
    var hop := c.maxRtt / half as real;
    assert (c.maxRtt - hop) / 2.0 + hop + (c.maxRtt - hop) / 2.0 == c.maxRtt;
  }

  // ------------------------------------------------ wiring preservation

  lemma PartnersAppend(nodes: seq<TopologyNode>, links: seq<Link>, l: Link, v: nat, routersOnly: bool)
    requires LinksWithin(links, |nodes|) && l.node1 < |nodes| && l.node2 < |nodes|
    ensures LinksWithin(links + [l], |nodes|)
    ensures Partners(nodes, links + [l], v, routersOnly)
            == Partners(nodes, links, v, routersOnly)
               + (if l.node1 == v && (!routersOnly || !nodes[l.node2].isEndHost) then [nodes[l.node2].id] else [])
               + (if l.node2 == v && (!routersOnly || !nodes[l.node1].isEndHost) then [nodes[l.node1].id] else [])
  {
    assert (links + [l])[..|links|] == links;
    assert forall x :: 0 <= x < |links| ==> links[x] == (links + [l])[x];
  }

  /** The neighbour ids linking `i` to `j` adds to the node at `v`. */
  function Gained(nodes: seq<TopologyNode>, i: nat, j: nat, v: nat, routersOnly: bool): seq<int>
    requires i < |nodes| && j < |nodes|
  {
    (if i == v && (!routersOnly || !nodes[j].isEndHost) then [nodes[j].id] else [])
      + (if j == v && (!routersOnly || !nodes[i].isEndHost) then [nodes[i].id] else [])
  }

  /** The two endpoint updates `addLink` makes. */
  function LinkedNodes(nodes: seq<TopologyNode>, i: nat, j: nat): (r: seq<TopologyNode>)
    requires i < |nodes| && j < |nodes|
    ensures |r| == |nodes|
    ensures forall v :: 0 <= v < |r| ==>
              r[v].Label() == nodes[v].Label()
              && r[v].neighbors == nodes[v].neighbors + Gained(nodes, i, j, v, false)
              && r[v].routerNeighbors == nodes[v].routerNeighbors + Gained(nodes, i, j, v, true)
              && r[v].isTraced == nodes[v].isTraced
  {
    var first := nodes[i := nodes[i].AddNeighbor(nodes[j].id, nodes[j].isEndHost)];
    var r := first[j := first[j].AddNeighbor(first[i].id, first[i].isEndHost)];
    LinkedNodesEach(nodes, i, j, first, r);
    r
  }

  /** Linking two nodes changes no node's label. */
  lemma LinkedLabels(nodes: seq<TopologyNode>, i: nat, j: nat)
    requires i < |nodes| && j < |nodes|
    ensures Labels(LinkedNodes(nodes, i, j)) == Labels(nodes)
  {
    var r := LinkedNodes(nodes, i, j);
    assert forall v :: 0 <= v < |r| ==> Labels(r)[v] == Labels(nodes)[v];
  }

  lemma LinkedNodesEach(nodes: seq<TopologyNode>, i: nat, j: nat, first: seq<TopologyNode>, r: seq<TopologyNode>)
    requires i < |nodes| && j < |nodes|
    requires first == nodes[i := nodes[i].AddNeighbor(nodes[j].id, nodes[j].isEndHost)]
    requires r == first[j := first[j].AddNeighbor(first[i].id, first[i].isEndHost)]
    ensures |r| == |nodes|
    ensures forall v :: 0 <= v < |r| ==>
              r[v].Label() == nodes[v].Label()
              && r[v].neighbors == nodes[v].neighbors + Gained(nodes, i, j, v, false)
              && r[v].routerNeighbors == nodes[v].routerNeighbors + Gained(nodes, i, j, v, true)
              && r[v].isTraced == nodes[v].isTraced
  {
    assert first[i].Label() == nodes[i].Label();
    forall v | 0 <= v < |r|
      ensures r[v].Label() == nodes[v].Label()
              && r[v].neighbors == nodes[v].neighbors + Gained(nodes, i, j, v, false)
              && r[v].routerNeighbors == nodes[v].routerNeighbors + Gained(nodes, i, j, v, true)
              && r[v].isTraced == nodes[v].isTraced
    {
      if v != i && v != j {
        assert r[v] == nodes[v];
      } else if v != j {
        assert r[v] == first[i];
      } else if v != i {
        assert r[v] == first[j].AddNeighbor(first[i].id, first[i].isEndHost);
        assert first[j] == nodes[j];
      } else {
        assert r[v] == first[i].AddNeighbor(first[i].id, first[i].isEndHost);
      }
    }
  }

  /** A node's neighbour list, or its router-neighbour list. */
  function NeighborList(node: TopologyNode, routersOnly: bool): seq<int> {
    if routersOnly then node.routerNeighbors else node.neighbors
  }

  lemma AddLinkKeepsNode(nodes: seq<TopologyNode>, after: seq<TopologyNode>, links: seq<Link>, l: Link,
                         v: nat, routersOnly: bool)
    requires LinksWithin(links, |nodes|) && l.node1 < |nodes| && l.node2 < |nodes| && v < |nodes|
    requires |after| == |nodes| && forall x :: 0 <= x < |nodes| ==> after[x].Label() == nodes[x].Label()
    requires NeighborList(nodes[v], routersOnly) == Partners(nodes, links, v, routersOnly)
    requires NeighborList(after[v], routersOnly)
             == NeighborList(nodes[v], routersOnly) + Gained(nodes, l.node1, l.node2, v, routersOnly)
    ensures LinksWithin(links + [l], |after|)
    ensures NeighborList(after[v], routersOnly) == Partners(after, links + [l], v, routersOnly)
  {
    PartnersAppend(nodes, links, l, v, routersOnly);
    PartnersFrame(nodes, after, links + [l], v, routersOnly);
  }

  lemma AddLinkKeepsNodeWired(nodes: seq<TopologyNode>, links: seq<Link>, l: Link, v: nat)
    requires Wired(nodes, links) && l.node1 < |nodes| && l.node2 < |nodes| && v < |nodes|
    ensures LinksWithin(links + [l], |nodes|)
    ensures NodeWired(LinkedNodes(nodes, l.node1, l.node2), links + [l], v)
  {
    var after := LinkedNodes(nodes, l.node1, l.node2);
    assert NodeWired(nodes, links, v);
    AddLinkKeepsNode(nodes, after, links, l, v, false);
    AddLinkKeepsNode(nodes, after, links, l, v, true);
  }

  /** Linking two nodes keeps the arena and the link list in agreement. */
  lemma AddLinkKeepsWired(nodes: seq<TopologyNode>, links: seq<Link>, l: Link)
    requires Wired(nodes, links) && l.node1 < |nodes| && l.node2 < |nodes|
    ensures Wired(LinkedNodes(nodes, l.node1, l.node2), links + [l])
  {
    var after := LinkedNodes(nodes, l.node1, l.node2);
    assert LinksWithin(links + [l], |after|);
    forall v | 0 <= v < |after|
      ensures NodeWired(after, links + [l], v)
    {
      AddLinkKeepsNodeWired(nodes, links, l, v);
    }
  }

  /** A fresh node appended to the arena keeps it in agreement with the links. */
  lemma AddNodeKeepsWired(nodes: seq<TopologyNode>, links: seq<Link>, node: TopologyNode)
    requires Wired(nodes, links)
    requires node.neighbors == [] && node.routerNeighbors == [] && node.isTraced == NoneTraced()
    ensures Wired(nodes + [node], links)
  {
    var after := nodes + [node];
    forall v | 0 <= v < |after|
      ensures NodeWired(after, links, v)
    {
      if v < |nodes| {
        assert NodeWired(nodes, links, v);
      }
      PartnersFrame(nodes, after, links, v, false);
      PartnersFrame(nodes, after, links, v, true);
      if v == |nodes| {
        PartnersUntouched(nodes, links, v, |nodes|, false);
        PartnersUntouched(nodes, links, v, |nodes|, true);
      }
    }
  }

  // ----------------------------------------------------------- layouts

  /** The labels of `count` nodes created in a row with consecutive ids. */
  function Run(firstId: int, count: nat, isHost: bool, untraced: bool): (r: seq<NodeLabel>)
    ensures |r| == count
    ensures forall i :: 0 <= i < count ==> r[i] == NodeLabel(firstId + i, isHost, untraced)
  {
    seq(count, i => NodeLabel(firstId + i, isHost, untraced))
  }

  function Flatten<T>(xss: seq<seq<T>>): seq<T>
    decreases |xss|
  {
    if xss == [] then [] else Flatten(xss[..|xss| - 1]) + xss[|xss| - 1]
  }

  lemma FlattenStep<T>(xss: seq<seq<T>>, i: nat)
    requires i < |xss|
    ensures Flatten(xss[..i + 1]) == Flatten(xss[..i]) + xss[i]
  {
    assert xss[..i + 1][..i] == xss[..i];
  }

  /** Dumbbell: left hosts, right hosts, two routers, then (with extra flows) the extra right and left hosts. */
  function DumbbellLabels(n: nat, hasExtraFlows: bool): seq<NodeLabel> {
    Run(0, n, true, false) + Run(n, n, true, false) + Run(2 * n, 2, false, false)
      + (if hasExtraFlows then Run(2 * n + 2, 2 * n, true, true) + Run(4 * n + 2, 2 * n, true, true) else [])
  }

  /**
   * Dumbbell links in creation order: each left host to the left router,
   * each right host to the right router, the bottleneck between the
   * routers, then the extra left and right hosts to their routers.
   */
  function DumbbellEndpoints(n: nat, hasExtraFlows: bool): seq<(nat, nat)> {
    seq(n, i => (i, 2 * n)) + seq(n, i => (n + i, 2 * n + 1)) + [(2 * n, 2 * n + 1)]
      + (if hasExtraFlows then seq(2 * n, i => (4 * n + 2 + i, 2 * n)) + seq(2 * n, i => (2 * n + 2 + i, 2 * n + 1))
         else [])
  }

  /**
   * A dumbbell of `n` senders without extra flows has hosts 0..2n-1 (left
   * 0..n-1, right n..2n-1), routers 2n and 2n+1, and 2n+1 links: left host
   * i to router 2n, right host n+i to router 2n+1, and the routers joined
   * last. Every node's id is its position.
   */
  lemma DumbbellShape(n: nat)
    ensures |DumbbellLabels(n, false)| == 2 * n + 2
    ensures forall v :: 0 <= v < 2 * n + 2 ==>
              DumbbellLabels(n, false)[v] == NodeLabel(v, v < 2 * n, false)
    ensures |DumbbellEndpoints(n, false)| == 2 * n + 1
    ensures forall i :: 0 <= i < n ==> DumbbellEndpoints(n, false)[i] == (i, 2 * n)
    ensures forall i :: n <= i < 2 * n ==> DumbbellEndpoints(n, false)[i] == (i, 2 * n + 1)
    ensures DumbbellEndpoints(n, false)[2 * n] == (2 * n, 2 * n + 1)
  {
    var labels := DumbbellLabels(n, false);
    assert labels == Run(0, n, true, false) + Run(n, n, true, false) + Run(2 * n, 2, false, false);
    forall v | 0 <= v < 2 * n + 2 ensures labels[v] == NodeLabel(v, v < 2 * n, false) {
      if v < n {
      } else if v < 2 * n {
        assert labels[v] == Run(n, n, true, false)[v - n];
      } else {
        assert labels[v] == Run(2 * n, 2, false, false)[v - 2 * n];
      }
    }
  }

  /** With extra flows, the extra hosts are untraced end hosts whose ids are again their positions. */
  lemma DumbbellExtraShape(n: nat)
    ensures |DumbbellLabels(n, true)| == 6 * n + 2
    ensures forall v :: 2 * n + 2 <= v < 6 * n + 2 ==> DumbbellLabels(n, true)[v] == NodeLabel(v, true, true)
    ensures |DumbbellEndpoints(n, true)| == 6 * n + 1
  {
    var labels := DumbbellLabels(n, true);
    var std := Run(0, n, true, false) + Run(n, n, true, false) + Run(2 * n, 2, false, false);
    assert labels == std + (Run(2 * n + 2, 2 * n, true, true) + Run(4 * n + 2, 2 * n, true, true));
    forall v | 2 * n + 2 <= v < 6 * n + 2 ensures labels[v] == NodeLabel(v, true, true) {
      if v < 4 * n + 2 {
        assert labels[v] == Run(2 * n + 2, 2 * n, true, true)[v - (2 * n + 2)];
      } else {
        assert labels[v] == Run(4 * n + 2, 2 * n, true, true)[v - (4 * n + 2)];
      }
    }
  }

  /** The number of extra hosts a line gets: two per router-to-router hop. */
  function LineExtraHosts(numRouters: nat, hasExtraFlows: bool): nat {
    if hasExtraFlows && numRouters >= 1 then 2 * (numRouters - 1) else 0
  }

  /** The router an extra host hangs off: `ceil(i / 2)`, the last one on the last router. */
  function ExtraRouter(i: nat, numExtraHosts: nat, numRouters: nat): nat {
    if i + 1 == numExtraHosts && numRouters > 0 then numRouters - 1 else (i + 1) / 2
  }

  /** Line: the traced hosts, the routers, then the untraced extra hosts. */
  function LineLabels(numRouters: nat, hostsPerRouter: nat, hasExtraFlows: bool): seq<NodeLabel> {
    var hosts := numRouters * hostsPerRouter;
    Run(0, hosts, true, false) + Run(hosts, numRouters, false, false)
      + Run(hosts + numRouters, LineExtraHosts(numRouters, hasExtraFlows), true, true)
  }

  /** Host `i` of a line belongs to router `i / hostsPerRouter`. */
  function LineHostLinks(numRouters: nat, hostsPerRouter: nat): seq<(nat, nat)> {
    var hosts := numRouters * hostsPerRouter;
    if hostsPerRouter == 0 then []
    else seq(hosts, i requires 0 <= i < hosts => (i, hosts + i / hostsPerRouter))
  }

  /** Router `i` of a line is joined to router `i + 1`. */
  function LineChainLinks(numRouters: nat, hostsPerRouter: nat): seq<(nat, nat)> {
    var hosts := numRouters * hostsPerRouter;
    seq(if numRouters >= 1 then numRouters - 1 else 0, i => (hosts + i, hosts + i + 1))
  }

  /** Extra host `i` of a line is joined to router `ExtraRouter(i)`. */
  function LineExtraLinks(numRouters: nat, hostsPerRouter: nat, hasExtraFlows: bool): seq<(nat, nat)> {
    var hosts := numRouters * hostsPerRouter;
    var extra := LineExtraHosts(numRouters, hasExtraFlows);
    seq(extra, i requires 0 <= i < extra => (hosts + numRouters + i, hosts + ExtraRouter(i, extra, numRouters)))
  }

  /** Line links in creation order: hosts to their routers, the router chain, the extra hosts. */
  function LineEndpoints(numRouters: nat, hostsPerRouter: nat, hasExtraFlows: bool): seq<(nat, nat)> {
    LineHostLinks(numRouters, hostsPerRouter) + LineChainLinks(numRouters, hostsPerRouter)
      + LineExtraLinks(numRouters, hostsPerRouter, hasExtraFlows)
  }

  lemma DivBelow(i: nat, d: nat, n: nat)
    requires 0 < d && i < n * d
    ensures i / d < n
  {
    if i / d >= n {
      MulMonotone(n, i / d, d);
    }
  }

  lemma MulMonotone(a: nat, b: nat, c: nat)
    requires a <= b
    ensures a * c <= b * c
  {
  }

  /** Every extra host hangs off one of the line's routers. */
  lemma ExtraRouterBelow(i: nat, numRouters: nat)
    requires i < LineExtraHosts(numRouters, true)
    ensures ExtraRouter(i, LineExtraHosts(numRouters, true), numRouters) < numRouters
  {
  }

  /** A line of R >= 1 routers has R-1 router-to-router links, router i joined to router i+1. */
  lemma LineChain(numRouters: nat, hostsPerRouter: nat, hasExtraFlows: bool)
    requires numRouters >= 1
    ensures var hosts := numRouters * hostsPerRouter;
            var e := LineEndpoints(numRouters, hostsPerRouter, hasExtraFlows);
            |e| == hosts + numRouters - 1 + LineExtraHosts(numRouters, hasExtraFlows)
            && forall i :: hosts <= i < hosts + numRouters - 1 ==> e[i] == (i, i + 1)
  {
    var hosts := numRouters * hostsPerRouter;
    assert |LineHostLinks(numRouters, hostsPerRouter)| == hosts;
  }

  /** Fat tree of parameter `k`: half of `k`, and the size of each layer. */
  function Half(k: nat): nat { k / 2 }
  function Servers(k: nat): nat { k * (Half(k) * Half(k)) }
  function Tors(k: nat): nat { k * Half(k) }
  function Aggs(k: nat): nat { k * Half(k) }
  function Cores(k: nat): nat { Half(k) * Half(k) }

  /** Datacenter: servers, ToRs, aggregation and core switches, numbered consecutively. */
  function DatacenterLabels(k: nat): seq<NodeLabel> {
    var s, t, a := Servers(k), Tors(k), Aggs(k);
    Run(0, s, true, false) + Run(s, t, false, false) + Run(s + t, a, false, false) + Run(s + t + a, Cores(k), false, false)
  }

  /** The ids the datacenter builder gives its nodes as written: core ids start after `num_core` rather than `num_agg` aggregation switches. */
  function DatacenterLabelsAsWritten(k: nat): seq<NodeLabel> {
    var s, t, a := Servers(k), Tors(k), Aggs(k);
    Run(0, s, true, false) + Run(s, t, false, false) + Run(s + t, a, false, false) + Run(s + t + Cores(k), Cores(k), false, false)
  }

  /** In a k = 4 fat tree as written, aggregation switch 4 and core switch 0 both get id 28. */
  lemma CoreIdsCollideAsWritten()
    ensures |DatacenterLabelsAsWritten(4)| == 36
    ensures DatacenterLabelsAsWritten(4)[28].id == 28 && DatacenterLabelsAsWritten(4)[32].id == 28
  {
    var labels := DatacenterLabelsAsWritten(4);
    assert Servers(4) == 16 && Tors(4) == 8 && Aggs(4) == 8 && Cores(4) == 4;
    assert labels[28] == Run(24, 8, false, false)[4];
    assert labels[32] == Run(28, 4, false, false)[0];
  }

  /** With the corrected offset every node's id is its position, so ids are pairwise distinct. */
  lemma DatacenterIdsArePositions(k: nat)
    ensures |DatacenterLabels(k)| == Servers(k) + Tors(k) + Aggs(k) + Cores(k)
    ensures forall v :: 0 <= v < |DatacenterLabels(k)| ==>
              DatacenterLabels(k)[v] == NodeLabel(v, v < Servers(k), false)
  {
    var s, t, a, c := Servers(k), Tors(k), Aggs(k), Cores(k);
    var labels := DatacenterLabels(k);
    forall v | 0 <= v < |labels| ensures labels[v] == NodeLabel(v, v < s, false) {
      if v < s {
      } else if v < s + t {
        assert labels[v] == Run(s, t, false, false)[v - s];
      } else if v < s + t + a {
        assert labels[v] == Run(s + t, a, false, false)[v - (s + t)];
      } else {
        assert labels[v] == Run(s + t + a, c, false, false)[v - (s + t + a)];
      }
    }
  }

  /** The first aggregation switch (of `aggNodes`) ToR `t` is wired to: `(t / (k/2)) * k / 2`. */
  function AggBase(k: nat, t: nat): nat
    requires Half(k) > 0
  {
    (t / Half(k)) * k / 2
  }

  /** The first core switch (of `coreNodes`) aggregation switch `a` is wired to: `(a % (k/2)) * k / 2`. */
  function CoreBase(k: nat, a: nat): nat
    requires Half(k) > 0
  {
    (a % Half(k)) * k / 2
  }

  /** Server `i` goes to ToR `i / (k/2)`. */
  function ServerLinks(k: nat): seq<(nat, nat)> {
    var s, h := Servers(k), Half(k);
    if h == 0 then [] else Uplinks(s, h)
  }

  /** Each of `s` servers to switch `s + i / h`, `h` servers per switch. */
  function Uplinks(s: nat, h: nat): seq<(nat, nat)>
    requires h > 0
  {
    seq(s, i requires 0 <= i < s => (i, s + i / h))
  }

  function TorBlock(k: nat, t: nat): seq<(nat, nat)>
    requires Half(k) > 0
  {
    var s, tors := Servers(k), Tors(k);
    seq(Half(k), j => (s + t, s + tors + AggBase(k, t) + j))
  }

  function AggBlock(k: nat, a: nat): seq<(nat, nat)>
    requires Half(k) > 0
  {
    var s, tors, aggs := Servers(k), Tors(k), Aggs(k);
    seq(Half(k), j => (s + tors + a, s + tors + aggs + CoreBase(k, a) + j))
  }

  /** The ToRs' uplinks, one block of `k/2` per ToR. */
  function TorBlocks(k: nat): (blocks: seq<seq<(nat, nat)>>)
    ensures |blocks| == (if Half(k) == 0 then 0 else Tors(k))
    ensures forall t :: 0 <= t < |blocks| ==> |blocks[t]| == Half(k)
  {
    if Half(k) == 0 then [] else seq(Tors(k), t requires 0 <= t => TorBlock(k, t))
  }

  /** The aggregation switches' uplinks, one block of `k/2` per switch. */
  function AggBlocks(k: nat): (blocks: seq<seq<(nat, nat)>>)
    ensures |blocks| == (if Half(k) == 0 then 0 else Aggs(k))
    ensures forall a :: 0 <= a < |blocks| ==> |blocks[a]| == Half(k)
  {
    if Half(k) == 0 then [] else seq(Aggs(k), a requires 0 <= a => AggBlock(k, a))
  }

  /** Datacenter links in creation order: server uplinks, ToR uplinks, aggregation uplinks. */
  function DatacenterEndpoints(k: nat): seq<(nat, nat)> {
    ServerLinks(k) + Flatten(TorBlocks(k)) + Flatten(AggBlocks(k))
  }

  /** A fat tree the builder can wire: `k` even (or 1, which has no nodes). */
  predicate FatTreeShape(k: nat) {
    k % 2 == 0 || k == 1
  }

  /** Element `j` of block `b` comes before the end of the first `n` blocks of width `w`. */
  lemma BlockIndexBelow(b: nat, j: nat, n: nat, w: nat)
    requires b < n && j < w
    ensures b * w + j < n * w
  {
    MulMonotone(b + 1, n, w);
    assert (b + 1) * w == b * w + w;
  }

  /** Flattening blocks of one width `w` gives `w` elements per block. */
  lemma {:induction false} FlattenUniformLength<T>(xss: seq<seq<T>>, w: nat)
    requires forall b :: 0 <= b < |xss| ==> |xss[b]| == w
    ensures |Flatten(xss)| == |xss| * w
    decreases |xss|
  {
    if xss != [] {
      var n := |xss| - 1;
      var init := xss[..n];
      assert forall b :: 0 <= b < n ==> init[b] == xss[b];
      FlattenUniformLength(init, w);
      assert |xss| * w == n * w + w;
    }
  }

  /** Flattening blocks of one width `w` puts element `j` of block `b` at `b * w + j`. */
  lemma {:induction false} FlattenUniform<T>(xss: seq<seq<T>>, w: nat, b: nat, j: nat)
    requires forall b :: 0 <= b < |xss| ==> |xss[b]| == w
    requires b < |xss| && j < w
    ensures b * w + j < |Flatten(xss)| && Flatten(xss)[b * w + j] == xss[b][j]
    decreases |xss|
  {
    var n := |xss| - 1;
    var init := xss[..n];
    assert forall b :: 0 <= b < n ==> init[b] == xss[b];
    FlattenUniformLength(init, w);
    assert Flatten(xss) == Flatten(init) + xss[n];
    if b < n {
      BlockIndexBelow(b, j, n, w);
      FlattenUniform(init, w, b, j);
    }
  }

  lemma HalfOfEven(k: nat, x: nat)
    requires k % 2 == 0
    ensures x * k / 2 == x * Half(k)
  {
    assert x * k == 2 * (x * Half(k));
  }

  lemma {:induction false} DivExact(q: nat, d: nat, r: nat)
    requires r < d
    ensures (q * d + r) / d == q
  {
    var n := q * d + r;
    var p := n / d;
    if p > q {
      MulMonotone(q + 1, p, d);
    } else if p < q {
      MulMonotone(p + 1, q, d);
    }
  }

  /** Server `i` of an even fat tree goes to an existing ToR. */
  lemma ServerUplinkInRange(k: nat, i: nat)
    requires k % 2 == 0 && Half(k) > 0 && i < Servers(k)
    ensures i / Half(k) < Tors(k)
  {
    var h := Half(k);
    assert Servers(k) == (k * h) * h;
    DivBelow(i, h, k * h);
  }

  /** ToR `x` of an even fat tree is wired to the `k/2` aggregation switches of its pod. */
  lemma TorUplinksInPod(k: nat, x: nat, j: nat)
    requires k % 2 == 0 && Half(k) > 0 && x < Tors(k) && j < Half(k)
    ensures AggBase(k, x) == (x / Half(k)) * Half(k) && AggBase(k, x) + j < Aggs(k)
  {
    var h := Half(k);
    HalfOfEven(k, x / h);
    DivBelow(x, h, k);
    MulMonotone(x / h + 1, k, h);
  }

  /** Aggregation switch `x` of an even fat tree is wired to `k/2` existing core switches. */
  lemma AggUplinksInRange(k: nat, x: nat, j: nat)
    requires k % 2 == 0 && Half(k) > 0 && j < Half(k)
    ensures CoreBase(k, x) == (x % Half(k)) * Half(k) && CoreBase(k, x) + j < Cores(k)
  {
    var h := Half(k);
    HalfOfEven(k, x % h);
    MulMonotone(x % h + 1, h, h);
  }

  /** In an even fat tree, server `i` goes to ToR `i / (k/2)`, which exists. */
  lemma ServerWiring(k: nat)
    requires k % 2 == 0 && k > 0
    ensures var h, s, t := Half(k), Servers(k), Tors(k);
            |ServerLinks(k)| == s
            && forall i :: 0 <= i < s ==> ServerLinks(k)[i] == (i, s + i / h) && i / h < t
  {
    forall i | 0 <= i < Servers(k) ensures i / Half(k) < Tors(k) {
      ServerUplinkInRange(k, i);
    }
  }

  /**
   * In an even fat tree, the `j`-th uplink of ToR `x` goes to aggregation
   * switch `(x / (k/2)) * (k/2) + j`: the `k/2` switches of its pod.
   */
  lemma TorWiring(k: nat)
    requires k % 2 == 0 && k > 0
    ensures var h, s, t, a := Half(k), Servers(k), Tors(k), Aggs(k);
            |TorBlocks(k)| == t
            && forall x, j :: 0 <= x < t && 0 <= j < h ==>
                 TorBlocks(k)[x][j] == (s + x, s + t + (x / h) * h + j) && (x / h) * h + j < a
  {
    var h, s, t, a := Half(k), Servers(k), Tors(k), Aggs(k);
    forall x, j | 0 <= x < t && 0 <= j < h
      ensures TorBlocks(k)[x][j] == (s + x, s + t + (x / h) * h + j) && (x / h) * h + j < a
    {
      TorUplinksInPod(k, x, j);
      assert TorBlocks(k)[x] == TorBlock(k, x);
    }
  }

  /**
   * In an even fat tree, the `j`-th uplink of aggregation switch `x` goes
   * to core switch `(x % (k/2)) * (k/2) + j`, which exists.
   */
  lemma AggWiring(k: nat)
    requires k % 2 == 0 && k > 0
    ensures var h, s, t, a := Half(k), Servers(k), Tors(k), Aggs(k);
            |AggBlocks(k)| == a
            && forall x, j :: 0 <= x < a && 0 <= j < h ==>
                 AggBlocks(k)[x][j] == (s + t + x, s + t + a + (x % h) * h + j) && (x % h) * h + j < Cores(k)
  {
    var h, s, t, a := Half(k), Servers(k), Tors(k), Aggs(k);
    forall x, j | 0 <= x < a && 0 <= j < h
      ensures AggBlocks(k)[x][j] == (s + t + x, s + t + a + (x % h) * h + j) && (x % h) * h + j < Cores(k)
    {
      AggUplinksInRange(k, x, j);
      assert AggBlocks(k)[x] == AggBlock(k, x);
    }
  }

  /** Every datacenter link joins two existing nodes. */
  lemma DatacenterConnectable(k: nat)
    requires k % 2 == 0 && k > 0
    ensures forall i :: 0 <= i < |ServerLinks(k)| ==>
              ServerLinks(k)[i].0 < |DatacenterLabels(k)| && ServerLinks(k)[i].1 < |DatacenterLabels(k)|
    ensures forall x, j :: 0 <= x < |TorBlocks(k)| && 0 <= j < |TorBlocks(k)[x]| ==>
              TorBlocks(k)[x][j].0 < |DatacenterLabels(k)| && TorBlocks(k)[x][j].1 < |DatacenterLabels(k)|
    ensures forall x, j :: 0 <= x < |AggBlocks(k)| && 0 <= j < |AggBlocks(k)[x]| ==>
              AggBlocks(k)[x][j].0 < |DatacenterLabels(k)| && AggBlocks(k)[x][j].1 < |DatacenterLabels(k)|
  {
    ServerWiring(k);
    TorWiring(k);
    AggWiring(k);
  }

  /** For odd k >= 3 the ToR wiring runs past the aggregation switches: the last ToR asks for switch `num_agg` of `num_agg`. */
  lemma OddFatTreeOverruns(k: nat)
    requires k % 2 == 1 && k >= 3
    ensures Half(k) > 0 && AggBase(k, Tors(k) - 1) == Aggs(k)
  {
    var h := Half(k);
    assert k == 2 * h + 1;
    var last := Tors(k) - 1;
    assert last == (k - 1) * h + (h - 1);
    DivExact(k - 1, h, h - 1);
    assert (k - 1) * k == 2 * (h * k);
  }
}
