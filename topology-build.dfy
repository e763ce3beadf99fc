/**
 * The deterministic topology builders: a topology object owns its node
 * arena, its link list, the subnet counter and the port counter, and each
 * kind (dumbbell, line, fat-tree datacenter, random) keeps its own vectors
 * of node positions. `GenerateTopology` creates nodes and links step by
 * step; `getAllNodes` caches the concatenation of the node vectors and
 * `getTrafficMatrix` lists, per sending host, the hosts it sends to.
 */
module TopologyBuilder {
  import opened Wrappers
  import opened MachineInts
  import opened Text
  import opened SimTopology

  /** Positions `start`, ..., `start + count - 1` of the node arena. */
  function Positions(start: nat, count: nat): (r: seq<nat>)
    ensures |r| == count && forall i :: 0 <= i < count ==> r[i] == start + i
  {
    seq(count, i requires 0 <= i => start + i)
  }

  lemma PositionsConcat(start: nat, m: nat, n: nat)
    ensures Positions(start, m) + Positions(start + m, n) == Positions(start, m + n)
  {
  }

  /**
   * Link `index` of a topology is the one `addLink` makes between the nodes
   * at the two positions of `e`, with the subnet handed out `index`-th.
   */
  predicate LinkMatches(link: Link, labels: seq<NodeLabel>, e: (nat, nat), style: LinkStyle, index: nat) {
    e.0 < |labels| && e.1 < |labels| && StyleAllows(style, labels[e.0], labels[e.1])
    && link == LinkFor(style, labels[e.0], labels[e.1], e.0, e.1, Dotted(AddressAfter(InitialAddress, index)))
  }

  /** The links from `start` on are those `addLink` makes for `ends`, in order. */
  predicate LinksFollow(links: seq<Link>, start: nat, labels: seq<NodeLabel>, ends: seq<(nat, nat)>, style: LinkStyle) {
    start + |ends| <= |links|
    && forall m :: 0 <= m < |ends| ==> LinkMatches(links[start + m], labels, ends[m], style, start + m)
  }

  /** `addLink` may join the nodes of every pair of `ends` under `style`. */
  predicate Connectable(labels: seq<NodeLabel>, ends: seq<(nat, nat)>, style: LinkStyle) {
    forall m :: 0 <= m < |ends| ==>
      ends[m].0 < |labels| && ends[m].1 < |labels| && StyleAllows(style, labels[ends[m].0], labels[ends[m].1])
  }

  lemma FollowExtend(links: seq<Link>, links2: seq<Link>, start: nat, labels: seq<NodeLabel>, labels2: seq<NodeLabel>,
                     ends: seq<(nat, nat)>, style: LinkStyle)
    requires LinksFollow(links, start, labels, ends, style)
    requires |links| <= |links2| && links2[..|links|] == links
    requires |labels| <= |labels2| && labels2[..|labels|] == labels
    ensures LinksFollow(links2, start, labels2, ends, style)
  {
    forall m | 0 <= m < |ends| ensures LinkMatches(links2[start + m], labels2, ends[m], style, start + m) {
      assert links2[start + m] == links[start + m];
      assert LinkMatches(links[start + m], labels, ends[m], style, start + m);
      assert labels2[ends[m].0] == labels[ends[m].0] && labels2[ends[m].1] == labels[ends[m].1];
    }
  }

  lemma FollowConcat(links: seq<Link>, start: nat, labels: seq<NodeLabel>, a: seq<(nat, nat)>, b: seq<(nat, nat)>, style: LinkStyle)
    requires LinksFollow(links, start, labels, a, style) && LinksFollow(links, start + |a|, labels, b, style)
    ensures LinksFollow(links, start, labels, a + b, style)
  {
    forall m | 0 <= m < |a + b| ensures LinkMatches(links[start + m], labels, (a + b)[m], style, start + m) {
      if m >= |a| {
        assert (a + b)[m] == b[m - |a|];
        assert LinkMatches(links[start + |a| + (m - |a|)], labels, b[m - |a|], style, start + |a| + (m - |a|));
      }
    }
  }

  /** Links for `a`, then links for `b` appended after them, are links for `a + b`. */
  lemma FollowThen(links0: seq<Link>, links: seq<Link>, labels: seq<NodeLabel>, a: seq<(nat, nat)>, b: seq<(nat, nat)>, style: LinkStyle)
    requires |links0| == |a| && LinksFollow(links0, 0, labels, a, style)
    requires |links| == |links0| + |b| && links[..|links0|] == links0
    requires LinksFollow(links, |links0|, labels, b, style)
    ensures |links| == |a + b| && LinksFollow(links, 0, labels, a + b, style)
  {
    FollowExtend(links0, links, 0, labels, labels, a, style);
    FollowConcat(links, 0, labels, a, b, style);
  }

  /** The link `addLink` appends for the `m`-th pair extends what the links before it follow. */
  lemma FollowStep(prev: seq<Link>, links: seq<Link>, start: nat, labels: seq<NodeLabel>,
                   ends: seq<(nat, nat)>, m: nat, style: LinkStyle, links0: seq<Link>)
    requires Connectable(labels, ends, style) && m < |ends|
    requires |prev| == start + m && prev[..start] == links0 && LinksFollow(prev, start, labels, ends[..m], style)
    requires links == prev + [LinkFor(style, labels[ends[m].0], labels[ends[m].1], ends[m].0, ends[m].1,
                                      Dotted(AddressAfter(InitialAddress, |prev|)))]
    ensures |links| == start + m + 1 && links[..start] == links0
    ensures LinksFollow(links, start, labels, ends[..m + 1], style)
  {
    LastLinkMatches(prev, links, labels, ends[m], style);
    assert links[..|prev|] == prev;
    assert links[..start] == prev[..start];
    FollowAppend(prev, links, start, labels, ends, m, style);
  }

  lemma LastLinkMatches(prev: seq<Link>, links: seq<Link>, labels: seq<NodeLabel>, e: (nat, nat), style: LinkStyle)
    requires e.0 < |labels| && e.1 < |labels| && StyleAllows(style, labels[e.0], labels[e.1])
    requires links == prev + [LinkFor(style, labels[e.0], labels[e.1], e.0, e.1, Dotted(AddressAfter(InitialAddress, |prev|)))]
    ensures LinkMatches(links[|prev|], labels, e, style, |prev|)
  {
  }

  lemma FollowAppend(prev: seq<Link>, links: seq<Link>, start: nat, labels: seq<NodeLabel>,
                     ends: seq<(nat, nat)>, m: nat, style: LinkStyle)
    requires m < |ends| && LinksFollow(prev, start, labels, ends[..m], style)
    requires |prev| == start + m && |links| == |prev| + 1 && links[..|prev|] == prev
    requires LinkMatches(links[start + m], labels, ends[m], style, start + m)
    ensures LinksFollow(links, start, labels, ends[..m + 1], style)
  {
    var e := ends[..m + 1];
    forall q | 0 <= q < m + 1 ensures LinkMatches(links[start + q], labels, e[q], style, start + q) {
      if q < m {
        assert e[q] == ends[..m][q];
        assert links[start + q] == prev[start + q];
      }
    }
  }

  /** What each topology kind keeps besides the shared arena and links. */
  datatype TopologyKind =
    | RandomKind(endHostNodes: seq<nat>, routerNodes: seq<nat>)
    | DatacenterKind(datacenter: DatacenterConfig, hostNodes: seq<nat>, torNodes: seq<nat>,
                     aggNodes: seq<nat>, coreNodes: seq<nat>)
    | DumbbellKind(dumbbell: DumbbellConfig, leftNodes: seq<nat>, rightNodes: seq<nat>, linkNodes: seq<nat>,
                   extraLeftNodes: seq<nat>, extraRightNodes: seq<nat>,
                   hasExtraFlows: bool, numExtraSenders: nat, numSenders: nat)
    | LineKind(line: LineConfig, hosts: seq<nat>, routers: seq<nat>,
               senders: nat, senderHosts: nat, hasExtraFlows: bool)
  {
    /** The node vectors, concatenated in the order `getAllNodes` uses. */
    function NodeOrder(): seq<nat> {
      match this
      case RandomKind(hosts, routers) => hosts + routers
      case DatacenterKind(_, hosts, tors, aggs, cores) => hosts + tors + aggs + cores
      case DumbbellKind(_, left, right, link, extraLeft, extraRight, _, _, _) => left + right + link + extraRight + extraLeft
      case LineKind(_, hosts, routers, _, _, _) => hosts + routers
    }

    /** The sum of the node vectors' sizes `getAllNodes` compares its cache with. */
    function NodeCount(): nat {
      match this
      case RandomKind(hosts, routers) => |hosts| + |routers|
      case DatacenterKind(_, hosts, tors, aggs, cores) => |hosts| + |tors| + |aggs| + |cores|
      case DumbbellKind(_, left, right, link, extraLeft, extraRight, _, _, _) =>
        |left| + |right| + |link| + |extraLeft| + |extraRight|
      case LineKind(_, hosts, routers, _, _, _) => |hosts| + |routers|
    }

    /** The host vectors, concatenated in the order `getHosts` uses; traffic-matrix indices refer to it. */
    function Hosts(): seq<nat> {
      match this
      case RandomKind(hosts, _) => hosts
      case DatacenterKind(_, hosts, _, _, _) => hosts
      case DumbbellKind(_, left, right, _, extraLeft, extraRight, _, _, _) => left + right + extraRight + extraLeft
      case LineKind(_, hosts, _, _, _, _) => hosts
    }

    /** No node has been created yet. */
    predicate Unbuilt() {
      match this
      case RandomKind(hosts, routers) => hosts == [] && routers == []
      case DatacenterKind(_, hosts, tors, aggs, cores) => hosts == [] && tors == [] && aggs == [] && cores == []
      case DumbbellKind(_, left, right, link, extraLeft, extraRight, _, _, _) =>
        left == [] && right == [] && link == [] && extraLeft == [] && extraRight == []
      case LineKind(_, hosts, routers, _, _, _) => hosts == [] && routers == []
    }
  }

  lemma NodeCountIsOrderLength(kind: TopologyKind)
    ensures |kind.NodeOrder()| == kind.NodeCount()
  {
  }

  class Topology {
    var nodes: seq<TopologyNode>
    var links: seq<Link>
    var addressBytes: AddressBytes
    var currPort: nat
    var allNodes: seq<nat>
    var kind: TopologyKind

    /**
     * Every node's neighbour lists are collected from the links, and the
     * subnet counter has advanced once per link.
     */
    ghost predicate Valid()
      reads this
    {
      Wired(nodes, links) && addressBytes == AddressAfter(InitialAddress, |links|)
    }

    /** Nothing generated yet: no nodes, no links, empty node vectors. */
    ghost predicate Unbuilt()
      reads this
    {
      nodes == [] && links == [] && kind.Unbuilt()
    }

    constructor Random()
      ensures Valid() && Unbuilt() && kind.RandomKind?
      ensures addressBytes == InitialAddress && currPort == InitialPort && allNodes == []
    {
      nodes, links, allNodes := [], [], [];
      addressBytes, currPort := InitialAddress, InitialPort;
      kind := RandomKind([], []);
    }

    constructor Datacenter(config: DatacenterConfig)
      ensures Valid() && Unbuilt() && kind == DatacenterKind(config, [], [], [], [])
      ensures addressBytes == InitialAddress && currPort == InitialPort && allNodes == []
    {
      nodes, links, allNodes := [], [], [];
      addressBytes, currPort := InitialAddress, InitialPort;
      kind := DatacenterKind(config, [], [], [], []);
    }

    /** The flow counters are left unset until `GenerateTopology` assigns them. */
    constructor Dumbbell(config: DumbbellConfig)
      ensures Valid() && Unbuilt() && kind.DumbbellKind? && kind.dumbbell == config
      ensures addressBytes == InitialAddress && currPort == InitialPort && allNodes == []
    {
      nodes, links, allNodes := [], [], [];
      addressBytes, currPort := InitialAddress, InitialPort;
      kind := DumbbellKind(config, [], [], [], [], [], false, 0, 0);
    }

    constructor Line(config: LineConfig)
      ensures Valid() && Unbuilt() && kind == LineKind(config, [], [], 0, 0, false)
      ensures addressBytes == InitialAddress && currPort == InitialPort && allNodes == []
    {
      nodes, links, allNodes := [], [], [];
      addressBytes, currPort := InitialAddress, InitialPort;
      kind := LineKind(config, [], [], 0, 0, false);
    }

    /** `getNewSubnet`: the current address as text; the counter moves on. */
    method GetNewSubnet() returns (subnet: string)
      modifies this
      ensures subnet == Dotted(old(addressBytes)) && addressBytes == NextAddress(old(addressBytes))
      ensures nodes == old(nodes) && links == old(links) && currPort == old(currPort)
      ensures allNodes == old(allNodes) && kind == old(kind)
    {
      subnet := Dotted(addressBytes);
      var next := addressBytes;
      if next.b2 == 255 {
        next := next.(b1 := next.b1 + 1, b2 := 0);
      }
      next := next.(b2 := next.b2 + 1);
      addressBytes := next;
    }

    /** `getPort`: the counter is incremented (as a uint16) and then returned. */
    method GetPort() returns (port: nat)
      modifies this
      ensures port == currPort == NextPort(old(currPort))
      ensures nodes == old(nodes) && links == old(links) && addressBytes == old(addressBytes)
      ensures allNodes == old(allNodes) && kind == old(kind)
    {
      currPort := U16(currPort + 1);
      port := currPort;
    }

    /**
     * `addLink`: both endpoints learn about each other, and the link with
     * the next subnet is appended.
     */
    method AddLink(i: nat, j: nat, style: LinkStyle)
      requires Valid() && i < |nodes| && j < |nodes|
      requires StyleAllows(style, nodes[i].Label(), nodes[j].Label())
      modifies this
      ensures Valid()
      ensures nodes == LinkedNodes(old(nodes), i, j)
      ensures links == old(links)
                       + [LinkFor(style, old(nodes)[i].Label(), old(nodes)[j].Label(), i, j,
                                  Dotted(AddressAfter(InitialAddress, |old(links)|)))]
      ensures currPort == old(currPort) && allNodes == old(allNodes) && kind == old(kind)
    {
      var end1, end2 := nodes[i].Label(), nodes[j].Label();
      ghost var links0 := links;
      var subnet := GetNewSubnet();
      assert subnet == Dotted(AddressAfter(InitialAddress, |links0|));
      var link := LinkFor(style, end1, end2, i, j, subnet);
      AddLinkKeepsWired(nodes, links, link);
      nodes := LinkedNodes(nodes, i, j);
      links := links + [link];
      assert addressBytes == AddressAfter(InitialAddress, |links|);
    }

    /**
     * The creation loops: `count` nodes with consecutive ids from
     * `firstId`, flagged untraced when `untraced`; their positions are
     * returned for the kind's node vector.
     */
    method AddNodes(count: nat, firstId: int, isHost: bool, untraced: bool) returns (created: seq<nat>)
      requires Valid()
      modifies this
      ensures Valid()
      ensures Labels(nodes) == old(Labels(nodes)) + Run(firstId, count, isHost, untraced)
      ensures created == Positions(|old(nodes)|, count)
      ensures links == old(links) && currPort == old(currPort) && allNodes == old(allNodes) && kind == old(kind)
    {
      var start := |nodes|;
      ghost var labels0 := Labels(nodes);
      created := [];
      for c := 0 to count
        invariant Valid()
        invariant Labels(nodes) == labels0 + Run(firstId, c, isHost, untraced)
        invariant created == Positions(start, c)
        invariant links == old(links) && currPort == old(currPort) && allNodes == old(allNodes) && kind == old(kind)
      {
        var node := NewNode(firstId + c, isHost).(isUntracedHost := untraced);
        AddNodeKeepsWired(nodes, links, node);
        ghost var prev := Labels(nodes);
        nodes := nodes + [node];
        assert Labels(nodes) == prev + [NodeLabel(firstId + c, isHost, untraced)];
        assert Run(firstId, c + 1, isHost, untraced) == Run(firstId, c, isHost, untraced) + [NodeLabel(firstId + c, isHost, untraced)];
        created := created + [start + c];
      }
    }

    /** One step of `Connect`: the `m`-th pair of `ends` is linked. */
    method ConnectStep(ends: seq<(nat, nat)>, m: nat, style: LinkStyle, ghost labels: seq<NodeLabel>, ghost links0: seq<Link>, start: nat)
      requires Valid() && Labels(nodes) == labels && Connectable(labels, ends, style) && m < |ends|
      requires |links| == start + m && links[..start] == links0
      requires LinksFollow(links, start, labels, ends[..m], style)
      modifies this
      ensures Valid() && Labels(nodes) == labels
      ensures |links| == start + m + 1 && links[..start] == links0
      ensures LinksFollow(links, start, labels, ends[..m + 1], style)
      ensures currPort == old(currPort) && allNodes == old(allNodes) && kind == old(kind)
    {
      ghost var prev := links;
      ghost var before := nodes;
      var i, j := ends[m].0, ends[m].1;
      assert nodes[i].Label() == labels[i] && nodes[j].Label() == labels[j];
      AddLink(i, j, style);
      LinkedLabels(before, i, j);
      FollowStep(prev, links, start, labels, ends, m, style, links0);
    }

    /** A run of `addLink` calls, one per pair of `ends`, in order. */
    method Connect(ends: seq<(nat, nat)>, style: LinkStyle)
      requires Valid() && Connectable(Labels(nodes), ends, style)
      modifies this
      ensures Valid()
      ensures Labels(nodes) == old(Labels(nodes))
      ensures |links| == |old(links)| + |ends| && links[..|old(links)|] == old(links)
      ensures LinksFollow(links, |old(links)|, Labels(nodes), ends, style)
      ensures currPort == old(currPort) && allNodes == old(allNodes) && kind == old(kind)
    {
      ghost var labels := Labels(nodes);
      ghost var links0 := links;
      var start := |links|;
      for m := 0 to |ends|
        invariant Valid() && Labels(nodes) == labels
        invariant |links| == start + m && links[..start] == links0
        invariant LinksFollow(links, start, labels, ends[..m], style)
        invariant currPort == old(currPort) && allNodes == old(allNodes) && kind == old(kind)
      {
        ConnectStep(ends, m, style, labels, links0, start);
      }
      assert ends[..|ends|] == ends;
    }

    /**
     * Dumbbell `GenerateTopology(n)`: left and right hosts and the two
     * routers, each side's hosts joined to its router and the routers to
     * each other; with extra flows, 2n untraced hosts per side joined the
     * same way.
     */
    method GenerateDumbbell(n: nat, hasExtraFlows: bool)
      requires Valid() && Unbuilt() && kind.DumbbellKind?
      modifies this
      ensures Valid()
      ensures Labels(nodes) == DumbbellLabels(n, hasExtraFlows)
      ensures |links| == |DumbbellEndpoints(n, hasExtraFlows)|
      ensures LinksFollow(links, 0, Labels(nodes), DumbbellEndpoints(n, hasExtraFlows), DumbbellStyle(old(kind).dumbbell))
      ensures kind == DumbbellKind(old(kind).dumbbell, Positions(0, n), Positions(n, n), Positions(2 * n, 2),
                                   if hasExtraFlows then Positions(4 * n + 2, 2 * n) else [],
                                   if hasExtraFlows then Positions(2 * n + 2, 2 * n) else [],
                                   hasExtraFlows, 2 * n, n)
      ensures currPort == old(currPort) && allNodes == old(allNodes)
    {
      kind := kind.(hasExtraFlows := hasExtraFlows, numExtraSenders := 2 * n, numSenders := n);
      DumbbellCore(n);
      if hasExtraFlows {
        DumbbellExtras(n);
      } else {
        assert DumbbellEndpoints(n, false) == DumbbellEndpoints(n, false) + [];
      }
    }

    /** The hosts, routers and links every dumbbell has. */
    method DumbbellCore(n: nat)
      requires Valid() && Unbuilt() && kind.DumbbellKind?
      modifies this
      ensures Valid()
      ensures Labels(nodes) == DumbbellLabels(n, false)
      ensures |links| == |DumbbellEndpoints(n, false)|
      ensures LinksFollow(links, 0, Labels(nodes), DumbbellEndpoints(n, false), DumbbellStyle(old(kind).dumbbell))
      ensures kind == old(kind).(leftNodes := Positions(0, n), rightNodes := Positions(n, n), linkNodes := Positions(2 * n, 2))
      ensures currPort == old(currPort) && allNodes == old(allNodes)
    {
      var style := DumbbellStyle(kind.dumbbell);
      var left := AddNodes(n, 0, true, false);
      var right := AddNodes(n, n, true, false);
      var routers := AddNodes(2, 2 * n, false, false);
      kind := kind.(leftNodes := left, rightNodes := right, linkNodes := routers);
      DumbbellConnectable(n, style);
      Connect(DumbbellEndpoints(n, false), style);
    }

    /** The extra flows' hosts: 2n untraced hosts per side, each joined to its side's router. */
    method DumbbellExtras(n: nat)
      requires Valid() && kind.DumbbellKind? && kind.extraLeftNodes == [] && kind.extraRightNodes == []
      requires Labels(nodes) == DumbbellLabels(n, false)
      requires |links| == |DumbbellEndpoints(n, false)|
      requires LinksFollow(links, 0, Labels(nodes), DumbbellEndpoints(n, false), DumbbellStyle(kind.dumbbell))
      modifies this
      ensures Valid()
      ensures Labels(nodes) == DumbbellLabels(n, true)
      ensures |links| == |DumbbellEndpoints(n, true)|
      ensures LinksFollow(links, 0, Labels(nodes), DumbbellEndpoints(n, true), DumbbellStyle(old(kind).dumbbell))
      ensures kind == old(kind).(extraRightNodes := Positions(2 * n + 2, 2 * n), extraLeftNodes := Positions(4 * n + 2, 2 * n))
      ensures currPort == old(currPort) && allNodes == old(allNodes)
    {
      var style := DumbbellStyle(kind.dumbbell);
      ghost var labels := Labels(nodes);
      var extraRight := AddNodes(2 * n, 2 * n + 2, true, true);
      var extraLeft := AddNodes(2 * n, 4 * n + 2, true, true);
      kind := kind.(extraRightNodes := extraRight, extraLeftNodes := extraLeft);
      DumbbellGrows(n);
      assert Labels(nodes) == DumbbellLabels(n, true);
      FollowExtend(links, links, 0, labels, Labels(nodes), DumbbellEndpoints(n, false), style);
      ConnectExtras(n, style);
    }

    /** A run of `Connect` calls, one per block, in order (the nested wiring loops). */
    method ConnectBlocks(blocks: seq<seq<(nat, nat)>>, style: LinkStyle)
      requires Valid() && forall b :: 0 <= b < |blocks| ==> Connectable(Labels(nodes), blocks[b], style)
      modifies this
      ensures Valid()
      ensures Labels(nodes) == old(Labels(nodes))
      ensures |links| == |old(links)| + |Flatten(blocks)| && links[..|old(links)|] == old(links)
      ensures LinksFollow(links, |old(links)|, Labels(nodes), Flatten(blocks), style)
      ensures currPort == old(currPort) && allNodes == old(allNodes) && kind == old(kind)
    {
      ghost var labels := Labels(nodes);
      ghost var links0 := links;
      var start := |links|;
      for b := 0 to |blocks|
        invariant Valid() && Labels(nodes) == labels
        invariant |links| == start + |Flatten(blocks[..b])| && links[..start] == links0
        invariant LinksFollow(links, start, labels, Flatten(blocks[..b]), style)
        invariant currPort == old(currPort) && allNodes == old(allNodes) && kind == old(kind)
      {
        ConnectBlockStep(blocks, b, style, labels, links0, start);
      }
      assert blocks[..|blocks|] == blocks;
    }

    /** One step of `ConnectBlocks`: block `b` is connected. */
    method ConnectBlockStep(blocks: seq<seq<(nat, nat)>>, b: nat, style: LinkStyle, ghost labels: seq<NodeLabel>,
                            ghost links0: seq<Link>, start: nat)
      requires Valid() && Labels(nodes) == labels && b < |blocks| && Connectable(labels, blocks[b], style)
      requires |links| == start + |Flatten(blocks[..b])| && links[..start] == links0
      requires LinksFollow(links, start, labels, Flatten(blocks[..b]), style)
      modifies this
      ensures Valid() && Labels(nodes) == labels
      ensures |links| == start + |Flatten(blocks[..b + 1])| && links[..start] == links0
      ensures LinksFollow(links, start, labels, Flatten(blocks[..b + 1]), style)
      ensures currPort == old(currPort) && allNodes == old(allNodes) && kind == old(kind)
    {
      ghost var prev := links;
      Connect(blocks[b], style);
      assert links[..start] == links0 by {
        assert links[..|prev|][..start] == prev[..start];
      }
      FollowExtend(prev, links, start, labels, labels, Flatten(blocks[..b]), style);
      FollowConcat(links, start, labels, Flatten(blocks[..b]), blocks[b], style);
      FlattenStep(blocks, b);
    }

    /**
     * Datacenter `GenerateTopology(k)`: a k-ary fat tree of servers, ToRs,
     * aggregation and core switches, each layer wired to the next.
     */
    method GenerateDatacenter(k: nat)
      requires Valid() && Unbuilt() && kind.DatacenterKind? && FatTreeShape(k)
      modifies this
      ensures Valid()
      ensures Labels(nodes) == DatacenterLabels(k)
      ensures |links| == |DatacenterEndpoints(k)|
      ensures var c := old(kind).datacenter;
              var servers, tors := ServerLinks(k), Flatten(TorBlocks(k));
              LinksFollow(links, 0, Labels(nodes), servers, DatacenterStyle(c, Host))
              && LinksFollow(links, |servers|, Labels(nodes), tors, DatacenterStyle(c, Tor))
              && LinksFollow(links, |servers| + |tors|, Labels(nodes), Flatten(AggBlocks(k)), DatacenterStyle(c, Aggregator))
      ensures var s, t, a := Servers(k), Tors(k), Aggs(k);
              kind == DatacenterKind(old(kind).datacenter, Positions(0, s), Positions(s, t),
                                     Positions(s + t, a), Positions(s + t + a, Cores(k)))
      ensures currPort == old(currPort) && allNodes == old(allNodes)
    {
      DatacenterNodes(k);
      WireDatacenter(k);
    }

    /** The four creation loops: servers, ToRs, aggregation and core switches. */
    method DatacenterNodes(k: nat)
      requires Valid() && Unbuilt() && kind.DatacenterKind?
      modifies this
      ensures Valid() && links == []
      ensures Labels(nodes) == DatacenterLabels(k)
      ensures var s, t, a := Servers(k), Tors(k), Aggs(k);
              kind == DatacenterKind(old(kind).datacenter, Positions(0, s), Positions(s, t),
                                     Positions(s + t, a), Positions(s + t + a, Cores(k)))
      ensures currPort == old(currPort) && allNodes == old(allNodes)
    {
      var s, t, a := Servers(k), Tors(k), Aggs(k);
      var hosts := AddNodes(s, 0, true, false);
      var tors := AddNodes(t, s, false, false);
      var aggs := AddNodes(a, s + t, false, false);
      var cores := AddNodes(Cores(k), s + t + a, false, false);
      kind := kind.(hostNodes := hosts, torNodes := tors, aggNodes := aggs, coreNodes := cores);
      assert Labels(nodes) == DatacenterLabels(k);
    }

    /** The three wiring loops: servers to ToRs, ToRs to aggregation switches, those to the cores. */
    method WireDatacenter(k: nat)
      requires Valid() && links == [] && kind.DatacenterKind? && FatTreeShape(k)
      requires Labels(nodes) == DatacenterLabels(k)
      modifies this
      ensures Valid()
      ensures Labels(nodes) == DatacenterLabels(k)
      ensures |links| == |DatacenterEndpoints(k)|
      ensures var c := old(kind).datacenter;
              var servers, tors := ServerLinks(k), Flatten(TorBlocks(k));
              LinksFollow(links, 0, Labels(nodes), servers, DatacenterStyle(c, Host))
              && LinksFollow(links, |servers|, Labels(nodes), tors, DatacenterStyle(c, Tor))
              && LinksFollow(links, |servers| + |tors|, Labels(nodes), Flatten(AggBlocks(k)), DatacenterStyle(c, Aggregator))
      ensures kind == old(kind) && currPort == old(currPort) && allNodes == old(allNodes)
    {
      var c := kind.datacenter;
      ghost var labels := Labels(nodes);
      WireLowerLayers(k);
      ghost var links2 := links;
      if Half(k) > 0 {
        DatacenterConnectable(k);
      }
      ConnectBlocks(AggBlocks(k), DatacenterStyle(c, Aggregator));
      DatacenterLayersFollow(k, c, links2, links, labels);
    }

    /** The links of the lower layers stay in place while the top layer's are appended. */
    static lemma DatacenterLayersFollow(k: nat, c: DatacenterConfig, links2: seq<Link>, links: seq<Link>, labels: seq<NodeLabel>)
      requires |links2| == |ServerLinks(k)| + |Flatten(TorBlocks(k))|
      requires LinksFollow(links2, 0, labels, ServerLinks(k), DatacenterStyle(c, Host))
      requires LinksFollow(links2, |ServerLinks(k)|, labels, Flatten(TorBlocks(k)), DatacenterStyle(c, Tor))
      requires |links| == |links2| + |Flatten(AggBlocks(k))| && links[..|links2|] == links2
      requires LinksFollow(links, |links2|, labels, Flatten(AggBlocks(k)), DatacenterStyle(c, Aggregator))
      ensures var servers, tors := ServerLinks(k), Flatten(TorBlocks(k));
              LinksFollow(links, 0, labels, servers, DatacenterStyle(c, Host))
              && LinksFollow(links, |servers|, labels, tors, DatacenterStyle(c, Tor))
              && LinksFollow(links, |servers| + |tors|, labels, Flatten(AggBlocks(k)), DatacenterStyle(c, Aggregator))
    {
      FollowExtend(links2, links, 0, labels, labels, ServerLinks(k), DatacenterStyle(c, Host));
      FollowExtend(links2, links, |ServerLinks(k)|, labels, labels, Flatten(TorBlocks(k)), DatacenterStyle(c, Tor));
    }

    /** The first two wiring loops: servers to ToRs, then ToRs to aggregation switches. */
    method WireLowerLayers(k: nat)
      requires Valid() && links == [] && kind.DatacenterKind? && FatTreeShape(k)
      requires Labels(nodes) == DatacenterLabels(k)
      modifies this
      ensures Valid()
      ensures Labels(nodes) == DatacenterLabels(k)
      ensures |links| == |ServerLinks(k)| + |Flatten(TorBlocks(k))|
      ensures var c := old(kind).datacenter;
              LinksFollow(links, 0, Labels(nodes), ServerLinks(k), DatacenterStyle(c, Host))
              && LinksFollow(links, |ServerLinks(k)|, Labels(nodes), Flatten(TorBlocks(k)), DatacenterStyle(c, Tor))
      ensures kind == old(kind) && currPort == old(currPort) && allNodes == old(allNodes)
    {
      var c := kind.datacenter;
      ghost var labels := Labels(nodes);
      if Half(k) > 0 {
        DatacenterConnectable(k);
      }
      Connect(ServerLinks(k), DatacenterStyle(c, Host));
      ghost var links1 := links;
      ConnectBlocks(TorBlocks(k), DatacenterStyle(c, Tor));
      FollowExtend(links1, links, 0, labels, labels, ServerLinks(k), DatacenterStyle(c, Host));
    }

    /**
     * Line `GenerateTopology`: `numRouters * hostsPerRouter` hosts, the
     * routers, every host joined to its router and the routers chained;
     * with extra flows, two untraced hosts per router hop.
     */
    method GenerateLine(numRouters: nat, hostsPerRouter: nat, numSenders: nat, hasExtraFlows: bool)
      requires Valid() && Unbuilt() && kind.LineKind?
      modifies this
      ensures Valid()
      ensures Labels(nodes) == LineLabels(numRouters, hostsPerRouter, hasExtraFlows)
      ensures |links| == |LineEndpoints(numRouters, hostsPerRouter, hasExtraFlows)|
      ensures LinksFollow(links, 0, Labels(nodes), LineEndpoints(numRouters, hostsPerRouter, hasExtraFlows),
                          LineStyle(old(kind).line, numRouters))
      ensures var hosts := numRouters * hostsPerRouter;
              kind == LineKind(old(kind).line,
                               Positions(0, hosts) + Positions(hosts + numRouters, LineExtraHosts(numRouters, hasExtraFlows)),
                               Positions(hosts, numRouters), numSenders, hosts / 2, hasExtraFlows)
      ensures currPort == old(currPort) && allNodes == old(allNodes)
    {
      var hosts := numRouters * hostsPerRouter;
      kind := kind.(senders := numSenders, senderHosts := hosts / 2, hasExtraFlows := hasExtraFlows);
      LineCore(numRouters, hostsPerRouter);
      if hasExtraFlows {
        LineExtras(numRouters, hostsPerRouter);
      } else {
        assert Positions(0, hosts) + Positions(hosts + numRouters, 0) == Positions(0, hosts);
      }
    }

    /** The traced hosts, the routers, and their links. */
    method LineCore(numRouters: nat, hostsPerRouter: nat)
      requires Valid() && Unbuilt() && kind.LineKind?
      modifies this
      ensures Valid()
      ensures Labels(nodes) == LineLabels(numRouters, hostsPerRouter, false)
      ensures |links| == |LineEndpoints(numRouters, hostsPerRouter, false)|
      ensures LinksFollow(links, 0, Labels(nodes), LineEndpoints(numRouters, hostsPerRouter, false),
                          LineStyle(old(kind).line, numRouters))
      ensures kind == old(kind).(hosts := Positions(0, numRouters * hostsPerRouter),
                                 routers := Positions(numRouters * hostsPerRouter, numRouters))
      ensures currPort == old(currPort) && allNodes == old(allNodes)
    {
      var hosts := numRouters * hostsPerRouter;
      var style := LineStyle(kind.line, numRouters);
      var created := AddNodes(hosts, 0, true, false);
      var routers := AddNodes(numRouters, hosts, false, false);
      kind := kind.(hosts := created, routers := routers);
      LineConnectable(numRouters, hostsPerRouter, style);
      assert Labels(nodes) == LineLabels(numRouters, hostsPerRouter, false);
      Connect(LineHostLinks(numRouters, hostsPerRouter) + LineChainLinks(numRouters, hostsPerRouter), style);
      assert LineEndpoints(numRouters, hostsPerRouter, false)
             == LineHostLinks(numRouters, hostsPerRouter) + LineChainLinks(numRouters, hostsPerRouter);
    }

    /** The extra flows' hosts: `2 * (numRouters - 1)` untraced hosts, each joined to its router. */
    method LineExtras(numRouters: nat, hostsPerRouter: nat)
      requires Valid() && kind.LineKind?
      requires kind.hosts == Positions(0, numRouters * hostsPerRouter)
      requires Labels(nodes) == LineLabels(numRouters, hostsPerRouter, false)
      requires |links| == |LineEndpoints(numRouters, hostsPerRouter, false)|
      requires LinksFollow(links, 0, Labels(nodes), LineEndpoints(numRouters, hostsPerRouter, false),
                           LineStyle(kind.line, numRouters))
      modifies this
      ensures Valid()
      ensures Labels(nodes) == LineLabels(numRouters, hostsPerRouter, true)
      ensures |links| == |LineEndpoints(numRouters, hostsPerRouter, true)|
      ensures LinksFollow(links, 0, Labels(nodes), LineEndpoints(numRouters, hostsPerRouter, true),
                          LineStyle(old(kind).line, numRouters))
      ensures var hosts := numRouters * hostsPerRouter;
              kind == old(kind).(hosts := Positions(0, hosts) + Positions(hosts + numRouters, LineExtraHosts(numRouters, true)))
      ensures currPort == old(currPort) && allNodes == old(allNodes)
    {
      var hosts := numRouters * hostsPerRouter;
      var style := LineStyle(kind.line, numRouters);
      ghost var labels := Labels(nodes);
      var extra := AddNodes(LineExtraHosts(numRouters, true), hosts + numRouters, true, true);
      kind := kind.(hosts := kind.hosts + extra);
      LineGrows(numRouters, hostsPerRouter);
      assert Labels(nodes) == LineLabels(numRouters, hostsPerRouter, true);
      FollowExtend(links, links, 0, labels, Labels(nodes), LineEndpoints(numRouters, hostsPerRouter, false), style);
      ConnectLineExtras(numRouters, hostsPerRouter, style);
    }

    /** The extra hosts' links, after the line's other links. */
    method ConnectLineExtras(numRouters: nat, hostsPerRouter: nat, style: LinkStyle)
      requires Valid() && style.LineStyle? && style.routerCount == numRouters
      requires Labels(nodes) == LineLabels(numRouters, hostsPerRouter, true)
      requires |links| == |LineEndpoints(numRouters, hostsPerRouter, false)|
      requires LinksFollow(links, 0, Labels(nodes), LineEndpoints(numRouters, hostsPerRouter, false), style)
      modifies this
      ensures Valid()
      ensures Labels(nodes) == LineLabels(numRouters, hostsPerRouter, true)
      ensures |links| == |LineEndpoints(numRouters, hostsPerRouter, true)|
      ensures LinksFollow(links, 0, Labels(nodes), LineEndpoints(numRouters, hostsPerRouter, true), style)
      ensures kind == old(kind) && currPort == old(currPort) && allNodes == old(allNodes)
    {
      ghost var links0 := links;
      ghost var labels := Labels(nodes);
      LineConnectable(numRouters, hostsPerRouter, style);
      Connect(LineExtraLinks(numRouters, hostsPerRouter, true), style);
      FollowThen(links0, links, labels, LineEndpoints(numRouters, hostsPerRouter, false),
                 LineExtraLinks(numRouters, hostsPerRouter, true), style);
      LineGrows(numRouters, hostsPerRouter);
    }

    /** The extra hosts' links, after the links every dumbbell has. */
    method ConnectExtras(n: nat, style: LinkStyle)
      requires Valid() && style.DumbbellStyle?
      requires Labels(nodes) == DumbbellLabels(n, true)
      requires |links| == |DumbbellEndpoints(n, false)|
      requires LinksFollow(links, 0, Labels(nodes), DumbbellEndpoints(n, false), style)
      modifies this
      ensures Valid()
      ensures Labels(nodes) == DumbbellLabels(n, true)
      ensures |links| == |DumbbellEndpoints(n, true)|
      ensures LinksFollow(links, 0, Labels(nodes), DumbbellEndpoints(n, true), style)
      ensures kind == old(kind) && currPort == old(currPort) && allNodes == old(allNodes)
    {
      ghost var links0 := links;
      ghost var labels := Labels(nodes);
      DumbbellConnectable(n, style);
      Connect(DumbbellExtraEndpoints(n), style);
      FollowThen(links0, links, labels, DumbbellEndpoints(n, false), DumbbellExtraEndpoints(n), style);
      DumbbellGrows(n);
    }

    /**
     * `getAllNodes`: the cached concatenation of the node vectors, rebuilt
     * only when its size differs from the vectors' total size.
     */
    method GetAllNodes() returns (all: seq<nat>)
      modifies this
      ensures all == allNodes
      ensures |old(allNodes)| != kind.NodeCount() ==> allNodes == kind.NodeOrder()
      ensures |old(allNodes)| == kind.NodeCount() ==> allNodes == old(allNodes)
      ensures nodes == old(nodes) && links == old(links) && addressBytes == old(addressBytes)
      ensures currPort == old(currPort) && kind == old(kind)
    {
      if |allNodes| != kind.NodeCount() {
        allNodes := kind.NodeOrder();
      }
      all := allNodes;
    }

    /** `getTrafficMatrix`: row `i` lists the hosts host `i` sends to. */
    method GetTrafficMatrix() returns (matrix: seq<seq<int>>)
      ensures matrix == TrafficMatrix(kind)
    {
      match kind
      case RandomKind(hosts, _) =>
        matrix := BuildAllPairs(|hosts|);
      case DatacenterKind(_, hosts, _, _, _) =>
        matrix := BuildAllPairs(|hosts|);
      case DumbbellKind(_, _, _, _, _, _, hasExtraFlows, numExtraSenders, numSenders) =>
        matrix := BuildDumbbellMatrix(numSenders, hasExtraFlows, numExtraSenders);
      case LineKind(_, hosts, routers, senders, senderHosts, hasExtraFlows) =>
        matrix := BuildLineMatrix(senders, senderHosts, LineExtrasStart(|hosts|, |routers|, hasExtraFlows), |hosts|, hasExtraFlows);
    }
  }

  /** The links the extra flows add: extra left hosts first, then extra right hosts. */
  function DumbbellExtraEndpoints(n: nat): seq<(nat, nat)> {
    seq(2 * n, i => (4 * n + 2 + i, 2 * n)) + seq(2 * n, i => (2 * n + 2 + i, 2 * n + 1))
  }

  /** Adding the extra hosts extends the node labels and the link plan. */
  lemma DumbbellGrows(n: nat)
    ensures DumbbellLabels(n, true)[..|DumbbellLabels(n, false)|] == DumbbellLabels(n, false)
    ensures DumbbellLabels(n, true)
            == DumbbellLabels(n, false) + Run(2 * n + 2, 2 * n, true, true) + Run(4 * n + 2, 2 * n, true, true)
    ensures DumbbellEndpoints(n, true) == DumbbellEndpoints(n, false) + DumbbellExtraEndpoints(n)
  {
  }

  /** Every dumbbell link joins two existing nodes. */
  lemma DumbbellConnectable(n: nat, style: LinkStyle)
    requires style.DumbbellStyle?
    ensures Connectable(DumbbellLabels(n, false), DumbbellEndpoints(n, false), style)
    ensures Connectable(DumbbellLabels(n, true), DumbbellExtraEndpoints(n), style)
  {
    DumbbellShape(n);
    DumbbellExtraShape(n);
  }

  /** Adding the extra hosts extends the line's labels and its link plan. */
  lemma LineGrows(numRouters: nat, hostsPerRouter: nat)
    ensures var hosts := numRouters * hostsPerRouter;
            LineLabels(numRouters, hostsPerRouter, true)
            == LineLabels(numRouters, hostsPerRouter, false) + Run(hosts + numRouters, LineExtraHosts(numRouters, true), true, true)
    ensures LineLabels(numRouters, hostsPerRouter, true)[..|LineLabels(numRouters, hostsPerRouter, false)|]
            == LineLabels(numRouters, hostsPerRouter, false)
    ensures LineEndpoints(numRouters, hostsPerRouter, true)
            == LineEndpoints(numRouters, hostsPerRouter, false) + LineExtraLinks(numRouters, hostsPerRouter, true)
  {
    var hosts := numRouters * hostsPerRouter;
    assert LineLabels(numRouters, hostsPerRouter, false)
           == Run(0, hosts, true, false) + Run(hosts, numRouters, false, false);
  }

  /** Every line link joins two existing nodes and its delay is defined. */
  lemma LineConnectable(numRouters: nat, hostsPerRouter: nat, style: LinkStyle)
    requires style.LineStyle? && style.routerCount == numRouters
    ensures Connectable(LineLabels(numRouters, hostsPerRouter, false),
                        LineHostLinks(numRouters, hostsPerRouter) + LineChainLinks(numRouters, hostsPerRouter), style)
    ensures Connectable(LineLabels(numRouters, hostsPerRouter, true), LineExtraLinks(numRouters, hostsPerRouter, true), style)
  {
    var hosts := numRouters * hostsPerRouter;
    var core := LineLabels(numRouters, hostsPerRouter, false);
    var all := LineLabels(numRouters, hostsPerRouter, true);
    var extra := LineExtraHosts(numRouters, true);
    assert core == Run(0, hosts, true, false) + Run(hosts, numRouters, false, false);
    assert |core| == hosts + numRouters;
    forall v | 0 <= v < hosts + numRouters
      ensures core[v] == NodeLabel(v, v < hosts, false)
    {
      if v >= hosts {
        assert core[v] == Run(hosts, numRouters, false, false)[v - hosts];
      }
    }
    var hostLinks := LineHostLinks(numRouters, hostsPerRouter);
    var chain := LineChainLinks(numRouters, hostsPerRouter);
    forall i | 0 <= i < |hostLinks| ensures hostLinks[i].1 < hosts + numRouters {
      DivBelow(i, hostsPerRouter, numRouters);
    }
    var ends := hostLinks + chain;
    forall m | 0 <= m < |ends|
      ensures ends[m].0 < |core| && ends[m].1 < |core| && StyleAllows(style, core[ends[m].0], core[ends[m].1])
    {
      if m >= |hostLinks| {
        assert ends[m] == chain[m - |hostLinks|];
      }
    }
    LineGrows(numRouters, hostsPerRouter);
    var extraLinks := LineExtraLinks(numRouters, hostsPerRouter, true);
    forall m | 0 <= m < |extraLinks|
      ensures extraLinks[m].0 < |all| && extraLinks[m].1 < |all| && StyleAllows(style, all[extraLinks[m].0], all[extraLinks[m].1])
    {
      ExtraRouterBelow(m, numRouters);
      assert all[extraLinks[m].0] == Run(hosts + numRouters, extra, true, true)[m];
      assert all[extraLinks[m].1] == core[extraLinks[m].1];
    }
  }

  // ------------------------------------------------------ traffic matrices

  /** The receivers of host `i` after the inner loop has looked at hosts `0 .. j-1`. */
  function OthersBelow(i: nat, j: nat): seq<int>
    decreases j
  {
    if j == 0 then [] else OthersBelow(i, j - 1) + (if j - 1 != i then [j - 1] else [])
  }

  /** Every host sends to every other host. */
  function AllPairs(count: nat): seq<seq<int>> {
    seq(count, i requires 0 <= i => OthersBelow(i, count))
  }

  /** Row `i` of the all-pairs matrix holds exactly the other hosts, in increasing order. */
  lemma {:induction false} OthersBelowExact(i: nat, j: nat)
    ensures var row := OthersBelow(i, j);
            (forall x :: x in row <==> 0 <= x < j && x != i)
            && |row| == (if i < j then j - 1 else j)
            && forall p, q :: 0 <= p < q < |row| ==> row[p] < row[q]
    decreases j
  {
    if j > 0 {
      OthersBelowExact(i, j - 1);
      var prev := OthersBelow(i, j - 1);
      var row := OthersBelow(i, j);
      forall p, q | 0 <= p < q < |row| ensures row[p] < row[q] {
        if q >= |prev| {
          assert row[q] == j - 1;
          assert row[p] == prev[p] && row[p] in prev;
        } else {
          assert row[p] == prev[p] && row[q] == prev[q];
        }
      }
    }
  }

  /**
   * Dumbbell: sender `i` sends to host `numSenders + i`; with extra flows,
   * `numSenders` silent rows, then host `2 * numSenders + q` sends to host
   * `numExtraSenders + 2 * numSenders + q`.
   */
  function DumbbellMatrix(numSenders: nat, hasExtraFlows: bool, numExtraSenders: nat): seq<seq<int>> {
    seq(numSenders, i => [numSenders + i])
      + if hasExtraFlows then
          seq(numSenders, _ => []) + seq(numExtraSenders, q => [numExtraSenders + 2 * numSenders + q])
        else []
  }

  /**
   * Line: sender `i` sends to host `i + senderHosts`; with extra flows, the
   * rows up to `start` are silent and, from `start` on, every other host
   * sends to the host after it.
   */
  function LineRows(senders: nat, senderHosts: nat, start: nat, hostCount: nat, hasExtraFlows: bool): seq<seq<int>> {
    seq(senders, i => [i + senderHosts])
      + if hasExtraFlows then
          seq(if start > senders then start - senders else 0, _ => [])
          + seq(if hostCount > start then hostCount - start else 0, q => if q % 2 == 0 then [start + q + 1] else [])
        else []
  }

  /** As written, the extra hosts' rows start at `sender_hosts * 2`. */
  function LineMatrixAsWritten(senders: nat, senderHosts: nat, hostCount: nat, hasExtraFlows: bool): seq<seq<int>> {
    LineRows(senders, senderHosts, 2 * senderHosts, hostCount, hasExtraFlows)
  }

  /** Where the extra hosts begin in the line's host vector: after the traced hosts. */
  function LineExtrasStart(hostCount: nat, routerCount: nat, hasExtraFlows: bool): nat {
    var extra := LineExtraHosts(routerCount, hasExtraFlows);
    if hostCount >= extra then hostCount - extra else 0
  }

  /** The matrix `getTrafficMatrix` builds for each kind (the line's extra rows starting at the first extra host). */
  function TrafficMatrix(kind: TopologyKind): seq<seq<int>> {
    match kind
    case RandomKind(hosts, _) => AllPairs(|hosts|)
    case DatacenterKind(_, hosts, _, _, _) => AllPairs(|hosts|)
    case DumbbellKind(_, _, _, _, _, _, hasExtraFlows, numExtraSenders, numSenders) =>
      DumbbellMatrix(numSenders, hasExtraFlows, numExtraSenders)
    case LineKind(_, hosts, routers, senders, senderHosts, hasExtraFlows) =>
      LineRows(senders, senderHosts, LineExtrasStart(|hosts|, |routers|, hasExtraFlows), |hosts|, hasExtraFlows)
  }

  /** The Random and Datacenter nested loops. */
  method BuildAllPairs(count: nat) returns (matrix: seq<seq<int>>)
    ensures matrix == AllPairs(count)
  {
    matrix := [];
    for i := 0 to count
      invariant matrix == AllPairs(count)[..i]
    {
      var receivers := [];
      for j := 0 to count
        invariant receivers == OthersBelow(i, j)
      {
        if i != j {
          receivers := receivers + [j];
        }
      }
      matrix := matrix + [receivers];
      assert AllPairs(count)[..i + 1] == AllPairs(count)[..i] + [OthersBelow(i, count)];
    }
  }

  /** The dumbbell's loops. */
  method BuildDumbbellMatrix(numSenders: nat, hasExtraFlows: bool, numExtraSenders: nat) returns (matrix: seq<seq<int>>)
    ensures matrix == DumbbellMatrix(numSenders, hasExtraFlows, numExtraSenders)
  {
    matrix := [];
    for i := 0 to numSenders
      invariant matrix == seq(i, r => [numSenders + r])
    {
      matrix := matrix + [[numSenders + i]];
    }
    if hasExtraFlows {
      ghost var senderRows := matrix;
      for i := 0 to numSenders
        invariant matrix == senderRows + seq(i, _ => [])
      {
        matrix := matrix + [[]];
      }
      ghost var quietRows := matrix;
      for i := 2 * numSenders to 2 * numSenders + numExtraSenders
        invariant matrix == quietRows + seq(i - 2 * numSenders, q => [numExtraSenders + 2 * numSenders + q])
      {
        matrix := matrix + [[numExtraSenders + i]];
      }
    }
  }

  /** The line's loops, the extra hosts' rows starting at `start`. */
  method BuildLineMatrix(senders: nat, senderHosts: nat, start: nat, hostCount: nat, hasExtraFlows: bool)
    returns (matrix: seq<seq<int>>)
    ensures matrix == LineRows(senders, senderHosts, start, hostCount, hasExtraFlows)
  {
    matrix := SenderRows(senders, senderHosts);
    if hasExtraFlows {
      var quiet := QuietRows(senders, start);
      var extra := ExtraPairRows(start, hostCount);
      matrix := matrix + quiet + extra;
    }
  }

  /** The first loop: sender `i` sends to host `i + senderHosts`. */
  method SenderRows(senders: nat, senderHosts: nat) returns (rows: seq<seq<int>>)
    ensures rows == seq(senders, i => [i + senderHosts])
  {
    rows := [];
    for i := 0 to senders
      invariant rows == seq(i, r => [r + senderHosts])
    {
      rows := rows + [[i + senderHosts]];
    }
  }

  /** The second loop: empty rows from `senders` up to `start`. */
  method QuietRows(senders: nat, start: nat) returns (rows: seq<seq<int>>)
    ensures rows == seq(if start > senders then start - senders else 0, _ => [])
  {
    rows := [];
    var i := senders;
    while i < start
      invariant senders <= i && (i <= start || i == senders)
      invariant rows == seq(i - senders, _ => [])
    {
      rows := rows + [[]];
      i := i + 1;
    }
  }

  /** The third loop: from `start` on, every other host sends to the next one. */
  method ExtraPairRows(start: nat, hostCount: nat) returns (rows: seq<seq<int>>)
    ensures rows == seq(if hostCount > start then hostCount - start else 0, q => if q % 2 == 0 then [start + q + 1] else [])
  {
    rows := [];
    var i := start;
    while i < hostCount
      invariant start <= i && (i <= hostCount || i == start)
      invariant rows == seq(i - start, q => if q % 2 == 0 then [start + q + 1] else [])
    {
      if (i - start) % 2 == 0 {
        rows := rows + [[i + 1]];
      } else {
        rows := rows + [[]];
      }
      i := i + 1;
    }
  }

  // ------------------------------------------------ properties of the layouts

  /** The kind a dumbbell of `n` senders is left with after generation. */
  function DumbbellBuilt(config: DumbbellConfig, n: nat, hasExtraFlows: bool): TopologyKind {
    DumbbellKind(config, Positions(0, n), Positions(n, n), Positions(2 * n, 2),
                 if hasExtraFlows then Positions(4 * n + 2, 2 * n) else [],
                 if hasExtraFlows then Positions(2 * n + 2, 2 * n) else [],
                 hasExtraFlows, 2 * n, n)
  }

  /** The router a dumbbell host at position `p` is linked to: the left one for left and extra left hosts. */
  function DumbbellSide(n: nat, p: nat): nat {
    if p < n || p >= 4 * n + 2 then 2 * n else 2 * n + 1
  }

  /** Every dumbbell host is linked to the router `DumbbellSide` names. */
  lemma DumbbellHostsAttach(config: DumbbellConfig, n: nat, hasExtraFlows: bool)
    ensures var hosts := DumbbellBuilt(config, n, hasExtraFlows).Hosts();
            forall i :: 0 <= i < |hosts| ==> (hosts[i], DumbbellSide(n, hosts[i])) in DumbbellEndpoints(n, hasExtraFlows)
  {
    var hosts := DumbbellBuilt(config, n, hasExtraFlows).Hosts();
    var ends := DumbbellEndpoints(n, hasExtraFlows);
    DumbbellShape(n);
    DumbbellGrows(n);
    forall i | 0 <= i < |hosts| ensures (hosts[i], DumbbellSide(n, hosts[i])) in ends {
      if i < 2 * n {
        assert hosts[i] == i;
        assert ends[i] == DumbbellEndpoints(n, false)[i];
      } else if i < 4 * n {
        var q := i - 2 * n;
        assert hosts[i] == 2 * n + 2 + q;
        assert ends[2 * n + 1 + 2 * n + q] == DumbbellExtraEndpoints(n)[2 * n + q];
      } else {
        var q := i - 4 * n;
        assert hosts[i] == 4 * n + 2 + q;
        assert ends[2 * n + 1 + q] == DumbbellExtraEndpoints(n)[q];
      }
    }
  }

  /**
   * Every dumbbell flow crosses the bottleneck: the sender and the
   * receiver of each traffic-matrix entry are hosts on opposite routers.
   */
  lemma DumbbellFlowsCross(config: DumbbellConfig, n: nat, hasExtraFlows: bool)
    ensures var kind := DumbbellBuilt(config, n, hasExtraFlows);
            var matrix, hosts := TrafficMatrix(kind), kind.Hosts();
            forall r, x :: 0 <= r < |matrix| && x in matrix[r] ==>
              r < |hosts| && 0 <= x < |hosts| && DumbbellSide(n, hosts[r]) != DumbbellSide(n, hosts[x])
  {
    var kind := DumbbellBuilt(config, n, hasExtraFlows);
    var matrix, hosts := TrafficMatrix(kind), kind.Hosts();
    forall r, x | 0 <= r < |matrix| && x in matrix[r]
      ensures r < |hosts| && 0 <= x < |hosts| && DumbbellSide(n, hosts[r]) != DumbbellSide(n, hosts[x])
    {
      if r < n {
        assert matrix[r] == [n + r];
        assert hosts[r] == r && hosts[n + r] == n + r;
      } else if r >= 2 * n {
        var q := r - 2 * n;
        assert matrix[r] == [4 * n + q];
        assert hosts[r] == 2 * n + 2 + q && hosts[4 * n + q] == 4 * n + 2 + q;
      }
    }
  }

  /** The kind a line is left with after generation. */
  function LineBuilt(config: LineConfig, numRouters: nat, hostsPerRouter: nat, numSenders: nat, hasExtraFlows: bool): TopologyKind {
    LineWithTraced(config, numRouters, numRouters * hostsPerRouter, numSenders, hasExtraFlows)
  }

  /** A generated line, given its number of traced hosts. */
  function LineWithTraced(config: LineConfig, numRouters: nat, hosts: nat, numSenders: nat, hasExtraFlows: bool): TopologyKind {
    LineKind(config, Positions(0, hosts) + Positions(hosts + numRouters, LineExtraHosts(numRouters, hasExtraFlows)),
             Positions(hosts, numRouters), numSenders, hosts / 2, hasExtraFlows)
  }

  /** Extra host `2q` hangs off router `q` and extra host `2q + 1` off router `q + 1`. */
  lemma ExtraPairSpansOneHop(q: nat, numRouters: nat)
    requires 2 * q + 1 < LineExtraHosts(numRouters, true)
    ensures ExtraRouter(2 * q, LineExtraHosts(numRouters, true), numRouters) == q
    ensures ExtraRouter(2 * q + 1, LineExtraHosts(numRouters, true), numRouters) == q + 1
  {
  }

  /**
   * The line's rows name only hosts when the senders' receivers are hosts
   * and the extra rows, from `start` on, come in whole pairs.
   */
  lemma LineRowsWithinHosts(senders: nat, senderHosts: nat, start: nat, hostCount: nat)
    requires senders <= start <= hostCount && senders + senderHosts <= hostCount
    requires (hostCount - start) % 2 == 0
    ensures var matrix := LineRows(senders, senderHosts, start, hostCount, true);
            |matrix| == hostCount
            && (forall r, x :: 0 <= r < |matrix| && x in matrix[r] ==> 0 <= x < hostCount)
            && matrix[start..] == seq(hostCount - start, q => if q % 2 == 0 then [start + q + 1] else [])
  {
    var matrix := LineRows(senders, senderHosts, start, hostCount, true);
    var senderRows := seq(senders, i => [i + senderHosts]);
    var quiet: seq<seq<int>> := seq(start - senders, _ => []);
    var extraRows := seq(hostCount - start, q => if q % 2 == 0 then [start + q + 1] else []);
    assert matrix == senderRows + quiet + extraRows;
    forall r, x | 0 <= r < |matrix| && x in matrix[r] ensures 0 <= x < hostCount {
      if r < senders {
        assert matrix[r] == senderRows[r];
      } else if start <= r {
        assert matrix[r] == extraRows[r - start];
      }
    }
    assert matrix[start..] == extraRows;
  }

  /**
   * In a generated line whose senders all have receivers among the traced
   * hosts, the matrix has one row per host, every receiver is a host, and
   * from the first extra host on, extra host `2q` sends to extra host
   * `2q + 1` (one router hop further, by `ExtraPairSpansOneHop`).
   */
  lemma LineFlowsWithinHosts(config: LineConfig, numRouters: nat, hostsPerRouter: nat, numSenders: nat)
    requires var hosts := numRouters * hostsPerRouter; numSenders <= hosts - hosts / 2
    ensures LineFlowsPaired(LineBuilt(config, numRouters, hostsPerRouter, numSenders, true),
                            numRouters * hostsPerRouter, numRouters)
  {
    LineFlowsWithTraced(config, numRouters, numRouters * hostsPerRouter, numSenders);
  }

  /**
   * The matrix has a row per host, names only hosts, and pairs the extra
   * hosts from the `traced`-th on: extra host `2q` sends to extra host
   * `2q + 1`, and extra host `q` is node `traced + numRouters + q`.
   */
  ghost predicate LineFlowsPaired(kind: TopologyKind, traced: nat, numRouters: nat) {
    var matrix, hosts := TrafficMatrix(kind), kind.Hosts();
    var extra := LineExtraHosts(numRouters, true);
    |matrix| == |hosts| == traced + extra
    && (forall r, x :: 0 <= r < |matrix| && x in matrix[r] ==> 0 <= x < |hosts|)
    && (forall q :: 0 <= q < extra ==>
          matrix[traced..][q] == (if q % 2 == 0 then [traced + q + 1] else [])
          && hosts[traced..][q] == traced + numRouters + q)
  }

  /** `LineFlowsWithinHosts`, for any number of traced hosts. */
  lemma LineFlowsWithTraced(config: LineConfig, numRouters: nat, traced: nat, numSenders: nat)
    requires numSenders <= traced - traced / 2
    ensures LineFlowsPaired(LineWithTraced(config, numRouters, traced, numSenders, true), traced, numRouters)
  {
    var kind := LineWithTraced(config, numRouters, traced, numSenders, true);
    var extra := LineExtraHosts(numRouters, true);
    assert |kind.hosts| == traced + extra;
    assert LineExtrasStart(|kind.hosts|, |kind.routers|, true) == traced;
    LineRowsWithinHosts(numSenders, traced / 2, traced, traced + extra);
    assert kind.Hosts()[traced..] == Positions(traced + numRouters, extra);
  }

  /**
   * As written, a line with an odd number of traced hosts starts pairing
   * one row early: with 3 routers of 1 host and 1 sender the matrix has 7
   * rows for the 7 hosts, and the last row names host 7, which does not
   * exist.
   */
  lemma LineMatrixOverrunsAsWritten(config: LineConfig)
    ensures var kind := LineBuilt(config, 3, 1, 1, true);
            |kind.Hosts()| == 7 && kind.senderHosts == 1
            && |LineMatrixAsWritten(1, 1, 7, true)| == 7 && LineMatrixAsWritten(1, 1, 7, true)[6] == [7]
  {
    var m := LineMatrixAsWritten(1, 1, 7, true);
    assert m == [[1]] + ([[]] + seq(5, q => if q % 2 == 0 then [2 + q + 1] else []));
  }

  /** Whenever the number of traced hosts is even, the corrected matrix is the one written. */
  lemma LineMatrixAgreesWhenEven(config: LineConfig, numRouters: nat, hostsPerRouter: nat, numSenders: nat, hasExtraFlows: bool)
    requires (numRouters * hostsPerRouter) % 2 == 0
    ensures var kind := LineBuilt(config, numRouters, hostsPerRouter, numSenders, hasExtraFlows);
            TrafficMatrix(kind) == LineMatrixAsWritten(numSenders, kind.senderHosts, |kind.hosts|, hasExtraFlows)
  {
  }

  /** A generated dumbbell's `getAllNodes` lists the nodes in id order. */
  lemma DumbbellNodeOrder(config: DumbbellConfig, n: nat, hasExtraFlows: bool)
    ensures DumbbellBuilt(config, n, hasExtraFlows).NodeOrder() == Positions(0, |DumbbellLabels(n, hasExtraFlows)|)
  {
    var order := DumbbellBuilt(config, n, hasExtraFlows).NodeOrder();
    if hasExtraFlows {
      assert order == Positions(0, n) + Positions(n, n) + Positions(2 * n, 2) + Positions(2 * n + 2, 2 * n) + Positions(4 * n + 2, 2 * n);
    } else {
      assert order == Positions(0, n) + Positions(n, n) + Positions(2 * n, 2) + [] + [];
    }
  }

  /** A generated fat tree's `getAllNodes` lists the nodes in id order. */
  lemma DatacenterNodeOrder(config: DatacenterConfig, k: nat)
    ensures var s, t, a := Servers(k), Tors(k), Aggs(k);
            var kind := DatacenterKind(config, Positions(0, s), Positions(s, t), Positions(s + t, a), Positions(s + t + a, Cores(k)));
            kind.NodeOrder() == Positions(0, |DatacenterLabels(k)|)
  {
  }

  /** A generated line's `getAllNodes` lists every node once: all hosts (extra ones included), then the routers. */
  lemma LineNodeOrder(config: LineConfig, numRouters: nat, hostsPerRouter: nat, numSenders: nat, hasExtraFlows: bool)
    ensures var order := LineBuilt(config, numRouters, hostsPerRouter, numSenders, hasExtraFlows).NodeOrder();
            var count := |LineLabels(numRouters, hostsPerRouter, hasExtraFlows)|;
            |order| == count && forall v :: 0 <= v < count ==> v in order
  {
    var traced := numRouters * hostsPerRouter;
    var extra := LineExtraHosts(numRouters, hasExtraFlows);
    var order := LineBuilt(config, numRouters, hostsPerRouter, numSenders, hasExtraFlows).NodeOrder();
    assert order == Positions(0, traced) + Positions(traced + numRouters, extra) + Positions(traced, numRouters);
    forall v | 0 <= v < traced + numRouters + extra ensures v in order {
      if v < traced {
        assert order[v] == v;
      } else if v < traced + numRouters {
        assert order[traced + extra + (v - traced)] == v;
      } else {
        assert order[traced + (v - traced - numRouters)] == v;
      }
    }
  }

  /**
   * `TopologyFactory::CreateTopology`: a fresh topology of the requested
   * kind; a non-random kind is handed its configuration.
   */
  method CreateTopology(topoType: TopologyType, config: Option<TopologyConfig>) returns (t: Topology)
    requires topoType == Datacenter ==> config.Some? && config.value.DatacenterTopologyConfig?
    requires topoType == Dumbbell ==> config.Some? && config.value.DumbbellTopologyConfig?
    requires topoType == Line ==> config.Some? && config.value.LineTopologyConfig?
    ensures fresh(t) && t.Valid() && t.Unbuilt()
    ensures t.addressBytes == InitialAddress && t.currPort == InitialPort && t.allNodes == []
    ensures topoType == Random ==> t.kind.RandomKind?
    ensures topoType == Datacenter ==> t.kind.DatacenterKind? && t.kind.datacenter == config.value.datacenter
    ensures topoType == Dumbbell ==> t.kind.DumbbellKind? && t.kind.dumbbell == config.value.dumbbell
    ensures topoType == Line ==> t.kind.LineKind? && t.kind.line == config.value.line
  {
    if topoType.Datacenter? {
      t := new Topology.Datacenter(config.value.datacenter);
    } else if topoType.Dumbbell? {
      t := new Topology.Dumbbell(config.value.dumbbell);
    } else if topoType.Line? {
      t := new Topology.Line(config.value.line);
    } else {
      t := new Topology.Random();
    }
  }
}
