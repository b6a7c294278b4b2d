/** What network generation means: routes, labels, and the round trip through the peers. */
module NetworkTheorems {
  import opened Collections
  import opened Addresses
  import opened AllowedIPs
  import opened Worklist
  import opened NetworkBuilder

  // ---------- When generation ends ----------

  // Every scan ends but on these inputs: some resource has the range of the last one as its range or
  // WireGuard address and is to be a peer, and that range is a subnet, or the WireGuard address of a
  // subnet, of an access point on the builder's node.
  lemma SettlesIff(node: NodeId, resources: seq<NetResource>, aps: seq<AccessPoint>)
    requires resources != []
    ensures var own := resources[|resources| - 1].range;
            Settles(node, resources, aps) <==>
              !(own in WithWg(Subnets(ByNode(aps, node)))
                && exists nr, onr ::
                     nr in resources && onr in resources && Peered(node, nr, onr) && own in WithWg([onr.range]))
  {
    var own, next := resources[|resources| - 1].range, WithWg(Subnets(ByNode(aps, node)));
    var graph := RouteGraph(node, resources, aps);
    forall onr | onr in resources
      ensures Acyclic(graph, WithWg([onr.range])) <==> !(own in WithWg([onr.range]) && own in next)
    {
      if ByNode(aps, node) == [] {
        NoRoutesAcyclic(WithWg([onr.range]));
      } else {
        SingleRouteAcyclic(own, next, WithWg([onr.range]));
      }
    }
  }

  // So generatePeers ends if and only if there is no way in, which it reports before it scans
  // anything, or its input is none of those.
  lemma EndsIff(node: NodeId, resources: seq<NetResource>, aps: seq<AccessPoint>)
    ensures Ends(node, resources, aps) <==>
              NoWayIn(node, resources) || resources == [] || !ScansItself(node, resources, aps)
  {
    if resources != [] {
      SettlesIff(node, resources, aps);
    }
  }

  predicate ScansItself(node: NodeId, resources: seq<NetResource>, aps: seq<AccessPoint>)
    requires resources != []
  {
    var own := resources[|resources| - 1].range;
    && own in WithWg(Subnets(ByNode(aps, node)))
    && exists nr, onr :: nr in resources && onr in resources && Peered(node, nr, onr) && own in WithWg([onr.range])
  }

  // The error can come first: a hidden node, a node that has IPv6 only, and its range behind the
  // builder's own node.
  lemma FailsBeforeScanning(node: NodeId, hidden: NetResource, nr: NetResource, ap: AccessPoint)
    requires hidden.Hidden() && !nr.Hidden() && !nr.HasIPv4() && nr.node != node
    requires ap.node == node && ap.subnet == nr.range
    ensures NoWayIn(node, [hidden, nr]) && !Settles(node, [hidden, nr], [ap]) && Ends(node, [hidden, nr], [ap])
  {
    assert [ap][..0] == [];
    assert ByNode([ap], node) == [ap] && Subnets([ap]) == [nr.range];
    StartsWithWg(nr.range);
    NoWayInForHidden(node, hidden, nr);
    PeersBehindItself(node, [hidden, nr], [ap], nr);
  }

  lemma NoWayInForHidden(node: NodeId, hidden: NetResource, nr: NetResource)
    requires hidden.Hidden() && !nr.HasIPv4()
    ensures NoWayIn(node, [hidden, nr])
  {
    assert [hidden, nr][0] == hidden && hidden in [hidden, nr];
  }

  lemma PeersBehindItself(node: NodeId, resources: seq<NetResource>, aps: seq<AccessPoint>, nr: NetResource)
    requires resources != [] && resources[|resources| - 1] == nr && Peered(node, nr, nr)
    requires nr.range in WithWg(Subnets(ByNode(aps, node))) && nr.range in WithWg([nr.range])
    ensures !Settles(node, resources, aps)
  {
    assert nr in resources;
    SettlesIff(node, resources, aps);
  }

  // An input on which it never ends: a builder whose own node is not listed has an access point with the range of a
  // public node.
  lemma NeverSettles(node: NodeId, nr: NetResource, ap: AccessPoint)
    requires nr.node != node && nr.HasIPv4() && ap.node == node && ap.subnet == nr.range
    ensures !Ends(node, [nr], [ap])
  {
    assert [ap][..0] == [];
    assert ByNode([ap], node) == [ap] && Subnets([ap]) == [nr.range];
    StartsWithWg(nr.range);
    assert nr in [nr] && Peered(node, nr, nr) && nr.range in WithWg([nr.range]);
    SettlesIff(node, [nr], [ap]);
  }

  lemma NoRoutesAcyclic(initial: seq<IPRange>)
    ensures Acyclic(map[], initial)
  {
    var graph: Graph<IPRange> := map[];
    forall path: seq<IPRange> | |path| > 1
      ensures !IsPath(graph, path)
    {
      assert path[0 + 1] !in Routes(graph, path[0]);
    }
  }

  // ---------- Who is a peer of whom ----------

  // A node becomes its own peer exactly when it is public and not the builder's node.
  lemma PeersWithItselfIff(node: NodeId, nr: NetResource)
    ensures Peered(node, nr, nr) <==> nr.node != node && !nr.Hidden()
  {
  }

  lemma {:induction false} NodePeerOf(node: NodeId, graph: Graph<IPRange>, nr: NetResource, others: seq<NetResource>,
                                      p: Peer)
    ensures p in NodePeers(node, graph, nr, others) <==>
              exists onr :: onr in others && Peered(node, nr, onr) && p == NodePeer(graph, onr)
  {
    if others == [] {
    } else {
      var init, last := others[..|others| - 1], others[|others| - 1];
      NodePeerOf(node, graph, nr, init, p);
      assert others == init + [last];
    }
  }

  // How often a peer is listed, and how many resources give it.
  function PeerCount(peers: seq<Peer>, p: Peer): nat {
    if peers == [] then 0 else PeerCount(peers[..|peers| - 1], p) + if peers[|peers| - 1] == p then 1 else 0
  }

  function GiverCount(node: NodeId, graph: Graph<IPRange>, nr: NetResource, others: seq<NetResource>, p: Peer): nat {
    if others == [] then 0
    else
      var last := others[|others| - 1];
      GiverCount(node, graph, nr, others[..|others| - 1], p) +
      if Peered(node, nr, last) && NodePeer(graph, last) == p then 1 else 0
  }

  // Every resource that may be a peer gives exactly one.
  lemma {:induction false} OnePeerEach(node: NodeId, graph: Graph<IPRange>, nr: NetResource, others: seq<NetResource>,
                                       p: Peer)
    ensures PeerCount(NodePeers(node, graph, nr, others), p) == GiverCount(node, graph, nr, others, p)
  {
    if others == [] {
    } else {
      var init, last := others[..|others| - 1], others[|others| - 1];
      var peers := NodePeers(node, graph, nr, init);
      OnePeerEach(node, graph, nr, init, p);
      assert (peers + [NodePeer(graph, last)])[..|peers|] == peers && peers + [] == peers;
    }
  }

  // ---------- Peers on the generated resources ----------

  predicate HasPeer(nr: NetResource, key: Key) {
    exists i :: 0 <= i < |nr.peers| && nr.peers[i].key == key
  }

  // No other node and no access point uses this node's key.
  predicate OwnKey(resources: seq<NetResource>, aps: seq<AccessPoint>, i: nat)
    requires i < |resources|
  {
    && (forall k | 0 <= k < |resources| && k != i :: resources[k].key != resources[i].key)
    && forall ap | ap in aps :: ap.key != resources[i].key
  }

  // A hidden node gets the nodes that have an IPv4 endpoint, one that has IPv4 itself gets all of them,
  // and one with IPv6 only all that have an endpoint; but nobody gets the builder's own node.
  lemma HasPeerIff(node: NodeId, resources: seq<NetResource>, aps: seq<AccessPoint>, i: nat, j: nat)
    requires i < |resources| && j < |resources| && OwnKey(resources, aps, j)
    ensures var a, b := resources[i].endpoints, resources[j].endpoints;
            HasPeer(Generated(node, resources, aps)[i], resources[j].key) <==>
              resources[j].node != node && if a == [] then IPv4 in b else IPv4 in a || b != []
  {
    var nr, onr, graph := resources[i], resources[j], RouteGraph(node, resources, aps);
    var peers := NodePeers(node, graph, nr, resources) + AccessPeers(ByNode(aps, nr.node));
    assert Generated(node, resources, aps)[i].peers == peers;
    if HasPeer(Generated(node, resources, aps)[i], onr.key) {
      var k :| 0 <= k < |peers| && peers[k].key == onr.key;
      KeyOfPeer(node, resources, aps, nr, peers[k], j);
    }
    if Peered(node, nr, onr) {
      NodePeerOf(node, graph, nr, resources, NodePeer(graph, onr));
      assert onr in resources && NodePeer(graph, onr) in peers;
      var k :| 0 <= k < |peers| && peers[k] == NodePeer(graph, onr);
    }
  }

  // A peer with this node's own key stands for this node.
  lemma KeyOfPeer(node: NodeId, resources: seq<NetResource>, aps: seq<AccessPoint>, nr: NetResource, p: Peer, j: nat)
    requires j < |resources| && OwnKey(resources, aps, j) && p.key == resources[j].key
    requires p in PeersOf(node, resources, aps, nr)
    ensures Peered(node, nr, resources[j])
  {
    var graph := RouteGraph(node, resources, aps);
    if p in NodePeers(node, graph, nr, resources) {
      NodePeerOf(node, graph, nr, resources, p);
      var onr :| onr in resources && Peered(node, nr, onr) && p == NodePeer(graph, onr);
      var k :| 0 <= k < |resources| && resources[k] == onr;
    } else {
      AccessPeerOf(ByNode(aps, nr.node), p);
    }
  }

  lemma {:induction false} AccessPeerOf(aps: seq<AccessPoint>, p: Peer)
    ensures p in AccessPeers(aps) <==> exists ap :: ap in aps && p == AccessPeer(ap)
  {
    if aps == [] {
    } else {
      var init, last := aps[..|aps| - 1], aps[|aps| - 1];
      AccessPeerOf(init, p);
      assert aps == init + [last];
    }
  }

  // Every tunnel has two ends: of two nodes, neither of them the builder's own, each has the other as a
  // peer or neither has, and they do if both are public, or one is hidden and the other has IPv4.
  lemma PeeringIsMutual(node: NodeId, resources: seq<NetResource>, aps: seq<AccessPoint>, i: nat, j: nat)
    requires i < |resources| && j < |resources| && OwnKey(resources, aps, i) && OwnKey(resources, aps, j)
    requires resources[i].node != node && resources[j].node != node
    ensures var generated := Generated(node, resources, aps);
            HasPeer(generated[i], resources[j].key) <==> HasPeer(generated[j], resources[i].key)
    ensures var a, b := resources[i].endpoints, resources[j].endpoints;
            HasPeer(Generated(node, resources, aps)[i], resources[j].key) <==>
              (a != [] && b != []) || (a == [] && IPv4 in b) || (b == [] && IPv4 in a)
  {
    HasPeerIff(node, resources, aps, i, j);
    HasPeerIff(node, resources, aps, j, i);
  }

  // What a node's peer may route: its range and that's WireGuard address and, if it has the range of the
  // last node, or that range as its address, the subnets of the access points on the builder's own node
  // and their addresses, but nothing else.
  lemma NodePeerRoutes(node: NodeId, resources: seq<NetResource>, aps: seq<AccessPoint>, nr: NetResource)
    requires resources != []
    ensures var allowed := NodePeer(RouteGraph(node, resources, aps), nr).allowed;
            var own := resources[|resources| - 1].range;
            && |allowed| >= 2 && allowed[0] == nr.range && allowed[1] == Behind100(nr.range)
            && (forall k | 2 <= k < |allowed| ::
                  (nr.range == own || Behind100(nr.range) == own) && IsOwnSubnet(node, aps, allowed[k]))
            && (nr.range == own || Behind100(nr.range) == own ==>
                  forall ap | ap in aps && ap.node == node ::
                    ap.subnet in allowed && Behind100(ap.subnet) in allowed)
  {
    var own, next := resources[|resources| - 1].range, Subnets(ByNode(aps, node));
    var graph, first := RouteGraph(node, resources, aps), [nr.range, WgIP(nr.range)];
    StartsWithWg(nr.range);
    SubnetsAreOwn(node, aps);
    if ByNode(aps, node) == [] {
      NothingToExtend(first);
    } else {
      OneStep(own, WithWg(next), first);
      TwoRoutes(map[own := WithWg(next)], nr.range, WgIP(nr.range));
    }
  }

  lemma TwoRoutes(graph: Graph<IPRange>, r: IPRange, s: IPRange)
    ensures AllRoutes(graph, [r, s]) == Routes(graph, r) + Routes(graph, s)
  {
    assert [r, s][..1] == [r] && [r][..0] == [];
    assert AllRoutes(graph, [r]) == AllRoutes(graph, []) + Routes(graph, r);
  }

  // 10.3.1.0 gives 100.64.3.1.
  function Behind100(range: IPRange): IPRange {
    IPRange(IP(100, 64, range.ip.b, range.ip.c), 32)
  }

  // A subnet of an access point on the builder's own node, or its WireGuard address.
  predicate IsOwnSubnet(node: NodeId, aps: seq<AccessPoint>, r: IPRange) {
    exists ap :: ap in aps && ap.node == node && (r == ap.subnet || r == Behind100(ap.subnet))
  }

  lemma SubnetsAreOwn(node: NodeId, aps: seq<AccessPoint>)
    ensures forall r | r in WithWg(Subnets(ByNode(aps, node))) :: IsOwnSubnet(node, aps, r)
    ensures forall ap | ap in aps && ap.node == node ::
              var routed := WithWg(Subnets(ByNode(aps, node)));
              ap.subnet in routed && Behind100(ap.subnet) in routed
  {
    forall r | r in WithWg(Subnets(ByNode(aps, node)))
      ensures IsOwnSubnet(node, aps, r)
    {
      var ap := RoutedPoint(ByNode(aps, node), r);
      ByNodeMembers(aps, node, ap);
    }
    forall ap | ap in aps && ap.node == node
      ensures var routed := WithWg(Subnets(ByNode(aps, node)));
              ap.subnet in routed && Behind100(ap.subnet) in routed
    {
      ByNodeMembers(aps, node, ap);
      PointIsRouted(ByNode(aps, node), ap);
    }
  }

  lemma {:induction false} RoutedPoint(aps: seq<AccessPoint>, r: IPRange) returns (ap: AccessPoint)
    requires r in WithWg(Subnets(aps))
    ensures ap in aps && (r == ap.subnet || r == Behind100(ap.subnet))
  {
    ap := aps[|aps| - 1];
    var init := aps[..|aps| - 1];
    assert aps == init + [ap] && Subnets(aps)[..|Subnets(aps)| - 1] == Subnets(init);
    if r in WithWg(Subnets(init)) {
      ap := RoutedPoint(init, r);
    }
  }

  lemma {:induction false} PointIsRouted(aps: seq<AccessPoint>, ap: AccessPoint)
    requires ap in aps
    ensures ap.subnet in WithWg(Subnets(aps)) && Behind100(ap.subnet) in WithWg(Subnets(aps))
  {
    var init, last := aps[..|aps| - 1], aps[|aps| - 1];
    assert aps == init + [last] && Subnets(aps)[..|Subnets(aps)| - 1] == Subnets(init);
    if ap in init {
      PointIsRouted(init, ap);
    }
  }

  // What an access point's peer looks like: its subnet, and that with its WireGuard address as allowed.
  function PointPeer(ap: AccessPoint): Peer {
    Peer(ap.key, ap.subnet, [ap.subnet, IPRange(IP(100, 64, ap.subnet.ip.b, ap.subnet.ip.c), 32)])
  }

  // Exactly the access points of a node are its peers besides other nodes, and each of them may route
  // its own subnet and nothing else.
  lemma PointPeerIff(node: NodeId, resources: seq<NetResource>, aps: seq<AccessPoint>, i: nat, p: Peer)
    requires i < |resources| && p.key !in NodeKeys(resources)
    ensures p in Generated(node, resources, aps)[i].peers <==>
              exists ap :: ap in aps && ap.node == resources[i].node && p == PointPeer(ap)
  {
    var nr, graph := resources[i], RouteGraph(node, resources, aps);
    AccessPeerOf(ByNode(aps, nr.node), p);
    NodePeerOf(node, graph, nr, resources, p);
    forall ap | ap in aps
      ensures AccessPeer(ap) == PointPeer(ap)
    {
      StartsWithWg(ap.subnet);
    }
    forall ap: AccessPoint
      ensures ap in ByNode(aps, nr.node) <==> ap in aps && ap.node == nr.node
    {
      ByNodeMembers(aps, nr.node, ap);
    }
  }

  lemma {:induction false} ByNodeMembers(aps: seq<AccessPoint>, id: NodeId, ap: AccessPoint)
    ensures ap in ByNode(aps, id) <==> ap in aps && ap.node == id
  {
    if aps == [] {
    } else {
      var init, last := aps[..|aps| - 1], aps[|aps| - 1];
      ByNodeMembers(init, id, ap);
      assert aps == init + [last];
    }
  }

  // ---------- Labels of the network graph ----------

  // Edges of the network graph are labelled with the allowed ranges that are not in 100.64.0.0/10.
  function Labels(ranges: seq<IPRange>): seq<IPRange> {
    if ranges == [] then []
    else
      var last := ranges[|ranges| - 1];
      Labels(ranges[..|ranges| - 1]) + if IsCGN(last) then [] else [last]
  }

  // From a list of subnets and their WireGuard addresses that removes exactly the latter.
  lemma {:induction false} WgAddressesDropOut(subnets: seq<IPRange>)
    requires forall r | r in subnets :: !IsCGN(r)
    ensures Labels(WithWg(subnets)) == subnets
  {
    if subnets == [] {
    } else {
      var init, last := subnets[..|subnets| - 1], subnets[|subnets| - 1];
      WgAddressesDropOut(init);
      WgIPIsCGN(last);
      var all := WithWg(subnets);
      assert all[..|all| - 1] == WithWg(init) + [last];
      assert all[..|all| - 1][..|all| - 2] == WithWg(init);
    }
  }

  lemma {:induction false} WithWgConcat(a: seq<IPRange>, b: seq<IPRange>)
    ensures WithWg(a + b) == WithWg(a) + WithWg(b)
  {
    if b == [] {
      assert a + b == a;
    } else {
      assert (a + b)[..|a + b| - 1] == a + b[..|b| - 1];
      WithWgConcat(a, b[..|b| - 1]);
    }
  }

  lemma {:induction false} RoutesAreSubnets(own: IPRange, next: seq<IPRange>, list: seq<IPRange>)
    returns (subnets: seq<IPRange>)
    ensures AllRoutes(map[own := WithWg(next)], list) == WithWg(subnets)
    ensures forall r | r in subnets :: r in next
  {
    subnets := [];
    if list == [] {
    } else {
      subnets := RoutesAreSubnets(own, next, list[..|list| - 1]);
      if list[|list| - 1] == own {
        WithWgConcat(subnets, next);
        subnets := subnets + next;
      }
    }
  }

  lemma {:induction false} SubnetOf(aps: seq<AccessPoint>, r: IPRange) returns (ap: AccessPoint)
    requires r in Subnets(aps)
    ensures ap in aps && ap.subnet == r
  {
    ap := aps[|aps| - 1];
    if ap.subnet == r {
    } else {
      ap := SubnetOf(aps[..|aps| - 1], r);
    }
  }

  // An edge to a peer is labelled with the peer's own range and subnets of access points, each of
  // them as often as its WireGuard address is allowed, unless one of these is in 100.64.0.0/10.
  lemma LabelsAreSubnets(node: NodeId, resources: seq<NetResource>, aps: seq<AccessPoint>, onr: NetResource)
    returns (subnets: seq<IPRange>)
    requires !IsCGN(onr.range) && forall ap | ap in aps :: !IsCGN(ap.subnet)
    ensures NodePeer(RouteGraph(node, resources, aps), onr).allowed == WithWg(subnets)
    ensures Labels(NodePeer(RouteGraph(node, resources, aps), onr).allowed) == subnets
    ensures subnets != [] && subnets[0] == onr.range
    ensures forall i | 0 < i < |subnets| :: subnets[i] in Subnets(ByNode(aps, node))
  {
    var graph, own := RouteGraph(node, resources, aps), ByNode(aps, node);
    if resources == [] || own == [] {
      subnets := [onr.range];
      NothingToExtend(WithWg(subnets));
    } else {
      var last := resources[|resources| - 1].range;
      var more := RoutesAreSubnets(last, Subnets(own), WithWg([onr.range]));
      OneStep(last, WithWg(Subnets(own)), WithWg([onr.range]));
      WithWgConcat([onr.range], more);
      subnets := [onr.range] + more;
      forall r | r in subnets
        ensures !IsCGN(r)
      {
        if r != onr.range {
          var ap := SubnetOf(own, r);
        }
      }
    }
    WgAddressesDropOut(subnets);
  }

  lemma NothingToExtend(initial: seq<IPRange>)
    ensures Extended(map[], initial) == initial
  {
    var graph: Graph<IPRange> := map[];
    assert Depth(graph) == 1;
    assert Rounds(graph, initial, 1) == initial + AllRoutes(graph, Rounds(graph, initial, 0)) == initial;
  }

  // ---------- Round trip ----------

  // extractAccessPoints cannot know whether an access point uses IPv4.
  function Cleared(aps: seq<AccessPoint>): seq<AccessPoint> {
    if aps == [] then [] else Cleared(aps[..|aps| - 1]) + [aps[|aps| - 1].(ip4 := false)]
  }

  // Access points whose key is not that of a node.
  function Foreign(keys: set<Key>, aps: seq<AccessPoint>): seq<AccessPoint> {
    if aps == [] then []
    else
      var last := aps[|aps| - 1];
      Foreign(keys, aps[..|aps| - 1]) + if last.key in keys then [] else [last]
  }

  // Grouped by the nodes in their order, each group in its old order.
  function Grouped(keys: set<Key>, resources: seq<NetResource>, aps: seq<AccessPoint>): seq<AccessPoint> {
    if resources == [] then []
    else
      Grouped(keys, resources[..|resources| - 1], aps) +
      Cleared(Foreign(keys, ByNode(aps, resources[|resources| - 1].node)))
  }

  lemma {:induction false} NotNodesConcat(keys: set<Key>, id: NodeId, a: seq<Peer>, b: seq<Peer>)
    ensures NotNodes(keys, id, a + b) == NotNodes(keys, id, a) + NotNodes(keys, id, b)
  {
    if b == [] {
      assert a + b == a;
    } else {
      assert (a + b)[..|a + b| - 1] == a + b[..|b| - 1];
      NotNodesConcat(keys, id, a, b[..|b| - 1]);
    }
  }

  // Peers made from nodes carry node keys ...
  lemma {:induction false} NodePeersAreNodes(keys: set<Key>, id: NodeId, node: NodeId, graph: Graph<IPRange>,
                                             nr: NetResource, others: seq<NetResource>)
    requires forall onr | onr in others :: onr.key in keys
    ensures NotNodes(keys, id, NodePeers(node, graph, nr, others)) == []
  {
    if others == [] {
    } else {
      var init, last := others[..|others| - 1], others[|others| - 1];
      NodePeersAreNodes(keys, id, node, graph, nr, init);
      var peers := NodePeers(node, graph, nr, init);
      assert peers + [] == peers && last in others;
      assert (peers + [NodePeer(graph, last)])[..|peers|] == peers;
    }
  }

  // ... and peers made from access points give these back.
  lemma {:induction false} AccessPeersComeBack(keys: set<Key>, id: NodeId, aps: seq<AccessPoint>)
    requires forall ap | ap in aps :: ap.node == id
    ensures NotNodes(keys, id, AccessPeers(aps)) == Cleared(Foreign(keys, aps))
  {
    if aps == [] {
    } else {
      var init, last := aps[..|aps| - 1], aps[|aps| - 1];
      AccessPeersComeBack(keys, id, init);
      assert AccessPeers(aps)[..|AccessPeers(aps)| - 1] == AccessPeers(init);
      assert last in aps;
      var f := Foreign(keys, init);
      assert (f + [last])[..|f|] == f;
      assert f + [] == f;
    }
  }

  lemma NodeKeysAreKept(node: NodeId, resources: seq<NetResource>, aps: seq<AccessPoint>)
    ensures NodeKeys(Generated(node, resources, aps)) == NodeKeys(resources)
  {
    var generated := Generated(node, resources, aps);
    forall i | 0 <= i < |resources|
      ensures resources[i].key in NodeKeys(generated) && generated[i].key in NodeKeys(resources)
    {
      assert generated[i] in generated && resources[i] in resources;
    }
  }

  lemma PeersComeBack(node: NodeId, resources: seq<NetResource>, aps: seq<AccessPoint>, nr: NetResource)
    ensures NotNodes(NodeKeys(resources), nr.node, PeersOf(node, resources, aps, nr))
         == Cleared(Foreign(NodeKeys(resources), ByNode(aps, nr.node)))
  {
    var keys, graph := NodeKeys(resources), RouteGraph(node, resources, aps);
    NotNodesConcat(keys, nr.node, NodePeers(node, graph, nr, resources), AccessPeers(ByNode(aps, nr.node)));
    NodePeersAreNodes(keys, nr.node, node, graph, nr, resources);
    AccessPeersComeBack(keys, nr.node, ByNode(aps, nr.node));
    assert [] + Cleared(Foreign(keys, ByNode(aps, nr.node))) == Cleared(Foreign(keys, ByNode(aps, nr.node)));
  }

  lemma {:induction false} AllComeBack(keys: set<Key>, generated: seq<NetResource>, resources: seq<NetResource>,
                                       aps: seq<AccessPoint>)
    requires |generated| == |resources|
    requires forall i | 0 <= i < |resources| ::
               NotNodes(keys, generated[i].node, generated[i].peers)
               == Cleared(Foreign(keys, ByNode(aps, resources[i].node)))
    ensures AllNotNodes(keys, generated) == Grouped(keys, resources, aps)
  {
    if resources == [] {
    } else {
      AllComeBack(keys, generated[..|generated| - 1], resources[..|resources| - 1], aps);
    }
  }

  // Whatever the resources and access points: what is read back from the generated peers are the
  // access points of each listed node in turn, without those that have a node's key.
  lemma ExtractAfterGenerate(node: NodeId, resources: seq<NetResource>, aps: seq<AccessPoint>)
    ensures Extracted(Generated(node, resources, aps)) == Grouped(NodeKeys(resources), resources, aps)
  {
    var keys, generated := NodeKeys(resources), Generated(node, resources, aps);
    NodeKeysAreKept(node, resources, aps);
    forall i | 0 <= i < |resources|
      ensures NotNodes(keys, generated[i].node, generated[i].peers)
           == Cleared(Foreign(keys, ByNode(aps, resources[i].node)))
    {
      PeersComeBack(node, resources, aps, resources[i]);
    }
    AllComeBack(keys, generated, resources, aps);
  }

  // ---------- When nothing is lost ----------

  // How many resources a node has.
  function Listed(resources: seq<NetResource>, id: NodeId): nat {
    if resources == [] then 0
    else Listed(resources[..|resources| - 1], id) + if resources[|resources| - 1].node == id then 1 else 0
  }

  // Every access point is on a node that is listed once and does not use a node's key.
  predicate Proper(resources: seq<NetResource>, aps: seq<AccessPoint>) {
    forall ap | ap in aps :: Listed(resources, ap.node) == 1 && ap.key !in NodeKeys(resources)
  }

  function Count(aps: seq<AccessPoint>, x: AccessPoint): nat {
    if aps == [] then 0 else Count(aps[..|aps| - 1], x) + if aps[|aps| - 1] == x then 1 else 0
  }

  lemma {:induction false} CountIsMultiplicity(aps: seq<AccessPoint>, x: AccessPoint)
    ensures multiset(aps)[x] == Count(aps, x)
  {
    if aps == [] {
    } else {
      var init, last := aps[..|aps| - 1], aps[|aps| - 1];
      CountIsMultiplicity(init, x);
      assert multiset(aps) == multiset(init) + multiset{last} by { assert aps == init + [last]; }
    }
  }

  lemma {:induction false} CountConcat(a: seq<AccessPoint>, b: seq<AccessPoint>, x: AccessPoint)
    ensures Count(a + b, x) == Count(a, x) + Count(b, x)
  {
    if b == [] {
      assert a + b == a;
    } else {
      assert (a + b)[..|a + b| - 1] == a + b[..|b| - 1];
      CountConcat(a, b[..|b| - 1], x);
    }
  }

  lemma CountOneMore(aps: seq<AccessPoint>, ap: AccessPoint, x: AccessPoint)
    ensures Count(aps + [ap], x) == Count(aps, x) + if ap == x then 1 else 0
  {
    assert (aps + [ap])[..|aps|] == aps;
  }

  lemma {:induction false} CountByNode(aps: seq<AccessPoint>, id: NodeId, x: AccessPoint)
    ensures Count(ByNode(aps, id), x) == if x.node == id then Count(aps, x) else 0
  {
    if aps == [] {
    } else {
      var init, last := aps[..|aps| - 1], aps[|aps| - 1];
      CountByNode(init, id, x);
      if last.node == id {
        CountOneMore(ByNode(init, id), last, x);
      } else {
        assert ByNode(init, id) + [] == ByNode(init, id);
      }
    }
  }

  lemma {:induction false} CountForeign(keys: set<Key>, aps: seq<AccessPoint>, x: AccessPoint)
    ensures Count(Foreign(keys, aps), x) == if x.key in keys then 0 else Count(aps, x)
  {
    if aps == [] {
    } else {
      var init, last := aps[..|aps| - 1], aps[|aps| - 1];
      CountForeign(keys, init, x);
      if last.key in keys {
        assert Foreign(keys, init) + [] == Foreign(keys, init);
      } else {
        CountOneMore(Foreign(keys, init), last, x);
      }
    }
  }

  lemma {:induction false} CountCleared(aps: seq<AccessPoint>, x: AccessPoint)
    ensures Count(Cleared(aps), x) == if x.ip4 then 0 else Count(aps, x) + Count(aps, x.(ip4 := true))
  {
    if aps == [] {
    } else {
      var init, last := aps[..|aps| - 1], aps[|aps| - 1];
      CountCleared(init, x);
      CountOneMore(Cleared(init), last.(ip4 := false), x);
    }
  }

  lemma CountInGroup(keys: set<Key>, aps: seq<AccessPoint>, id: NodeId, x: AccessPoint)
    ensures Count(Cleared(Foreign(keys, ByNode(aps, id))), x)
         == if x.node == id && x.key !in keys then Count(Cleared(aps), x) else 0
  {
    CountCleared(Foreign(keys, ByNode(aps, id)), x);
    CountCleared(aps, x);
    forall y | y == x || y == x.(ip4 := true)
      ensures Count(Foreign(keys, ByNode(aps, id)), y) == if y.node == id && y.key !in keys then Count(aps, y) else 0
    {
      CountForeign(keys, ByNode(aps, id), y);
      CountByNode(aps, id, y);
    }
  }

  lemma {:induction false} CountInGroups(keys: set<Key>, resources: seq<NetResource>, aps: seq<AccessPoint>,
                                         x: AccessPoint)
    ensures GroupedCount(keys, resources, aps, x)
         == if x.key in keys then 0 else Copies(Listed(resources, x.node), Count(Cleared(aps), x))
  {
    if resources == [] {
    } else {
      CountInGroups(keys, resources[..|resources| - 1], aps, x);
      CountOneMoreGroup(keys, resources, aps, x);
      ListedCopies(resources, x.node, Count(Cleared(aps), x));
    }
  }

  lemma ListedCopies(resources: seq<NetResource>, id: NodeId, count: nat)
    requires resources != []
    ensures var init := resources[..|resources| - 1];
            Copies(Listed(resources, id), count) ==
            Copies(Listed(init, id), count) + if resources[|resources| - 1].node == id then count else 0
  {
    OneMoreCopy(Listed(resources[..|resources| - 1], id), count);
  }

  lemma OneMoreCopy(times: nat, count: nat)
    ensures Copies(times + 1, count) == Copies(times, count) + count
  {
  }

  function GroupedCount(keys: set<Key>, resources: seq<NetResource>, aps: seq<AccessPoint>, x: AccessPoint): nat {
    Count(Grouped(keys, resources, aps), x)
  }

  lemma CountOneMoreGroup(keys: set<Key>, resources: seq<NetResource>, aps: seq<AccessPoint>, x: AccessPoint)
    requires resources != []
    ensures GroupedCount(keys, resources, aps, x)
         == GroupedCount(keys, resources[..|resources| - 1], aps, x)
            + if resources[|resources| - 1].node == x.node && x.key !in keys then Count(Cleared(aps), x) else 0
  {
    var init, owner := resources[..|resources| - 1], resources[|resources| - 1].node;
    CountInGroup(keys, aps, owner, x);
    CountConcat(Grouped(keys, init, aps), Cleared(Foreign(keys, ByNode(aps, owner))), x);
  }

  // So many times as many.
  function Copies(times: nat, count: nat): nat {
    if times == 0 then 0 else Copies(times - 1, count) + count
  }

  lemma {:induction false} ClearedMember(aps: seq<AccessPoint>, x: AccessPoint)
    ensures x in Cleared(aps) <==> exists ap :: ap in aps && x == ap.(ip4 := false)
  {
    if aps == [] {
    } else {
      var init, last := aps[..|aps| - 1], aps[|aps| - 1];
      ClearedMember(init, x);
      assert aps == init + [last];
    }
  }

  // Reading back gives exactly the original access points, but for the IPv4 flag, if and only if
  // each of them is on a node listed once and has a key of its own.
  lemma RoundTripIff(node: NodeId, resources: seq<NetResource>, aps: seq<AccessPoint>)
    ensures multiset(Extracted(Generated(node, resources, aps))) == multiset(Cleared(aps)) <==> Proper(resources, aps)
  {
    ExtractAfterGenerate(node, resources, aps);
    var back, all := Grouped(NodeKeys(resources), resources, aps), Cleared(aps);
    if Proper(resources, aps) {
      forall x: AccessPoint
        ensures multiset(back)[x] == multiset(all)[x]
      {
        ProperCounts(resources, aps, x);
        CountIsMultiplicity(back, x);
        CountIsMultiplicity(all, x);
      }
    }
    if multiset(back) == multiset(all) {
      forall x
        ensures Count(back, x) == Count(all, x)
      {
        CountIsMultiplicity(back, x);
        CountIsMultiplicity(all, x);
      }
      CountsAreProper(resources, aps);
    }
  }

  lemma ProperCounts(resources: seq<NetResource>, aps: seq<AccessPoint>, x: AccessPoint)
    requires Proper(resources, aps)
    ensures Count(Grouped(NodeKeys(resources), resources, aps), x) == Count(Cleared(aps), x)
  {
    CountInGroups(NodeKeys(resources), resources, aps, x);
    CountIsMultiplicity(Cleared(aps), x);
    ClearedMember(aps, x);
    if x in Cleared(aps) {
      OnlyOnce(Listed(resources, x.node), Count(Cleared(aps), x));
    } else {
      NoCopies(Listed(resources, x.node));
    }
  }

  lemma {:induction false} NoCopies(times: nat)
    ensures Copies(times, 0) == 0
  {
    if times == 0 {
    } else {
      NoCopies(times - 1);
    }
  }

  lemma CountsAreProper(resources: seq<NetResource>, aps: seq<AccessPoint>)
    requires forall x :: Count(Grouped(NodeKeys(resources), resources, aps), x) == Count(Cleared(aps), x)
    ensures Proper(resources, aps)
  {
    forall ap | ap in aps
      ensures Listed(resources, ap.node) == 1 && ap.key !in NodeKeys(resources)
    {
      var x := ap.(ip4 := false);
      CountInGroups(NodeKeys(resources), resources, aps, x);
      CountIsMultiplicity(Cleared(aps), x);
      ClearedMember(aps, x);
      OnlyOnce(Listed(resources, ap.node), Count(Cleared(aps), x));
    }
  }

  lemma OnlyOnce(times: nat, count: nat)
    requires count > 0
    ensures Copies(times, count) == count <==> times == 1
  {
    assert Copies(0, count) == 0;
    if times > 0 {
      assert Copies(times, count) == Copies(times - 1, count) + count;
    }
    if times > 1 {
      assert Copies(times - 1, count) == Copies(times - 2, count) + count;
    }
  }

  // ---------- The second round trip ----------

  lemma {:induction false} ByNodeConcat(a: seq<AccessPoint>, b: seq<AccessPoint>, id: NodeId)
    ensures ByNode(a + b, id) == ByNode(a, id) + ByNode(b, id)
  {
    if b == [] {
      assert a + b == a;
    } else {
      var init, last := b[..|b| - 1], b[|b| - 1];
      assert (a + b)[..|a + b| - 1] == a + init && (a + b)[|a + b| - 1] == last;
      ByNodeConcat(a, init, id);
      Assoc(ByNode(a, id), ByNode(init, id), if last.node == id then [last] else []);
    }
  }

  // A group is on one node.
  lemma {:induction false} ByNodeOfGroup(keys: set<Key>, aps: seq<AccessPoint>, owner: NodeId, id: NodeId)
    requires forall ap | ap in aps :: ap.node == owner
    ensures ByNode(Cleared(Foreign(keys, aps)), id) == if owner == id then Cleared(Foreign(keys, aps)) else []
  {
    if aps == [] {
    } else {
      var init, last := aps[..|aps| - 1], aps[|aps| - 1];
      ByNodeOfGroup(keys, init, owner, id);
      var f := Foreign(keys, init);
      assert last in aps;
      if last.key in keys {
        assert Foreign(keys, aps) == f;
      } else {
        assert (f + [last])[..|f|] == f;
        ByNodeConcat(Cleared(f), [last.(ip4 := false)], id);
        assert [last.(ip4 := false)][..0] == [];
      }
    }
  }

  lemma {:induction false} ByNodeOfGrouped(keys: set<Key>, resources: seq<NetResource>, aps: seq<AccessPoint>,
                                           id: NodeId)
    ensures ByNode(aps, id) == [] || Listed(resources, id) == 0 ==> ByNode(Grouped(keys, resources, aps), id) == []
    ensures Listed(resources, id) == 1 ==>
              ByNode(Grouped(keys, resources, aps), id) == Cleared(Foreign(keys, ByNode(aps, id)))
  {
    if resources == [] {
    } else {
      var init, owner := resources[..|resources| - 1], resources[|resources| - 1].node;
      ByNodeOfGrouped(keys, init, aps, id);
      var group := Cleared(Foreign(keys, ByNode(aps, owner)));
      ByNodeConcat(Grouped(keys, init, aps), group, id);
      ByNodeOfGroup(keys, ByNode(aps, owner), owner, id);
    }
  }

  lemma {:induction false} AllForeign(keys: set<Key>, aps: seq<AccessPoint>)
    requires forall ap | ap in aps :: ap.key !in keys
    ensures Foreign(keys, aps) == aps
  {
    if aps == [] {
    } else {
      AllForeign(keys, aps[..|aps| - 1]);
      assert aps[|aps| - 1] in aps;
    }
  }

  lemma {:induction false} ClearedLooksTheSame(aps: seq<AccessPoint>)
    ensures Subnets(Cleared(aps)) == Subnets(aps) && AccessPeers(Cleared(aps)) == AccessPeers(aps)
  {
    if aps == [] {
    } else {
      var init, last := aps[..|aps| - 1], aps[|aps| - 1];
      ClearedLooksTheSame(init);
      assert Cleared(aps)[..|Cleared(aps)| - 1] == Cleared(init);
      assert AccessPeer(last.(ip4 := false)) == AccessPeer(last);
    }
  }

  // Each node gets its own access points back, in their old order.
  lemma NodesGetTheirsBack(resources: seq<NetResource>, aps: seq<AccessPoint>, id: NodeId)
    requires Proper(resources, aps)
    ensures ByNode(Grouped(NodeKeys(resources), resources, aps), id) == Cleared(ByNode(aps, id))
  {
    var keys, mine := NodeKeys(resources), ByNode(aps, id);
    ByNodeOfGrouped(keys, resources, aps, id);
    if mine != [] {
      assert mine[0] in mine;
      AllForeign(keys, mine);
    }
  }

  lemma SamePeersAgain(node: NodeId, resources: seq<NetResource>, aps: seq<AccessPoint>, back: seq<AccessPoint>,
                       nr: NetResource)
    requires Proper(resources, aps) && back == Grouped(NodeKeys(resources), resources, aps)
    ensures PeersOf(node, resources, back, nr) == PeersOf(node, resources, aps, nr)
  {
    NodesGetTheirsBack(resources, aps, node);
    ClearedLooksTheSame(ByNode(aps, node));
    NodesGetTheirsBack(resources, aps, nr.node);
    ClearedLooksTheSame(ByNode(aps, nr.node));
  }

  // Generating again from what was read back changes nothing, so a second round trip is the
  // identity on resources, peers and access points alike.
  lemma SecondRoundTrip(node: NodeId, resources: seq<NetResource>, aps: seq<AccessPoint>)
    requires Proper(resources, aps)
    ensures var generated := Generated(node, resources, aps);
            Generated(node, generated, Extracted(generated)) == generated
  {
    var generated := Generated(node, resources, aps);
    var back := Extracted(generated);
    ExtractAfterGenerate(node, resources, aps);
    SameNodesSamePeers(node, resources, generated, back);
    forall i | 0 <= i < |resources|
      ensures PeersOf(node, generated, back, generated[i]) == generated[i].peers
    {
      SamePeersAgain(node, resources, aps, back, resources[i]);
    }
    assert forall i | 0 <= i < |resources| :: Generated(node, generated, back)[i] == generated[i];
  }
}
