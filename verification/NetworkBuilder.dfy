/**
 The network builder: what it generates as peers of each node, and what it reads back as access
 points from such peers.
 */
module NetworkBuilder {
  import opened Addresses
  import opened AllowedIPs
  import opened Worklist

  type NodeId = string
  type Key = string

  datatype Endpoint = IPv4 | IPv6

  datatype Peer = Peer(key: Key, range: IPRange, allowed: seq<IPRange>)

  datatype NetResource = NetResource(node: NodeId, range: IPRange, key: Key, endpoints: seq<Endpoint>,
                                     peers: seq<Peer>) {
    predicate Hidden() { endpoints == [] }

    predicate HasIPv4() { Endpoint.IPv4 in endpoints }
  }

  datatype AccessPoint = AccessPoint(node: NodeId, subnet: IPRange, key: Key, ip4: bool)

  // ---------- What is generated ----------

  // The access points of one node, in order.
  function ByNode(aps: seq<AccessPoint>, id: NodeId): (r: seq<AccessPoint>)
    ensures forall ap | ap in r :: ap in aps && ap.node == id
  {
    if aps == [] then []
    else
      var last := aps[|aps| - 1];
      ByNode(aps[..|aps| - 1], id) + if last.node == id then [last] else []
  }

  function Subnets(aps: seq<AccessPoint>): seq<IPRange> {
    if aps == [] then [] else Subnets(aps[..|aps| - 1]) + [aps[|aps| - 1].subnet]
  }

  // The builder's NodeID is used where the loop's node is meant, so the only subnet that is ever
  // mapped is that of the last resource, and only the access points of the builder's node are
  // behind it.
  function RouteGraph(node: NodeId, resources: seq<NetResource>, aps: seq<AccessPoint>): Graph<IPRange> {
    var own := ByNode(aps, node);
    if resources == [] || own == [] then map[] else map[resources[|resources| - 1].range := WithWg(Subnets(own))]
  }

  // Whether nr gets onr as a peer.
  predicate Peered(node: NodeId, nr: NetResource, onr: NetResource) {
    && onr.node != node
    && if nr.Hidden() then onr.HasIPv4() else nr.HasIPv4() || !onr.Hidden()
  }

  function NodePeer(graph: Graph<IPRange>, onr: NetResource): Peer {
    Peer(onr.key, onr.range, Extended(graph, WithWg([onr.range])))
  }

  function NodePeers(node: NodeId, graph: Graph<IPRange>, nr: NetResource, others: seq<NetResource>): seq<Peer> {
    if others == [] then []
    else
      var last := others[|others| - 1];
      NodePeers(node, graph, nr, others[..|others| - 1]) +
      if Peered(node, nr, last) then [NodePeer(graph, last)] else []
  }

  function AccessPeer(ap: AccessPoint): Peer { Peer(ap.key, ap.subnet, WithWg([ap.subnet])) }

  function AccessPeers(aps: seq<AccessPoint>): seq<Peer> {
    if aps == [] then [] else AccessPeers(aps[..|aps| - 1]) + [AccessPeer(aps[|aps| - 1])]
  }

  function PeersOf(node: NodeId, resources: seq<NetResource>, aps: seq<AccessPoint>, nr: NetResource): seq<Peer> {
    NodePeers(node, RouteGraph(node, resources, aps), nr, resources) + AccessPeers(ByNode(aps, nr.node))
  }

  function Generated(node: NodeId, resources: seq<NetResource>, aps: seq<AccessPoint>): (r: seq<NetResource>)
    ensures |r| == |resources|
    ensures forall i | 0 <= i < |r| :: r[i] == resources[i].(peers := PeersOf(node, resources, aps, resources[i]))
  {
    seq(|resources|, i requires 0 <= i < |resources| =>
      resources[i].(peers := PeersOf(node, resources, aps, resources[i])))
  }

  // There are hidden nodes, and no way in to them is found. That is also so when the builder has no
  // NodeID, whatever public nodes there are.
  predicate NoWayIn(node: NodeId, resources: seq<NetResource>) {
    && (exists nr | nr in resources :: nr.Hidden())
    && (node == "" || !exists nr | nr in resources :: nr.HasIPv4())
  }

  // Every scan of allowed addresses ends.
  ghost predicate Settles(node: NodeId, resources: seq<NetResource>, aps: seq<AccessPoint>) {
    forall nr, onr | nr in resources && onr in resources && Peered(node, nr, onr) ::
      Acyclic(RouteGraph(node, resources, aps), WithWg([onr.range]))
  }

  // Generation ends: with an error before anything is scanned, or because every scan does.
  ghost predicate Ends(node: NodeId, resources: seq<NetResource>, aps: seq<AccessPoint>) {
    NoWayIn(node, resources) || Settles(node, resources, aps)
  }

  // ---------- What is extracted ----------

  function NodeKeys(resources: seq<NetResource>): set<Key> {
    set nr | nr in resources :: nr.key
  }

  function NotNodes(keys: set<Key>, node: NodeId, peers: seq<Peer>): seq<AccessPoint> {
    if peers == [] then []
    else
      var last := peers[|peers| - 1];
      NotNodes(keys, node, peers[..|peers| - 1]) +
      if last.key in keys then [] else [AccessPoint(node, last.range, last.key, false)]
  }

  function AllNotNodes(keys: set<Key>, resources: seq<NetResource>): seq<AccessPoint> {
    if resources == [] then []
    else
      var last := resources[|resources| - 1];
      AllNotNodes(keys, resources[..|resources| - 1]) + NotNodes(keys, last.node, last.peers)
  }

  function Extracted(resources: seq<NetResource>): seq<AccessPoint> {
    AllNotNodes(NodeKeys(resources), resources)
  }

  class Builder {
    var node: NodeId
    var resources: seq<NetResource>
    var accessPoints: seq<AccessPoint>

    constructor (node: NodeId, resources: seq<NetResource>, accessPoints: seq<AccessPoint>)
      ensures this.node == node && this.resources == resources && this.accessPoints == accessPoints
    {
      this.node, this.resources, this.accessPoints := node, resources, accessPoints;
    }

    // The ranges by node, except that every range is stored under the builder's NodeID.
    method InternalSubnets() returns (internal: map<NodeId, IPRange>)
      ensures internal == Internal(node, resources)
    {
      internal := map[];
      for i := 0 to |resources|
        invariant internal == Internal(node, resources[..i])
      {
        internal := internal[node := resources[i].range];
      }
      assert resources[..|resources|] == resources;
    }

    // Which subnets are behind which range.
    method ExternalSubnets() returns (external: AllowedIPs.External)
      ensures GraphOf(external) == RouteGraph(node, resources, accessPoints)
    {
      var internal := InternalSubnets();
      external := map[];
      for i := 0 to |accessPoints|
        invariant external == SubnetsBehind(internal, accessPoints[..i])
      {
        var ap := accessPoints[i];
        assert accessPoints[..i + 1][..i] == accessPoints[..i];
        external := AddSubnet(external, Lookup(internal, ap.node), ap.subnet);
      }
      assert accessPoints[..|accessPoints|] == accessPoints;
      SubnetsBehindIsGraph(node, resources, accessPoints);
    }

    method AccessPointsByNode() returns (byNode: map<NodeId, seq<AccessPoint>>)
      ensures GroupedByNode(byNode, accessPoints)
    {
      byNode := map[];
      for i := 0 to |accessPoints|
        invariant GroupedByNode(byNode, accessPoints[..i])
      {
        var ap := accessPoints[i];
        assert accessPoints[..i + 1] == accessPoints[..i] + [ap];
        GroupOneMore(byNode, accessPoints[..i], ap);
        byNode := byNode[ap.node := PointsOf(byNode, ap.node) + [ap]];
      }
      assert accessPoints[..|accessPoints|] == accessPoints;
    }

    // Subnets of hidden nodes and of nodes with IPv6 only. Again the builder's NodeID is the key.
    method HiddenSubnets() returns (hidden: map<NodeId, IPRange>, ipv6Only: map<NodeId, IPRange>)
      ensures (forall nr | nr in resources :: !nr.Hidden()) ==> hidden == map[]
    {
      hidden, ipv6Only := map[], map[];
      for i := 0 to |resources|
        invariant (forall nr | nr in resources :: !nr.Hidden()) ==> hidden == map[]
      {
        var nr := resources[i];
        if nr.Hidden() {
          hidden := hidden[node := nr.range];
        } else if !nr.HasIPv4() {
          ipv6Only := ipv6Only[node := nr.range];
        }
      }
    }

    // The peer that nr gets for onr, if any. A public node that was to carry the hidden subnets is
    // the builder's own node, which is never a peer, so those subnets are never added.
    method PeerFor(nr: NetResource, onr: NetResource, pubNr: NodeId, external: AllowedIPs.External,
                   hidden: map<NodeId, IPRange>, ipv6Only: map<NodeId, IPRange>) returns (peer: Option<Peer>)
      requires Peered(node, nr, onr) ==> Acyclic(GraphOf(external), WithWg([onr.range]))
      requires pubNr == node || (hidden == map[] && !nr.Hidden())
      ensures peer == if Peered(node, nr, onr) then Some(NodePeer(GraphOf(external), onr)) else None
    {
      if node == onr.node {
        return None;
      }
      var allowed := [onr.range, WgIP(onr.range)];
      StartsWithWg(onr.range);
      if nr.Hidden() {
        if !onr.HasIPv4() {
          return None;
        }
        if onr.node == pubNr {
          allowed := AddSubnets(allowed, hidden, Some(nr.node));
          allowed := AddSubnets(allowed, ipv6Only, None);
        }
      } else if !(onr.Hidden() && nr.HasIPv4()) {
        if !nr.HasIPv4() && onr.Hidden() {
          return None;
        }
        if onr.node == pubNr {
          allowed := AddSubnets(allowed, hidden, None);
        }
      }
      allowed := Extend(external, allowed);
      return Some(Peer(onr.key, onr.range, allowed));
    }

    // The first peers of nr: other nodes.
    method NodePeersOf(nr: NetResource, pubNr: NodeId, external: AllowedIPs.External,
                       hidden: map<NodeId, IPRange>, ipv6Only: map<NodeId, IPRange>) returns (peers: seq<Peer>)
      requires nr in resources && Settles(node, resources, accessPoints)
      requires GraphOf(external) == RouteGraph(node, resources, accessPoints)
      requires pubNr == node || (hidden == map[] && !nr.Hidden())
      ensures peers == NodePeers(node, RouteGraph(node, resources, accessPoints), nr, resources)
    {
      ghost var graph := GraphOf(external);
      peers := [];
      for i := 0 to |resources|
        invariant peers == NodePeers(node, graph, nr, resources[..i])
      {
        assert resources[..i + 1][..i] == resources[..i];
        var peer := PeerFor(nr, resources[i], pubNr, external, hidden, ipv6Only);
        if peer.Some? {
          peers := peers + [peer.value];
        }
      }
      assert resources[..|resources|] == resources;
    }

    // All peers of nr.
    method AllPeersOf(nr: NetResource, pubNr: NodeId, external: AllowedIPs.External,
                      byNode: map<NodeId, seq<AccessPoint>>,
                      hidden: map<NodeId, IPRange>, ipv6Only: map<NodeId, IPRange>) returns (peers: seq<Peer>)
      requires nr in resources && Settles(node, resources, accessPoints)
      requires GraphOf(external) == RouteGraph(node, resources, accessPoints) && GroupedByNode(byNode, accessPoints)
      requires pubNr == node || (hidden == map[] && !nr.Hidden())
      ensures peers == PeersOf(node, resources, accessPoints, nr)
    {
      peers := NodePeersOf(nr, pubNr, external, hidden, ipv6Only);
      peers := peers + AccessPeers(PointsOf(byNode, nr.node));
    }

    // generatePeers.
    method GeneratePeers() returns (ok: bool)
      requires Ends(node, resources, accessPoints)
      modifies this`resources
      ensures ok <==> !NoWayIn(node, old(resources))
      ensures ok <==> (forall nr | nr in old(resources) :: nr.endpoints != []) ||
                      (node != "" && exists nr :: nr in old(resources) && IPv4 in nr.endpoints)
      ensures resources == if ok then Generated(node, old(resources), accessPoints) else old(resources)
    {
      var hasHidden := exists nr | nr in resources :: nr.Hidden();
      var pubNr := "";
      if hasHidden {
        if exists nr | nr in resources :: nr.HasIPv4() {
          pubNr := node;
        }
        if pubNr == "" {
          return false;
        }
      }
      var external := ExternalSubnets();
      var byNode := AccessPointsByNode();
      var hidden, ipv6Only := HiddenSubnets();
      SetPeers(pubNr, external, byNode, hidden, ipv6Only);
      return true;
    }

    // Its main loop, which rewrites the resources one by one.
    method SetPeers(pubNr: NodeId, external: AllowedIPs.External, byNode: map<NodeId, seq<AccessPoint>>,
                    hidden: map<NodeId, IPRange>, ipv6Only: map<NodeId, IPRange>)
      requires Settles(node, resources, accessPoints)
      requires GraphOf(external) == RouteGraph(node, resources, accessPoints) && GroupedByNode(byNode, accessPoints)
      requires pubNr == node || (hidden == map[] && forall nr | nr in resources :: !nr.Hidden())
      modifies this`resources
      ensures resources == Generated(node, old(resources), accessPoints)
    {
      ghost var before := resources;
      for i := 0 to |resources|
        invariant resources == Halfway(node, before, accessPoints, i)
      {
        HalfwayAgain(node, before, accessPoints, i);
        var peers := AllPeersOf(resources[i], pubNr, external, byNode, hidden, ipv6Only);
        resources := resources[i := resources[i].(peers := peers)];
      }
    }

    // extractAccessPoints.
    method ExtractAccessPoints()
      modifies this`accessPoints
      ensures accessPoints == Extracted(resources)
    {
      var actual := NodeKeys(resources);
      var aps: seq<AccessPoint> := [];
      for i := 0 to |resources|
        invariant aps == AllNotNodes(actual, resources[..i])
      {
        var nr := resources[i];
        assert resources[..i + 1][..i] == resources[..i];
        ghost var before := aps;
        for j := 0 to |nr.peers|
          invariant aps == before + NotNodes(actual, nr.node, nr.peers[..j])
        {
          assert nr.peers[..j + 1][..j] == nr.peers[..j];
          if nr.peers[j].key !in actual {
            aps := aps + [AccessPoint(nr.node, nr.peers[j].range, nr.peers[j].key, false)];
          }
        }
        assert nr.peers[..|nr.peers|] == nr.peers;
      }
      assert resources[..|resources|] == resources;
      accessPoints := aps;
    }
  }

  function PointsOf(byNode: map<NodeId, seq<AccessPoint>>, id: NodeId): seq<AccessPoint> {
    if id in byNode then byNode[id] else []
  }

  ghost predicate GroupedByNode(byNode: map<NodeId, seq<AccessPoint>>, aps: seq<AccessPoint>) {
    forall id: NodeId :: PointsOf(byNode, id) == ByNode(aps, id)
  }

  lemma ByNodeOneMore(aps: seq<AccessPoint>, ap: AccessPoint, id: NodeId)
    ensures ByNode(aps + [ap], id) == ByNode(aps, id) + if ap.node == id then [ap] else []
  {
    assert (aps + [ap])[..|aps|] == aps;
  }

  lemma GroupOneMore(byNode: map<NodeId, seq<AccessPoint>>, aps: seq<AccessPoint>, ap: AccessPoint)
    requires GroupedByNode(byNode, aps)
    ensures GroupedByNode(byNode[ap.node := PointsOf(byNode, ap.node) + [ap]], aps + [ap])
  {
    forall id: NodeId
      ensures PointsOf(byNode[ap.node := PointsOf(byNode, ap.node) + [ap]], id) == ByNode(aps + [ap], id)
    {
      ByNodeOneMore(aps, ap, id);
    }
  }

  // The resources when the first n have their new peers.
  function Halfway(node: NodeId, resources: seq<NetResource>, aps: seq<AccessPoint>, n: nat): seq<NetResource>
    requires n <= |resources|
  {
    Generated(node, resources, aps)[..n] + resources[n..]
  }

  lemma HalfwayStep(node: NodeId, resources: seq<NetResource>, aps: seq<AccessPoint>, n: nat)
    requires n < |resources|
    ensures var half := Halfway(node, resources, aps, n);
            && half[n] == resources[n] && SameNodes(resources, half)
            && Halfway(node, resources, aps, n + 1)
               == half[n := half[n].(peers := PeersOf(node, resources, aps, half[n]))]
  {
    var half, next := Halfway(node, resources, aps, n), Halfway(node, resources, aps, n + 1);
    var update := half[n := half[n].(peers := PeersOf(node, resources, aps, half[n]))];
    forall i | 0 <= i < |resources|
      ensures next[i] == update[i]
    {
    }
  }

  // Peers are computed from the half-finished resources, which makes no difference.
  lemma HalfwayAgain(node: NodeId, resources: seq<NetResource>, aps: seq<AccessPoint>, n: nat)
    requires n < |resources|
    ensures var half := Halfway(node, resources, aps, n);
            && half[n] in half && half[n] in resources
            && RouteGraph(node, half, aps) == RouteGraph(node, resources, aps)
            && (Settles(node, resources, aps) ==> Settles(node, half, aps))
            && Halfway(node, resources, aps, n + 1)
               == half[n := half[n].(peers := PeersOf(node, half, aps, half[n]))]
  {
    var half := Halfway(node, resources, aps, n);
    HalfwayStep(node, resources, aps, n);
    assert half[n] in half && resources[n] in resources;
    SameNodesSamePeers(node, resources, half, aps);
    assert PeersOf(node, resources, aps, resources[n]) == PeersOf(node, half, aps, half[n]);
  }

  lemma StartsWithWg(range: IPRange)
    ensures WithWg([range]) == [range, WgIP(range)]
  {
    assert [range][..0] == [];
  }

  // The subnets of a map in any order, each with its WireGuard address.
  method AddSubnets(allowed: seq<IPRange>, subnets: map<NodeId, IPRange>, skip: Option<NodeId>)
    returns (more: seq<IPRange>)
    ensures subnets == map[] ==> more == allowed
  {
    more := allowed;
    var todo := subnets.Keys;
    while todo != {}
      invariant todo <= subnets.Keys
      invariant subnets == map[] ==> more == allowed
    {
      var owner :| owner in todo;
      todo := todo - {owner};
      if skip != Some(owner) {
        more := more + [subnets[owner], WgIP(subnets[owner])];
      }
    }
  }

  function Internal(node: NodeId, resources: seq<NetResource>): map<NodeId, IPRange> {
    if resources == [] then map[] else map[node := resources[|resources| - 1].range]
  }

  function Lookup(internal: map<NodeId, IPRange>, id: NodeId): Option<IPRange> {
    if id in internal then Some(internal[id]) else None
  }

  function AddSubnet(external: AllowedIPs.External, key: Option<IPRange>, subnet: IPRange): AllowedIPs.External {
    external[key := (if key in external then external[key] else []) + [subnet]]
  }

  function SubnetsBehind(internal: map<NodeId, IPRange>, aps: seq<AccessPoint>): AllowedIPs.External {
    if aps == [] then map[]
    else
      var last := aps[|aps| - 1];
      AddSubnet(SubnetsBehind(internal, aps[..|aps| - 1]), Lookup(internal, last.node), last.subnet)
  }

  lemma {:induction false} SubnetsBehindOwn(internal: map<NodeId, IPRange>, node: NodeId, range: IPRange,
                                            aps: seq<AccessPoint>, r: IPRange)
    requires internal == map[node := range]
    ensures Some(r) in SubnetsBehind(internal, aps) <==> r == range && ByNode(aps, node) != []
    ensures r == range ==> Behind(SubnetsBehind(internal, aps), r) == Subnets(ByNode(aps, node))
  {
    if aps == [] {
    } else {
      var init, last := aps[..|aps| - 1], aps[|aps| - 1];
      SubnetsBehindOwn(internal, node, range, init, r);
      ByNodeOneMore(init, last, node);
      assert init + [last] == aps;
      if last.node == node {
        SubnetsOneMore(ByNode(init, node), last);
        assert Behind(SubnetsBehind(internal, aps), range)
            == Behind(SubnetsBehind(internal, init), range) + [last.subnet];
      } else {
        assert ByNode(init, node) + [] == ByNode(init, node);
      }
    }
  }

  lemma SubnetsOneMore(aps: seq<AccessPoint>, ap: AccessPoint)
    ensures Subnets(aps + [ap]) == Subnets(aps) + [ap.subnet]
  {
    assert (aps + [ap])[..|aps|] == aps;
  }

  lemma {:induction false} SubnetsBehindNothing(aps: seq<AccessPoint>, r: IPRange)
    ensures Some(r) !in SubnetsBehind(map[], aps)
  {
    if aps == [] {
    } else {
      SubnetsBehindNothing(aps[..|aps| - 1], r);
    }
  }

  lemma SubnetsBehindIsGraph(node: NodeId, resources: seq<NetResource>, aps: seq<AccessPoint>)
    ensures GraphOf(SubnetsBehind(Internal(node, resources), aps)) == RouteGraph(node, resources, aps)
  {
    var internal := Internal(node, resources);
    var external := SubnetsBehind(internal, aps);
    forall r: IPRange
      ensures r in GraphOf(external) <==> Some(r) in external
      ensures r in GraphOf(external) <==> r in RouteGraph(node, resources, aps)
      ensures r in GraphOf(external) ==> GraphOf(external)[r] == RouteGraph(node, resources, aps)[r]
    {
      if resources == [] {
        SubnetsBehindNothing(aps, r);
      } else {
        SubnetsBehindOwn(internal, node, resources[|resources| - 1].range, aps, r);
      }
    }
  }

  // Resources that differ in their peers at most.
  predicate SameNodes(a: seq<NetResource>, b: seq<NetResource>) {
    |a| == |b| && forall i | 0 <= i < |a| :: b[i] == a[i].(peers := b[i].peers)
  }

  lemma {:induction false} SameNodePeers(node: NodeId, graph: Graph<IPRange>, nr: NetResource, nr': NetResource,
                                         a: seq<NetResource>, b: seq<NetResource>)
    requires SameNodes(a, b) && nr' == nr.(peers := nr'.peers)
    ensures NodePeers(node, graph, nr, a) == NodePeers(node, graph, nr', b)
  {
    if a == [] {
    } else {
      SameNodePeers(node, graph, nr, nr', a[..|a| - 1], b[..|b| - 1]);
    }
  }

  // Peers do not depend on peers that are already there.
  lemma SameNodesSamePeers(node: NodeId, a: seq<NetResource>, b: seq<NetResource>, aps: seq<AccessPoint>)
    requires SameNodes(a, b)
    ensures RouteGraph(node, a, aps) == RouteGraph(node, b, aps)
    ensures forall i | 0 <= i < |a| :: PeersOf(node, a, aps, a[i]) == PeersOf(node, b, aps, b[i])
    ensures Settles(node, a, aps) ==> Settles(node, b, aps)
  {
    var graph := RouteGraph(node, a, aps);
    forall i | 0 <= i < |a|
      ensures PeersOf(node, a, aps, a[i]) == PeersOf(node, b, aps, b[i])
    {
      SameNodePeers(node, graph, a[i], b[i], a, b);
    }
    if Settles(node, a, aps) {
      SameNodesSettle(node, graph, a, b, aps);
    }
  }

  lemma SameNodesSettle(node: NodeId, graph: Graph<IPRange>, a: seq<NetResource>, b: seq<NetResource>,
                        aps: seq<AccessPoint>)
    requires SameNodes(a, b) && Settles(node, a, aps)
    requires graph == RouteGraph(node, a, aps) == RouteGraph(node, b, aps)
    ensures Settles(node, b, aps)
  {
    forall nr, onr | nr in b && onr in b && Peered(node, nr, onr)
      ensures Acyclic(graph, WithWg([onr.range]))
    {
      var i :| 0 <= i < |b| && b[i] == nr;
      var j :| 0 <= j < |b| && b[j] == onr;
      assert a[i] in a && a[j] in a && Peered(node, a[i], a[j]);
    }
  }
}
