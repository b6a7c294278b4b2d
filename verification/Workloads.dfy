/** The workloads of a reservation, listed for everybody or for one node. */
module Workloads {
  import opened Collections

  type NodeId = string

  datatype Kind =
    | Container | Volume | ZDB | Kubernetes | Proxy | ReverseProxy | SubDomain | DomainDelegate | Gateway4To6 | Network

  datatype Item = Item(workload: int, node: NodeId)

  // A network has a resource on each of its nodes, all under one workload id.
  datatype NetworkItem = NetworkItem(workload: int, nodes: seq<NodeId>)

  datatype Data = Data(
    containers: seq<Item>, volumes: seq<Item>, zdbs: seq<Item>, kubernetes: seq<Item>, proxies: seq<Item>,
    reverseProxies: seq<Item>, subdomains: seq<Item>, domainDelegates: seq<Item>, gateways: seq<Item>,
    networks: seq<NetworkItem>)

  // The id "<reservation>-<workload>"; both parts are digits, so the pair is as good as the string.
  datatype Gwid = Gwid(reservation: int, workload: int)

  datatype Workload = Workload(id: Gwid, kind: Kind, node: NodeId)

  // ---------- The full list ----------

  function Tag(rid: int, kind: Kind, items: seq<Item>): (ws: seq<Workload>)
    ensures |ws| == |items|
    ensures forall i | 0 <= i < |items| :: ws[i] == Workload(Gwid(rid, items[i].workload), kind, items[i].node)
  {
    seq(|items|, i requires 0 <= i < |items| => Workload(Gwid(rid, items[i].workload), kind, items[i].node))
  }

  function NetworkItems(network: NetworkItem): (items: seq<Item>)
    ensures |items| == |network.nodes|
    ensures forall i | 0 <= i < |items| :: items[i] == Item(network.workload, network.nodes[i])
  {
    seq(|network.nodes|, i requires 0 <= i < |network.nodes| => Item(network.workload, network.nodes[i]))
  }

  function Resources(networks: seq<NetworkItem>): seq<Item> {
    if networks == [] then [] else Resources(networks[..|networks| - 1]) + NetworkItems(networks[|networks| - 1])
  }

  function AllWorkloads(rid: int, data: Data): seq<Workload> {
    Tag(rid, Container, data.containers) + Tag(rid, Volume, data.volumes) + Tag(rid, ZDB, data.zdbs) +
    Tag(rid, Kubernetes, data.kubernetes) + Tag(rid, Proxy, data.proxies) +
    Tag(rid, ReverseProxy, data.reverseProxies) +
    Tag(rid, SubDomain, data.subdomains) + Tag(rid, DomainDelegate, data.domainDelegates) +
    Tag(rid, Gateway4To6, data.gateways) + Tag(rid, Network, Resources(data.networks))
  }

  // The order-preserving filter by node.
  function OnNode(ws: seq<Workload>, node: NodeId): seq<Workload> {
    if ws == [] then []
    else OnNode(ws[..|ws| - 1], node) + if ws[|ws| - 1].node == node then [ws[|ws| - 1]] else []
  }

  // An empty node id selects everything.
  function Select(ws: seq<Workload>, node: NodeId): seq<Workload> {
    if node == "" then ws else OnNode(ws, node)
  }

  lemma {:induction false} SelectConcat(u: seq<Workload>, v: seq<Workload>, node: NodeId)
    ensures Select(u + v, node) == Select(u, node) + Select(v, node)
  {
    if v == [] {
      assert u + v == u;
    } else if node != "" {
      SelectConcat(u, v[..|v| - 1], node);
      assert (u + v)[..|u + v| - 1] == u + v[..|v| - 1];
    }
  }

  lemma {:induction false} OnNodeMembers(ws: seq<Workload>, node: NodeId)
    ensures forall w :: w in OnNode(ws, node) <==> w in ws && w.node == node
  {
    if ws == [] {
    } else {
      OnNodeMembers(ws[..|ws| - 1], node);
      assert ws == ws[..|ws| - 1] + [ws[|ws| - 1]];
    }
  }

  // ---------- The source's loops ----------

  lemma SelectNext(rid: int, kind: Kind, items: seq<Item>, i: nat, node: NodeId)
    requires i < |items|
    ensures Select(Tag(rid, kind, items[..i + 1]), node)
         == Select(Tag(rid, kind, items[..i]), node) +
            if node != "" && items[i].node != node then []
            else [Workload(Gwid(rid, items[i].workload), kind, items[i].node)]
  {
    var w := Workload(Gwid(rid, items[i].workload), kind, items[i].node);
    assert Tag(rid, kind, items[..i + 1]) == Tag(rid, kind, items[..i]) + [w];
    SelectConcat(Tag(rid, kind, items[..i]), [w], node);
    assert OnNode([w], node) == if w.node == node then [w] else [] by {
      assert [w][..0] == [];
    }
  }

  method AppendItems(ws0: seq<Workload>, rid: int, kind: Kind, items: seq<Item>, nodeID: NodeId)
    returns (ws: seq<Workload>)
    ensures ws == ws0 + Select(Tag(rid, kind, items), nodeID)
  {
    ws := ws0;
    for i := 0 to |items|
      invariant ws == ws0 + Select(Tag(rid, kind, items[..i]), nodeID)
    {
      var wl := items[i];
      SelectNext(rid, kind, items, i, nodeID);
      Assoc(ws0, Select(Tag(rid, kind, items[..i]), nodeID), [Workload(Gwid(rid, wl.workload), kind, wl.node)]);
      if |nodeID| > 0 && wl.node != nodeID {
        continue;
      }
      ws := ws + [Workload(Gwid(rid, wl.workload), kind, wl.node)];
    }
    assert items[..|items|] == items;
  }

  lemma SelectNextNetwork(ws0: seq<Workload>, rid: int, networks: seq<NetworkItem>, i: nat, node: NodeId)
    requires i < |networks|
    ensures ws0 + NetworkWorkloads(rid, networks, i, node) + Select(Tag(rid, Network, NetworkItems(networks[i])), node)
         == ws0 + NetworkWorkloads(rid, networks, i + 1, node)
  {
    assert networks[..i + 1][..i] == networks[..i];
    var before, items := Resources(networks[..i]), NetworkItems(networks[i]);
    assert Tag(rid, Network, before + items) == Tag(rid, Network, before) + Tag(rid, Network, items);
    SelectConcat(Tag(rid, Network, before), Tag(rid, Network, items), node);
    Assoc(ws0, NetworkWorkloads(rid, networks, i, node), Select(Tag(rid, Network, items), node));
  }

  // The selected workloads of the first n networks.
  function NetworkWorkloads(rid: int, networks: seq<NetworkItem>, n: nat, node: NodeId): seq<Workload>
    requires n <= |networks|
  {
    Select(Tag(rid, Network, Resources(networks[..n])), node)
  }

  method AppendNetworks(ws0: seq<Workload>, rid: int, networks: seq<NetworkItem>, nodeID: NodeId)
    returns (ws: seq<Workload>)
    ensures ws == ws0 + Select(Tag(rid, Network, Resources(networks)), nodeID)
  {
    ws := ws0;
    for i := 0 to |networks|
      invariant ws == ws0 + NetworkWorkloads(rid, networks, i, nodeID)
    {
      SelectNextNetwork(ws0, rid, networks, i, nodeID);
      ws := AppendItems(ws, rid, Network, NetworkItems(networks[i]), nodeID);
    }
    assert networks[..|networks|] == networks;
  }

  // Reservation.Workloads: for a node id, the order-preserving filter of the full list.
  method ListWorkloads(rid: int, data: Data, nodeID: NodeId) returns (ws: seq<Workload>)
    ensures ws == Select(AllWorkloads(rid, data), nodeID)
  {
    ws := AppendItems([], rid, Container, data.containers, nodeID);
    ws := AppendItems(ws, rid, Volume, data.volumes, nodeID);
    ws := AppendItems(ws, rid, ZDB, data.zdbs, nodeID);
    ws := AppendItems(ws, rid, Kubernetes, data.kubernetes, nodeID);
    ws := AppendItems(ws, rid, Proxy, data.proxies, nodeID);
    ws := AppendItems(ws, rid, ReverseProxy, data.reverseProxies, nodeID);
    ws := AppendItems(ws, rid, SubDomain, data.subdomains, nodeID);
    ws := AppendItems(ws, rid, DomainDelegate, data.domainDelegates, nodeID);
    ws := AppendItems(ws, rid, Gateway4To6, data.gateways, nodeID);
    ws := AppendNetworks(ws, rid, data.networks, nodeID);
    SelectTen(Tag(rid, Container, data.containers), Tag(rid, Volume, data.volumes), Tag(rid, ZDB, data.zdbs),
              Tag(rid, Kubernetes, data.kubernetes), Tag(rid, Proxy, data.proxies),
              Tag(rid, ReverseProxy, data.reverseProxies),
              Tag(rid, SubDomain, data.subdomains), Tag(rid, DomainDelegate, data.domainDelegates),
              Tag(rid, Gateway4To6, data.gateways), Tag(rid, Network, Resources(data.networks)), nodeID);
  }

  lemma SelectTen(a: seq<Workload>, b: seq<Workload>, c: seq<Workload>, d: seq<Workload>, e: seq<Workload>,
                  f: seq<Workload>, g: seq<Workload>, h: seq<Workload>, i: seq<Workload>, j: seq<Workload>, n: NodeId)
    ensures Select(a + b + c + d + e + f + g + h + i + j, n)
         == [] + Select(a, n) + Select(b, n) + Select(c, n) + Select(d, n) + Select(e, n)
          + Select(f, n) + Select(g, n) + Select(h, n) + Select(i, n) + Select(j, n)
  {
    SelectConcat(a, b, n);
    SelectConcat(a + b, c, n);
    SelectConcat(a + b + c, d, n);
    SelectConcat(a + b + c + d, e, n);
    SelectConcat(a + b + c + d + e, f, n);
    SelectConcat(a + b + c + d + e + f, g, n);
    SelectConcat(a + b + c + d + e + f + g, h, n);
    SelectConcat(a + b + c + d + e + f + g + h, i, n);
    SelectConcat(a + b + c + d + e + f + g + h + i, j, n);
    assert [] + Select(a, n) == Select(a, n);
  }

  // ---------- Node and gateway ids ----------

  function ItemNodes(items: seq<Item>): set<NodeId> {
    set item | item in items :: item.node
  }

  method AddNodes(ids0: set<NodeId>, items: seq<Item>) returns (ids: set<NodeId>)
    ensures ids == ids0 + ItemNodes(items)
  {
    ids := ids0;
    for i := 0 to |items|
      invariant ids == ids0 + ItemNodes(items[..i])
    {
      assert items[..i + 1] == items[..i] + [items[i]];
      ids := ids + {items[i].node};
    }
    assert items[..|items|] == items;
  }

  predicate IsGateway(kind: Kind) {
    kind.Proxy? || kind.ReverseProxy? || kind.SubDomain? || kind.DomainDelegate? || kind.Gateway4To6?
  }

  function WorkloadNodes(ws: seq<Workload>): set<NodeId> {
    set w | w in ws :: w.node
  }

  // The nodes (or the gateways) among those that have a workload.
  function GroupNodes(ws: seq<Workload>, gateways: bool): set<NodeId> {
    set w | w in ws && IsGateway(w.kind) == gateways :: w.node
  }

  function KindNodes(ws: seq<Workload>, kind: Kind): set<NodeId> {
    set w | w in ws && w.kind == kind :: w.node
  }

  // Which items of which kind make up the full list.
  function ItemsOf(data: Data, kind: Kind): seq<Item> {
    match kind
    case Container => data.containers
    case Volume => data.volumes
    case ZDB => data.zdbs
    case Kubernetes => data.kubernetes
    case Proxy => data.proxies
    case ReverseProxy => data.reverseProxies
    case SubDomain => data.subdomains
    case DomainDelegate => data.domainDelegates
    case Gateway4To6 => data.gateways
    case Network => Resources(data.networks)
  }

  lemma TagMembers(rid: int, kind: Kind, items: seq<Item>, w: Workload)
    ensures w in Tag(rid, kind, items)
       <==> w.kind == kind && w.id.reservation == rid && Item(w.id.workload, w.node) in items
  {
    if w.kind == kind && w.id.reservation == rid && Item(w.id.workload, w.node) in items {
      var i :| 0 <= i < |items| && items[i] == Item(w.id.workload, w.node);
      assert Tag(rid, kind, items)[i] == w;
    }
  }

  lemma AllMembers(rid: int, data: Data, w: Workload)
    ensures w in AllWorkloads(rid, data)
       <==> w.id.reservation == rid && Item(w.id.workload, w.node) in ItemsOf(data, w.kind)
  {
    TagMembers(rid, Container, data.containers, w);
    TagMembers(rid, Volume, data.volumes, w);
    TagMembers(rid, ZDB, data.zdbs, w);
    TagMembers(rid, Kubernetes, data.kubernetes, w);
    TagMembers(rid, Proxy, data.proxies, w);
    TagMembers(rid, ReverseProxy, data.reverseProxies, w);
    TagMembers(rid, SubDomain, data.subdomains, w);
    TagMembers(rid, DomainDelegate, data.domainDelegates, w);
    TagMembers(rid, Gateway4To6, data.gateways, w);
    TagMembers(rid, Network, Resources(data.networks), w);
  }

  // The workloads of each kind are those of the list of that name.
  lemma KindsAreLists(rid: int, data: Data, w: Workload)
    requires w in AllWorkloads(rid, data)
    ensures w.kind == Container <==> IsFrom(rid, Container, data.containers, w)
    ensures w.kind == Volume <==> IsFrom(rid, Volume, data.volumes, w)
    ensures w.kind == ZDB <==> IsFrom(rid, ZDB, data.zdbs, w)
    ensures w.kind == Kubernetes <==> IsFrom(rid, Kubernetes, data.kubernetes, w)
    ensures w.kind == Proxy <==> IsFrom(rid, Proxy, data.proxies, w)
    ensures w.kind == ReverseProxy <==> IsFrom(rid, ReverseProxy, data.reverseProxies, w)
    ensures w.kind == SubDomain <==> IsFrom(rid, SubDomain, data.subdomains, w)
    ensures w.kind == DomainDelegate <==> IsFrom(rid, DomainDelegate, data.domainDelegates, w)
    ensures w.kind == Gateway4To6 <==> IsFrom(rid, Gateway4To6, data.gateways, w)
    ensures w.kind == Network <==> IsFromNetwork(rid, data.networks, w)
  {
    AllMembers(rid, data, w);
    ResourceMembers(data.networks, Item(w.id.workload, w.node));
  }

  // And each of them is there.
  lemma ListsAreListed(rid: int, data: Data, w: Workload)
    ensures IsFrom(rid, Container, data.containers, w) || IsFrom(rid, Volume, data.volumes, w) ||
            IsFrom(rid, ZDB, data.zdbs, w) || IsFrom(rid, Kubernetes, data.kubernetes, w) ||
            IsFrom(rid, Proxy, data.proxies, w) || IsFrom(rid, ReverseProxy, data.reverseProxies, w) ||
            IsFrom(rid, SubDomain, data.subdomains, w) || IsFrom(rid, DomainDelegate, data.domainDelegates, w) ||
            IsFrom(rid, Gateway4To6, data.gateways, w) || IsFromNetwork(rid, data.networks, w) ==>
              w in AllWorkloads(rid, data)
  {
    AllMembers(rid, data, w);
    ResourceMembers(data.networks, Item(w.id.workload, w.node));
  }

  predicate IsFrom(rid: int, kind: Kind, items: seq<Item>, w: Workload) {
    w.kind == kind && exists i :: 0 <= i < |items| && w == Workload(Gwid(rid, items[i].workload), kind, items[i].node)
  }

  predicate IsFromNetwork(rid: int, networks: seq<NetworkItem>, w: Workload) {
    && w.kind == Network
    && exists i :: 0 <= i < |networks| && w.id == Gwid(rid, networks[i].workload) && w.node in networks[i].nodes
  }

  lemma {:induction false} ResourceMembers(networks: seq<NetworkItem>, item: Item)
    ensures item in Resources(networks) <==>
              exists i :: 0 <= i < |networks| && item.workload == networks[i].workload && item.node in networks[i].nodes
  {
    if networks == [] {
    } else {
      var init, last := networks[..|networks| - 1], networks[|networks| - 1];
      ResourceMembers(init, item);
      assert networks == init + [last];
      if item.workload == last.workload && item.node in last.nodes {
        var k :| 0 <= k < |last.nodes| && last.nodes[k] == item.node;
        assert NetworkItems(last)[k] == item;
        assert networks[|networks| - 1] == last;
      }
      if i :| 0 <= i < |init| && item.workload == init[i].workload && item.node in init[i].nodes {
        assert networks[i] == init[i];
      }
      if i :| 0 <= i < |networks| && item.workload == networks[i].workload && item.node in networks[i].nodes {
        assert i < |init| ==> init[i] == networks[i];
      }
    }
  }

  lemma KindNodesAreItemNodes(rid: int, data: Data, kind: Kind)
    ensures KindNodes(AllWorkloads(rid, data), kind) == ItemNodes(ItemsOf(data, kind))
  {
    var ws, items := AllWorkloads(rid, data), ItemsOf(data, kind);
    forall n | n in KindNodes(ws, kind)
      ensures n in ItemNodes(items)
    {
      var w :| w in ws && w.kind == kind && w.node == n;
      AllMembers(rid, data, w);
    }
    forall n | n in ItemNodes(items)
      ensures n in KindNodes(ws, kind)
    {
      var item :| item in items && item.node == n;
      var w := Workload(Gwid(rid, item.workload), kind, item.node);
      assert Item(w.id.workload, w.node) == item;
      AllMembers(rid, data, w);
    }
  }

  lemma NodesByKind(ws: seq<Workload>)
    ensures GroupNodes(ws, false) == KindNodes(ws, Container) + KindNodes(ws, Network) + KindNodes(ws, ZDB)
                                   + KindNodes(ws, Volume) + KindNodes(ws, Kubernetes)
  {
  }

  lemma GatewaysByKind(ws: seq<Workload>)
    ensures GroupNodes(ws, true) == KindNodes(ws, Proxy) + KindNodes(ws, ReverseProxy) + KindNodes(ws, SubDomain)
                                  + KindNodes(ws, DomainDelegate) + KindNodes(ws, Gateway4To6)
  {
  }

  // Every node of a workload is in one of the two groups.
  lemma NodesOrGateways(ws: seq<Workload>)
    ensures GroupNodes(ws, false) + GroupNodes(ws, true) == WorkloadNodes(ws)
  {
  }

  method NodeIDs(rid: int, data: Data) returns (ids: set<NodeId>)
    ensures ids == GroupNodes(AllWorkloads(rid, data), false)
  {
    ids := AddNodes({}, data.containers);
    ids := AddNetworkNodes(ids, data.networks);
    ids := AddNodes(ids, data.zdbs);
    ids := AddNodes(ids, data.volumes);
    ids := AddNodes(ids, data.kubernetes);
    KindNodesAreItemNodes(rid, data, Container);
    KindNodesAreItemNodes(rid, data, Network);
    KindNodesAreItemNodes(rid, data, ZDB);
    KindNodesAreItemNodes(rid, data, Volume);
    KindNodesAreItemNodes(rid, data, Kubernetes);
    NodesByKind(AllWorkloads(rid, data));
  }

  method AddNetworkNodes(ids0: set<NodeId>, networks: seq<NetworkItem>) returns (ids: set<NodeId>)
    ensures ids == ids0 + ItemNodes(Resources(networks))
  {
    ids := ids0;
    for i := 0 to |networks|
      invariant ids == ids0 + ItemNodes(Resources(networks[..i]))
    {
      assert networks[..i + 1][..i] == networks[..i];
      ids := AddNodes(ids, NetworkItems(networks[i]));
    }
    assert networks[..|networks|] == networks;
  }

  method GatewayIDs(rid: int, data: Data) returns (ids: set<NodeId>)
    ensures ids == GroupNodes(AllWorkloads(rid, data), true)
  {
    ids := AddNodes({}, data.proxies);
    ids := AddNodes(ids, data.reverseProxies);
    ids := AddNodes(ids, data.subdomains);
    ids := AddNodes(ids, data.domainDelegates);
    ids := AddNodes(ids, data.gateways);
    KindNodesAreItemNodes(rid, data, Proxy);
    KindNodesAreItemNodes(rid, data, ReverseProxy);
    KindNodesAreItemNodes(rid, data, SubDomain);
    KindNodesAreItemNodes(rid, data, DomainDelegate);
    KindNodesAreItemNodes(rid, data, Gateway4To6);
    GatewaysByKind(AllWorkloads(rid, data));
  }

  // ---------- The database filter and the partition ----------

  // WithNodeID: some list of the document mentions the node.
  predicate MentionsNode(data: Data, node: NodeId) {
    || (exists kind :: kind != Network && exists item :: item in ItemsOf(data, kind) && item.node == node)
    || (exists network :: network in data.networks && node in network.nodes)
  }

  lemma {:induction false} ResourcesMention(networks: seq<NetworkItem>, node: NodeId)
    ensures (exists network :: network in networks && node in network.nodes)
       <==> (exists item :: item in Resources(networks) && item.node == node)
  {
    if networks == [] {
    } else {
      var init, last := networks[..|networks| - 1], networks[|networks| - 1];
      ResourcesMention(init, node);
      assert networks == init + [last];
      if node in last.nodes {
        var i :| 0 <= i < |last.nodes| && last.nodes[i] == node;
        assert NetworkItems(last)[i].node == node && NetworkItems(last)[i] in Resources(networks);
      }
      if item :| item in Resources(init) && item.node == node {
        assert item in Resources(networks);
      }
      if item :| item in NetworkItems(last) && item.node == node {
        assert node in last.nodes;
      }
    }
  }

  // The filter selects a reservation exactly when it has a workload for the node.
  lemma FilterSelectsExactly(rid: int, data: Data, node: NodeId)
    requires node != ""
    ensures MentionsNode(data, node) <==> Select(AllWorkloads(rid, data), node) != []
  {
    var ws := AllWorkloads(rid, data);
    OnNodeMembers(ws, node);
    ResourcesMention(data.networks, node);
    if MentionsNode(data, node) {
      var kind :| exists item :: item in ItemsOf(data, kind) && item.node == node;
      var item :| item in ItemsOf(data, kind) && item.node == node;
      var w := Workload(Gwid(rid, item.workload), kind, node);
      AllMembers(rid, data, w);
      assert Item(w.id.workload, w.node) == item;
      assert w in OnNode(ws, node);
    }
    if OnNode(ws, node) != [] {
      var w := OnNode(ws, node)[0];
      AllMembers(rid, data, w);
      assert Item(w.id.workload, w.node) in ItemsOf(data, w.kind) && w.node == node;
    }
  }

  // The lists of the given nodes, one after the other.
  function PerNode(ws: seq<Workload>, nodes: seq<NodeId>): seq<Workload> {
    if nodes == [] then [] else PerNode(ws, nodes[..|nodes| - 1]) + OnNode(ws, nodes[|nodes| - 1])
  }

  lemma {:induction false} OnNodeCount(ws: seq<Workload>, node: NodeId, w: Workload)
    ensures multiset(OnNode(ws, node))[w] == if w.node == node then multiset(ws)[w] else 0
  {
    if ws == [] {
    } else {
      OnNodeCount(ws[..|ws| - 1], node, w);
      assert ws == ws[..|ws| - 1] + [ws[|ws| - 1]];
    }
  }

  lemma {:induction false} PerNodeCount(ws: seq<Workload>, nodes: seq<NodeId>, w: Workload)
    requires Distinct(nodes)
    ensures multiset(PerNode(ws, nodes))[w] == if w.node in nodes then multiset(ws)[w] else 0
  {
    if nodes == [] {
    } else {
      PerNodeCount(ws, nodes[..|nodes| - 1], w);
      OnNodeCount(ws, nodes[|nodes| - 1], w);
      assert nodes == nodes[..|nodes| - 1] + [nodes[|nodes| - 1]];
    }
  }

  // No workload is lost between nodes and none is given to two of them.
  lemma NodesPartitionWorkloads(ws: seq<Workload>, nodes: seq<NodeId>)
    requires Distinct(nodes) && forall n :: n in nodes <==> n in WorkloadNodes(ws)
    ensures multiset(PerNode(ws, nodes)) == multiset(ws)
  {
    forall w
      ensures multiset(PerNode(ws, nodes))[w] == multiset(ws)[w]
    {
      PerNodeCount(ws, nodes, w);
      if w in ws {
        assert w.node in WorkloadNodes(ws);
      }
    }
  }
}
