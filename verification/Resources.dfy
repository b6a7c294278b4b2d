/** What a reservation takes from each farm: summed per node, then per farm. */
module Resources {
  import opened GoInt

  type NodeId = string
  type FarmId = int64

  datatype DiskType = HDD | SSD | UnknownDisk(code: uint8)
  datatype Container = Container(node: NodeId, cpu: int64, memory: int64)
  datatype Volume = Volume(node: NodeId, disk: DiskType, size: int64)
  datatype Zdb = Zdb(node: NodeId, disk: DiskType, size: int64)
  datatype K8s = K8s(node: NodeId, size: int64)
  datatype Data = Data(containers: seq<Container>, volumes: seq<Volume>, zdbs: seq<Zdb>, kubernetes: seq<K8s>)

  // Resource units. Memory is held in ten-thousandths of a unit, which is as exact as the source
  // rounds it.
  datatype Rsu = Rsu(cru: int, sru: int, hru: int, mru: int)

  const NOTHING := Rsu(0, 0, 0, 0)

  // `add` on int64 fields.
  function Add(a: Rsu, b: Rsu): Rsu {
    Rsu(Wrap(a.cru + b.cru), Wrap(a.sru + b.sru), Wrap(a.hru + b.hru), a.mru + b.mru)
  }

  // Addition without overflow, and the units an int64 rsu holds of such a sum.
  function Plus(a: Rsu, b: Rsu): Rsu {
    Rsu(a.cru + b.cru, a.sru + b.sru, a.hru + b.hru, a.mru + b.mru)
  }

  function Wrapped(a: Rsu): Rsu {
    Rsu(Wrap(a.cru), Wrap(a.sru), Wrap(a.hru), a.mru)
  }

  // The units are int64 values.
  predicate Fits(a: Rsu) {
    && -TWO_TO_63 <= a.cru <= MAX_INT64 && -TWO_TO_63 <= a.sru <= MAX_INT64 && -TWO_TO_63 <= a.hru <= MAX_INT64
  }

  lemma FittingIsNotWrapped(a: Rsu)
    requires Fits(a)
    ensures Wrapped(a) == a
  {
  }

  lemma WrapAdd(a: int, b: int)
    ensures Wrap(Wrap(a) + Wrap(b)) == Wrap(a + b)
  {
    var p, q := (a + TWO_TO_63) / TWO_TO_64, (b + TWO_TO_63) / TWO_TO_64;
    assert Wrap(a) == a - p * TWO_TO_64 && Wrap(b) == b - q * TWO_TO_64;
    var x := a + b + TWO_TO_63;
    ModShift(x, p + q);
  }

  lemma ModShift(x: int, k: int)
    ensures (x - k * TWO_TO_64) % TWO_TO_64 == x % TWO_TO_64
  {
    var q := x / TWO_TO_64;
    assert x - k * TWO_TO_64 == (q - k) * TWO_TO_64 + x % TWO_TO_64;
  }

  lemma AddIsWrappedPlus(a: Rsu, b: Rsu)
    ensures Add(Wrapped(a), Wrapped(b)) == Wrapped(Plus(a, b))
  {
    WrapAdd(a.cru, b.cru);
    WrapAdd(a.sru, b.sru);
    WrapAdd(a.hru, b.hru);
  }

  // ---------- One workload ----------

  // memory / 1024 to four digits, halves away from zero.
  function TenThousandths(memory: int64): (r: int)
    ensures memory >= 0 ==> 1024 * (2 * r - 1) <= 20000 * memory < 1024 * (2 * r + 1)
    ensures memory < 0 ==> 1024 * (2 * -r - 1) <= 20000 * (0 - memory) < 1024 * (2 * -r + 1)
  {
    if memory >= 0 then (20000 * memory + 1024) / 2048 else -((20000 * (0 - memory) + 1024) / 2048)
  }

  function ProcessContainer(c: Container): Rsu {
    Rsu(c.cpu, 0, 0, TenThousandths(c.memory))
  }

  function ProcessDisk(disk: DiskType, size: int64): Rsu {
    match disk
    case HDD => Rsu(0, 0, size, 0)
    case SSD => Rsu(0, size, 0, 0)
    case UnknownDisk(_) => NOTHING
  }

  function ProcessKubernetes(k: K8s): Rsu {
    if k.size == 1 then Rsu(1, 50, 0, 20000)
    else if k.size == 2 then Rsu(2, 100, 0, 40000)
    else NOTHING
  }

  // ---------- All workloads ----------

  // What one workload takes, and where.
  datatype Demand = Demand(node: NodeId, rsu: Rsu)

  function OfContainer(c: Container): Demand { Demand(c.node, ProcessContainer(c)) }

  function OfVolume(v: Volume): Demand { Demand(v.node, ProcessDisk(v.disk, v.size)) }

  function OfZdb(z: Zdb): Demand { Demand(z.node, ProcessDisk(z.disk, z.size)) }

  function OfKubernetes(k: K8s): Demand { Demand(k.node, ProcessKubernetes(k)) }

  function Containers(cs: seq<Container>): seq<Demand> {
    if cs == [] then [] else Containers(cs[..|cs| - 1]) + [OfContainer(cs[|cs| - 1])]
  }

  function Volumes(vs: seq<Volume>): seq<Demand> {
    if vs == [] then [] else Volumes(vs[..|vs| - 1]) + [OfVolume(vs[|vs| - 1])]
  }

  function Zdbs(zs: seq<Zdb>): seq<Demand> {
    if zs == [] then [] else Zdbs(zs[..|zs| - 1]) + [OfZdb(zs[|zs| - 1])]
  }

  function Kubernetes(ks: seq<K8s>): seq<Demand> {
    if ks == [] then [] else Kubernetes(ks[..|ks| - 1]) + [OfKubernetes(ks[|ks| - 1])]
  }

  function Demands(data: Data): seq<Demand> {
    Containers(data.containers) + Volumes(data.volumes) + Zdbs(data.zdbs) + Kubernetes(data.kubernetes)
  }

  // What the workloads on these nodes take together, exactly.
  function TotalOn(demands: seq<Demand>, nodes: set<NodeId>): Rsu {
    if demands == [] then NOTHING
    else
      var last := demands[|demands| - 1];
      Plus(TotalOn(demands[..|demands| - 1], nodes), if last.node in nodes then last.rsu else NOTHING)
  }

  function NodesIn(demands: seq<Demand>): set<NodeId> {
    set d | d in demands :: d.node
  }

  lemma {:induction false} TotalOnDisjoint(demands: seq<Demand>, a: set<NodeId>, b: set<NodeId>)
    requires a !! b
    ensures TotalOn(demands, a + b) == Plus(TotalOn(demands, a), TotalOn(demands, b))
  {
    if demands == [] {
    } else {
      var init, last := demands[..|demands| - 1], demands[|demands| - 1];
      TotalOnDisjoint(init, a, b);
      PlusEither(TotalOn(init, a), TotalOn(init, b), last.rsu, last.node in a, last.node in b);
      assert last.node in a + b <==> last.node in a || last.node in b;
    }
  }

  lemma PlusEither(x: Rsu, y: Rsu, more: Rsu, inX: bool, inY: bool)
    requires !(inX && inY)
    ensures Plus(Plus(x, y), if inX || inY then more else NOTHING)
         == Plus(Plus(x, if inX then more else NOTHING), Plus(y, if inY then more else NOTHING))
  {
  }

  lemma {:induction false} TotalOnNone(demands: seq<Demand>, nodes: set<NodeId>)
    requires nodes !! NodesIn(demands)
    ensures TotalOn(demands, nodes) == NOTHING
  {
    if demands == [] {
    } else {
      assert demands[|demands| - 1].node in NodesIn(demands);
      TotalOnNone(demands[..|demands| - 1], nodes);
    }
  }

  lemma TotalOnMore(demands: seq<Demand>, d: Demand, nodes: set<NodeId>)
    ensures TotalOn(demands + [d], nodes) == Plus(TotalOn(demands, nodes), if d.node in nodes then d.rsu else NOTHING)
  {
    assert (demands + [d])[..|demands|] == demands;
  }

  // ---------- Per node ----------

  predicate PerNodeOf(perNode: map<NodeId, Rsu>, demands: seq<Demand>) {
    && perNode.Keys == NodesIn(demands)
    && forall node | node in perNode :: perNode[node] == Wrapped(TotalOn(demands, {node}))
  }

  // One line of the loops: a missing entry counts as zero.
  function Charge(perNode: map<NodeId, Rsu>, d: Demand): map<NodeId, Rsu> {
    perNode[d.node := Add(if d.node in perNode then perNode[d.node] else NOTHING, d.rsu)]
  }

  lemma ChargeKeepsTotals(perNode: map<NodeId, Rsu>, demands: seq<Demand>, d: Demand)
    requires PerNodeOf(perNode, demands) && Wrapped(d.rsu) == d.rsu
    ensures PerNodeOf(Charge(perNode, d), demands + [d])
  {
    var more := Charge(perNode, d);
    forall node | node in more
      ensures more[node] == Wrapped(TotalOn(demands + [d], {node}))
    {
      TotalOnMore(demands, d, {node});
      if node == d.node {
        AddIsWrappedPlus(TotalOn(demands, {node}), d.rsu);
        if node !in perNode {
          TotalOnNone(demands, {node});
        }
      }
    }
    assert NodesIn(demands + [d]) == NodesIn(demands) + {d.node};
  }

  // ---------- Per farm ----------

  // The nodes of a farm among those seen.
  function NodesOf(farmOf: map<NodeId, FarmId>, farm: FarmId, nodes: set<NodeId>): set<NodeId> {
    set node | node in nodes && node in farmOf && farmOf[node] == farm
  }

  function FarmsOf(farmOf: map<NodeId, FarmId>, nodes: set<NodeId>): set<FarmId> {
    set node | node in nodes && node in farmOf :: farmOf[node]
  }

  predicate PerFarmOf(perFarm: map<FarmId, Rsu>, demands: seq<Demand>, farmOf: map<NodeId, FarmId>,
                      nodes: set<NodeId>) {
    && perFarm.Keys == FarmsOf(farmOf, nodes)
    && forall farm | farm in perFarm :: perFarm[farm] == OnFarm(demands, farmOf, farm, nodes)
  }

  function Credit(perFarm: map<FarmId, Rsu>, farm: FarmId, rsu: Rsu): map<FarmId, Rsu> {
    perFarm[farm := Add(if farm in perFarm then perFarm[farm] else NOTHING, rsu)]
  }

  function OnFarm(demands: seq<Demand>, farmOf: map<NodeId, FarmId>, farm: FarmId, nodes: set<NodeId>): Rsu {
    Wrapped(TotalOn(demands, NodesOf(farmOf, farm, nodes)))
  }

  lemma CreditKeepsTotals(perFarm: map<FarmId, Rsu>, demands: seq<Demand>, farmOf: map<NodeId, FarmId>,
                          done: set<NodeId>, node: NodeId)
    requires PerFarmOf(perFarm, demands, farmOf, done) && node !in done && node in farmOf
    ensures PerFarmOf(Credit(perFarm, farmOf[node], Wrapped(TotalOn(demands, {node}))), demands, farmOf, done + {node})
  {
    var farm := farmOf[node];
    FarmsOfMore(farmOf, done, node);
    CreditOne(perFarm, demands, farmOf, done, node);
    forall other | other in perFarm && other != farm
      ensures OnFarm(demands, farmOf, other, done + {node}) == OnFarm(demands, farmOf, other, done)
    {
      NodesOfMore(farmOf, other, done, node);
    }
    UpdatedFarm(perFarm, farm, OnFarm(demands, farmOf, farm, done + {node}), demands, farmOf, done, done + {node});
  }

  lemma UpdatedFarm(perFarm: map<FarmId, Rsu>, farm: FarmId, amount: Rsu, demands: seq<Demand>,
                    farmOf: map<NodeId, FarmId>,
                    before: set<NodeId>, after: set<NodeId>)
    requires PerFarmOf(perFarm, demands, farmOf, before) && FarmsOf(farmOf, after) == FarmsOf(farmOf, before) + {farm}
    requires amount == OnFarm(demands, farmOf, farm, after)
    requires forall other | other in perFarm && other != farm ::
               OnFarm(demands, farmOf, other, after) == OnFarm(demands, farmOf, other, before)
    ensures PerFarmOf(perFarm[farm := amount], demands, farmOf, after)
  {
    var more := perFarm[farm := amount];
    forall other | other in more
      ensures more[other] == OnFarm(demands, farmOf, other, after)
    {
      if other != farm {
        assert more[other] == perFarm[other];
      }
    }
  }

  lemma FarmsOfMore(farmOf: map<NodeId, FarmId>, done: set<NodeId>, node: NodeId)
    requires node in farmOf
    ensures FarmsOf(farmOf, done + {node}) == FarmsOf(farmOf, done) + {farmOf[node]}
  {
    forall farm | farm in FarmsOf(farmOf, done) + {farmOf[node]}
      ensures farm in FarmsOf(farmOf, done + {node})
    {
      if farm == farmOf[node] {
        assert node in done + {node};
      }
    }
  }

  lemma CreditOne(perFarm: map<FarmId, Rsu>, demands: seq<Demand>, farmOf: map<NodeId, FarmId>, done: set<NodeId>,
                  node: NodeId)
    requires PerFarmOf(perFarm, demands, farmOf, done) && node !in done && node in farmOf
    ensures Add(if farmOf[node] in perFarm then perFarm[farmOf[node]] else NOTHING, Wrapped(TotalOn(demands, {node})))
         == OnFarm(demands, farmOf, farmOf[node], done + {node})
  {
    var farm := farmOf[node];
    if farm !in perFarm {
      forall n | n in done && n in farmOf
        ensures farmOf[n] in FarmsOf(farmOf, done)
      {
      }
      assert NodesOf(farmOf, farm, done) == {};
    }
    AddNode(demands, NodesOf(farmOf, farm, done), node);
    NodesOfMore(farmOf, farm, done, node);
  }

  lemma NodesOfMore(farmOf: map<NodeId, FarmId>, farm: FarmId, done: set<NodeId>, node: NodeId)
    requires node in farmOf
    ensures NodesOf(farmOf, farm, done + {node})
         == if farm == farmOf[node] then NodesOf(farmOf, farm, done) + {node} else NodesOf(farmOf, farm, done)
  {
  }

  lemma AddNode(demands: seq<Demand>, nodes: set<NodeId>, node: NodeId)
    requires node !in nodes
    ensures Add(Wrapped(TotalOn(demands, nodes)), Wrapped(TotalOn(demands, {node})))
         == Wrapped(TotalOn(demands, nodes + {node}))
    ensures nodes == {} ==> Wrapped(TotalOn(demands, nodes)) == NOTHING
  {
    TotalOnDisjoint(demands, nodes, {node});
    AddIsWrappedPlus(TotalOn(demands, nodes), TotalOn(demands, {node}));
    if nodes == {} {
      TotalOnNone(demands, nodes);
    }
  }

  // ---------- Straight from the lists ----------

  predicate At(farmOf: map<NodeId, FarmId>, farm: FarmId, node: NodeId) {
    node in farmOf && farmOf[node] == farm
  }

  // Virtual machines of size 1 count as one, those of size 2 as two, and there are no others.
  function Machines(ks: seq<K8s>, farmOf: map<NodeId, FarmId>, farm: FarmId): int {
    if ks == [] then 0
    else
      var last := ks[|ks| - 1];
      Machines(ks[..|ks| - 1], farmOf, farm) +
      if At(farmOf, farm, last.node) && (last.size == 1 || last.size == 2) then last.size else 0
  }

  function Cpus(cs: seq<Container>, farmOf: map<NodeId, FarmId>, farm: FarmId): int {
    if cs == [] then 0
    else
      var last := cs[|cs| - 1];
      Cpus(cs[..|cs| - 1], farmOf, farm) + if At(farmOf, farm, last.node) then last.cpu else 0
  }

  function Memories(cs: seq<Container>, farmOf: map<NodeId, FarmId>, farm: FarmId): int {
    if cs == [] then 0
    else
      var last := cs[|cs| - 1];
      Memories(cs[..|cs| - 1], farmOf, farm) + if At(farmOf, farm, last.node) then TenThousandths(last.memory) else 0
  }

  function VolumeSizes(vs: seq<Volume>, disk: DiskType, farmOf: map<NodeId, FarmId>, farm: FarmId): int {
    if vs == [] then 0
    else
      var last := vs[|vs| - 1];
      VolumeSizes(vs[..|vs| - 1], disk, farmOf, farm) +
      if At(farmOf, farm, last.node) && last.disk == disk then last.size else 0
  }

  function ZdbSizes(zs: seq<Zdb>, disk: DiskType, farmOf: map<NodeId, FarmId>, farm: FarmId): int {
    if zs == [] then 0
    else
      var last := zs[|zs| - 1];
      ZdbSizes(zs[..|zs| - 1], disk, farmOf, farm) +
      if At(farmOf, farm, last.node) && last.disk == disk then last.size else 0
  }

  // What a farm has to give: processors of containers and 1 per machine; SSD volumes and databases and
  // 50 per machine; HDD volumes and databases; memory of containers and 2 units per machine.
  function FarmTotal(data: Data, farmOf: map<NodeId, FarmId>, farm: FarmId): Rsu {
    Wrapped(FarmSums(data, farmOf, farm).Total())
  }

  // What the lists give: cpus and memories, the sizes of SSD and HDD volumes, those of zdbs, machines.
  datatype Sums = Sums(cpus: int, memories: int, ssd: int, hdd: int, zssd: int, zhdd: int, machines: int) {
    function Total(): Rsu {
      Rsu(cpus + machines, ssd + zssd + 50 * machines, hdd + zhdd, memories + 20000 * machines)
    }
  }

  function FarmSums(data: Data, farmOf: map<NodeId, FarmId>, farm: FarmId): Sums {
    var v, z := data.volumes, data.zdbs;
    Sums(Cpus(data.containers, farmOf, farm), Memories(data.containers, farmOf, farm),
         VolumeSizes(v, SSD, farmOf, farm), VolumeSizes(v, HDD, farmOf, farm),
         ZdbSizes(z, SSD, farmOf, farm), ZdbSizes(z, HDD, farmOf, farm), Machines(data.kubernetes, farmOf, farm))
  }

  // The nodes of all workloads.
  function NodesUsed(data: Data): set<NodeId> {
    (set c | c in data.containers :: c.node) + (set v | v in data.volumes :: v.node) +
    (set z | z in data.zdbs :: z.node) + (set k | k in data.kubernetes :: k.node)
  }

  // What each farm has to give.
  predicate PerFarmIs(perFarm: map<FarmId, Rsu>, data: Data, farmOf: map<NodeId, FarmId>) {
    && perFarm.Keys == (set node | node in NodesUsed(data) && node in farmOf :: farmOf[node])
    && forall farm | farm in perFarm :: perFarm[farm] == FarmTotal(data, farmOf, farm)
  }

  lemma {:induction false} TotalOnConcat(a: seq<Demand>, b: seq<Demand>, nodes: set<NodeId>)
    ensures TotalOn(a + b, nodes) == Plus(TotalOn(a, nodes), TotalOn(b, nodes))
  {
    if b == [] {
      ConcatNothing(a, nodes);
    } else {
      var init, last := b[..|b| - 1], b[|b| - 1];
      assert b == init + [last];
      TotalOnConcat(a, init, nodes);
      ConcatNext(a, init, last, nodes);
    }
  }

  lemma ConcatNothing(a: seq<Demand>, nodes: set<NodeId>)
    ensures TotalOn(a + [], nodes) == Plus(TotalOn(a, nodes), TotalOn([], nodes))
  {
    assert a + [] == a;
  }

  lemma ConcatNext(a: seq<Demand>, b: seq<Demand>, d: Demand, nodes: set<NodeId>)
    requires TotalOn(a + b, nodes) == Plus(TotalOn(a, nodes), TotalOn(b, nodes))
    ensures TotalOn(a + (b + [d]), nodes) == Plus(TotalOn(a, nodes), TotalOn(b + [d], nodes))
  {
    TotalOnMore(a + b, d, nodes);
    TotalOnMore(b, d, nodes);
    PlusAssoc(TotalOn(a, nodes), TotalOn(b, nodes), if d.node in nodes then d.rsu else NOTHING);
    assert a + (b + [d]) == a + b + [d];
  }

  lemma PlusAssoc(x: Rsu, y: Rsu, z: Rsu)
    ensures Plus(Plus(x, y), z) == Plus(x, Plus(y, z))
  {
  }

  // `nodes` are those of the farm among the nodes of all workloads.
  lemma {:induction false} ContainersOnFarm(cs: seq<Container>, farmOf: map<NodeId, FarmId>, farm: FarmId,
                                            nodes: set<NodeId>)
    requires forall c | c in cs :: c.node in nodes <==> At(farmOf, farm, c.node)
    ensures TotalOn(Containers(cs), nodes)
         == Rsu(Cpus(cs, farmOf, farm), 0, 0, Memories(cs, farmOf, farm))
  {
    if cs == [] {
      NoContainers(farmOf, farm, nodes);
    } else {
      var init, last := cs[..|cs| - 1], cs[|cs| - 1];
      assert cs == init + [last] && last in cs;
      ContainersOnFarm(init, farmOf, farm, nodes);
      OneMoreContainer(init, last, farmOf, farm, nodes);
      PlusOne(TotalOn(Containers(init), nodes), if last.node in nodes then ProcessContainer(last) else NOTHING,
              Cpus(init, farmOf, farm), Memories(init, farmOf, farm));
    }
  }

  lemma NoContainers(farmOf: map<NodeId, FarmId>, farm: FarmId, nodes: set<NodeId>)
    ensures TotalOn(Containers([]), nodes) == Rsu(Cpus([], farmOf, farm), 0, 0, Memories([], farmOf, farm))
  {
  }

  lemma OneMoreContainer(cs: seq<Container>, c: Container, farmOf: map<NodeId, FarmId>, farm: FarmId,
                         nodes: set<NodeId>)
    requires c.node in nodes <==> At(farmOf, farm, c.node)
    ensures var rsu := if c.node in nodes then ProcessContainer(c) else NOTHING;
            && rsu.sru == rsu.hru == 0
            && TotalOn(Containers(cs + [c]), nodes) == Plus(TotalOn(Containers(cs), nodes), rsu)
            && Cpus(cs + [c], farmOf, farm) == Cpus(cs, farmOf, farm) + rsu.cru
            && Memories(cs + [c], farmOf, farm) == Memories(cs, farmOf, farm) + rsu.mru
  {
    assert (cs + [c])[..|cs|] == cs;
    TotalOnMore(Containers(cs), OfContainer(c), nodes);
  }

  lemma PlusOne(total: Rsu, rsu: Rsu, cpus: int, memories: int)
    requires total == Rsu(cpus, 0, 0, memories) && rsu.sru == rsu.hru == 0
    ensures Plus(total, rsu) == Rsu(cpus + rsu.cru, 0, 0, memories + rsu.mru)
  {
  }

  lemma {:induction false} VolumesOnFarm(vs: seq<Volume>, farmOf: map<NodeId, FarmId>, farm: FarmId, nodes: set<NodeId>)
    requires forall v | v in vs :: v.node in nodes <==> At(farmOf, farm, v.node)
    ensures TotalOn(Volumes(vs), nodes)
         == Rsu(0, VolumeSizes(vs, SSD, farmOf, farm), VolumeSizes(vs, HDD, farmOf, farm), 0)
  {
    if vs == [] {
    } else {
      var init, last := vs[..|vs| - 1], vs[|vs| - 1];
      assert last in vs;
      VolumesOnFarm(init, farmOf, farm, nodes);
      TotalOnMore(Volumes(init), OfVolume(last), nodes);
    }
  }

  lemma {:induction false} ZdbsOnFarm(zs: seq<Zdb>, farmOf: map<NodeId, FarmId>, farm: FarmId, nodes: set<NodeId>)
    requires forall z | z in zs :: z.node in nodes <==> At(farmOf, farm, z.node)
    ensures TotalOn(Zdbs(zs), nodes)
         == Rsu(0, ZdbSizes(zs, SSD, farmOf, farm), ZdbSizes(zs, HDD, farmOf, farm), 0)
  {
    if zs == [] {
    } else {
      var init, last := zs[..|zs| - 1], zs[|zs| - 1];
      assert last in zs;
      ZdbsOnFarm(init, farmOf, farm, nodes);
      TotalOnMore(Zdbs(init), OfZdb(last), nodes);
    }
  }

  lemma {:induction false} KubernetesOnFarm(ks: seq<K8s>, farmOf: map<NodeId, FarmId>, farm: FarmId, nodes: set<NodeId>)
    requires forall k | k in ks :: k.node in nodes <==> At(farmOf, farm, k.node)
    ensures TotalOn(Kubernetes(ks), nodes)
         == Rsu(Machines(ks, farmOf, farm), 50 * Machines(ks, farmOf, farm), 0, 20000 * Machines(ks, farmOf, farm))
  {
    if ks == [] {
    } else {
      var init, last := ks[..|ks| - 1], ks[|ks| - 1];
      assert last in ks;
      KubernetesOnFarm(init, farmOf, farm, nodes);
      TotalOnMore(Kubernetes(init), OfKubernetes(last), nodes);
    }
  }

  lemma {:induction false} NodesOfContainers(cs: seq<Container>)
    ensures NodesIn(Containers(cs)) == set c | c in cs :: c.node
  {
    if cs == [] {
    } else {
      NodesOfContainers(cs[..|cs| - 1]);
      assert cs == cs[..|cs| - 1] + [cs[|cs| - 1]];
      NodesInMore(Containers(cs[..|cs| - 1]), OfContainer(cs[|cs| - 1]));
    }
  }

  lemma {:induction false} NodesOfVolumes(vs: seq<Volume>)
    ensures NodesIn(Volumes(vs)) == set v | v in vs :: v.node
  {
    if vs == [] {
    } else {
      NodesOfVolumes(vs[..|vs| - 1]);
      assert vs == vs[..|vs| - 1] + [vs[|vs| - 1]];
      NodesInMore(Volumes(vs[..|vs| - 1]), OfVolume(vs[|vs| - 1]));
    }
  }

  lemma {:induction false} NodesOfZdbs(zs: seq<Zdb>)
    ensures NodesIn(Zdbs(zs)) == set z | z in zs :: z.node
  {
    if zs == [] {
    } else {
      NodesOfZdbs(zs[..|zs| - 1]);
      assert zs == zs[..|zs| - 1] + [zs[|zs| - 1]];
      NodesInMore(Zdbs(zs[..|zs| - 1]), OfZdb(zs[|zs| - 1]));
    }
  }

  lemma {:induction false} NodesOfKubernetes(ks: seq<K8s>)
    ensures NodesIn(Kubernetes(ks)) == set k | k in ks :: k.node
  {
    if ks == [] {
    } else {
      NodesOfKubernetes(ks[..|ks| - 1]);
      assert ks == ks[..|ks| - 1] + [ks[|ks| - 1]];
      NodesInMore(Kubernetes(ks[..|ks| - 1]), OfKubernetes(ks[|ks| - 1]));
    }
  }

  lemma NodesInMore(demands: seq<Demand>, d: Demand)
    ensures NodesIn(demands + [d]) == NodesIn(demands) + {d.node}
  {
  }

  lemma NodesInConcat(a: seq<Demand>, b: seq<Demand>)
    ensures NodesIn(a + b) == NodesIn(a) + NodesIn(b)
  {
  }

  lemma NodesInAreUsed(data: Data)
    ensures NodesIn(Demands(data)) == NodesUsed(data)
  {
    var c, v, z := Containers(data.containers), Volumes(data.volumes), Zdbs(data.zdbs);
    NodesInConcat(c + v + z, Kubernetes(data.kubernetes));
    NodesInConcat(c + v, z);
    NodesInConcat(c, v);
    NodesOfContainers(data.containers);
    NodesOfVolumes(data.volumes);
    NodesOfZdbs(data.zdbs);
    NodesOfKubernetes(data.kubernetes);
  }

  lemma FarmGives(data: Data, farmOf: map<NodeId, FarmId>, farm: FarmId)
    ensures OnFarm(Demands(data), farmOf, farm, NodesUsed(data)) == FarmTotal(data, farmOf, farm)
  {
    OnFarmByNode(data, farmOf, farm);
    ListsOnFarm(data, farmOf, farm, NodesOf(farmOf, farm, NodesUsed(data)));
  }

  lemma ListsOnFarm(data: Data, farmOf: map<NodeId, FarmId>, farm: FarmId, nodes: set<NodeId>)
    requires AreOfFarm(nodes, data, farmOf, farm)
    ensures TotalOn(Demands(data), nodes) == FarmSums(data, farmOf, farm).Total()
  {
    TotalOnLists(data, nodes);
    EachOnFarm(data, farmOf, farm, nodes);
    PlusLists(TotalOn(Containers(data.containers), nodes), TotalOn(Volumes(data.volumes), nodes),
              TotalOn(Zdbs(data.zdbs), nodes), TotalOn(Kubernetes(data.kubernetes), nodes),
              FarmSums(data, farmOf, farm));
  }

  lemma PlusLists(c: Rsu, v: Rsu, z: Rsu, k: Rsu, s: Sums)
    requires AreTotals(c, v, z, k, s)
    ensures Plus(Plus(Plus(c, v), z), k) == s.Total()
  {
  }

  predicate AreTotals(c: Rsu, v: Rsu, z: Rsu, k: Rsu, s: Sums) {
    && c == Rsu(s.cpus, 0, 0, s.memories) && v == Rsu(0, s.ssd, s.hdd, 0) && z == Rsu(0, s.zssd, s.zhdd, 0)
    && k == Rsu(s.machines, 50 * s.machines, 0, 20000 * s.machines)
  }

  lemma EachOnFarm(data: Data, farmOf: map<NodeId, FarmId>, farm: FarmId, nodes: set<NodeId>)
    requires AreOfFarm(nodes, data, farmOf, farm)
    ensures AreTotals(TotalOn(Containers(data.containers), nodes), TotalOn(Volumes(data.volumes), nodes),
                      TotalOn(Zdbs(data.zdbs), nodes), TotalOn(Kubernetes(data.kubernetes), nodes),
                      FarmSums(data, farmOf, farm))
  {
    ContainersOnFarm(data.containers, farmOf, farm, nodes);
    VolumesOnFarm(data.volumes, farmOf, farm, nodes);
    ZdbsOnFarm(data.zdbs, farmOf, farm, nodes);
    KubernetesOnFarm(data.kubernetes, farmOf, farm, nodes);
  }

  lemma TotalOnLists(data: Data, nodes: set<NodeId>)
    ensures TotalOn(Demands(data), nodes)
         == Plus(Plus(Plus(TotalOn(Containers(data.containers), nodes), TotalOn(Volumes(data.volumes), nodes)),
                      TotalOn(Zdbs(data.zdbs), nodes)), TotalOn(Kubernetes(data.kubernetes), nodes))
  {
    var c, v := Containers(data.containers), Volumes(data.volumes);
    var z, k := Zdbs(data.zdbs), Kubernetes(data.kubernetes);
    TotalOnConcat(c + v + z, k, nodes);
    TotalOnConcat(c + v, z, nodes);
    TotalOnConcat(c, v, nodes);
  }

  lemma OnFarmByNode(data: Data, farmOf: map<NodeId, FarmId>, farm: FarmId)
    ensures AreOfFarm(NodesOf(farmOf, farm, NodesUsed(data)), data, farmOf, farm)
  {
  }

  // Exactly the nodes of the farm, as far as the lists name them.
  predicate AreOfFarm(nodes: set<NodeId>, data: Data, farmOf: map<NodeId, FarmId>, farm: FarmId) {
    && (forall c | c in data.containers :: c.node in nodes <==> At(farmOf, farm, c.node))
    && (forall v | v in data.volumes :: v.node in nodes <==> At(farmOf, farm, v.node))
    && (forall z | z in data.zdbs :: z.node in nodes <==> At(farmOf, farm, z.node))
    && forall k | k in data.kubernetes :: k.node in nodes <==> At(farmOf, farm, k.node)
  }

  lemma PerFarmFromLists(perFarm: map<FarmId, Rsu>, data: Data, farmOf: map<NodeId, FarmId>)
    requires PerFarmOf(perFarm, Demands(data), farmOf, NodesIn(Demands(data)))
    ensures PerFarmIs(perFarm, data, farmOf)
  {
    NodesInAreUsed(data);
    forall farm | farm in perFarm
      ensures perFarm[farm] == FarmTotal(data, farmOf, farm)
    {
      FarmGives(data, farmOf, farm);
    }
  }

  datatype Result<T> = Ok(value: T) | UnknownNode(node: NodeId)

  // processReservationResources. `farmOf` answers the node lookups. Each farm gets the sum of the
  // workloads on its nodes; the order in which the map of nodes is visited does not matter.
  method ProcessReservationResources(data: Data, farmOf: map<NodeId, FarmId>) returns (r: Result<map<FarmId, Rsu>>)
    ensures r.Ok? <==> NodesUsed(data) <= farmOf.Keys
    ensures r.Ok? ==> PerFarmIs(r.value, data, farmOf)
    ensures r.Ok? ==> PerFarmOf(r.value, Demands(data), farmOf, NodesIn(Demands(data)))
    ensures r.UnknownNode? ==> r.node in NodesUsed(data) && r.node !in farmOf
  {
    var perNode := SumPerNode(data);
    r := SumPerFarm(perNode, Demands(data), farmOf);
    NodesInAreUsed(data);
    if r.Ok? {
      PerFarmFromLists(r.value, data, farmOf);
    }
  }

  // Its first half.
  method SumPerNode(data: Data) returns (perNode: map<NodeId, Rsu>)
    ensures PerNodeOf(perNode, Demands(data))
  {
    ghost var c, v := Containers(data.containers), Volumes(data.volumes);
    ghost var z, k := Zdbs(data.zdbs), Kubernetes(data.kubernetes);
    assert [] + c == c;
    perNode := AddContainers(map[], [], data.containers);
    perNode := AddVolumes(perNode, c, data.volumes);
    perNode := AddZdbs(perNode, c + v, data.zdbs);
    perNode := AddKubernetes(perNode, c + v + z, data.kubernetes);
  }

  method AddContainers(perNode0: map<NodeId, Rsu>, ghost before: seq<Demand>, cs: seq<Container>)
    returns (perNode: map<NodeId, Rsu>)
    requires PerNodeOf(perNode0, before)
    ensures PerNodeOf(perNode, before + Containers(cs))
  {
    perNode := perNode0;
    assert before + [] == before;
    for i := 0 to |cs|
      invariant PerNodeOf(perNode, before + Containers(cs[..i]))
    {
      Prefix(cs, i);
      ChargeNext(perNode, before, Containers(cs[..i]), OfContainer(cs[i]));
      perNode := Charge(perNode, OfContainer(cs[i]));
    }
    assert cs[..|cs|] == cs;
  }

  method AddVolumes(perNode0: map<NodeId, Rsu>, ghost before: seq<Demand>, vs: seq<Volume>)
    returns (perNode: map<NodeId, Rsu>)
    requires PerNodeOf(perNode0, before)
    ensures PerNodeOf(perNode, before + Volumes(vs))
  {
    perNode := perNode0;
    assert before + [] == before;
    for i := 0 to |vs|
      invariant PerNodeOf(perNode, before + Volumes(vs[..i]))
    {
      Prefix(vs, i);
      ChargeNext(perNode, before, Volumes(vs[..i]), OfVolume(vs[i]));
      perNode := Charge(perNode, OfVolume(vs[i]));
    }
    assert vs[..|vs|] == vs;
  }

  method AddZdbs(perNode0: map<NodeId, Rsu>, ghost before: seq<Demand>, zs: seq<Zdb>)
    returns (perNode: map<NodeId, Rsu>)
    requires PerNodeOf(perNode0, before)
    ensures PerNodeOf(perNode, before + Zdbs(zs))
  {
    perNode := perNode0;
    assert before + [] == before;
    for i := 0 to |zs|
      invariant PerNodeOf(perNode, before + Zdbs(zs[..i]))
    {
      Prefix(zs, i);
      ChargeNext(perNode, before, Zdbs(zs[..i]), OfZdb(zs[i]));
      perNode := Charge(perNode, OfZdb(zs[i]));
    }
    assert zs[..|zs|] == zs;
  }

  method AddKubernetes(perNode0: map<NodeId, Rsu>, ghost before: seq<Demand>, ks: seq<K8s>)
    returns (perNode: map<NodeId, Rsu>)
    requires PerNodeOf(perNode0, before)
    ensures PerNodeOf(perNode, before + Kubernetes(ks))
  {
    perNode := perNode0;
    assert before + [] == before;
    for i := 0 to |ks|
      invariant PerNodeOf(perNode, before + Kubernetes(ks[..i]))
    {
      Prefix(ks, i);
      ChargeNext(perNode, before, Kubernetes(ks[..i]), OfKubernetes(ks[i]));
      perNode := Charge(perNode, OfKubernetes(ks[i]));
    }
    assert ks[..|ks|] == ks;
  }

  // Its second half.
  method SumPerFarm(perNode: map<NodeId, Rsu>, ghost demands: seq<Demand>, farmOf: map<NodeId, FarmId>)
    returns (r: Result<map<FarmId, Rsu>>)
    requires PerNodeOf(perNode, demands)
    ensures r.Ok? <==> NodesIn(demands) <= farmOf.Keys
    ensures r.Ok? ==> PerFarmOf(r.value, demands, farmOf, NodesIn(demands))
    ensures r.UnknownNode? ==> r.node in NodesIn(demands) && r.node !in farmOf
  {
    var perFarm: map<FarmId, Rsu> := map[];
    var todo := perNode.Keys;
    ghost var done: set<NodeId> := {};
    while todo != {}
      invariant todo !! done && todo + done == NodesIn(demands)
      invariant done <= farmOf.Keys
      invariant PerFarmOf(perFarm, demands, farmOf, done)
    {
      var node :| node in todo;
      if node !in farmOf {
        return UnknownNode(node);
      }
      CreditKeepsTotals(perFarm, demands, farmOf, done, node);
      perFarm := Credit(perFarm, farmOf[node], perNode[node]);
      todo, done := todo - {node}, done + {node};
    }
    assert done == NodesIn(demands);
    return Ok(perFarm);
  }

  lemma ChargeNext(perNode: map<NodeId, Rsu>, before: seq<Demand>, demands: seq<Demand>, d: Demand)
    requires PerNodeOf(perNode, before + demands) && Fits(d.rsu)
    ensures PerNodeOf(Charge(perNode, d), before + (demands + [d]))
  {
    FittingIsNotWrapped(d.rsu);
    assert before + (demands + [d]) == before + demands + [d];
    ChargeKeepsTotals(perNode, before + demands, d);
  }

  lemma Prefix<T>(s: seq<T>, i: nat)
    requires i < |s|
    ensures s[..i + 1] == s[..i] + [s[i]] && s[..i + 1][..i] == s[..i]
  {
  }

  // ---------- Nothing is lost between workloads and farms ----------

  function SumFarms(perFarm: map<FarmId, Rsu>, farms: seq<FarmId>): Rsu
    requires forall f | f in farms :: f in perFarm
  {
    if farms == [] then NOTHING
    else Add(SumFarms(perFarm, farms[..|farms| - 1]), perFarm[farms[|farms| - 1]])
  }

  function OnFarms(farmOf: map<NodeId, FarmId>, farms: seq<FarmId>, nodes: set<NodeId>): set<NodeId> {
    set node | node in nodes && node in farmOf && farmOf[node] in farms
  }

  lemma {:induction false} SumFarmsIsTotal(perFarm: map<FarmId, Rsu>, demands: seq<Demand>,
                                           farmOf: map<NodeId, FarmId>, farms: seq<FarmId>)
    requires PerFarmOf(perFarm, demands, farmOf, NodesIn(demands))
    requires forall f | f in farms :: f in perFarm
    requires forall i, j | 0 <= i < j < |farms| :: farms[i] != farms[j]
    ensures SumFarms(perFarm, farms) == Wrapped(TotalOn(demands, OnFarms(farmOf, farms, NodesIn(demands))))
  {
    var nodes := NodesIn(demands);
    if farms == [] {
      TotalOnNone(demands, OnFarms(farmOf, farms, nodes));
    } else {
      var init, last := farms[..|farms| - 1], farms[|farms| - 1];
      SumFarmsIsTotal(perFarm, demands, farmOf, init);
      assert farms == init + [last] && perFarm[last] == OnFarm(demands, farmOf, last, nodes);
      OneMoreFarm(demands, farmOf, init, last, nodes);
    }
  }

  lemma OnFarmsMore(farmOf: map<NodeId, FarmId>, farms: seq<FarmId>, farm: FarmId, nodes: set<NodeId>)
    ensures OnFarms(farmOf, farms + [farm], nodes) == OnFarms(farmOf, farms, nodes) + NodesOf(farmOf, farm, nodes)
    ensures farm !in farms ==> OnFarms(farmOf, farms, nodes) !! NodesOf(farmOf, farm, nodes)
  {
  }

  lemma OneMoreFarm(demands: seq<Demand>, farmOf: map<NodeId, FarmId>, farms: seq<FarmId>, farm: FarmId,
                    nodes: set<NodeId>)
    requires farm !in farms
    ensures Add(Wrapped(TotalOn(demands, OnFarms(farmOf, farms, nodes))), OnFarm(demands, farmOf, farm, nodes))
         == Wrapped(TotalOn(demands, OnFarms(farmOf, farms + [farm], nodes)))
  {
    var before, mine := OnFarms(farmOf, farms, nodes), NodesOf(farmOf, farm, nodes);
    OnFarmsMore(farmOf, farms, farm, nodes);
    TotalOnDisjoint(demands, before, mine);
    AddIsWrappedPlus(TotalOn(demands, before), TotalOn(demands, mine));
  }

  // Adding up the farms, in any order, gives the sum of all workloads.
  lemma FarmsAddUpToWorkloads(perFarm: map<FarmId, Rsu>, demands: seq<Demand>, farmOf: map<NodeId, FarmId>,
                              farms: seq<FarmId>)
    requires NodesIn(demands) <= farmOf.Keys && PerFarmOf(perFarm, demands, farmOf, NodesIn(demands))
    requires (set f | f in farms) == perFarm.Keys && forall i, j | 0 <= i < j < |farms| :: farms[i] != farms[j]
    ensures SumFarms(perFarm, farms) == Wrapped(Total(demands))
  {
    SumFarmsIsTotal(perFarm, demands, farmOf, farms);
    forall node | node in NodesIn(demands)
      ensures farmOf[node] in farms
    {
      assert farmOf[node] in FarmsOf(farmOf, NodesIn(demands));
    }
    assert OnFarms(farmOf, farms, NodesIn(demands)) == NodesIn(demands);
    TotalIsTotalOn(demands, NodesIn(demands));
  }

  // All workloads, wherever they are.
  function Total(demands: seq<Demand>): Rsu {
    if demands == [] then NOTHING else Plus(Total(demands[..|demands| - 1]), demands[|demands| - 1].rsu)
  }

  lemma {:induction false} TotalIsTotalOn(demands: seq<Demand>, nodes: set<NodeId>)
    requires NodesIn(demands) <= nodes
    ensures TotalOn(demands, nodes) == Total(demands)
  {
    if demands == [] {
    } else {
      assert demands[|demands| - 1].node in NodesIn(demands);
      assert NodesIn(demands[..|demands| - 1]) <= NodesIn(demands);
      TotalIsTotalOn(demands[..|demands| - 1], nodes);
    }
  }
}
