/** The check of workload ids on submission, and which reservations can ever become deployed. */
module Validation {
  import opened Collections
  import opened Workloads
  import opened Pipeline
  import opened Reports

  // ---------- Validate ----------

  // The items whose ids are checked. Networks are not among them.
  function CheckedItems(data: Data): seq<Item> {
    data.containers + data.volumes + data.zdbs + data.kubernetes + data.proxies + data.reverseProxies +
    data.subdomains + data.domainDelegates + data.gateways
  }

  function Ids(items: seq<Item>): (ids: seq<int>)
    ensures |ids| == |items| && forall i | 0 <= i < |items| :: ids[i] == items[i].workload
  {
    seq(|items|, i requires 0 <= i < |items| => items[i].workload)
  }

  method Validate(data: Data) returns (ok: bool)
    ensures ok <==> Distinct(Ids(CheckedItems(data)))
  {
    var workloaders := CheckedItems(data);
    var ids: set<int> := {};
    for i := 0 to |workloaders|
      invariant Distinct(Ids(workloaders[..i]))
      invariant forall id :: id in ids <==> id in Ids(workloaders[..i])
    {
      var id := workloaders[i].workload;
      OneMoreId(workloaders, i);
      if id in ids {
        return false;
      }
      ids := ids + {id};
    }
    assert workloaders[..|workloaders|] == workloaders;
    return true;
  }

  lemma OneMoreId(items: seq<Item>, i: nat)
    requires i < |items|
    ensures Ids(items[..i + 1]) == Ids(items[..i]) + [items[i].workload]
    ensures Distinct(Ids(items[..i])) ==> (Distinct(Ids(items[..i + 1])) <==> items[i].workload !in Ids(items[..i]))
    ensures Distinct(Ids(items)) ==> Distinct(Ids(items[..i + 1]))
  {
    var ids := Ids(items[..i]);
    assert Ids(items[..i + 1]) == ids + [items[i].workload];
    if items[i].workload in ids {
      var k :| 0 <= k < |ids| && ids[k] == items[i].workload;
      assert (ids + [items[i].workload])[k] == (ids + [items[i].workload])[i];
    }
  }

  // ---------- What can become deployed ----------

  predicate DistinctWorkloads(ws: seq<Workload>) {
    forall i, j | 0 <= i < j < |ws| :: !(ws[i].id == ws[j].id && ws[i].node == ws[j].node)
  }

  // An Ok result for every workload, and nothing but Ok results.
  predicate AllReportedOk(ws: seq<Workload>, results: seq<Result>) {
    && (forall w | w in ws :: Result(w.id, w.node, Ok) in results)
    && (forall result | result in results :: result.state == Ok)
  }

  // Counting is right in both directions: a reservation counts as deployed if and only if no two of
  // its workloads share a key, each has an Ok result, and there are no other results.
  lemma DeployedIff(r: Reservation)
    requires ResultsOk(r.Workloads(), r.results)
    ensures r.IsSuccessfullyDeployed() <==> DistinctWorkloads(r.Workloads()) && AllReportedOk(r.Workloads(), r.results)
  {
    var ws := r.Workloads();
    if r.IsSuccessfullyDeployed() {
      forall i, j | 0 <= i < j < |ws|
        ensures !(ws[i].id == ws[j].id && ws[i].node == ws[j].node)
      {
        if ws[i].id == ws[j].id && ws[i].node == ws[j].node {
          SharedKeyNeverDeploys(r, i, j);
        }
      }
      forall w | w in ws
        ensures Result(w.id, w.node, Ok) in r.results
      {
        DeployedMeansEveryWorkload(r, w);
        var result :| result in r.results && result.state == Ok && result.id == w.id && result.node == w.node;
        assert result == Result(w.id, w.node, Ok);
      }
    }
    if DistinctWorkloads(ws) && AllReportedOk(ws, r.results) {
      EnoughResults(ws, r.results);
    }
  }

  lemma EnoughResults(ws: seq<Workload>, results: seq<Result>)
    requires DistinctWorkloads(ws) && forall w | w in ws :: Result(w.id, w.node, Ok) in results
    ensures |results| >= |ws|
  {
    var reports := OkReports(ws);
    assert DistinctKeys(reports);
    DistinctKeysSize(reports);
    forall key | key in ResultKeys(reports)
      ensures key in ResultKeys(results)
    {
      var report :| report in reports && KeyOf(report) == key;
      var i :| 0 <= i < |reports| && reports[i] == report;
      assert ws[i] in ws && Result(ws[i].id, ws[i].node, Ok) in results;
      assert KeyOf(Result(ws[i].id, ws[i].node, Ok)) == key;
    }
    SubsetSize(ResultKeys(reports), ResultKeys(results));
    ResultKeysSize(results);
  }

  function OkReports(ws: seq<Workload>): (reports: seq<Result>)
    ensures |reports| == |ws| && forall i | 0 <= i < |ws| :: reports[i] == Result(ws[i].id, ws[i].node, Ok)
  {
    seq(|ws|, i requires 0 <= i < |ws| => Result(ws[i].id, ws[i].node, Ok))
  }

  lemma {:induction false} ResultKeysSize(results: seq<Result>)
    ensures |ResultKeys(results)| <= |results|
  {
    if results == [] {
      assert ResultKeys(results) == {};
    } else {
      var init, last := results[..|results| - 1], results[|results| - 1];
      ResultKeysSize(init);
      assert results == init + [last];
      assert ResultKeys(results) == ResultKeys(init) + {KeyOf(last)};
    }
  }

  // A reservation can become deployed by some reports if and only if no two of its workloads share
  // a key and every workload is on a node.
  lemma CanDeployIff(r: Reservation)
    ensures (exists results ::
               ResultsOk(r.Workloads(), results) && r.(results := results).IsSuccessfullyDeployed()) <==>
            DistinctWorkloads(r.Workloads()) && forall w | w in r.Workloads() :: w.node != ""
  {
    var ws := r.Workloads();
    if results :| ResultsOk(ws, results) && r.(results := results).IsSuccessfullyDeployed() {
      var r' := r.(results := results);
      assert r'.Workloads() == ws;
      DeployedIff(r');
      forall w | w in ws
        ensures w.node != ""
      {
        var result := Result(w.id, w.node, Ok);
        var k :| 0 <= k < |results| && results[k] == result;
        assert WellKeyed(ws, results[k]);
      }
    }
    if DistinctWorkloads(ws) && forall w | w in ws :: w.node != "" {
      DeployedByReports(r);
    }
  }

  lemma DeployedByReports(r: Reservation)
    requires DistinctWorkloads(r.Workloads()) && forall w | w in r.Workloads() :: w.node != ""
    ensures ResultsOk(r.Workloads(), OkReports(r.Workloads()))
    ensures r.(results := OkReports(r.Workloads())).IsSuccessfullyDeployed()
  {
    var ws, reports := r.Workloads(), OkReports(r.Workloads());
    assert r.(results := reports).Workloads() == ws;
    forall i | 0 <= i < |reports|
      ensures WellKeyed(ws, reports[i])
    {
      assert ws[i] in ws;
    }
  }

  // And the nodes' reports do it: pushed one after the other they are all there.
  function PushReports(reports: seq<Result>): seq<Result> {
    if reports == [] then [] else PushReport(PushReports(reports[..|reports| - 1]), reports[|reports| - 1])
  }

  lemma {:induction false} ReportsAreKept(reports: seq<Result>)
    requires DistinctKeys(reports)
    ensures PushReports(reports) == reports
  {
    if reports == [] {
    } else {
      var init, last := reports[..|reports| - 1], reports[|reports| - 1];
      ReportsAreKept(init);
      LastKeyIsNew(reports);
      NothingToPull(init, KeyOf(last));
      assert init + [last] == reports;
    }
  }

  lemma {:induction false} NothingToPull(results: seq<Result>, key: Key)
    requires key !in ResultKeys(results)
    ensures Without(results, key) == results
  {
    if results == [] {
    } else {
      var init, last := results[..|results| - 1], results[|results| - 1];
      KeysOfInit(results);
      NothingToPull(init, key);
      assert results == init + [last];
    }
  }

  lemma KeysOfInit(results: seq<Result>)
    requires results != []
    ensures ResultKeys(results[..|results| - 1]) <= ResultKeys(results)
    ensures KeyOf(results[|results| - 1]) in ResultKeys(results)
  {
    assert results[|results| - 1] in results;
  }

  lemma DeployedOnceAllReported(r: Reservation)
    requires DistinctWorkloads(r.Workloads()) && forall w | w in r.Workloads() :: w.node != ""
    ensures r.(results := PushReports(OkReports(r.Workloads()))).IsSuccessfullyDeployed()
  {
    DeployedByReports(r);
    ReportsAreKept(OkReports(r.Workloads()));
  }

  // The exception to lazy evaluation: a reservation that is late but completed after all is as it was,
  // unless it was evaluated, and the result stored, while it was late.
  lemma LateCompletionIsLost(t1: int, t2: int, r: Reservation)
    requires t1 <= t2 && r.action == Pay && r.results == [] && r.provisioning < t1
    requires !r.Expired(t2) && !r.DeleteQuorum() && r.Workloads() != []
    requires DistinctWorkloads(r.Workloads()) && forall w | w in r.Workloads() :: w.node != ""
    ensures var completed := r.(results := OkReports(r.Workloads()));
            Derive(t2, completed) == Pay && Derive(t2, completed.(action := Derive(t1, r))) == Delete
  {
    var completed := r.(results := OkReports(r.Workloads()));
    assert completed.Workloads() == r.Workloads();
    DeployedByReports(r);
  }

  // ---------- What validation lets through ----------

  // Whatever the networks are, the check does not look at them.
  lemma ValidateIgnoresNetworks(data: Data, networks: seq<NetworkItem>)
    ensures CheckedItems(data.(networks := networks)) == CheckedItems(data)
  {
  }

  function GwidsOf(ws: seq<Workload>): (ids: seq<Gwid>)
    ensures |ids| == |ws| && forall i | 0 <= i < |ws| :: ids[i] == ws[i].id
  {
    seq(|ws|, i requires 0 <= i < |ws| => ws[i].id)
  }

  function Gwids(rid: int, ids: seq<int>): (gwids: seq<Gwid>)
    ensures |gwids| == |ids| && forall i | 0 <= i < |ids| :: gwids[i] == Gwid(rid, ids[i])
  {
    seq(|ids|, i requires 0 <= i < |ids| => Gwid(rid, ids[i]))
  }

  // The workloads that are not network resources, and those that are.
  function Checked(rid: int, data: Data): seq<Workload> {
    AllWorkloads(rid, data.(networks := []))
  }

  lemma Split(rid: int, data: Data)
    ensures AllWorkloads(rid, data) == Checked(rid, data) + Tag(rid, Network, Resources(data.networks))
  {
    assert Tag(rid, Network, Resources([])) == [];
  }

  lemma CheckedIds(rid: int, data: Data)
    ensures GwidsOf(Checked(rid, data)) == Gwids(rid, Ids(CheckedItems(data)))
  {
    var d := data.(networks := []);
    assert Resources(d.networks) == [];
    Join(rid, Tag(rid, Container, d.containers), d.containers, Tag(rid, Volume, d.volumes), d.volumes);
    var ws, items := Tag(rid, Container, d.containers) + Tag(rid, Volume, d.volumes), d.containers + d.volumes;
    Join(rid, ws, items, Tag(rid, ZDB, d.zdbs), d.zdbs);
    ws, items := ws + Tag(rid, ZDB, d.zdbs), items + d.zdbs;
    Join(rid, ws, items, Tag(rid, Kubernetes, d.kubernetes), d.kubernetes);
    ws, items := ws + Tag(rid, Kubernetes, d.kubernetes), items + d.kubernetes;
    Join(rid, ws, items, Tag(rid, Proxy, d.proxies), d.proxies);
    ws, items := ws + Tag(rid, Proxy, d.proxies), items + d.proxies;
    Join(rid, ws, items, Tag(rid, ReverseProxy, d.reverseProxies), d.reverseProxies);
    ws, items := ws + Tag(rid, ReverseProxy, d.reverseProxies), items + d.reverseProxies;
    Join(rid, ws, items, Tag(rid, SubDomain, d.subdomains), d.subdomains);
    ws, items := ws + Tag(rid, SubDomain, d.subdomains), items + d.subdomains;
    Join(rid, ws, items, Tag(rid, DomainDelegate, d.domainDelegates), d.domainDelegates);
    ws, items := ws + Tag(rid, DomainDelegate, d.domainDelegates), items + d.domainDelegates;
    Join(rid, ws, items, Tag(rid, Gateway4To6, d.gateways), d.gateways);
    assert Tag(rid, Network, Resources(d.networks)) == [];
    assert Checked(rid, data) == ws + Tag(rid, Gateway4To6, d.gateways);
  }

  lemma Join(rid: int, ws: seq<Workload>, items: seq<Item>, more: seq<Workload>, added: seq<Item>)
    requires GwidsOf(ws) == Gwids(rid, Ids(items)) && GwidsOf(more) == Gwids(rid, Ids(added))
    ensures GwidsOf(ws + more) == Gwids(rid, Ids(items + added))
  {
  }

  // In a validated reservation all keys are distinct if and only if those of the network resources
  // are, among themselves and from all others. Without networks they are.
  lemma ValidatedIsDistinctIff(rid: int, data: Data)
    requires Distinct(Ids(CheckedItems(data)))
    ensures var networks := Tag(rid, Network, Resources(data.networks));
            DistinctWorkloads(AllWorkloads(rid, data)) <==>
              DistinctWorkloads(networks) &&
              forall u, v | u in Checked(rid, data) && v in networks :: !(u.id == v.id && u.node == v.node)
  {
    var ws, networks := Checked(rid, data), Tag(rid, Network, Resources(data.networks));
    Split(rid, data);
    CheckedIds(rid, data);
    forall i, j | 0 <= i < j < |ws|
      ensures ws[i].id != ws[j].id
    {
      assert GwidsOf(ws)[i] != GwidsOf(ws)[j];
    }
    assert DistinctWorkloads(ws);
    DistinctConcat(ws, networks);
  }

  lemma DistinctConcat(u: seq<Workload>, v: seq<Workload>)
    requires DistinctWorkloads(u)
    ensures DistinctWorkloads(u + v) <==>
              DistinctWorkloads(v) && forall x, y | x in u && y in v :: !(x.id == y.id && x.node == y.node)
  {
    if DistinctWorkloads(u + v) {
      forall i, j | 0 <= i < j < |v|
        ensures !(v[i].id == v[j].id && v[i].node == v[j].node)
      {
        assert (u + v)[|u| + i] == v[i] && (u + v)[|u| + j] == v[j];
      }
      forall x, y | x in u && y in v
        ensures !(x.id == y.id && x.node == y.node)
      {
        var i :| 0 <= i < |u| && u[i] == x;
        var j :| 0 <= j < |v| && v[j] == y;
        assert (u + v)[i] == x && (u + v)[|u| + j] == y;
      }
    }
  }

  // Two resources of one network on one node: whatever the other networks and workloads are,
  // validation accepts them as before, and no reports will ever make the reservation deployed ...
  lemma TwiceOnOneNode(r: Reservation, k: nat, i: nat, j: nat)
    requires k < |r.data.networks| && i < j < |r.data.networks[k].nodes|
    requires r.data.networks[k].nodes[i] == r.data.networks[k].nodes[j]
    ensures ValidButStuck(r)
  {
    var networks := r.data.networks;
    Slot(networks, k, i);
    Slot(networks, k, j);
    SameItems(r.id, Resources(networks), |Resources(networks[..k])| + i, |Resources(networks[..k])| + j);
    NeverDeployed(r);
  }

  // ... and so it is with two networks under one id that have a node in common.
  lemma TwoUnderOneId(r: Reservation, k: nat, l: nat, i: nat, j: nat)
    requires k < l < |r.data.networks| && r.data.networks[k].workload == r.data.networks[l].workload
    requires i < |r.data.networks[k].nodes| && j < |r.data.networks[l].nodes|
    requires r.data.networks[k].nodes[i] == r.data.networks[l].nodes[j]
    ensures ValidButStuck(r)
  {
    var networks := r.data.networks;
    Slot(networks, k, i);
    Slot(networks, l, j);
    Slot(networks[..l], k, i);
    assert networks[..l][..k] == networks[..k];
    SameItems(r.id, Resources(networks), |Resources(networks[..k])| + i, |Resources(networks[..l])| + j);
    NeverDeployed(r);
  }

  // Where the resource of a network on its i-th node is listed.
  lemma {:induction false} Slot(networks: seq<NetworkItem>, k: nat, i: nat)
    requires k < |networks| && i < |networks[k].nodes|
    ensures |Resources(networks[..k])| + i < |Resources(networks)|
    ensures Resources(networks)[|Resources(networks[..k])| + i] == Item(networks[k].workload, networks[k].nodes[i])
  {
    var init, last := networks[..|networks| - 1], networks[|networks| - 1];
    assert Resources(networks) == Resources(init) + NetworkItems(last);
    if k == |networks| - 1 {
    } else {
      assert init[..k] == networks[..k];
      Slot(init, k, i);
    }
  }

  // Validation decides as if there were no networks, yet the reservation can never be deployed.
  ghost predicate ValidButStuck(r: Reservation) {
    && (Distinct(Ids(CheckedItems(r.data))) <==> Distinct(Ids(CheckedItems(r.data.(networks := [])))))
    && forall results | ResultsOk(r.Workloads(), results) :: !r.(results := results).IsSuccessfullyDeployed()
  }

  lemma NeverDeployed(r: Reservation)
    requires !DistinctWorkloads(Tag(r.id, Network, Resources(r.data.networks)))
    ensures ValidButStuck(r)
  {
    Split(r.id, r.data);
    NotDistinct(Checked(r.id, r.data), Tag(r.id, Network, Resources(r.data.networks)));
    CanDeployIff(r);
    ValidateIgnoresNetworks(r.data, []);
  }

  lemma NotDistinct(u: seq<Workload>, v: seq<Workload>)
    requires !DistinctWorkloads(v)
    ensures !DistinctWorkloads(u + v)
  {
    var i, j :| 0 <= i < j < |v| && v[i].id == v[j].id && v[i].node == v[j].node;
    assert (u + v)[|u| + i] == v[i] && (u + v)[|u| + j] == v[j];
  }

  lemma SameItems(rid: int, items: seq<Item>, i: nat, j: nat)
    requires i < j < |items| && items[i] == items[j]
    ensures !DistinctWorkloads(Tag(rid, Network, items))
  {
    var ws := Tag(rid, Network, items);
    assert ws[i].id == ws[j].id && ws[i].node == ws[j].node;
  }
}
