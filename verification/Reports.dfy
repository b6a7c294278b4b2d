/** Results reported by the nodes, and when they amount to a deployment. */
module Reports {
  import opened Collections
  import opened Workloads
  import opened Pipeline

  datatype Key = Key(id: Gwid, node: NodeId)

  function KeyOf(r: Result): Key { Key(r.id, r.node) }

  function WorkloadKeys(ws: seq<Workload>): set<Key> {
    set w | w in ws :: Key(w.id, w.node)
  }

  function ResultKeys(results: seq<Result>): set<Key> {
    set r | r in results :: KeyOf(r)
  }

  predicate DistinctKeys(results: seq<Result>) {
    forall i, j | 0 <= i < j < |results| :: KeyOf(results[i]) != KeyOf(results[j])
  }

  // A node reports under the key of one of its workloads. A delete can also leave a node-less
  // entry, which is in state Removed.
  predicate WellKeyed(ws: seq<Workload>, r: Result) {
    if r.node == "" then r.state == Removed else KeyOf(r) in WorkloadKeys(ws)
  }

  predicate ResultsOk(ws: seq<Workload>, results: seq<Result>) {
    DistinctKeys(results) && forall i | 0 <= i < |results| :: WellKeyed(ws, results[i])
  }

  // ---------- Pushing ----------

  function Without(results: seq<Result>, key: Key): seq<Result> {
    if results == [] then []
    else
      var last := results[|results| - 1];
      Without(results[..|results| - 1], key) + if KeyOf(last) == key then [] else [last]
  }

  // ResultPush: the old result under this key is pulled, the new one pushed.
  function PushReport(results: seq<Result>, r: Result): seq<Result> {
    Without(results, KeyOf(r)) + [r]
  }

  // It is the last one, and the others are those of other nodes and other workloads.
  lemma PushReplaces(results: seq<Result>, r: Result)
    ensures var pushed := PushReport(results, r);
            pushed[|pushed| - 1] == r &&
            forall x :: x in pushed[..|pushed| - 1] <==> x in results && (x.id != r.id || x.node != r.node)
  {
    WithoutMembers(results, KeyOf(r));
  }

  lemma {:induction false} WithoutMembers(results: seq<Result>, key: Key)
    ensures forall r :: r in Without(results, key) <==> r in results && KeyOf(r) != key
    ensures DistinctKeys(results) ==> DistinctKeys(Without(results, key))
  {
    if results == [] {
    } else {
      var init, last := results[..|results| - 1], results[|results| - 1];
      WithoutMembers(init, key);
      assert results == init + [last];
      if DistinctKeys(results) {
        forall r | r in init
          ensures KeyOf(r) != KeyOf(last)
        {
          var i :| 0 <= i < |init| && init[i] == r;
          assert KeyOf(results[i]) != KeyOf(results[|results| - 1]);
        }
      }
    }
  }

  lemma PushKeepsResultsOk(ws: seq<Workload>, results: seq<Result>, r: Result)
    requires ResultsOk(ws, results) && WellKeyed(ws, r)
    ensures ResultsOk(ws, PushReport(results, r))
  {
    WithoutMembers(results, KeyOf(r));
    var kept := Without(results, KeyOf(r));
    forall i | 0 <= i < |kept|
      ensures WellKeyed(ws, kept[i]) && KeyOf(kept[i]) != KeyOf(r)
    {
      assert kept[i] in kept;
      var k :| 0 <= k < |results| && results[k] == kept[i];
    }
  }

  // ---------- Reading ----------

  // ResultOf: the first result of a workload, on whatever node.
  function FirstResult(results: seq<Result>, id: Gwid): (found: seq<Result>)
    ensures |found| <= 1
    ensures found == [] <==> forall r | r in results :: r.id != id
    ensures found != [] ==> found[0] in results && found[0].id == id
  {
    if results == [] then []
    else if results[0].id == id then [results[0]]
    else FirstResult(results[1..], id)
  }

  // There is none, or the one at i is the first.
  predicate IsFirst(results: seq<Result>, id: Gwid, i: nat)
    requires i < |results|
  {
    results[i].id == id && forall j | 0 <= j < i :: results[j].id != id
  }

  lemma {:induction false} FirstIsFirst(results: seq<Result>, id: Gwid) returns (i: nat)
    requires FirstResult(results, id) != []
    ensures i < |results| && IsFirst(results, id, i) && FirstResult(results, id) == [results[i]]
  {
    if results[0].id == id {
      i := 0;
    } else {
      var k := FirstIsFirst(results[1..], id);
      i := k + 1;
      forall j | 0 <= j < i
        ensures results[j].id != id
      {
        assert j > 0 ==> results[1..][j - 1] == results[j];
      }
    }
  }

  lemma {:induction false} FirstConcat(results: seq<Result>, r: Result, id: Gwid)
    ensures FirstResult(results + [r], id)
         == if FirstResult(results, id) != [] then FirstResult(results, id) else if r.id == id then [r] else []
  {
    if results == [] {
      assert [] + [r] == [r] && [r][1..] == [];
    } else {
      assert (results + [r])[1..] == results[1..] + [r];
      FirstConcat(results[1..], r, id);
    }
  }

  // After a removal the workload reads as removed if and only if no other node has an earlier result
  // under its id, or that is a removal, too.
  lemma RemovalIsReadIff(results: seq<Result>, id: Gwid)
    ensures var removal := RemovalOf(results, id);
            var others := FirstResult(Without(results, KeyOf(removal)), id);
            IsRemoved(PushReport(results, removal), id) <==> others == [] || others[0].state == Removed
  {
    var removal := RemovalOf(results, id);
    FirstConcat(Without(results, KeyOf(removal)), removal, id);
  }

  // So it does when one node alone reports it.
  lemma RemovalIsRead(results: seq<Result>, id: Gwid, node: NodeId)
    requires forall r | r in results && r.id == id :: r.node == node
    ensures IsRemoved(PushReport(results, RemovalOf(results, id)), id)
  {
    RemovalIsReadIff(results, id);
    WithoutMembers(results, KeyOf(RemovalOf(results, id)));
  }

  method ResultOf(results: seq<Result>, id: Gwid) returns (found: seq<Result>)
    ensures found == FirstResult(results, id)
    ensures found == [] <==> forall j | 0 <= j < |results| :: results[j].id != id
    ensures found != [] ==> exists i :: 0 <= i < |results| && IsFirst(results, id, i) && found == [results[i]]
  {
    if FirstResult(results, id) != [] {
      ghost var first := FirstIsFirst(results, id);
    }
    for i := 0 to |results|
      invariant FirstResult(results[i..], id) == FirstResult(results, id)
    {
      assert results[i..][1..] == results[i + 1..];
      if results[i].id == id {
        return [results[i]];
      }
    }
    return [];
  }

  predicate IsRemoved(results: seq<Result>, id: Gwid) {
    var found := FirstResult(results, id);
    found != [] && found[0].state == Removed
  }

  predicate AllRemoved(r: Reservation) {
    forall w | w in r.Workloads() :: IsRemoved(r.results, w.id)
  }

  method AllDeleted(r: Reservation) returns (all: bool)
    ensures all == AllRemoved(r)
  {
    var workloads := ListWorkloads(r.id, r.data, "");
    for i := 0 to |workloads|
      invariant forall j | 0 <= j < i :: IsRemoved(r.results, workloads[j].id)
    {
      var result := ResultOf(r.results, workloads[i].id);
      if result == [] || result[0].state != Removed {
        return false;
      }
    }
    return true;
  }

  // What a delete pushes: the result it read, or an empty one, in state Removed.
  function RemovalOf(results: seq<Result>, id: Gwid): Result {
    var found := FirstResult(results, id);
    if found == [] then Result(id, "", Removed) else found[0].(state := Removed)
  }

  lemma RemovalIsWellKeyed(ws: seq<Workload>, results: seq<Result>, id: Gwid)
    requires ResultsOk(ws, results)
    ensures WellKeyed(ws, RemovalOf(results, id)) && RemovalOf(results, id).state == Removed
  {
    var found := FirstResult(results, id);
    if found != [] {
      var k :| 0 <= k < |results| && results[k] == found[0];
    }
  }

  // ---------- Counting is enough ----------

  lemma LastKeyIsNew(results: seq<Result>)
    requires DistinctKeys(results) && results != []
    ensures DistinctKeys(results[..|results| - 1])
    ensures KeyOf(results[|results| - 1]) !in ResultKeys(results[..|results| - 1])
    ensures ResultKeys(results) == ResultKeys(results[..|results| - 1]) + {KeyOf(results[|results| - 1])}
  {
    var init, last := results[..|results| - 1], results[|results| - 1];
    assert results == init + [last];
    forall r | r in init
      ensures KeyOf(r) != KeyOf(last)
    {
      var i :| 0 <= i < |init| && init[i] == r;
      assert KeyOf(results[i]) != KeyOf(results[|results| - 1]);
    }
  }

  lemma {:induction false} DistinctKeysSize(results: seq<Result>)
    requires DistinctKeys(results)
    ensures |ResultKeys(results)| == |results|
  {
    if results == [] {
    } else {
      LastKeyIsNew(results);
      DistinctKeysSize(results[..|results| - 1]);
    }
  }

  lemma {:induction false} WorkloadKeysSize(ws: seq<Workload>)
    ensures |WorkloadKeys(ws)| <= |ws|
  {
    if ws == [] {
    } else {
      var init, last := ws[..|ws| - 1], ws[|ws| - 1];
      WorkloadKeysSize(init);
      assert ws == init + [last];
      assert WorkloadKeys(ws) == WorkloadKeys(init) + {Key(last.id, last.node)};
    }
  }

  lemma FullSubset<T>(few: set<T>, many: set<T>)
    requires few <= many && |few| >= |many|
    ensures few == many
  {
    forall x | x in many
      ensures x in few
    {
      if x !in few {
        SubsetSize(few, many - {x});
      }
    }
  }

  // As many results as workloads, all of them Ok, are one Ok result for every workload: distinct
  // keys among the workloads' keys leave none out.
  lemma DeployedMeansEveryWorkload(r: Reservation, w: Workload)
    requires ResultsOk(r.Workloads(), r.results) && r.IsSuccessfullyDeployed() && w in r.Workloads()
    ensures exists result :: result in r.results && result.state == Ok && result.id == w.id && result.node == w.node
  {
    var ws := r.Workloads();
    EveryKeyReported(r);
    assert Key(w.id, w.node) in WorkloadKeys(ws);
    var result :| result in r.results && KeyOf(result) == Key(w.id, w.node);
  }

  lemma EveryKeyReported(r: Reservation)
    requires ResultsOk(r.Workloads(), r.results) && r.IsSuccessfullyDeployed()
    ensures ResultKeys(r.results) == WorkloadKeys(r.Workloads())
    ensures |r.results| == |r.Workloads()| == |WorkloadKeys(r.Workloads())|
  {
    var ws := r.Workloads();
    forall key | key in ResultKeys(r.results)
      ensures key in WorkloadKeys(ws)
    {
      var result :| result in r.results && KeyOf(result) == key;
      var k :| 0 <= k < |r.results| && r.results[k] == result;
      assert WellKeyed(ws, r.results[k]);
    }
    DistinctKeysSize(r.results);
    WorkloadKeysSize(ws);
    SubsetSize(ResultKeys(r.results), WorkloadKeys(ws));
    FullSubset(ResultKeys(r.results), WorkloadKeys(ws));
  }

  // Two workloads under one id on one node can never be reported as deployed.
  lemma SharedKeyNeverDeploys(r: Reservation, i: nat, j: nat)
    requires ResultsOk(r.Workloads(), r.results)
    requires i < j < |r.Workloads()| && r.Workloads()[i].id == r.Workloads()[j].id &&
             r.Workloads()[i].node == r.Workloads()[j].node
    ensures !r.IsSuccessfullyDeployed()
  {
    if r.IsSuccessfullyDeployed() {
      EveryKeyReported(r);
      SharedKeyIsSpare(r.Workloads(), i, j);
    }
  }

  // With a shared key there are fewer keys than workloads.
  lemma SharedKeyIsSpare(ws: seq<Workload>, i: nat, j: nat)
    requires i < j < |ws| && ws[i].id == ws[j].id && ws[i].node == ws[j].node
    ensures |WorkloadKeys(ws)| < |ws|
  {
    var rest := ws[..i] + ws[i + 1..];
    forall key | key in WorkloadKeys(ws)
      ensures key in WorkloadKeys(rest)
    {
      var w :| w in ws && Key(w.id, w.node) == key;
      var k :| 0 <= k < |ws| && ws[k] == w;
      StaysIn(ws, i, if k == i then j else k);
    }
    WorkloadKeysSize(rest);
    SubsetSize(WorkloadKeys(ws), WorkloadKeys(rest));
  }

  lemma StaysIn(ws: seq<Workload>, i: nat, k: nat)
    requires i < |ws| && k < |ws| && k != i
    ensures ws[k] in ws[..i] + ws[i + 1..]
  {
    assert (ws[..i] + ws[i + 1..])[if k < i then k else k - 1] == ws[k];
  }
}
