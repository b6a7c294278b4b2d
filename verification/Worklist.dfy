/**
 Scanning a list that grows while it is scanned: whatever an entry leads to is appended to the list,
 and scanned in turn.
 */
module Worklist {
  import opened Collections

  // What the scan of an entry appends.
  type Graph<R> = map<R, seq<R>>

  function Routes<R(!new)>(graph: Graph<R>, r: R): seq<R> {
    if r in graph then graph[r] else []
  }

  // What the scan of a whole list appends.
  function AllRoutes<R(!new)>(graph: Graph<R>, ranges: seq<R>): seq<R> {
    if ranges == [] then []
    else AllRoutes(graph, ranges[..|ranges| - 1]) + Routes(graph, ranges[|ranges| - 1])
  }

  // What is reached in exactly k steps, and in fewer than k.
  function Round<R(!new)>(graph: Graph<R>, initial: seq<R>, k: nat): seq<R> {
    if k == 0 then initial else AllRoutes(graph, Round(graph, initial, k - 1))
  }

  function Rounds<R(!new)>(graph: Graph<R>, initial: seq<R>, k: nat): seq<R> {
    if k == 0 then [] else initial + AllRoutes(graph, Rounds(graph, initial, k - 1))
  }

  // x can be reached from an initial range in k steps.
  ghost predicate Reached<R(!new)>(graph: Graph<R>, initial: seq<R>, k: nat, x: R) {
    if k == 0 then x in initial else exists r :: Reached(graph, initial, k - 1, r) && x in Routes(graph, r)
  }

  // A walk along the routes, and one that comes back to where it started.
  predicate IsPath<R(!new)>(graph: Graph<R>, path: seq<R>) {
    forall i | 0 <= i < |path| - 1 :: path[i + 1] in Routes(graph, path[i])
  }

  predicate IsCycle<R(!new)>(graph: Graph<R>, path: seq<R>) {
    |path| > 1 && IsPath(graph, path) && path[0] == path[|path| - 1]
  }

  // No range that can be reached from the initial ones can be reached again from itself.
  ghost predicate Acyclic<R(!new)>(graph: Graph<R>, initial: seq<R>) {
    forall k, path | IsCycle(graph, path) :: !Reached(graph, initial, k, path[0])
  }

  // No round beyond this one can be reached without a cycle.
  function Depth<R(!new)>(graph: Graph<R>): nat { |graph.Keys| + 1 }

  // The finished list: all rounds one after the other.
  function Extended<R(!new)>(graph: Graph<R>, initial: seq<R>): seq<R> {
    Rounds(graph, initial, Depth(graph))
  }

  // ---------- Lists ----------

  lemma {:induction false} AllRoutesConcat<R(!new)>(graph: Graph<R>, a: seq<R>, b: seq<R>)
    ensures AllRoutes(graph, a + b) == AllRoutes(graph, a) + AllRoutes(graph, b)
  {
    if b == [] {
      assert a + b == a;
    } else {
      var init, last := b[..|b| - 1], b[|b| - 1];
      assert (a + b)[..|a + b| - 1] == a + init;
      AllRoutesConcat(graph, a, init);
    }
  }

  lemma AllRoutesPrefix<R(!new)>(graph: Graph<R>, a: seq<R>, b: seq<R>)
    requires a <= b
    ensures AllRoutes(graph, a) <= AllRoutes(graph, b)
  {
    assert b == a + b[|a|..];
    AllRoutesConcat(graph, a, b[|a|..]);
  }

  lemma {:induction false} Predecessor<R(!new)>(graph: Graph<R>, ranges: seq<R>, x: R) returns (r: R)
    requires x in AllRoutes(graph, ranges)
    ensures r in ranges && x in Routes(graph, r)
  {
    r := ranges[|ranges| - 1];
    if x !in Routes(graph, r) {
      r := Predecessor(graph, ranges[..|ranges| - 1], x);
    }
  }

  lemma {:induction false} Successor<R(!new)>(graph: Graph<R>, ranges: seq<R>, r: R, x: R)
    requires r in ranges && x in Routes(graph, r)
    ensures x in AllRoutes(graph, ranges)
  {
    if r != ranges[|ranges| - 1] {
      Successor(graph, ranges[..|ranges| - 1], r, x);
    }
  }

  // The list grows by whole rounds.
  lemma {:induction false} OneMoreRound<R(!new)>(graph: Graph<R>, initial: seq<R>, k: nat)
    ensures Rounds(graph, initial, k + 1) == Rounds(graph, initial, k) + Round(graph, initial, k)
  {
    if k == 0 {
      assert Rounds(graph, initial, 1) == initial + AllRoutes(graph, Rounds(graph, initial, 0));
    } else {
      OneMoreRound(graph, initial, k - 1);
      RoutesOfBoth(graph, initial, Rounds(graph, initial, k - 1), Round(graph, initial, k - 1));
    }
  }

  lemma RoutesOfBoth<R(!new)>(graph: Graph<R>, initial: seq<R>, a: seq<R>, b: seq<R>)
    ensures initial + AllRoutes(graph, a + b) == initial + AllRoutes(graph, a) + AllRoutes(graph, b)
  {
    AllRoutesConcat(graph, a, b);
    Assoc(initial, AllRoutes(graph, a), AllRoutes(graph, b));
  }

  lemma {:induction false} RoundIsReached<R(!new)>(graph: Graph<R>, initial: seq<R>, k: nat, x: R)
    requires x in Round(graph, initial, k)
    ensures Reached(graph, initial, k, x)
  {
    if k == 0 {
    } else {
      var r := Predecessor(graph, Round(graph, initial, k - 1), x);
      RoundIsReached(graph, initial, k - 1, r);
    }
  }

  lemma {:induction false} ReachedIsRound<R(!new)>(graph: Graph<R>, initial: seq<R>, k: nat, x: R)
    requires Reached(graph, initial, k, x)
    ensures x in Round(graph, initial, k)
  {
    if k == 0 {
    } else {
      var r :| Reached(graph, initial, k - 1, r) && x in Routes(graph, r);
      ReachedIsRound(graph, initial, k - 1, r);
      Successor(graph, Round(graph, initial, k - 1), r, x);
    }
  }

  // Closed under the routes, with the initial ranges in front.
  predicate Closed<R(!new)>(graph: Graph<R>, initial: seq<R>, list: seq<R>) {
    list == initial + AllRoutes(graph, list)
  }

  // All rounds are in every closed list.
  lemma {:induction false} RoundsAreLeast<R(!new)>(graph: Graph<R>, initial: seq<R>, k: nat, list: seq<R>)
    requires Closed(graph, initial, list)
    ensures Rounds(graph, initial, k) <= list
  {
    if k == 0 {
    } else {
      RoundsAreLeast(graph, initial, k - 1, list);
      StaysInside(graph, initial, Rounds(graph, initial, k - 1), list);
    }
  }

  lemma StaysInside<R(!new)>(graph: Graph<R>, initial: seq<R>, before: seq<R>, list: seq<R>)
    requires Closed(graph, initial, list) && before <= list
    ensures initial + AllRoutes(graph, before) <= list
  {
    AllRoutesPrefix(graph, before, list);
    PrefixAfter(initial, AllRoutes(graph, before), AllRoutes(graph, list));
  }

  lemma PrefixAfter<T>(a: seq<T>, b: seq<T>, c: seq<T>)
    requires b <= c
    ensures a + b <= a + c
  {
  }

  // ---------- The scan ends exactly when there is no cycle ----------

  lemma {:induction false} PathClimbs<R(!new)>(graph: Graph<R>, initial: seq<R>, path: seq<R>, k: nat, i: nat)
    requires IsPath(graph, path) && i < |path| && Reached(graph, initial, k, path[0])
    ensures Reached(graph, initial, k + i, path[i])
  {
    if i == 0 {
    } else {
      PathClimbs(graph, initial, path, k, i - 1);
      assert path[i - 1 + 1] in Routes(graph, path[i - 1]);
    }
  }

  lemma {:induction false} ReachedBefore<R(!new)>(graph: Graph<R>, initial: seq<R>, k: nat, n: nat, x: R) returns (r: R)
    requires k <= n && Reached(graph, initial, n, x)
    ensures Reached(graph, initial, k, r)
  {
    r := x;
    if k == n {
    } else {
      r :| Reached(graph, initial, n - 1, r) && x in Routes(graph, r);
      r := ReachedBefore(graph, initial, k, n - 1, r);
    }
  }

  // Going round a cycle never ends: something is reached in any number of steps.
  lemma {:induction false} CycleGoesOn<R(!new)>(graph: Graph<R>, initial: seq<R>, path: seq<R>, k: nat, n: nat)
    returns (x: R)
    requires IsCycle(graph, path) && Reached(graph, initial, k, path[0])
    ensures Reached(graph, initial, n, x)
    decreases n - k
  {
    if n <= k {
      x := ReachedBefore(graph, initial, n, k, path[0]);
    } else {
      PathClimbs(graph, initial, path, k, |path| - 1);
      x := CycleGoesOn(graph, initial, path, k + |path| - 1, n);
    }
  }

  // A path whose i-th range is reached in i steps.
  ghost predicate IsTrail<R(!new)>(graph: Graph<R>, initial: seq<R>, path: seq<R>) {
    && (forall i | 0 <= i < |path| :: Reached(graph, initial, i, path[i]))
    && IsPath(graph, path)
  }

  lemma LongerTrail<R(!new)>(graph: Graph<R>, initial: seq<R>, path: seq<R>, r: R, x: R)
    requires path != [] && path[|path| - 1] == r && IsTrail(graph, initial, path)
    requires x in Routes(graph, r) && Reached(graph, initial, |path|, x)
    ensures IsTrail(graph, initial, path + [x])
  {
    var longer := path + [x];
    forall i | 0 <= i < |longer|
      ensures Reached(graph, initial, i, longer[i])
    {
      assert i < |path| ==> longer[i] == path[i];
    }
    forall i | 0 <= i < |longer| - 1
      ensures longer[i + 1] in Routes(graph, longer[i])
    {
      assert longer[i] == path[i] && (i < |path| - 1 ==> longer[i + 1] == path[i + 1]);
    }
  }

  lemma {:induction false} TrailTo<R(!new)>(graph: Graph<R>, initial: seq<R>, k: nat, x: R) returns (path: seq<R>)
    requires Reached(graph, initial, k, x)
    ensures |path| == k + 1 && path[k] == x && IsTrail(graph, initial, path)
  {
    if k == 0 {
      path := [x];
    } else {
      var r :| Reached(graph, initial, k - 1, r) && x in Routes(graph, r);
      path := TrailTo(graph, initial, k - 1, r);
      LongerTrail(graph, initial, path, r, x);
      path := path + [x];
    }
  }

  lemma {:induction false} Pigeonhole<T>(s: seq<T>, holes: set<T>) returns (i: nat, j: nat)
    requires (forall x | x in s :: x in holes) && |holes| < |s|
    ensures i < j < |s| && s[i] == s[j]
    decreases |s|
  {
    var init, last := s[..|s| - 1], s[|s| - 1];
    if last in init {
      i :| 0 <= i < |init| && init[i] == last;
      j := |s| - 1;
    } else {
      i, j := Pigeonhole(init, holes - {last});
    }
  }

  // A path longer than there are ranges with anything behind them visits one of them twice.
  lemma LongPathCycles<R(!new)>(graph: Graph<R>, initial: seq<R>, x: R) returns (i: nat, cycle: seq<R>)
    requires Reached(graph, initial, Depth(graph), x)
    ensures IsCycle(graph, cycle) && Reached(graph, initial, i, cycle[0])
  {
    var path := TrailTo(graph, initial, Depth(graph), x);
    var j: nat;
    i, j := RevisitedRange(graph, path);
    cycle := path[i..j + 1];
    PartOfPath(graph, path, i, j + 1);
  }

  lemma RevisitedRange<R(!new)>(graph: Graph<R>, path: seq<R>) returns (i: nat, j: nat)
    requires IsPath(graph, path) && |path| == Depth(graph) + 1
    ensures i < j < |path| && path[i] == path[j]
  {
    var n := |path| - 1;
    forall r | r in path[..n]
      ensures r in graph.Keys
    {
      var k :| 0 <= k < n && path[k] == r;
      assert path[k + 1] in Routes(graph, path[k]);
    }
    i, j := Pigeonhole(path[..n], graph.Keys);
  }

  lemma PartOfPath<R(!new)>(graph: Graph<R>, path: seq<R>, i: nat, j: nat)
    requires i <= j <= |path| && IsPath(graph, path)
    ensures IsPath(graph, path[i..j])
  {
    forall k | 0 <= k < j - i - 1
      ensures path[i..j][k + 1] in Routes(graph, path[i..j][k])
    {
      assert path[i + k + 1] in Routes(graph, path[i + k]);
    }
  }

  // The rounds run out, and do so by round Depth, exactly when no cycle can be reached.
  lemma RunsOutIffAcyclic<R(!new)>(graph: Graph<R>, initial: seq<R>)
    ensures Acyclic(graph, initial) <==> Round(graph, initial, Depth(graph)) == []
    ensures Acyclic(graph, initial) <==> exists list :: Closed(graph, initial, list)
  {
    var n := Depth(graph);
    if Round(graph, initial, n) != [] {
      var x := Round(graph, initial, n)[0];
      RoundIsReached(graph, initial, n, x);
      var i, cycle := LongPathCycles(graph, initial, x);
    } else {
      forall k, path | IsCycle(graph, path)
        ensures !Reached(graph, initial, k, path[0])
      {
        if Reached(graph, initial, k, path[0]) {
          var x := CycleGoesOn(graph, initial, path, k, n);
          ReachedIsRound(graph, initial, n, x);
        }
      }
      ExtendedIsClosed(graph, initial);
    }
    if list :| Closed(graph, initial, list) {
      ClosedRunsOut(graph, initial, list);
    }
  }

  lemma ExtendedIsClosed<R(!new)>(graph: Graph<R>, initial: seq<R>)
    requires Round(graph, initial, Depth(graph)) == []
    ensures Closed(graph, initial, Extended(graph, initial))
  {
    OneMoreRound(graph, initial, Depth(graph));
  }

  // Rounds that never run out do not fit into any finite list.
  lemma ClosedRunsOut<R(!new)>(graph: Graph<R>, initial: seq<R>, list: seq<R>)
    requires Closed(graph, initial, list)
    ensures Round(graph, initial, Depth(graph)) == []
  {
    var n := Depth(graph);
    if Round(graph, initial, n) != [] {
      var x := Round(graph, initial, n)[0];
      RoundIsReached(graph, initial, n, x);
      var i, cycle := LongPathCycles(graph, initial, x);
      forall k: nat
        ensures Round(graph, initial, k) != []
      {
        var y := CycleGoesOn(graph, initial, cycle, i, k);
        ReachedIsRound(graph, initial, k, y);
      }
      RoundsOutgrow(graph, initial, |list| + 1);
      RoundsAreLeast(graph, initial, |list| + 1, list);
    }
  }

  lemma {:induction false} RoundsOutgrow<R(!new)>(graph: Graph<R>, initial: seq<R>, k: nat)
    requires forall i: nat :: Round(graph, initial, i) != []
    ensures |Rounds(graph, initial, k)| >= k
  {
    if k == 0 {
    } else {
      RoundsOutgrow(graph, initial, k - 1);
      OneMoreRound(graph, initial, k - 1);
    }
  }

  // ---------- The scan ----------

  // Scanning one more entry cannot leave the finished list.
  lemma Scanned<R(!new)>(graph: Graph<R>, initial: seq<R>, list: seq<R>, allowed: seq<R>, i: nat)
    requires Closed(graph, initial, list)
    requires i < |allowed| && allowed <= list && allowed == initial + AllRoutes(graph, allowed[..i])
    ensures var more := allowed + Routes(graph, allowed[i]);
            more <= list && more == initial + AllRoutes(graph, more[..i + 1])
  {
    ScanOne(graph, initial, allowed, i);
    StaysInside(graph, initial, allowed[..i + 1], list);
    assert (allowed + Routes(graph, allowed[i]))[..i + 1] == allowed[..i + 1];
  }

  lemma ScanOne<R(!new)>(graph: Graph<R>, initial: seq<R>, allowed: seq<R>, i: nat)
    requires i < |allowed|
    ensures initial + AllRoutes(graph, allowed[..i]) + Routes(graph, allowed[i])
         == initial + AllRoutes(graph, allowed[..i + 1])
  {
    assert allowed[..i + 1][..i] == allowed[..i];
    Assoc(initial, AllRoutes(graph, allowed[..i]), Routes(graph, allowed[i]));
  }

  // ---------- What is on the list ----------

  // Everything on the list is reachable: it is in every set that holds the initial ranges and what
  // is behind its members.
  lemma {:induction false} OnlyReachable<R(!new)>(graph: Graph<R>, initial: seq<R>, k: nat, all: iset<R>)
    requires forall r | r in initial :: r in all
    requires forall r, x | r in all && x in Routes(graph, r) :: x in all
    ensures forall x | x in Rounds(graph, initial, k) :: x in all
  {
    if k == 0 {
    } else {
      OnlyReachable(graph, initial, k - 1, all);
      forall x | x in Rounds(graph, initial, k)
        ensures x in all
      {
        if x !in initial {
          var r := Predecessor(graph, Rounds(graph, initial, k - 1), x);
        }
      }
    }
  }

  // The finished list starts with the initial ranges and has, for every range on it, the subnets
  // behind that range and their WireGuard addresses.
  lemma ExtendedRoutesEverything<R(!new)>(graph: Graph<R>, initial: seq<R>, r: R, x: R)
    requires Acyclic(graph, initial)
    ensures initial <= Extended(graph, initial)
    ensures r in Extended(graph, initial) && x in Routes(graph, r) ==> x in Extended(graph, initial)
  {
    RunsOutIffAcyclic(graph, initial);
    ExtendedIsClosed(graph, initial);
    if r in Extended(graph, initial) && x in Routes(graph, r) {
      Successor(graph, Extended(graph, initial), r, x);
    }
  }

  // ---------- One entry with routes ----------

  lemma OneStep<R(!new)>(r: R, next: seq<R>, initial: seq<R>)
    ensures Extended(map[r := next], initial) == initial + AllRoutes(map[r := next], initial)
  {
    var graph := map[r := next];
    assert graph.Keys == {r};
    assert Rounds(graph, initial, 1) == initial + AllRoutes(graph, []) == initial;
    assert Rounds(graph, initial, 2) == initial + AllRoutes(graph, Rounds(graph, initial, 1));
  }

  lemma SecondRound<R(!new)>(r: R, next: seq<R>, initial: seq<R>)
    ensures Round(map[r := next], initial, 2) != [] ==> r in initial && r in next
  {
    var graph := map[r := next];
    var first := AllRoutes(graph, initial);
    assert Round(graph, initial, 1) == first;
    var second := AllRoutes(graph, first);
    if second != [] {
      var q := Predecessor(graph, first, second[0]);
      var p := Predecessor(graph, initial, r);
    }
  }

  // When only r has routes, the scan of a list never ends exactly when the list has r, and r leads
  // to itself.
  lemma SingleRouteAcyclic<R(!new)>(r: R, next: seq<R>, initial: seq<R>)
    ensures Acyclic(map[r := next], initial) <==> !(r in initial && r in next)
  {
    var graph := map[r := next];
    if r in initial && r in next {
      assert IsCycle(graph, [r, r]) && Reached(graph, initial, 0, [r, r][0]);
    } else {
      assert graph.Keys == {r} && Depth(graph) == 2;
      SecondRound(r, next, initial);
      RunsOutIffAcyclic(graph, initial);
    }
  }
}
