/** The allowed addresses of a peer: everything reachable through the ranges it starts with. */
module AllowedIPs {
  import opened Addresses
  import opened Worklist

  // The subnets behind a range. The source's keys are printed ranges; a missing node prints as nil.
  type External = map<Option<IPRange>, seq<IPRange>>

  // Every subnet is followed by its WireGuard address.
  function WithWg(subnets: seq<IPRange>): seq<IPRange> {
    if subnets == [] then []
    else
      var last := subnets[|subnets| - 1];
      WithWg(subnets[..|subnets| - 1]) + [last, WgIP(last)]
  }

  function Behind(external: External, range: IPRange): seq<IPRange> {
    if Some(range) in external then external[Some(range)] else []
  }

  function Ranges(external: External): set<IPRange> {
    set key | key in external && key.Some? :: key.value
  }

  function GraphOf(external: External): Graph<IPRange> {
    map range | range in Ranges(external) :: WithWg(external[Some(range)])
  }

  // The inner loop: every subnet and its WireGuard address.
  method Append(allowed: seq<IPRange>, subnets: seq<IPRange>) returns (more: seq<IPRange>)
    ensures more == allowed + WithWg(subnets)
  {
    more := allowed;
    for j := 0 to |subnets|
      invariant more == allowed + WithWg(subnets[..j])
    {
      assert subnets[..j + 1][..j] == subnets[..j];
      more := more + [subnets[j]];
      more := more + [WgIP(subnets[j])];
    }
    assert subnets[..|subnets|] == subnets;
  }

  lemma RoutesAreBehind(external: External, range: IPRange)
    ensures Routes(GraphOf(external), range) == WithWg(Behind(external, range))
  {
    assert range in Ranges(external) <==> Some(range) in external;
  }

  // The loop that appends to the list it scans. It ends for exactly the arguments its requires
  // admits: it can only end with a closed list, and there is one only if there is no cycle.
  method Extend(external: External, initial: seq<IPRange>) returns (allowed: seq<IPRange>)
    requires Acyclic(GraphOf(external), initial)
    ensures allowed == Extended(GraphOf(external), initial)
    ensures Closed(GraphOf(external), initial, allowed)
  {
    ghost var graph := GraphOf(external);
    ghost var list := Extended(graph, initial);
    RunsOutIffAcyclic(graph, initial);
    ExtendedIsClosed(graph, initial);
    allowed := initial;
    var i := 0;
    while i < |allowed|
      invariant 0 <= i <= |allowed| && allowed <= list
      invariant allowed == initial + AllRoutes(graph, allowed[..i])
      decreases |list| - i
    {
      Scanned(graph, initial, list, allowed, i);
      RoutesAreBehind(external, allowed[i]);
      allowed := Append(allowed, Behind(external, allowed[i]));
      i := i + 1;
    }
    assert allowed[..i] == allowed;
    RoundsAreLeast(graph, initial, Depth(graph), allowed);
  }
}
