/** IPv4 ranges of an overlay network and the WireGuard addresses derived from them. */
module Addresses {
  datatype Option<T> = None | Some(value: T)

  type Octet = x: int | 0 <= x < 256

  datatype IP = IP(a: Octet, b: Octet, c: Octet, d: Octet)

  datatype IPRange = IPRange(ip: IP, ones: nat)

  // An octet under a mask of which n more bits are set: the bits after those are cleared.
  function Keep(x: Octet, n: int): Octet {
    if n <= 0 then 0
    else if n >= 8 then x
    else x - x % [128, 64, 32, 16, 8, 4, 2][n - 1]
  }

  // The address under a mask of that many bits.
  function Masked(ip: IP, ones: nat): IP {
    IP(Keep(ip.a, ones), Keep(ip.b, ones - 8), Keep(ip.c, ones - 16), Keep(ip.d, ones - 24))
  }

  predicate Contains(net: IPRange, ip: IP) {
    Masked(net.ip, net.ones) == Masked(ip, net.ones)
  }

  // 10.3.1.0 gives 100.64.3.1: the middle two octets behind 100.64.
  function WgIP(range: IPRange): IPRange {
    IPRange(IP(100, 64, range.ip.b, range.ip.c), 32)
  }

  // The mask is eight bits longer, and Go makes no mask longer than 32 bits.
  function WgSubnet(net: IPRange): Option<IPRange> {
    if net.ones <= 24 then Some(IPRange(IP(100, 64, net.ip.b, net.ip.c), net.ones + 8)) else None
  }

  // 100.64.0.0/10, the shared address space of section 7 of RFC 6598.
  const CGN := IPRange(IP(100, 64, 0, 0), 10)

  predicate IsCGN(range: IPRange) { Contains(CGN, range.ip) }

  // A network of prefix length at most 24 has a WireGuard subnet. The WireGuard address of a range
  // lies in it exactly when the middle two octets of the range agree with the network's as far as
  // the network's mask goes; so it does for every range in the network, and among the ranges with
  // the network's first octet for no other.
  lemma WgSubnetContainsExactly(net: IPRange, range: IPRange)
    requires net.ones <= 24
    ensures WgSubnet(net).Some?
    ensures Contains(WgSubnet(net).value, WgIP(range).ip) <==> Contains(net, range.ip.(a := net.ip.a))
    ensures Contains(net, range.ip) ==> Contains(WgSubnet(net).value, WgIP(range).ip)
    ensures net.ip.a == range.ip.a ==> (Contains(net, range.ip) <==> Contains(WgSubnet(net).value, WgIP(range).ip))
  {
    ShiftedMask(net.ip, net.ones);
    ShiftedMask(range.ip.(a := net.ip.a), net.ones);
    assert net.ip.a == range.ip.a ==> range.ip.(a := net.ip.a) == range.ip;
  }

  // Eight more bits under 100.64 keep of the middle octets what the mask keeps of them before.
  lemma ShiftedMask(ip: IP, ones: nat)
    requires ones <= 24
    ensures Masked(IP(100, 64, ip.b, ip.c), ones + 8)
         == IP(100, Keep(64, ones), Masked(ip, ones).b, Masked(ip, ones).c)
    ensures Masked(ip, ones).d == 0
  {
  }

  // Two ranges share a WireGuard address exactly when their middle two octets agree.
  lemma WgIPIsInjective(x: IPRange, y: IPRange)
    ensures WgIP(x) == WgIP(y) <==> x.ip.b == y.ip.b && x.ip.c == y.ip.c
  {
  }

  lemma WgIPIsCGN(range: IPRange)
    ensures IsCGN(WgIP(range))
  {
  }
}
