/**
 What a dissected packet is, in both directions and on any bytes: a packet is dissected exactly when its headers
 are those of TCP or UDP over IPv4 or IPv6 as spelled out here, and then with these addresses, ports, flags and
 payload. Declared lengths may lie; everything else is refused.
 */
module Dissections {
  import opened Wire
  import opened Dissector
  import opened DissectorTheorems

  // ---------------------------------------------------------------- the transport header

  /** A TCP or UDP header at `at` in a packet that ends at `end`, read into the view `f`. */
  predicate Transport(d: Bytes, proto: Byte, at: nat, end: nat, f: FlowView, g: FlowView) {
    && at <= end <= |d|
    && if proto == 6 then
         && at + 20 <= end
         && var n := d[at + 12] as int / 16 * 4;
         && 20 <= n <= end - at
         && g == f.(ipProto := 6, srcPort := d[at] as int * 256 + d[at + 1] as int, dstPort := d[at + 2] as int * 256 + d[at + 3] as int,
                    tcpFlags := d[at + 13], at := at + n, payloadLen := end - at - n)
       else
         && proto == 17 && at + 8 <= end
         && var n := d[at + 4] as int * 256 + d[at + 5] as int;
         && g == f.(ipProto := 17, srcPort := d[at] as int * 256 + d[at + 1] as int, dstPort := d[at + 2] as int * 256 + d[at + 3] as int,
                    at := at + 8, payloadLen := if 8 <= n <= end - at then n - 8 else end - at - 8)
  }

  lemma TransportIff(d: Bytes, proto: Byte, at: nat, end: nat, f: FlowView, g: FlowView)
    requires at <= end <= |d|
    ensures ParseL4(proto, d, at, end, f) == Dissection(true, g) <==> Transport(d, proto, at, end, f, g)
  {}

  // ---------------------------------------------------------------- IPv4

  /** An address pair as the view keeps it. */
  function Start(version: nat, src: Bytes, dst: Bytes): FlowView { FlowView(version, 0, src, dst, 0, 0, 0, 0, 0, 0) }

  const ZEROS: Bytes := [0, 0, 0, 0, 0, 0, 0, 0, 0, 0, 0, 0]

  /** A first or only fragment whose protocol byte names the transport behind the header. */
  predicate Ip4Packet(d: Bytes, g: FlowView) {
    && |d| >= 20 && d[0] as int / 16 == 4
    && var ihl := d[0] as int % 16 * 4;
    && 20 <= ihl <= |d| && (d[6] as int * 256 + d[7] as int) % 8192 == 0
    && var total := d[2] as int * 256 + d[3] as int;
       Transport(d, d[9], ihl, if ihl <= total <= |d| then total else |d|, Start(4, d[12..16] + ZEROS, d[16..20] + ZEROS), g)
  }

  lemma Ip4Iff(d: Bytes, g: FlowView)
    requires |d| >= 1 && d[0] as int / 16 == 4
    ensures ParseFlow(d) == Dissection(true, g) <==> Ip4Packet(d, g)
  {
    hide ParseL4, ParseIPv6, Transport;
    if |d| >= 20 {
      var ihl, total := d[0] as int % 16 * 4, Rd16(d, 2);
      if 20 <= ihl <= |d| {
        assert NO_IP[4..] == ZEROS;
        var start := Start(4, d[12..16] + ZEROS, d[16..20] + ZEROS);
        TransportIff(d, d[9], ihl, if ihl <= total <= |d| then total else |d|, start, g);
      }
    }
  }

  // ---------------------------------------------------------------- IPv6

  /** Where the packet ends: as declared, unless that is more than there is. */
  function EndOf(d: Bytes): (end: nat)
    requires |d| >= 40
    ensures end <= |d|
  {
    var declared := 40 + d[4] as int * 256 + d[5] as int;
    if declared <= |d| then declared else |d|
  }

  /** At most seven followed extension headers, the last of which names the transport behind them. */
  predicate Ip6Packet(d: Bytes, c: Chain, proto: Byte, g: FlowView) {
    && |d| >= 40 && d[0] as int / 16 == 6
    && ChainOk(c) && Length(c) <= 7 && d[6] == FirstKind(c, proto) && At(d, 40, EncChain(c, proto))
    && Transport(d, proto, 40 + |EncChain(c, proto)|, EndOf(d), Start(6, d[8..24], d[24..40]), g)
  }

  /** The walk passes a chain and arrives at the transport. */
  lemma {:induction false} WalkPasses(d: Bytes, off: nat, end: nat, c: Chain, proto: Byte, fuel: nat, f: FlowView)
    requires ChainOk(c) && Length(c) < fuel && (proto == 6 || proto == 17)
    requires At(d, off, EncChain(c, proto)) && off + |EncChain(c, proto)| <= end <= |d|
    ensures WalkIPv6(d, FirstKind(c, proto), off, end, fuel, f) == ParseL4(proto, d, off + |EncChain(c, proto)|, end, f)
    decreases c
  {
    hide ParseL4, EncExtra, ExtraOk;
    if c.Next? {
      var next := FirstKind(c.rest, proto);
      var e := EncExtra(c.x, next);
      AtSplit(d, off, e, EncChain(c.rest, proto));
      ExtraStep(d, off, end, c.x, next, fuel, f);
      hide WalkIPv6, At;
      WalkPasses(d, off + |e|, end, c.rest, proto, fuel - 1, f);
    }
  }

  lemma FragmentAt(d: Bytes, off: nat) returns (x: Extra)
    requires off + 8 <= |d| && Rd16(d, off + 2) / 8 == 0
    ensures ExtraOk(x) && Kind(x) == 44 && EncExtra(x, d[off]) == d[off..off + 8]
  {
    Rd16Inverse(d, off + 2);
    x := FirstFragment(d[off + 1], Rd16(d, off + 2), d[off + 4..off + 8]);
    hide Rd16, U16;
    assert EncExtra(x, d[off]) == [d[off], d[off + 1]] + d[off + 2..off + 4] + d[off + 4..off + 8];
  }

  lemma OptionsAt(d: Bytes, kind: Byte, off: nat) returns (x: Extra)
    requires kind == 0 || kind == 43 || kind == 60 || kind == 135
    requires off + 2 <= |d| && off + (d[off + 1] as int + 1) * 8 <= |d|
    ensures ExtraOk(x) && Kind(x) == kind && EncExtra(x, d[off]) == d[off..off + (d[off + 1] as int + 1) * 8]
  {
    var size := (d[off + 1] as int + 1) * 8;
    x := Options(kind, d[off + 2..off + size]);
    assert |x.body| / 8 == d[off + 1];
    assert EncExtra(x, d[off]) == [d[off], d[off + 1]] + d[off + 2..off + size];
  }

  /** One turn of a walk that gets through. */
  lemma TurnTaken(d: Bytes, next: Byte, off: nat, end: nat, fuel: nat, f: FlowView) returns (size: nat)
    requires off <= end <= |d| && next != 6 && next != 17 && WalkIPv6(d, next, off, end, fuel, f).ok
    ensures fuel > 0 && off + 2 <= off + size <= end
    ensures if next == 44 then size == 8 && Rd16(d, off + 2) / 8 == 0
            else (next == 0 || next == 43 || next == 60 || next == 135) && size == (d[off + 1] as int + 1) * 8
    ensures WalkIPv6(d, next, off, end, fuel, f) == WalkIPv6(d, d[off], off + size, end, fuel - 1, f)
  {
    hide ParseL4, Rd16;
    size := if next == 44 then 8 else (d[off + 1] as int + 1) * 8;
  }

  /** One extension header, as the walk reads it. */
  lemma ExtraSpelled(d: Bytes, next: Byte, off: nat, end: nat, fuel: nat, f: FlowView) returns (x: Extra, size: nat)
    requires off <= end <= |d| && next != 6 && next != 17 && WalkIPv6(d, next, off, end, fuel, f).ok
    ensures fuel > 0 && ExtraOk(x) && Kind(x) == next && off + size <= end && size > 0
    ensures EncExtra(x, d[off]) == d[off..off + size]
    ensures WalkIPv6(d, next, off, end, fuel, f) == WalkIPv6(d, d[off], off + size, end, fuel - 1, f)
  {
    hide WalkIPv6, ExtraOk, EncExtra, Kind, Rd16;
    size := TurnTaken(d, next, off, end, fuel, f);
    if next == 44 { x := FragmentAt(d, off); } else { x := OptionsAt(d, next, off); }
  }

  lemma NoChain(d: Bytes, proto: Byte, off: nat, end: nat, fuel: nat, f: FlowView)
    requires off <= end <= |d| && (proto == 6 || proto == 17) && WalkIPv6(d, proto, off, end, fuel, f).ok
    ensures ChainOk(Done) && Length(Done) < fuel && FirstKind(Done, proto) == proto
    ensures At(d, off, EncChain(Done, proto)) && EncChain(Done, proto) == []
    ensures WalkIPv6(d, proto, off, end, fuel, f) == ParseL4(proto, d, off, end, f)
  {
    hide ParseL4;
  }

  /** Whatever the walk dissects lies behind a chain it passed. */
  lemma {:induction false} WalkSpelled(d: Bytes, next: Byte, off: nat, end: nat, fuel: nat, f: FlowView)
    returns (c: Chain, proto: Byte)
    requires off <= end <= |d| && WalkIPv6(d, next, off, end, fuel, f).ok
    ensures ChainOk(c) && Length(c) < fuel && FirstKind(c, proto) == next && (proto == 6 || proto == 17)
    ensures At(d, off, EncChain(c, proto)) && off + |EncChain(c, proto)| <= end
    ensures WalkIPv6(d, next, off, end, fuel, f) == ParseL4(proto, d, off + |EncChain(c, proto)|, end, f)
    decreases fuel
  {
    hide *;
    if next == 6 || next == 17 {
      c, proto := Done, next;
      NoChain(d, next, off, end, fuel, f);
    } else {
      var x, size := ExtraSpelled(d, next, off, end, fuel, f);
      var rest;
      rest, proto := WalkSpelled(d, d[off], off + size, end, fuel - 1, f);
      ChainGrows(d, off, x, size, rest, proto);
      c := Next(x, rest);
    }
  }

  lemma ChainGrows(d: Bytes, off: nat, x: Extra, size: nat, rest: Chain, proto: Byte)
    requires off + size <= |d| && size > 0 && ExtraOk(x) && ChainOk(rest)
    requires FirstKind(rest, proto) == d[off] && EncExtra(x, d[off]) == d[off..off + size]
    requires At(d, off + size, EncChain(rest, proto))
    ensures var c := Next(x, rest);
            && ChainOk(c) && Length(c) == 1 + Length(rest) && FirstKind(c, proto) == Kind(x)
            && At(d, off, EncChain(c, proto)) && |EncChain(c, proto)| == size + |EncChain(rest, proto)|
  {
    hide At, EncExtra, ExtraOk;
    AtHere(d, off, size);
    AtJoin(d, off, d[off..off + size], EncChain(rest, proto));
  }

  lemma AtHere(d: Bytes, off: nat, size: nat)
    requires off + size <= |d|
    ensures At(d, off, d[off..off + size])
  {}

  lemma AtJoin(d: Bytes, off: nat, a: Bytes, b: Bytes)
    requires At(d, off, a) && At(d, off + |a|, b)
    ensures At(d, off, a + b)
  {
    assert d[off..off + |a + b|] == d[off..off + |a|] + d[off + |a|..off + |a| + |b|];
  }

  lemma Ip6Begins(d: Bytes)
    requires |d| >= 40 && d[0] as int / 16 == 6
    ensures 40 <= EndOf(d) && ParseFlow(d) == WalkIPv6(d, d[6], 40, EndOf(d), 8, Start(6, d[8..24], d[24..40]))
  {
    hide WalkIPv6;
  }

  lemma Ip6Spelled(d: Bytes, g: FlowView) returns (c: Chain, proto: Byte)
    requires |d| >= 40 && d[0] as int / 16 == 6 && ParseFlow(d) == Dissection(true, g)
    ensures Ip6Packet(d, c, proto, g)
  {
    var f, end := Start(6, d[8..24], d[24..40]), EndOf(d);
    Ip6Begins(d);
    assert 40 <= end;
    hide ParseFlow, ParseL4, WalkIPv6, Transport, EncChain, At, ChainOk, Length, FirstKind;
    c, proto := WalkSpelled(d, d[6], 40, end, 8, f);
    TransportIff(d, proto, 40 + |EncChain(c, proto)|, end, f, g);
  }

  lemma Ip6Found(d: Bytes, c: Chain, proto: Byte, g: FlowView)
    requires Ip6Packet(d, c, proto, g)
    ensures ParseFlow(d) == Dissection(true, g)
  {
    var f, end := Start(6, d[8..24], d[24..40]), EndOf(d);
    Ip6Begins(d);
    hide ParseFlow, ParseL4, WalkIPv6, Transport, EncChain, At, ChainOk, Length, FirstKind;
    TransportFits(d, proto, 40 + |EncChain(c, proto)|, end, f, g);
    WalkPasses(d, 40, end, c, proto, 8, f);
    TransportIff(d, proto, 40 + |EncChain(c, proto)|, end, f, g);
  }

  lemma Ip6Iff(d: Bytes, g: FlowView)
    requires |d| >= 1 && d[0] as int / 16 == 6
    ensures ParseFlow(d) == Dissection(true, g) <==> exists c, proto :: Ip6Packet(d, c, proto, g)
  {
    if |d| < 40 {
      hide ParseIPv4;
    } else {
      hide ParseFlow, Ip6Packet;
      if ParseFlow(d) == Dissection(true, g) { var c, proto := Ip6Spelled(d, g); }
      forall c, proto | Ip6Packet(d, c, proto, g) ensures ParseFlow(d) == Dissection(true, g) { Ip6Found(d, c, proto, g); }
    }
  }

  lemma TransportFits(d: Bytes, proto: Byte, at: nat, end: nat, f: FlowView, g: FlowView)
    requires Transport(d, proto, at, end, f, g)
    ensures at <= end <= |d| && (proto == 6 || proto == 17)
  {}

  /** Nothing but IPv4 and IPv6 is dissected. */
  lemma DissectedIff(d: Bytes, g: FlowView)
    ensures ParseFlow(d) == Dissection(true, g) <==> Ip4Packet(d, g) || exists c, proto :: Ip6Packet(d, c, proto, g)
  {
    if |d| >= 1 && d[0] as int / 16 == 4 { Ip4Iff(d, g); }
    if |d| >= 1 && d[0] as int / 16 == 6 { Ip6Iff(d, g); }
    hide ParseIPv4, ParseIPv6, Transport, EncChain;
  }
}
