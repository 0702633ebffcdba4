/**
 The packet dissector: section 3.1 of RFC 791 (IPv4), sections 3 and 4 of RFC 8200 (IPv6 and its
 extension headers), section 3.1 of RFC 9293 (TCP) and RFC 768 (UDP), and the flow key.
 */
module Dissector {
  import opened Wire

  const TCP: Byte := 6
  const UDP: Byte := 17
  const HOP_BY_HOP: Byte := 0
  const ROUTING: Byte := 43
  const FRAGMENT: Byte := 44
  const DEST_OPTS: Byte := 60
  const MOBILITY: Byte := 135
  const MAX_HEADERS := 8

  const NO_IP: Bytes := [0, 0, 0, 0, 0, 0, 0, 0, 0, 0, 0, 0, 0, 0, 0, 0]

  /** `at` is where the payload starts in the packet's bytes. */
  datatype FlowView = FlowView(
    ipVersion: nat, ipProto: Byte, srcIp: Bytes, dstIp: Bytes, srcPort: nat, dstPort: nat,
    at: nat, payloadLen: nat, tcpFlags: Byte, key: nat)

  const BLANK := FlowView(0, 0, NO_IP, NO_IP, 0, 0, 0, 0, 0, 0)

  /** A dissection: whether it worked, and the view as far as it was filled in. */
  datatype Dissection = Dissection(ok: bool, flow: FlowView)

  function Fail(f: FlowView): Dissection { Dissection(false, f) }

  /** The transport header at `at` in the packet, which ends at `end`. */
  function ParseL4(proto: Byte, d: Bytes, at: nat, end: nat, f: FlowView): (r: Dissection)
    requires at <= end <= |d|
    ensures r.ok ==> at <= r.flow.at && r.flow.at + r.flow.payloadLen <= end
  {
    var l := end - at;
    var g := f.(ipProto := proto);
    if proto == TCP then
      if l < 20 then Fail(g)
      else
        var g2 := g.(srcPort := Rd16(d, at), dstPort := Rd16(d, at + 2), tcpFlags := d[at + 13]);
        var dataOff := d[at + 12] as int / 16 * 4;
        if dataOff < 20 || dataOff > l then Fail(g2)
        else Dissection(true, g2.(at := at + dataOff, payloadLen := l - dataOff))
    else if proto == UDP then
      if l < 8 then Fail(g)
      else
        var udpLen := Rd16(d, at + 4);
        var plen := if udpLen >= 8 && udpLen - 8 <= l - 8 then udpLen - 8 else l - 8;
        Dissection(true, g.(srcPort := Rd16(d, at), dstPort := Rd16(d, at + 2), at := at + 8, payloadLen := plen))
    else Fail(g)
  }

  /** IPv4 addresses occupy the first four of the sixteen bytes. */
  function Ip4(b: Bytes, old16: Bytes): Bytes
    requires |b| == 4 && |old16| == 16
  {
    b + old16[4..]
  }

  function ParseIPv4(d: Bytes, f: FlowView): (r: Dissection)
    requires |f.srcIp| == |f.dstIp| == 16
    ensures r.ok ==> r.flow.at + r.flow.payloadLen <= |d|
  {
    if |d| < 20 then Fail(f)
    else
      var g := f.(ipVersion := 4);
      var ihl := d[0] as int % 16 * 4;
      if ihl < 20 || ihl > |d| then Fail(g)
      else if Rd16(d, 6) % 0x2000 != 0 then Fail(g)
      else
        var g2 := g.(srcIp := Ip4(d[12..16], g.srcIp), dstIp := Ip4(d[16..20], g.dstIp));
        var total := Rd16(d, 2);
        ParseL4(d[9], d, ihl, if ihl <= total <= |d| then total else |d|, g2)
  }

  predicate IsOptionHeader(next: Byte) {
    next == HOP_BY_HOP || next == ROUTING || next == DEST_OPTS || next == MOBILITY
  }

  /** The extension-header walk with `fuel` turns left. */
  function WalkIPv6(d: Bytes, next: Byte, off: nat, end: nat, fuel: nat, f: FlowView): (r: Dissection)
    requires off <= end <= |d|
    ensures r.ok ==> r.flow.at + r.flow.payloadLen <= |d|
    decreases fuel
  {
    if fuel == 0 then Fail(f)
    else if next == TCP || next == UDP then ParseL4(next, d, off, end, f)
    else if IsOptionHeader(next) then
      if off + 2 > end then Fail(f)
      else
        var off' := off + (d[off + 1] as int + 1) * 8;
        if off' > end then Fail(f) else WalkIPv6(d, d[off], off', end, fuel - 1, f)
    else if next == FRAGMENT then
      if off + 8 > end || Rd16(d, off + 2) / 8 != 0 then Fail(f)
      else WalkIPv6(d, d[off], off + 8, end, fuel - 1, f)
    else Fail(f)
  }

  function ParseIPv6(d: Bytes, f: FlowView): (r: Dissection)
    ensures r.ok ==> r.flow.at + r.flow.payloadLen <= |d|
  {
    if |d| < 40 then Fail(f)
    else
      var g := f.(ipVersion := 6, srcIp := d[8..24], dstIp := d[24..40]);
      var plen := Rd16(d, 4);
      WalkIPv6(d, d[6], 40, if 40 + plen <= |d| then 40 + plen else |d|, MAX_HEADERS, g)
  }

  function ParseFlow(d: Bytes): (r: Dissection)
    ensures r.ok ==> r.flow.at + r.flow.payloadLen <= |d|
  {
    if |d| < 1 then Fail(BLANK)
    else if d[0] as int / 16 == 4 then ParseIPv4(d, BLANK)
    else if d[0] as int / 16 == 6 then ParseIPv6(d, BLANK)
    else Fail(BLANK)
  }

  // ---------------------------------------------------------------- the flow key

  const TWO32 := 0x1_0000_0000
  const TWO64 := 0x1_0000_0000_0000_0000

  /** The base-131 polynomial of some digits, on unbounded integers. */
  function Poly(digits: seq<nat>): nat {
    if digits == [] then 0 else Poly(digits[..|digits| - 1]) * 131 + digits[|digits| - 1]
  }

  function EndpointHash(ip: Bytes, port: nat): nat { Poly(ip + [port]) % TWO32 }

  function Mix(proto: nat, lo: nat, hi: nat): nat { ((proto * 1000003 + lo) * 1000003 + hi) % TWO32 }

  function RouteKey(f: FlowView): (k: nat)
    ensures k < TWO32
  {
    var a := EndpointHash(f.srcIp, f.srcPort);
    var b := EndpointHash(f.dstIp, f.dstPort);
    if a < b then Mix(f.ipProto, a, b) else Mix(f.ipProto, b, a)
  }

  /** Packet::flow_view on bytes that are there: the dissection with its key filled in. */
  function FlowOf(d: Bytes): (r: Option<FlowView>)
    ensures r.Some? ==> r.value.key < TWO32
    ensures r.Some? ==> r.value.at + r.value.payloadLen <= |d|
  {
    var r := ParseFlow(d);
    if r.ok then Some(r.flow.(key := RouteKey(r.flow))) else None
  }

  // ---------------------------------------------------------------- the source's statements

  // Captures are at most 64 KiB plus headers; below this no offset step can wrap.
  const MAX_CAPTURE := 0xFFFF_FFFF - 4096

  method DoParseL4(proto: Byte, d: Bytes, at: uint32, end: uint32, f: FlowView) returns (ok: bool, flow: FlowView)
    requires |d| <= MAX_CAPTURE && at <= end && end as int <= |d|
    ensures Dissection(ok, flow) == ParseL4(proto, d, at as nat, end as nat, f)
  {
    var l := end - at;
    flow := f.(ipProto := proto);
    if proto == TCP {
      if l < 20 { return false, flow; }
      flow := flow.(srcPort := Rd16(d, at as nat));
      flow := flow.(dstPort := Rd16(d, (at + 2) as nat));
      flow := flow.(tcpFlags := d[at + 13]);
      var dataOff := (d[at + 12] as int / 16 * 4) as uint32;
      if dataOff < 20 || dataOff > l { return false, flow; }
      flow := flow.(at := (at + dataOff) as nat, payloadLen := (l - dataOff) as nat);
      return true, flow;
    }
    if proto == UDP {
      if l < 8 { return false, flow; }
      flow := flow.(srcPort := Rd16(d, at as nat));
      flow := flow.(dstPort := Rd16(d, (at + 2) as nat));
      var udpLen := Rd16(d, (at + 4) as nat) as uint32;
      var plen := l - 8;
      if udpLen >= 8 && udpLen - 8 <= plen { plen := udpLen - 8; }
      flow := flow.(at := (at + 8) as nat, payloadLen := plen as nat);
      return true, flow;
    }
    ok := false;
  }

  method DoParseIPv4(d: Bytes, f: FlowView) returns (ok: bool, flow: FlowView)
    requires |d| <= MAX_CAPTURE && |f.srcIp| == |f.dstIp| == 16
    ensures Dissection(ok, flow) == ParseIPv4(d, f)
  {
    var len := |d| as uint32;
    flow := f;
    if len < 20 { return false, flow; }
    flow := flow.(ipVersion := 4);
    var ihl := (d[0] as int % 16 * 4) as uint32;
    if ihl < 20 || ihl > len { return false, flow; }
    if Rd16(d, 6) % 0x2000 != 0 { return false, flow; }
    flow := flow.(srcIp := Ip4(d[12..16], flow.srcIp));
    flow := flow.(dstIp := Ip4(d[16..20], flow.dstIp));
    var total := Rd16(d, 2) as uint32;
    var l3 := len;
    if total >= ihl && total <= len { l3 := total; }
    ok, flow := DoParseL4(d[9], d, ihl, l3, flow);
  }

  method DoParseIPv6(d: Bytes, f: FlowView) returns (ok: bool, flow: FlowView)
    requires |d| <= MAX_CAPTURE
    ensures Dissection(ok, flow) == ParseIPv6(d, f)
  {
    hide ParseL4, Rd16, IsOptionHeader;
    var len := |d| as uint32;
    flow := f;
    if len < 40 { return false, flow; }
    flow := flow.(ipVersion := 6);
    var plen := Rd16(d, 4) as uint32;
    flow := flow.(srcIp := d[8..24]);
    flow := flow.(dstIp := d[24..40]);
    var l3 := len;
    if 40 + plen <= len { l3 := 40 + plen; }
    var next := d[6];
    var off: uint32 := 40;
    for i := 0 to MAX_HEADERS
      invariant off <= l3
      invariant ParseIPv6(d, f) == WalkIPv6(d, next, off as nat, l3 as nat, MAX_HEADERS - i, flow)
    {
      if next == TCP || next == UDP {
        ok, flow := DoParseL4(next, d, off, l3, flow);
        return;
      }
      if IsOptionHeader(next) {
        if off + 2 > l3 { return false, flow; }
        next, off := d[off], off + (d[off + 1] as uint32 + 1) * 8;
        if off > l3 { return false, flow; }
      } else if next == FRAGMENT {
        if off + 8 > l3 { return false, flow; }
        if Rd16(d, (off + 2) as nat) / 8 != 0 { return false, flow; }
        next, off := d[off], off + 8;
      } else {
        return false, flow;
      }
    }
    ok := false;
  }

  function Hash64(digits: seq<nat>): nat { Poly(digits) % TWO64 }

  /** One wrapped step of the loop keeps the residue of the unbounded polynomial. */
  lemma HashStep(digits: seq<nat>, b: nat)
    ensures Hash64(digits + [b]) == (Hash64(digits) * 131 + b) % TWO64
  {
    assert (digits + [b])[..|digits|] == digits;
    var x := Poly(digits);
    var q := x / TWO64;
    assert x == x % TWO64 + TWO64 * q;
    Wrap64(x % TWO64 * 131 + b, 131 * q);
  }

  /** The hash loop in 64-bit wrap-around arithmetic, truncated to 32 bits at the end. */
  method DoEndpointHash(ip: Bytes, port: nat) returns (h: nat)
    ensures h == EndpointHash(ip, port)
  {
    var w: nat := 0;
    assert w == Hash64([]) && ip[..0] == [];
    for i := 0 to |ip|
      invariant w == Hash64(ip[..i])
    {
      HashStep(ip[..i], ip[i]);
      assert ip[..i] + [ip[i] as nat] == ip[..i + 1];
      w := (w * 131 + ip[i] as nat) % TWO64;
    }
    assert ip[..|ip|] == ip;
    HashStep(ip, port);
    w := (w * 131 + port) % TWO64;
    Truncate(Poly(ip + [port]));
    h := w % TWO32;
  }

  lemma Wrap64(r: nat, q: nat)
    ensures (r + TWO64 * q) % TWO64 == r % TWO64
  {}

  lemma Truncate(x: nat)
    ensures x % TWO64 % TWO32 == x % TWO32
  {}

  /** Swapping the endpoints keeps the key: a packet and its answer belong to one flow. */
  lemma RouteKeySymmetric(f: FlowView)
    ensures RouteKey(f.(srcIp := f.dstIp, dstIp := f.srcIp, srcPort := f.dstPort, dstPort := f.srcPort)) == RouteKey(f)
  {}

  method DoRouteKey(f: FlowView) returns (k: nat)
    ensures k == RouteKey(f)
  {
    var a := DoEndpointHash(f.srcIp, f.srcPort);
    var b := DoEndpointHash(f.dstIp, f.dstPort);
    var lo := if a < b then a else b;
    var hi := if a < b then b else a;
    k := DoMix(f.ipProto as nat, lo, hi);
  }

  method DoMix(proto: nat, lo: nat, hi: nat) returns (k: nat)
    requires proto < 256 && lo < TWO32 && hi < TWO32
    ensures k == Mix(proto, lo, hi)
  {
    var h := (proto * 1000003 + lo) % TWO64;
    h := (h * 1000003 + hi) % TWO64;
    k := h % TWO32;
  }

  method DoParseFlow(d: Bytes) returns (ok: bool, flow: FlowView)
    requires |d| <= MAX_CAPTURE
    ensures Dissection(ok, flow) == ParseFlow(d)
  {
    flow := BLANK;
    if |d| < 1 { return false, flow; }
    var version := d[0] as int / 16;
    if version == 4 {
      ok, flow := DoParseIPv4(d, flow);
    } else if version == 6 {
      ok, flow := DoParseIPv6(d, flow);
    } else {
      ok := false;
    }
  }

  /** Packet::flow_view on a packet that has bytes. */
  method FlowViewOf(d: Bytes) returns (r: Option<FlowView>)
    requires |d| <= MAX_CAPTURE
    ensures r == FlowOf(d)
  {
    var ok, flow := DoParseFlow(d);
    if !ok { return None; }
    var k := DoRouteKey(flow);
    r := Some(flow.(key := k));
  }
}
