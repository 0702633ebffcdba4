/**
 The dissector reads back exactly what the header formats write: IPv4 with options, IPv6 behind a chain
 of extension headers, TCP with options or UDP, with link padding after the packet.
 */
module DissectorTheorems {
  import opened Wire
  import opened Dissector

  /** The bytes `x` stand at `off` in the packet. */
  predicate At(d: Bytes, off: nat, x: Bytes) { off + |x| <= |d| && d[off..off + |x|] == x }

  lemma AtSplit(d: Bytes, off: nat, a: Bytes, b: Bytes)
    requires At(d, off, a + b)
    ensures At(d, off, a) && At(d, off + |a|, b)
  {
    var c := a + b;
    SliceOfSlice(d, off, off + |c|, 0, |a|);
    SliceOfSlice(d, off, off + |c|, |a|, |c|);
    assert c[0..|a|] == a && c[|a|..|c|] == b;
  }

  // ---------------------------------------------------------------- transport

  datatype Segment =
    | Tcp(srcPort: nat, dstPort: nat, seqAck: Bytes, reserved: nat, flags: Byte, rest: Bytes, options: Bytes, payload: Bytes)
    | Udp(srcPort: nat, dstPort: nat, checksum: Bytes, payload: Bytes)

  predicate SegmentOk(s: Segment) {
    && s.srcPort < 0x1_0000 && s.dstPort < 0x1_0000
    && match s
       case Tcp(_, _, seqAck, reserved, _, rest, options, _) =>
         |seqAck| == 8 && reserved < 16 && |rest| == 6 && |options| % 4 == 0 && |options| <= 40
       case Udp(_, _, checksum, payload) => |checksum| == 2 && 8 + |payload| < 0x1_0000
  }

  function Proto(s: Segment): Byte { if s.Tcp? then 6 else 17 }

  function HeaderLen(s: Segment): nat { if s.Tcp? then 20 + |s.options| else 8 }

  function EncSegment(s: Segment): (b: Bytes)
    requires SegmentOk(s)
    ensures |b| == HeaderLen(s) + |s.payload|
  {
    match s
    case Tcp(sp, dp, seqAck, reserved, flags, rest, options, payload) =>
      U16(sp) + U16(dp) + seqAck + [(5 + |options| / 4) * 16 + reserved, flags] + rest + options + payload
    case Udp(sp, dp, checksum, payload) =>
      U16(sp) + U16(dp) + U16(8 + |payload|) + checksum + payload
  }

  /** What a view says of a segment whose header starts at `at`. */
  function SegmentView(f: FlowView, s: Segment, at: nat): FlowView {
    f.(ipProto := Proto(s), srcPort := s.srcPort, dstPort := s.dstPort,
       tcpFlags := if s.Tcp? then s.flags else f.tcpFlags,
       at := at + HeaderLen(s), payloadLen := |s.payload|)
  }

  lemma SegmentBytes(s: Segment)
    requires SegmentOk(s)
    ensures var b := EncSegment(s);
            && Rd16(b, 0) == s.srcPort && Rd16(b, 2) == s.dstPort
            && b[HeaderLen(s)..] == s.payload
            && (s.Tcp? ==> b[12] as int / 16 * 4 == HeaderLen(s) && b[13] == s.flags)
            && (s.Udp? ==> Rd16(b, 4) == 8 + |s.payload|)
  {
    var b := EncSegment(s);
    assert b[0] == U16(s.srcPort)[0] && b[1] == U16(s.srcPort)[1];
    assert b[2] == U16(s.dstPort)[0] && b[3] == U16(s.dstPort)[1];
    if s.Udp? {
      assert b[4] == U16(8 + |s.payload|)[0] && b[5] == U16(8 + |s.payload|)[1];
    } else {
      assert b[12] == (5 + |s.options| / 4) * 16 + s.reserved;
    }
  }

  lemma SegmentAt(d: Bytes, at: nat, s: Segment, f: FlowView)
    requires SegmentOk(s) && At(d, at, EncSegment(s))
    ensures ParseL4(Proto(s), d, at, at + |EncSegment(s)|, f) == Dissection(true, SegmentView(f, s, at))
    ensures At(d, at + HeaderLen(s), s.payload)
  {
    SegmentBytes(s);
    var b := EncSegment(s);
    assert forall i | 0 <= i < |b| :: d[at + i] == b[i];
    assert d[at + HeaderLen(s)..at + HeaderLen(s) + |s.payload|] == b[HeaderLen(s)..];
  }

  // ---------------------------------------------------------------- IPv4

  datatype Ip4Header = Ip4Header(
    tos: Byte, ident: Bytes, fragment: nat, ttl: Byte, checksum: Bytes, src: Bytes, dst: Bytes, options: Bytes)

  predicate Ip4Ok(h: Ip4Header, s: Segment) {
    && |h.ident| == 2 && h.fragment < 0x1_0000 && |h.checksum| == 2 && |h.src| == |h.dst| == 4
    && |h.options| % 4 == 0 && |h.options| <= 40
    && SegmentOk(s) && 20 + |h.options| + |EncSegment(s)| < 0x1_0000
  }

  function Ip4Fixed(h: Ip4Header, s: Segment): (b: Bytes)
    requires Ip4Ok(h, s)
    ensures |b| == 20
  {
    [0x40 + 5 + |h.options| / 4, h.tos] + U16(20 + |h.options| + |EncSegment(s)|) + h.ident + U16(h.fragment)
    + [h.ttl, Proto(s)] + h.checksum + h.src + h.dst
  }

  function EncIp4(h: Ip4Header, s: Segment): Bytes
    requires Ip4Ok(h, s)
  {
    Ip4Fixed(h, s) + h.options + EncSegment(s)
  }

  const ZERO12: Bytes := [0, 0, 0, 0, 0, 0, 0, 0, 0, 0, 0, 0]

  function Ip4View(h: Ip4Header): FlowView {
    BLANK.(ipVersion := 4, srcIp := h.src + ZERO12, dstIp := h.dst + ZERO12)
  }

  lemma Ip4FixedBytes(h: Ip4Header, s: Segment)
    requires Ip4Ok(h, s)
    ensures var b := Ip4Fixed(h, s); var at := 20 + |h.options|;
            && b[0] as int / 16 == 4 && b[0] as int % 16 * 4 == at
            && Rd16(b, 2) == at + |EncSegment(s)| && Rd16(b, 6) == h.fragment && b[9] == Proto(s)
            && b[12..16] == h.src && b[16..20] == h.dst
  {
    hide EncSegment;
    var b := Ip4Fixed(h, s);
    var total := 20 + |h.options| + |EncSegment(s)|;
    assert b[2] == U16(total)[0] && b[3] == U16(total)[1];
    assert b[6] == U16(h.fragment)[0] && b[7] == U16(h.fragment)[1];
  }

  lemma Ip4Bytes(h: Ip4Header, s: Segment, padding: Bytes)
    requires Ip4Ok(h, s)
    ensures var d := EncIp4(h, s) + padding; var at := 20 + |h.options|;
            && |d| == at + |EncSegment(s)| + |padding|
            && d[0] as int / 16 == 4 && d[0] as int % 16 * 4 == at
            && Rd16(d, 2) == at + |EncSegment(s)| && Rd16(d, 6) == h.fragment && d[9] == Proto(s)
            && d[12..16] == h.src && d[16..20] == h.dst
            && At(d, at, EncSegment(s))
  {
    Ip4FixedBytes(h, s);
    hide EncSegment, Ip4Fixed;
    var d := EncIp4(h, s) + padding;
    var b := Ip4Fixed(h, s);
    assert forall i :: 0 <= i < 20 ==> d[i] == b[i];
    assert d[12..16] == b[12..16] && d[16..20] == b[16..20];
  }

  /** A first (or only) fragment is read back exactly; any later fragment is refused. */
  lemma Ip4RoundTrip(h: Ip4Header, s: Segment, padding: Bytes)
    requires Ip4Ok(h, s)
    ensures var d := EncIp4(h, s) + padding; var r := ParseFlow(d);
            && (r.ok <==> h.fragment % 0x2000 == 0)
            && (r.ok ==> r.flow == SegmentView(Ip4View(h), s, 20 + |h.options|) && At(d, r.flow.at, s.payload))
  {
    Ip4Bytes(h, s, padding);
    Ip4FromBytes(EncIp4(h, s) + padding, h, s);
  }

  lemma Ip4FromBytes(d: Bytes, h: Ip4Header, s: Segment)
    requires Ip4Ok(h, s)
    requires var at := 20 + |h.options|;
             && |d| >= at + |EncSegment(s)| && d[0] as int / 16 == 4 && d[0] as int % 16 * 4 == at
             && Rd16(d, 2) == at + |EncSegment(s)| && Rd16(d, 6) == h.fragment && d[9] == Proto(s)
             && d[12..16] == h.src && d[16..20] == h.dst && At(d, at, EncSegment(s))
    ensures var r := ParseFlow(d);
            && (r.ok <==> h.fragment % 0x2000 == 0)
            && (r.ok ==> r.flow == SegmentView(Ip4View(h), s, 20 + |h.options|) && At(d, r.flow.at, s.payload))
  {
    hide ParseFlow, ParseL4, EncSegment, At, Rd16, SegmentView, Ip4View;
    var at := 20 + |h.options|;
    Ip4Parse(d, h, at, at + |EncSegment(s)|);
    SegmentAt(d, at, s, Ip4View(h));
    ViewStart(Ip4View(h), s, at);
  }

  lemma ViewStart(f: FlowView, s: Segment, at: nat)
    ensures SegmentView(f, s, at).at == at + HeaderLen(s)
  {}

  lemma Ip4Parse(d: Bytes, h: Ip4Header, at: nat, total: nat)
    requires |h.src| == |h.dst| == 4
    requires 20 <= at <= total <= |d| && d[0] as int / 16 == 4 && d[0] as int % 16 * 4 == at
    requires Rd16(d, 2) == total && Rd16(d, 6) == h.fragment && d[12..16] == h.src && d[16..20] == h.dst
    ensures h.fragment % 0x2000 == 0 ==> ParseFlow(d) == ParseL4(d[9], d, at, total, Ip4View(h))
    ensures h.fragment % 0x2000 != 0 ==> !ParseFlow(d).ok
  {
    hide ParseL4, ParseIPv6, Rd16;
    assert NO_IP[4..] == ZERO12;
  }

  // ---------------------------------------------------------------- IPv6

  /** A followed extension header; a first fragment carries an offset of zero. */
  datatype Extra =
    | Options(kind: Byte, body: Bytes)
    | FirstFragment(reserved: Byte, low: nat, ident: Bytes)

  predicate ExtraOk(x: Extra) {
    match x
    case Options(kind, body) => (kind == 0 || kind == 43 || kind == 60 || kind == 135) && |body| % 8 == 6 && |body| / 8 < 256
    case FirstFragment(_, low, ident) => low < 8 && |ident| == 4
  }

  /** The extension headers between the fixed header and the transport. */
  datatype Chain = Done | Next(x: Extra, rest: Chain)

  predicate ChainOk(c: Chain) { c.Done? || (ExtraOk(c.x) && ChainOk(c.rest)) }

  function Length(c: Chain): nat { if c.Done? then 0 else 1 + Length(c.rest) }

  function Kind(x: Extra): Byte { if x.Options? then x.kind else 44 }

  function FirstKind(c: Chain, proto: Byte): Byte { if c.Done? then proto else Kind(c.x) }

  function EncExtra(x: Extra, next: Byte): Bytes
    requires ExtraOk(x)
  {
    match x
    case Options(_, body) => [next, |body| / 8] + body
    case FirstFragment(reserved, low, ident) => [next, reserved] + U16(low) + ident
  }

  function EncChain(c: Chain, proto: Byte): Bytes
    requires ChainOk(c)
  {
    if c.Done? then [] else EncExtra(c.x, FirstKind(c.rest, proto)) + EncChain(c.rest, proto)
  }

  /** One turn of the walk passes exactly one extension header. */
  lemma ExtraStep(d: Bytes, off: nat, end: nat, x: Extra, next: Byte, fuel: nat, f: FlowView)
    requires ExtraOk(x) && fuel > 0 && end <= |d| && off + |EncExtra(x, next)| <= end
    requires At(d, off, EncExtra(x, next))
    ensures WalkIPv6(d, Kind(x), off, end, fuel, f) == WalkIPv6(d, next, off + |EncExtra(x, next)|, end, fuel - 1, f)
  {
    hide ParseL4;
    var e := EncExtra(x, next);
    assert forall i | 0 <= i < |e| :: d[off + i] == e[i];
    assert d[off + 0] == next;
    if x.FirstFragment? {
      assert e[2] == U16(x.low)[0] && e[3] == U16(x.low)[1];
      assert d[off + 2] == e[2] && d[off + 3] == e[3];
      assert Rd16(d, off + 2) == x.low;
    } else {
      assert d[off + 1] == |x.body| / 8;
      assert (d[off + 1] as int + 1) * 8 == |e|;
    }
  }

  /** What the walk makes of a chain followed by a segment, with `fuel` turns left. */
  ghost predicate WalksTo(d: Bytes, off: nat, c: Chain, s: Segment, fuel: nat, f: FlowView)
    requires ChainOk(c) && SegmentOk(s)
  {
    var at := off + |EncChain(c, Proto(s))|;
    var end := at + |EncSegment(s)|;
    && end <= |d|
    && WalkIPv6(d, FirstKind(c, Proto(s)), off, end, fuel, f)
       == if Length(c) < fuel then Dissection(true, SegmentView(f, s, at)) else Fail(f)
  }

  lemma {:induction false} WalkChain(d: Bytes, off: nat, c: Chain, s: Segment, fuel: nat, f: FlowView)
    requires ChainOk(c) && SegmentOk(s) && At(d, off, EncChain(c, Proto(s)) + EncSegment(s))
    ensures WalksTo(d, off, c, s, fuel, f)
    decreases c
  {
    hide *;
    if fuel == 0 {
      WalkStops(d, off, c, s, f);
    } else if c.Done? {
      WalkEnds(d, off, s, fuel, f);
    } else {
      ChainSplit(d, off, c, s);
      WalkChain(d, off + |EncExtra(c.x, FirstKind(c.rest, Proto(s)))|, c.rest, s, fuel - 1, f);
      WalkLonger(d, off, c, s, fuel, f);
    }
  }

  lemma ChainSplit(d: Bytes, off: nat, c: Chain, s: Segment)
    requires ChainOk(c) && SegmentOk(s) && At(d, off, EncChain(c, Proto(s)) + EncSegment(s)) && c.Next?
    ensures ExtraOk(c.x) && ChainOk(c.rest)
    ensures var e := EncExtra(c.x, FirstKind(c.rest, Proto(s)));
            At(d, off, e) && At(d, off + |e|, EncChain(c.rest, Proto(s)) + EncSegment(s))
  {
    hide EncExtra, EncSegment, At;
    var e := EncExtra(c.x, FirstKind(c.rest, Proto(s)));
    var chain := EncChain(c.rest, Proto(s));
    Assoc(e, chain, EncSegment(s));
    AtSplit(d, off, e, chain + EncSegment(s));
  }

  lemma WalkLonger(d: Bytes, off: nat, c: Chain, s: Segment, fuel: nat, f: FlowView)
    requires ChainOk(c) && SegmentOk(s) && c.Next? && fuel > 0
    requires At(d, off, EncExtra(c.x, FirstKind(c.rest, Proto(s))))
    requires WalksTo(d, off + |EncExtra(c.x, FirstKind(c.rest, Proto(s)))|, c.rest, s, fuel - 1, f)
    ensures WalksTo(d, off, c, s, fuel, f)
  {
    hide EncExtra, EncSegment, WalkIPv6, At, SegmentView;
    var next := FirstKind(c.rest, Proto(s));
    var e := EncExtra(c.x, next);
    ExtraStep(d, off, off + |e| + |EncChain(c.rest, Proto(s))| + |EncSegment(s)|, c.x, next, fuel, f);
  }

  lemma WalkStops(d: Bytes, off: nat, c: Chain, s: Segment, f: FlowView)
    requires ChainOk(c) && SegmentOk(s) && At(d, off, EncChain(c, Proto(s)) + EncSegment(s))
    ensures WalksTo(d, off, c, s, 0, f)
  {
    hide EncChain, EncSegment;
  }

  lemma WalkEnds(d: Bytes, off: nat, s: Segment, fuel: nat, f: FlowView)
    requires SegmentOk(s) && At(d, off, EncChain(Done, Proto(s)) + EncSegment(s)) && fuel > 0
    ensures WalksTo(d, off, Done, s, fuel, f)
  {
    hide EncSegment, ParseL4;
    AtSplit(d, off, [], EncSegment(s));
    SegmentAt(d, off, s, f);
  }

  datatype Ip6Header = Ip6Header(classHi: nat, classAndLabel: Bytes, hopLimit: Byte, src: Bytes, dst: Bytes)

  predicate Ip6Ok(h: Ip6Header, c: Chain, s: Segment) {
    && h.classHi < 16 && |h.classAndLabel| == 3 && |h.src| == |h.dst| == 16
    && ChainOk(c) && SegmentOk(s) && |EncChain(c, Proto(s)) + EncSegment(s)| < 0x1_0000
  }

  function Ip6Fixed(h: Ip6Header, c: Chain, s: Segment): (b: Bytes)
    requires Ip6Ok(h, c, s)
    ensures |b| == 40
  {
    [0x60 + h.classHi] + h.classAndLabel + U16(|EncChain(c, Proto(s)) + EncSegment(s)|)
    + [FirstKind(c, Proto(s)), h.hopLimit] + h.src + h.dst
  }

  function EncIp6(h: Ip6Header, c: Chain, s: Segment): Bytes
    requires Ip6Ok(h, c, s)
  {
    Ip6Fixed(h, c, s) + (EncChain(c, Proto(s)) + EncSegment(s))
  }

  lemma Ip6FixedBytes(h: Ip6Header, c: Chain, s: Segment)
    requires Ip6Ok(h, c, s)
    ensures var b := Ip6Fixed(h, c, s);
            && b[0] as int / 16 == 6 && Rd16(b, 4) == |EncChain(c, Proto(s)) + EncSegment(s)|
            && b[6] == FirstKind(c, Proto(s)) && b[8..24] == h.src && b[24..40] == h.dst
  {
    hide EncSegment, EncChain, FirstKind;
    var b := Ip6Fixed(h, c, s);
    var n := |EncChain(c, Proto(s)) + EncSegment(s)|;
    assert b[4] == U16(n)[0] && b[5] == U16(n)[1];
  }

  lemma Ip6Bytes(h: Ip6Header, c: Chain, s: Segment, padding: Bytes)
    requires Ip6Ok(h, c, s)
    ensures var d := EncIp6(h, c, s) + padding; var body := EncChain(c, Proto(s)) + EncSegment(s);
            && |d| == 40 + |body| + |padding| && d[0] as int / 16 == 6
            && Rd16(d, 4) == |body| && d[6] == FirstKind(c, Proto(s))
            && d[8..24] == h.src && d[24..40] == h.dst && At(d, 40, body)
  {
    Ip6FixedBytes(h, c, s);
    hide EncSegment, EncChain, Ip6Fixed, FirstKind;
    var d := EncIp6(h, c, s) + padding;
    var b := Ip6Fixed(h, c, s);
    assert forall i :: 0 <= i < 40 ==> d[i] == b[i];
    assert d[8..24] == b[8..24] && d[24..40] == b[24..40];
  }

  function Ip6View(h: Ip6Header): FlowView { BLANK.(ipVersion := 6, srcIp := h.src, dstIp := h.dst) }

  /** Behind at most seven extension headers the segment is read back exactly; behind more it is refused. */
  lemma Ip6RoundTrip(h: Ip6Header, c: Chain, s: Segment, padding: Bytes)
    requires Ip6Ok(h, c, s)
    ensures var d := EncIp6(h, c, s) + padding; var r := ParseFlow(d);
            && (r.ok <==> Length(c) <= 7)
            && (r.ok ==> r.flow == SegmentView(Ip6View(h), s, 40 + |EncChain(c, Proto(s))|) && At(d, r.flow.at, s.payload))
  {
    Ip6Bytes(h, c, s, padding);
    Ip6FromBytes(EncIp6(h, c, s) + padding, h, c, s);
  }

  lemma Ip6FromBytes(d: Bytes, h: Ip6Header, c: Chain, s: Segment)
    requires Ip6Ok(h, c, s)
    requires var body := EncChain(c, Proto(s)) + EncSegment(s);
             && |d| >= 40 + |body| && d[0] as int / 16 == 6 && Rd16(d, 4) == |body| && d[6] == FirstKind(c, Proto(s))
             && d[8..24] == h.src && d[24..40] == h.dst && At(d, 40, body)
    ensures var r := ParseFlow(d);
            && (r.ok <==> Length(c) <= 7)
            && (r.ok ==> r.flow == SegmentView(Ip6View(h), s, 40 + |EncChain(c, Proto(s))|) && At(d, r.flow.at, s.payload))
  {
    hide ParseFlow, EncChain, EncSegment, WalkIPv6, At;
    var body := EncChain(c, Proto(s)) + EncSegment(s);
    Ip6Walk(d, h, |body|, FirstKind(c, Proto(s)));
    Ip6Segment(d, h, c, s);
  }

  lemma Ip6Segment(d: Bytes, h: Ip6Header, c: Chain, s: Segment)
    requires ChainOk(c) && SegmentOk(s) && At(d, 40, EncChain(c, Proto(s)) + EncSegment(s))
    ensures var chain := EncChain(c, Proto(s)); var end := 40 + |chain + EncSegment(s)|;
            && end <= |d|
            && WalkIPv6(d, FirstKind(c, Proto(s)), 40, end, MAX_HEADERS, Ip6View(h))
               == (if Length(c) <= 7 then Dissection(true, SegmentView(Ip6View(h), s, 40 + |chain|)) else Fail(Ip6View(h)))
            && At(d, SegmentView(Ip6View(h), s, 40 + |chain|).at, s.payload)
  {
    hide EncSegment, EncChain, WalkIPv6;
    var chain := EncChain(c, Proto(s));
    AtSplit(d, 40, chain, EncSegment(s));
    SegmentAt(d, 40 + |chain|, s, Ip6View(h));
    WalkChain(d, 40, c, s, MAX_HEADERS, Ip6View(h));
    assert |chain + EncSegment(s)| == |chain| + |EncSegment(s)|;
  }

  lemma Ip6Walk(d: Bytes, h: Ip6Header, plen: nat, next: Byte)
    requires |d| >= 40 + plen && d[0] as int / 16 == 6 && Rd16(d, 4) == plen && d[6] == next
    requires d[8..24] == h.src && d[24..40] == h.dst
    ensures ParseFlow(d) == WalkIPv6(d, next, 40, 40 + plen, MAX_HEADERS, Ip6View(h))
  {
    hide WalkIPv6;
  }

  // ---------------------------------------------------------------- any bytes at all

  /** On any bytes, what is dissected is TCP or UDP over IPv4 or IPv6 with its payload inside the packet. */
  lemma DissectedInside(d: Bytes)
    ensures FlowOf(d).Some? ==>
      var f := FlowOf(d).value;
      && f.at + f.payloadLen <= |d| && f.key < TWO32 && (f.ipProto == TCP || f.ipProto == UDP)
      && (f.ipVersion == 4 || f.ipVersion == 6)
  {
    if |d| >= 40 && d[0] as int / 16 == 6 {
      var end := if 40 + Rd16(d, 4) <= |d| then 40 + Rd16(d, 4) else |d|;
      var f := BLANK.(ipVersion := 6, srcIp := d[8..24], dstIp := d[24..40]);
      if WalkIPv6(d, d[6], 40, end, MAX_HEADERS, f).ok { WalkTransport(d, d[6], 40, end, MAX_HEADERS, f); }
    }
  }

  lemma {:induction false} WalkTransport(d: Bytes, next: Byte, off: nat, end: nat, fuel: nat, f: FlowView)
    requires off <= end <= |d| && WalkIPv6(d, next, off, end, fuel, f).ok
    ensures var g := WalkIPv6(d, next, off, end, fuel, f).flow; (g.ipProto == TCP || g.ipProto == UDP) && g.ipVersion == f.ipVersion
    decreases fuel
  {
    if next != TCP && next != UDP {
      var off' := if IsOptionHeader(next) then off + (d[off + 1] as int + 1) * 8 else off + 8;
      WalkTransport(d, d[off], off', end, fuel - 1, f);
    }
  }

  // ---------------------------------------------------------------- what a failure leaves behind

  /** Too short to hold the fixed header its version asks for, or of no version the dissector knows. */
  predicate Headless(d: Bytes) {
    || |d| < 1
    || (d[0] as int / 16 == 4 && |d| < 20)
    || (d[0] as int / 16 == 6 && |d| < 40)
    || (d[0] as int / 16 != 4 && d[0] as int / 16 != 6)
  }

  lemma {:induction false} WalkKeepsVersion(d: Bytes, next: Byte, off: nat, end: nat, fuel: nat, f: FlowView)
    requires off <= end <= |d|
    ensures WalkIPv6(d, next, off, end, fuel, f).flow.ipVersion == f.ipVersion
    decreases fuel
  {
    hide ParseL4;
    if fuel == 0 {
    } else if next == TCP || next == UDP {
      TransportKeepsVersion(next, d, off, end, f);
    } else if IsOptionHeader(next) && off + 2 <= end && off + (d[off + 1] as int + 1) * 8 <= end {
      WalkKeepsVersion(d, d[off], off + (d[off + 1] as int + 1) * 8, end, fuel - 1, f);
    } else if next == FRAGMENT && off + 8 <= end {
      WalkKeepsVersion(d, d[off], off + 8, end, fuel - 1, f);
    }
  }

  lemma TransportKeepsVersion(proto: Byte, d: Bytes, at: nat, end: nat, f: FlowView)
    requires at <= end <= |d|
    ensures ParseL4(proto, d, at, end, f).flow.ipVersion == f.ipVersion
  {}

  /**
   The header promises that a failed dissection leaves the view at its defaults. It does so exactly when
   not even the fixed IP header is there; past it the version, at least, has been filled in.
   */
  lemma FailedViewIsBlankIff(d: Bytes)
    requires !ParseFlow(d).ok
    ensures ParseFlow(d).flow == BLANK <==> Headless(d)
    ensures !Headless(d) ==> ParseFlow(d).flow.ipVersion == d[0] as int / 16
  {
    hide ParseL4, WalkIPv6, Rd16;
    if !Headless(d) && d[0] as int / 16 == 6 {
      var end := if 40 + Rd16(d, 4) <= |d| then 40 + Rd16(d, 4) else |d|;
      WalkKeepsVersion(d, d[6], 40, end, MAX_HEADERS, BLANK.(ipVersion := 6, srcIp := d[8..24], dstIp := d[24..40]));
    } else if !Headless(d) {
      var ihl := d[0] as int % 16 * 4;
      if 20 <= ihl <= |d| {
        var g := BLANK.(ipVersion := 4, srcIp := Ip4(d[12..16], NO_IP), dstIp := Ip4(d[16..20], NO_IP));
        TransportKeepsVersion(d[9], d, ihl, if ihl <= Rd16(d, 2) <= |d| then Rd16(d, 2) else |d|, g);
      }
    }
  }

  /** A packet whose failed dissection leaves version and addresses: its transport is none the dissector reads. */
  lemma FailedViewIsNotBlank()
    ensures var d := [0x45] + NO_IP + [1, 1, 1];
            !ParseFlow(d).ok && ParseFlow(d).flow.ipVersion == 4 && ParseFlow(d).flow.dstIp != NO_IP
  {
    var d: Bytes := [0x45] + NO_IP + [1, 1, 1];
    assert d[16..20] == [0, 1, 1, 1];
    assert ParseFlow(d).flow.dstIp[1] == 1;
  }

  // ---------------------------------------------------------------- every byte of an endpoint counts

  const INVERSE := 3376959019 // of 131 modulo 2^32
  const QUOTIENT := 103

  /** Multiplying by 131 loses nothing modulo 2^32. */
  lemma Cancel(p: nat, q: nat, d: nat)
    requires (p * 131 + d) % TWO32 == (q * 131 + d) % TWO32
    ensures p % TWO32 == q % TWO32
  {
    var s := (p * 131 + d) / TWO32 - (q * 131 + d) / TWO32;
    var e := p - q;
    assert e * 131 == TWO32 * s;
    assert 131 * INVERSE == 1 + TWO32 * QUOTIENT;
    assert e * (131 * INVERSE) == TWO32 * s * INVERSE;
    Multiple(p, q, s * INVERSE - e * QUOTIENT);
  }

  lemma Multiple(p: nat, q: nat, m: int)
    requires p - q == TWO32 * m
    ensures p % TWO32 == q % TWO32
  {}

  lemma {:induction false} SameHash(a: seq<nat>, b: seq<nat>, rest: seq<nat>)
    requires Poly(a + rest) % TWO32 == Poly(b + rest) % TWO32
    ensures Poly(a) % TWO32 == Poly(b) % TWO32
    decreases |rest|
  {
    if rest == [] {
      assert a + rest == a && b + rest == b;
    } else {
      var init, d := rest[..|rest| - 1], rest[|rest| - 1];
      assert (a + rest)[..|a + rest| - 1] == a + init && (b + rest)[..|b + rest| - 1] == b + init;
      Cancel(Poly(a + init), Poly(b + init), d);
      SameHash(a, b, init);
    }
  }

  lemma SameLast(a: seq<nat>, x: nat, y: nat)
    requires x < TWO32 && y < TWO32 && Poly(a + [x]) % TWO32 == Poly(a + [y]) % TWO32
    ensures x == y
  {
    assert (a + [x])[..|a|] == a && (a + [y])[..|a|] == a;
    var p := Poly(a) * 131;
    assert (p + x) % TWO32 == (p + y) % TWO32;
  }

  /** No two endpoints that differ in one address byte, or in the port alone, have the same hash. */
  lemma EveryByteCounts(ip: Bytes, port: nat, i: nat, y: Byte, other: nat)
    requires i < |ip| && port < 0x1_0000 && other < 0x1_0000
    ensures EndpointHash(ip[i := y], port) == EndpointHash(ip, port) ==> y == ip[i]
    ensures EndpointHash(ip, other) == EndpointHash(ip, port) ==> other == port
  {
    var digits: seq<nat> := ip;
    if EndpointHash(ip[i := y], port) == EndpointHash(ip, port) {
      var rest: seq<nat> := ip[i + 1..] + [port];
      assert ip[i := y] + [port] == (digits[..i] + [y]) + rest;
      assert ip + [port] == (digits[..i] + [ip[i]]) + rest;
      SameHash(digits[..i] + [y], digits[..i] + [ip[i]], rest);
      SameLast(digits[..i], y, ip[i]);
    }
    if EndpointHash(ip, other) == EndpointHash(ip, port) { SameLast(ip, other, port); }
  }
}
