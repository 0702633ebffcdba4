/** Concrete packets and runs, from construction on, that show the exceptions to be real. */
module Witnesses {
  import opened Wire
  import opened Packets
  import opened FlowTable
  import opened FlowActions
  import opened Dissector
  import opened DissectorTheorems
  import opened Guarantees
  import opened Runs
  import RT = RecordTheorems
  import Grammar = ClientHelloGrammar
  import Hostname
  import opened Provenance
  import RingTheorems

  // ---------------------------------------------------------------- packets of one client and one server

  const HEADER := Ip4Header(0, [0, 0], 0, 64, [0, 0], [10, 0, 0, 1], [5, 214, 205, 173], [])
  const ZERO8: Bytes := [0, 0, 0, 0, 0, 0, 0, 0]
  const ZERO6: Bytes := [0, 0, 0, 0, 0, 0]

  /** TCP from 10.0.0.1:port to 5.214.205.173:443. */
  function SegmentOf(port: nat, flags: Byte, payload: Bytes): (s: Segment)
    requires port < 0x1_0000 && |payload| < 1000
    ensures SegmentOk(s) && Ip4Ok(HEADER, s)
  {
    Tcp(port, 443, ZERO8, 0, flags, ZERO6, [], payload)
  }

  function PacketOf(id: nat, port: nat, flags: Byte, payload: Bytes): (pkt: Packet)
    requires port < 0x1_0000 && |payload| < 1000
    ensures pkt.pending
  {
    var d := EncIp4(HEADER, SegmentOf(port, flags, payload));
    Packet(id, |d|, View(d), ALLOW, true)
  }

  function KeyFrom(port: nat): Key {
    RouteKey(Ip4View(HEADER).(ipProto := TCP, srcPort := port, dstPort := 443))
  }

  lemma ViewOf(id: nat, port: nat, flags: Byte, payload: Bytes)
    requires port < 0x1_0000 && |payload| < 1000
    ensures var pkt := PacketOf(id, port, flags, payload); var view := TcpView(pkt);
            && view.Some? && KeyOf(view.value) == KeyFrom(port)
            && view.value.tcpFlags == flags && view.value.payloadLen == |payload|
            && pkt.Data()[view.value.at..view.value.at + |payload|] == payload
  {
    hide EncIp4, ParseFlow, EndpointHash, Mix;
    var s := SegmentOf(port, flags, payload);
    var d := EncIp4(HEADER, s);
    assert d + [] == d;
    Ip4RoundTrip(HEADER, s, []);
  }

  // ---------------------------------------------------------------- the keys of two client ports

  lemma PolyStep(digits: seq<nat>, x: nat)
    ensures Poly(digits + [x]) == Poly(digits) * 131 + x
  {
    assert (digits + [x])[..|digits|] == digits;
  }

  lemma PolyZeros(digits: seq<nat>)
    ensures Poly(digits + [0, 0, 0]) == Poly(digits) * 2248091
  {
    PolyStep(digits, 0);
    PolyStep(digits + [0], 0);
    PolyStep(digits + [0] + [0], 0);
    assert digits + [0] + [0] + [0] == digits + [0, 0, 0];
  }

  lemma PolyFour(a: nat, b: nat, c: nat, d: nat)
    ensures Poly([a, b, c, d]) == ((a * 131 + b) * 131 + c) * 131 + d
  {
    PolyStep([], a);
    PolyStep([a], b);
    PolyStep([a, b], c);
    PolyStep([a, b, c], d);
    assert [] + [a] == [a] && [a] + [b] == [a, b] && [a, b] + [c] == [a, b, c] && [a, b, c] + [d] == [a, b, c, d];
  }

  lemma PolyPadded(x: seq<nat>)
    ensures Poly(x + ZERO12) == Poly(x) * 2248091 * 2248091 * 2248091 * 2248091
  {
    hide Poly;
    var z: seq<nat> := [0, 0, 0];
    var x1, x2, x3 := x + z, x + z + z, x + z + z + z;
    PolyZeros(x);
    PolyZeros(x1);
    PolyZeros(x2);
    PolyZeros(x3);
    assert x3 + z == x + ZERO12;
  }

  lemma PolyOfIp4(a: nat, b: nat, c: nat, d: nat, port: nat)
    ensures Poly([a, b, c, d] + ZERO12 + [port]) ==
      (((a * 131 + b) * 131 + c) * 131 + d) * 2248091 * 2248091 * 2248091 * 2248091 * 131 + port
  {
    hide Poly;
    PolyFour(a, b, c, d);
    PolyPadded([a, b, c, d]);
    PolyStep([a, b, c, d] + ZERO12, port);
  }

  lemma TheKeys()
    ensures KeyFrom(40087) == 0 && KeyFrom(40088) == 1000003 && KeyFrom(40089) == 2000006
  {
    PolyOfIp4(10, 0, 0, 1, 40087);
    PolyOfIp4(10, 0, 0, 1, 40088);
    PolyOfIp4(10, 0, 0, 1, 40089);
    PolyOfIp4(5, 214, 205, 173, 443);
    hide Poly;
    assert EndpointHash([10, 0, 0, 1] + ZERO12, 40087) == 3210930036;
    assert EndpointHash([10, 0, 0, 1] + ZERO12, 40088) == 3210930037;
    assert EndpointHash([10, 0, 0, 1] + ZERO12, 40089) == 3210930038;
    assert EndpointHash([5, 214, 205, 173] + ZERO12, 443) == 3684815726;
    hide EndpointHash;
  }

  // ---------------------------------------------------------------- a ClientHello for the host "a"

  const HOST: Bytes := [97]
  const ZERO34 := ZERO8 + ZERO8 + ZERO8 + ZERO8 + [0, 0]
  const HELLO := Grammar.Anatomy([0, 0, 50], ZERO34, [], [], [], 10, [], 4, [], [], [])

  lemma HelloFits()
    ensures Grammar.Fits(HELLO, HOST) && |Grammar.Assemble(HELLO, HOST)| == 54 && Hostname.IsHello(HELLO, HOST)
  {
    assert |ZERO34| == 34;
    assert Grammar.EncNames([]) + Grammar.EncName(0, HOST) == [0, 0, 1, 97];
    assert |Grammar.SniData(4, [], HOST, [])| == 6;
    assert |Grammar.Block(HELLO, HOST)| == 10;
    assert |Grammar.Head(HELLO)| == 42;
  }

  /** It in a single record. */
  ghost function HelloBytes(): (b: Bytes)
    ensures |b| == 59
  {
    HelloFits();
    RT.FrameOne(RT.Record(1, Grammar.Assemble(HELLO, HOST)))
  }

  lemma HelloIsFound()
    ensures Hostname.Extract(HelloBytes()) == Hostname.Found(HOST)
    ensures HelloBytes()[0] == 0x16 && HelloBytes()[1] == 0x03
  {
    HelloFits();
    hide Grammar.Assemble, Hostname.Extract;
    var r := RT.Record(1, Grammar.Assemble(HELLO, HOST));
    RT.Single(r);
    Hostname.RoundTrip([r], HELLO, HOST, []);
    assert HelloBytes() + [] == HelloBytes();
  }

  // ---------------------------------------------------------------- a hello fed at once

  lemma HelloOpens(id: nat, port: nat)
    requires port < 0x1_0000
    ensures var pkt := PacketOf(id, port, 0, HelloBytes());
            && TcpView(pkt).Some? && KeyOf(TcpView(pkt).value) == KeyFrom(port) && TcpView(pkt).value.payloadLen > 0
            && OpensTls(pkt.Data(), TcpView(pkt).value)
  {
    hide PacketOf, KeyFrom, TcpView, HelloBytes;
    var hello := HelloBytes();
    HelloIsFound();
    ViewOf(id, port, 0, hello);
    var pkt := PacketOf(id, port, 0, hello);
    var view := TcpView(pkt).value;
    assert pkt.Data()[view.at..view.at + 59][0] == hello[0] && pkt.Data()[view.at..view.at + 59][1] == hello[1];
  }

  /** With room in the table, what an opening packet becomes. */
  lemma Admits(s: State, maxFlows: nat, policy: Policy, pkt: Packet, order: seq<Key>, events: seq<Event>)
    requires Ok(s) && s.lastSweep == 0 && |s.conns| < maxFlows
    requires Opens(pkt) && KeyOf(TcpView(pkt).value) !in s.conns
    ensures var f := TcpView(pkt).value; var k := KeyOf(f);
            Feed(s, maxFlows, policy, pkt, 1, order, events) == Track(Open(s, k, 1), policy, k, f, pkt, events)
  {
    assert TcpView(pkt).Some?;
    hide TcpView, Opens, Track;
  }

  /** A client's whole hello in one packet, delivered by the reassembler at once. */
  ghost function HelloFeed(id: nat, port: nat, order: seq<Key>): (op: Op)
    requires port < 0x1_0000
    ensures op.OpFeed? && op.pkt.pending && op.order == order
  {
    OpFeed(PacketOf(id, port, 0, HelloBytes()), 1, order, [Data(CLIENT_SIDE, HelloBytes(), 1)])
  }

  /** `k` is newly blocked: it has taken the next slot of the ring and displaced the blocked flow named there. */
  ghost predicate Registered(s: State, t: State, k: Key) {
    && Ok(s) && t.ring == s.ring[s.next := k] && t.next == Succ(s.next, |s.ring|)
    && t.dropped == s.dropped && t.lastSweep == s.lastSweep && IsBlock(t, k)
    && var victim := s.ring[s.next];
       t.conns.Keys == s.conns.Keys + {k} - if victim != 0 && victim != k && IsBlock(s, victim) then {victim} else {}
  }

  lemma HelloRegisters(s: State, maxFlows: nat, policy: Policy, id: nat, port: nat, order: seq<Key>)
    requires Ok(s) && s.lastSweep == 0 && port < 0x1_0000 && |s.conns| < maxFlows && KeyFrom(port) !in s.conns
    requires policy(Some(HOST)) == BLOCK
    ensures Registered(s, Step(s, maxFlows, policy, HelloFeed(id, port, order)), KeyFrom(port))
  {
    hide PacketOf, KeyFrom, TcpView, HelloBytes, Hostname.Extract, OnEvents, Feed, Registered;
    var hello := HelloBytes();
    var pkt := PacketOf(id, port, 0, hello);
    var k := KeyFrom(port);
    HelloIsFound();
    HelloOpens(id, port);
    Admits(s, maxFlows, policy, pkt, order, [Data(CLIENT_SIDE, hello, 1)]);
    var held := Hold(Open(s, k, 1), k, pkt);
    HelloSettles(held, policy, k, hello);
    FromHeld(s, k, pkt, OnEvents(held, policy, k, [Data(CLIENT_SIDE, hello, 1)]));
  }

  lemma FromHeld(s: State, k: Key, pkt: Packet, t: State)
    requires Ok(s) && k !in s.conns && Registered(Hold(Open(s, k, 1), k, pkt), t, k) && t.conns[k].held == []
    ensures Registered(s, t.(toClose := []), k)
  {}

  lemma HelloSettles(s: State, policy: Policy, k: Key, hello: Bytes)
    requires Ok(s) && IsWait(s, k) && s.conns[k].stream == []
    requires Hostname.Extract(hello) == Hostname.Found(HOST) && policy(Some(HOST)) == BLOCK
    ensures var t := OnEvents(s, policy, k, [Data(CLIENT_SIDE, hello, 1)]); Registered(s, t, k) && t.conns[k].held == []
  {
    hide Settle, Hostname.Extract;
    var e := Data(CLIENT_SIDE, hello, 1);
    var t := Hear(Learn(s, k, 1, s.conns[k].closed), k, hello);
    assert [] + hello == hello;
    SettleRegisters(t, policy, k);
    assert OnEvent(s, policy, k, e) == Settle(t, policy, k, Some(HOST));
    assert [e][1..] == [];
    hide OnEvent;
    assert OnEvents(s, policy, k, [e]) == OnEvents(OnEvent(s, policy, k, e), policy, k, []);
  }

  lemma SettleRegisters(s: State, policy: Policy, k: Key)
    requires Ok(s) && IsWait(s, k) && policy(Some(HOST)) == BLOCK
    ensures Registered(s, Settle(s, policy, k, Some(HOST)), k) && Settle(s, policy, k, Some(HOST)).conns[k].held == []
  {
    hide Verdicts, GivenNotes;
  }

  lemma TwoSteps(s: State, maxFlows: nat, policy: Policy, a: Op, b: Op)
    requires Ok(s)
    ensures var t := Step(s, maxFlows, policy, a);
            && Run(s, maxFlows, policy, [a, b]) == Step(t, maxFlows, policy, b)
            && (RunOk(s, maxFlows, policy, [a, b]) <==> OpOk(s, a) && OpOk(t, b))
  {
    hide Step;
    var t := Step(s, maxFlows, policy, a);
    assert [a, b][1..] == [b] && [b][1..] == [];
    assert Run(t, maxFlows, policy, [b]) == Step(t, maxFlows, policy, b);
    assert RunOk(t, maxFlows, policy, [b]) <==> OpOk(t, b);
  }

  // ---------------------------------------------------------------- key 0 keeps an undecided flow out

  /** The client's hello, and then another flow's SYN, in an extractor built for one flow. */
  ghost function KeyZeroRun(): seq<Op> {
    [HelloFeed(1, 40087, []), OpFeed(PacketOf(2, 40088, SYN, []), 1, [0], [])]
  }

  /** A real packet has key 0, a real run blocks its flow, and there it keeps the next flow out although nothing waits. */
  lemma KeyZeroIsReached(policy: Policy)
    requires policy(Some(HOST)) == BLOCK
    ensures var view := TcpView(PacketOf(1, 40087, 0, HelloBytes())); view.Some? && KeyOf(view.value) == 0
    ensures Possible(1, 0, policy, KeyZeroRun())
    ensures var s := Outcome(1, 0, policy, KeyZeroRun());
            s.conns.Keys == {0} && IsBlock(s, 0) && s.dropped == 1 && LastIs(s, Decided(PacketOf(2, 40088, SYN, []), ALLOW))
  {
    hide PacketOf, KeyFrom, TcpView, HelloBytes, Step, Run, RunOk;
    var s := Init(1, 0);
    var ops := KeyZeroRun();
    TheKeys();
    HelloOpens(1, 40087);
    HelloRegisters(s, 1, policy, 1, 40087, []);
    TwoSteps(s, 1, policy, ops[0], ops[1]);
    SynIsTurnedAway(Step(s, 1, policy, ops[0]), policy);
  }

  lemma SynIsTurnedAway(s: State, policy: Policy)
    requires Ok(s) && s.conns.Keys == {0} && IsBlock(s, 0) && s.lastSweep == 0
    ensures var pkt := PacketOf(2, 40088, SYN, []); var t := Step(s, 1, policy, OpFeed(pkt, 1, [0], []));
            t.conns == s.conns && t.dropped == s.dropped + 1 && LastIs(t, Decided(pkt, ALLOW))
  {
    hide PacketOf, KeyFrom, TcpView, Place, EncIp4;
    ViewOf(2, 40088, SYN, []);
    TheKeys();
    TurnsAway(s, policy, PacketOf(2, 40088, SYN, []));
  }

  lemma TurnsAway(s: State, policy: Policy, pkt: Packet)
    requires Ok(s) && s.conns.Keys == {0} && IsBlock(s, 0)
    requires TcpView(pkt).Some? && KeyOf(TcpView(pkt).value) != 0 && IsClientSyn(TcpView(pkt).value)
    ensures var t := Place(s, 1, policy, pkt, 1, []);
            t.conns == s.conns && t.dropped == s.dropped + 1 && LastIs(t, Decided(pkt, ALLOW))
  {
    assert |s.conns| == |s.conns.Keys| == 1;
    assert Opens(pkt);
    hide TcpView, Opens, Evict;
    var i := RingTheorems.EvictIff(s);
  }

  // ---------------------------------------------------------------- a bare FIN slips through a block

  /** A SYN, and then a FIN that makes the reassembler deliver the hello. */
  ghost function BareFinRun(): seq<Op> {
    [OpFeed(PacketOf(1, 40088, SYN, []), 1, [], []),
     OpFeed(PacketOf(2, 40088, FIN, []), 1, [1000003], [Data(CLIENT_SIDE, HelloBytes(), 1)])]
  }

  lemma SynOpens(s: State, policy: Policy)
    requires Ok(s) && s.conns == map[] && s.lastSweep == 0
    ensures var t := Step(s, 1, policy, OpFeed(PacketOf(1, 40088, SYN, []), 1, [], []));
            t.conns == map[1000003 := Conn(Wait, [], [], 0, false, 1)] && t.lastSweep == 0
  {
    hide PacketOf, KeyFrom, TcpView, Feed, EncIp4;
    ViewOf(1, 40088, SYN, []);
    TheKeys();
    SynAdmits(s, policy, PacketOf(1, 40088, SYN, []));
  }

  lemma SynAdmits(s: State, policy: Policy, pkt: Packet)
    requires Ok(s) && s.conns == map[] && s.lastSweep == 0
    requires TcpView(pkt).Some? && TcpView(pkt).value.payloadLen == 0 && IsClientSyn(TcpView(pkt).value)
    ensures var t := Feed(s, 1, policy, pkt, 1, [], []);
            t.conns == map[KeyOf(TcpView(pkt).value) := Conn(Wait, [], [], 0, false, 1)] && t.lastSweep == 0
  {
    Admits(s, 1, policy, pkt, [], []);
    hide TcpView, Feed;
  }

  lemma FinSlips(s: State, policy: Policy)
    requires Ok(s) && s.conns == map[1000003 := Conn(Wait, [], [], 0, false, 1)] && s.lastSweep == 0 && policy(Some(HOST)) == BLOCK
    ensures var pkt := PacketOf(2, 40088, FIN, []);
            var t := Step(s, 1, policy, OpFeed(pkt, 1, [1000003], [Data(CLIENT_SIDE, HelloBytes(), 1)]));
            IsBlock(t, 1000003) && LastIs(t, Decided(pkt, ALLOW))
  {
    hide PacketOf, KeyFrom, TcpView, HelloBytes, Place, Hostname.Extract, EncIp4;
    ViewOf(2, 40088, FIN, []);
    TheKeys();
    HelloIsFound();
    BareHello(s, policy, 1000003, PacketOf(2, 40088, FIN, []), HelloBytes());
  }

  lemma BareHello(s: State, policy: Policy, k: Key, pkt: Packet, hello: Bytes)
    requires Ok(s) && s.conns == map[k := Conn(Wait, [], [], 0, false, 1)] && policy(Some(HOST)) == BLOCK
    requires TcpView(pkt).Some? && KeyOf(TcpView(pkt).value) == k
    requires TcpView(pkt).value.payloadLen == 0 && ChangesState(TcpView(pkt).value)
    requires Hostname.Extract(hello) == Hostname.Found(HOST)
    ensures var t := Place(s, 1, policy, pkt, 1, [Data(CLIENT_SIDE, hello, 1)]);
            IsBlock(t, k) && LastIs(t, Decided(pkt, ALLOW))
  {
    hide TcpView, OnEvents, Hostname.Extract, ChangesState;
    var t := Touch(s, k, 1);
    HelloSettles(t, policy, k, hello);
  }

  /** From construction on: the flow is blocked, and the packet that got it blocked goes through. */
  lemma BareFinIsReached(policy: Policy)
    requires policy(Some(HOST)) == BLOCK
    ensures Possible(1, 0, policy, BareFinRun())
    ensures var s := Outcome(1, 0, policy, BareFinRun());
            IsBlock(s, 1000003) && LastIs(s, Decided(PacketOf(2, 40088, FIN, []), ALLOW))
  {
    hide PacketOf, HelloBytes, Step, Run, RunOk;
    var s := Init(1, 0);
    var ops := BareFinRun();
    SynOpens(s, policy);
    TwoSteps(s, 1, policy, ops[0], ops[1]);
    FinSlips(Step(s, 1, policy, ops[0]), policy);
  }

  // ---------------------------------------------------------------- a stale slot costs a later block its place

  /** A client blocked, a flush, the same client blocked again, and then another: room for two blocked flows. */
  ghost function StaleSlotRun(): seq<Op> {
    [HelloFeed(1, 40088, []), OpFlush([1000003]), HelloFeed(2, 40088, []), HelloFeed(3, 40089, [1000003])]
  }

  lemma LoneFlush(s: State, policy: Policy, k: Key)
    requires Ok(s) && s.conns.Keys == {k} && IsBlock(s, k)
    ensures var t := Step(s, 2, policy, OpFlush([k]));
            t.conns == map[] && t.ring == s.ring && t.next == s.next && t.lastSweep == s.lastSweep
  {
    assert [k][1..] == [];
    assert Waiting(s.conns, [k]) == Waiting(s.conns, []) == [];
  }

  /**
   After the third step the ring names the one blocked flow twice; the fourth displaces it, although the ring
   has two slots and no other flow was blocked.
   */
  lemma StaleSlotIsReached(policy: Policy)
    requires policy(Some(HOST)) == BLOCK
    ensures Possible(2, 2, policy, StaleSlotRun())
    ensures var s := Outcome(2, 2, policy, StaleSlotRun()[..3]);
            s.ring == [1000003, 1000003] && s.conns.Keys == {1000003} && IsBlock(s, 1000003)
    ensures var s := Outcome(2, 2, policy, StaleSlotRun());
            s.ring == [2000006, 1000003] && s.conns.Keys == {2000006} && IsBlock(s, 2000006)
  {
    hide HelloFeed, KeyFrom, Step, Run, RunOk;
    var s0 := Init(2, 2);
    var ops := StaleSlotRun();
    BlockedTwice(s0, policy);
    var s2 := Step(Step(s0, 2, policy, ops[0]), 2, policy, ops[1]);
    var s3 := Step(s2, 2, policy, ops[2]);
    ThenAnother(s3, policy);
    FourSteps(s0, policy, ops[0], ops[1], ops[2], ops[3]);
    assert ops[..3] == [ops[0], ops[1], ops[2]];
  }

  lemma BlockedTwice(s0: State, policy: Policy)
    requires s0.ring == [0, 0] && s0.next == 0 && s0.conns == map[] && s0.lastSweep == 0 && policy(Some(HOST)) == BLOCK
    ensures var s1 := Step(s0, 2, policy, HelloFeed(1, 40088, []));
            var s2 := Step(s1, 2, policy, OpFlush([1000003]));
            var s3 := Step(s2, 2, policy, HelloFeed(2, 40088, []));
            && s1.conns.Keys == {1000003} && s2.conns == map[]
            && s3.ring == [1000003, 1000003] && s3.next == 0 && s3.conns.Keys == {1000003} && IsBlock(s3, 1000003)
            && s3.lastSweep == 0
  {
    hide HelloFeed, KeyFrom, Step;
    TheKeys();
    HelloRegisters(s0, 2, policy, 1, 40088, []);
    var s1 := Step(s0, 2, policy, HelloFeed(1, 40088, []));
    LoneFlush(s1, policy, 1000003);
    HelloRegisters(Step(s1, 2, policy, OpFlush([1000003])), 2, policy, 2, 40088, []);
  }

  lemma ThenAnother(s: State, policy: Policy)
    requires s.ring == [1000003, 1000003] && s.next == 0 && s.conns.Keys == {1000003} && IsBlock(s, 1000003)
    requires s.lastSweep == 0 && policy(Some(HOST)) == BLOCK
    ensures var t := Step(s, 2, policy, HelloFeed(3, 40089, [1000003]));
            t.ring == [2000006, 1000003] && t.conns.Keys == {2000006} && IsBlock(t, 2000006)
  {
    hide HelloFeed, KeyFrom, Step;
    TheKeys();
    assert |s.conns| == |s.conns.Keys| == 1;
    HelloRegisters(s, 2, policy, 3, 40089, [1000003]);
  }

  lemma FourSteps(s: State, policy: Policy, a: Op, b: Op, c: Op, d: Op)
    requires Ok(s)
    ensures var s1 := Step(s, 2, policy, a); var s2 := Step(s1, 2, policy, b);
            var s3 := Step(s2, 2, policy, c);
            && Run(s, 2, policy, [a, b, c]) == s3
            && Run(s, 2, policy, [a, b, c, d]) == Step(s3, 2, policy, d)
            && (RunOk(s, 2, policy, [a, b, c, d]) <==> OpOk(s, a) && OpOk(s1, b) && OpOk(s2, c) && OpOk(s3, d))
  {
    hide Step, OpOk;
    TwoSteps(s, 2, policy, a, b);
    TwoSteps(Step(Step(s, 2, policy, a), 2, policy, b), 2, policy, c, d);
    RunThen(s, 2, policy, [a, b], c);
    RunConcat(s, 2, policy, [a, b], [c, d]);
    assert [a, b] + [c] == [a, b, c] && [a, b] + [c, d] == [a, b, c, d];
  }
}
