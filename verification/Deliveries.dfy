/**
 What the feeds of a run deliver to one flow, and what becomes of it: a tracked flow waits on everything
 delivered, or has been put to the policy as a prefix of it, and early only for one of four reasons.
 */
module Deliveries {
  import opened Wire
  import opened Packets
  import opened FlowTable
  import opened FlowActions
  import opened History
  import opened EndToEnd
  import opened Runs
  import opened RingTheorems
  import Dissector
  import Hostname
  import RT = RecordTheorems
  import Grammar = ClientHelloGrammar

  // ---------------------------------------------------------------- what a run delivers

  /** The packet carries payload, or one of FIN, SYN and RST: the lowest three flag bits. */
  predicate Reassembled(f: Dissector.FlowView) {
    var flags := f.tcpFlags as int;
    f.payloadLen > 0 || flags % 2 == 1 || flags / 2 % 2 == 1 || flags / 4 % 2 == 1
  }

  lemma ReassembledBits(f: Dissector.FlowView)
    ensures Reassembled(f) <==> f.payloadLen > 0 || ChangesState(f)
  {}

  /** The reassembler sees such a packet of flow `k`, and no other. */
  predicate Reaches(pkt: Packet, k: Key) {
    TcpView(pkt).Some? && KeyOf(TcpView(pkt).value) == k && Reassembled(TcpView(pkt).value)
  }

  function DeliveredBy(op: Op, k: Key): seq<Bytes> {
    if op.OpFeed? && Reaches(op.pkt, k) then Chunks(op.events) else []
  }

  /** The client's chunks in the feeds of a run that reach the reassembler for flow `k`, in order. */
  function Delivered(ops: seq<Op>, k: Key): seq<Bytes> {
    if ops == [] then [] else DeliveredBy(ops[0], k) + Delivered(ops[1..], k)
  }

  // ---------------------------------------------------------------- what can cut a flow short

  predicate SweepsOut(s: State, now: int, k: Key) {
    && now - s.lastSweep >= 1_000_000_000 && k in s.conns
    && now - s.conns[k].last >= if s.conns[k].mode == Wait then 10_000_000_000 else 60_000_000_000
  }

  /** The reassembler reports the end of the connection on seeing this packet. */
  ghost predicate Ended(pkt: Packet, events: seq<Event>) {
    TcpView(pkt).Some? && Reassembled(TcpView(pkt).value) && !NoEnd(events)
  }

  /** A flush, an idle sweep, the end of the connection, or one packet more than may be held. */
  ghost predicate Cuts(s: State, op: Op, k: Key) {
    match op
    case OpFeed(pkt, now, _, events) =>
      || SweepsOut(s, now, k)
      || (TcpView(pkt).Some? && KeyOf(TcpView(pkt).value) == k && (|HeldOf(s, k)| >= 32 || Ended(pkt, events)))
    case OpTick(now, _) => SweepsOut(s, now, k)
    case OpFlush(_) => true
    case OpDrain => false
  }

  /** Some operation of the run may end the wait of `k` early. */
  ghost predicate CutShort(s: State, maxFlows: nat, policy: Policy, ops: seq<Op>, k: Key)
    requires Ok(s)
    decreases |ops|
  {
    ops != [] && (Cuts(s, ops[0], k) || CutShort(Step(s, maxFlows, policy, ops[0]), maxFlows, policy, ops[1..], k))
  }

  /** A stream on which the extractor decides by itself: it has an answer, or is over the limit. */
  predicate Settles(stream: Bytes) { !Hostname.Extract(stream).NeedMore? || |stream| > 32768 }

  /** Between the two states `k` was put to the policy as what `stream` says. */
  ghost predicate AskedOn(s: State, t: State, policy: Policy, k: Key, stream: Bytes) {
    s.log <= t.log && Asked(k, Answer(stream), stream, policy(Answer(stream))) in t.log[|s.log|..]
  }

  /**
   From a state where `k` waits on `x` and with `chunks` delivered to it since, `k` waits on all of them, or
   was asked on the first `n`; if not by the stream itself, then because of `cut`.
   */
  ghost predicate Heeds(s: State, t: State, policy: Policy, k: Key, x: Bytes, chunks: seq<Bytes>, cut: bool) {
    || (IsWait(t, k) && t.conns[k].stream == x + Hostname.Concat(chunks) && s.log <= t.log)
    || exists n :: 0 <= n <= |chunks| && AskedAfter(s, t, policy, k, x + Hostname.Concat(chunks[..n]), cut)
  }

  ghost predicate AskedAfter(s: State, t: State, policy: Policy, k: Key, stream: Bytes, cut: bool) {
    AskedOn(s, t, policy, k, stream) && (Settles(stream) || cut)
  }

  lemma AskedLater(s: State, t: State, u: State, policy: Policy, k: Key, stream: Bytes)
    requires AskedOn(s, t, policy, k, stream) && t.log <= u.log
    ensures AskedOn(s, u, policy, k, stream)
  {
    var n := Asked(k, Answer(stream), stream, policy(Answer(stream)));
    hide Answer;
    var i :| 0 <= i < |t.log[|s.log|..]| && t.log[|s.log|..][i] == n;
    assert u.log[|s.log|..][i] == n;
  }

  lemma AskedSince(s: State, t: State, u: State, policy: Policy, k: Key, stream: Bytes)
    requires s.log <= t.log && AskedOn(t, u, policy, k, stream)
    ensures AskedOn(s, u, policy, k, stream)
  {
    var n := Asked(k, Answer(stream), stream, policy(Answer(stream)));
    hide Answer;
    var i :| 0 <= i < |u.log[|t.log|..]| && u.log[|t.log|..][i] == n;
    assert u.log[|s.log|..][|t.log| - |s.log| + i] == n;
  }

  lemma ConcatBoth(a: seq<Bytes>, b: seq<Bytes>)
    ensures Hostname.Concat(a + b) == Hostname.Concat(a) + Hostname.Concat(b)
  {
    if a == [] {
      assert a + b == b;
    } else {
      ConcatBoth(a[1..], b);
      assert (a + b)[1..] == a[1..] + b;
      Assoc(a[0], Hostname.Concat(a[1..]), Hostname.Concat(b));
    }
  }

  lemma NothingMore(x: Bytes)
    ensures x + Hostname.Concat([]) == x
  {}

  /** Nothing delivered, and either nothing happened to the flow or it was cut short. */
  lemma HeedsNothing(s: State, t: State, policy: Policy, k: Key, x: Bytes, chunks: seq<Bytes>, cut: bool)
    requires (IsWait(t, k) && t.conns[k].stream == x && s.log <= t.log && chunks == []) || (AskedOn(s, t, policy, k, x) && cut)
    ensures Heeds(s, t, policy, k, x, chunks, cut)
  {
    NothingMore(x);
    if !(IsWait(t, k) && t.conns[k].stream == x && s.log <= t.log && chunks == []) {
      assert chunks[..0] == [];
      assert AskedAfter(s, t, policy, k, x + Hostname.Concat(chunks[..0]), cut);
    }
  }

  /** One stretch after the other. */
  lemma HeedsBoth(
      s: State, t: State, u: State, policy: Policy, k: Key, x: Bytes, a: seq<Bytes>, b: seq<Bytes>, cutA: bool, cutB: bool)
    requires Heeds(s, t, policy, k, x, a, cutA) && t.log <= u.log
    requires IsWait(t, k) && t.conns[k].stream == x + Hostname.Concat(a) && s.log <= t.log ==>
               Heeds(t, u, policy, k, x + Hostname.Concat(a), b, cutB)
    ensures Heeds(s, u, policy, k, x, a + b, cutA || cutB)
  {
    hide Settles, Hostname.Concat, AskedOn;
    if IsWait(t, k) && t.conns[k].stream == x + Hostname.Concat(a) && s.log <= t.log {
      ConcatBoth(a, b);
      Assoc(x, Hostname.Concat(a), Hostname.Concat(b));
      if n :| 0 <= n <= |b| && AskedAfter(t, u, policy, k, x + Hostname.Concat(a) + Hostname.Concat(b[..n]), cutB) {
        var y := x + Hostname.Concat(a) + Hostname.Concat(b[..n]);
        AskedSince(s, t, u, policy, k, y);
        ConcatBoth(a, b[..n]);
        Assoc(x, Hostname.Concat(a), Hostname.Concat(b[..n]));
        assert (a + b)[..|a| + n] == a + b[..n];
        assert AskedAfter(s, u, policy, k, x + Hostname.Concat((a + b)[..|a| + n]), cutA || cutB);
      }
    } else {
      var n :| 0 <= n <= |a| && AskedAfter(s, t, policy, k, x + Hostname.Concat(a[..n]), cutA);
      AskedLater(s, t, u, policy, k, x + Hostname.Concat(a[..n]));
      assert (a + b)[..n] == a[..n];
      assert AskedAfter(s, u, policy, k, x + Hostname.Concat((a + b)[..n]), cutA || cutB);
    }
  }

  // ---------------------------------------------------------------- the flow's own packets

  lemma SettleAsks(s: State, policy: Policy, k: Key)
    requires Ok(s) && IsWait(s, k)
    ensures AskedOn(s, Settle(s, policy, k, Answer(s.conns[k].stream)), policy, k, s.conns[k].stream)
  {
    var x := s.conns[k].stream;
    var host := Answer(x);
    hide Answer, GivenNotes, Verdicts;
    var t := Settle(s, policy, k, host);
    assert t.log[|s.log|] == Asked(k, host, x, policy(host));
    assert t.log[|s.log|..][0] == t.log[|s.log|];
  }

  /** A waiting flow's stream has no answer yet. */
  ghost predicate Undecided(s: State, k: Key) { IsWait(s, k) && Hostname.Extract(s.conns[k].stream).NeedMore? }

  lemma OnEventHeeds(s: State, policy: Policy, k: Key, e: Event)
    requires Ok(s) && Undecided(s, k)
    ensures var t := OnEvent(s, policy, k, e);
            && Heeds(s, t, policy, k, s.conns[k].stream, Chunks([e]), e.End?) && s.log <= t.log
            && (IsWait(t, k) ==> Undecided(t, k) && t.conns[k].stream == s.conns[k].stream + Hostname.Concat(Chunks([e])))
  {
    hide *;
    if e.Data? && e.side == 0 {
      OneClientChunk(e);
      OnChunkHeeds(s, policy, k, e);
    } else if e.End? {
      OnEndHeeds(s, policy, k, e);
    } else {
      OnOtherHeeds(s, policy, k, e);
    }
  }

  lemma OneClientChunk(e: Event)
    ensures Chunks([e]) == if e.Data? && e.side == 0 then [e.chunk] else []
  {
    assert [e][1..] == [];
  }

  lemma OnEndHeeds(s: State, policy: Policy, k: Key, e: Event)
    requires Ok(s) && Undecided(s, k) && e.End?
    ensures var t := OnEvent(s, policy, k, e);
            Heeds(s, t, policy, k, s.conns[k].stream, Chunks([e]), true) && s.log <= t.log && !IsWait(t, k)
  {
    hide Settle, Heeds;
    var l := Learn(s, k, s.conns[k].token, true);
    var t := OnEvent(s, policy, k, e);
    SettleAsks(l, policy, k);
    SettledFor(l, policy, k, None);
    AskedSince(s, l, t, policy, k, s.conns[k].stream);
    HeedsNothing(s, t, policy, k, s.conns[k].stream, Chunks([e]), true);
  }

  lemma OnOtherHeeds(s: State, policy: Policy, k: Key, e: Event)
    requires Ok(s) && Undecided(s, k) && !e.End? && !(e.Data? && e.side == 0)
    ensures var t := OnEvent(s, policy, k, e);
            && Heeds(s, t, policy, k, s.conns[k].stream, Chunks([e]), false) && s.log <= t.log
            && Undecided(t, k) && t.conns[k].stream == s.conns[k].stream + Hostname.Concat(Chunks([e]))
  {
    hide Heeds, Hostname.Extract;
    OneClientChunk(e);
    NothingMore(s.conns[k].stream);
    HeedsNothing(s, OnEvent(s, policy, k, e), policy, k, s.conns[k].stream, [], false);
  }

  lemma OnChunkHeeds(s: State, policy: Policy, k: Key, e: Event)
    requires Ok(s) && Undecided(s, k) && e.Data? && e.side == 0
    ensures var t := OnEvent(s, policy, k, e);
            && Heeds(s, t, policy, k, s.conns[k].stream, [e.chunk], false) && s.log <= t.log
            && (IsWait(t, k) ==> Undecided(t, k) && t.conns[k].stream == s.conns[k].stream + Hostname.Concat([e.chunk]))
  {
    var x := s.conns[k].stream;
    var t := OnEvent(s, policy, k, e);
    var h := Hear(Learn(s, k, e.token, s.conns[k].closed), k, e.chunk);
    var y := h.conns[k].stream;
    hide Settle, AskedOn, Hostname.Extract;
    assert [e.chunk][1..] == [] && y == x + Hostname.Concat([e.chunk]);
    if Settles(y) {
      SettleAsks(h, policy, k);
      SettledFor(h, policy, k, Answer(y));
      hide Answer, AskedFor;
      AskedSince(s, h, t, policy, k, y);
      assert [e.chunk][..1] == [e.chunk];
      assert AskedAfter(s, t, policy, k, x + Hostname.Concat([e.chunk][..1]), false);
    }
  }

  lemma {:induction false} OnEventsHeed(s: State, policy: Policy, k: Key, events: seq<Event>)
    requires Ok(s) && Undecided(s, k)
    ensures var t := OnEvents(s, policy, k, events);
            && Heeds(s, t, policy, k, s.conns[k].stream, Chunks(events), !NoEnd(events)) && s.log <= t.log
    decreases |events|
  {
    var x := s.conns[k].stream;
    if events == [] {
      HeedsNothing(s, s, policy, k, x, [], false);
    } else {
      var e, rest := events[0], events[1..];
      var t, u := OnEvent(s, policy, k, e), OnEvents(s, policy, k, events);
      OnEventHeeds(s, policy, k, e);
      FirstEvent(events);
      hide OnEvent, Heeds, Chunks, NoEnd;
      if IsWait(t, k) {
        OnEventsHeed(t, policy, k, rest);
      } else {
        DecidedLogs(t, policy, k, rest);
      }
      HeedsBoth(s, t, u, policy, k, x, Chunks([e]), Chunks(rest), e.End?, !NoEnd(rest));
    }
  }

  lemma FirstEvent(events: seq<Event>)
    requires events != []
    ensures Chunks(events) == Chunks([events[0]]) + Chunks(events[1..])
    ensures !NoEnd(events) <==> events[0].End? || !NoEnd(events[1..])
  {
    OneClientChunk(events[0]);
    if i :| 0 <= i < |events[1..]| && events[1..][i].End? { assert events[i + 1].End?; }
  }

  /** A flow that does not wait writes nothing more. */
  lemma {:induction false} DecidedLogs(s: State, policy: Policy, k: Key, events: seq<Event>)
    requires Ok(s) && !IsWait(s, k)
    ensures OnEvents(s, policy, k, events).log == s.log
    decreases |events|
  {
    if events != [] { DecidedLogs(OnEvent(s, policy, k, events[0]), policy, k, events[1..]); }
  }

  /** Bookkeeping before and after changes nothing that matters here. */
  lemma HeedsAround(s: State, h: State, t: State, u: State, policy: Policy, k: Key, x: Bytes, chunks: seq<Bytes>, cut: bool)
    requires s.log <= h.log && Heeds(h, t, policy, k, x, chunks, cut) && t.log <= u.log
    requires IsWait(t, k) ==> IsWait(u, k) && u.conns[k].stream == t.conns[k].stream
    ensures Heeds(s, u, policy, k, x, chunks, cut)
  {
    hide AskedOn, Settles, Hostname.Concat;
    if !(IsWait(t, k) && t.conns[k].stream == x + Hostname.Concat(chunks) && h.log <= t.log) {
      var n :| 0 <= n <= |chunks| && AskedAfter(h, t, policy, k, x + Hostname.Concat(chunks[..n]), cut);
      AskedLater(h, t, u, policy, k, x + Hostname.Concat(chunks[..n]));
      AskedSince(s, h, u, policy, k, x + Hostname.Concat(chunks[..n]));
      assert AskedAfter(s, u, policy, k, x + Hostname.Concat(chunks[..n]), cut);
    }
  }

  /** What a packet of the flow makes of it: the reassembler's chunks, if it is one that gets there. */
  lemma TrackHeeds(s: State, policy: Policy, k: Key, f: Dissector.FlowView, pkt: Packet, events: seq<Event>)
    requires Ok(s) && Undecided(s, k)
    ensures var t := Track(s, policy, k, f, pkt, events);
            && Heeds(s, t, policy, k, s.conns[k].stream, if Reassembled(f) then Chunks(events) else [],
                     |s.conns[k].held| >= 32 || (Reassembled(f) && !NoEnd(events)))
            && s.log <= t.log
  {
    ReassembledBits(f);
    hide Heeds, OnEvents, Settle, Chunks, NoEnd, ChangesState, Reassembled, Hostname.Extract;
    var x := s.conns[k].stream;
    var t := Track(s, policy, k, f, pkt, events);
    if |s.conns[k].held| >= 32 {
      FloodAsks(s, policy, k, pkt, f.payloadLen > 0);
      HeedsNothing(s, t, policy, k, x, if Reassembled(f) then Chunks(events) else [], true);
    } else if !Reassembled(f) {
      HeedsNothing(s, t, policy, k, x, [], false);
    } else {
      var h := if f.payloadLen > 0 then Hold(s, k, pkt) else s;
      OnEventsHeed(h, policy, k, events);
      HeedsAround(s, h, OnEvents(h, policy, k, events), t, policy, k, x, Chunks(events), !NoEnd(events));
    }
  }

  lemma FloodAsks(s: State, policy: Policy, k: Key, pkt: Packet, payload: bool)
    requires Ok(s) && Undecided(s, k)
    ensures AskedOn(s, Give(Resolve(s, policy, k, None), Some(k), payload, pkt, ALLOW), policy, k, s.conns[k].stream)
  {
    hide Settle, AskedOn;
    SettleAsks(s, policy, k);
    AskedLater(s, Resolve(s, policy, k, None), Give(Resolve(s, policy, k, None), Some(k), payload, pkt, ALLOW),
               policy, k, s.conns[k].stream);
  }

  // ---------------------------------------------------------------- everything else that happens

  ghost predicate Spared(s: State, t: State, k: Key) { IsWait(t, k) && k in s.conns && t.conns[k] == s.conns[k] }

  lemma SettleSpares(s: State, policy: Policy, j: Key, host: Option<Bytes>, k: Key)
    requires Ok(s) && j in s.conns && IsWait(s, k) && j != k
    ensures Spared(s, Settle(s, policy, j, host), k) && s.log <= Settle(s, policy, j, host).log
  {
    hide GivenNotes, Verdicts;
  }

  lemma {:induction false} OnEventsSpare(s: State, policy: Policy, j: Key, events: seq<Event>, k: Key)
    requires Ok(s) && IsWait(s, k) && j != k
    ensures Spared(s, OnEvents(s, policy, j, events), k)
    decreases |events|
  {
    if events != [] {
      OnEventSpares(s, policy, j, events[0], k);
      OnEventsSpare(OnEvent(s, policy, j, events[0]), policy, j, events[1..], k);
    }
  }

  lemma OnEventSpares(s: State, policy: Policy, j: Key, e: Event, k: Key)
    requires Ok(s) && IsWait(s, k) && j != k
    ensures Spared(s, OnEvent(s, policy, j, e), k)
  {
    hide Settle, Hostname.Extract;
    match e {
      case Start(_) =>
      case Data(side, chunk, token) =>
        if side == 0 && IsWait(s, j) {
          var t := Hear(Learn(s, j, token, s.conns[j].closed), j, chunk);
          SettleSpares(t, policy, j, Answer(t.conns[j].stream), k);
          SettleSpares(t, policy, j, None, k);
        }
      case End => if IsWait(s, j) { SettleSpares(Learn(s, j, s.conns[j].token, true), policy, j, None, k); }
    }
  }

  lemma TrackSpares(s: State, policy: Policy, j: Key, f: Dissector.FlowView, pkt: Packet, events: seq<Event>, k: Key)
    requires Ok(s) && j in s.conns && IsWait(s, k) && j != k
    ensures Spared(s, Track(s, policy, j, f, pkt, events), k)
  {
    hide OnEvents, Settle;
    if IsWait(s, j) { SettleSpares(s, policy, j, None, k); }
    OnEventsSpare(Hold(s, j, pkt), policy, j, events, k);
    OnEventsSpare(s, policy, j, events, k);
  }

  /** A packet of another flow, or of none, leaves a waiting flow alone. */
  lemma PlaceSpares(s: State, maxFlows: nat, policy: Policy, pkt: Packet, now: int, events: seq<Event>, k: Key)
    requires Ok(s) && IsWait(s, k) && (TcpView(pkt).Some? ==> KeyOf(TcpView(pkt).value) != k)
    ensures Spared(s, Place(s, maxFlows, policy, pkt, now, events), k)
  {
    hide Track, Evict, TcpView, Opens;
    if TcpView(pkt).Some? {
      var f := TcpView(pkt).value;
      var j := KeyOf(f);
      if j in s.conns {
        TrackSpares(Touch(s, j, now), policy, j, f, pkt, events, k);
      } else {
        EvictSpares(s, |s.ring|);
        TrackSpares(Open(MakeRoom(s, maxFlows), j, now), policy, j, f, pkt, events, k);
      }
    }
  }

  lemma PlaceHeeds(s: State, maxFlows: nat, policy: Policy, pkt: Packet, now: int, order: seq<Key>, events: seq<Event>, k: Key)
    requires Ok(s) && Undecided(s, k) && s.log <= Place(s, maxFlows, policy, pkt, now, events).log
    ensures Heeds(s, Place(s, maxFlows, policy, pkt, now, events), policy, k, s.conns[k].stream,
                  DeliveredBy(OpFeed(pkt, now, order, events), k),
                  TcpView(pkt).Some? && KeyOf(TcpView(pkt).value) == k && (|HeldOf(s, k)| >= 32 || Ended(pkt, events)))
  {
    hide Heeds, Track, Evict, TcpView, Opens, Reassembled, NoEnd, Hostname.Extract;
    var x := s.conns[k].stream;
    var t := Place(s, maxFlows, policy, pkt, now, events);
    if TcpView(pkt).Some? && KeyOf(TcpView(pkt).value) == k {
      var f := TcpView(pkt).value;
      var u := Touch(s, k, now);
      TrackHeeds(u, policy, k, f, pkt, events);
      HeedsAround(s, u, t, t, policy, k, x, DeliveredBy(OpFeed(pkt, now, order, events), k),
                  |HeldOf(s, k)| >= 32 || Ended(pkt, events));
    } else {
      PlaceSpares(s, maxFlows, policy, pkt, now, events, k);
      HeedsNothing(s, t, policy, k, x, [], false);
    }
  }

  lemma ExpireGrows(s: State, policy: Policy, j: Key)
    requires Ok(s)
    ensures s.log <= Expire(s, policy, j).log
  {
    hide GivenNotes, Verdicts;
  }

  lemma {:induction false} ExpireAllHeeds(s: State, policy: Policy, keys: seq<Key>, k: Key)
    requires Ok(s)
    ensures var t := ExpireAll(s, policy, keys);
            && s.log <= t.log
            && (Undecided(s, k) ==> if k in keys then AskedOn(s, t, policy, k, s.conns[k].stream) else Spared(s, t, k))
    decreases |keys|
  {
    if keys != [] {
      var t, u := Expire(s, policy, keys[0]), ExpireAll(s, policy, keys);
      ExpireGrows(s, policy, keys[0]);
      ExpireAllHeeds(t, policy, keys[1..], k);
      hide Settle, AskedOn, Hostname.Extract;
      if Undecided(s, k) {
        if keys[0] == k {
          SettleAsks(s, policy, k);
          AskedLater(s, t, u, policy, k, s.conns[k].stream);
        } else {
          if IsWait(s, keys[0]) { SettleSpares(s, policy, keys[0], None, k); }
          if k in keys { AskedSince(s, t, u, policy, k, s.conns[k].stream); }
        }
      }
    }
  }

  lemma {:induction false} ResolveAllHeeds(s: State, policy: Policy, keys: seq<Key>, k: Key)
    requires Ok(s)
    ensures var t := ResolveAll(s, policy, keys);
            s.log <= t.log && (Undecided(s, k) && k in keys ==> AskedOn(s, t, policy, k, s.conns[k].stream))
    decreases |keys|
  {
    if keys != [] {
      var t, u := Resolve(s, policy, keys[0], None), ResolveAll(s, policy, keys);
      ResolveGrows(s, policy, keys[0]);
      ResolveAllHeeds(t, policy, keys[1..], k);
      hide Settle, AskedOn, Hostname.Extract;
      if Undecided(s, k) && k in keys {
        if keys[0] == k {
          SettleAsks(s, policy, k);
          AskedLater(s, t, u, policy, k, s.conns[k].stream);
        } else {
          if IsWait(s, keys[0]) { SettleSpares(s, policy, keys[0], None, k); }
          AskedSince(s, t, u, policy, k, s.conns[k].stream);
        }
      }
    }
  }

  lemma ResolveGrows(s: State, policy: Policy, j: Key)
    requires Ok(s)
    ensures s.log <= Resolve(s, policy, j, None).log
  {
    hide GivenNotes, Verdicts;
  }

  lemma {:induction false} ExpiredIsIdle(conns: map<Key, Conn>, now: int, order: seq<Key>, k: Key)
    requires k in Expired(conns, now, order)
    ensures k in conns && IsIdle(conns[k], now)
  {
    if !(order[0] == k && k in conns && IsIdle(conns[k], now)) { ExpiredIsIdle(conns, now, order[1..], k); }
  }

  lemma TickHeeds(s: State, policy: Policy, now: int, order: seq<Key>, k: Key)
    requires Ok(s) && Undecided(s, k)
    ensures var t := Tick(s, policy, now, order);
            && s.log <= t.log
            && (Spared(s, t, k) || (AskedOn(s, t, policy, k, s.conns[k].stream) && SweepsOut(s, now, k)))
  {
    var u := s.(lastSweep := now);
    var keys := Expired(u.conns, now, order);
    ExpireAllHeeds(u, policy, keys, k);
    if now - s.lastSweep >= SWEEP_INTERVAL && k in keys { ExpiredIsIdle(u.conns, now, order, k); }
    hide ExpireAll, Expired, Hostname.Extract;
  }

  lemma FlushAsks(s: State, policy: Policy, order: seq<Key>, k: Key)
    requires Ok(s) && Undecided(s, k) && IsOrder(order, s.conns)
    ensures AskedOn(s, Flush(s, policy, order), policy, k, s.conns[k].stream)
  {
    var keys := Waiting(s.conns, order);
    AllWaiting(s.conns, order, k);
    ResolveAllHeeds(s, policy, keys, k);
    hide ResolveAll, Waiting, AskedOn, Hostname.Extract;
    AskedLater(s, ResolveAll(s, policy, keys), Flush(s, policy, order), policy, k, s.conns[k].stream);
  }

  // ---------------------------------------------------------------- over whole runs

  lemma QuietIsUndecided(s: State, k: Key)
    requires Quiet(s, None) && IsWait(s, k)
    ensures Undecided(s, k)
  {}

  lemma WeakerCut(s: State, t: State, policy: Policy, k: Key, x: Bytes, chunks: seq<Bytes>, cut: bool, cut': bool)
    requires Heeds(s, t, policy, k, x, chunks, cut) && (cut ==> cut')
    ensures Heeds(s, t, policy, k, x, chunks, cut')
  {
    if n :| 0 <= n <= |chunks| && AskedAfter(s, t, policy, k, x + Hostname.Concat(chunks[..n]), cut) {
      assert AskedAfter(s, t, policy, k, x + Hostname.Concat(chunks[..n]), cut');
    }
  }

  lemma PlaceGrows(s: State, maxFlows: nat, policy: Policy, pkt: Packet, now: int, events: seq<Event>)
    requires Quiet(s, None) && pkt.pending
    ensures s.log <= Place(s, maxFlows, policy, pkt, now, events).log
  {
    var e := Env(maxFlows, policy, now, true);
    PlaceReaches(e, s, pkt, events);
    ReachTells(e, s, Place(s, maxFlows, policy, pkt, now, events));
  }

  lemma FeedHeeds(s: State, maxFlows: nat, policy: Policy, pkt: Packet, now: int, order: seq<Key>, events: seq<Event>, k: Key)
    requires Quiet(s, None) && pkt.pending && IsWait(s, k)
    ensures var op := OpFeed(pkt, now, order, events);
            Heeds(s, Feed(s, maxFlows, policy, pkt, now, order, events), policy, k, s.conns[k].stream, DeliveredBy(op, k), Cuts(s, op, k))
  {
    var op := OpFeed(pkt, now, order, events);
    var x := s.conns[k].stream;
    QuietIsUndecided(s, k);
    TickHeeds(s, policy, now, order, k);
    TickReaches(Env(maxFlows, policy, now, true), s, order);
    var t, u := Tick(s, policy, now, order), Feed(s, maxFlows, policy, pkt, now, order, events);
    PlaceGrows(t, maxFlows, policy, pkt, now, events);
    hide Heeds, AskedOn, Tick, Place, TcpView, SweepsOut, NoEnd, Quiet, Reach, DeliveredBy, Hostname.Extract;
    HeedsNothing(s, t, policy, k, x, [], SweepsOut(s, now, k));
    NothingMore(x);
    var late := TcpView(pkt).Some? && KeyOf(TcpView(pkt).value) == k
      && (|HeldOf(t, k)| >= 32 || Ended(pkt, events));
    if IsWait(t, k) {
      QuietIsUndecided(t, k);
      PlaceHeeds(t, maxFlows, policy, pkt, now, order, events, k);
    }
    HeedsBoth(s, t, u, policy, k, x, [], DeliveredBy(op, k), SweepsOut(s, now, k), late);
    assert [] + DeliveredBy(op, k) == DeliveredBy(op, k);
    WeakerCut(s, u, policy, k, x, DeliveredBy(op, k), SweepsOut(s, now, k) || late, Cuts(s, op, k));
  }

  lemma StepHeeds(s: State, maxFlows: nat, policy: Policy, op: Op, k: Key)
    requires Quiet(s, None) && OpOk(s, op) && IsWait(s, k)
    ensures Heeds(s, Step(s, maxFlows, policy, op), policy, k, s.conns[k].stream, DeliveredBy(op, k), Cuts(s, op, k))
  {
    QuietIsUndecided(s, k);
    var x := s.conns[k].stream;
    var t := Step(s, maxFlows, policy, op);
    hide Heeds, Tick, Flush, AskedOn, Hostname.Extract, Quiet;
    match op {
      case OpFeed(pkt, now, order, events) => FeedHeeds(s, maxFlows, policy, pkt, now, order, events, k);
      case OpTick(now, order) =>
        TickHeeds(s, policy, now, order, k);
        HeedsNothing(s, t, policy, k, x, [], Cuts(s, op, k));
      case OpFlush(order) =>
        FlushAsks(s, policy, order, k);
        HeedsNothing(s, t, policy, k, x, [], true);
      case OpDrain => HeedsNothing(s, t, policy, k, x, [], false);
    }
  }

  /**
   Through any run, a flow that waited on `x` waits on `x` and everything the run delivered to it, or was put
   to the policy as what `x` and the first few chunks say; before they say anything only if it was cut short.
   */
  lemma {:induction false} RunHeeds(s: State, maxFlows: nat, policy: Policy, ops: seq<Op>, k: Key)
    requires Quiet(s, None) && RunOk(s, maxFlows, policy, ops) && IsWait(s, k)
    ensures Heeds(s, Run(s, maxFlows, policy, ops), policy, k, s.conns[k].stream, Delivered(ops, k), CutShort(s, maxFlows, policy, ops, k))
    decreases |ops|
  {
    var x := s.conns[k].stream;
    if ops == [] {
      HeedsNothing(s, s, policy, k, x, [], false);
    } else {
      var t := Step(s, maxFlows, policy, ops[0]);
      var u := Run(s, maxFlows, policy, ops);
      StepReaches(s, maxFlows, policy, ops[0]);
      StepHeeds(s, maxFlows, policy, ops[0], k);
      RunGrows(t, maxFlows, policy, ops[1..]);
      hide Heeds, Step, Cuts, Quiet, DeliveredBy;
      if IsWait(t, k) { RunHeeds(t, maxFlows, policy, ops[1..], k); }
      HeedsBoth(s, t, u, policy, k, x, DeliveredBy(ops[0], k), Delivered(ops[1..], k),
                Cuts(s, ops[0], k), CutShort(t, maxFlows, policy, ops[1..], k));
    }
  }

  // ---------------------------------------------------------------- from the packet that opens a flow

  lemma {:induction false} EvictGrows(s: State, tries: nat)
    requires Ok(s)
    ensures s.log <= Evict(s, tries).log
    decreases tries
  {
    if tries > 0 && !VictimAtNext(s) { EvictGrows(TurnSlot(s), tries - 1); }
  }

  /** The table just after a feed has opened its packet's flow. */
  function Begun(s: State, maxFlows: nat, policy: Policy, pkt: Packet, now: int, order: seq<Key>): (r: State)
    requires Ok(s) && TcpView(pkt).Some?
    ensures Ok(r)
  {
    Open(MakeRoom(Tick(s, policy, now, order), maxFlows), KeyOf(TcpView(pkt).value), now)
  }

  /** The feed that opens a flow already delivers to it. */
  lemma OpeningHeeds(s: State, maxFlows: nat, policy: Policy, pkt: Packet, now: int, order: seq<Key>, events: seq<Event>)
    requires Ok(s) && WantsIn(Tick(s, policy, now, order), pkt)
    requires |MakeRoom(Tick(s, policy, now, order), maxFlows).conns| < maxFlows
    ensures var k := KeyOf(TcpView(pkt).value); var op := OpFeed(pkt, now, order, events);
            var o := Begun(s, maxFlows, policy, pkt, now, order);
            var t := Feed(s, maxFlows, policy, pkt, now, order, events);
            && o.log <= t.log && s.log < o.log
            && Heeds(o, t, policy, k, [], DeliveredBy(op, k), Ended(pkt, events))
  {
    var f := TcpView(pkt).value;
    var k := KeyOf(f);
    EmptyWaits();
    var u := s.(lastSweep := now);
    ExpireAllHeeds(u, policy, Expired(u.conns, now, order), k);
    EvictGrows(Tick(s, policy, now, order), |s.ring|);
    assert s.log <= Tick(s, policy, now, order).log;
    hide Tick, Evict, Track, Heeds, TcpView, Opens, NoEnd, Hostname.Extract;
    TrackHeeds(Begun(s, maxFlows, policy, pkt, now, order), policy, k, f, pkt, events);
  }

  // ---------------------------------------------------------------- a ClientHello among what is delivered

  /** Of chunks that begin with a framed hello, the first few say its host or nothing yet. */
  lemma PrefixSays(rs: seq<RT.Record>, a: Grammar.Anatomy, h: Bytes, chunks: seq<Bytes>, n: nat)
    requires Hostname.Frames(rs, a, h) && RT.Frame(rs) <= Hostname.Concat(chunks) && n <= |chunks|
    ensures var heard := Hostname.Concat(chunks[..n]);
            && Answer(heard) == (if RT.Frame(rs) <= heard then Some(h) else None)
            && (!(RT.Frame(rs) <= heard) ==> Hostname.Extract(heard).NeedMore? && |heard| < |RT.Frame(rs)|)
  {
    hide Hostname.Extract, Hostname.IsHello, RT.Frame, Hostname.Concat;
    var heard, f := Hostname.Concat(chunks[..n]), RT.Frame(rs);
    Hostname.ConcatGrows(chunks, n);
    TwoPrefixes(f, heard, Hostname.Concat(chunks));
    if f <= heard {
      assert heard == f + heard[|f|..];
      Hostname.RoundTrip(rs, a, h, heard[|f|..]);
    } else {
      Hostname.PrefixNeedsMore(rs, a, h, heard);
    }
  }

  lemma TwoPrefixes(a: Bytes, b: Bytes, whole: Bytes)
    requires a <= whole && b <= whole
    ensures if |a| <= |b| then a <= b else b < a
  {
    assert a == whole[..|a|] && b == whole[..|b|];
    if |a| <= |b| { assert a == b[..|a|]; } else { assert b == a[..|b|]; }
  }

  /** No flow at rest waits on a whole hello. */
  lemma HelloNotWaitedOn(t: State, k: Key, chunks: seq<Bytes>, rs: seq<RT.Record>, a: Grammar.Anatomy, h: Bytes)
    requires Quiet(t, None) && Hostname.Frames(rs, a, h) && RT.Frame(rs) <= Hostname.Concat(chunks)
    ensures !(IsWait(t, k) && t.conns[k].stream == Hostname.Concat(chunks))
  {
    hide Hostname.Extract, Hostname.IsHello, RT.Frame, Hostname.Concat, Calm;
    PrefixSays(rs, a, h, chunks, |chunks|);
    assert chunks[..|chunks|] == chunks;
    if IsWait(t, k) { QuietIsUndecided(t, k); }
  }

  /**
   A flow to which a whole framed hello for `h` has been delivered since `s` has been put to the policy on
   some of it: as exactly `h`, if it was not cut short and no chunk ends too late.
   */
  lemma HelloIsAsked(
      s: State, t: State, policy: Policy, k: Key, chunks: seq<Bytes>, cut: bool, rs: seq<RT.Record>, a: Grammar.Anatomy, h: Bytes)
    returns (n: nat)
    requires Quiet(t, None) && Heeds(s, t, policy, k, [], chunks, cut) && s.log <= t.log
    requires Hostname.Frames(rs, a, h) && RT.Frame(rs) <= Hostname.Concat(chunks)
    ensures n <= |chunks|
    ensures var heard := Hostname.Concat(chunks[..n]); var host := if RT.Frame(rs) <= heard then Some(h) else None;
            && Asked(k, host, heard, policy(host)) in t.log[|s.log|..]
            && (!cut && !Hostname.CutTooLate([], chunks, |RT.Frame(rs)|) ==> host == Some(h))
  {
    hide Hostname.Extract, Hostname.IsHello, RT.Frame, Hostname.Concat, Calm;
    assert [] + Hostname.Concat(chunks) == Hostname.Concat(chunks);
    HelloNotWaitedOn(t, k, chunks, rs, a, h);
    n :| 0 <= n <= |chunks| && AskedAfter(s, t, policy, k, [] + Hostname.Concat(chunks[..n]), cut);
    var heard := Hostname.Concat(chunks[..n]);
    assert [] + heard == heard;
    PrefixSays(rs, a, h, chunks, n);
    NothingFirst(chunks);
    if !cut && !(RT.Frame(rs) <= heard) {
      assert 32768 < |[] + Hostname.Concat(chunks[..n])| < |RT.Frame(rs)|;
    }
  }

  lemma NothingFirst(chunks: seq<Bytes>)
    ensures Hostname.Concat(chunks[..0]) == []
  {
    assert chunks[..0] == [];
  }

  /** The opening feed and a run after it, together. */
  lemma HelloAfterOpening(
      s: State, maxFlows: nat, policy: Policy, pkt: Packet, now: int, order: seq<Key>, events: seq<Event>, after: seq<Op>,
      rs: seq<RT.Record>, a: Grammar.Anatomy, h: Bytes) returns (at: nat, n: nat)
    requires Ok(s) && WantsIn(Tick(s, policy, now, order), pkt)
    requires |MakeRoom(Tick(s, policy, now, order), maxFlows).conns| < maxFlows
    requires var t := Feed(s, maxFlows, policy, pkt, now, order, events); Quiet(t, None) && RunOk(t, maxFlows, policy, after)
    requires Hostname.Frames(rs, a, h)
    requires RT.Frame(rs) <= Hostname.Concat(Delivered([OpFeed(pkt, now, order, events)] + after, KeyOf(TcpView(pkt).value)))
    ensures var k := KeyOf(TcpView(pkt).value);
            var t := Feed(s, maxFlows, policy, pkt, now, order, events);
            var u := Run(t, maxFlows, policy, after);
            var chunks := Delivered([OpFeed(pkt, now, order, events)] + after, k);
            && |s.log| <= at < |u.log| && u.log[at] == Opened(k) && n <= |chunks|
            && var heard := Hostname.Concat(chunks[..n]);
            && var host := if RT.Frame(rs) <= heard then Some(h) else None;
            && Asked(k, host, heard, policy(host)) in u.log[at + 1..]
            && var cut := Ended(pkt, events) || CutShort(t, maxFlows, policy, after, k);
            && (!cut && !Hostname.CutTooLate([], chunks, |RT.Frame(rs)|) ==> host == Some(h))
  {
    var op := OpFeed(pkt, now, order, events);
    var k := KeyOf(TcpView(pkt).value);
    var o := Begun(s, maxFlows, policy, pkt, now, order);
    var t := Feed(s, maxFlows, policy, pkt, now, order, events);
    var u := Run(t, maxFlows, policy, after);
    OpenedLast(s, maxFlows, policy, pkt, now, order);
    OpeningHeeds(s, maxFlows, policy, pkt, now, order, events);
    RunGrows(t, maxFlows, policy, after);
    RunQuiet(t, maxFlows, policy, after);
    DeliveredFirst(op, after, k);
    hide *;
    EmptyStart(Hostname.Concat(DeliveredBy(op, k)));
    if IsWait(t, k) { RunHeeds(t, maxFlows, policy, after, k); }
    HeedsBoth(o, t, u, policy, k, [], DeliveredBy(op, k), Delivered(after, k), Ended(pkt, events), CutShort(t, maxFlows, policy, after, k));
    n := HelloIsAsked(o, u, policy, k, DeliveredBy(op, k) + Delivered(after, k),
                      Ended(pkt, events) || CutShort(t, maxFlows, policy, after, k), rs, a, h);
    at := |o.log| - 1;
    assert u.log[at] == o.log[at];
  }

  lemma EmptyStart(x: Bytes)
    ensures [] + x == x
  {}

  lemma OpenedLast(s: State, maxFlows: nat, policy: Policy, pkt: Packet, now: int, order: seq<Key>)
    requires Ok(s) && TcpView(pkt).Some?
    ensures var o := Begun(s, maxFlows, policy, pkt, now, order);
            |o.log| > 0 && o.log[|o.log| - 1] == Opened(KeyOf(TcpView(pkt).value))
    ensures |Tick(s, policy, now, order).log| < |Begun(s, maxFlows, policy, pkt, now, order).log|
  {
    hide TcpView, Tick;
    EvictGrows(Tick(s, policy, now, order), |s.ring|);
  }

  lemma DeliveredFirst(op: Op, after: seq<Op>, k: Key)
    ensures Delivered([op] + after, k) == DeliveredBy(op, k) + Delivered(after, k)
  {
    assert ([op] + after)[1..] == after;
  }
}
