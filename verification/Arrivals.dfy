/**
 What feed writes down about the packet itself: its arrival, exactly once and under its own flow key,
 and the opening of a flow, exactly when the packet starts one and there is room.
 */
module Arrivals {
  import opened Wire
  import opened Packets
  import opened FlowTable
  import opened FlowActions
  import opened History
  import opened RingTheorems
  import Dissections

  /** What feed writes down about a packet. */
  function ArrivalOf(pkt: Packet): Note {
    match TcpView(pkt)
    case None => Arrived(pkt.id, None, false)
    case Some(f) => Arrived(pkt.id, Some(KeyOf(f)), f.payloadLen > 0)
  }

  /** A reading that sees arrivals and openings only. */
  ghost predicate SeesFront<T(!new)>(f: Note -> Option<T>) {
    forall n: Note :: !n.Arrived? && !n.Opened? ==> f(n).None?
  }

  lemma Unread<T(!new)>(s: State, t: State, more: seq<Note>, f: Note -> Option<T>)
    requires SeesFront(f) && t.log == s.log + more && forall i :: 0 <= i < |more| ==> !more[i].Arrived? && !more[i].Opened?
    ensures Collect(t.log, f) == Collect(s.log, f)
  {
    CollectConcat(s.log, more, f);
    CollectNothing(more, f);
  }

  lemma SettleUnread<T(!new)>(s: State, policy: Policy, k: Key, host: Option<Bytes>, f: Note -> Option<T>)
    requires Ok(s) && k in s.conns && SeesFront(f)
    ensures Collect(Settle(s, policy, k, host).log, f) == Collect(s.log, f)
  {
    var c := s.conns[k];
    var notes := [Asked(k, host, c.stream, policy(host))] + DisplacedNotes(s, policy, k, host) + GivenNotes(c.held, k, policy(host));
    Unread(s, Settle(s, policy, k, host), notes, f);
  }

  lemma ResolveUnread<T(!new)>(s: State, policy: Policy, k: Key, host: Option<Bytes>, f: Note -> Option<T>)
    requires Ok(s) && SeesFront(f)
    ensures Collect(Resolve(s, policy, k, host).log, f) == Collect(s.log, f)
  {
    if IsWait(s, k) { SettleUnread(s, policy, k, host, f); }
  }

  lemma OnEventUnread<T(!new)>(s: State, policy: Policy, k: Key, ev: Event, f: Note -> Option<T>)
    requires Ok(s) && SeesFront(f)
    ensures Collect(OnEvent(s, policy, k, ev).log, f) == Collect(s.log, f)
  {
    hide Collect, Settle;
    match ev {
      case Start(_) =>
      case Data(side, chunk, token) =>
        if side == CLIENT_SIDE && IsWait(s, k) {
          var t := Hear(Learn(s, k, token, s.conns[k].closed), k, chunk);
          Unread(s, t, [Heard(k, chunk)], f);
          ResolveUnread(t, policy, k, Answer(t.conns[k].stream), f);
        }
      case End => if k in s.conns { ResolveUnread(Learn(s, k, s.conns[k].token, true), policy, k, None, f); }
    }
  }

  lemma {:induction false} OnEventsUnread<T(!new)>(s: State, policy: Policy, k: Key, events: seq<Event>, f: Note -> Option<T>)
    requires Ok(s) && SeesFront(f)
    ensures Collect(OnEvents(s, policy, k, events).log, f) == Collect(s.log, f)
    decreases |events|
  {
    if events != [] {
      OnEventUnread(s, policy, k, events[0], f);
      OnEventsUnread(OnEvent(s, policy, k, events[0]), policy, k, events[1..], f);
    }
  }

  lemma {:induction false} ExpireAllUnread<T(!new)>(s: State, policy: Policy, keys: seq<Key>, f: Note -> Option<T>)
    requires Ok(s) && SeesFront(f)
    ensures Collect(ExpireAll(s, policy, keys).log, f) == Collect(s.log, f)
    decreases |keys|
  {
    if keys != [] {
      if IsBlock(s, keys[0]) {
        Unread(s, Forget(s, keys[0], Idle), [Gone(keys[0], Idle)], f);
      } else {
        ResolveUnread(s, policy, keys[0], None, f);
      }
      ExpireAllUnread(Expire(s, policy, keys[0]), policy, keys[1..], f);
    }
  }

  lemma TickUnread<T(!new)>(s: State, policy: Policy, now: int, order: seq<Key>, f: Note -> Option<T>)
    requires Ok(s) && SeesFront(f)
    ensures Collect(Tick(s, policy, now, order).log, f) == Collect(s.log, f)
  {
    var t := s.(lastSweep := now);
    ExpireAllUnread(t, policy, Expired(t.conns, now, order), f);
  }

  lemma {:induction false} FlushUnread<T(!new)>(s: State, policy: Policy, keys: seq<Key>, f: Note -> Option<T>)
    requires Ok(s) && SeesFront(f)
    ensures Collect(Clear(ResolveAll(s, policy, keys)).log, f) == Collect(s.log, f)
    decreases |keys|
  {
    if keys == [] {
      Unread(s, Clear(s), [Cleared], f);
    } else {
      ResolveUnread(s, policy, keys[0], None, f);
      FlushUnread(Resolve(s, policy, keys[0], None), policy, keys[1..], f);
    }
  }

  lemma {:induction false} EvictUnread<T(!new)>(s: State, tries: nat, f: Note -> Option<T>)
    requires Ok(s) && SeesFront(f)
    ensures Collect(Evict(s, tries).log, f) == Collect(s.log, f)
    decreases tries
  {
    if tries > 0 {
      var more := [SlotCleared] + if VictimAtNext(s) then [Gone(s.ring[s.next], Turned)] else [];
      Unread(s, TurnSlot(s), more, f);
      if !VictimAtNext(s) { EvictUnread(TurnSlot(s), tries - 1, f); }
    }
  }

  lemma GiveRead<T(!new)>(s: State, key: Option<Key>, payload: bool, pkt: Packet, v: Verdict, f: Note -> Option<T>)
    requires SeesFront(f)
    ensures Collect(Give(s, key, payload, pkt, v).log, f) == Collect(s.log, f) + Pick(Arrived(pkt.id, key, payload), f)
  {
    var m, n := Arrived(pkt.id, key, payload), Given(pkt.id, key, payload, v);
    CollectConcat(s.log, [m, n], f);
    CollectTwo(m, n, f);
    CollectOne(m, f);
    CollectOne(n, f);
    assert Pick(m, f) + [] == Pick(m, f);
  }

  lemma TrackRead<T(!new)>(s: State, policy: Policy, k: Key, f: Dissector.FlowView, pkt: Packet, events: seq<Event>, r: Note -> Option<T>)
    requires Ok(s) && k in s.conns && SeesFront(r)
    ensures Collect(Track(s, policy, k, f, pkt, events).log, r) == Collect(s.log, r) + Pick(Arrived(pkt.id, Some(k), f.payloadLen > 0), r)
  {
    hide Collect, OnEvents, Settle;
    var payload := f.payloadLen > 0;
    if |s.conns[k].held| >= MAX_HELD {
      ResolveUnread(s, policy, k, None, r);
      GiveRead(Resolve(s, policy, k, None), Some(k), payload, pkt, ALLOW, r);
    } else if !payload && !ChangesState(f) {
      GiveRead(s, Some(k), payload, pkt, ALLOW, r);
    } else if payload {
      var h := Hold(s, k, pkt);
      CollectConcat(s.log, [Arrived(pkt.id, Some(k), true)], r);
      CollectOne(Arrived(pkt.id, Some(k), true), r);
      OnEventsUnread(h, policy, k, events, r);
    } else {
      OnEventsUnread(s, policy, k, events, r);
      GiveRead(OnEvents(s, policy, k, events).(toClose := []), Some(k), payload, pkt, ALLOW, r);
    }
  }

  /** What a feed opens, once its tick is done. */
  function OpeningOf<T>(s: State, maxFlows: nat, pkt: Packet, r: Note -> Option<T>): seq<T>
    requires Ok(s)
  {
    if WantsIn(s, pkt) && |MakeRoom(s, maxFlows).conns| < maxFlows then Pick(Opened(KeyOf(TcpView(pkt).value)), r) else []
  }

  lemma PlaceRead<T(!new)>(s: State, maxFlows: nat, policy: Policy, pkt: Packet, now: int, events: seq<Event>, r: Note -> Option<T>)
    requires Ok(s) && SeesFront(r)
    ensures Collect(Place(s, maxFlows, policy, pkt, now, events).log, r)
         == Collect(s.log, r) + OpeningOf(s, maxFlows, pkt, r) + Pick(ArrivalOf(pkt), r)
  {
    hide Collect, Track, Give, Evict, TcpView, Opens;
    NoneOpened(Collect(s.log, r));
    match TcpView(pkt) {
      case None => GiveRead(s, None, false, pkt, ALLOW, r);
      case Some(f) =>
        var k := KeyOf(f);
        var payload := f.payloadLen > 0;
        if IsBlock(s, k) {
          GiveRead(Touch(s, k, now), Some(k), payload, pkt, BLOCK, r);
        } else if k in s.conns {
          TrackRead(Touch(s, k, now), policy, k, f, pkt, events, r);
        } else if !Opens(pkt) {
          GiveRead(s, Some(k), payload, pkt, ALLOW, r);
        } else {
          var t := MakeRoom(s, maxFlows);
          EvictUnread(s, |s.ring|, r);
          if |t.conns| >= maxFlows {
            GiveRead(t.(dropped := t.dropped + 1), Some(k), payload, pkt, ALLOW, r);
          } else {
            CollectConcat(t.log, [Opened(k)], r);
            CollectOne(Opened(k), r);
            TrackRead(Open(t, k, now), policy, k, f, pkt, events, r);
          }
        }
    }
  }

  lemma NoneOpened<T>(x: seq<T>)
    ensures x + [] == x
  {}

  /** Feeding a packet writes its own arrival, and the opening of its flow if it starts one, and no other. */
  lemma FeedRead<T(!new)>(
      s: State, maxFlows: nat, policy: Policy, pkt: Packet, now: int, order: seq<Key>, events: seq<Event>, r: Note -> Option<T>)
    requires Ok(s) && SeesFront(r)
    ensures Collect(Feed(s, maxFlows, policy, pkt, now, order, events).log, r)
         == Collect(s.log, r) + OpeningOf(Tick(s, policy, now, order), maxFlows, pkt, r) + Pick(ArrivalOf(pkt), r)
  {
    TickUnread(s, policy, now, order, r);
    PlaceRead(Tick(s, policy, now, order), maxFlows, policy, pkt, now, events, r);
  }

  lemma FeedArrives(s: State, maxFlows: nat, policy: Policy, pkt: Packet, now: int, order: seq<Key>, events: seq<Event>)
    requires Ok(s)
    ensures Collect(Feed(s, maxFlows, policy, pkt, now, order, events).log, ArrivedId) == Collect(s.log, ArrivedId) + [pkt.id]
  {
    FeedRead(s, maxFlows, policy, pkt, now, order, events, ArrivedId);
    NoneOpened(Collect(s.log, ArrivedId));
    hide Collect, Feed, Tick, MakeRoom, WantsIn, TcpView;
  }

  const OpenedKey: Note -> Option<Key> := (n: Note) => if n.Opened? then Some(n.flow) else None

  /** A TCP packet that starts a flow: a SYN without ACK, or a payload that begins like a TLS handshake record. */
  predicate StartsFlow(pkt: Packet) {
    var view := TcpView(pkt);
    view.Some? &&
    var f := view.value;
    var flags := f.tcpFlags as int;
    || (flags / 2 % 2 == 1 && flags / 16 % 2 == 0)
    || (f.payloadLen >= 2 && pkt.Data()[f.at..f.at + 2] == [22, 3])
  }

  /**
   A feed opens exactly the packet's own flow, and exactly when that flow is not tracked, the packet
   starts one, and the table is not full of waiting flows; it opens nothing otherwise.
   */
  lemma OpenedIff(s: State, maxFlows: nat, policy: Policy, pkt: Packet, now: int, order: seq<Key>, events: seq<Event>)
    requires Ok(s) && WithinCaps(Tick(s, policy, now, order), maxFlows)
    ensures var s' := Tick(s, policy, now, order);
            Collect(Feed(s, maxFlows, policy, pkt, now, order, events).log, OpenedKey) == Collect(s.log, OpenedKey) +
              if StartsFlow(pkt) && KeyOf(TcpView(pkt).value) !in s'.conns && !FullOfWaiting(s', maxFlows)
              then [KeyOf(TcpView(pkt).value)] else []
  {
    FeedRead(s, maxFlows, policy, pkt, now, order, events, OpenedKey);
    RoomIff(Tick(s, policy, now, order), maxFlows);
    StartsIsOpens(pkt);
    NoneOpened(Collect(s.log, OpenedKey) + OpeningOf(Tick(s, policy, now, order), maxFlows, pkt, OpenedKey));
    hide Collect, Feed, Tick, MakeRoom, TcpView, Opens, StartsFlow;
  }

  lemma StartsIsOpens(pkt: Packet)
    ensures StartsFlow(pkt) <==> Opens(pkt)
  {
    hide Dissector.FlowOf;
    var view := TcpView(pkt);
    if view.Some? && view.value.payloadLen >= 2 {
      var at := view.value.at;
      assert pkt.Data()[at..at + 2] == [pkt.Data()[at], pkt.Data()[at + 1]];
    }
  }

  /** The bytes of a TCP packet over IPv4 or IPv6, as spelled out in `Dissections`. */
  ghost predicate IsTcp(d: Bytes, g: Dissector.FlowView) {
    g.ipProto == 6 && (Dissections.Ip4Packet(d, g) || exists c, proto :: Dissections.Ip6Packet(d, c, proto, g))
  }

  /** A packet counts for a flow exactly if it has bytes and they are those of a TCP packet; the key is the route key of its view. */
  lemma TcpViewIff(pkt: Packet, f: Dissector.FlowView)
    ensures TcpView(pkt) == Some(f) <==>
      pkt.HasBytes() && exists g :: IsTcp(pkt.Data(), g) && f == g.(key := Dissector.RouteKey(g))
  {
    hide Dissector.ParseFlow, Dissector.RouteKey, Dissections.Ip4Packet, Dissections.Ip6Packet;
    forall g ensures IsTcp(pkt.Data(), g) <==> g.ipProto == 6 && Dissector.ParseFlow(pkt.Data()) == Dissector.Dissection(true, g) {
      Dissections.DissectedIff(pkt.Data(), g);
    }
    var r := Dissector.ParseFlow(pkt.Data());
    if TcpView(pkt) == Some(f) { assert IsTcp(pkt.Data(), r.flow); }
  }
}
