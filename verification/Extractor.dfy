/**
 TcpTlsHostnameExtractor as the source has it: fields changed in place by methods and by the
 reassembler's callbacks. Each method is proved to do to the fields exactly what the flow-table machine
 says, so every theorem about that machine is a theorem about these methods.
 */
module Extractor {
  import opened Wire
  import opened Packets
  import opened FlowTable
  import Dissector
  import Hostname
  import Records
  import RingTheorems
  import FlowActions

  class TcpTlsHostnameExtractor {
    const policy: Policy
    const maxFlows: nat
    const maxBlocked: nat

    var conns: map<Key, Conn>
    var blockRing: array<Key>
    var blockNext: nat
    var toClose: seq<Key>
    var lastSweep: int
    var droppedAtCap: nat
    var decided: seq<Decided>
    var hsScratch: Bytes
    var currentKey: Key
    var feeding: bool
    ghost var log: seq<Note>

    ghost predicate Valid()
      reads this, blockRing
    {
      && maxFlows > 0
      && 0 < maxBlocked == blockRing.Length && blockNext < maxBlocked
      && |hsScratch| <= Records.MAX_SCRATCH
    }

    ghost function Model(): (s: State)
      reads this, blockRing
      requires Valid()
      ensures Ok(s)
    {
      State(conns, blockRing[..], blockNext, toClose, lastSweep, droppedAtCap, decided, log)
    }

    constructor (policy: Policy, maxFlows: nat, maxBlocked: nat)
      ensures Valid() && fresh(blockRing) && !feeding
      ensures this.policy == policy && this.maxFlows == FlowCap(maxFlows)
      ensures Model() == Init(maxFlows, maxBlocked)
    {
      this.policy := policy;
      var flows := if maxFlows == 0 then 1 else maxFlows;
      var blocked := if maxBlocked != 0 then maxBlocked else if flows / 4 > 1 then flows / 4 else 1;
      blocked := Min(blocked, flows);
      this.maxFlows := flows;
      this.maxBlocked := blocked;
      conns := map[];
      blockRing := new Key[blocked](_ => 0);
      blockNext, toClose, lastSweep, droppedAtCap := 0, [], 0, 0;
      decided, hsScratch, currentKey, feeding := [], [], 0, false;
      log := [];
      new;
      assert blockRing[..] == seq(BlockCap(maxFlows, maxBlocked), _ => 0);
    }

    /** A verdict joins the buffer that the owner drains. */
    method Decide(pkt: Packet, v: Verdict)
      modifies this`decided
      ensures decided == old(decided) + [Decided(pkt, v)]
    {
      decided := decided + [Decided(pkt, v)];
    }

    /** A packet decided the moment it is fed. */
    method DecideNow(key: Option<Key>, payload: bool, pkt: Packet, v: Verdict)
      requires Valid()
      modifies this`decided, this`log
      ensures Valid() && Model() == Give(old(Model()), key, payload, pkt, v)
    {
      Decide(pkt, v);
      log := log + [Arrived(pkt.id, key, payload), Given(pkt.id, key, payload, v)];
    }

    // ---------------------------------------------------------------- the ring

    method RememberBlocked(key: Key)
      requires Valid()
      modifies this`conns, this`blockNext, this`log, blockRing
      ensures Valid() && Model() == FlowTable.RememberBlocked(old(Model()), key)
    {
      var victim := blockRing[blockNext];
      if victim != 0 && victim != key {
        if victim in conns && conns[victim].mode == Block {
          conns := conns - {victim};
          log := log + [Gone(victim, Displaced)];
        }
      }
      blockRing[blockNext] := key;
      SuccIsMod(blockNext, maxBlocked);
      blockNext := (blockNext + 1) % maxBlocked;
    }

    /** Clear the oldest slot and drop the blocked flow it names, if it still names one. */
    method TurnOldest() returns (evicted: bool)
      requires Valid()
      modifies this`conns, this`blockNext, this`log, blockRing
      ensures Valid() && Model() == TurnSlot(old(Model())) && evicted == old(VictimAtNext(Model()))
      ensures evicted <==> conns != old(conns)
    {
      var victim := blockRing[blockNext];
      blockRing[blockNext] := 0;
      SuccIsMod(blockNext, maxBlocked);
      blockNext := (blockNext + 1) % maxBlocked;
      log := log + [SlotCleared];
      if victim == 0 { return false; }
      if victim in conns && conns[victim].mode == Block {
        conns := conns - {victim};
        log := log + [Gone(victim, Turned)];
        assert victim in old(conns) && victim !in conns;
        return true;
      }
      evicted := false;
    }

    /** At most one full turn; true when a blocked flow was dropped. */
    method EvictOldestBlocked() returns (evicted: bool)
      requires Valid()
      modifies this`conns, this`blockNext, this`log, blockRing
      ensures Valid() && Model() == Evict(old(Model()), maxBlocked)
      ensures evicted <==> conns != old(conns)
    {
      hide TurnSlot, VictimAtNext;
      ghost var s := Model();
      for tried := 0 to maxBlocked
        invariant Valid() && conns == s.conns && Evict(s, maxBlocked) == Evict(Model(), maxBlocked - tried)
      {
        var dropped := TurnOldest();
        if dropped { return true; }
      }
      evicted := false;
    }

    // ---------------------------------------------------------------- resolve

    method Resolve(key: Key, hostname: Option<Bytes>)
      requires Valid()
      modifies this`conns, this`blockNext, this`log, this`toClose, this`decided, blockRing
      ensures Valid() && Model() == FlowTable.Resolve(old(Model()), policy, key, hostname)
    {
      if key !in conns { return; }
      var c := conns[key];
      if c.mode == Block { return; }

      ghost var s := Model();
      var v := policy(hostname);
      var held := c.held;
      log := log + [Asked(key, hostname, c.stream, v)];
      if v == BLOCK {
        conns := conns[key := c.(mode := Block, held := [], stream := [])];
        RememberBlocked(key);
      } else {
        conns := conns - {key};
      }
      if c.token != 0 && !c.closed {
        toClose := toClose + [c.token];
      }
      HandOut(held, key, v);
      assert Model() == Settle(s, policy, key, hostname);
    }

    /** One verdict for all held packets, the one held longest first. */
    method HandOut(held: seq<Packet>, ghost key: Key, v: Verdict)
      requires Valid()
      modifies this`decided, this`log
      ensures Valid() && decided == old(decided) + Verdicts(held, v) && log == old(log) + GivenNotes(held, key, v)
    {
      assert held[..0] == [];
      for i := 0 to |held|
        invariant Valid()
        invariant decided == old(decided) + Verdicts(held[..i], v)
        invariant log == old(log) + GivenNotes(held[..i], key, v)
      {
        Decide(held[i], v);
        log := log + [Given(held[i].id, Some(key), true, v)];
        assert Verdicts(held[..i + 1], v) == Verdicts(held[..i], v) + [Decided(held[i], v)];
        assert GivenNotes(held[..i + 1], key, v) == GivenNotes(held[..i], key, v) + [Given(held[i].id, Some(key), true, v)];
      }
      assert held[..|held|] == held;
    }

    // ---------------------------------------------------------------- the reassembler's callbacks

    method OnConnectionStart(token: Key)
      requires Valid()
      modifies this`conns
      ensures Valid() && Model() == if old(feeding) then OnEvent(old(Model()), policy, currentKey, Start(token)) else old(Model())
    {
      if !feeding { return; }
      if currentKey !in conns { return; }
      conns := conns[currentKey := conns[currentKey].(token := token)];
    }

    method OnMessageReady(side: int, chunk: Bytes, token: Key)
      requires Valid() && |chunk| < 0x1_0000_0000 - MAX_STREAM
      requires currentKey in conns ==> |conns[currentKey].stream| <= MAX_STREAM
      modifies this`conns, this`blockNext, this`log, this`toClose, this`decided, this`hsScratch, blockRing
      ensures Valid()
      ensures Model() == if old(feeding) then OnEvent(old(Model()), policy, currentKey, Data(side, chunk, token)) else old(Model())
    {
      if !feeding { return; }
      if side != CLIENT_SIDE { return; }
      if currentKey !in conns || conns[currentKey].mode != Wait { return; }
      HearChunk(chunk, token);
    }

    method HearChunk(chunk: Bytes, token: Key)
      requires Valid() && |chunk| < 0x1_0000_0000 - MAX_STREAM && IsWait(Model(), currentKey)
      requires |conns[currentKey].stream| <= MAX_STREAM
      modifies this`conns, this`blockNext, this`log, this`toClose, this`decided, this`hsScratch, blockRing
      ensures Valid() && Model() == OnEvent(old(Model()), policy, currentKey, Data(CLIENT_SIDE, chunk, token))
    {
      hide Settle, Hostname.Extract;
      ghost var s := Model();
      conns := conns[currentKey := conns[currentKey].(token := token)];
      conns := conns[currentKey := conns[currentKey].(stream := conns[currentKey].stream + chunk)];
      log := log + [Heard(currentKey, chunk)];
      var stream := conns[currentKey].stream;
      var r;
      r, hsScratch := Hostname.ExtractHostname(stream, hsScratch);
      assert Model() == Hear(Learn(s, currentKey, token, s.conns[currentKey].closed), currentKey, chunk);
      match r {
        case Found(h) => Resolve(currentKey, Some(h));
        case NotFound => Resolve(currentKey, None);
        case NeedMore => if |stream| > MAX_STREAM { Resolve(currentKey, None); }
      }
    }

    method OnConnectionEnd()
      requires Valid()
      modifies this`conns, this`blockNext, this`log, this`toClose, this`decided, blockRing
      ensures Valid() && Model() == if old(feeding) then OnEvent(old(Model()), policy, currentKey, End) else old(Model())
    {
      if !feeding { return; }
      if currentKey !in conns { return; }
      conns := conns[currentKey := conns[currentKey].(closed := true)];
      Resolve(currentKey, None);
    }

    /** reassemblePacket: any callbacks, all of them about the flow being fed. */
    method ReassemblePacket(events: seq<Event>)
      requires Valid() && feeding && ChunksFit(events) && FlowActions.Quiet(Model(), Some(currentKey))
      modifies this`conns, this`blockNext, this`log, this`toClose, this`decided, this`hsScratch, blockRing
      ensures Valid() && Model() == OnEvents(old(Model()), policy, currentKey, events)
    {
      ghost var s := Model();
      for i := 0 to |events|
        invariant Valid() && unchanged(this`lastSweep, this`droppedAtCap)
        invariant FlowActions.Quiet(Model(), Some(currentKey))
        invariant OnEvents(s, policy, currentKey, events) == OnEvents(Model(), policy, currentKey, events[i..])
      {
        ghost var t := Model();
        assert events[i..][0] == events[i] && events[i..][1..] == events[i + 1..];
        FlowActions.OnEventReaches(FlowActions.Env(0, policy, 0, false), t, currentKey, events[i]);
        match events[i] {
          case Start(token) => OnConnectionStart(token);
          case Data(side, chunk, token) => OnMessageReady(side, chunk, token);
          case End => OnConnectionEnd();
        }
      }
      assert events[|events|..] == [];
    }

    /** The reassembler's closeConnection may call back, but not while feeding: nothing of ours changes. */
    method DrainCloses()
      requires Valid()
      modifies this`toClose
      ensures Valid() && Model() == old(Model()).(toClose := [])
    {
      toClose := [];
    }

    // ---------------------------------------------------------------- sweep, tick, flush

    /** The keys that have gone idle; `order` is the order in which the hash map happens to be walked. */
    method CollectExpired(now: int, order: seq<Key>) returns (expired: seq<Key>)
      ensures expired == Expired(conns, now, order)
    {
      expired := [];
      assert order[0..] == order && order[|order|..] == [] && expired + Expired(conns, now, order) == Expired(conns, now, order);
      assert Expired(conns, now, []) == [];
      hide Expired;
      for i := 0 to |order|
        invariant expired + Expired(conns, now, order[i..]) == Expired(conns, now, order)
      {
        var key := order[i];
        ExpiredFrom(conns, now, order, i, expired);
        if key in conns {
          var c := conns[key];
          var idle := if c.mode == Block then BLOCK_IDLE else WAIT_IDLE;
          if now - c.last >= idle { expired := expired + [key]; }
        }
      }
    }

    method Sweep(now: int, order: seq<Key>)
      requires Valid()
      modifies this`conns, this`blockNext, this`log, this`toClose, this`decided, blockRing
      ensures Valid() && Model() == FlowTable.Sweep(old(Model()), policy, now, order)
    {
      hide Settle;
      ghost var s := Model();
      var expired := CollectExpired(now, order);
      for i := 0 to |expired|
        invariant Valid() && unchanged(this`lastSweep, this`droppedAtCap)
        invariant ExpireAll(s, policy, expired) == ExpireAll(Model(), policy, expired[i..])
      {
        var key := expired[i];
        assert expired[i..][0] == key && expired[i..][1..] == expired[i + 1..];
        ghost var t := Model();
        if key in conns {
          if conns[key].mode == Block {
            conns := conns - {key};
            log := log + [Gone(key, Idle)];
          } else {
            Resolve(key, None);
          }
        }
        assert Model() == Expire(t, policy, key);
      }
      assert expired[|expired|..] == [];
      DrainCloses();
    }

    method Tick(now: int, order: seq<Key>)
      requires Valid()
      modifies this`conns, this`blockNext, this`log, this`toClose, this`decided, this`lastSweep, blockRing
      ensures Valid() && Model() == FlowTable.Tick(old(Model()), policy, now, order)
    {
      if now - lastSweep < SWEEP_INTERVAL { return; }
      lastSweep := now;
      Sweep(now, order);
    }

    method CollectWaiting(order: seq<Key>) returns (waiting: seq<Key>)
      ensures waiting == Waiting(conns, order)
    {
      waiting := [];
      for i := 0 to |order|
        invariant waiting + Waiting(conns, order[i..]) == Waiting(conns, order)
      {
        assert order[i..][0] == order[i] && order[i..][1..] == order[i + 1..];
        if order[i] in conns && conns[order[i]].mode == Wait { waiting := waiting + [order[i]]; }
      }
      assert order[|order|..] == [];
    }

    method Flush(order: seq<Key>)
      requires Valid()
      modifies this`conns, this`blockNext, this`log, this`toClose, this`decided, blockRing
      ensures Valid() && Model() == FlowTable.Flush(old(Model()), policy, order)
    {
      hide Settle;
      ghost var s := Model();
      var waiting := CollectWaiting(order);
      for i := 0 to |waiting|
        invariant Valid() && unchanged(this`lastSweep, this`droppedAtCap)
        invariant ResolveAll(s, policy, waiting) == ResolveAll(Model(), policy, waiting[i..])
      {
        assert waiting[i..][0] == waiting[i] && waiting[i..][1..] == waiting[i + 1..];
        Resolve(waiting[i], None);
      }
      assert waiting[|waiting|..] == [];
      conns := map[];
      log := log + [Cleared];
      DrainCloses();
    }

    // ---------------------------------------------------------------- feed

    /** The packet is moved in: the caller's variable is left a husk. */
    method Feed(v: PacketVar, now: int, order: seq<Key>, events: seq<Event>)
      requires Valid() && !feeding && v.p.pending && |v.p.Data()| <= Dissector.MAX_CAPTURE && ChunksFit(events)
      requires FlowActions.Quiet(Model(), None)
      modifies this, blockRing, v
      ensures Valid() && !feeding && blockRing == old(blockRing) && v.p == HUSK
      ensures Model() == FlowTable.Feed(old(Model()), maxFlows, policy, old(v.p), now, order, events)
      ensures FlowActions.Quiet(Model(), None)
    {
      ghost var s := Model();
      var pkt := v.Move();
      FlowActions.FeedReaches(FlowActions.Env(maxFlows, policy, now, true), s, pkt, order, events);
      FlowActions.TickReaches(FlowActions.Env(maxFlows, policy, now, true), s, order);
      RingTheorems.SweptAlready(s, policy, now, order);
      Tick(now, order);
      PlacePacket(pkt, now, events);
    }

    method PlacePacket(pkt: Packet, now: int, events: seq<Event>)
      requires Valid() && !feeding && pkt.pending && |pkt.Data()| <= Dissector.MAX_CAPTURE && ChunksFit(events)
      requires FlowActions.Quiet(Model(), None) && now - lastSweep < SWEEP_INTERVAL
      modifies this, blockRing
      ensures Valid() && !feeding && blockRing == old(blockRing)
      ensures Model() == Place(old(Model()), maxFlows, policy, pkt, now, events)
    {
      var view: Option<Dissector.FlowView> := None;
      if pkt.HasBytes() { view := Dissector.FlowViewOf(pkt.Data()); }
      if view.None? || view.value.ipProto != Dissector.TCP {
        DecideNow(None, false, pkt, ALLOW);
        return;
      }
      var f := view.value;
      var key: Key := f.key;
      var hold := f.payloadLen > 0;
      if key in conns && conns[key].mode == Block {
        conns := conns[key := conns[key].(last := now)];
        DecideNow(Some(key), hold, pkt, BLOCK);
        return;
      }
      if key !in conns {
        AdmitPacket(key, f, pkt, now, events);
        return;
      }
      conns := conns[key := conns[key].(last := now)];
      TrackPacket(key, f, pkt, events);
    }

    /** A packet of a flow nothing is known about. */
    method AdmitPacket(key: Key, f: Dissector.FlowView, pkt: Packet, now: int, events: seq<Event>)
      requires Valid() && !feeding && pkt.pending && ChunksFit(events)
      requires FlowActions.Quiet(Model(), None) && now - lastSweep < SWEEP_INTERVAL
      requires key !in conns && TcpView(pkt) == Some(f) && KeyOf(f) == key
      modifies this, blockRing
      ensures Valid() && !feeding && blockRing == old(blockRing)
      ensures Model() == Place(old(Model()), maxFlows, policy, pkt, now, events)
    {
      hide Evict, Track, TcpView, IsClientSyn, OpensTls, Give, FlowActions.Reach, FlowActions.Quiet;
      var hold := f.payloadLen > 0;
      if !IsClientSyn(f) && !OpensTls(pkt.Data(), f) {
        DecideNow(Some(key), hold, pkt, ALLOW);
        return;
      }
      ghost var s := Model();
      hide IsClientSyn, OpensTls, ChangesState;
      if |conns| >= maxFlows {
        if now - lastSweep >= SWEEP_INTERVAL {
          assert false; // the tick that feed begins with has just seen to it
        }
        if |conns| >= maxFlows {
          FlowActions.EvictReaches(FlowActions.Env(0, policy, 0, false), s, maxBlocked);
          FlowActions.EvictSpares(s, maxBlocked);
          var evicted := EvictOldestBlocked();
        }
        if |conns| >= maxFlows {
          droppedAtCap := droppedAtCap + 1;
          DecideNow(Some(key), hold, pkt, ALLOW);
          return;
        }
      }
      assert Model() == MakeRoom(s, maxFlows);
      StartTracking(key, now);
      TrackPacket(key, f, pkt, events);
    }

    method StartTracking(key: Key, now: int)
      requires Valid() && key !in conns && FlowActions.Quiet(Model(), None)
      modifies this`conns, this`log
      ensures Valid() && Model() == Open(old(Model()), key, now) && FlowActions.Quiet(Model(), None)
    {
      conns := conns[key := Conn(Wait, [], [], 0, false, now)];
      log := log + [Opened(key)];
      conns := conns[key := conns[key].(last := now)];
      FlowActions.EmptyWaits();
    }

    /** A packet still held after the reassembler has seen it keeps only its shell. */
    method ReleaseLast(key: Key)
      requires Valid()
      modifies this`conns
      ensures Valid()
      ensures Model() == if key in old(conns) && old(conns)[key].held != [] then Release(old(Model()), key) else old(Model())
    {
      if key in conns && |conns[key].held| > 0 {
        var h := conns[key].held;
        conns := conns[key := conns[key].(held := h[|h| - 1 := h[|h| - 1].Released()])];
      }
    }

    method TrackPacket(key: Key, f: Dissector.FlowView, pkt: Packet, events: seq<Event>)
      requires Valid() && !feeding && pkt.pending && ChunksFit(events)
      requires FlowActions.Quiet(Model(), None) && IsWait(Model(), key)
      modifies this, blockRing
      ensures Valid() && !feeding && blockRing == old(blockRing)
      ensures Model() == Track(old(Model()), policy, key, f, pkt, events)
    {
      hide Settle, OnEvents, ChangesState, Give, FlowTable.Resolve, Release, FlowActions.Quiet;
      ghost var s := Model();
      var hold := f.payloadLen > 0;
      if |conns[key].held| >= MAX_HELD {
        Resolve(key, None);
        DecideNow(Some(key), hold, pkt, ALLOW);
        return;
      }
      if !hold && !ChangesState(f) {
        DecideNow(Some(key), hold, pkt, ALLOW);
        return;
      }
      if hold {
        conns := conns[key := conns[key].(held := conns[key].held + [pkt])];
        log := log + [Arrived(pkt.id, Some(key), true)];
        assert Model() == Hold(s, key, pkt);
        FlowActions.HoldWarm(s, key, pkt);
      } else {
        FlowActions.QuietIsWarm(s, key);
      }
      currentKey := key;
      feeding := true;
      ReassemblePacket(events);
      feeding := false;
      DrainCloses();
      if hold {
        ReleaseLast(key);
      } else {
        DecideNow(Some(key), hold, pkt, ALLOW);
      }
    }
  }

  /** A reassembled chunk is a piece of one packet: no stream length overflows 32 bits. */
  predicate ChunksFit(events: seq<Event>) {
    forall i :: 0 <= i < |events| && events[i].Data? ==> |events[i].chunk| < 0x1_0000_0000 - MAX_STREAM
  }
}
