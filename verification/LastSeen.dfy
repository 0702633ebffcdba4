/**
 When a flow was last seen, and what that decides: the time kept for a tracked flow is the time of the latest
 packet fed with its key, and a sweep drops exactly the flows silent for the literal idle times.
 */
module LastSeen {
  import opened Wire
  import opened Packets
  import opened FlowTable
  import opened FlowActions
  import Dissector
  import Hostname
  import Timeouts
  import RingTheorems

  predicate Feeds(op: Op, k: Key) {
    op.OpFeed? && TcpView(op.pkt).Some? && KeyOf(TcpView(op.pkt).value) == k
  }

  // ---------------------------------------------------------------- who may change the times

  /** Whatever is still tracked is as old as it was, and no sweep has been made. */
  ghost predicate Ages(s: State, t: State) {
    t.lastSweep == s.lastSweep && forall k :: k in t.conns ==> k in s.conns && t.conns[k].last == s.conns[k].last
  }

  lemma SettleAges(s: State, policy: Policy, k: Key, host: Option<Bytes>)
    requires Ok(s) && k in s.conns
    ensures Ages(s, Settle(s, policy, k, host))
  {
    hide Verdicts, GivenNotes;
  }

  lemma ResolveAges(s: State, policy: Policy, k: Key, host: Option<Bytes>)
    requires Ok(s)
    ensures Ages(s, Resolve(s, policy, k, host))
  {
    hide Settle;
    if IsWait(s, k) { SettleAges(s, policy, k, host); }
  }

  lemma OnEventAges(s: State, policy: Policy, k: Key, e: Event)
    requires Ok(s)
    ensures Ages(s, OnEvent(s, policy, k, e))
  {
    hide Resolve, Hostname.Extract;
    match e {
      case Start(_) =>
      case Data(side, chunk, token) =>
        if IsWait(s, k) {
          var t := Hear(Learn(s, k, token, s.conns[k].closed), k, chunk);
          ResolveAges(t, policy, k, Answer(t.conns[k].stream));
          ResolveAges(t, policy, k, None);
        }
      case End => if k in s.conns { ResolveAges(Learn(s, k, s.conns[k].token, true), policy, k, None); }
    }
  }

  lemma {:induction false} OnEventsAge(s: State, policy: Policy, k: Key, events: seq<Event>)
    requires Ok(s)
    ensures Ages(s, OnEvents(s, policy, k, events))
    decreases |events|
  {
    if events != [] {
      OnEventAges(s, policy, k, events[0]);
      OnEventsAge(OnEvent(s, policy, k, events[0]), policy, k, events[1..]);
    }
  }

  lemma {:induction false} ExpireAllAges(s: State, policy: Policy, keys: seq<Key>)
    requires Ok(s)
    ensures Ages(s, ExpireAll(s, policy, keys))
    decreases |keys|
  {
    if keys != [] {
      hide Resolve;
      ResolveAges(s, policy, keys[0], None);
      ExpireAllAges(Expire(s, policy, keys[0]), policy, keys[1..]);
    }
  }

  lemma {:induction false} ResolveAllAges(s: State, policy: Policy, keys: seq<Key>)
    requires Ok(s)
    ensures Ages(s, ResolveAll(s, policy, keys))
    decreases |keys|
  {
    if keys != [] {
      ResolveAges(s, policy, keys[0], None);
      ResolveAllAges(Resolve(s, policy, keys[0], None), policy, keys[1..]);
    }
  }

  lemma {:induction false} EvictAges(s: State, tries: nat)
    requires Ok(s)
    ensures Ages(s, Evict(s, tries))
    decreases tries
  {
    if tries > 0 && !VictimAtNext(s) { EvictAges(TurnSlot(s), tries - 1); }
  }

  lemma TrackAges(s: State, policy: Policy, k: Key, f: Dissector.FlowView, pkt: Packet, events: seq<Event>)
    requires Ok(s) && k in s.conns
    ensures Ages(s, Track(s, policy, k, f, pkt, events))
  {
    hide OnEvents, Resolve, ChangesState;
    ResolveAges(s, policy, k, None);
    OnEventsAge(s, policy, k, events);
    OnEventsAge(Hold(s, k, pkt), policy, k, events);
  }

  /** A sweep is made exactly when a second has passed since the last one. */
  function SweptAt(s: State, now: int): int { if now - s.lastSweep >= 1_000_000_000 then now else s.lastSweep }

  lemma TickAges(s: State, policy: Policy, now: int, order: seq<Key>)
    requires Ok(s)
    ensures var t := Tick(s, policy, now, order); t.lastSweep == SweptAt(s, now) && Ages(s, t.(lastSweep := s.lastSweep))
  {
    var u := s.(lastSweep := now);
    ExpireAllAges(u, policy, Expired(u.conns, now, order));
  }

  // ---------------------------------------------------------------- one operation

  /** After an operation a tracked flow was last seen now, if the operation fed its packet, and else when it was before. */
  ghost predicate SeenAfter(s: State, t: State, op: Op) {
    forall k :: k in t.conns ==>
      if Feeds(op, k) then t.conns[k].last == op.now else k in s.conns && t.conns[k].last == s.conns[k].last
  }

  lemma PlaceSees(s: State, maxFlows: nat, policy: Policy, op: Op)
    requires Ok(s) && op.OpFeed?
    ensures var t := Place(s, maxFlows, policy, op.pkt, op.now, op.events); SeenAfter(s, t, op) && t.lastSweep == s.lastSweep
  {
    hide Track, Evict, TcpView, Opens;
    if TcpView(op.pkt).Some? {
      var f := TcpView(op.pkt).value;
      var k := KeyOf(f);
      if k in s.conns {
        TrackAges(Touch(s, k, op.now), policy, k, f, op.pkt, op.events);
      } else {
        EvictAges(s, |s.ring|);
        TrackAges(Open(MakeRoom(s, maxFlows), k, op.now), policy, k, f, op.pkt, op.events);
      }
    }
  }

  lemma StepSees(s: State, maxFlows: nat, policy: Policy, op: Op)
    requires Ok(s)
    ensures var t := Step(s, maxFlows, policy, op);
            && SeenAfter(s, t, op)
            && t.lastSweep == if op.OpFeed? || op.OpTick? then SweptAt(s, op.now) else s.lastSweep
  {
    hide Tick, Place, ResolveAll;
    match op {
      case OpFeed(pkt, now, order, events) =>
        TickAges(s, policy, now, order);
        PlaceSees(Tick(s, policy, now, order), maxFlows, policy, op);
      case OpTick(now, order) => TickAges(s, policy, now, order);
      case OpFlush(order) => ResolveAllAges(s, policy, Waiting(s.conns, order));
      case OpDrain =>
    }
  }

  // ---------------------------------------------------------------- over whole runs

  /** The time of the latest packet of flow `k` among the feeds of a run. */
  function LastFed(ops: seq<Op>, k: Key): Option<int> {
    if ops == [] then None
    else
      var later := LastFed(ops[1..], k);
      if later.Some? then later else if Feeds(ops[0], k) then Some(ops[0].now) else None
  }

  /** A flow tracked after a run was last seen when its latest packet was fed, or when it was before the run. */
  lemma {:induction false} RunSees(s: State, maxFlows: nat, policy: Policy, ops: seq<Op>, k: Key)
    requires Ok(s) && k in Run(s, maxFlows, policy, ops).conns
    ensures var last := Run(s, maxFlows, policy, ops).conns[k].last;
            match LastFed(ops, k)
            case Some(time) => last == time
            case None => k in s.conns && last == s.conns[k].last
    decreases |ops|
  {
    if ops != [] {
      hide Step, Feeds;
      StepSees(s, maxFlows, policy, ops[0]);
      RunSees(Step(s, maxFlows, policy, ops[0]), maxFlows, policy, ops[1..], k);
    }
  }

  // ---------------------------------------------------------------- what a tick drops, in nanoseconds

  /** A waiting flow is silent after 10 s, a blocked one after 60 s. */
  predicate Silent(c: Conn, now: int) { now - c.last >= if c.mode == Wait then 10_000_000_000 else 60_000_000_000 }

  lemma {:induction false} ExpiredIff(conns: map<Key, Conn>, now: int, order: seq<Key>, k: Key)
    ensures k in Expired(conns, now, order) <==> k in order && k in conns && Silent(conns[k], now)
  {
    if order != [] {
      ExpiredIff(conns, now, order[1..], k);
      assert k in order <==> k == order[0] || k in order[1..];
    }
  }

  /**
   Within a second of the last sweep a tick does nothing; otherwise it drops exactly the flows that wait and
   have been silent for 10 s and those that are blocked and have been silent for 60 s, and changes no other.
   */
  lemma TickExactly(s: State, policy: Policy, now: int, order: seq<Key>)
    requires Ok(s) && policy(None) == ALLOW && IsOrder(order, s.conns)
    ensures var t := Tick(s, policy, now, order);
            if now - s.lastSweep < 1_000_000_000 then t == s
            else
              && t.lastSweep == now
              && (forall k :: k in t.conns <==> k in s.conns && !Silent(s.conns[k], now))
              && (forall k :: k in t.conns ==> t.conns[k] == s.conns[k])
  {
    if now - s.lastSweep >= 1_000_000_000 {
      var u := s.(lastSweep := now);
      var keys := Expired(u.conns, now, order);
      Timeouts.ExpireAllRemoves(u, policy, keys);
      TickAges(s, policy, now, order);
      forall k ensures k in keys <==> k in s.conns && Silent(s.conns[k], now) { ExpiredIff(u.conns, now, order, k); }
      hide ExpireAll, Expired, Silent;
    }
  }

  // ---------------------------------------------------------------- any policy at all

  lemma {:induction false} ExpireAllWaiting(s: State, policy: Policy, keys: seq<Key>, k: Key)
    requires Ok(s) && IsWait(s, k)
    ensures var t := ExpireAll(s, policy, keys); if k in keys then !IsWait(t, k) else IsWait(t, k) && t.conns[k] == s.conns[k]
    decreases |keys|
  {
    if keys != [] {
      var t := Expire(s, policy, keys[0]);
      ExpireOne(s, policy, keys[0], k);
      hide Expire;
      if keys[0] == k {
        StaysSettled(t, policy, keys[1..], k);
      } else {
        ExpireAllWaiting(t, policy, keys[1..], k);
      }
    }
  }

  lemma ExpireOne(s: State, policy: Policy, j: Key, k: Key)
    requires Ok(s)
    ensures var t := Expire(s, policy, j);
            if IsWait(s, k) && j != k then IsWait(t, k) && t.conns[k] == s.conns[k] else !IsWait(t, k)
  {
    hide Verdicts, GivenNotes;
  }

  lemma {:induction false} StaysSettled(s: State, policy: Policy, keys: seq<Key>, k: Key)
    requires Ok(s) && !IsWait(s, k)
    ensures !IsWait(ExpireAll(s, policy, keys), k)
    decreases |keys|
  {
    if keys != [] {
      ExpireOne(s, policy, keys[0], k);
      hide Expire;
      StaysSettled(Expire(s, policy, keys[0]), policy, keys[1..], k);
    }
  }

  /** Whatever the policy, a due tick leaves a waiting flow waiting, unchanged, exactly if it was seen within 10 s. */
  lemma TickWaiting(s: State, policy: Policy, now: int, order: seq<Key>, k: Key)
    requires Ok(s) && IsOrder(order, s.conns) && IsWait(s, k) && now - s.lastSweep >= 1_000_000_000
    ensures var t := Tick(s, policy, now, order);
            && (IsWait(t, k) <==> now - s.conns[k].last < 10_000_000_000)
            && (IsWait(t, k) ==> t.conns[k] == s.conns[k])
  {
    var u := s.(lastSweep := now);
    var keys := Expired(u.conns, now, order);
    ExpiredIff(u.conns, now, order, k);
    ExpireAllWaiting(u, policy, keys, k);
    hide ExpireAll, Expired;
  }
}
