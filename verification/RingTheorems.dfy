/**
 The ring of blocked keys and the table's caps: which blocked flows the ring still knows, what an
 eviction can remove, and when a new flow is turned away.
 */
module RingTheorems {
  import opened Wire
  import opened Packets
  import opened FlowTable
  import opened FlowActions
  import opened History

  // ---------------------------------------------------------------- coverage and the caps

  /** Every blocked flow is named by some slot; key 0 cannot be, it marks an empty slot. */
  ghost predicate Covered(s: State) {
    Ok(s) && forall k :: IsBlock(s, k) && k != 0 ==> k in s.ring
  }

  lemma BlockedIsNamed(s: State, k: Key)
    requires Covered(s) && IsBlock(s, k) && k != 0
    ensures k in s.ring
  {}

  lemma RememberCovered(s: State, k: Key)
    requires Ok(s) && forall j :: IsBlock(s, j) && j != 0 && j != k ==> j in s.ring
    ensures Covered(RememberBlocked(s, k))
  {
    var t := RememberBlocked(s, k);
    assert t.ring[s.next] == k;
    forall j | IsBlock(t, j) && j != 0 ensures j in t.ring {
      if j != k {
        assert IsBlock(s, j) && j in s.ring;
        var i :| 0 <= i < |s.ring| && s.ring[i] == j;
        assert i != s.next;
        assert t.ring[i] == j;
      }
    }
  }

  lemma TurnCovered(s: State)
    requires Covered(s)
    ensures Covered(TurnSlot(s))
  {
    var t := TurnSlot(s);
    forall j | IsBlock(t, j) && j != 0 ensures j in t.ring {
      assert IsBlock(s, j) && j in s.ring;
      var i :| 0 <= i < |s.ring| && s.ring[i] == j;
      assert i != s.next;
      assert t.ring[i] == j;
    }
  }

  lemma DoCovered(e: Env, s: State, a: Action)
    requires Covered(s) && Can(e, s, a)
    ensures Covered(Do(e, s, a))
  {
    match a {
      case DoTurn => TurnCovered(s);
      case DoSettle(k, host) =>
        if e.policy(host) == BLOCK {
          var blocked := s.(conns := s.conns[k := s.conns[k].(mode := Block, held := [], stream := [])]);
          RememberCovered(blocked, k);
        }
      case _ =>
    }
  }

  lemma UpdateSize(m: map<Key, Conn>, k: Key, c: Conn)
    ensures |m[k := c]| == if k in m then |m| else |m| + 1
  {
    assert m[k := c].Keys == m.Keys + {k};
    if k in m { assert m.Keys + {k} == m.Keys; }
  }

  lemma RemoveSize(m: map<Key, Conn>, k: Key)
    ensures |m - {k}| == if k in m then |m| - 1 else |m|
  {
    if k in m {
      assert m.Keys == (m - {k}).Keys + {k};
    } else {
      assert m - {k} == m;
    }
  }

  lemma RememberSize(s: State, k: Key)
    requires Ok(s)
    ensures |RememberBlocked(s, k).conns| <= |s.conns|
  {
    RemoveSize(s.conns, s.ring[s.next]);
  }

  lemma SettleSize(s: State, policy: Policy, k: Key, host: Option<Bytes>)
    requires Ok(s) && k in s.conns
    ensures |Settle(s, policy, k, host).conns| <= |s.conns|
  {
    RemoveSize(s.conns, k);
    if policy(host) == BLOCK {
      var c := s.conns[k].(mode := Block, held := [], stream := []);
      UpdateSize(s.conns, k, c);
      RememberSize(s.(conns := s.conns[k := c]), k);
    }
  }

  lemma DoBounded(e: Env, s: State, a: Action)
    requires Ok(s) && Can(e, s, a) && |s.conns| <= e.maxFlows
    ensures |Do(e, s, a).conns| <= e.maxFlows
  {
    match a {
      case DoHold(k, _) => UpdateSize(s.conns, k, Do(e, s, a).conns[k]);
      case DoRelease(k) => UpdateSize(s.conns, k, Do(e, s, a).conns[k]);
      case DoOpen(k) => UpdateSize(s.conns, k, Do(e, s, a).conns[k]);
      case DoTouch(k) => UpdateSize(s.conns, k, Do(e, s, a).conns[k]);
      case DoLearn(k, _, _) => UpdateSize(s.conns, k, Do(e, s, a).conns[k]);
      case DoHear(k, _) => UpdateSize(s.conns, k, Do(e, s, a).conns[k]);
      case DoSettle(k, host) => SettleSize(s, e.policy, k, host);
      case DoForget(k) => RemoveSize(s.conns, k);
      case DoTurn => RemoveSize(s.conns, s.ring[s.next]);
      case _ =>
    }
  }

  ghost predicate WithinCaps(s: State, maxFlows: nat) { Covered(s) && |s.conns| <= maxFlows }

  lemma {:induction false} PathWithinCaps(e: Env, s: State, acts: seq<Action>, t: State)
    requires WithinCaps(s, e.maxFlows) && Path(e, s, acts, t)
    ensures WithinCaps(t, e.maxFlows)
    decreases |acts|
  {
    if acts != [] {
      DoCovered(e, s, acts[0]);
      DoBounded(e, s, acts[0]);
      PathWithinCaps(e, Do(e, s, acts[0]), acts[1..], t);
    }
  }

  /** In every run the ring covers the blocked flows and the table stays within its cap. */
  lemma {:induction false} RunWithinCaps(s: State, maxFlows: nat, policy: Policy, ops: seq<Op>)
    requires Quiet(s, None) && WithinCaps(s, maxFlows) && RunOk(s, maxFlows, policy, ops)
    ensures WithinCaps(Run(s, maxFlows, policy, ops), maxFlows)
    decreases |ops|
  {
    if ops != [] {
      var t := Step(s, maxFlows, policy, ops[0]);
      StepReaches(s, maxFlows, policy, ops[0]);
      if !ops[0].OpDrain? {
        var e := EnvOf(maxFlows, policy, ops[0]);
        var acts :| Path(e, s, acts, t);
        PathWithinCaps(e, s, acts, t);
      }
      RunWithinCaps(t, maxFlows, policy, ops[1..]);
    }
  }

  lemma InitWithinCaps(maxFlows: nat, maxBlocked: nat)
    ensures WithinCaps(Init(maxFlows, maxBlocked), FlowCap(maxFlows))
    ensures 1 <= BlockCap(maxFlows, maxBlocked) <= FlowCap(maxFlows)
    ensures var s := Init(maxFlows, maxBlocked);
            && s.conns == map[] && s.decided == [] && s.toClose == [] && s.lastSweep == 0 && s.dropped == 0
            && s.next == 0 && (forall i :: 0 <= i < |s.ring| ==> s.ring[i] == 0)
            && var cap := if maxFlows == 0 then 1 else maxFlows;
            && FlowCap(maxFlows) == cap
            && (maxBlocked > cap ==> |s.ring| == cap) && (0 < maxBlocked <= cap ==> |s.ring| == maxBlocked)
            && (maxBlocked == 0 && cap >= 4 ==> |s.ring| == cap / 4) && (maxBlocked == 0 && cap < 4 ==> |s.ring| == 1)
  {}

  ghost function BlockedKeys(s: State): set<Key> { set k | k in s.conns && s.conns[k].mode == Block }

  /** Blocked flows number at most the ring's size, and at most one more counting key 0. */
  lemma BlockedBound(s: State)
    requires Covered(s)
    ensures |BlockedKeys(s) - {0}| <= |s.ring| && |BlockedKeys(s)| <= |s.ring| + 1
  {
    NamedSize(s.ring);
    SubsetSize(BlockedKeys(s) - {0}, Named(s.ring));
    SubsetSize(BlockedKeys(s), (BlockedKeys(s) - {0}) + {0});
  }

  ghost function Named(r: seq<Key>): set<Key> { set k | k in r }

  lemma {:induction false} NamedSize(r: seq<Key>)
    ensures |Named(r)| <= |r|
    decreases |r|
  {
    if r == [] {
      assert Named(r) == {};
    } else {
      NamedSize(r[1..]);
      assert Named(r) == Named(r[1..]) + {r[0]};
    }
  }

  lemma {:induction false} SubsetSize(a: set<Key>, b: set<Key>)
    requires a <= b
    ensures |a| <= |b|
    decreases |a|
  {
    if a != {} {
      var x :| x in a;
      SubsetSize(a - {x}, b - {x});
    }
  }

  // ---------------------------------------------------------------- what an eviction finds

  /** The slot `i` turns after `next`. */
  function At(next: nat, i: nat, n: nat): (j: nat)
    requires next < n && i < n
    ensures j < n
  {
    if next + i < n then next + i else next + i - n
  }

  lemma AtNext(next: nat, i: nat, n: nat)
    requires next < n && i + 1 < n
    ensures At(Succ(next, n), i, n) == At(next, i + 1, n) != next
  {}

  predicate Victim(s: State, j: nat)
    requires j < |s.ring|
  {
    s.ring[j] != 0 && IsBlock(s, s.ring[j])
  }

  /** Among the next `tries` slots, the first that names a blocked flow is the `i`th; none does when `i == tries`. */
  ghost predicate FirstVictim(s: State, i: nat, tries: nat)
    requires Ok(s) && tries <= |s.ring|
  {
    && i <= tries && (i < tries ==> Victim(s, At(s.next, i, |s.ring|)))
    && forall j :: 0 <= j < i ==> !Victim(s, At(s.next, j, |s.ring|))
  }

  lemma {:induction false} EvictWindow(s: State, tries: nat) returns (i: nat)
    requires Ok(s) && tries <= |s.ring|
    ensures FirstVictim(s, i, tries)
    ensures Evict(s, tries).conns == if i < tries then s.conns - {s.ring[At(s.next, i, |s.ring|)]} else s.conns
    ensures Evict(s, tries).dropped == s.dropped && Evict(s, tries).lastSweep == s.lastSweep
    decreases tries
  {
    var n := |s.ring|;
    i := 0;
    if tries > 0 {
      assert At(s.next, 0, n) == s.next;
      if !VictimAtNext(s) {
        var t := TurnSlot(s);
        forall j | 0 <= j < tries - 1
          ensures At(t.next, j, n) == At(s.next, j + 1, n) && t.ring[At(t.next, j, n)] == s.ring[At(s.next, j + 1, n)]
        {
          AtNext(s.next, j, n);
        }
        var rest := EvictWindow(t, tries - 1);
        i := rest + 1;
        forall j | 0 <= j < i ensures !Victim(s, At(s.next, j, n)) {
          if j > 0 { assert !Victim(t, At(t.next, j - 1, n)); }
        }
      }
    }
  }

  /**
   A full turn drops exactly one blocked flow if there is one it may drop, the one named by the first slot in
   turn that names any, and nothing otherwise.
   */
  lemma EvictIff(s: State) returns (i: nat)
    requires Covered(s)
    ensures FirstVictim(s, i, |s.ring|)
    ensures i < |s.ring| <==> exists j :: IsBlock(s, j) && j != 0
    ensures Evict(s, |s.ring|).conns == if i < |s.ring| then s.conns - {s.ring[At(s.next, i, |s.ring|)]} else s.conns
    ensures Evict(s, |s.ring|).dropped == s.dropped && Evict(s, |s.ring|).lastSweep == s.lastSweep
  {
    var n := |s.ring|;
    i := EvictWindow(s, n);
    if j :| IsBlock(s, j) && j != 0 {
      var slot :| 0 <= slot < n && s.ring[slot] == j;
      var d := if slot >= s.next then slot - s.next else slot + n - s.next;
      assert At(s.next, d, n) == slot && Victim(s, At(s.next, d, n));
    }
  }

  /** Neither registering a block nor evicting one touches a waiting flow or the packets it holds. */
  lemma WaitingIsSpared(s: State, k: Key, j: Key)
    requires Ok(s) && IsWait(s, j)
    ensures IsWait(RememberBlocked(s, k), j) && RememberBlocked(s, k).conns[j] == s.conns[j]
    ensures IsWait(Evict(s, |s.ring|), j) && Evict(s, |s.ring|).conns[j] == s.conns[j]
  {
    EvictSpares(s, |s.ring|);
  }

  // ---------------------------------------------------------------- who is turned away

  lemma SettleKeeps(s: State, policy: Policy, k: Key, host: Option<Bytes>)
    requires Ok(s) && k in s.conns
    ensures Settle(s, policy, k, host).dropped == s.dropped && Settle(s, policy, k, host).lastSweep == s.lastSweep
  {}

  lemma {:induction false} OnEventsKeeps(s: State, policy: Policy, k: Key, events: seq<Event>)
    requires Ok(s)
    ensures OnEvents(s, policy, k, events).dropped == s.dropped && OnEvents(s, policy, k, events).lastSweep == s.lastSweep
    decreases |events|
  {
    if events != [] {
      OnEventKeeps(s, policy, k, events[0]);
      OnEventsKeeps(OnEvent(s, policy, k, events[0]), policy, k, events[1..]);
    }
  }

  lemma OnEventKeeps(s: State, policy: Policy, k: Key, ev: Event)
    requires Ok(s)
    ensures OnEvent(s, policy, k, ev).dropped == s.dropped && OnEvent(s, policy, k, ev).lastSweep == s.lastSweep
  {
    hide RememberBlocked;
    forall t: State, host | Ok(t) && k in t.conns
      ensures Settle(t, policy, k, host).dropped == t.dropped && Settle(t, policy, k, host).lastSweep == t.lastSweep
    {
      SettleKeeps(t, policy, k, host);
    }
    hide Settle;
  }

  lemma {:induction false} ExpireAllKeeps(s: State, policy: Policy, keys: seq<Key>)
    requires Ok(s)
    ensures ExpireAll(s, policy, keys).dropped == s.dropped && ExpireAll(s, policy, keys).lastSweep == s.lastSweep
    decreases |keys|
  {
    if keys != [] { ExpireAllKeeps(Expire(s, policy, keys[0]), policy, keys[1..]); }
  }

  /** After a tick the sweep is not due at the same instant, so feed's second sweep never runs. */
  lemma SweptAlready(s: State, policy: Policy, now: int, order: seq<Key>)
    requires Ok(s)
    ensures now - Tick(s, policy, now, order).lastSweep < SWEEP_INTERVAL
    ensures Tick(s, policy, now, order).dropped == s.dropped
  {
    if now - s.lastSweep >= SWEEP_INTERVAL {
      var t := s.(lastSweep := now);
      ExpireAllKeeps(t, policy, Expired(t.conns, now, order));
    }
  }

  lemma TrackKeepsDropped(s: State, policy: Policy, k: Key, f: Dissector.FlowView, pkt: Packet, events: seq<Event>)
    requires Ok(s) && k in s.conns
    ensures Track(s, policy, k, f, pkt, events).dropped == s.dropped
  {
    if f.payloadLen > 0 { OnEventsKeeps(Hold(s, k, pkt), policy, k, events); }
    OnEventsKeeps(s, policy, k, events);
  }

  /** The table is full and no flow in it may be evicted: every one still waits, key 0 aside. */
  ghost predicate FullOfWaiting(s: State, maxFlows: nat) {
    |s.conns| == maxFlows && forall k :: k in s.conns && k != 0 ==> s.conns[k].mode == Wait
  }

  predicate WantsIn(s: State, pkt: Packet) {
    TcpView(pkt).Some? && KeyOf(TcpView(pkt).value) !in s.conns && Opens(pkt)
  }

  /**
   A packet is let through unchecked for want of room exactly when it would open a flow and every
   tracked flow, key 0 aside, still waits: a decided flow keeps no undecided one out.
   */
  lemma DroppedIff(s: State, maxFlows: nat, policy: Policy, pkt: Packet, now: int, order: seq<Key>, events: seq<Event>)
    requires Ok(s)
    requires WithinCaps(Tick(s, policy, now, order), maxFlows)
    ensures var s' := Tick(s, policy, now, order);
            Feed(s, maxFlows, policy, pkt, now, order, events).dropped
              == s.dropped + if WantsIn(s', pkt) && FullOfWaiting(s', maxFlows) then 1 else 0
  {
    SweptAlready(s, policy, now, order);
    PlaceDropped(Tick(s, policy, now, order), maxFlows, policy, pkt, now, events);
  }

  lemma PlaceDropped(s: State, maxFlows: nat, policy: Policy, pkt: Packet, now: int, events: seq<Event>)
    requires WithinCaps(s, maxFlows)
    ensures Place(s, maxFlows, policy, pkt, now, events).dropped
              == s.dropped + if WantsIn(s, pkt) && FullOfWaiting(s, maxFlows) then 1 else 0
  {
    hide Track, Opens, TcpView;
    if TcpView(pkt).Some? {
      var f := TcpView(pkt).value;
      var k := KeyOf(f);
      if k in s.conns {
        TrackKeepsDropped(Touch(s, k, now), policy, k, f, pkt, events);
      } else if Opens(pkt) {
        var t := MakeRoom(s, maxFlows);
        RoomIff(s, maxFlows);
        if |t.conns| < maxFlows { TrackKeepsDropped(Open(t, k, now), policy, k, f, pkt, events); }
      }
    }
  }

  lemma RoomIff(s: State, maxFlows: nat)
    requires WithinCaps(s, maxFlows)
    ensures |MakeRoom(s, maxFlows).conns| >= maxFlows <==> FullOfWaiting(s, maxFlows)
    ensures MakeRoom(s, maxFlows).dropped == s.dropped
  {
    if |s.conns| >= maxFlows {
      var i := EvictIff(s);
      if j :| IsBlock(s, j) && j != 0 {
        RemoveSize(s.conns, s.ring[At(s.next, i, |s.ring|)]);
      } else {
        assert forall j :: j in s.conns && j != 0 ==> !IsBlock(s, j);
      }
    }
  }

  /**
   The exception is real: a blocked flow whose key happens to be 0 is invisible to eviction, so it can
   keep an undecided flow out although it carries no decision still to be made.
   */
  lemma KeyZeroKeepsOthersOut(s: State, maxFlows: nat, policy: Policy, pkt: Packet, now: int, events: seq<Event>)
    requires WithinCaps(s, maxFlows) && |s.conns| == maxFlows
    requires IsBlock(s, 0) && forall k :: k in s.conns && k != 0 ==> s.conns[k].mode == Wait
    ensures WantsIn(s, pkt) ==>
      var t := Place(s, maxFlows, policy, pkt, now, events);
      t.dropped == s.dropped + 1 && IsBlock(t, 0) && t.conns == s.conns
  {
    PlaceDropped(s, maxFlows, policy, pkt, now, events);
    RoomIff(s, maxFlows);
    var i := EvictIff(s);
  }
}
