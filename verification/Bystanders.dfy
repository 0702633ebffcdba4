/**
 What feeding a packet does to the flows it does not belong to: nothing, but for the one blocked flow that may be
 dropped to make room for a new flow, and the one that a newly blocked flow displaces from the ring.
 */
module Bystanders {
  import opened Wire
  import opened Packets
  import opened FlowTable
  import opened FlowActions
  import opened RingTheorems
  import Dissector
  import Hostname

  /** The blocked flow named by the slot about to be written. */
  predicate NextOut(s: State, j: Key)
    requires Ok(s)
  {
    j != 0 && s.ring[s.next] == j && IsBlock(s, j)
  }

  /**
   The flow `j` while packets of flow `k` are handled, `base` being the table that was made room in: as it was,
   unless `k` has been blocked meanwhile and `j` was next in the ring.
   */
  ghost predicate Beside(base: State, s: State, k: Key, j: Key) {
    && Ok(base) && Ok(s) && |s.ring| == |base.ring|
    && (IsWait(s, k) ==> s.ring == base.ring && s.next == base.next)
    && (j in s.conns ==> j in base.conns && s.conns[j] == base.conns[j])
    && (j in s.conns <==> j in base.conns && !(IsBlock(s, k) && NextOut(base, j)))
  }

  lemma SettleBeside(base: State, s: State, policy: Policy, k: Key, host: Option<Bytes>, j: Key)
    requires Beside(base, s, k, j) && IsWait(s, k) && j != k
    ensures Beside(base, Settle(s, policy, k, host), k, j)
  {
    hide Verdicts, GivenNotes;
  }

  lemma OnEventBeside(base: State, s: State, policy: Policy, k: Key, e: Event, j: Key)
    requires Beside(base, s, k, j) && j != k
    ensures Beside(base, OnEvent(s, policy, k, e), k, j)
  {
    hide Settle, Hostname.Extract;
    match e {
      case Start(_) =>
      case Data(side, chunk, token) =>
        if IsWait(s, k) {
          var t := Hear(Learn(s, k, token, s.conns[k].closed), k, chunk);
          SettleBeside(base, t, policy, k, Answer(t.conns[k].stream), j);
          SettleBeside(base, t, policy, k, None, j);
        }
      case End => if IsWait(s, k) { SettleBeside(base, Learn(s, k, s.conns[k].token, true), policy, k, None, j); }
    }
  }

  lemma {:induction false} OnEventsBeside(base: State, s: State, policy: Policy, k: Key, events: seq<Event>, j: Key)
    requires Beside(base, s, k, j) && j != k
    ensures Beside(base, OnEvents(s, policy, k, events), k, j)
    decreases |events|
  {
    if events != [] {
      hide OnEvent, Beside;
      OnEventBeside(base, s, policy, k, events[0], j);
      OnEventsBeside(base, OnEvent(s, policy, k, events[0]), policy, k, events[1..], j);
    }
  }

  lemma TrackBeside(base: State, s: State, policy: Policy, k: Key, f: Dissector.FlowView, pkt: Packet, events: seq<Event>, j: Key)
    requires Beside(base, s, k, j) && IsWait(s, k) && j != k
    ensures Beside(base, Track(s, policy, k, f, pkt, events), k, j)
  {
    hide OnEvents, Settle, ChangesState;
    SettleBeside(base, s, policy, k, None, j);
    OnEventsBeside(base, s, policy, k, events, j);
    OnEventsBeside(base, Hold(s, k, pkt), policy, k, events, j);
  }

  /** The table a packet finds: a full one is made room in only for a packet that opens a flow. */
  function RoomIn(s: State, maxFlows: nat, pkt: Packet): (r: State)
    requires Ok(s)
    ensures Ok(r) && |r.ring| == |s.ring|
    ensures |s.conns| < maxFlows ==> r == s
  {
    if WantsIn(s, pkt) then MakeRoom(s, maxFlows) else s
  }

  /**
   Past the tick, a feed leaves a flow `j` that the packet does not belong to as it is, if it survives making
   room (`RingTheorems.EvictIff` says which one does not), unless the packet's flow becomes blocked and `j` was
   the blocked flow next in the ring.
   */
  lemma PlaceLeaves(s: State, maxFlows: nat, policy: Policy, pkt: Packet, now: int, events: seq<Event>, j: Key)
    requires Ok(s) && (TcpView(pkt).Some? ==> KeyOf(TcpView(pkt).value) != j)
    ensures var t, room := Place(s, maxFlows, policy, pkt, now, events), RoomIn(s, maxFlows, pkt);
            && (j in t.conns ==> j in s.conns && t.conns[j] == s.conns[j])
            && (TcpView(pkt).None? ==> t.conns == s.conns)
            && (TcpView(pkt).Some? ==>
                  var k := KeyOf(TcpView(pkt).value);
                  (j in t.conns <==> j in room.conns && !(!IsBlock(s, k) && IsBlock(t, k) && NextOut(room, j))))
  {
    hide Track, Evict, TcpView, Opens;
    if TcpView(pkt).Some? {
      var f := TcpView(pkt).value;
      var k := KeyOf(f);
      if IsWait(s, k) {
        TrackBeside(s, Touch(s, k, now), policy, k, f, pkt, events, j);
      } else if k !in s.conns && Opens(pkt) {
        EvictOnlyRemoves(s, |s.ring|);
        var room := MakeRoom(s, maxFlows);
        TrackBeside(room, Open(room, k, now), policy, k, f, pkt, events, j);
      }
    }
  }

  lemma {:induction false} EvictOnlyRemoves(s: State, tries: nat)
    requires Ok(s)
    ensures forall j :: j in Evict(s, tries).conns ==> j in s.conns && Evict(s, tries).conns[j] == s.conns[j]
    decreases tries
  {
    if tries > 0 && !VictimAtNext(s) { EvictOnlyRemoves(TurnSlot(s), tries - 1); }
  }
}
