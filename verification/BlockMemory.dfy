/**
 How long a block is remembered: the ring as a queue of registrations, from the feed that blocks a flow to
 the registration that displaces it.
 */
module BlockMemory {
  import opened Wire
  import opened Packets
  import opened FlowTable
  import opened FlowActions
  import opened History
  import opened Runs
  import opened RingTheorems
  import Dissector
  import Hostname

  /**
   `k` is blocked, and the first slot to name it, counting from the one written next, is `left` slots away:
   that many more registrations leave it alone.
   */
  ghost predicate Remembered(s: State, k: Key, left: nat) {
    && Ok(s) && left < |s.ring| && k != 0 && IsBlock(s, k)
    && s.ring[At(s.next, left, |s.ring|)] == k
    && forall i :: 0 <= i < left ==> s.ring[At(s.next, i, |s.ring|)] != k
  }

  /** Every blocked flow the ring names, and that is every one but key 0, is remembered for some while. */
  lemma BlockedIsRemembered(s: State, k: Key) returns (left: nat)
    requires Ok(s) && IsBlock(s, k) && k != 0 && k in s.ring
    ensures Remembered(s, k, left)
  {
    var n := |s.ring|;
    var j :| 0 <= j < n && s.ring[j] == k;
    var d := if j >= s.next then j - s.next else j + n - s.next;
    assert At(s.next, d, n) == j;
    left := 0;
    while s.ring[At(s.next, left, n)] != k
      invariant left <= d && forall i :: 0 <= i < left ==> s.ring[At(s.next, i, n)] != k
      decreases d - left
    {
      left := left + 1;
    }
  }

  lemma OneMemory(s: State, k: Key, a: nat, b: nat)
    requires Remembered(s, k, a) && Remembered(s, k, b)
    ensures a == b
  {}

  const Blocks: Note -> Option<Key> := (n: Note) => if n.Asked? && n.verdict == BLOCK then Some(n.flow) else None

  /** How many blocks were registered. */
  function BlocksIn(log: seq<Note>): nat { |Collect(log, Blocks)| }

  lemma BlocksAdd(a: seq<Note>, b: seq<Note>)
    ensures BlocksIn(a + b) == BlocksIn(a) + BlocksIn(b)
  {
    CollectConcat(a, b, Blocks);
  }

  /** From note `from` on, no cap eviction, no flush, and no idle expiry of `k`. */
  ghost predicate Undisturbed(log: seq<Note>, from: nat, k: Key) {
    forall i :: from <= i < |log| ==> !log[i].SlotCleared? && !log[i].Cleared? && log[i] != Gone(k, Idle)
  }

  /** No slot names `k`, but for the one to be written next, which costs it nothing. */
  ghost predicate Unnamed(s: State, k: Key) {
    forall i :: 0 <= i < |s.ring| && i != s.next ==> s.ring[i] != k
  }

  /** A flow registered now has a full ring to go exactly when no slot but the one it takes names it already. */
  lemma RegisteredIff(s: State, policy: Policy, k: Key, host: Option<Bytes>)
    requires Ok(s) && IsWait(s, k) && k != 0 && policy(host) == BLOCK
    ensures var t := Settle(s, policy, k, host);
            && IsBlock(t, k) && k in t.ring && t.ring == s.ring[s.next := k]
            && (Remembered(t, k, |s.ring| - 1) <==> Unnamed(s, k))
  {
    var t := Settle(s, policy, k, host);
    var n := |s.ring|;
    assert IsBlock(t, k) && t.ring == s.ring[s.next := k] && t.next == Succ(s.next, n);
    hide Settle;
    assert t.ring[s.next] == k && At(t.next, n - 1, n) == s.next;
    forall i | 0 <= i < n - 1 ensures At(t.next, i, n) == At(s.next, i + 1, n) != s.next { AtNext(s.next, i, n); }
    if Remembered(t, k, n - 1) {
      forall i | 0 <= i < n && i != s.next ensures s.ring[i] != k {
        var d := if i > s.next then i - s.next - 1 else i + n - s.next - 1;
        assert At(t.next, d, n) == i && t.ring[At(t.next, d, n)] != k;
      }
    }
  }

  // ---------------------------------------------------------------- one action

  ghost predicate Allows(e: Env, s: State, a: Action) { Ok(s) && Can(e, s, a) }

  lemma NextRegistration(s: State, policy: Policy, j: Key, host: Option<Bytes>, k: Key, left: nat)
    requires Remembered(s, k, left) && left > 0 && IsWait(s, j) && policy(host) == BLOCK
    ensures Remembered(Settle(s, policy, j, host), k, left - 1)
  {
    var t := Settle(s, policy, j, host);
    var n := |s.ring|;
    assert At(s.next, 0, n) == s.next && s.ring[s.next] != k;
    assert t.next == Succ(s.next, n) && t.ring == s.ring[s.next := j] && IsBlock(t, k);
    hide Settle;
    forall i | 0 <= i < left ensures At(t.next, i, n) == At(s.next, i + 1, n) != s.next { AtNext(s.next, i, n); }
  }

  lemma SettleAllows(s: State, policy: Policy, j: Key, host: Option<Bytes>, k: Key, left: nat)
    requires Remembered(s, k, left) && IsWait(s, j) && policy(host) != BLOCK
    ensures Remembered(Settle(s, policy, j, host), k, left)
  {}

  lemma OtherRemembers(e: Env, s: State, a: Action, k: Key, left: nat)
    requires Allows(e, s, a) && Remembered(s, k, left)
    requires !a.DoSettle? && !a.DoTurn? && !a.DoClear? && a != DoForget(k)
    ensures Remembered(Do(e, s, a), k, left)
  {
    hide Give;
    if a.DoGive? { GiveKeeps(s, a.key, a.payload, a.pkt, a.verdict); }
  }

  lemma GiveKeeps(s: State, key: Option<Key>, payload: bool, pkt: Packet, v: Verdict)
    ensures var t := Give(s, key, payload, pkt, v); t.conns == s.conns && t.ring == s.ring && t.next == s.next
  {}

  lemma Disturbs(e: Env, s: State, a: Action, k: Key)
    requires Allows(e, s, a) && (a.DoTurn? || a.DoClear? || a == DoForget(k))
    ensures !Undisturbed(NotesOf(e, s, a), 0, k)
  {
    var first := NotesOf(e, s, a)[0];
    assert first.SlotCleared? || first.Cleared? || first == Gone(k, Idle);
  }

  lemma NoBlocks(e: Env, s: State, a: Action, k: Key)
    requires Allows(e, s, a) && !a.DoSettle?
    ensures BlocksIn(NotesOf(e, s, a)) == 0 && Gone(k, Displaced) !in NotesOf(e, s, a)
  {
    CollectNothing(NotesOf(e, s, a), Blocks);
  }

  lemma SettleBlocks(e: Env, s: State, j: Key, host: Option<Bytes>)
    requires Allows(e, s, DoSettle(j, host))
    ensures BlocksIn(NotesOf(e, s, DoSettle(j, host))) == if e.policy(host) == BLOCK then 1 else 0
  {
    var n := Asked(j, host, s.conns[j].stream, e.policy(host));
    var gone := DisplacedNotes(s, e.policy, j, host);
    var given := GivenNotes(s.conns[j].held, j, e.policy(host));
    CollectNothing(gone, Blocks);
    CollectNothing(given, Blocks);
    hide Answer, DisplacedNotes, GivenNotes;
    BlocksAdd([n] + gone, given);
    BlocksAdd([n], gone);
    CollectOne(n, Blocks);
  }

  lemma SettleDisplaces(e: Env, s: State, j: Key, host: Option<Bytes>, k: Key)
    requires Allows(e, s, DoSettle(j, host)) && k != 0 && IsBlock(s, k)
    ensures Gone(k, Displaced) in NotesOf(e, s, DoSettle(j, host)) <==> e.policy(host) == BLOCK && s.ring[s.next] == k
  {
    hide Answer;
    var given := GivenNotes(s.conns[j].held, j, e.policy(host));
    assert Gone(k, Displaced) !in given;
  }

  /** One action displaces the block exactly when it registers one more than are left, and else uses up what it registers. */
  lemma DoRemembers(e: Env, s: State, a: Action, k: Key, left: nat)
    requires Allows(e, s, a) && Remembered(s, k, left) && Undisturbed(NotesOf(e, s, a), 0, k)
    ensures var more := BlocksIn(NotesOf(e, s, a));
            && (Gone(k, Displaced) in NotesOf(e, s, a) <==> more > left)
            && (more <= left ==> Remembered(Do(e, s, a), k, left - more))
  {
    hide Settle, BlocksIn, Undisturbed, NotesOf;
    if a.DoTurn? || a.DoClear? || a == DoForget(k) {
      Disturbs(e, s, a, k);
    } else if a.DoSettle? {
      assert At(s.next, 0, |s.ring|) == s.next;
      SettleBlocks(e, s, a.k, a.host);
      SettleDisplaces(e, s, a.k, a.host, k);
      if e.policy(a.host) != BLOCK {
        SettleAllows(s, e.policy, a.k, a.host, k, left);
      } else if left > 0 {
        NextRegistration(s, e.policy, a.k, a.host, k, left);
      }
    } else {
      NoBlocks(e, s, a, k);
      OtherRemembers(e, s, a, k, left);
    }
  }

  // ---------------------------------------------------------------- over whole runs

  /** Since note `from`: the block has been displaced by more than `m` registrations, or has used up those so far. */
  ghost predicate OnCourse(s: State, from: nat, k: Key, m: nat) {
    && from <= |s.log|
    && var more := BlocksIn(s.log[from..]);
       if Gone(k, Displaced) in s.log[from..] then more > m else more <= m && Remembered(s, k, m - more)
  }

  lemma DoOnCourse(e: Env, s: State, a: Action, from: nat, k: Key, m: nat)
    requires Allows(e, s, a) && OnCourse(s, from, k, m) && Undisturbed(Do(e, s, a).log, from, k)
    ensures OnCourse(Do(e, s, a), from, k, m)
  {
    hide Do, NotesOf, Can, Remembered, BlocksIn;
    var t, notes := Do(e, s, a), NotesOf(e, s, a);
    DoLogs(e, s, a);
    assert t.log[from..] == s.log[from..] + notes;
    BlocksAdd(s.log[from..], notes);
    forall i | 0 <= i < |notes| ensures notes[i] == t.log[|s.log| + i] {}
    if Gone(k, Displaced) !in s.log[from..] {
      DoRemembers(e, s, a, k, m - BlocksIn(s.log[from..]));
    }
  }

  lemma UndisturbedPart(a: seq<Note>, b: seq<Note>, from: nat, k: Key)
    requires a <= b && Undisturbed(b, from, k)
    ensures Undisturbed(a, from, k)
  {
    assert forall i :: 0 <= i < |a| ==> b[i] == a[i];
  }

  lemma {:induction false} PathOnCourse(e: Env, s: State, acts: seq<Action>, t: State, from: nat, k: Key, m: nat)
    requires Ok(s) && OnCourse(s, from, k, m) && Path(e, s, acts, t) && Undisturbed(t.log, from, k)
    ensures OnCourse(t, from, k, m)
    decreases |acts|
  {
    if acts != [] {
      hide OnCourse, Undisturbed;
      var u := Do(e, s, acts[0]);
      PathTells(e, u, acts[1..], t);
      UndisturbedPart(u.log, t.log, from, k);
      DoOnCourse(e, s, acts[0], from, k, m);
      PathOnCourse(e, u, acts[1..], t, from, k, m);
    }
  }

  lemma StepOnCourse(s: State, maxFlows: nat, policy: Policy, op: Op, from: nat, k: Key, m: nat)
    requires Quiet(s, None) && OpOk(s, op) && OnCourse(s, from, k, m) && Undisturbed(Step(s, maxFlows, policy, op).log, from, k)
    ensures OnCourse(Step(s, maxFlows, policy, op), from, k, m)
  {
    var t := Step(s, maxFlows, policy, op);
    if !op.OpDrain? {
      hide OnCourse, Undisturbed;
      StepReaches(s, maxFlows, policy, op);
      var e := EnvOf(maxFlows, policy, op);
      var acts :| Path(e, s, acts, t);
      PathOnCourse(e, s, acts, t, from, k, m);
    }
  }

  lemma {:induction false} RunOnCourse(s: State, maxFlows: nat, policy: Policy, ops: seq<Op>, from: nat, k: Key, m: nat)
    requires Quiet(s, None) && RunOk(s, maxFlows, policy, ops) && OnCourse(s, from, k, m)
    requires Undisturbed(Run(s, maxFlows, policy, ops).log, from, k)
    ensures OnCourse(Run(s, maxFlows, policy, ops), from, k, m)
    decreases |ops|
  {
    if ops != [] {
      hide OnCourse, Step, Undisturbed;
      var t := Step(s, maxFlows, policy, ops[0]);
      StepReaches(s, maxFlows, policy, ops[0]);
      RunGrows(t, maxFlows, policy, ops[1..]);
      UndisturbedPart(t.log, Run(s, maxFlows, policy, ops).log, from, k);
      StepOnCourse(s, maxFlows, policy, ops[0], from, k, m);
      RunOnCourse(t, maxFlows, policy, ops[1..], from, k, m);
    }
  }

  /**
   How long a block lasts, exactly: through any run without cap eviction, flush or its own idle expiry, it
   is displaced if and only if more flows are registered than were left to it, and until then it stays.
   */
  lemma BlockIsRemembered(s: State, maxFlows: nat, policy: Policy, ops: seq<Op>, k: Key, left: nat)
    requires Quiet(s, None) && RunOk(s, maxFlows, policy, ops) && Remembered(s, k, left)
    requires Undisturbed(Run(s, maxFlows, policy, ops).log, |s.log|, k)
    ensures var t := Run(s, maxFlows, policy, ops);
            && s.log <= t.log
            && (Gone(k, Displaced) in t.log[|s.log|..] <==> BlocksIn(t.log[|s.log|..]) > left)
            && (BlocksIn(t.log[|s.log|..]) <= left ==> IsBlock(t, k))
  {
    hide RunOk, Run, Undisturbed;
    assert s.log[|s.log|..] == [];
    assert BlocksIn([]) == 0;
    hide BlocksIn;
    RunGrows(s, maxFlows, policy, ops);
    RunOnCourse(s, maxFlows, policy, ops, |s.log|, k, left);
  }

  // ---------------------------------------------------------------- what a feed that blocks a flow leaves

  /**
   The flow `k` while one of its packets is fed, `base` being the table the feed found room in: until it is
   blocked the ring stays as it was, and blocked it has a full ring to go exactly as `base` says.
   */
  ghost predicate Fresh(base: State, s: State, k: Key) {
    && Ok(s) && Ok(base) && |s.ring| == |base.ring|
    && (IsWait(s, k) ==> s.ring == base.ring && s.next == base.next)
    && (IsBlock(s, k) ==> k in s.ring && (Remembered(s, k, |s.ring| - 1) <==> Unnamed(base, k)))
  }

  lemma SettleFresh(base: State, s: State, policy: Policy, k: Key, host: Option<Bytes>)
    requires Fresh(base, s, k) && IsWait(s, k) && k != 0
    ensures Fresh(base, Settle(s, policy, k, host), k)
  {
    if policy(host) == BLOCK { RegisteredIff(s, policy, k, host); }
  }

  lemma OnEventFresh(base: State, s: State, policy: Policy, k: Key, ev: Event)
    requires Fresh(base, s, k) && k != 0
    ensures Fresh(base, OnEvent(s, policy, k, ev), k)
  {
    hide Settle, Unnamed, Hostname.Extract;
    if IsWait(s, k) {
      match ev {
        case Start(_) =>
        case Data(side, chunk, token) =>
          var t := Hear(Learn(s, k, token, s.conns[k].closed), k, chunk);
          SettleFresh(base, t, policy, k, Answer(t.conns[k].stream));
          SettleFresh(base, t, policy, k, None);
        case End => SettleFresh(base, Learn(s, k, s.conns[k].token, true), policy, k, None);
      }
    }
  }

  lemma {:induction false} OnEventsFresh(base: State, s: State, policy: Policy, k: Key, events: seq<Event>)
    requires Fresh(base, s, k) && k != 0
    ensures Fresh(base, OnEvents(s, policy, k, events), k)
    decreases |events|
  {
    if events != [] {
      hide OnEvent, Fresh;
      OnEventFresh(base, s, policy, k, events[0]);
      OnEventsFresh(base, OnEvent(s, policy, k, events[0]), policy, k, events[1..]);
    }
  }

  lemma TrackFresh(base: State, s: State, policy: Policy, k: Key, f: Dissector.FlowView, pkt: Packet, events: seq<Event>)
    requires Fresh(base, s, k) && IsWait(s, k) && k != 0
    ensures Fresh(base, Track(s, policy, k, f, pkt, events), k)
  {
    hide OnEvents, Settle, Unnamed;
    SettleFresh(base, s, policy, k, None);
    OnEventsFresh(base, s, policy, k, events);
    OnEventsFresh(base, Hold(s, k, pkt), policy, k, events);
  }

  /** What happens to one flow's packets blocks no other flow. */
  lemma {:induction false} OnEventsOthers(s: State, policy: Policy, j: Key, events: seq<Event>, k: Key)
    requires Ok(s) && k != j && IsBlock(OnEvents(s, policy, j, events), k)
    ensures IsBlock(s, k)
    decreases |events|
  {
    if events != [] {
      OnEventsOthers(OnEvent(s, policy, j, events[0]), policy, j, events[1..], k);
      OnEventOthers(s, policy, j, events[0], k);
    }
  }

  lemma SettleOthers(s: State, policy: Policy, j: Key, host: Option<Bytes>, k: Key)
    requires Ok(s) && j in s.conns && k != j && IsBlock(Settle(s, policy, j, host), k)
    ensures IsBlock(s, k)
  {
    hide Verdicts, GivenNotes;
  }

  lemma OnEventOthers(s: State, policy: Policy, j: Key, ev: Event, k: Key)
    requires Ok(s) && k != j && IsBlock(OnEvent(s, policy, j, ev), k)
    ensures IsBlock(s, k)
  {
    hide Settle, Hostname.Extract;
    forall t: State, host | Ok(t) && j in t.conns && IsBlock(Settle(t, policy, j, host), k) ensures IsBlock(t, k) {
      SettleOthers(t, policy, j, host, k);
    }
  }

  lemma TrackOthers(s: State, policy: Policy, j: Key, f: Dissector.FlowView, pkt: Packet, events: seq<Event>, k: Key)
    requires Ok(s) && j in s.conns && k != j && IsBlock(Track(s, policy, j, f, pkt, events), k)
    ensures IsBlock(s, k)
  {
    hide OnEvents, Settle;
    if |s.conns[j].held| >= MAX_HELD {
      if IsWait(s, j) { SettleOthers(s, policy, j, None, k); }
    } else if f.payloadLen > 0 {
      OnEventsOthers(Hold(s, j, pkt), policy, j, events, k);
    } else if ChangesState(f) {
      OnEventsOthers(s, policy, j, events, k);
    }
  }

  lemma {:induction false} EvictAdds(s: State, tries: nat, k: Key)
    requires Ok(s) && k != 0
    ensures IsBlock(Evict(s, tries), k) ==> IsBlock(s, k)
    ensures k in Evict(s, tries).ring ==> k in s.ring
    decreases tries
  {
    if tries > 0 && !VictimAtNext(s) { EvictAdds(TurnSlot(s), tries - 1, k); }
  }

  /** The table a packet of flow `k` is let into: as it is if the flow is tracked, else with room made for it. */
  function RoomFor(s: State, maxFlows: nat, k: Key): (r: State)
    requires Ok(s)
    ensures Ok(r) && |r.ring| == |s.ring|
  {
    if k in s.conns then s else MakeRoom(s, maxFlows)
  }

  lemma PlaceRemembers(s: State, maxFlows: nat, policy: Policy, pkt: Packet, now: int, events: seq<Event>, k: Key)
    requires Ok(s) && k != 0 && !IsBlock(s, k)
    requires IsBlock(Place(s, maxFlows, policy, pkt, now, events), k)
    ensures var t := Place(s, maxFlows, policy, pkt, now, events);
            k in t.ring && (Remembered(t, k, |s.ring| - 1) <==> Unnamed(RoomFor(s, maxFlows, k), k))
  {
    hide Track, Evict, TcpView, Opens, Remembered, Unnamed;
    var f := TcpView(pkt).value;
    var j := KeyOf(f);
    var room := MakeRoom(s, maxFlows);
    EvictAdds(s, |s.ring|, k);
    if j in s.conns {
      var t := Touch(s, j, now);
      if j != k { TrackOthers(t, policy, j, f, pkt, events, k); } else { TrackFresh(s, t, policy, k, f, pkt, events); }
    } else if Opens(pkt) && |room.conns| < maxFlows {
      var t := Open(room, j, now);
      if j != k { TrackOthers(t, policy, j, f, pkt, events, k); } else { TrackFresh(room, t, policy, k, f, pkt, events); }
    }
  }

  lemma {:induction false} ExpireAllAllows(s: State, policy: Policy, keys: seq<Key>)
    requires Ok(s) && policy(None) == ALLOW
    ensures var t := ExpireAll(s, policy, keys); t.ring == s.ring && t.next == s.next && forall k :: IsBlock(t, k) ==> IsBlock(s, k)
    decreases |keys|
  {
    if keys != [] { ExpireAllAllows(Expire(s, policy, keys[0]), policy, keys[1..]); }
  }

  lemma TickAllows(s: State, policy: Policy, now: int, order: seq<Key>)
    requires Ok(s) && policy(None) == ALLOW
    ensures var t := Tick(s, policy, now, order); t.ring == s.ring && forall k :: IsBlock(t, k) ==> IsBlock(s, k)
  {
    var u := s.(lastSweep := now);
    var swept := ExpireAll(u, policy, Expired(u.conns, now, order));
    ExpireAllAllows(u, policy, Expired(u.conns, now, order));
    hide ExpireAll, Expired;
    forall k | IsBlock(Tick(s, policy, now, order), k) ensures IsBlock(s, k) {
      if now - s.lastSweep >= SWEEP_INTERVAL { assert IsBlock(swept, k) && IsBlock(u, k); }
    }
  }

  /**
   A feed that newly blocks a flow leaves it a full ring of registrations exactly when no slot but the one it
   took named it already.
   */
  lemma FeedRemembers(
      s: State, maxFlows: nat, policy: Policy, pkt: Packet, now: int, order: seq<Key>, events: seq<Event>, k: Key)
    requires Ok(s) && k != 0 && !IsBlock(Tick(s, policy, now, order), k)
    requires IsBlock(Feed(s, maxFlows, policy, pkt, now, order, events), k)
    ensures var t := Feed(s, maxFlows, policy, pkt, now, order, events);
            var room := RoomFor(Tick(s, policy, now, order), maxFlows, k);
            k in t.ring && (Remembered(t, k, |s.ring| - 1) <==> Unnamed(room, k))
  {
    hide Tick, Place, Remembered, Unnamed, RoomFor;
    PlaceRemembers(Tick(s, policy, now, order), maxFlows, policy, pkt, now, events, k);
  }

  /** Seen before the tick: a flow neither blocked nor named by the ring then is so where the feed finds room. */
  lemma AbsentIsUnnamed(s: State, maxFlows: nat, policy: Policy, now: int, order: seq<Key>, k: Key)
    requires Ok(s) && policy(None) == ALLOW && k != 0 && k !in s.ring && !IsBlock(s, k)
    ensures !IsBlock(Tick(s, policy, now, order), k) && Unnamed(RoomFor(Tick(s, policy, now, order), maxFlows, k), k)
  {
    TickAllows(s, policy, now, order);
    hide Tick, Evict;
    var t := Tick(s, policy, now, order);
    EvictAdds(t, |t.ring|, k);
    var room := RoomFor(t, maxFlows, k);
    assert forall i :: 0 <= i < |room.ring| ==> room.ring[i] in room.ring;
  }

  /**
   The headline: a flow newly blocked by a feed has some number of registrations left, at most one less than
   the ring has slots, and exactly that many when no slot but the one it took named it. Through any run
   without cap eviction, flush or its own idle expiry it is displaced exactly by the registration after those.
   */
  lemma BlockOutlives(
      s: State, maxFlows: nat, policy: Policy, pkt: Packet, now: int, order: seq<Key>, events: seq<Event>, k: Key, ops: seq<Op>)
    returns (left: nat)
    requires Quiet(s, None) && k != 0 && !IsBlock(Tick(s, policy, now, order), k)
    requires RunOk(s, maxFlows, policy, [OpFeed(pkt, now, order, events)] + ops)
    requires IsBlock(Feed(s, maxFlows, policy, pkt, now, order, events), k)
    requires var t := Feed(s, maxFlows, policy, pkt, now, order, events);
             Undisturbed(Run(t, maxFlows, policy, ops).log, |t.log|, k)
    ensures left < |s.ring|
    ensures left == |s.ring| - 1 <==> Unnamed(RoomFor(Tick(s, policy, now, order), maxFlows, k), k)
    ensures var t := Feed(s, maxFlows, policy, pkt, now, order, events);
            var u := Run(t, maxFlows, policy, ops);
            && t.log <= u.log
            && (Gone(k, Displaced) in u.log[|t.log|..] <==> BlocksIn(u.log[|t.log|..]) > left)
            && (BlocksIn(u.log[|t.log|..]) <= left ==> IsBlock(u, k))
  {
    var all := [OpFeed(pkt, now, order, events)] + ops;
    assert all[0] == OpFeed(pkt, now, order, events) && all[1..] == ops;
    var t := Feed(s, maxFlows, policy, pkt, now, order, events);
    StepReaches(s, maxFlows, policy, all[0]);
    FeedRemembers(s, maxFlows, policy, pkt, now, order, events, k);
    left := Blocked(t, k);
    hide Undisturbed, BlocksIn, Remembered, Feed, Quiet, Unnamed, RoomFor, Tick;
    BlockIsRemembered(t, maxFlows, policy, ops, k, left);
  }

  lemma Blocked(t: State, k: Key) returns (left: nat)
    requires Ok(t) && IsBlock(t, k) && k != 0 && k in t.ring
    ensures Remembered(t, k, left) && left < |t.ring|
    ensures left == |t.ring| - 1 <==> Remembered(t, k, |t.ring| - 1)
  {
    left := BlockedIsRemembered(t, k);
    if Remembered(t, k, |t.ring| - 1) { OneMemory(t, k, left, |t.ring| - 1); }
  }
}
