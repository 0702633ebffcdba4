/**
 Every public operation of the flow table is a sequence of a few small actions, each taken only when
 it is allowed. An invariant that every allowed action keeps is therefore kept by every operation.
 This module proves the decomposition, together with the shape of the table between operations.
 */
module FlowActions {
  import opened Wire
  import opened Packets
  import opened FlowTable
  import Hostname

  datatype Env = Env(maxFlows: nat, policy: Policy, now: int, sweeping: bool)

  datatype Action =
    | DoGive(key: Option<Key>, payload: bool, pkt: Packet, verdict: Verdict)
    | DoHold(k: Key, pkt: Packet)
    | DoRelease(k: Key)
    | DoOpen(k: Key)
    | DoTouch(k: Key)
    | DoLearn(k: Key, token: Key, closed: bool)
    | DoHear(k: Key, chunk: Bytes)
    | DoSettle(k: Key, host: Option<Bytes>)
    | DoForget(k: Key)
    | DoTurn
    | DoDrop
    | DoCloses
    | DoSwept
    | DoClear

  function HeldOf(s: State, k: Key): seq<Packet> { if k in s.conns then s.conns[k].held else [] }

  ghost predicate Can(e: Env, s: State, a: Action)
    requires Ok(s)
  {
    match a
    case DoGive(key, payload, pkt, v) =>
      && pkt.pending
      && (key.None? ==> v == ALLOW && !payload)
      && (key.Some? && v == BLOCK ==> IsBlock(s, key.value))
      && (key.Some? && payload ==> HeldOf(s, key.value) == [])
      && (key.Some? && payload && v == ALLOW && IsBlock(s, key.value) ==> e.policy(None) == BLOCK)
    case DoHold(k, pkt) => pkt.pending && IsWait(s, k) && |s.conns[k].held| < MAX_HELD
    case DoRelease(k) => IsWait(s, k) && s.conns[k].held != []
    case DoOpen(k) => k !in s.conns && |s.conns| < e.maxFlows
    case DoTouch(k) => k in s.conns
    case DoLearn(k, _, _) => k in s.conns
    case DoHear(k, _) => IsWait(s, k)
    case DoSettle(k, host) => IsWait(s, k) && host == Answer(s.conns[k].stream)
    case DoForget(k) => IsBlock(s, k)
    case DoTurn => true
    case DoDrop => true
    case DoCloses => true
    case DoSwept => e.sweeping
    case DoClear => forall k :: !IsWait(s, k)
  }

  ghost function Do(e: Env, s: State, a: Action): (t: State)
    requires Ok(s) && Can(e, s, a)
    ensures Ok(t) && |t.ring| == |s.ring|
  {
    match a
    case DoGive(key, payload, pkt, v) => Give(s, key, payload, pkt, v)
    case DoHold(k, pkt) => Hold(s, k, pkt)
    case DoRelease(k) => Release(s, k)
    case DoOpen(k) => Open(s, k, e.now)
    case DoTouch(k) => Touch(s, k, e.now)
    case DoLearn(k, token, closed) => Learn(s, k, token, closed)
    case DoHear(k, chunk) => Hear(s, k, chunk)
    case DoSettle(k, host) => Settle(s, e.policy, k, host)
    case DoForget(k) => Forget(s, k, Idle)
    case DoTurn => TurnSlot(s)
    case DoDrop => s.(dropped := s.dropped + 1)
    case DoCloses => s.(toClose := [])
    case DoSwept => s.(lastSweep := e.now)
    case DoClear => Clear(s)
  }

  ghost predicate Path(e: Env, s: State, acts: seq<Action>, t: State)
    requires Ok(s)
    decreases |acts|
  {
    if acts == [] then s == t
    else Can(e, s, acts[0]) && Path(e, Do(e, s, acts[0]), acts[1..], t)
  }

  /** `t` is reached from `s` by allowed actions. */
  ghost predicate Reach(e: Env, s: State, t: State)
    requires Ok(s)
  {
    exists acts :: Path(e, s, acts, t)
  }

  lemma Stay(e: Env, s: State)
    requires Ok(s)
    ensures Reach(e, s, s)
  {
    assert Path(e, s, [], s);
  }

  lemma One(e: Env, s: State, a: Action)
    requires Ok(s) && Can(e, s, a)
    ensures Reach(e, s, Do(e, s, a))
  {
    assert [a][1..] == [];
    assert Path(e, s, [a], Do(e, s, a));
  }

  lemma {:induction false} PathConcat(e: Env, s: State, a: seq<Action>, t: State, b: seq<Action>, u: State)
    requires Ok(s) && Ok(t) && Path(e, s, a, t) && Path(e, t, b, u)
    ensures Path(e, s, a + b, u)
    decreases |a|
  {
    if a == [] {
      assert a + b == b;
    } else {
      PathConcat(e, Do(e, s, a[0]), a[1..], t, b, u);
      assert (a + b)[1..] == a[1..] + b;
    }
  }

  lemma Then(e: Env, s: State, t: State, u: State)
    requires Ok(s) && Ok(t) && Reach(e, s, t) && Reach(e, t, u)
    ensures Reach(e, s, u)
  {
    var a :| Path(e, s, a, t);
    var b :| Path(e, t, b, u);
    PathConcat(e, s, a, t, b, u);
  }

  // ---------------------------------------------------------------- the table between operations

  /** An entry as it stands between operations; `hot` allows the packet just held to keep its bytes. */
  ghost predicate Calm(c: Conn, hot: bool) {
    match c.mode
    case Block => c.held == [] && c.stream == []
    case Wait =>
      && |c.stream| <= 32768 && Hostname.Extract(c.stream).NeedMore?
      && |c.held| <= 32
      && forall i :: 0 <= i < |c.held| ==> c.held[i].pending && (c.held[i].IsShell() || (hot && i == |c.held| - 1))
  }

  ghost predicate Quiet(s: State, hot: Option<Key>) {
    && Ok(s)
    && (forall k :: k in s.conns ==> Calm(s.conns[k], hot == Some(k)))
    && (forall d :: d in s.decided ==> d.pkt.pending)
  }

  lemma QuietIsWarm(s: State, k: Key)
    requires Quiet(s, None)
    ensures Quiet(s, Some(k))
  {}

  lemma QuietAsBefore(s: State, hot: Option<Key>)
    requires Quiet(s, None)
    ensures Quiet(s, hot)
  {}

  // ---------------------------------------------------------------- actions one at a time

  lemma LearnReaches(e: Env, s: State, k: Key, token: Key, closed: bool)
    requires Ok(s) && k in s.conns
    ensures Reach(e, s, Learn(s, k, token, closed))
  {
    One(e, s, DoLearn(k, token, closed));
  }

  lemma LearnQuiet(s: State, k: Key, token: Key, closed: bool, hot: Option<Key>)
    requires Quiet(s, hot) && k in s.conns
    ensures Quiet(Learn(s, k, token, closed), hot)
  {}

  lemma HearReaches(e: Env, s: State, k: Key, chunk: Bytes)
    requires Ok(s) && IsWait(s, k)
    ensures Reach(e, s, Hear(s, k, chunk))
  {
    One(e, s, DoHear(k, chunk));
  }

  /** A waiting flow that can be settled whatever its stream says: everything else is at rest. */
  ghost predicate Ready(s: State, k: Key) {
    && Ok(s) && IsWait(s, k)
    && (forall j :: j in s.conns && j != k ==> Calm(s.conns[j], false))
    && (forall i :: 0 <= i < |s.conns[k].held| ==> s.conns[k].held[i].pending)
    && (forall d :: d in s.decided ==> d.pkt.pending)
  }

  lemma QuietIsReady(s: State, k: Key, hot: Option<Key>)
    requires Quiet(s, hot) && IsWait(s, k) && (hot == None || hot == Some(k))
    ensures Ready(s, k)
  {}

  /** Hearing a chunk leaves the flow ready to be settled, and at rest if the stream is still short and undecided. */
  lemma HearReady(s: State, k: Key, chunk: Bytes, hot: Option<Key>)
    requires Quiet(s, hot) && IsWait(s, k) && (hot == None || hot == Some(k))
    ensures var t := Hear(s, k, chunk);
            && Ready(t, k)
            && (Hostname.Extract(t.conns[k].stream).NeedMore? && |t.conns[k].stream| <= MAX_STREAM ==> Quiet(t, hot))
  {
    hide Hostname.Extract;
    var t := Hear(s, k, chunk);
    assert forall j :: j in t.conns && j != k ==> t.conns[j] == s.conns[j];
  }

  lemma ResolveReaches(e: Env, s: State, k: Key, host: Option<Bytes>)
    requires Ok(s) && (IsWait(s, k) ==> host == Answer(s.conns[k].stream))
    ensures Reach(e, s, Resolve(s, e.policy, k, host))
  {
    if IsWait(s, k) { One(e, s, DoSettle(k, host)); } else { Stay(e, s); }
  }

  /** Settling a flow leaves every other entry as it was or drops it, and answers only held packets. */
  lemma SettleQuiet(s: State, policy: Policy, k: Key, host: Option<Bytes>)
    requires Ready(s, k)
    ensures Quiet(Settle(s, policy, k, host), None)
    ensures !IsWait(Settle(s, policy, k, host), k)
  {
    var c, v := s.conns[k], policy(host);
    if v == BLOCK {
      var asked := Noted(s, [Asked(k, host, c.stream, v)]);
      RememberDrops(asked.(conns := s.conns[k := c.(mode := Block, held := [], stream := [])]), k);
    }
    hide RememberBlocked, GivenNotes, Hostname.Extract;
    var t := Settle(s, policy, k, host);
    assert forall j :: j in t.conns && j != k ==> j in s.conns && t.conns[j] == s.conns[j];
  }

  lemma RememberDrops(s: State, k: Key)
    requires Ok(s)
    ensures var t := RememberBlocked(s, k);
            && t.decided == s.decided && t.conns.Keys <= s.conns.Keys
            && forall j :: j in t.conns ==> t.conns[j] == s.conns[j]
  {}

  lemma ResolveQuiet(s: State, policy: Policy, k: Key, host: Option<Bytes>)
    requires Quiet(s, Some(k))
    ensures Quiet(Resolve(s, policy, k, host), None) && !IsWait(Resolve(s, policy, k, host), k)
  {
    hide Settle, Ready;
    if IsWait(s, k) {
      QuietIsReady(s, k, Some(k));
      SettleQuiet(s, policy, k, host);
    }
  }

  /** The answer a flow at rest would be settled with: none. */
  lemma QuietAnswer(s: State, k: Key, hot: Option<Key>)
    requires Quiet(s, hot) && IsWait(s, k)
    ensures Answer(s.conns[k].stream) == None
  {}

  // ---------------------------------------------------------------- the callbacks

  /** One callback: the flow waits on with an undecided stream, or it is settled by what its stream says. */
  lemma OnEventReaches(e: Env, s: State, k: Key, ev: Event)
    requires Quiet(s, Some(k))
    ensures Reach(e, s, OnEvent(s, e.policy, k, ev)) && Quiet(OnEvent(s, e.policy, k, ev), Some(k))
  {
    OnEventQuiet(s, e.policy, k, ev, Some(k));
    hide Reach, Calm, Resolve, Answer;
    match ev {
      case Start(token) =>
        if k in s.conns { LearnReaches(e, s, k, token, s.conns[k].closed); } else { Stay(e, s); }
      case Data(side, chunk, token) =>
        if side != CLIENT_SIDE || !IsWait(s, k) { Stay(e, s); } else { OnDataReaches(e, s, k, ev); }
      case End =>
        if k in s.conns {
          var t := Learn(s, k, s.conns[k].token, true);
          LearnReaches(e, s, k, s.conns[k].token, true);
          if IsWait(s, k) { QuietAnswer(s, k, Some(k)); }
          ResolveReaches(e, t, k, None);
          Then(e, s, t, Resolve(t, e.policy, k, None));
        } else {
          Stay(e, s);
        }
    }
  }

  lemma OnDataReaches(e: Env, s: State, k: Key, ev: Event)
    requires Ok(s) && IsWait(s, k) && ev.Data? && ev.side == CLIENT_SIDE
    ensures Reach(e, s, OnEvent(s, e.policy, k, ev))
  {
    hide Reach, Resolve, Hostname.Extract;
    var l := Learn(s, k, ev.token, s.conns[k].closed);
    LearnReaches(e, s, k, ev.token, s.conns[k].closed);
    var t := Hear(l, k, ev.chunk);
    HearReaches(e, l, k, ev.chunk);
    Then(e, s, l, t);
    var stream := t.conns[k].stream;
    if !Hostname.Extract(stream).NeedMore? || |stream| > MAX_STREAM {
      var host := Answer(stream);
      ResolveReaches(e, t, k, host);
      Then(e, s, t, Resolve(t, e.policy, k, host));
    }
  }

  /** A callback leaves the table at rest, apart from the packet being fed. */
  lemma OnEventQuiet(s: State, policy: Policy, k: Key, ev: Event, hot: Option<Key>)
    requires Quiet(s, hot) && (hot == None || hot == Some(k))
    ensures Quiet(OnEvent(s, policy, k, ev), hot)
  {
    hide Settle, Ready, Calm, Hostname.Extract;
    match ev {
      case Start(token) => if k in s.conns { LearnQuiet(s, k, token, s.conns[k].closed, hot); }
      case Data(side, chunk, token) => if side == CLIENT_SIDE && IsWait(s, k) { OnDataQuiet(s, policy, k, ev, hot); }
      case End =>
        if k in s.conns {
          var l := Learn(s, k, s.conns[k].token, true);
          LearnQuiet(s, k, s.conns[k].token, true, hot);
          if IsWait(s, k) {
            QuietIsReady(l, k, hot);
            SettleQuiet(l, policy, k, None);
            QuietAsBefore(Settle(l, policy, k, None), hot);
          }
        }
    }
  }

  lemma OnDataQuiet(s: State, policy: Policy, k: Key, ev: Event, hot: Option<Key>)
    requires Quiet(s, hot) && (hot == None || hot == Some(k)) && IsWait(s, k) && ev.Data? && ev.side == CLIENT_SIDE
    ensures Quiet(OnEvent(s, policy, k, ev), hot)
  {
    hide Settle, Ready, Calm, Hostname.Extract;
    var l := Learn(s, k, ev.token, s.conns[k].closed);
    LearnQuiet(s, k, ev.token, s.conns[k].closed, hot);
    var t := Hear(l, k, ev.chunk);
    HearReady(l, k, ev.chunk, hot);
    var stream := t.conns[k].stream;
    if !Hostname.Extract(stream).NeedMore? || |stream| > MAX_STREAM {
      SettleQuiet(t, policy, k, Answer(stream));
      QuietAsBefore(Settle(t, policy, k, Answer(stream)), hot);
    }
  }

  lemma {:induction false} OnEventsReaches(e: Env, s: State, k: Key, events: seq<Event>)
    requires Quiet(s, Some(k))
    ensures Reach(e, s, OnEvents(s, e.policy, k, events)) && Quiet(OnEvents(s, e.policy, k, events), Some(k))
    decreases |events|
  {
    if events == [] {
      Stay(e, s);
    } else {
      var t := OnEvent(s, e.policy, k, events[0]);
      OnEventReaches(e, s, k, events[0]);
      OnEventsReaches(e, t, k, events[1..]);
      Then(e, s, t, OnEvents(s, e.policy, k, events));
    }
  }

  // ---------------------------------------------------------------- sweep, tick, evict, flush

  lemma ExpireReaches(e: Env, s: State, k: Key)
    requires Quiet(s, None)
    ensures Reach(e, s, Expire(s, e.policy, k)) && Quiet(Expire(s, e.policy, k), None)
    ensures !IsWait(Expire(s, e.policy, k), k)
  {
    if IsBlock(s, k) {
      One(e, s, DoForget(k));
    } else {
      ResolveReaches(e, s, k, None);
      QuietIsWarm(s, k);
      ResolveQuiet(s, e.policy, k, None);
    }
  }

  lemma {:induction false} ExpireAllReaches(e: Env, s: State, keys: seq<Key>)
    requires Quiet(s, None)
    ensures Reach(e, s, ExpireAll(s, e.policy, keys)) && Quiet(ExpireAll(s, e.policy, keys), None)
    decreases |keys|
  {
    if keys == [] {
      Stay(e, s);
    } else {
      var t := Expire(s, e.policy, keys[0]);
      ExpireReaches(e, s, keys[0]);
      ExpireAllReaches(e, t, keys[1..]);
      Then(e, s, t, ExpireAll(s, e.policy, keys));
    }
  }

  lemma TickReaches(e: Env, s: State, order: seq<Key>)
    requires Quiet(s, None) && e.sweeping
    ensures Reach(e, s, Tick(s, e.policy, e.now, order)) && Quiet(Tick(s, e.policy, e.now, order), None)
  {
    if e.now - s.lastSweep < SWEEP_INTERVAL {
      Stay(e, s);
    } else {
      var t := s.(lastSweep := e.now);
      One(e, s, DoSwept);
      var keys := Expired(t.conns, e.now, order);
      ExpireAllReaches(e, t, keys);
      var u := ExpireAll(t, e.policy, keys);
      One(e, u, DoCloses);
      Then(e, s, t, u);
      Then(e, s, u, Tick(s, e.policy, e.now, order));
    }
  }

  lemma TurnQuiet(s: State)
    requires Quiet(s, None)
    ensures Quiet(TurnSlot(s), None)
  {}

  lemma {:induction false} EvictReaches(e: Env, s: State, tries: nat)
    requires Quiet(s, None)
    ensures Reach(e, s, Evict(s, tries)) && Quiet(Evict(s, tries), None)
    decreases tries
  {
    if tries == 0 {
      Stay(e, s);
    } else {
      hide Calm;
      var t := TurnSlot(s);
      One(e, s, DoTurn);
      TurnQuiet(s);
      hide TurnSlot, Reach, Quiet;
      if !VictimAtNext(s) {
        EvictReaches(e, t, tries - 1);
        Then(e, s, t, Evict(s, tries));
      }
    }
  }

  /** An eviction only ever removes, and never a waiting flow. */
  lemma {:induction false} EvictSpares(s: State, tries: nat)
    requires Ok(s)
    ensures Evict(s, tries).conns.Keys <= s.conns.Keys
    ensures forall k :: IsWait(s, k) ==> IsWait(Evict(s, tries), k) && Evict(s, tries).conns[k] == s.conns[k]
    decreases tries
  {
    if tries > 0 && !VictimAtNext(s) { EvictSpares(TurnSlot(s), tries - 1); }
  }

  lemma {:induction false} ResolveAllReaches(e: Env, s: State, keys: seq<Key>)
    requires Quiet(s, None)
    ensures Reach(e, s, ResolveAll(s, e.policy, keys)) && Quiet(ResolveAll(s, e.policy, keys), None)
    decreases |keys|
  {
    if keys == [] {
      Stay(e, s);
    } else {
      hide Reach, Resolve, Calm, Answer;
      var t := Resolve(s, e.policy, keys[0], None);
      if IsWait(s, keys[0]) { QuietAnswer(s, keys[0], None); }
      ResolveReaches(e, s, keys[0], None);
      QuietIsWarm(s, keys[0]);
      ResolveQuiet(s, e.policy, keys[0], None);
      ResolveAllReaches(e, t, keys[1..]);
      Then(e, s, t, ResolveAll(s, e.policy, keys));
    }
  }

  /** What still waits after resolving a list of flows waited before and was not on it. */
  lemma {:induction false} ResolveAllLeaves(s: State, policy: Policy, keys: seq<Key>, k: Key)
    requires Ok(s) && IsWait(ResolveAll(s, policy, keys), k)
    ensures IsWait(s, k) && k !in keys
    decreases |keys|
  {
    if keys != [] {
      var t := Resolve(s, policy, keys[0], None);
      ResolveAllLeaves(t, policy, keys[1..], k);
      ResolveLeaves(s, policy, keys[0], k);
    }
  }

  lemma ResolveLeaves(s: State, policy: Policy, j: Key, k: Key)
    requires Ok(s) && IsWait(Resolve(s, policy, j, None), k)
    ensures IsWait(s, k) && k != j
  {
    hide GivenNotes, Verdicts;
  }

  lemma {:induction false} AllWaiting(conns: map<Key, Conn>, order: seq<Key>, k: Key)
    requires k in order && k in conns && conns[k].mode == Wait
    ensures k in Waiting(conns, order)
  {
    if order[0] != k { AllWaiting(conns, order[1..], k); }
  }

  lemma FlushReaches(e: Env, s: State, order: seq<Key>)
    requires Quiet(s, None) && IsOrder(order, s.conns)
    ensures Reach(e, s, Flush(s, e.policy, order)) && Quiet(Flush(s, e.policy, order), None)
  {
    var keys := Waiting(s.conns, order);
    var t := ResolveAll(s, e.policy, keys);
    ResolveAllReaches(e, s, keys);
    forall k ensures !IsWait(t, k) {
      if IsWait(t, k) {
        ResolveAllLeaves(s, e.policy, keys, k);
        AllWaiting(s.conns, order, k);
      }
    }
    var u := Clear(t);
    One(e, t, DoClear);
    Then(e, s, t, u);
    One(e, u, DoCloses);
    Then(e, s, u, Flush(s, e.policy, order));
  }

  // ---------------------------------------------------------------- feed

  lemma GiveReaches(e: Env, s: State, key: Option<Key>, payload: bool, pkt: Packet, v: Verdict)
    requires Quiet(s, None) && Can(e, s, DoGive(key, payload, pkt, v))
    ensures Reach(e, s, Give(s, key, payload, pkt, v)) && Quiet(Give(s, key, payload, pkt, v), None)
  {
    One(e, s, DoGive(key, payload, pkt, v));
  }

  lemma TrackReaches(e: Env, s: State, k: Key, f: Dissector.FlowView, pkt: Packet, events: seq<Event>)
    requires Quiet(s, None) && IsWait(s, k) && pkt.pending
    ensures Reach(e, s, Track(s, e.policy, k, f, pkt, events)) && Quiet(Track(s, e.policy, k, f, pkt, events), None)
  {
    var payload := f.payloadLen > 0;
    QuietIsWarm(s, k);
    if |s.conns[k].held| >= MAX_HELD {
      var t := Resolve(s, e.policy, k, None);
      ResolveReaches(e, s, k, None);
      ResolveQuiet(s, e.policy, k, None);
      assert IsBlock(t, k) ==> e.policy(None) == BLOCK;
      GiveReaches(e, t, Some(k), payload, pkt, ALLOW);
      Then(e, s, t, Give(t, Some(k), payload, pkt, ALLOW));
    } else if !payload && !ChangesState(f) {
      GiveReaches(e, s, Some(k), payload, pkt, ALLOW);
    } else if payload {
      TrackPayload(e, s, k, f, pkt, events);
    } else {
      var t := OnEvents(s, e.policy, k, events);
      OnEventsReaches(e, s, k, events);
      StillQuiet(s, e.policy, k, events);
      var u := t.(toClose := []);
      Closes(e, t, None);
      Then(e, s, t, u);
      GiveReaches(e, u, Some(k), payload, pkt, ALLOW);
      Then(e, s, u, Give(u, Some(k), payload, pkt, ALLOW));
    }
  }

  lemma HoldWarm(s: State, k: Key, pkt: Packet)
    requires Quiet(s, None) && IsWait(s, k) && pkt.pending && |s.conns[k].held| < MAX_HELD
    ensures Quiet(Hold(s, k, pkt), Some(k))
  {
    var t := Hold(s, k, pkt);
    assert forall j :: j in t.conns && j != k ==> t.conns[j] == s.conns[j];
  }

  lemma ReleaseCools(s: State, k: Key)
    requires Quiet(s, Some(k)) && k in s.conns && s.conns[k].held != []
    ensures Quiet(Release(s, k), None) && IsWait(s, k)
  {
    var t := Release(s, k);
    assert forall j :: j in t.conns && j != k ==> t.conns[j] == s.conns[j];
  }

  lemma TrackPayload(e: Env, s: State, k: Key, f: Dissector.FlowView, pkt: Packet, events: seq<Event>)
    requires Quiet(s, None) && IsWait(s, k) && pkt.pending && |s.conns[k].held| < MAX_HELD && f.payloadLen > 0
    ensures Reach(e, s, Track(s, e.policy, k, f, pkt, events)) && Quiet(Track(s, e.policy, k, f, pkt, events), None)
  {
    assert Ok(s);
    hide OnEvents, Hold, Release, Reach, Quiet, Give, Resolve;
    var h := Hold(s, k, pkt);
    HoldReaches(e, s, k, pkt);
    var t := OnEvents(h, e.policy, k, events);
    OnEventsReaches(e, h, k, events);
    Then(e, s, h, t);
    var u := t.(toClose := []);
    Closes(e, t, Some(k));
    Then(e, s, t, u);
    if k in u.conns && u.conns[k].held != [] {
      ReleaseReaches(e, u, k);
      Then(e, s, u, Release(u, k));
    } else {
      NothingHot(u, k);
    }
  }

  lemma HoldReaches(e: Env, s: State, k: Key, pkt: Packet)
    requires Quiet(s, None) && IsWait(s, k) && pkt.pending && |s.conns[k].held| < MAX_HELD
    ensures Ok(Hold(s, k, pkt)) && Reach(e, s, Hold(s, k, pkt)) && Quiet(Hold(s, k, pkt), Some(k))
  {
    One(e, s, DoHold(k, pkt));
    HoldWarm(s, k, pkt);
  }

  lemma ReleaseReaches(e: Env, s: State, k: Key)
    requires Quiet(s, Some(k)) && k in s.conns && s.conns[k].held != []
    ensures Reach(e, s, Release(s, k)) && Quiet(Release(s, k), None)
  {
    ReleaseCools(s, k);
    One(e, s, DoRelease(k));
  }

  lemma Closes(e: Env, s: State, hot: Option<Key>)
    requires Quiet(s, hot)
    ensures Reach(e, s, s.(toClose := [])) && Quiet(s.(toClose := []), hot)
  {
    One(e, s, DoCloses);
  }

  lemma NothingHot(s: State, k: Key)
    requires Quiet(s, Some(k)) && (k in s.conns ==> s.conns[k].held == [])
    ensures Quiet(s, None)
  {}

  /** With nothing freshly held, the callbacks leave nothing but shells. */
  lemma {:induction false} StillQuiet(s: State, policy: Policy, k: Key, events: seq<Event>)
    requires Quiet(s, None)
    ensures Quiet(OnEvents(s, policy, k, events), None)
    decreases |events|
  {
    if events != [] {
      OnEventQuiet(s, policy, k, events[0], None);
      StillQuiet(OnEvent(s, policy, k, events[0]), policy, k, events[1..]);
    }
  }

  lemma PlaceReaches(e: Env, s: State, pkt: Packet, events: seq<Event>)
    requires Quiet(s, None) && pkt.pending
    ensures var t := Place(s, e.maxFlows, e.policy, pkt, e.now, events); Reach(e, s, t) && Quiet(t, None)
  {
    match TcpView(pkt) {
      case None => GiveReaches(e, s, None, false, pkt, ALLOW);
      case Some(f) =>
        var k := KeyOf(f);
        var payload := f.payloadLen > 0;
        if k in s.conns {
          var t := Touch(s, k, e.now);
          One(e, s, DoTouch(k));
          if IsBlock(s, k) {
            GiveReaches(e, t, Some(k), payload, pkt, BLOCK);
          } else {
            TrackReaches(e, t, k, f, pkt, events);
          }
          Then(e, s, t, Place(s, e.maxFlows, e.policy, pkt, e.now, events));
        } else if !Opens(pkt) {
          GiveReaches(e, s, Some(k), payload, pkt, ALLOW);
        } else {
          PlaceNew(e, s, pkt, events);
        }
    }
  }

  lemma PlaceNew(e: Env, s: State, pkt: Packet, events: seq<Event>)
    requires Quiet(s, None) && pkt.pending
    requires TcpView(pkt).Some? && KeyOf(TcpView(pkt).value) !in s.conns && Opens(pkt)
    ensures var t := Place(s, e.maxFlows, e.policy, pkt, e.now, events); Reach(e, s, t) && Quiet(t, None)
  {
    hide Track, Give, Evict, Reach, TcpView, Opens;
    var f := TcpView(pkt).value;
    var k := KeyOf(f);
    var t := MakeRoom(s, e.maxFlows);
    if |s.conns| >= e.maxFlows { EvictReaches(e, s, |s.ring|); EvictSpares(s, |s.ring|); } else { Stay(e, s); }
    var end := Place(s, e.maxFlows, e.policy, pkt, e.now, events);
    if |t.conns| >= e.maxFlows {
      Turned(e, t, k, f.payloadLen > 0, pkt);
    } else {
      Admitted(e, t, k, f, pkt, events);
    }
    Then(e, s, t, end);
  }

  lemma Turned(e: Env, t: State, k: Key, payload: bool, pkt: Packet)
    requires Quiet(t, None) && pkt.pending && k !in t.conns
    ensures var u := Give(t.(dropped := t.dropped + 1), Some(k), payload, pkt, ALLOW); Reach(e, t, u) && Quiet(u, None)
  {
    var u := t.(dropped := t.dropped + 1);
    One(e, t, DoDrop);
    GiveReaches(e, u, Some(k), payload, pkt, ALLOW);
    Then(e, t, u, Give(u, Some(k), payload, pkt, ALLOW));
  }

  lemma Admitted(e: Env, t: State, k: Key, f: Dissector.FlowView, pkt: Packet, events: seq<Event>)
    requires Quiet(t, None) && pkt.pending && k !in t.conns && |t.conns| < e.maxFlows
    ensures var u := Track(Open(t, k, e.now), e.policy, k, f, pkt, events); Reach(e, t, u) && Quiet(u, None)
  {
    var u := Open(t, k, e.now);
    One(e, t, DoOpen(k));
    EmptyWaits();
    TrackReaches(e, u, k, f, pkt, events);
    Then(e, t, u, Track(u, e.policy, k, f, pkt, events));
  }

  lemma EmptyWaits()
    ensures Hostname.Extract([]).NeedMore?
  {}

  lemma FeedReaches(e: Env, s: State, pkt: Packet, order: seq<Key>, events: seq<Event>)
    requires Quiet(s, None) && pkt.pending && e.sweeping
    ensures var t := Feed(s, e.maxFlows, e.policy, pkt, e.now, order, events); Reach(e, s, t) && Quiet(t, None)
  {
    var t := Tick(s, e.policy, e.now, order);
    TickReaches(e, s, order);
    PlaceReaches(e, t, pkt, events);
    Then(e, s, t, Feed(s, e.maxFlows, e.policy, pkt, e.now, order, events));
  }

  // ---------------------------------------------------------------- whole runs

  function EnvOf(maxFlows: nat, policy: Policy, op: Op): Env {
    Env(maxFlows, policy, match op case OpFeed(_, now, _, _) => now case OpTick(now, _) => now case _ => 0, true)
  }

  lemma StepReaches(s: State, maxFlows: nat, policy: Policy, op: Op)
    requires Quiet(s, None) && OpOk(s, op)
    ensures Quiet(Step(s, maxFlows, policy, op), None)
    ensures !op.OpDrain? ==> Reach(EnvOf(maxFlows, policy, op), s, Step(s, maxFlows, policy, op))
  {
    var e := EnvOf(maxFlows, policy, op);
    match op {
      case OpFeed(pkt, _, order, events) => FeedReaches(e, s, pkt, order, events);
      case OpTick(_, order) => TickReaches(e, s, order);
      case OpFlush(order) => FlushReaches(e, s, order);
      case OpDrain =>
    }
  }

  /**
   Between operations of any run: a waiting flow has an undecided stream of at most 32768 bytes and at
   most 32 held packets, each a shell still owing a verdict; a blocked flow holds nothing.
   */
  lemma {:induction false} RunQuiet(s: State, maxFlows: nat, policy: Policy, ops: seq<Op>)
    requires Quiet(s, None) && RunOk(s, maxFlows, policy, ops)
    ensures Quiet(Run(s, maxFlows, policy, ops), None)
    decreases |ops|
  {
    if ops != [] {
      StepReaches(s, maxFlows, policy, ops[0]);
      RunQuiet(Step(s, maxFlows, policy, ops[0]), maxFlows, policy, ops[1..]);
    }
  }
}
