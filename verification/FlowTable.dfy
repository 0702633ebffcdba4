/**
 The flow table of the TLS-over-TCP extractor as a state machine on values: what feed, tick and flush do
 to the map of tracked flows, the ring of blocked keys, the held packets and the decided buffer.

 The reassembler is an arbitrary list of callbacks for each packet fed, time is a parameter, the order in
 which the hash map is walked is a parameter, and so is the policy. `log` records what happened and is
 read by theorems only.
 */
module FlowTable {
  import opened Wire
  import opened Packets
  import Dissector
  import Hostname

  type Key = k: int | 0 <= k < 0x1_0000_0000
  type Policy = Option<Bytes> -> Verdict

  const MAX_HELD := 32
  const MAX_STREAM := Hostname.MAX_STREAM
  // Time in nanoseconds.
  const SECOND := 1_000_000_000
  const WAIT_IDLE := 10 * SECOND
  const BLOCK_IDLE := 60 * SECOND
  const SWEEP_INTERVAL := SECOND
  const CLIENT_SIDE := 0

  datatype Mode = Wait | Block

  /** `token` and `closed` are what the reassembler said of this connection. */
  datatype Conn = Conn(mode: Mode, held: seq<Packet>, stream: Bytes, token: Key, closed: bool, last: int)

  /** A reassembler callback fired while a packet is being fed. */
  datatype Event = Start(token: Key) | Data(side: int, chunk: Bytes, token: Key) | End

  datatype Decided = Decided(pkt: Packet, verdict: Verdict)

  datatype Reason = Displaced | Turned | Idle

  datatype Note =
    | Arrived(id: nat, key: Option<Key>, payload: bool)
    | Given(id: nat, key: Option<Key>, payload: bool, verdict: Verdict)
    | Opened(flow: Key)
    | Heard(flow: Key, chunk: Bytes)
    | Asked(flow: Key, host: Option<Bytes>, stream: Bytes, verdict: Verdict)
    | Gone(flow: Key, why: Reason)
    | SlotCleared
    | Cleared

  datatype State = State(
    conns: map<Key, Conn>, ring: seq<Key>, next: nat, toClose: seq<Key>,
    lastSweep: int, dropped: nat, decided: seq<Decided>, log: seq<Note>)

  predicate Ok(s: State) { |s.ring| > 0 && s.next < |s.ring| }

  predicate IsWait(s: State, k: Key) { k in s.conns && s.conns[k].mode == Wait }
  predicate IsBlock(s: State, k: Key) { k in s.conns && s.conns[k].mode == Block }

  function Succ(i: nat, n: nat): (r: nat)
    requires i < n
    ensures r < n
  {
    if i + 1 == n then 0 else i + 1
  }

  lemma SuccIsMod(i: nat, n: nat)
    requires i < n
    ensures (i + 1) % n == Succ(i, n)
  {}

  function Noted(s: State, notes: seq<Note>): State { s.(log := s.log + notes) }

  // ---------------------------------------------------------------- single steps

  /** A packet that is decided on the spot. */
  function Give(s: State, key: Option<Key>, payload: bool, pkt: Packet, v: Verdict): State {
    Noted(s.(decided := s.decided + [Decided(pkt, v)]), [Arrived(pkt.id, key, payload), Given(pkt.id, key, payload, v)])
  }

  function Hold(s: State, k: Key, pkt: Packet): State
    requires k in s.conns
  {
    Noted(s.(conns := s.conns[k := s.conns[k].(held := s.conns[k].held + [pkt])]), [Arrived(pkt.id, Some(k), true)])
  }

  /** The last held packet gives its bytes back; the shell stays. */
  function Release(s: State, k: Key): State
    requires k in s.conns && s.conns[k].held != []
  {
    var h := s.conns[k].held;
    s.(conns := s.conns[k := s.conns[k].(held := h[|h| - 1 := h[|h| - 1].Released()])])
  }

  function Open(s: State, k: Key, now: int): State {
    Noted(s.(conns := s.conns[k := Conn(Wait, [], [], 0, false, now)]), [Opened(k)])
  }

  function Touch(s: State, k: Key, now: int): State
    requires k in s.conns
  {
    s.(conns := s.conns[k := s.conns[k].(last := now)])
  }

  function Learn(s: State, k: Key, token: Key, closed: bool): State
    requires k in s.conns
  {
    s.(conns := s.conns[k := s.conns[k].(token := token, closed := closed)])
  }

  function Hear(s: State, k: Key, chunk: Bytes): State
    requires k in s.conns
  {
    Noted(s.(conns := s.conns[k := s.conns[k].(stream := s.conns[k].stream + chunk)]), [Heard(k, chunk)])
  }

  function Forget(s: State, k: Key, why: Reason): State {
    Noted(s.(conns := s.conns - {k}), [Gone(k, why)])
  }

  /** Take the ring slot for `key`, first dropping the blocked flow it names. */
  function RememberBlocked(s: State, key: Key): (r: State)
    requires Ok(s)
    ensures Ok(r) && |r.ring| == |s.ring|
  {
    var victim := s.ring[s.next];
    var t := if victim != 0 && victim != key && IsBlock(s, victim) then Forget(s, victim, Displaced) else s;
    t.(ring := s.ring[s.next := key], next := Succ(s.next, |s.ring|))
  }

  function Verdicts(held: seq<Packet>, v: Verdict): seq<Decided> { seq(|held|, i requires 0 <= i < |held| => Decided(held[i], v)) }

  function GivenNotes(held: seq<Packet>, k: Key, v: Verdict): seq<Note> {
    seq(|held|, i requires 0 <= i < |held| => Given(held[i].id, Some(k), true, v))
  }

  /** Ask the policy about a waiting flow and act on the answer. */
  function Settle(s: State, policy: Policy, k: Key, host: Option<Bytes>): (r: State)
    requires Ok(s) && k in s.conns
    ensures Ok(r) && |r.ring| == |s.ring|
  {
    var c := s.conns[k];
    var v := policy(host);
    var asked := Noted(s, [Asked(k, host, c.stream, v)]);
    var t :=
      if v == BLOCK then RememberBlocked(asked.(conns := s.conns[k := c.(mode := Block, held := [], stream := [])]), k)
      else asked.(conns := s.conns - {k});
    var u := if c.token != 0 && !c.closed then t.(toClose := t.toClose + [c.token]) else t;
    Noted(u.(decided := u.decided + Verdicts(c.held, v)), GivenNotes(c.held, k, v))
  }

  /** resolve: nothing to do for a flow that is gone or already decided. */
  function Resolve(s: State, policy: Policy, k: Key, host: Option<Bytes>): (r: State)
    requires Ok(s)
    ensures Ok(r) && |r.ring| == |s.ring|
  {
    if IsWait(s, k) then Settle(s, policy, k, host) else s
  }

  /** One turn of the eviction loop: clear the slot, drop the blocked flow it names. */
  function TurnSlot(s: State): (r: State)
    requires Ok(s)
    ensures Ok(r) && |r.ring| == |s.ring|
  {
    var victim := s.ring[s.next];
    var t := Noted(s.(ring := s.ring[s.next := 0], next := Succ(s.next, |s.ring|)), [SlotCleared]);
    if victim != 0 && IsBlock(s, victim) then Forget(t, victim, Turned) else t
  }

  /** Whether the slot about to be cleared names a blocked flow. */
  predicate VictimAtNext(s: State)
    requires Ok(s)
  {
    s.ring[s.next] != 0 && IsBlock(s, s.ring[s.next])
  }

  // ---------------------------------------------------------------- evict, sweep, tick, flush

  function Evict(s: State, tries: nat): (r: State)
    requires Ok(s)
    ensures Ok(r) && |r.ring| == |s.ring|
    decreases tries
  {
    if tries == 0 then s
    else if VictimAtNext(s) then TurnSlot(s)
    else Evict(TurnSlot(s), tries - 1)
  }

  /** The map's iteration order: every key once. */
  ghost predicate IsOrder(order: seq<Key>, conns: map<Key, Conn>) {
    && (forall i, j :: 0 <= i < j < |order| ==> order[i] != order[j])
    && (forall k :: k in conns <==> k in order)
  }

  predicate IsIdle(c: Conn, now: int) { now - c.last >= if c.mode == Block then BLOCK_IDLE else WAIT_IDLE }

  function Expired(conns: map<Key, Conn>, now: int, order: seq<Key>): seq<Key> {
    if order == [] then []
    else (if order[0] in conns && IsIdle(conns[order[0]], now) then [order[0]] else []) + Expired(conns, now, order[1..])
  }

  lemma ExpiredFrom(conns: map<Key, Conn>, now: int, order: seq<Key>, i: nat, before: seq<Key>)
    requires i < |order|
    ensures before + Expired(conns, now, order[i..]) ==
      (if order[i] in conns && IsIdle(conns[order[i]], now) then before + [order[i]] else before) + Expired(conns, now, order[i + 1..])
  {
    assert order[i..][0] == order[i] && order[i..][1..] == order[i + 1..];
    var x := if order[i] in conns && IsIdle(conns[order[i]], now) then [order[i]] else [];
    var y := Expired(conns, now, order[i + 1..]);
    hide Expired;
    assert before + (x + y) == (before + x) + y && before + [] == before;
  }

  function Waiting(conns: map<Key, Conn>, order: seq<Key>): seq<Key> {
    if order == [] then []
    else (if order[0] in conns && conns[order[0]].mode == Wait then [order[0]] else []) + Waiting(conns, order[1..])
  }

  function Expire(s: State, policy: Policy, k: Key): (r: State)
    requires Ok(s)
    ensures Ok(r) && |r.ring| == |s.ring|
  {
    if IsBlock(s, k) then Forget(s, k, Idle) else Resolve(s, policy, k, None)
  }

  function ExpireAll(s: State, policy: Policy, keys: seq<Key>): (r: State)
    requires Ok(s)
    ensures Ok(r) && |r.ring| == |s.ring|
    decreases |keys|
  {
    if keys == [] then s else ExpireAll(Expire(s, policy, keys[0]), policy, keys[1..])
  }

  function Sweep(s: State, policy: Policy, now: int, order: seq<Key>): (r: State)
    requires Ok(s)
    ensures Ok(r) && |r.ring| == |s.ring|
  {
    ExpireAll(s, policy, Expired(s.conns, now, order)).(toClose := [])
  }

  function Tick(s: State, policy: Policy, now: int, order: seq<Key>): (r: State)
    requires Ok(s)
    ensures Ok(r) && |r.ring| == |s.ring|
  {
    if now - s.lastSweep < SWEEP_INTERVAL then s else Sweep(s.(lastSweep := now), policy, now, order)
  }

  function ResolveAll(s: State, policy: Policy, keys: seq<Key>): (r: State)
    requires Ok(s)
    ensures Ok(r) && |r.ring| == |s.ring|
    decreases |keys|
  {
    if keys == [] then s else ResolveAll(Resolve(s, policy, keys[0], None), policy, keys[1..])
  }

  function Clear(s: State): State { Noted(s.(conns := map[]), [Cleared]) }

  function Flush(s: State, policy: Policy, order: seq<Key>): (r: State)
    requires Ok(s)
    ensures Ok(r) && |r.ring| == |s.ring|
  {
    Clear(ResolveAll(s, policy, Waiting(s.conns, order))).(toClose := [])
  }

  // ---------------------------------------------------------------- the reassembler's callbacks

  function Answer(stream: Bytes): Option<Bytes> {
    match Hostname.Extract(stream) case Found(h) => Some(h) case _ => None
  }

  /** onConnectionStart, onMessageReady, onConnectionEnd while a packet of flow `k` is being fed. */
  function OnEvent(s: State, policy: Policy, k: Key, e: Event): (r: State)
    requires Ok(s)
    ensures Ok(r) && |r.ring| == |s.ring|
  {
    match e
    case Start(token) => if k in s.conns then Learn(s, k, token, s.conns[k].closed) else s
    case Data(side, chunk, token) =>
      if side != CLIENT_SIDE || !IsWait(s, k) then s
      else
        var t := Hear(Learn(s, k, token, s.conns[k].closed), k, chunk);
        var stream := t.conns[k].stream;
        (match Hostname.Extract(stream)
         case Found(h) => Resolve(t, policy, k, Some(h))
         case NotFound => Resolve(t, policy, k, None)
         case NeedMore => if |stream| > MAX_STREAM then Resolve(t, policy, k, None) else t)
    case End => if k in s.conns then Resolve(Learn(s, k, s.conns[k].token, true), policy, k, None) else s
  }

  function OnEvents(s: State, policy: Policy, k: Key, events: seq<Event>): (r: State)
    requires Ok(s)
    ensures Ok(r) && |r.ring| == |s.ring|
    decreases |events|
  {
    if events == [] then s else OnEvents(OnEvent(s, policy, k, events[0]), policy, k, events[1..])
  }

  // ---------------------------------------------------------------- feed

  predicate HasFlag(flags: Byte, bit: nat)
    requires bit > 0
  {
    flags as int / bit % 2 == 1
  }

  const FIN := 0x01
  const SYN := 0x02
  const RST := 0x04
  const ACK := 0x10

  predicate IsClientSyn(f: Dissector.FlowView) { HasFlag(f.tcpFlags, SYN) && !HasFlag(f.tcpFlags, ACK) }

  predicate OpensTls(d: Bytes, f: Dissector.FlowView)
    requires f.at + f.payloadLen <= |d|
  {
    f.payloadLen >= 2 && d[f.at] == 0x16 && d[f.at + 1] == 0x03
  }

  predicate ChangesState(f: Dissector.FlowView) {
    HasFlag(f.tcpFlags, SYN) || HasFlag(f.tcpFlags, FIN) || HasFlag(f.tcpFlags, RST)
  }

  /** The TCP flow a packet belongs to, if it can be dissected. */
  function TcpView(pkt: Packet): (r: Option<Dissector.FlowView>)
    ensures r.Some? ==> r.value.key < 0x1_0000_0000
    ensures r.Some? ==> r.value.at + r.value.payloadLen <= |pkt.Data()|
  {
    if !pkt.HasBytes() then None
    else
      var f := Dissector.FlowOf(pkt.Data());
      if f.Some? && f.value.ipProto == Dissector.TCP then f else None
  }

  function KeyOf(f: Dissector.FlowView): Key
    requires f.key < 0x1_0000_0000
  {
    f.key
  }

  /** Whether a packet starts the tracking of a flow nothing is known about. */
  predicate Opens(pkt: Packet) {
    var view := TcpView(pkt);
    view.Some? && (IsClientSyn(view.value) || OpensTls(pkt.Data(), view.value))
  }

  /** A packet of a waiting flow: hold it if it carries payload, let the reassembler see it. */
  function Track(s: State, policy: Policy, k: Key, f: Dissector.FlowView, pkt: Packet, events: seq<Event>): (r: State)
    requires Ok(s) && k in s.conns
    ensures Ok(r) && |r.ring| == |s.ring|
  {
    var payload := f.payloadLen > 0;
    if |s.conns[k].held| >= MAX_HELD then Give(Resolve(s, policy, k, None), Some(k), payload, pkt, ALLOW)
    else if !payload && !ChangesState(f) then Give(s, Some(k), payload, pkt, ALLOW)
    else if payload then
      var t := OnEvents(Hold(s, k, pkt), policy, k, events).(toClose := []);
      if k in t.conns && t.conns[k].held != [] then Release(t, k) else t
    else Give(OnEvents(s, policy, k, events).(toClose := []), Some(k), payload, pkt, ALLOW)
  }

  function MakeRoom(s: State, maxFlows: nat): (r: State)
    requires Ok(s)
    ensures Ok(r) && |r.ring| == |s.ring|
  {
    if |s.conns| >= maxFlows then Evict(s, |s.ring|) else s
  }

  /** feed, after the tick it starts with. */
  function Place(s: State, maxFlows: nat, policy: Policy, pkt: Packet, now: int, events: seq<Event>): (r: State)
    requires Ok(s)
    ensures Ok(r) && |r.ring| == |s.ring|
  {
    match TcpView(pkt)
    case None => Give(s, None, false, pkt, ALLOW)
    case Some(f) =>
      var k := KeyOf(f);
      var payload := f.payloadLen > 0;
      if IsBlock(s, k) then Give(Touch(s, k, now), Some(k), payload, pkt, BLOCK)
      else if k in s.conns then Track(Touch(s, k, now), policy, k, f, pkt, events)
      else if !Opens(pkt) then Give(s, Some(k), payload, pkt, ALLOW)
      else
        var t := MakeRoom(s, maxFlows);
        if |t.conns| >= maxFlows then Give(t.(dropped := t.dropped + 1), Some(k), payload, pkt, ALLOW)
        else Track(Open(t, k, now), policy, k, f, pkt, events)
  }

  function Feed(s: State, maxFlows: nat, policy: Policy, pkt: Packet, now: int, order: seq<Key>, events: seq<Event>): (r: State)
    requires Ok(s)
    ensures Ok(r) && |r.ring| == |s.ring|
  {
    Place(Tick(s, policy, now, order), maxFlows, policy, pkt, now, events)
  }

  // ---------------------------------------------------------------- construction and runs

  function FlowCap(maxFlows: nat): nat { if maxFlows == 0 then 1 else maxFlows }

  /** The blocked share: as configured, else a quarter, at least one and never above the flow cap. */
  function BlockCap(maxFlows: nat, maxBlocked: nat): nat {
    var cap := FlowCap(maxFlows);
    var share := if maxBlocked != 0 then maxBlocked else if cap / 4 > 1 then cap / 4 else 1;
    Min(share, cap)
  }

  function Init(maxFlows: nat, maxBlocked: nat): (s: State)
    ensures Ok(s)
  {
    State(map[], seq(BlockCap(maxFlows, maxBlocked), _ => 0), 0, [], 0, 0, [], [])
  }

  datatype Op =
    | OpFeed(pkt: Packet, now: int, order: seq<Key>, events: seq<Event>)
    | OpTick(now: int, order: seq<Key>)
    | OpFlush(order: seq<Key>)
    | OpDrain

  function Step(s: State, maxFlows: nat, policy: Policy, op: Op): (r: State)
    requires Ok(s)
    ensures Ok(r) && |r.ring| == |s.ring|
  {
    match op
    case OpFeed(pkt, now, order, events) => Feed(s, maxFlows, policy, pkt, now, order, events)
    case OpTick(now, order) => Tick(s, policy, now, order)
    case OpFlush(order) => Flush(s, policy, order)
    case OpDrain => s.(decided := [])
  }

  /** What the caller owes: a fed packet is one still owing a verdict; `order` walks the map as it is. */
  ghost predicate OpOk(s: State, op: Op) {
    match op
    case OpFeed(pkt, _, order, _) => pkt.pending && IsOrder(order, s.conns)
    case OpTick(_, order) => IsOrder(order, s.conns)
    case OpFlush(order) => IsOrder(order, s.conns)
    case OpDrain => true
  }

  function Run(s: State, maxFlows: nat, policy: Policy, ops: seq<Op>): (r: State)
    requires Ok(s)
    ensures Ok(r) && |r.ring| == |s.ring|
    decreases |ops|
  {
    if ops == [] then s else Run(Step(s, maxFlows, policy, ops[0]), maxFlows, policy, ops[1..])
  }

  ghost predicate RunOk(s: State, maxFlows: nat, policy: Policy, ops: seq<Op>)
    requires Ok(s)
    decreases |ops|
  {
    ops == [] || (OpOk(s, ops[0]) && RunOk(Step(s, maxFlows, policy, ops[0]), maxFlows, policy, ops[1..]))
  }
}
