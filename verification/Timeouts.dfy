/** How long a silent flow can stay in the table: the one-second rate limit added to its idle timeout. */
module Timeouts {
  import opened Wire
  import opened Packets
  import opened FlowTable
  import opened FlowActions
  import opened RingTheorems

  /** At the last sweep nothing that is still here was idle. */
  ghost predicate Timely(s: State, clock: int) {
    s.lastSweep <= clock && forall k :: k in s.conns ==> !IsIdle(s.conns[k], s.lastSweep)
  }

  lemma DoTimely(e: Env, s: State, a: Action)
    requires Ok(s) && Can(e, s, a) && !e.sweeping && Timely(s, e.now)
    ensures Timely(Do(e, s, a), e.now)
  {
    if a.DoSettle? { SettleTimely(s, e.policy, a.k, a.host, e.now); }
    hide Settle, Give, Answer;
  }

  lemma SettleTimely(s: State, policy: Policy, k: Key, host: Option<Bytes>, clock: int)
    requires Ok(s) && IsWait(s, k) && Timely(s, clock)
    ensures Timely(Settle(s, policy, k, host), clock)
  {
    hide Verdicts, GivenNotes;
  }

  lemma {:induction false} PathTimely(e: Env, s: State, acts: seq<Action>, t: State)
    requires Ok(s) && !e.sweeping && Timely(s, e.now) && Path(e, s, acts, t)
    ensures Timely(t, e.now)
    decreases |acts|
  {
    if acts != [] {
      DoTimely(e, s, acts[0]);
      PathTimely(e, Do(e, s, acts[0]), acts[1..], t);
    }
  }

  lemma ExpireRemoves(s: State, policy: Policy, k: Key)
    requires Ok(s) && policy(None) == ALLOW
    ensures Expire(s, policy, k).conns == s.conns - {k}
  {}

  lemma {:induction false} ExpireAllRemoves(s: State, policy: Policy, keys: seq<Key>)
    requires Ok(s) && policy(None) == ALLOW
    ensures ExpireAll(s, policy, keys).conns.Keys == s.conns.Keys - (set k | k in keys)
    ensures forall k :: k in ExpireAll(s, policy, keys).conns ==> ExpireAll(s, policy, keys).conns[k] == s.conns[k]
    decreases |keys|
  {
    if keys != [] {
      ExpireRemoves(s, policy, keys[0]);
      ExpireAllRemoves(Expire(s, policy, keys[0]), policy, keys[1..]);
      assert forall k :: k in keys <==> k == keys[0] || k in keys[1..];
    }
  }

  lemma {:induction false} AllExpired(conns: map<Key, Conn>, now: int, order: seq<Key>, k: Key)
    requires k in order && k in conns && IsIdle(conns[k], now)
    ensures k in Expired(conns, now, order)
  {
    if order[0] != k { AllExpired(conns, now, order[1..], k); }
  }

  /** After any tick a waiting flow has been silent for under 11 s and a blocked one for under 61 s. */
  lemma TickBoundsIdle(s: State, policy: Policy, clock: int, now: int, order: seq<Key>)
    requires Ok(s) && policy(None) == ALLOW && Timely(s, clock) && clock <= now && IsOrder(order, s.conns)
    ensures var t := Tick(s, policy, now, order);
            && Timely(t, now)
            && forall k :: k in t.conns ==> now - t.conns[k].last < if t.conns[k].mode == Wait then 11 * SECOND else 61 * SECOND
  {
    var t := Tick(s, policy, now, order);
    SweptAlready(s, policy, now, order);
    if now - s.lastSweep >= SWEEP_INTERVAL {
      var u := s.(lastSweep := now);
      var keys := Expired(u.conns, now, order);
      ExpireAllRemoves(u, policy, keys);
      ExpireAllKeeps(u, policy, keys);
      forall k | k in t.conns ensures !IsIdle(t.conns[k], now) {
        if IsIdle(t.conns[k], now) { AllExpired(u.conns, now, order, k); }
      }
    }
  }

  // ---------------------------------------------------------------- over whole runs

  function ClockOf(clock: int, op: Op): int {
    match op case OpFeed(_, now, _, _) => now case OpTick(now, _) => now case _ => clock
  }

  /** The clock never runs backwards. */
  predicate Monotone(clock: int, ops: seq<Op>)
    decreases |ops|
  {
    ops == [] || (clock <= ClockOf(clock, ops[0]) && Monotone(ClockOf(clock, ops[0]), ops[1..]))
  }

  function ClockAfter(clock: int, ops: seq<Op>): int
    decreases |ops|
  {
    if ops == [] then clock else ClockAfter(ClockOf(clock, ops[0]), ops[1..])
  }

  lemma FeedTimely(s: State, maxFlows: nat, policy: Policy, clock: int, pkt: Packet, now: int, order: seq<Key>, events: seq<Event>)
    requires Quiet(s, None) && policy(None) == ALLOW && Timely(s, clock) && clock <= now && IsOrder(order, s.conns) && pkt.pending
    ensures Timely(Feed(s, maxFlows, policy, pkt, now, order, events), now)
  {
    var t := Tick(s, policy, now, order);
    TickBoundsIdle(s, policy, clock, now, order);
    TickReaches(Env(maxFlows, policy, now, true), s, order);
    var e := Env(maxFlows, policy, now, false);
    PlaceReaches(e, t, pkt, events);
    var u := Feed(s, maxFlows, policy, pkt, now, order, events);
    var acts :| Path(e, t, acts, u);
    PathTimely(e, t, acts, u);
  }

  lemma StepTimely(s: State, maxFlows: nat, policy: Policy, clock: int, op: Op)
    requires Quiet(s, None) && policy(None) == ALLOW && Timely(s, clock) && OpOk(s, op) && clock <= ClockOf(clock, op)
    ensures Timely(Step(s, maxFlows, policy, op), ClockOf(clock, op))
  {
    match op {
      case OpFeed(pkt, now, order, events) => FeedTimely(s, maxFlows, policy, clock, pkt, now, order, events);
      case OpTick(now, order) => TickBoundsIdle(s, policy, clock, now, order);
      case OpFlush(order) => FlushLastSweep(s, policy, Waiting(s.conns, order));
      case OpDrain =>
    }
  }

  lemma {:induction false} FlushLastSweep(s: State, policy: Policy, keys: seq<Key>)
    requires Ok(s)
    ensures ResolveAll(s, policy, keys).lastSweep == s.lastSweep
    decreases |keys|
  {
    if keys != [] { FlushLastSweep(Resolve(s, policy, keys[0], None), policy, keys[1..]); }
  }

  lemma {:induction false} RunTimely(s: State, maxFlows: nat, policy: Policy, clock: int, ops: seq<Op>)
    requires Quiet(s, None) && policy(None) == ALLOW && Timely(s, clock) && RunOk(s, maxFlows, policy, ops) && Monotone(clock, ops)
    ensures Timely(Run(s, maxFlows, policy, ops), ClockAfter(clock, ops))
    decreases |ops|
  {
    if ops != [] {
      StepReaches(s, maxFlows, policy, ops[0]);
      StepTimely(s, maxFlows, policy, clock, ops[0]);
      RunTimely(Step(s, maxFlows, policy, ops[0]), maxFlows, policy, ClockOf(clock, ops[0]), ops[1..]);
    }
  }

  lemma InitTimely(maxFlows: nat, maxBlocked: nat, clock: int)
    requires 0 <= clock
    ensures Timely(Init(maxFlows, maxBlocked), clock)
  {}
}
