/**
 The extractor's promises in one place: what holds after every run from a freshly constructed extractor,
 for every configuration, policy, packet, reassembler behaviour and walk order of the table.
 */
module Guarantees {
  import opened Wire
  import opened Packets
  import opened FlowTable
  import opened FlowActions
  import opened History
  import opened Conservation
  import opened RingTheorems
  import opened Provenance
  import opened Timeouts
  import opened Arrivals
  import opened Runs
  import opened BlockMemory
  import opened EndToEnd
  import opened Deliveries
  import opened Decisions
  import opened LastSeen
  import Hostname
  import RT = RecordTheorems
  import Grammar = ClientHelloGrammar

  function Outcome(maxFlows: nat, maxBlocked: nat, policy: Policy, ops: seq<Op>): (s: State)
    ensures Ok(s) && |s.ring| == BlockCap(maxFlows, maxBlocked)
  {
    Run(Init(maxFlows, maxBlocked), FlowCap(maxFlows), policy, ops)
  }

  ghost predicate Possible(maxFlows: nat, maxBlocked: nat, policy: Policy, ops: seq<Op>) {
    RunOk(Init(maxFlows, maxBlocked), FlowCap(maxFlows), policy, ops)
  }

  /** Everything that comes out of a run: what its drains took, then what is still in the buffer. */
  function Output(maxFlows: nat, maxBlocked: nat, policy: Policy, ops: seq<Op>): seq<(nat, Verdict)> {
    Answers(Init(maxFlows, maxBlocked), FlowCap(maxFlows), policy, ops)
  }

  /**
   Of all packets fed, each is in the output or held, exactly as often as it was fed. The payload packets of
   a flow leave in the order they were fed, those still held being the latest.
   */
  lemma EveryPacket(maxFlows: nat, maxBlocked: nat, policy: Policy, ops: seq<Op>)
    requires Possible(maxFlows, maxBlocked, policy, ops)
    ensures var s := Outcome(maxFlows, maxBlocked, policy, ops); var out := AnsweredIds(Output(maxFlows, maxBlocked, policy, ops));
            && multiset(FedIds(ops)) == multiset(out) + HeldIds(s.conns)
            && forall k :: FedTo(ops, k) == Collect(s.log, AnsweredOf(k)) + Ids(HeldOf(s, k)) && Within(Collect(s.log, AnsweredOf(k)), out)
  {
    hide *;
    var s := Outcome(maxFlows, maxBlocked, policy, ops);
    Start(maxFlows, maxBlocked, policy, ops);
    RunAccounted(Init(maxFlows, maxBlocked), FlowCap(maxFlows), policy, ops);
    OutputIsLogged(maxFlows, maxBlocked, policy, ops);
    FromNothing(FedIds(ops));
    forall k
      ensures FedTo(ops, k) == Collect(s.log, AnsweredOf(k)) + Ids(HeldOf(s, k))
      ensures Within(Collect(s.log, AnsweredOf(k)), Collect(s.log, GivenId))
    {
      NothingYet(maxFlows, maxBlocked, FedOf(k));
      FromNothing(FedTo(ops, k));
      FlowWithin(s.log, k);
    }
  }

  lemma Start(maxFlows: nat, maxBlocked: nat, policy: Policy, ops: seq<Op>)
    ensures var s0 := Init(maxFlows, maxBlocked);
            && Ok(s0) && Quiet(s0, None) && Accounted(s0) && WithinCaps(s0, FlowCap(maxFlows))
            && Outcome(maxFlows, maxBlocked, policy, ops) == Run(s0, FlowCap(maxFlows), policy, ops)
            && Output(maxFlows, maxBlocked, policy, ops) == Answers(s0, FlowCap(maxFlows), policy, ops)
            && (Possible(maxFlows, maxBlocked, policy, ops) <==> RunOk(s0, FlowCap(maxFlows), policy, ops))
            && [] + Summary(s0.decided) == Collect(s0.log, Answered) == []
            && Collect(s0.log, ArrivedId) == []
  {
    InitAccounted(maxFlows, maxBlocked);
    InitWithinCaps(maxFlows, maxBlocked);
    hide Run, Answers, RunOk, Accounted, Quiet, WithinCaps, BlockCap;
  }

  lemma NothingYet<T>(maxFlows: nat, maxBlocked: nat, f: Note -> Option<T>)
    ensures Collect(Init(maxFlows, maxBlocked).log, f) == []
  {}

  lemma FromNothing<T>(x: seq<T>)
    ensures [] + x == x
  {}

  /** What comes out is what the log says was answered. */
  lemma OutputIsLogged(maxFlows: nat, maxBlocked: nat, policy: Policy, ops: seq<Op>)
    requires Possible(maxFlows, maxBlocked, policy, ops)
    ensures var s := Outcome(maxFlows, maxBlocked, policy, ops);
            && Output(maxFlows, maxBlocked, policy, ops) == Collect(s.log, Answered)
            && AnsweredIds(Output(maxFlows, maxBlocked, policy, ops)) == Collect(s.log, GivenId)
  {
    hide *;
    Start(maxFlows, maxBlocked, policy, ops);
    RunTells(Init(maxFlows, maxBlocked), FlowCap(maxFlows), policy, ops, []);
    FromNothing(Output(maxFlows, maxBlocked, policy, ops));
    AnsweredGiven(Outcome(maxFlows, maxBlocked, policy, ops).log);
  }

  /** A run that ends in a flush leaves nothing tracked: everything fed is in the output, each flow's packets in order. */
  lemma EveryFlush(maxFlows: nat, maxBlocked: nat, policy: Policy, ops: seq<Op>, order: seq<Key>)
    requires Possible(maxFlows, maxBlocked, policy, ops + [OpFlush(order)])
    ensures var all := ops + [OpFlush(order)]; var out := AnsweredIds(Output(maxFlows, maxBlocked, policy, all));
            && Outcome(maxFlows, maxBlocked, policy, all).conns == map[]
            && multiset(out) == multiset(FedIds(ops))
            && forall k :: Within(FedTo(ops, k), out)
  {
    hide *;
    var all := ops + [OpFlush(order)];
    var s := Outcome(maxFlows, maxBlocked, policy, all);
    Start(maxFlows, maxBlocked, policy, all);
    FlushAnswersAll(Init(maxFlows, maxBlocked), FlowCap(maxFlows), policy, ops, order);
    OutputIsLogged(maxFlows, maxBlocked, policy, all);
    FromNothing(FedIds(ops));
    forall k ensures Within(FedTo(ops, k), Collect(s.log, GivenId)) {
      NothingYet(maxFlows, maxBlocked, FedOf(k));
      FromNothing(FedTo(ops, k));
      FlowWithin(s.log, k);
    }
  }

  /** The shape of every entry, and the caps: tracked flows, blocked flows, and key 0 counted apart. */
  lemma EveryRun(maxFlows: nat, maxBlocked: nat, policy: Policy, ops: seq<Op>)
    requires Possible(maxFlows, maxBlocked, policy, ops)
    ensures var s := Outcome(maxFlows, maxBlocked, policy, ops);
            && (forall k :: k in s.conns ==> Calm(s.conns[k], false))
            && |s.conns| <= FlowCap(maxFlows)
            && |BlockedKeys(s) - {0}| <= BlockCap(maxFlows, maxBlocked)
            && |BlockedKeys(s)| <= BlockCap(maxFlows, maxBlocked) + 1
  {
    var s0 := Init(maxFlows, maxBlocked);
    var s := Outcome(maxFlows, maxBlocked, policy, ops);
    InitAccounted(maxFlows, maxBlocked);
    InitWithinCaps(maxFlows, maxBlocked);
    RunQuiet(s0, FlowCap(maxFlows), policy, ops);
    RunWithinCaps(s0, FlowCap(maxFlows), policy, ops);
    BlockedBound(s);
    hide Run, BlockedKeys, Calm;
  }

  /**
   After any run, the next feed turns its packet away, and starts a flow, exactly when it should: a packet
   that would open a flow is refused if and only if every tracked flow, key 0 aside, still waits.
   */
  lemma EveryFeed(maxFlows: nat, maxBlocked: nat, policy: Policy, ops: seq<Op>, pkt: Packet, now: int, order: seq<Key>, events: seq<Event>)
    requires Possible(maxFlows, maxBlocked, policy, ops + [OpFeed(pkt, now, order, events)])
    ensures var s := Outcome(maxFlows, maxBlocked, policy, ops);
            var t := Outcome(maxFlows, maxBlocked, policy, ops + [OpFeed(pkt, now, order, events)]);
            var s' := Tick(s, policy, now, order);
            && t.dropped == s.dropped + (if WantsIn(s', pkt) && FullOfWaiting(s', FlowCap(maxFlows)) then 1 else 0)
            && Collect(t.log, OpenedKey) == Collect(s.log, OpenedKey) +
                 (if StartsFlow(pkt) && KeyOf(TcpView(pkt).value) !in s'.conns && !FullOfWaiting(s', FlowCap(maxFlows))
                  then [KeyOf(TcpView(pkt).value)] else [])
  {
    hide *;
    var s0, cap := Init(maxFlows, maxBlocked), FlowCap(maxFlows);
    var s := Outcome(maxFlows, maxBlocked, policy, ops);
    var op := OpFeed(pkt, now, order, events);
    Start(maxFlows, maxBlocked, policy, ops);
    Start(maxFlows, maxBlocked, policy, ops + [op]);
    RunThen(s0, cap, policy, ops, op);
    RunThen(s0, cap, policy, ops, OpTick(now, order));
    TickFirst(s, cap, policy, pkt, now, order, events);
    RunWithinCaps(s0, cap, policy, ops + [OpTick(now, order)]);
    DroppedIff(s, cap, policy, pkt, now, order, events);
    OpenedIff(s, cap, policy, pkt, now, order, events);
  }

  lemma TickFirst(s: State, maxFlows: nat, policy: Policy, pkt: Packet, now: int, order: seq<Key>, events: seq<Event>)
    requires Ok(s)
    ensures Step(s, maxFlows, policy, OpTick(now, order)) == Tick(s, policy, now, order)
    ensures Step(s, maxFlows, policy, OpFeed(pkt, now, order, events)) == Feed(s, maxFlows, policy, pkt, now, order, events)
    ensures OpOk(s, OpFeed(pkt, now, order, events)) ==> OpOk(s, OpTick(now, order))
  {}

  /** With a policy that lets a missing hostname through, every run writes only a legal log. */
  lemma EveryRunIsLegal(maxFlows: nat, maxBlocked: nat, policy: Policy, ops: seq<Op>)
    requires Possible(maxFlows, maxBlocked, policy, ops) && policy(None) == ALLOW
    ensures Legal(policy, Outcome(maxFlows, maxBlocked, policy, ops).log)
  {
    InitAccounted(maxFlows, maxBlocked);
    InitAgrees(maxFlows, maxBlocked, policy);
    RunAgrees(Init(maxFlows, maxBlocked), FlowCap(maxFlows), policy, ops);
  }

  /** From construction on, every tracked flow was last seen when its latest packet was fed. */
  lemma EveryLastSeen(maxFlows: nat, maxBlocked: nat, policy: Policy, ops: seq<Op>, k: Key)
    requires k in Outcome(maxFlows, maxBlocked, policy, ops).conns
    ensures LastFed(ops, k) == Some(Outcome(maxFlows, maxBlocked, policy, ops).conns[k].last)
  {
    RunSees(Init(maxFlows, maxBlocked), FlowCap(maxFlows), policy, ops, k);
    hide Run;
  }

  /**
   From construction on, a tick a second or more after the last sweep drops exactly the waiting flows whose latest
   packet was fed 10 s ago or earlier and the blocked ones whose latest packet was fed 60 s ago or earlier.
   */
  lemma EveryTickDrops(maxFlows: nat, maxBlocked: nat, policy: Policy, ops: seq<Op>, now: int, order: seq<Key>)
    requires policy(None) == ALLOW && IsOrder(order, Outcome(maxFlows, maxBlocked, policy, ops).conns)
    requires now - Outcome(maxFlows, maxBlocked, policy, ops).lastSweep >= 1_000_000_000
    ensures var s := Outcome(maxFlows, maxBlocked, policy, ops); var t := Tick(s, policy, now, order);
            forall k :: k in s.conns ==>
              && LastFed(ops, k).Some?
              && (k in t.conns <==>
                    now - LastFed(ops, k).value < if s.conns[k].mode == Wait then 10_000_000_000 else 60_000_000_000)
  {
    var s := Outcome(maxFlows, maxBlocked, policy, ops);
    TickExactly(s, policy, now, order);
    hide Run, Tick, Outcome;
    forall k | k in s.conns ensures LastFed(ops, k) == Some(s.conns[k].last) { EveryLastSeen(maxFlows, maxBlocked, policy, ops, k); }
  }

  /** On a clock that does not run backwards, a tick leaves no waiting flow 11 s and no blocked flow 61 s idle. */
  lemma EveryTick(maxFlows: nat, maxBlocked: nat, policy: Policy, ops: seq<Op>, now: int, order: seq<Key>)
    requires Possible(maxFlows, maxBlocked, policy, ops) && policy(None) == ALLOW
    requires Monotone(0, ops) && ClockAfter(0, ops) <= now
    requires IsOrder(order, Outcome(maxFlows, maxBlocked, policy, ops).conns)
    ensures var t := Tick(Outcome(maxFlows, maxBlocked, policy, ops), policy, now, order);
            forall k :: k in t.conns ==> now - t.conns[k].last < if t.conns[k].mode == Wait then 11_000_000_000 else 61_000_000_000
  {
    InitAccounted(maxFlows, maxBlocked);
    InitTimely(maxFlows, maxBlocked, 0);
    RunTimely(Init(maxFlows, maxBlocked), FlowCap(maxFlows), policy, 0, ops);
    TickBoundsIdle(Outcome(maxFlows, maxBlocked, policy, ops), policy, ClockAfter(0, ops), now, order);
  }

  /**
   In every run, a blocked flow (key 0 aside) has a number of registrations left to it, below the blocked cap:
   barring cap eviction, flush and its own idle expiry it is displaced exactly when more than those follow.
   */
  lemma EveryBlock(maxFlows: nat, maxBlocked: nat, policy: Policy, ops: seq<Op>, more: seq<Op>, k: Key) returns (left: nat)
    requires Possible(maxFlows, maxBlocked, policy, ops + more)
    requires IsBlock(Outcome(maxFlows, maxBlocked, policy, ops), k) && k != 0
    requires Undisturbed(Outcome(maxFlows, maxBlocked, policy, ops + more).log, |Outcome(maxFlows, maxBlocked, policy, ops).log|, k)
    ensures left < BlockCap(maxFlows, maxBlocked)
    ensures var s := Outcome(maxFlows, maxBlocked, policy, ops); var t := Outcome(maxFlows, maxBlocked, policy, ops + more);
            && Remembered(s, k, left) && s.log <= t.log
            && (Gone(k, Displaced) in t.log[|s.log|..] <==> BlocksIn(t.log[|s.log|..]) > left)
            && (BlocksIn(t.log[|s.log|..]) <= left ==> IsBlock(t, k))
  {
    var s0, cap := Init(maxFlows, maxBlocked), FlowCap(maxFlows);
    var s := Outcome(maxFlows, maxBlocked, policy, ops);
    hide Undisturbed, BlocksIn, Run, RunOk, Quiet, IsBlock;
    InitAccounted(maxFlows, maxBlocked);
    InitWithinCaps(maxFlows, maxBlocked);
    RunConcat(s0, cap, policy, ops, more);
    RunQuiet(s0, cap, policy, ops);
    RunWithinCaps(s0, cap, policy, ops);
    BlockedIsNamed(s, k);
    left := BlockedIsRemembered(s, k);
    BlockIsRemembered(s, cap, policy, more, k, left);
  }

  /**
   From construction on, a packet that opens a flow, and anything after it: once a whole framed ClientHello
   for `h` has been delivered to the flow, it has been put to the policy on the first few chunks delivered, as
   `h` if the hello is among them and else as nameless. It is as `h` unless the flow was cut short (a flush, an
   idle sweep, the end of the connection, a 33rd packet) or a chunk ends past the limit and inside the hello.
   */
  lemma EveryHello(
      maxFlows: nat, maxBlocked: nat, policy: Policy, before: seq<Op>,
      pkt: Packet, now: int, order: seq<Key>, events: seq<Event>, after: seq<Op>,
      rs: seq<RT.Record>, a: Grammar.Anatomy, h: Bytes) returns (at: nat, n: nat)
    requires Possible(maxFlows, maxBlocked, policy, before + [OpFeed(pkt, now, order, events)] + after)
    requires var s' := Tick(Outcome(maxFlows, maxBlocked, policy, before), policy, now, order);
             StartsFlow(pkt) && KeyOf(TcpView(pkt).value) !in s'.conns && !FullOfWaiting(s', FlowCap(maxFlows))
    requires Hostname.Frames(rs, a, h)
    requires RT.Frame(rs) <= Hostname.Concat(Delivered([OpFeed(pkt, now, order, events)] + after, KeyOf(TcpView(pkt).value)))
    ensures var op := OpFeed(pkt, now, order, events);
            var k := KeyOf(TcpView(pkt).value);
            var s := Outcome(maxFlows, maxBlocked, policy, before);
            var t := Outcome(maxFlows, maxBlocked, policy, before + [op]);
            var u := Outcome(maxFlows, maxBlocked, policy, before + [op] + after);
            var chunks := Delivered([op] + after, k);
            && |s.log| <= at < |u.log| && u.log[at] == Opened(k) && n <= |chunks|
            && var heard := Hostname.Concat(chunks[..n]);
            && var host := if RT.Frame(rs) <= heard then Some(h) else None;
            && Asked(k, host, heard, policy(host)) in u.log[at + 1..]
            && var cut := Ended(pkt, events) || CutShort(t, FlowCap(maxFlows), policy, after, k);
            && (!cut && !Hostname.CutTooLate([], chunks, |RT.Frame(rs)|) ==> host == Some(h))
  {
    assert TcpView(pkt).Some?;
    hide *;
    var op := OpFeed(pkt, now, order, events);
    var k := KeyOf(TcpView(pkt).value);
    var s0, cap := Init(maxFlows, maxBlocked), FlowCap(maxFlows);
    var s := Outcome(maxFlows, maxBlocked, policy, before);
    Start(maxFlows, maxBlocked, policy, before);
    Start(maxFlows, maxBlocked, policy, before + [op]);
    Start(maxFlows, maxBlocked, policy, before + [op] + after);
    RunConcat(s0, cap, policy, before + [op], after);
    RunThen(s0, cap, policy, before, op);
    TickFirst(s, cap, policy, pkt, now, order, events);
    RunThen(s0, cap, policy, before, OpTick(now, order));
    RunWithinCaps(s0, cap, policy, before + [OpTick(now, order)]);
    RunQuiet(s0, cap, policy, before + [op]);
    RunQuiet(s0, cap, policy, before + [op] + after);
    RoomIff(Tick(s, policy, now, order), cap);
    StartsIsOpens(pkt);
    WantsItIn(Tick(s, policy, now, order), pkt);
    at, n := HelloAfterOpening(s, cap, policy, pkt, now, order, events, after, rs, a, h);
  }

  lemma WantsItIn(s: State, pkt: Packet)
    requires Opens(pkt) && TcpView(pkt).Some? && KeyOf(TcpView(pkt).value) !in s.conns
    ensures WantsIn(s, pkt)
  {}

  /**
   From construction on, operation `i` opens flow `k` and operation `j - 1` completes a framed ClientHello for
   `h`, the flow not being cut short and no chunk ending past the limit and inside the hello. Then every payload
   packet of the flow fed by them is in the output with the policy's verdict on `h`, together and in order.
   */
  lemma EveryVerdict(
      maxFlows: nat, maxBlocked: nat, policy: Policy, ops: seq<Op>, i: nat, j: nat, k: Key,
      rs: seq<RT.Record>, a: Grammar.Anatomy, h: Bytes)
    requires Possible(maxFlows, maxBlocked, policy, ops) && i < j <= |ops| && ops[i].OpFeed?
    requires var s' := Tick(Outcome(maxFlows, maxBlocked, policy, ops[..i]), policy, ops[i].now, ops[i].order);
             && StartsFlow(ops[i].pkt) && k == KeyOf(TcpView(ops[i].pkt).value)
             && k !in s'.conns && !FullOfWaiting(s', FlowCap(maxFlows))
    requires !Ended(ops[i].pkt, ops[i].events)
    requires !CutShort(Outcome(maxFlows, maxBlocked, policy, ops[..i + 1]), FlowCap(maxFlows), policy, ops[i + 1..j], k)
    requires Hostname.Frames(rs, a, h) && RT.Frame(rs) <= Hostname.Concat(Delivered(ops[i..j], k))
    requires !(RT.Frame(rs) <= Hostname.Concat(Delivered(ops[i..j - 1], k)))
    requires !Hostname.CutTooLate([], Delivered(ops[i..j], k), |RT.Frame(rs)|)
    ensures Stands(Output(maxFlows, maxBlocked, policy, ops), Tagged(FedTo(ops[i..j], k), policy(Some(h))))
  {
    assert TcpView(ops[i].pkt).Some?;
    hide *;
    var s0, cap := Init(maxFlows, maxBlocked), FlowCap(maxFlows);
    var s, op := Outcome(maxFlows, maxBlocked, policy, ops[..i]), ops[i];
    Start(maxFlows, maxBlocked, policy, ops);
    Start(maxFlows, maxBlocked, policy, ops[..i]);
    Start(maxFlows, maxBlocked, policy, ops[..i + 1]);
    Parts(ops, i, j);
    RunConcat(s0, cap, policy, ops[..i + 1], ops[i + 1..]);
    RunThen(s0, cap, policy, ops[..i], op);
    TickFirst(s, cap, policy, op.pkt, op.now, op.order, op.events);
    RunThen(s0, cap, policy, ops[..i], OpTick(op.now, op.order));
    RunWithinCaps(s0, cap, policy, ops[..i] + [OpTick(op.now, op.order)]);
    var s' := Tick(s, policy, op.now, op.order);
    RoomIff(s', cap);
    StartsIsOpens(op.pkt);
    WantsItIn(s', op.pkt);
    AsHelloAt(s0, cap, policy, ops, i, j, k, rs, a, h);
    HelloAnswered(s0, cap, policy, ops, i, j, k, rs, a, h);
  }

  lemma Parts<T>(ops: seq<T>, i: nat, j: nat)
    requires i < j <= |ops|
    ensures ops == ops[..i + 1] + ops[i + 1..] && ops[..i + 1] == ops[..i] + [ops[i]]
    ensures ops[i..j][0] == ops[i] && ops[i..j][1..] == ops[i + 1..j] && ops[i..j][..|ops[i..j]| - 1] == ops[i..j - 1]
  {}

  lemma AsHelloAt(
      s: State, maxFlows: nat, policy: Policy, ops: seq<Op>, i: nat, j: nat, k: Key,
      rs: seq<RT.Record>, a: Grammar.Anatomy, h: Bytes)
    requires Ok(s) && i < j <= |ops|
    requires var t, op := Run(s, maxFlows, policy, ops[..i]), ops[i];
             && op.OpFeed? && TcpView(op.pkt).Some? && k == KeyOf(TcpView(op.pkt).value)
             && WantsIn(Tick(t, policy, op.now, op.order), op.pkt)
             && |MakeRoom(Tick(t, policy, op.now, op.order), maxFlows).conns| < maxFlows
             && !Ended(op.pkt, op.events)
             && !CutShort(Step(t, maxFlows, policy, op), maxFlows, policy, ops[i + 1..j], k)
    requires Hostname.Frames(rs, a, h) && RT.Frame(rs) <= Hostname.Concat(Delivered(ops[i..j], k))
    requires !(RT.Frame(rs) <= Hostname.Concat(Delivered(ops[i..j - 1], k)))
    requires !Hostname.CutTooLate([], Delivered(ops[i..j], k), |RT.Frame(rs)|)
    ensures HelloAt(s, maxFlows, policy, ops, i, j, k, rs, a, h)
  {
    Parts(ops, i, j);
    hide Tick, MakeRoom, WantsIn, TcpView, Ended, CutShort, Step, Run, Delivered, Hostname.Frames, RT.Frame, Hostname.Concat;
    hide Hostname.CutTooLate;
  }
}
