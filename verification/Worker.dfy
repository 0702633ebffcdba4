/**
 The verdict side: one NFQUEUE's counters, and the worker that feeds its extractor, drains what it
 decided and answers the kernel. The kernel takes every verdict and the callback does not throw.
 */
module Worker {
  import opened Wire
  import opened Packets
  import opened FlowTable
  import opened FlowActions
  import opened History
  import opened Conservation
  import opened Arrivals
  import opened Runs
  import opened EndToEnd
  import opened Deliveries
  import opened Decisions
  import Dissector
  import Blocklist
  import Hostname
  import Provenance
  import RT = RecordTheorems
  import Grammar = ClientHelloGrammar
  import E = Extractor

  /** A packet as the queue hands it over: a view over its bytes, or a shell when there are none. */
  function Incoming(id: nat, bytes: Option<Bytes>): Packet {
    if bytes.Some? && |bytes.value| > 0 then Packet(id, |bytes.value|, View(bytes.value), ALLOW, true)
    else Packet(id, 0, Shell, ALLOW, true)
  }

  /** The counters, and the verdicts the kernel has been given, in order. */
  class NFQueue {
    var received: nat
    var verdicted: nat
    var undecided: nat
    var issued: seq<(nat, Verdict)>
    ghost var ids: seq<nat> // of every packet received

    ghost predicate Valid()
      reads this
    {
      received == |ids| && verdicted == |issued|
    }

    constructor ()
      ensures Valid() && ids == [] && issued == [] && undecided == 0
    {
      received, verdicted, undecided, issued, ids := 0, 0, 0, [], [];
    }

    function Outstanding(): int
      reads this
    {
      received - verdicted
    }

    /** Answer for a packet, once: a husk or an answered packet is left alone. */
    method Submit(v: PacketVar, verdict: Verdict)
      requires Valid()
      modifies this`issued, this`verdicted, v
      ensures Valid() && !v.p.pending
      ensures issued == old(issued) + if old(v.p).pending then [(old(v.p).id, verdict)] else []
      ensures v.p == if old(v.p).pending then Packet(old(v.p).id, old(v.p).len, Shell, verdict, false) else old(v.p)
    {
      if !v.p.pending { return; }
      v.SetVerdict(verdict);
      v.ReleaseBytes();
      v.ClearPending();
      issued := issued + [(v.p.id, if verdict == BLOCK then BLOCK else ALLOW)];
      verdicted := verdicted + 1;
    }

    /** The first half of handle: the packet is counted and wrapped, borrowing its bytes if it has any. */
    method Receive(id: nat, bytes: Option<Bytes>) returns (v: PacketVar)
      requires Valid()
      modifies this`received, this`ids
      ensures Valid() && fresh(v) && ids == old(ids) + [id] && v.p == Incoming(id, bytes)
    {
      received := received + 1;
      ids := ids + [id];
      v := new PacketVar(if bytes.Some? && |bytes.value| > 0 then bytes else None, id);
    }

    /** The second half: a packet its callback neither answered nor took is allowed, and counted. */
    method CatchDropped(v: PacketVar)
      requires Valid()
      modifies this`issued, this`verdicted, this`undecided, v
      ensures Valid()
      ensures !old(v.p).pending ==> undecided == old(undecided) && issued == old(issued)
      ensures old(v.p).pending ==> undecided == old(undecided) + 1 && issued == old(issued) + [(old(v.p).id, ALLOW)]
    {
      if v.p.pending {
        undecided := undecided + 1;
        Submit(v, ALLOW);
      }
    }
  }

  /** Block what is on the list; a flow without a hostname is allowed. */
  function PolicyOf(exact: set<Bytes>, wildcard: set<Bytes>): (p: Policy)
    ensures p(None) == ALLOW
    ensures forall h :: p(Some(h)) == BLOCK <==> Blocklist.Listed(exact, wildcard, h)
  {
    assert forall h :: Blocklist.OnList(exact, wildcard, h) <==> Blocklist.Listed(exact, wildcard, h) by {
      forall h ensures Blocklist.OnList(exact, wildcard, h) <==> Blocklist.Listed(exact, wildcard, h) {
        Blocklist.OnListIff(exact, wildcard, h);
      }
    }
    (host: Option<Bytes>) => if host.Some? && Blocklist.OnList(exact, wildcard, host.value) then BLOCK else ALLOW
  }

  datatype Arrival = Arrival(id: nat, bytes: Option<Bytes>, now: int, events: seq<Event>)

  /** What one poll of the queue yields, with the time read after it. */
  datatype Turn = Packets(batch: seq<Arrival>, now: int) | Nothing(now: int) | Stop | Error

  predicate ArrivalOk(a: Arrival) {
    (a.bytes.Some? ==> |a.bytes.value| <= Dissector.MAX_CAPTURE) && E.ChunksFit(a.events)
  }

  // ---------------------------------------------------------------- what the turns come to

  /** An operation without the order in which the hash map happened to be walked. */
  function Erase(op: Op): Op {
    match op
    case OpFeed(pkt, now, _, events) => OpFeed(pkt, now, [], events)
    case OpTick(now, _) => OpTick(now, [])
    case OpFlush(_) => OpFlush([])
    case OpDrain => OpDrain
  }

  function Erased(ops: seq<Op>): seq<Op> { seq(|ops|, i requires 0 <= i < |ops| => Erase(ops[i])) }

  function FeedOf(a: Arrival): Op { OpFeed(Incoming(a.id, a.bytes), a.now, [], a.events) }

  function FeedsOf(batch: seq<Arrival>): seq<Op> { seq(|batch|, i requires 0 <= i < |batch| => FeedOf(batch[i])) }

  function BatchOf(t: Turn): seq<Arrival> { if t.Packets? then t.batch else [] }

  predicate Ends(t: Turn) { t.Stop? || t.Error? }

  /**
   The operations of the turns the worker serves, those before it is told to stop or its queue fails: in each
   the packets in order, then a tick, then a drain.
   */
  function TurnOps(turns: seq<Turn>): seq<Op> {
    if turns == [] || turns[0].Stop? || turns[0].Error? then []
    else FeedsOf(BatchOf(turns[0])) + [OpTick(turns[0].now, []), OpDrain] + TurnOps(turns[1..])
  }

  function BatchIds(batch: seq<Arrival>): seq<nat> { seq(|batch|, i requires 0 <= i < |batch| => batch[i].id) }

  /** The ids of the packets in those turns. */
  function TurnIds(turns: seq<Turn>): seq<nat> {
    if turns == [] || turns[0].Stop? || turns[0].Error? then [] else BatchIds(BatchOf(turns[0])) + TurnIds(turns[1..])
  }

  /** What the first `n` turns come to. */
  ghost predicate After(turns: seq<Turn>, n: nat, ops: seq<Op>, ids: seq<nat>) {
    && n <= |turns| && (forall i :: 0 <= i < n ==> !Ends(turns[i]))
    && ops == TurnOps(turns[..n]) && ids == TurnIds(turns[..n])
  }

  /** The worker comes out of its loop at the first turn that ends it. */
  lemma {:induction false} LoopEnds(turns: seq<Turn>, n: nat, ops: seq<Op>, ids: seq<nat>)
    requires After(turns, n, ops, ids) && (n == |turns| || Ends(turns[n]))
    ensures ops == TurnOps(turns) && ids == TurnIds(turns)
    decreases n
  {
    if n == 0 {
      assert turns[..0] == [];
    } else {
      var rest := turns[1..];
      assert turns[..n][1..] == rest[..n - 1] && forall i :: 0 <= i < n - 1 ==> rest[i] == turns[i + 1];
      LoopEnds(rest, n - 1, TurnOps(rest[..n - 1]), TurnIds(rest[..n - 1]));
    }
  }

  /** One more turn served. */
  lemma {:induction false} TurnsGrow(turns: seq<Turn>, n: nat, ops: seq<Op>, ids: seq<nat>)
    requires After(turns, n, ops, ids) && n < |turns| && !Ends(turns[n])
    ensures After(turns, n + 1, ops + (FeedsOf(BatchOf(turns[n])) + [OpTick(turns[n].now, []), OpDrain]), ids + BatchIds(BatchOf(turns[n])))
    decreases n
  {
    hide FeedsOf, BatchIds, BatchOf;
    var a, b := turns[..n], turns[..n + 1];
    if n == 0 {
      assert b[1..] == [] && a == [];
    } else {
      var rest := turns[1..];
      assert forall i :: 0 <= i < n ==> rest[i] == turns[i + 1];
      assert a[1..] == rest[..n - 1] && b[1..] == rest[..n];
      TurnsGrow(rest, n - 1, TurnOps(rest[..n - 1]), TurnIds(rest[..n - 1]));
      assert rest[n - 1] == turns[n];
      Joined(FeedsOf(BatchOf(a[0])) + [OpTick(a[0].now, []), OpDrain], TurnOps(a[1..]),
             FeedsOf(BatchOf(turns[n])) + [OpTick(turns[n].now, []), OpDrain]);
      Joined(BatchIds(BatchOf(a[0])), TurnIds(a[1..]), BatchIds(BatchOf(turns[n])));
    }
  }

  /** Walk orders aside, what an operation feeds is what it feeds. */
  lemma {:induction false} ErasedFeeds(ops: seq<Op>, k: Key)
    ensures FedTo(Erased(ops), k) == FedTo(ops, k) && Delivered(Erased(ops), k) == Delivered(ops, k)
    ensures FedIds(Erased(ops)) == FedIds(ops)
    decreases |ops|
  {
    if ops != [] {
      ErasedFeeds(ops[1..], k);
      assert Erased(ops)[1..] == Erased(ops[1..]) && Erased(ops)[0] == Erase(ops[0]);
      hide PayloadOf, Reaches, Chunks;
    }
  }

  /** What a turn is: its packets with their ids and bytes, the tick, the drain; nothing of a turn that ends the loop. */
  lemma TurnIs(t: Turn)
    ensures t.Stop? || t.Error? ==> TurnOps([t]) == [] && TurnIds([t]) == []
    ensures t.Nothing? ==> TurnOps([t]) == [OpTick(t.now, []), OpDrain] && TurnIds([t]) == []
    ensures t.Packets? ==>
      && |TurnOps([t])| == |t.batch| + 2 && |TurnIds([t])| == |t.batch|
      && TurnOps([t])[|t.batch|] == OpTick(t.now, []) && TurnOps([t])[|t.batch| + 1] == OpDrain
    ensures t.Packets? ==> forall i :: 0 <= i < |t.batch| ==>
      var a, op := t.batch[i], TurnOps([t])[i];
      && TurnIds([t])[i] == a.id && op.OpFeed? && op.pkt.id == a.id && op.now == a.now && op.events == a.events
      && op.pkt.Data() == if a.bytes.Some? then a.bytes.value else []
  {
    assert [t][1..] == [];
  }

  lemma ErasedConcat(a: seq<Op>, b: seq<Op>)
    ensures Erased(a + b) == Erased(a) + Erased(b)
  {}

  /** `t` is what the operations `ops` make of `s`, each called as it must be. */
  ghost predicate Ran(s: State, maxFlows: nat, policy: Policy, ops: seq<Op>, t: State) {
    Ok(s) && RunOk(s, maxFlows, policy, ops) && t == Run(s, maxFlows, policy, ops)
  }

  lemma NothingYet(turns: seq<Turn>, s: State, maxFlows: nat, policy: Policy, ids: seq<nat>)
    requires Ok(s)
    ensures After(turns, 0, [], []) && Ran(s, maxFlows, policy, [], s) && Erased([]) == [] && ids + [] == ids
  {
    assert turns[..0] == [];
  }

  lemma RanNothing(s: State, maxFlows: nat, policy: Policy)
    requires Ok(s)
    ensures Ran(s, maxFlows, policy, [], s)
  {}

  lemma RanOne(s: State, maxFlows: nat, policy: Policy, ops: seq<Op>, t: State, op: Op)
    requires Ran(s, maxFlows, policy, ops, t) && OpOk(t, op)
    ensures Ran(s, maxFlows, policy, ops + [op], Step(t, maxFlows, policy, op))
    ensures Erased(ops + [op]) == Erased(ops) + [Erase(op)]
  {
    hide Step, OpOk;
    RunThen(s, maxFlows, policy, ops, op);
  }

  lemma RanBoth(s: State, maxFlows: nat, policy: Policy, a: seq<Op>, t: State, b: seq<Op>, u: State)
    requires Ran(s, maxFlows, policy, a, t) && Ran(t, maxFlows, policy, b, u)
    ensures Ran(s, maxFlows, policy, a + b, u) && Erased(a + b) == Erased(a) + Erased(b)
  {
    hide Step, OpOk;
    RunConcat(s, maxFlows, policy, a, b);
    ErasedConcat(a, b);
  }

  lemma RanTells(s: State, maxFlows: nat, policy: Policy, ops: seq<Op>, t: State, issued: seq<(nat, Verdict)>)
    requires Ran(s, maxFlows, policy, ops, t) && Quiet(s, None) && issued + Summary(s.decided) == Collect(s.log, Answered)
    ensures issued + Answers(s, maxFlows, policy, ops) == Collect(t.log, Answered)
  {
    hide Quiet, RunOk, Run, Answers, Summary, Collect;
    RunTells(s, maxFlows, policy, ops, issued);
  }

  /**
   Whenever operations `i` to `j` of the run open a flow and deliver a whole framed hello for `h` to it, without
   anything cutting it short, all its payload packets among them have been given the policy's verdict on `h`.
   */
  ghost predicate HellosAnswered(s: State, maxFlows: nat, policy: Policy, ops: seq<Op>, issued: seq<(nat, Verdict)>)
    requires Ok(s)
  {
    forall i: nat, j: nat, k: Key, rs: seq<RT.Record>, a: Grammar.Anatomy, h: Bytes ::
      HelloAt(s, maxFlows, policy, ops, i, j, k, rs, a, h) ==> Stands(issued, Tagged(FedTo(ops[i..j], k), policy(Some(h))))
  }

  lemma RanAnswers(s: State, maxFlows: nat, policy: Policy, ops: seq<Op>, t: State, issued: seq<(nat, Verdict)>)
    requires Ran(s, maxFlows, policy, ops, t) && Quiet(s, None)
    ensures HellosAnswered(s, maxFlows, policy, ops, issued + Answers(s, maxFlows, policy, ops))
  {
    assert Ok(s) && RunOk(s, maxFlows, policy, ops);
    hide Quiet, RunOk, Run, Answers, Summary, Collect, Stands, Tagged, FedTo, DeliversHello;
    var out := Answers(s, maxFlows, policy, ops);
    forall i: nat, j: nat, k: Key, rs: seq<RT.Record>, a: Grammar.Anatomy, h: Bytes | HelloAt(s, maxFlows, policy, ops, i, j, k, rs, a, h)
      ensures Stands(issued + out, Tagged(FedTo(ops[i..j], k), policy(Some(h))))
    {
      HelloAnswered(s, maxFlows, policy, ops, i, j, k, rs, a, h);
      StandsWithin(issued, out, [], Tagged(FedTo(ops[i..j], k), policy(Some(h))));
      assert issued + out + [] == issued + out;
    }
  }

  predicate TurnOk(t: Turn) { t.Packets? ==> forall i :: 0 <= i < |t.batch| ==> ArrivalOk(t.batch[i]) }

  /** Everything the extractor's runs are known to keep. */
  ghost predicate Healthy(s: State, policy: Policy) {
    Quiet(s, None) && Accounted(s) && Provenance.Agrees(s, policy) && policy(None) == ALLOW
  }

  lemma HealthyIsQuiet(s: State, policy: Policy)
    requires Healthy(s, policy)
    ensures Quiet(s, None) && Accounted(s)
  {}

  lemma LegalPolicy(s: State, policy: Policy)
    requires Healthy(s, policy)
    ensures Provenance.Legal(policy, s.log) && policy(None) == ALLOW
  {}

  lemma StepHealthy(s: State, maxFlows: nat, policy: Policy, op: Op)
    requires Healthy(s, policy) && OpOk(s, op)
    ensures Healthy(Step(s, maxFlows, policy, op), policy)
  {
    hide Step, Accounted, Quiet, Provenance.Agrees;
    StepReaches(s, maxFlows, policy, op);
    StepAccounted(s, maxFlows, policy, op);
    Provenance.StepAgrees(s, maxFlows, policy, op);
  }

  lemma InitHealthy(maxFlows: nat, maxBlocked: nat, policy: Policy)
    requires policy(None) == ALLOW
    ensures Healthy(Init(maxFlows, maxBlocked), policy)
  {
    InitAccounted(maxFlows, maxBlocked);
    Provenance.InitAgrees(maxFlows, maxBlocked, policy);
  }

  class Worker {
    const queue: NFQueue
    const tls: E.TcpTlsHostnameExtractor
    const passthrough: bool

    /** One operation of the extractor. */
    ghost predicate Does(s: State, op: Op, t: State)
      reads tls
    {
      Ok(s) && OpOk(s, op) && t == Step(s, tls.maxFlows, tls.policy, op)
    }

    ghost predicate Owns()
      reads this, queue, tls, tls.blockRing
    {
      queue.Valid() && tls.Valid() && !tls.feeding
    }

    /**
     Between packets: what the kernel was told followed by what is waiting in the buffer is what the
     extractor's log says it answered, every packet received is in that log, and no packet was dropped.
     */
    ghost predicate Balanced()
      reads this, queue, tls, tls.blockRing
    {
      && Owns()
      && Healthy(tls.Model(), tls.policy) && queue.undecided == 0
      && if passthrough then tls.conns == map[] && tls.decided == [] && queue.issued == AllAllowed(queue.ids)
         else queue.issued + Summary(tls.decided) == Collect(tls.log, Answered) && queue.ids == Collect(tls.log, ArrivedId)
    }

    constructor (list: Blocklist.BlockList, passthrough: bool, maxFlows: nat, maxBlocked: nat)
      requires list.Valid()
      ensures Balanced() && fresh(queue) && fresh(tls) && fresh(tls.blockRing)
      ensures this.passthrough == passthrough && tls.maxFlows == FlowCap(maxFlows)
      ensures tls.policy == PolicyOf(list.exact, list.wildcard) && queue.ids == []
      ensures tls.Model() == Init(maxFlows, maxBlocked)
    {
      this.passthrough := passthrough;
      queue := new NFQueue();
      tls := new E.TcpTlsHostnameExtractor(PolicyOf(list.exact, list.wildcard), maxFlows, maxBlocked);
      InitHealthy(maxFlows, maxBlocked, PolicyOf(list.exact, list.wildcard));
      new;
    }

    /** The hash map is walked in whatever order it has. */
    method Walk() returns (order: seq<Key>)
      ensures IsOrder(order, tls.conns)
    {
      order := [];
      var keys := tls.conns.Keys;
      while keys != {}
        invariant keys <= tls.conns.Keys
        invariant forall k :: k in order <==> k in tls.conns && k !in keys
        invariant forall i, j :: 0 <= i < j < |order| ==> order[i] != order[j]
        decreases keys
      {
        var k :| k in keys;
        order := order + [k];
        keys := keys - {k};
      }
    }

    /** NFQueue::handle with the worker's callback inlined. */
    method Handle(a: Arrival) returns (ghost op: Op)
      requires Balanced() && ArrivalOk(a)
      modifies queue, tls, tls.blockRing
      ensures Balanced() && tls.blockRing == old(tls.blockRing)
      ensures queue.ids == old(queue.ids) + [a.id]
      ensures !passthrough ==> Does(old(tls.Model()), op, tls.Model()) && Erase(op) == FeedOf(a)
      ensures !passthrough ==>
        && op.OpFeed? && op.pkt.id == a.id && op.pkt.pending && op.now == a.now && op.events == a.events
        && if a.bytes.Some? && |a.bytes.value| > 0
           then op.pkt.HasBytes() && op.pkt.Data() == a.bytes.value && op.pkt.len == |a.bytes.value|
           else !op.pkt.HasBytes() && op.pkt.len == 0
    {
      hide Healthy, Collect, Summary, Does;
      op := OpDrain;
      var v := queue.Receive(a.id, a.bytes);
      if passthrough {
        queue.Submit(v, ALLOW);
        AllowedMore(old(queue.ids), a.id);
      } else {
        op := Inspect(v, a.now, a.events);
      }
      queue.CatchDropped(v);
    }

    /** The callback proper: move the packet into the extractor. */
    method Inspect(v: PacketVar, now: int, events: seq<Event>) returns (ghost op: Op)
      requires Owns() && Healthy(tls.Model(), tls.policy) && !passthrough
      requires v.p.pending && |v.p.Data()| <= Dissector.MAX_CAPTURE && E.ChunksFit(events)
      modifies tls, tls.blockRing, v
      ensures Owns() && Healthy(tls.Model(), tls.policy) && tls.blockRing == old(tls.blockRing) && v.p == HUSK
      ensures forall issued :: issued + Summary(old(tls.decided)) == Collect(old(tls.log), Answered)
                           ==> issued + Summary(tls.decided) == Collect(tls.log, Answered)
      ensures Collect(tls.log, ArrivedId) == Collect(old(tls.log), ArrivedId) + [old(v.p.id)]
      ensures Does(old(tls.Model()), op, tls.Model()) && Erase(op) == OpFeed(old(v.p), now, [], events)
    {
      hide Healthy, Quiet, Collect, Summary, Accounted;
      ghost var s := tls.Model();
      HealthyIsQuiet(s, tls.policy);
      ghost var pkt := v.p;
      var order := Walk();
      tls.Feed(v, now, order, events);
      op := OpFeed(pkt, now, order, events);
      assert tls.Model() == Step(s, tls.maxFlows, tls.policy, op);
      hide Step;
      StepHealthy(s, tls.maxFlows, tls.policy, op);
      forall issued | issued + Summary(s.decided) == Collect(s.log, Answered)
        ensures issued + Summary(tls.decided) == Collect(tls.log, Answered)
      {
        StepTells(s, tls.maxFlows, tls.policy, op, issued);
      }
      FeedArrives(s, tls.maxFlows, tls.policy, pkt, now, order, events);
    }

    method TickNow(now: int) returns (ghost op: Op)
      requires Balanced()
      modifies tls, tls.blockRing
      ensures Balanced() && tls.blockRing == old(tls.blockRing)
      ensures Does(old(tls.Model()), op, tls.Model()) && Erase(op) == OpTick(now, [])
    {
      hide Healthy, Quiet, Collect, Summary, Accounted;
      ghost var s := tls.Model();
      HealthyIsQuiet(s, tls.policy);
      var order := Walk();
      tls.Tick(now, order);
      op := OpTick(now, order);
      assert tls.Model() == Step(s, tls.maxFlows, tls.policy, op);
      StepHealthy(s, tls.maxFlows, tls.policy, op);
      if !passthrough {
        StepTells(s, tls.maxFlows, tls.policy, op, queue.issued);
        TickUnread(s, tls.policy, now, order, ArrivedId);
      } else {
        NothingToTick(s, tls.policy, now, order);
      }
    }

    /** Everything decided goes to the kernel, in order; what stays outstanding is exactly what is held. */
    method DrainDecided()
      requires Balanced()
      modifies queue`issued, queue`verdicted, tls`decided
      ensures Balanced() && tls.decided == []
      ensures Does(old(tls.Model()), OpDrain, tls.Model())
      ensures queue.issued == old(queue.issued) + Summary(old(tls.decided))
      ensures queue.Outstanding() == |HeldIds(tls.conns)|
    {
      hide Healthy, Quiet, Collect, Summary, Accounted;
      ghost var s := tls.Model();
      AtRest();
      SubmitAll(tls.decided);
      tls.decided := [];
      StepHealthy(s, tls.maxFlows, tls.policy, OpDrain);
      HealthyIsQuiet(tls.Model(), tls.policy);
      NothingLeft(queue.issued);
      if passthrough {
        NoneHeld(tls.conns);
      } else {
        HeldCount(tls.Model());
      }
    }

    method SubmitAll(out: seq<Decided>)
      requires queue.Valid() && forall d :: d in out ==> d.pkt.pending
      modifies queue`issued, queue`verdicted
      ensures queue.Valid() && queue.issued == old(queue.issued) + Summary(out)
    {
      assert Summary(out[..0]) == [];
      for i := 0 to |out|
        invariant queue.Valid() && queue.issued == old(queue.issued) + Summary(out[..i])
      {
        assert out[i] in out;
        var v := new PacketVar.Holding(out[i].pkt);
        queue.Submit(v, out[i].verdict);
        assert Summary(out[..i + 1]) == Summary(out[..i]) + [(out[i].pkt.id, out[i].verdict)];
      }
      assert out[..|out|] == out;
    }

    /** At the end nothing may stay held: flush, then answer for everything. */
    method Finish() returns (ghost ops: seq<Op>)
      requires Balanced()
      modifies queue, tls, tls.blockRing
      ensures Balanced() && tls.decided == [] && tls.conns == map[] && queue.Outstanding() == 0
      ensures queue.ids == old(queue.ids)
      ensures Ran(old(tls.Model()), tls.maxFlows, tls.policy, ops, tls.Model()) && Erased(ops) == [OpFlush([]), OpDrain]
    {
      hide Healthy, Quiet, Collect, Summary, Accounted, Run, RunOk, Step, OpOk, Ran;
      ghost var s := tls.Model();
      RanNothing(s, tls.maxFlows, tls.policy);
      ghost var op := FlushAll();
      RanOne(s, tls.maxFlows, tls.policy, [], s, op);
      assert [] + [op] == [op];
      NoneHeld(tls.conns);
      ghost var u := tls.Model();
      DrainDecided();
      RanOne(s, tls.maxFlows, tls.policy, [op], u, OpDrain);
      ops := [op, OpDrain];
      assert ops == [op] + [OpDrain];
    }

    method FlushAll() returns (ghost op: Op)
      requires Balanced()
      modifies tls, tls.blockRing
      ensures Balanced() && tls.conns == map[]
      ensures Does(old(tls.Model()), op, tls.Model()) && Erase(op) == OpFlush([])
    {
      hide Healthy, Quiet, Collect, Summary, Accounted;
      ghost var s := tls.Model();
      HealthyIsQuiet(s, tls.policy);
      var order := Walk();
      tls.Flush(order);
      op := OpFlush(order);
      assert tls.Model() == Step(s, tls.maxFlows, tls.policy, op);
      StepHealthy(s, tls.maxFlows, tls.policy, op);
      if passthrough {
        NothingToFlush(s, tls.policy, order);
      } else {
        StepTells(s, tls.maxFlows, tls.policy, op, queue.issued);
        FlushUnread(s, tls.policy, Waiting(s.conns, order), ArrivedId);
      }
    }

    /**
     The worker's loop over any finite sequence of turns. It serves the turns before the first stop or error:
     every packet in them is received, and the extractor runs exactly their operations and then a flush and a
     drain; in passthrough every packet is allowed as it comes. When it returns every packet received has been
     answered, exactly as often as it was received, and none had to be rescued.
     */
    method Loop(turns: seq<Turn>) returns (ghost ops: seq<Op>)
      requires Balanced() && forall i :: 0 <= i < |turns| ==> TurnOk(turns[i])
      modifies queue, tls, tls.blockRing
      ensures Balanced() && queue.Outstanding() == 0 && queue.undecided == 0 && tls.conns == map[]
      ensures queue.ids == old(queue.ids) + TurnIds(turns)
      ensures multiset(AnsweredIds(queue.issued)) == multiset(queue.ids)
      ensures !passthrough ==> Ran(old(tls.Model()), tls.maxFlows, tls.policy, ops, tls.Model())
      ensures !passthrough ==> Erased(ops) == TurnOps(turns) + [OpFlush([]), OpDrain]
      ensures !passthrough ==> queue.issued == old(queue.issued) + Answers(old(tls.Model()), tls.maxFlows, tls.policy, ops)
      ensures passthrough ==> queue.issued == AllAllowed(queue.ids)
      ensures forall i :: 0 <= i < |queue.issued| && queue.issued[i].1 == BLOCK ==> Justified(tls.policy, tls.log, queue.issued[i].0)
      ensures !passthrough ==> HellosAnswered(old(tls.Model()), tls.maxFlows, tls.policy, ops, queue.issued)
    {
      ghost var issued := queue.issued;
      AtRest();
      ghost var ids;
      ops, ids := ServeTurns(turns);
      hide *;
      ghost var before := tls.Model();
      ghost var last := Finish();
      if !passthrough { RanBoth(old(tls.Model()), tls.maxFlows, tls.policy, ops, before, last, tls.Model()); }
      ops := ops + last;
      Settled();
      forall i | 0 <= i < |queue.issued| && queue.issued[i].1 == BLOCK ensures Justified(tls.policy, tls.log, queue.issued[i].0) {
        WhyBlocked(i);
      }
      if !passthrough { RanAnswers(old(tls.Model()), tls.maxFlows, tls.policy, ops, tls.Model(), issued); }
      if !passthrough { RanTells(old(tls.Model()), tls.maxFlows, tls.policy, ops, tls.Model(), issued); }
    }

    method ServeTurns(turns: seq<Turn>) returns (ghost ops: seq<Op>, ghost ids: seq<nat>)
      requires Balanced() && forall i :: 0 <= i < |turns| ==> TurnOk(turns[i])
      modifies queue, tls, tls.blockRing
      ensures Balanced() && tls.blockRing == old(tls.blockRing)
      ensures queue.ids == old(queue.ids) + ids && ids == TurnIds(turns)
      ensures !passthrough ==> Ran(old(tls.Model()), tls.maxFlows, tls.policy, ops, tls.Model()) && Erased(ops) == TurnOps(turns)
    {
      ghost var s := tls.Model();
      ghost var wanted: seq<Op> := [];
      ops, ids := [], [];
      var i := 0;
      NothingYet(turns, s, tls.maxFlows, tls.policy, queue.ids);
      hide *;
      while i < |turns|
        invariant i <= |turns| && After(turns, i, wanted, ids)
        invariant Balanced() && tls.blockRing == old(tls.blockRing) && queue.ids == old(queue.ids) + ids
        invariant !passthrough ==> Ran(s, tls.maxFlows, tls.policy, ops, tls.Model()) && Erased(ops) == wanted
      {
        if Ends(turns[i]) { break; }
        ghost var before := tls.Model();
        TurnsGrow(turns, i, wanted, ids);
        ghost var more := ServeTurn(turns[i]);
        if !passthrough { RanBoth(s, tls.maxFlows, tls.policy, ops, before, more, tls.Model()); }
        Joined(old(queue.ids), ids, BatchIds(BatchOf(turns[i])));
        ops, wanted := ops + more, wanted + (FeedsOf(BatchOf(turns[i])) + [OpTick(turns[i].now, []), OpDrain]);
        ids := ids + BatchIds(BatchOf(turns[i]));
        i := i + 1;
      }
      LoopEnds(turns, i, wanted, ids);
    }

    /** One turn: its packets, a tick, and everything decided goes out. */
    method ServeTurn(t: Turn) returns (ghost ops: seq<Op>)
      requires Balanced() && TurnOk(t) && !Ends(t)
      modifies queue, tls, tls.blockRing
      ensures Balanced() && tls.blockRing == old(tls.blockRing)
      ensures queue.ids == old(queue.ids) + BatchIds(BatchOf(t))
      ensures !passthrough ==> Ran(old(tls.Model()), tls.maxFlows, tls.policy, ops, tls.Model())
      ensures !passthrough ==> Erased(ops) == FeedsOf(BatchOf(t)) + [OpTick(t.now, []), OpDrain]
    {
      hide Healthy, Quiet, Collect, Summary, Accounted, Ran, Step, OpOk, FeedsOf, BatchIds;
      ghost var s := tls.Model();
      ops := HandleBatch(BatchOf(t));
      ghost var u := tls.Model();
      ghost var op := TickNow(t.now);
      if !passthrough { RanOne(s, tls.maxFlows, tls.policy, ops, u, op); }
      ops := ops + [op];
      u := tls.Model();
      DrainDecided();
      if !passthrough { RanOne(s, tls.maxFlows, tls.policy, ops, u, OpDrain); }
      ops := ops + [OpDrain];
    }

    method HandleBatch(batch: seq<Arrival>) returns (ghost ops: seq<Op>)
      requires Balanced() && forall i :: 0 <= i < |batch| ==> ArrivalOk(batch[i])
      modifies queue, tls, tls.blockRing
      ensures Balanced() && tls.blockRing == old(tls.blockRing)
      ensures queue.ids == old(queue.ids) + BatchIds(batch)
      ensures !passthrough ==> Ran(old(tls.Model()), tls.maxFlows, tls.policy, ops, tls.Model())
      ensures !passthrough ==> Erased(ops) == FeedsOf(batch)
    {
      hide Healthy, Quiet, Collect, Summary, Accounted, Ran, Step, OpOk;
      ghost var s := tls.Model();
      ops := [];
      RanNothing(s, tls.maxFlows, tls.policy);
      for i := 0 to |batch|
        invariant Balanced() && tls.blockRing == old(tls.blockRing)
        invariant queue.ids == old(queue.ids) + BatchIds(batch[..i])
        invariant !passthrough ==> Ran(s, tls.maxFlows, tls.policy, ops, tls.Model()) && Erased(ops) == FeedsOf(batch[..i])
      {
        ghost var u := tls.Model();
        ghost var op := Handle(batch[i]);
        if !passthrough { RanOne(s, tls.maxFlows, tls.policy, ops, u, op); }
        ops := ops + [op];
      }
      assert batch[..|batch|] == batch;
    }

    /** Every BLOCK the kernel was given is justified by its flow's own bytes and the policy. */
    lemma WhyBlocked(i: nat)
      requires Balanced() && i < |queue.issued| && queue.issued[i].1 == BLOCK
      ensures !passthrough && Justified(tls.policy, tls.log, queue.issued[i].0)
    {
      LegalPolicy(tls.Model(), tls.policy);
      hide Healthy, Quiet, Collect, Summary, Accounted, Justified;
      if !passthrough {
        assert Collect(tls.log, Answered)[i] == queue.issued[i];
        BlockIsJustified(tls.policy, tls.log, i);
      }
    }

    lemma AtRest()
      requires Balanced()
      ensures Quiet(tls.Model(), None) && forall d :: d in tls.decided ==> d.pkt.pending
      ensures !passthrough ==> queue.issued + Summary(tls.decided) == Collect(tls.log, Answered)
    {
      HealthyIsQuiet(tls.Model(), tls.policy);
    }

    /** With nothing held and nothing waiting to go out, everything received has been answered. */
    lemma Settled()
      requires Balanced() && tls.decided == [] && tls.conns == map[]
      ensures multiset(AnsweredIds(queue.issued)) == multiset(queue.ids)
      ensures !passthrough ==> queue.issued == Collect(tls.log, Answered)
      ensures queue.undecided == 0 && (passthrough ==> queue.issued == AllAllowed(queue.ids))
    {
      NothingLeft(queue.issued);
      HealthyIsQuiet(tls.Model(), tls.policy);
      hide Healthy, Quiet, Collect, Summary, Accounted;
      if passthrough { AllowedIds(queue.ids); } else { AllAnswered(tls.Model()); }
    }
  }

  /**
   The BLOCK for packet `id`, logged at `j`: its flow was opened at `o`, the client bytes heard up to `q` name a
   host, and the policy asked about that host said BLOCK.
   */
  ghost predicate Because(policy: Policy, log: seq<Note>, id: nat, j: nat, o: nat, q: nat) {
    && o < q < j < |log| && log[j].Given? && log[j].id == id && log[j].verdict == BLOCK && log[j].key.Some?
    && var k := log[j].key.value;
    && log[o] == Opened(k) && Provenance.Still(log, o + 1, q, k) && Provenance.Still(log, q + 1, j, k)
    && log[q].Asked? && log[q].flow == k && log[q].host.Some? && policy(log[q].host) == BLOCK
    && Hostname.Extract(Provenance.HeardIn(log[o..q], k)) == Hostname.Found(log[q].host.value)
  }

  ghost predicate Justified(policy: Policy, log: seq<Note>, id: nat) {
    exists j: nat, o: nat, q: nat :: Because(policy, log, id, j, o, q)
  }

  /** Every answer read off the log is some packet's. */
  lemma {:induction false} AnsweredAt(log: seq<Note>, i: nat) returns (j: nat)
    requires i < |Collect(log, Answered)|
    ensures j < |log| && log[j].Given? && (log[j].id, log[j].verdict) == Collect(log, Answered)[i]
    decreases |log|
  {
    if log[0].Given? && i == 0 {
      j := 0;
    } else {
      var at := AnsweredAt(log[1..], if log[0].Given? then i - 1 else i);
      j := at + 1;
    }
  }

  lemma BlockIsJustified(policy: Policy, log: seq<Note>, i: nat)
    requires Provenance.Legal(policy, log) && policy(None) == ALLOW
    requires i < |Collect(log, Answered)| && Collect(log, Answered)[i].1 == BLOCK
    ensures Justified(policy, log, Collect(log, Answered)[i].0)
  {
    hide Provenance.Legal, Provenance.Still, Provenance.HeardIn, Hostname.Extract;
    var j := AnsweredAt(log, i);
    var o, q := Provenance.BlockProvenance(policy, log, j);
    assert Because(policy, log, log[j].id, j, o, q);
  }

  /** Under the worker's policy a hello for a listed host is answered with BLOCK. */
  lemma ListedIsBlocked(
      exact: set<Bytes>, wildcard: set<Bytes>, s: State, maxFlows: nat, ops: seq<Op>, issued: seq<(nat, Verdict)>,
      i: nat, j: nat, k: Key, rs: seq<RT.Record>, a: Grammar.Anatomy, h: Bytes)
    requires Ok(s) && HellosAnswered(s, maxFlows, PolicyOf(exact, wildcard), ops, issued)
    requires HelloAt(s, maxFlows, PolicyOf(exact, wildcard), ops, i, j, k, rs, a, h) && Blocklist.Listed(exact, wildcard, h)
    ensures Stands(issued, Tagged(FedTo(ops[i..j], k), BLOCK))
    ensures forall id :: id in FedTo(ops[i..j], k) ==> (id, BLOCK) in issued
  {
    assert i <= j <= |ops|;
    hide Stands, HelloAt, FedTo, Blocklist.Listed;
    StandsIn(issued, FedTo(ops[i..j], k), BLOCK);
  }

  lemma StandsIn(out: seq<(nat, Verdict)>, ids: seq<nat>, v: Verdict)
    requires Stands(out, Tagged(ids, v))
    ensures forall id :: id in ids ==> (id, v) in out
  {
    var a: seq<(nat, Verdict)>, b: seq<(nat, Verdict)> :| out == a + Tagged(ids, v) + b;
    forall id | id in ids ensures (id, v) in out {
      var i :| 0 <= i < |ids| && ids[i] == id;
      assert out[|a| + i] == Tagged(ids, v)[i];
    }
  }

  /** Under the worker's policy a justified BLOCK goes back to a host the list names. */
  lemma BlockedWasListed(exact: set<Bytes>, wildcard: set<Bytes>, log: seq<Note>, id: nat)
    returns (j: nat, o: nat, q: nat, h: Bytes)
    requires Justified(PolicyOf(exact, wildcard), log, id)
    ensures Because(PolicyOf(exact, wildcard), log, id, j, o, q)
    ensures Hostname.Extract(Provenance.HeardIn(log[o..q], log[j].key.value)) == Hostname.Found(h)
    ensures Blocklist.Listed(exact, wildcard, h)
  {
    j, o, q :| Because(PolicyOf(exact, wildcard), log, id, j, o, q);
    h := log[q].host.value;
  }

  /** With distinct ids in, no id is answered twice. */
  lemma NoIdTwice(ids: seq<nat>, issued: seq<(nat, Verdict)>, i: nat, j: nat)
    requires multiset(AnsweredIds(issued)) == multiset(ids)
    requires forall a, b :: 0 <= a < b < |ids| ==> ids[a] != ids[b]
    requires i < j < |issued|
    ensures issued[i].0 != issued[j].0
  {
    var out := AnsweredIds(issued);
    Distinct(ids, out[i]);
    if out[i] == out[j] { TwiceCounted(out, i, j); }
  }

  lemma TwiceCounted(out: seq<nat>, i: nat, j: nat)
    requires i < j < |out| && out[i] == out[j]
    ensures multiset(out)[out[i]] >= 2
  {
    assert out == out[..i] + [out[i]] + out[i + 1..j] + [out[i]] + out[j + 1..];
  }

  lemma {:induction false} Distinct(ids: seq<nat>, x: nat)
    requires forall a, b :: 0 <= a < b < |ids| ==> ids[a] != ids[b]
    ensures multiset(ids)[x] <= 1
    decreases |ids|
  {
    if ids != [] {
      var rest := ids[1..];
      assert ids == [ids[0]] + rest;
      Distinct(rest, x);
      forall b | 0 <= b < |rest| ensures rest[b] != ids[0] { assert rest[b] == ids[b + 1]; }
      assert ids[0] !in multiset(rest);
    }
  }

  lemma NothingLeft(issued: seq<(nat, Verdict)>)
    ensures issued + Summary([]) == issued
  {}

  lemma AllowedIds(ids: seq<nat>)
    ensures AnsweredIds(AllAllowed(ids)) == ids
  {}

  /** What was fed and not yet answered is what is held. */
  lemma HeldCount(s: State)
    requires Accounted(s)
    ensures |Collect(s.log, ArrivedId)| == |Collect(s.log, Answered)| + |HeldIds(s.conns)|
  {
    AnsweredGiven(s.log);
    assert |multiset(Collect(s.log, ArrivedId))| == |multiset(Collect(s.log, GivenId))| + |HeldIds(s.conns)|;
  }

  lemma AllAnswered(s: State)
    requires Accounted(s) && s.conns == map[]
    ensures multiset(AnsweredIds(Collect(s.log, Answered))) == multiset(Collect(s.log, ArrivedId))
  {
    AnsweredGiven(s.log);
    NoneHeld(s.conns);
  }

  function AllAllowed(ids: seq<nat>): seq<(nat, Verdict)> { seq(|ids|, i requires 0 <= i < |ids| => (ids[i], ALLOW)) }

  lemma AllowedMore(ids: seq<nat>, id: nat)
    ensures AllAllowed(ids + [id]) == AllAllowed(ids) + [(id, ALLOW)]
  {}

  lemma NothingToTick(s: State, policy: Policy, now: int, order: seq<Key>)
    requires Ok(s) && s.conns == map[]
    ensures Tick(s, policy, now, order).conns == map[]
    ensures Tick(s, policy, now, order).decided == s.decided
  {
    NoneExpired(s.conns, now, order);
  }

  lemma NothingToFlush(s: State, policy: Policy, order: seq<Key>)
    requires Ok(s) && s.conns == map[]
    ensures Flush(s, policy, order).conns == map[] && Flush(s, policy, order).decided == s.decided
  {
    NoneWaiting(s.conns, order);
  }

  lemma {:induction false} NoneWaiting(conns: map<Key, Conn>, order: seq<Key>)
    requires conns == map[]
    ensures Waiting(conns, order) == []
  {
    if order != [] { NoneWaiting(conns, order[1..]); }
  }

  lemma {:induction false} NoneExpired(conns: map<Key, Conn>, now: int, order: seq<Key>)
    requires conns == map[]
    ensures Expired(conns, now, order) == []
  {
    if order != [] { NoneExpired(conns, now, order[1..]); }
  }
}
