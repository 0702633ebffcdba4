/**
 What becomes of a tracked flow and of its packets: it waits on exactly as long as the lookup on its bytes needs
 more and nothing cuts it short, and when the lookup answers, every payload packet fed since the flow was
 opened leaves with the policy's verdict on that answer.
 */
module Decisions {
  import opened Wire
  import opened Packets
  import opened FlowTable
  import opened FlowActions
  import opened History
  import opened Arrivals
  import opened RingTheorems
  import opened Conservation
  import opened EndToEnd
  import opened Runs
  import opened Deliveries
  import Dissector
  import Hostname
  import RT = RecordTheorems
  import Grammar = ClientHelloGrammar

  // ---------------------------------------------------------------- the lookup in two stretches

  lemma {:induction false} IncrementalSplit(buf: Bytes, a: seq<Bytes>, b: seq<Bytes>)
    ensures Hostname.Incremental(buf, a + b) ==
      if Hostname.Incremental(buf, a).NeedMore? then Hostname.Incremental(buf + Hostname.Concat(a), b) else Hostname.Incremental(buf, a)
    decreases |a|
  {
    hide Hostname.Extract;
    if a == [] {
      assert a + b == b && buf + Hostname.Concat(a) == buf;
    } else {
      assert (a + b)[0] == a[0] && (a + b)[1..] == a[1..] + b;
      IncrementalSplit(buf + a[0], a[1..], b);
      Assoc(buf, a[0], Hostname.Concat(a[1..]));
    }
  }

  // ---------------------------------------------------------------- callbacks

  /** What callbacks do to the held packets: keep them, or answer all of them with the one verdict that shows in the table. */
  ghost predicate Disposes(s: State, t: State, k: Key) {
    if !IsWait(s, k) then !IsWait(t, k) && t.decided == s.decided && (k in t.conns <==> k in s.conns)
    else if IsWait(t, k) then t.decided == s.decided && t.conns[k].held == s.conns[k].held
    else t.decided == s.decided + Verdicts(s.conns[k].held, if k in t.conns then BLOCK else ALLOW)
  }

  lemma SettleAnswers(s: State, policy: Policy, k: Key, host: Option<Bytes>)
    requires Ok(s) && IsWait(s, k)
    ensures Disposes(s, Settle(s, policy, k, host), k) && !IsWait(Settle(s, policy, k, host), k)
  {
    hide Verdicts, GivenNotes;
  }

  lemma OnEventAnswers(s: State, policy: Policy, k: Key, e: Event)
    requires Ok(s)
    ensures Disposes(s, OnEvent(s, policy, k, e), k) && (e.End? ==> !IsWait(OnEvent(s, policy, k, e), k))
  {
    hide Settle, Verdicts, Hostname.Extract;
    if IsWait(s, k) {
      match e {
        case Start(_) =>
        case Data(side, chunk, token) =>
          var t := Hear(Learn(s, k, token, s.conns[k].closed), k, chunk);
          SettleAnswers(t, policy, k, Answer(t.conns[k].stream));
          SettleAnswers(t, policy, k, None);
        case End => SettleAnswers(Learn(s, k, s.conns[k].token, true), policy, k, None);
      }
    }
  }

  /** The end of the connection, if it is among the callbacks, leaves nothing waiting. */
  lemma {:induction false} OnEventsAnswer(s: State, policy: Policy, k: Key, events: seq<Event>)
    requires Ok(s)
    ensures Disposes(s, OnEvents(s, policy, k, events), k)
    ensures !NoEnd(events) ==> !IsWait(OnEvents(s, policy, k, events), k)
    decreases |events|
  {
    if events == [] {
    } else {
      OnEventAnswers(s, policy, k, events[0]);
      OnEventsAnswer(OnEvent(s, policy, k, events[0]), policy, k, events[1..]);
      FirstEvent(events);
      hide OnEvent, Verdicts, NoEnd, Chunks;
    }
  }

  // ---------------------------------------------------------------- a packet of the flow

  function Reached(f: Dissector.FlowView, events: seq<Event>): seq<Bytes> { if Reassembled(f) then Chunks(events) else [] }

  /** The flow outlasts the packet: fewer than 32 are held and the reassembler reports no end. */
  ghost predicate Lasts(s: State, k: Key, f: Dissector.FlowView, events: seq<Event>) {
    |HeldOf(s, k)| < 32 && !(Reassembled(f) && !NoEnd(events))
  }

  function HostIn(r: Hostname.Lookup): Option<Bytes> { if r.Found? then Some(r.host) else None }

  function Joining(f: Dissector.FlowView, pkt: Packet): seq<Packet> { if f.payloadLen > 0 then [pkt] else [] }

  /** A packet leaves its flow waiting exactly if it outlasts it and the lookup still needs more. */
  lemma TrackWaitsIff(s: State, policy: Policy, k: Key, f: Dissector.FlowView, pkt: Packet, events: seq<Event>)
    requires Ok(s) && Undecided(s, k)
    ensures var t := Track(s, policy, k, f, pkt, events); var x := s.conns[k].stream;
            && (IsWait(t, k) <==> Lasts(s, k, f, events) && Hostname.Incremental(x, Reached(f, events)).NeedMore?)
            && (IsWait(t, k) ==> t.conns[k].stream == x + Hostname.Concat(Reached(f, events)))
            && (IsWait(t, k) ==> Ids(t.conns[k].held) == Ids(s.conns[k].held + Joining(f, pkt)))
  {
    ReassembledBits(f);
    NothingMore(s.conns[k].stream);
    if |s.conns[k].held| >= 32 {
      hide Hostname.Extract, Hostname.Incremental, Chunks, Reassembled, NoEnd, OnEvents, Settle;
      SettleAnswers(s, policy, k, None);
      SettledFor(s, policy, k, None);
    } else if !Reassembled(f) {
      hide Hostname.Extract, Chunks, NoEnd, OnEvents, Settle, ChangesState, Reassembled;
      assert s.conns[k].held + Joining(f, pkt) == s.conns[k].held;
    } else {
      var h := if f.payloadLen > 0 then Hold(s, k, pkt) else s;
      EventsWaitIff(h, policy, k, events);
      hide Hostname.Extract, Hostname.Incremental, Chunks, NoEnd, OnEvents, Settle, ChangesState, Reassembled;
      var t := OnEvents(h, policy, k, events);
      assert h.conns[k].held == s.conns[k].held + Joining(f, pkt);
      if IsWait(t, k) && f.payloadLen > 0 { ReleaseIds(t.conns[k].held); }
    }
  }

  lemma EventsWaitIff(s: State, policy: Policy, k: Key, events: seq<Event>)
    requires Ok(s) && IsWait(s, k)
    ensures var t := OnEvents(s, policy, k, events); var x := s.conns[k].stream;
            && (IsWait(t, k) <==> NoEnd(events) && Hostname.Incremental(x, Chunks(events)).NeedMore?)
            && (IsWait(t, k) ==> t.conns[k].stream == x + Hostname.Concat(Chunks(events)) && t.conns[k].held == s.conns[k].held)
  {
    OnEventsAnswer(s, policy, k, events);
    if NoEnd(events) { StreamFollows(s, policy, k, events); }
    hide OnEvents, Verdicts, NoEnd, Chunks, Hostname.Incremental, Hostname.Concat;
  }

  /** Callbacks on which the lookup answers: everything held leaves with the policy's verdict. */
  lemma EventsAnswered(s: State, policy: Policy, k: Key, events: seq<Event>)
    requires Ok(s) && IsWait(s, k) && NoEnd(events) && !Hostname.Incremental(s.conns[k].stream, Chunks(events)).NeedMore?
    ensures var t := OnEvents(s, policy, k, events);
            var v := policy(HostIn(Hostname.Incremental(s.conns[k].stream, Chunks(events))));
            && t.decided == s.decided + Verdicts(s.conns[k].held, v)
            && (IsBlock(t, k) <==> v == BLOCK) && (k in t.conns <==> v == BLOCK)
  {
    StreamFollows(s, policy, k, events);
    OnEventsAnswer(s, policy, k, events);
    hide OnEvents, Verdicts, NoEnd, Chunks, Hostname.Incremental, Hostname.Concat;
  }

  /** A packet on which the lookup answers: every held packet, and this one if it carries payload, leaves with the policy's verdict. */
  lemma TrackAnswers(s: State, policy: Policy, k: Key, f: Dissector.FlowView, pkt: Packet, events: seq<Event>)
    requires Ok(s) && Undecided(s, k) && Lasts(s, k, f, events)
    requires !Hostname.Incremental(s.conns[k].stream, Reached(f, events)).NeedMore?
    ensures var t := Track(s, policy, k, f, pkt, events);
            var v := policy(HostIn(Hostname.Incremental(s.conns[k].stream, Reached(f, events))));
            && s.decided + Verdicts(s.conns[k].held + Joining(f, pkt), v) <= t.decided
            && (IsBlock(t, k) <==> v == BLOCK) && (k in t.conns <==> v == BLOCK)
  {
    ReassembledBits(f);
    assert Reassembled(f);
    var h := if f.payloadLen > 0 then Hold(s, k, pkt) else s;
    assert h.conns[k].held == s.conns[k].held + Joining(f, pkt);
    EventsAnswered(h, policy, k, events);
    hide OnEvents, Chunks, NoEnd, Reassembled, ChangesState, Verdicts, Joining, HostIn, Hostname.Incremental, Hostname.Extract;
  }

  // ---------------------------------------------------------------- one operation

  lemma JoiningIds(held: seq<Packet>, op: Op, k: Key)
    requires op.OpFeed? && TcpView(op.pkt).Some? && KeyOf(TcpView(op.pkt).value) == k
    ensures Ids(held + Joining(TcpView(op.pkt).value, op.pkt)) == Ids(held) + FedTo([op], k)
  {
    hide TcpView;
    assert [op][1..] == [];
  }

  lemma NoneFed(held: seq<Packet>, op: Op, k: Key)
    requires op.OpFeed? ==> TcpView(op.pkt).None? || KeyOf(TcpView(op.pkt).value) != k
    ensures Ids(held) == Ids(held) + FedTo([op], k)
  {
    hide TcpView;
    assert [op][1..] == [];
  }

  /** No sweep made by this operation finds the flow silent. */
  predicate Unswept(s: State, op: Op, k: Key) { op.OpFeed? || op.OpTick? ==> !SweepsOut(s, op.now, k) }

  /** The flow still waits, on everything it was given, with all its packets. */
  ghost predicate WaitsOn(s: State, t: State, k: Key, chunks: seq<Bytes>, ids: seq<nat>)
    requires k in s.conns
  {
    && IsWait(t, k) && t.conns[k].stream == s.conns[k].stream + Hostname.Concat(chunks)
    && Ids(t.conns[k].held) == Ids(s.conns[k].held) + ids
  }

  lemma TickSpares(s: State, policy: Policy, now: int, order: seq<Key>, k: Key)
    requires Quiet(s, None) && IsWait(s, k) && !SweepsOut(s, now, k)
    ensures var t := Tick(s, policy, now, order); Quiet(t, None) && Spared(s, t, k)
  {
    QuietIsUndecided(s, k);
    TickHeeds(s, policy, now, order, k);
    TickReaches(Env(0, policy, now, true), s, order);
  }

  /** A packet of the flow, past the tick: what `Place` makes of it. */
  lemma OwnPlace(s: State, maxFlows: nat, policy: Policy, pkt: Packet, now: int, events: seq<Event>, k: Key)
    requires Ok(s) && IsWait(s, k) && TcpView(pkt).Some? && KeyOf(TcpView(pkt).value) == k
    ensures Place(s, maxFlows, policy, pkt, now, events) == Track(Touch(s, k, now), policy, k, TcpView(pkt).value, pkt, events)
  {
    hide Track, TcpView;
  }

  lemma PlaceWaitsIff(s: State, maxFlows: nat, policy: Policy, op: Op, k: Key)
    requires Ok(s) && Undecided(s, k) && op.OpFeed? && Unswept(s, op, k)
    ensures var t := Place(s, maxFlows, policy, op.pkt, op.now, op.events);
            && (IsWait(t, k) <==> !Cuts(s, op, k) && Hostname.Incremental(s.conns[k].stream, DeliveredBy(op, k)).NeedMore?)
            && (IsWait(t, k) ==> WaitsOn(s, t, k, DeliveredBy(op, k), FedTo([op], k)))
  {
    NothingMore(s.conns[k].stream);
    hide Track, Place, TcpView, Hostname.Extract, NoEnd, Chunks, FedTo, Reassembled, SweepsOut;
    if TcpView(op.pkt).Some? && KeyOf(TcpView(op.pkt).value) == k {
      var f := TcpView(op.pkt).value;
      var u := Touch(s, k, op.now);
      OwnPlace(s, maxFlows, policy, op.pkt, op.now, op.events, k);
      TrackWaitsIff(u, policy, k, f, op.pkt, op.events);
      JoiningIds(s.conns[k].held, op, k);
    } else {
      PlaceSpares(s, maxFlows, policy, op.pkt, op.now, op.events, k);
      NoneFed(s.conns[k].held, op, k);
    }
  }

  /**
   An operation whose sweep does not find it silent leaves a waiting flow waiting exactly if it does not cut
   it short and the lookup on what it delivers needs more; the flow then has all its bytes and packets.
   */
  lemma StepWaitsIff(s: State, maxFlows: nat, policy: Policy, op: Op, k: Key)
    requires Quiet(s, None) && OpOk(s, op) && IsWait(s, k) && Unswept(s, op, k)
    ensures var t := Step(s, maxFlows, policy, op);
            && (IsWait(t, k) <==> !Cuts(s, op, k) && Hostname.Incremental(s.conns[k].stream, DeliveredBy(op, k)).NeedMore?)
            && (IsWait(t, k) ==> WaitsOn(s, t, k, DeliveredBy(op, k), FedTo([op], k)))
  {
    NothingMore(s.conns[k].stream);
    QuietIsUndecided(s, k);
    hide Tick, Place, Flush, TcpView, Hostname.Extract, NoEnd, Chunks, SweepsOut, Quiet, FedTo;
    match op {
      case OpFeed(pkt, now, order, events) =>
        TickSpares(s, policy, now, order, k);
        var u := Tick(s, policy, now, order);
        QuietIsUndecided(u, k);
        NotSweptTwice(s, policy, op, k);
        PlaceWaitsIff(u, maxFlows, policy, op, k);
      case OpTick(now, order) =>
        TickSpares(s, policy, now, order, k);
        NoneFed(s.conns[k].held, op, k);
      case OpFlush(order) => FlushLeavesNone(s, policy, order);
      case OpDrain => NoneFed(s.conns[k].held, op, k);
    }
  }

  lemma FlushLeavesNone(s: State, policy: Policy, order: seq<Key>)
    requires Ok(s)
    ensures Flush(s, policy, order).conns == map[]
  {}

  /** After the tick a feed begins with, nothing is due. */
  lemma NotSweptTwice(s: State, policy: Policy, op: Op, k: Key)
    requires Ok(s) && op.OpFeed?
    ensures Unswept(Tick(s, policy, op.now, op.order), op, k)
  {
    SweptAlready(s, policy, op.now, op.order);
  }

  // ---------------------------------------------------------------- a stretch of operations

  lemma {:induction false} DeliveredConcat(a: seq<Op>, b: seq<Op>, k: Key)
    ensures Delivered(a + b, k) == Delivered(a, k) + Delivered(b, k)
    ensures FedTo(a + b, k) == FedTo(a, k) + FedTo(b, k)
    decreases |a|
  {
    hide DeliveredBy, PayloadOf;
    if a == [] {
      assert a + b == b;
    } else {
      assert (a + b)[0] == a[0] && (a + b)[1..] == a[1..] + b;
      DeliveredConcat(a[1..], b, k);
      Joined(DeliveredBy(a[0], k), Delivered(a[1..], k), Delivered(b, k));
      Joined(if a[0].OpFeed? && PayloadOf(a[0].pkt, k) then [a[0].pkt.id] else [], FedTo(a[1..], k), FedTo(b, k));
    }
  }

  lemma DeliveredOne(op: Op, k: Key)
    ensures Delivered([op], k) == DeliveredBy(op, k)
  {
    assert [op][1..] == [];
  }

  lemma {:induction false} CutShortConcat(s: State, maxFlows: nat, policy: Policy, a: seq<Op>, b: seq<Op>, k: Key)
    requires Ok(s)
    ensures CutShort(s, maxFlows, policy, a + b, k) <==>
      CutShort(s, maxFlows, policy, a, k) || CutShort(Run(s, maxFlows, policy, a), maxFlows, policy, b, k)
    decreases |a|
  {
    hide Step, Cuts;
    if a == [] {
      assert a + b == b;
    } else {
      assert (a + b)[0] == a[0] && (a + b)[1..] == a[1..] + b;
      CutShortConcat(Step(s, maxFlows, policy, a[0]), maxFlows, policy, a[1..], b, k);
    }
  }

  lemma UncutIsUnswept(s: State, op: Op, k: Key)
    requires !Cuts(s, op, k)
    ensures Unswept(s, op, k)
  {}

  /** Through operations that do not cut it short and deliver no answer, the flow waits on and keeps its packets. */
  lemma {:induction false} RunWaitsOn(s: State, maxFlows: nat, policy: Policy, ops: seq<Op>, k: Key)
    requires Quiet(s, None) && RunOk(s, maxFlows, policy, ops) && IsWait(s, k)
    requires !CutShort(s, maxFlows, policy, ops, k)
    requires Hostname.Incremental(s.conns[k].stream, Delivered(ops, k)).NeedMore?
    ensures WaitsOn(s, Run(s, maxFlows, policy, ops), k, Delivered(ops, k), FedTo(ops, k))
    decreases |ops|
  {
    var x := s.conns[k].stream;
    if ops == [] {
      NothingMore(x);
      assert Ids(s.conns[k].held) + FedTo([], k) == Ids(s.conns[k].held);
    } else {
      var op, rest := ops[0], ops[1..];
      assert [op] + rest == ops;
      DeliveredConcat([op], rest, k);
      DeliveredOne(op, k);
      IncrementalSplit(x, DeliveredBy(op, k), Delivered(rest, k));
      UncutIsUnswept(s, op, k);
      StepReaches(s, maxFlows, policy, op);
      StepWaitsIff(s, maxFlows, policy, op, k);
      hide Step, Cuts, Hostname.Extract, DeliveredBy, Quiet, OpOk, FedTo, Delivered, Hostname.Incremental;
      RunWaitsOn(Step(s, maxFlows, policy, op), maxFlows, policy, rest, k);
      ConcatBoth(DeliveredBy(op, k), Delivered(rest, k));
      Assoc(x, Hostname.Concat(DeliveredBy(op, k)), Hostname.Concat(Delivered(rest, k)));
      Joined(Ids(s.conns[k].held), FedTo([op], k), FedTo(rest, k));
    }
  }

  // ---------------------------------------------------------------- the answers

  function Tagged(ids: seq<nat>, v: Verdict): seq<(nat, Verdict)> { seq(|ids|, i requires 0 <= i < |ids| => (ids[i], v)) }

  /** The answers `some` stand in `out`, together and in order. */
  ghost predicate Stands(out: seq<(nat, Verdict)>, some: seq<(nat, Verdict)>) {
    exists a: seq<(nat, Verdict)>, b: seq<(nat, Verdict)> :: out == a + some + b
  }

  lemma StandsAfter(pre: seq<Decided>, held: seq<Packet>, v: Verdict, out: seq<Decided>)
    requires pre + Verdicts(held, v) <= out
    ensures Stands(Summary(out), Tagged(Ids(held), v))
  {
    var rest := out[|pre| + |held|..];
    assert out == pre + Verdicts(held, v) + rest;
    assert Summary(Verdicts(held, v)) == Tagged(Ids(held), v);
    SummaryConcat(pre, Verdicts(held, v));
    SummaryConcat(pre + Verdicts(held, v), rest);
    assert Summary(out) == Summary(pre) + Tagged(Ids(held), v) + Summary(rest);
  }

  lemma StandsWithin(x: seq<(nat, Verdict)>, out: seq<(nat, Verdict)>, y: seq<(nat, Verdict)>, some: seq<(nat, Verdict)>)
    requires Stands(out, some)
    ensures Stands(x + out + y, some)
  {
    var a: seq<(nat, Verdict)>, b: seq<(nat, Verdict)> :| out == a + some + b;
    assert x + out + y == (x + a) + some + (b + y);
  }

  /** An operation on which the lookup answers lets the flow's packets go with the verdict. */
  lemma StepAnswers(s: State, maxFlows: nat, policy: Policy, op: Op, k: Key)
    requires Quiet(s, None) && OpOk(s, op) && IsWait(s, k) && !Cuts(s, op, k)
    requires !Hostname.Incremental(s.conns[k].stream, DeliveredBy(op, k)).NeedMore?
    ensures var t := Step(s, maxFlows, policy, op);
            var v := policy(HostIn(Hostname.Incremental(s.conns[k].stream, DeliveredBy(op, k))));
            && Stands(Summary(t.decided), Tagged(Ids(s.conns[k].held) + FedTo([op], k), v))
            && (IsBlock(t, k) <==> v == BLOCK)
  {
    assert Reaches(op.pkt, k);
    var f := TcpView(op.pkt).value;
    hide Tick, Track, TcpView, Hostname.Extract, Hostname.Incremental, NoEnd, Chunks, Quiet, FedTo, Reassembled;
    UncutIsUnswept(s, op, k);
    TickSpares(s, policy, op.now, op.order, k);
    var u := Tick(s, policy, op.now, op.order);
    QuietIsUndecided(u, k);
    OwnPlace(u, maxFlows, policy, op.pkt, op.now, op.events, k);
    var w := Touch(u, k, op.now);
    TrackAnswers(w, policy, k, f, op.pkt, op.events);
    JoiningIds(s.conns[k].held, op, k);
    var v := policy(HostIn(Hostname.Incremental(s.conns[k].stream, DeliveredBy(op, k))));
    StandsAfter(w.decided, s.conns[k].held + Joining(f, op.pkt), v, Step(s, maxFlows, policy, op).decided);
  }

  /** What is in the buffer comes out first. */
  lemma {:induction false} BufferComesOut(s: State, maxFlows: nat, policy: Policy, ops: seq<Op>)
    requires Quiet(s, None) && RunOk(s, maxFlows, policy, ops)
    ensures Summary(s.decided) <= Answers(s, maxFlows, policy, ops)
    decreases |ops|
  {
    assert Ok(s);
    hide *;
    if ops == [] {
      NoSteps(s, maxFlows, policy);
    } else {
      var t := Step(s, maxFlows, policy, ops[0]);
      FirstStep(s, maxFlows, policy, ops);
      StepReaches(s, maxFlows, policy, ops[0]);
      BufferComesOut(t, maxFlows, policy, ops[1..]);
      if !ops[0].OpDrain? { BufferGrows(s, maxFlows, policy, ops[0]); }
    }
  }

  lemma BufferGrows(s: State, maxFlows: nat, policy: Policy, op: Op)
    requires Quiet(s, None) && OpOk(s, op) && !op.OpDrain?
    ensures Summary(s.decided) <= Summary(Step(s, maxFlows, policy, op).decided)
  {
    var t := Step(s, maxFlows, policy, op);
    StepReaches(s, maxFlows, policy, op);
    ReachTells(EnvOf(maxFlows, policy, op), s, t);
    hide Step, Collect;
    assert t.decided == s.decided + t.decided[|s.decided|..];
    SummaryConcat(s.decided, t.decided[|s.decided|..]);
  }

  /** The answers of a run end with those of its last part. */
  lemma {:induction false} AnswersSplit(s: State, maxFlows: nat, policy: Policy, a: seq<Op>, b: seq<Op>)
    returns (pre: seq<(nat, Verdict)>)
    requires Ok(s)
    ensures Answers(s, maxFlows, policy, a + b) == pre + Answers(Run(s, maxFlows, policy, a), maxFlows, policy, b)
    decreases |a|
  {
    hide *;
    if a == [] {
      NoSteps(s, maxFlows, policy);
      assert a + b == b;
      pre := [];
    } else {
      var t := Step(s, maxFlows, policy, a[0]);
      assert (a + b)[0] == a[0] && (a + b)[1..] == a[1..] + b;
      FirstStep(s, maxFlows, policy, a);
      FirstStep(s, maxFlows, policy, a + b);
      var rest := AnswersSplit(t, maxFlows, policy, a[1..], b);
      var out := if a[0].OpDrain? then Summary(s.decided) else [];
      Joined(out, rest, Answers(Run(s, maxFlows, policy, a), maxFlows, policy, b));
      pre := out + rest;
    }
  }

  /** What stands in the buffer at some point of a run stands in what comes out of it. */
  lemma StandsInOutput(
      s: State, maxFlows: nat, policy: Policy, a: seq<Op>, b: seq<Op>, some: seq<(nat, Verdict)>)
    requires Quiet(s, None) && RunOk(s, maxFlows, policy, a + b)
    requires Stands(Summary(Run(s, maxFlows, policy, a).decided), some)
    ensures Stands(Answers(s, maxFlows, policy, a + b), some)
  {
    assert Ok(s);
    hide *;
    var t := Run(s, maxFlows, policy, a);
    RunConcat(s, maxFlows, policy, a, b);
    RunQuiet(s, maxFlows, policy, a);
    BufferComesOut(t, maxFlows, policy, b);
    var pre := AnswersSplit(s, maxFlows, policy, a, b);
    var out, buffer := Answers(t, maxFlows, policy, b), Summary(t.decided);
    StandsWithin(pre, buffer, out[|buffer|..], some);
    Joined(pre, buffer, out[|buffer|..]);
    assert out == buffer + out[|buffer|..];
  }

  // ---------------------------------------------------------------- from opening to answer

  /** The packet opens its flow: it starts one, and there is room. */
  predicate OpensAt(s: State, maxFlows: nat, policy: Policy, op: Op, k: Key)
    requires Ok(s)
  {
    && op.OpFeed? && TcpView(op.pkt).Some? && KeyOf(TcpView(op.pkt).value) == k
    && var u := Tick(s, policy, op.now, op.order);
       WantsIn(u, op.pkt) && |MakeRoom(u, maxFlows).conns| < maxFlows
  }

  lemma FeedOpens(s: State, maxFlows: nat, policy: Policy, op: Op, k: Key)
    requires Ok(s) && OpensAt(s, maxFlows, policy, op, k)
    ensures var o := Begun(s, maxFlows, policy, op.pkt, op.now, op.order);
            && Undecided(o, k) && o.conns[k].stream == [] && o.conns[k].held == []
            && Step(s, maxFlows, policy, op) == Track(o, policy, k, TcpView(op.pkt).value, op.pkt, op.events)
  {
    EmptyWaits();
    hide Tick, Evict, Track, TcpView, Opens, Hostname.Extract;
  }

  lemma OpeningWaits(s: State, maxFlows: nat, policy: Policy, op: Op, k: Key)
    requires Ok(s) && OpensAt(s, maxFlows, policy, op, k) && !Ended(op.pkt, op.events)
    requires Hostname.Incremental([], DeliveredBy(op, k)).NeedMore?
    ensures var t := Step(s, maxFlows, policy, op);
            IsWait(t, k) && t.conns[k].stream == Hostname.Concat(DeliveredBy(op, k)) && Ids(t.conns[k].held) == FedTo([op], k)
  {
    FeedOpens(s, maxFlows, policy, op, k);
    var o := Begun(s, maxFlows, policy, op.pkt, op.now, op.order);
    var f := TcpView(op.pkt).value;
    hide Tick, Evict, Track, TcpView, Hostname.Extract, Hostname.Incremental, NoEnd, Chunks, FedTo, Reassembled, OpensAt, Begun, Step;
    TrackWaitsIff(o, policy, k, f, op.pkt, op.events);
    JoiningIds([], op, k);
    EmptyStart(Hostname.Concat(DeliveredBy(op, k)));
    assert [] + FedTo([op], k) == FedTo([op], k);
  }

  lemma OpeningAnswers(s: State, maxFlows: nat, policy: Policy, op: Op, k: Key)
    requires Ok(s) && OpensAt(s, maxFlows, policy, op, k) && !Ended(op.pkt, op.events)
    requires !Hostname.Incremental([], DeliveredBy(op, k)).NeedMore?
    ensures var t := Step(s, maxFlows, policy, op);
            var v := policy(HostIn(Hostname.Incremental([], DeliveredBy(op, k))));
            Stands(Summary(t.decided), Tagged(FedTo([op], k), v)) && (IsBlock(t, k) <==> v == BLOCK)
  {
    FeedOpens(s, maxFlows, policy, op, k);
    var o := Begun(s, maxFlows, policy, op.pkt, op.now, op.order);
    var f := TcpView(op.pkt).value;
    hide Tick, Evict, Track, TcpView, Hostname.Extract, Hostname.Incremental, NoEnd, Chunks, FedTo, Reassembled, OpensAt, Begun, Step;
    TrackAnswers(o, policy, k, f, op.pkt, op.events);
    JoiningIds([], op, k);
    assert [] + FedTo([op], k) == FedTo([op], k);
    var v := policy(HostIn(Hostname.Incremental([], DeliveredBy(op, k))));
    StandsAfter(o.decided, o.conns[k].held + Joining(f, op.pkt), v, Step(s, maxFlows, policy, op).decided);
  }

  /**
   The stretch of operations from the one that opens flow `k` to the one whose bytes make the lookup answer,
   with nothing on the way that cuts the flow short.
   */
  ghost predicate Stretch(s: State, maxFlows: nat, policy: Policy, ops: seq<Op>, k: Key)
    requires Ok(s)
  {
    && ops != [] && OpensAt(s, maxFlows, policy, ops[0], k) && !Ended(ops[0].pkt, ops[0].events)
    && !CutShort(Step(s, maxFlows, policy, ops[0]), maxFlows, policy, ops[1..], k)
    && Hostname.Incremental([], Delivered(ops[..|ops| - 1], k)).NeedMore?
    && !Hostname.Incremental([], Delivered(ops, k)).NeedMore?
  }

  /** At the end of such a stretch every payload packet of the flow fed in it is answered as the policy says of the lookup's answer. */
  lemma StretchAnswers(s: State, maxFlows: nat, policy: Policy, ops: seq<Op>, k: Key)
    requires Quiet(s, None) && RunOk(s, maxFlows, policy, ops) && Stretch(s, maxFlows, policy, ops, k)
    ensures var t := Run(s, maxFlows, policy, ops);
            var v := policy(HostIn(Hostname.Incremental([], Delivered(ops, k))));
            Stands(Summary(t.decided), Tagged(FedTo(ops, k), v)) && (IsBlock(t, k) <==> v == BLOCK)
  {
    StretchParts(s, maxFlows, policy, ops, k);
    if |ops| == 1 {
      hide *;
      StretchOfOne(s, maxFlows, policy, ops, k);
    } else {
      hide *;
      StretchOfMore(s, maxFlows, policy, ops, k);
    }
  }

  lemma StretchParts(s: State, maxFlows: nat, policy: Policy, ops: seq<Op>, k: Key)
    requires Ok(s) && Stretch(s, maxFlows, policy, ops, k)
    ensures OpensAt(s, maxFlows, policy, ops[0], k) && !Ended(ops[0].pkt, ops[0].events)
    ensures !CutShort(Step(s, maxFlows, policy, ops[0]), maxFlows, policy, ops[1..], k)
    ensures Hostname.Incremental([], Delivered(ops[..|ops| - 1], k)).NeedMore?
    ensures !Hostname.Incremental([], Delivered(ops, k)).NeedMore?
  {}

  lemma StretchOfOne(s: State, maxFlows: nat, policy: Policy, ops: seq<Op>, k: Key)
    requires Ok(s) && |ops| == 1 && OpensAt(s, maxFlows, policy, ops[0], k) && !Ended(ops[0].pkt, ops[0].events)
    requires !Hostname.Incremental([], Delivered(ops, k)).NeedMore?
    ensures var t := Run(s, maxFlows, policy, ops);
            var v := policy(HostIn(Hostname.Incremental([], Delivered(ops, k))));
            Stands(Summary(t.decided), Tagged(FedTo(ops, k), v)) && (IsBlock(t, k) <==> v == BLOCK)
  {
    var op := ops[0];
    assert ops == [op] && ops[1..] == [];
    assert Run(s, maxFlows, policy, ops) == Step(s, maxFlows, policy, op) by { hide Step; }
    hide *;
    DeliveredOne(op, k);
    OpeningAnswers(s, maxFlows, policy, op, k);
  }

  lemma StretchOfMore(s: State, maxFlows: nat, policy: Policy, ops: seq<Op>, k: Key)
    requires Quiet(s, None) && RunOk(s, maxFlows, policy, ops) && |ops| > 1
    requires OpensAt(s, maxFlows, policy, ops[0], k) && !Ended(ops[0].pkt, ops[0].events)
    requires !CutShort(Step(s, maxFlows, policy, ops[0]), maxFlows, policy, ops[1..], k)
    requires Hostname.Incremental([], Delivered(ops[..|ops| - 1], k)).NeedMore?
    requires !Hostname.Incremental([], Delivered(ops, k)).NeedMore?
    ensures var t := Run(s, maxFlows, policy, ops);
            var v := policy(HostIn(Hostname.Incremental([], Delivered(ops, k))));
            Stands(Summary(t.decided), Tagged(FedTo(ops, k), v)) && (IsBlock(t, k) <==> v == BLOCK)
  {
    hide *;
    Pieces(ops);
    StretchEnds(s, maxFlows, policy, ops, ops[0], ops[1..], ops[1..|ops| - 1], ops[|ops| - 1], ops[..|ops| - 1], k);
  }

  lemma RunOnce(s: State, maxFlows: nat, policy: Policy, op: Op, rest: seq<Op>)
    requires Ok(s)
    ensures Run(s, maxFlows, policy, [op] + rest) == Run(Step(s, maxFlows, policy, op), maxFlows, policy, rest)
    ensures RunOk(s, maxFlows, policy, [op] + rest) ==> OpOk(s, op) && RunOk(Step(s, maxFlows, policy, op), maxFlows, policy, rest)
  {
    assert ([op] + rest)[1..] == rest;
    hide Step, OpOk;
  }

  lemma Pieces<T>(ops: seq<T>)
    requires |ops| > 1
    ensures ops == [ops[0]] + ops[1..]
    ensures ops[1..] == ops[1..|ops| - 1] + [ops[|ops| - 1]]
    ensures ops[..|ops| - 1] == [ops[0]] + ops[1..|ops| - 1]
  {}

  lemma StretchEnds(
      s: State, maxFlows: nat, policy: Policy,
      ops: seq<Op>, op: Op, rest: seq<Op>, init: seq<Op>, last: Op, front: seq<Op>, k: Key)
    requires ops == [op] + rest && rest == init + [last] && front == [op] + init
    requires Quiet(s, None) && RunOk(s, maxFlows, policy, ops)
    requires OpensAt(s, maxFlows, policy, op, k) && !Ended(op.pkt, op.events)
    requires !CutShort(Step(s, maxFlows, policy, op), maxFlows, policy, rest, k)
    requires Hostname.Incremental([], Delivered(front, k)).NeedMore?
    requires !Hostname.Incremental([], Delivered(ops, k)).NeedMore?
    ensures var t := Run(s, maxFlows, policy, ops);
            var v := policy(HostIn(Hostname.Incremental([], Delivered(ops, k))));
            Stands(Summary(t.decided), Tagged(FedTo(ops, k), v)) && (IsBlock(t, k) <==> v == BLOCK)
  {
    assert Ok(s);
    hide *;
    var t := Step(s, maxFlows, policy, op);
    var d0, d1, d2 := DeliveredBy(op, k), Delivered(init, k), DeliveredBy(last, k);
    RunOnce(s, maxFlows, policy, op, rest);
    StepReaches(s, maxFlows, policy, op);
    QuietOk(t);
    RunThen(t, maxFlows, policy, init, last);
    CutShortConcat(t, maxFlows, policy, init, [last], k);
    DeliveredConcat([op], rest, k);
    DeliveredConcat([op], init, k);
    DeliveredConcat(init, [last], k);
    DeliveredOne(op, k);
    DeliveredOne(last, k);
    IncrementalSplit([], d0, d1);
    EmptyStart(Hostname.Concat(d0));
    OpeningWaits(s, maxFlows, policy, op, k);
    RunWaitsOn(t, maxFlows, policy, init, k);
    RunQuiet(t, maxFlows, policy, init);
    var u := Run(t, maxFlows, policy, init);
    Waited(t, u, k, d1, FedTo(init, k));
    Joined(d0, d1, d2);
    IncrementalSplit([], d0 + d1, d2);
    ConcatBoth(d0, d1);
    EmptyStart(Hostname.Concat(d0 + d1));
    OneCut(u, maxFlows, policy, last, k);
    StepAnswers(u, maxFlows, policy, last, k);
    Joined(FedTo([op], k), FedTo(init, k), FedTo([last], k));
  }

  lemma QuietOk(s: State)
    requires Quiet(s, None)
    ensures Ok(s)
  {}

  lemma OneCut(s: State, maxFlows: nat, policy: Policy, op: Op, k: Key)
    requires Ok(s)
    ensures CutShort(s, maxFlows, policy, [op], k) <==> Cuts(s, op, k)
  {
    assert [op][1..] == [];
    hide Step, Cuts;
  }

  lemma Waited(s: State, t: State, k: Key, chunks: seq<Bytes>, ids: seq<nat>)
    requires k in s.conns && WaitsOn(s, t, k, chunks, ids)
    ensures IsWait(t, k) && t.conns[k].stream == s.conns[k].stream + Hostname.Concat(chunks)
    ensures Ids(t.conns[k].held) == Ids(s.conns[k].held) + ids
  {}

  // ---------------------------------------------------------------- a ClientHello in a run

  /**
   The stretch of operations from the one that opens flow `k` to the one that completes a framed hello for `h`:
   nothing cuts the flow short, and no chunk ends past the limit and inside the hello.
   */
  ghost predicate DeliversHello(
      s: State, maxFlows: nat, policy: Policy, ops: seq<Op>, k: Key, rs: seq<RT.Record>, a: Grammar.Anatomy, h: Bytes)
    requires Ok(s)
  {
    && ops != [] && OpensAt(s, maxFlows, policy, ops[0], k) && !Ended(ops[0].pkt, ops[0].events)
    && !CutShort(Step(s, maxFlows, policy, ops[0]), maxFlows, policy, ops[1..], k)
    && Hostname.Frames(rs, a, h) && RT.Frame(rs) <= Hostname.Concat(Delivered(ops, k))
    && !(RT.Frame(rs) <= Hostname.Concat(Delivered(ops[..|ops| - 1], k)))
    && !Hostname.CutTooLate([], Delivered(ops, k), |RT.Frame(rs)|)
  }

  /** Delivered in chunks of which only the last completes it, a framed hello is found by the last and not before. */
  lemma HelloInLast(front: seq<Bytes>, last: seq<Bytes>, rs: seq<RT.Record>, a: Grammar.Anatomy, h: Bytes)
    requires Hostname.Frames(rs, a, h) && RT.Frame(rs) <= Hostname.Concat(front + last) && !(RT.Frame(rs) <= Hostname.Concat(front))
    requires !Hostname.CutTooLate([], front + last, |RT.Frame(rs)|)
    ensures Hostname.Incremental([], front).NeedMore? && Hostname.Incremental([], front + last) == Hostname.Found(h)
  {
    hide Hostname.IsHello, RT.Frame, Hostname.Concat, Hostname.Incremental, Hostname.Extract;
    var chunks, f, n := front + last, RT.Frame(rs), |front|;
    var whole, part := Hostname.Concat(chunks), Hostname.Concat(front);
    assert chunks[..n] == front;
    Hostname.ConcatGrows(chunks, n);
    TwoPrefixes(f, part, whole);
    EmptyStart(whole);
    EmptyStart(part);
    assert whole == f + whole[|f|..];
    assert [] < f;
    NothingFirst(chunks);
    assert n > 0 ==> |part| <= 32768;
    Hostname.ChunkedRoundTrip(rs, a, h, [], chunks, whole[|f|..]);
  }

  lemma HelloInLastOp(ops: seq<Op>, k: Key, rs: seq<RT.Record>, a: Grammar.Anatomy, h: Bytes)
    requires ops != [] && Hostname.Frames(rs, a, h) && RT.Frame(rs) <= Hostname.Concat(Delivered(ops, k))
    requires !(RT.Frame(rs) <= Hostname.Concat(Delivered(ops[..|ops| - 1], k)))
    requires !Hostname.CutTooLate([], Delivered(ops, k), |RT.Frame(rs)|)
    ensures Hostname.Incremental([], Delivered(ops[..|ops| - 1], k)).NeedMore?
    ensures Hostname.Incremental([], Delivered(ops, k)) == Hostname.Found(h)
  {
    hide *;
    LastPart(ops);
    DeliveredConcat(ops[..|ops| - 1], [ops[|ops| - 1]], k);
    HelloInLast(Delivered(ops[..|ops| - 1], k), Delivered([ops[|ops| - 1]], k), rs, a, h);
  }

  lemma LastPart<T>(ops: seq<T>)
    requires ops != []
    ensures ops == ops[..|ops| - 1] + [ops[|ops| - 1]]
  {}

  lemma HelloIsStretch(
      s: State, maxFlows: nat, policy: Policy, ops: seq<Op>, k: Key, rs: seq<RT.Record>, a: Grammar.Anatomy, h: Bytes)
    requires Ok(s) && DeliversHello(s, maxFlows, policy, ops, k, rs, a, h)
    ensures Stretch(s, maxFlows, policy, ops, k) && Hostname.Incremental([], Delivered(ops, k)) == Hostname.Found(h)
  {
    hide OpensAt, Ended, CutShort, Step, Delivered, Hostname.Frames, RT.Frame, Hostname.Concat, Hostname.CutTooLate, Hostname.Incremental;
    HelloInLastOp(ops, k, rs, a, h);
  }

  /** The hello is delivered by operations `i` to `j` of a run. */
  ghost predicate HelloAt(
      s: State, maxFlows: nat, policy: Policy, ops: seq<Op>, i: nat, j: nat, k: Key, rs: seq<RT.Record>, a: Grammar.Anatomy, h: Bytes)
    requires Ok(s)
  {
    i <= j <= |ops| && DeliversHello(Run(s, maxFlows, policy, ops[..i]), maxFlows, policy, ops[i..j], k, rs, a, h)
  }

  /** Then every payload packet of the flow fed by them comes out with the policy's verdict on `h`, together and in order. */
  lemma HelloAnswered(
      s: State, maxFlows: nat, policy: Policy, ops: seq<Op>, i: nat, j: nat, k: Key, rs: seq<RT.Record>, a: Grammar.Anatomy, h: Bytes)
    requires Quiet(s, None) && RunOk(s, maxFlows, policy, ops) && HelloAt(s, maxFlows, policy, ops, i, j, k, rs, a, h)
    ensures Stands(Answers(s, maxFlows, policy, ops), Tagged(FedTo(ops[i..j], k), policy(Some(h))))
  {
    var t := Run(s, maxFlows, policy, ops[..i]);
    assert Ok(s) && i <= j <= |ops| && DeliversHello(t, maxFlows, policy, ops[i..j], k, rs, a, h);
    ThreeParts(ops, i, j);
    hide *;
    RunConcat(s, maxFlows, policy, ops[..i] + ops[i..j], ops[j..]);
    RunConcat(s, maxFlows, policy, ops[..i], ops[i..j]);
    RunQuiet(s, maxFlows, policy, ops[..i]);
    HelloIsStretch(t, maxFlows, policy, ops[i..j], k, rs, a, h);
    StretchAnswers(t, maxFlows, policy, ops[i..j], k);
    FoundHost(h);
    StandsInOutput(s, maxFlows, policy, ops[..i] + ops[i..j], ops[j..], Tagged(FedTo(ops[i..j], k), policy(Some(h))));
  }

  lemma ThreeParts<T>(ops: seq<T>, i: nat, j: nat)
    requires i <= j <= |ops|
    ensures ops == ops[..i] + ops[i..j] + ops[j..]
  {}

  lemma FoundHost(h: Bytes)
    ensures HostIn(Hostname.Found(h)) == Some(h)
  {}
}
