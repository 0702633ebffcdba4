/**
 What goes into a run and what comes out, read off its operations instead of the log: the packets fed,
 and the answers handed out by drains or still waiting in the buffer at the end.
 */
module Runs {
  import opened Wire
  import opened Packets
  import opened FlowTable
  import opened FlowActions
  import opened History
  import opened Arrivals

  // ---------------------------------------------------------------- what goes in

  /** The ids of all packets fed, in order. */
  function FedIds(ops: seq<Op>): seq<nat> {
    if ops == [] then [] else (if ops[0].OpFeed? then [ops[0].pkt.id] else []) + FedIds(ops[1..])
  }

  predicate PayloadOf(pkt: Packet, k: Key) {
    TcpView(pkt).Some? && KeyOf(TcpView(pkt).value) == k && TcpView(pkt).value.payloadLen > 0
  }

  /** The ids of the payload-carrying packets of one flow, in the order they were fed. */
  function FedTo(ops: seq<Op>, k: Key): seq<nat> {
    if ops == [] then []
    else (if ops[0].OpFeed? && PayloadOf(ops[0].pkt, k) then [ops[0].pkt.id] else []) + FedTo(ops[1..], k)
  }

  /** A reading of the log that sees arrivals only. */
  ghost predicate SeesArrivals<T(!new)>(f: Note -> Option<T>) { forall n: Note :: !n.Arrived? ==> f(n).None? }

  /** One operation writes the arrival of the packet it feeds, and no other. */
  lemma StepRead<T(!new)>(s: State, maxFlows: nat, policy: Policy, op: Op, f: Note -> Option<T>)
    requires Ok(s) && SeesArrivals(f)
    ensures Collect(Step(s, maxFlows, policy, op).log, f)
         == Collect(s.log, f) + if op.OpFeed? then Pick(ArrivalOf(op.pkt), f) else []
  {
    hide Collect, Feed, Tick, ArrivalOf, Evict;
    NoneOpened(Collect(s.log, f));
    match op {
      case OpFeed(pkt, now, order, events) =>
        FeedRead(s, maxFlows, policy, pkt, now, order, events, f);
        NothingOpens(Tick(s, policy, now, order), maxFlows, pkt, f);
      case OpTick(now, order) => TickUnread(s, policy, now, order, f);
      case OpFlush(order) => FlushUnread(s, policy, Waiting(s.conns, order), f);
      case OpDrain =>
    }
  }

  lemma NothingOpens<T(!new)>(s: State, maxFlows: nat, pkt: Packet, f: Note -> Option<T>)
    requires Ok(s) && SeesArrivals(f)
    ensures OpeningOf(s, maxFlows, pkt, f) == []
  {}

  /** The log's arrivals are the packets fed, in order. */
  lemma {:induction false} RunArrives(s: State, maxFlows: nat, policy: Policy, ops: seq<Op>)
    requires Ok(s)
    ensures Collect(Run(s, maxFlows, policy, ops).log, ArrivedId) == Collect(s.log, ArrivedId) + FedIds(ops)
    decreases |ops|
  {
    if ops == [] {
      NoneOpened(Collect(s.log, ArrivedId));
    } else {
      hide Collect, Step;
      var t := Step(s, maxFlows, policy, ops[0]);
      StepRead(s, maxFlows, policy, ops[0], ArrivedId);
      RunArrives(t, maxFlows, policy, ops[1..]);
      Joined(Collect(s.log, ArrivedId), if ops[0].OpFeed? then [ops[0].pkt.id] else [], FedIds(ops[1..]));
    }
  }

  /** The same for the payload packets of one flow. */
  lemma {:induction false} RunArrivesTo(s: State, maxFlows: nat, policy: Policy, ops: seq<Op>, k: Key)
    requires Ok(s)
    ensures Collect(Run(s, maxFlows, policy, ops).log, FedOf(k)) == Collect(s.log, FedOf(k)) + FedTo(ops, k)
    decreases |ops|
  {
    if ops == [] {
      NoneOpened(Collect(s.log, FedOf(k)));
    } else {
      hide Collect, Step, TcpView;
      var t := Step(s, maxFlows, policy, ops[0]);
      StepRead(s, maxFlows, policy, ops[0], FedOf(k));
      RunArrivesTo(t, maxFlows, policy, ops[1..], k);
      Joined(Collect(s.log, FedOf(k)), if ops[0].OpFeed? && PayloadOf(ops[0].pkt, k) then [ops[0].pkt.id] else [], FedTo(ops[1..], k));
    }
  }

  lemma Joined<T>(a: seq<T>, b: seq<T>, c: seq<T>)
    ensures a + b + c == a + (b + c)
  {}

  lemma {:induction false} FlushFeedsNothing(ops: seq<Op>, order: seq<Key>)
    ensures FedIds(ops + [OpFlush(order)]) == FedIds(ops)
    ensures forall k :: FedTo(ops + [OpFlush(order)], k) == FedTo(ops, k)
    decreases |ops|
  {
    if ops == [] {
      assert [] + [OpFlush(order)] == [OpFlush(order)];
      assert [OpFlush(order)][1..] == [];
    } else {
      hide PayloadOf;
      FlushFeedsNothing(ops[1..], order);
      assert (ops + [OpFlush(order)])[1..] == ops[1..] + [OpFlush(order)];
    }
  }

  // ---------------------------------------------------------------- what comes out

  /** Every answer of a run, in order: what the drains took out, then what is still in the buffer. */
  function Answers(s: State, maxFlows: nat, policy: Policy, ops: seq<Op>): seq<(nat, Verdict)>
    requires Ok(s)
    decreases |ops|
  {
    if ops == [] then Summary(s.decided)
    else (if ops[0].OpDrain? then Summary(s.decided) else []) + Answers(Step(s, maxFlows, policy, ops[0]), maxFlows, policy, ops[1..])
  }

  /** One operation adds to the buffer what it adds to the log's answers. */
  lemma StepTells(s: State, maxFlows: nat, policy: Policy, op: Op, issued: seq<(nat, Verdict)>)
    requires Quiet(s, None) && OpOk(s, op) && !op.OpDrain?
    requires issued + Summary(s.decided) == Collect(s.log, Answered)
    ensures var t := Step(s, maxFlows, policy, op); issued + Summary(t.decided) == Collect(t.log, Answered)
  {
    var t := Step(s, maxFlows, policy, op);
    StepReaches(s, maxFlows, policy, op);
    ReachTells(EnvOf(maxFlows, policy, op), s, t);
    TellsOn(s, t, issued);
  }

  lemma TellsOn(s: State, t: State, issued: seq<(nat, Verdict)>)
    requires Tells(s, t) && issued + Summary(s.decided) == Collect(s.log, Answered)
    ensures issued + Summary(t.decided) == Collect(t.log, Answered)
  {
    hide Collect, Summary;
    var more, out := t.log[|s.log|..], t.decided[|s.decided|..];
    assert t.log == s.log + more && t.decided == s.decided + out;
    CollectConcat(s.log, more, Answered);
    SummaryConcat(s.decided, out);
    Joined(issued, Summary(s.decided), Summary(out));
  }

  /** The log's answers are the answers that came out, in order. */
  lemma {:induction false} RunTells(s: State, maxFlows: nat, policy: Policy, ops: seq<Op>, issued: seq<(nat, Verdict)>)
    requires Quiet(s, None) && RunOk(s, maxFlows, policy, ops)
    requires issued + Summary(s.decided) == Collect(s.log, Answered)
    ensures issued + Answers(s, maxFlows, policy, ops) == Collect(Run(s, maxFlows, policy, ops).log, Answered)
    decreases |ops|
  {
    assert Ok(s);
    hide *;
    if ops == [] {
      NoSteps(s, maxFlows, policy);
    } else {
      var t := Step(s, maxFlows, policy, ops[0]);
      FirstStep(s, maxFlows, policy, ops);
      StepReaches(s, maxFlows, policy, ops[0]);
      var out := if ops[0].OpDrain? then Summary(s.decided) else [];
      FirstTells(s, maxFlows, policy, ops[0], issued);
      RunTells(t, maxFlows, policy, ops[1..], issued + out);
      Joined(issued, out, Answers(t, maxFlows, policy, ops[1..]));
    }
  }

  lemma NoSteps(s: State, maxFlows: nat, policy: Policy)
    requires Ok(s)
    ensures Run(s, maxFlows, policy, []) == s && Answers(s, maxFlows, policy, []) == Summary(s.decided)
  {}

  lemma FirstStep(s: State, maxFlows: nat, policy: Policy, ops: seq<Op>)
    requires Ok(s) && ops != []
    ensures var t := Step(s, maxFlows, policy, ops[0]);
            && Ok(t) && Run(s, maxFlows, policy, ops) == Run(t, maxFlows, policy, ops[1..])
            && (RunOk(s, maxFlows, policy, ops) <==> OpOk(s, ops[0]) && RunOk(t, maxFlows, policy, ops[1..]))
            && Answers(s, maxFlows, policy, ops)
               == (if ops[0].OpDrain? then Summary(s.decided) else []) + Answers(t, maxFlows, policy, ops[1..])
  {
    hide Step, OpOk, Summary;
  }

  /** The same with what a drain takes out counted as issued. */
  lemma FirstTells(s: State, maxFlows: nat, policy: Policy, op: Op, issued: seq<(nat, Verdict)>)
    requires Quiet(s, None) && OpOk(s, op) && issued + Summary(s.decided) == Collect(s.log, Answered)
    ensures var t := Step(s, maxFlows, policy, op);
            issued + (if op.OpDrain? then Summary(s.decided) else []) + Summary(t.decided) == Collect(t.log, Answered)
  {
    hide Collect, Quiet, OpOk;
    if op.OpDrain? {
      assert Summary([]) == [];
    } else {
      hide Step, Summary;
      StepTells(s, maxFlows, policy, op, issued);
      assert issued + [] == issued;
    }
  }

  /** `a` can be read off `b` by leaving entries out. */
  predicate Within(a: seq<nat>, b: seq<nat>)
    decreases |b|
  {
    a == [] || (b != [] && ((a[0] == b[0] && Within(a[1..], b[1..])) || Within(a, b[1..])))
  }

  /** The answers to one flow stand among all answers in their own order. */
  lemma {:induction false} FlowWithin(log: seq<Note>, k: Key)
    ensures Within(Collect(log, AnsweredOf(k)), Collect(log, GivenId))
    decreases |log|
  {
    if log != [] {
      FlowWithin(log[1..], k);
      var a, b := Collect(log[1..], AnsweredOf(k)), Collect(log[1..], GivenId);
      var n := log[0];
      assert [] + a == a && [] + b == b;
      if n.Given? { assert ([n.id] + b)[1..] == b && ([n.id] + a)[1..] == a; }
    }
  }

  // ---------------------------------------------------------------- the log only grows

  lemma StepGrows(s: State, maxFlows: nat, policy: Policy, op: Op)
    requires Quiet(s, None) && OpOk(s, op)
    ensures s.log <= Step(s, maxFlows, policy, op).log
  {
    StepReaches(s, maxFlows, policy, op);
    if !op.OpDrain? { ReachTells(EnvOf(maxFlows, policy, op), s, Step(s, maxFlows, policy, op)); }
  }

  lemma {:induction false} RunGrows(s: State, maxFlows: nat, policy: Policy, ops: seq<Op>)
    requires Quiet(s, None) && RunOk(s, maxFlows, policy, ops)
    ensures s.log <= Run(s, maxFlows, policy, ops).log
    decreases |ops|
  {
    if ops != [] {
      StepReaches(s, maxFlows, policy, ops[0]);
      StepGrows(s, maxFlows, policy, ops[0]);
      RunGrows(Step(s, maxFlows, policy, ops[0]), maxFlows, policy, ops[1..]);
    }
  }

  // ---------------------------------------------------------------- runs one after the other

  lemma {:induction false} RunConcat(s: State, maxFlows: nat, policy: Policy, a: seq<Op>, b: seq<Op>)
    requires Ok(s)
    ensures var t := Run(s, maxFlows, policy, a);
            && Run(s, maxFlows, policy, a + b) == Run(t, maxFlows, policy, b)
            && (RunOk(s, maxFlows, policy, a + b) <==> RunOk(s, maxFlows, policy, a) && RunOk(t, maxFlows, policy, b))
    decreases |a|
  {
    hide Step, OpOk;
    if a == [] {
      assert a + b == b;
    } else {
      RunConcat(Step(s, maxFlows, policy, a[0]), maxFlows, policy, a[1..], b);
      assert (a + b)[1..] == a[1..] + b && (a + b)[0] == a[0];
    }
  }

  lemma RunThen(s: State, maxFlows: nat, policy: Policy, ops: seq<Op>, op: Op)
    requires Ok(s)
    ensures var t := Run(s, maxFlows, policy, ops);
            && Run(s, maxFlows, policy, ops + [op]) == Step(t, maxFlows, policy, op)
            && (RunOk(s, maxFlows, policy, ops + [op]) <==> RunOk(s, maxFlows, policy, ops) && OpOk(t, op))
  {
    hide Step, OpOk;
    RunConcat(s, maxFlows, policy, ops, [op]);
    assert [op][1..] == [];
    var t := Run(s, maxFlows, policy, ops);
    assert Run(t, maxFlows, policy, [op]) == Run(Step(t, maxFlows, policy, op), maxFlows, policy, []);
    assert RunOk(t, maxFlows, policy, [op]) <==> OpOk(t, op) && RunOk(Step(t, maxFlows, policy, op), maxFlows, policy, []);
  }
}
