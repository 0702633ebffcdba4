/**
 No packet is lost, none is answered twice, and packets of one flow leave in the order they came: over
 every run, every reassembler behaviour, every policy and every walk order of the table.
 */
module Conservation {
  import opened Wire
  import opened Packets
  import opened FlowTable
  import opened FlowActions
  import opened History
  import opened Runs

  // ---------------------------------------------------------------- everything held, over the table

  ghost function HeldIds(m: map<Key, Conn>): multiset<nat>
    decreases |m|
  {
    if m == map[] then multiset{}
    else
      var k :| k in m;
      Smaller(m, k);
      multiset(Ids(m[k].held)) + HeldIds(m - {k})
  }

  lemma Smaller(m: map<Key, Conn>, k: Key)
    requires k in m
    ensures |m - {k}| == |m| - 1
  {
    assert m.Keys == (m - {k}).Keys + {k};
  }

  /** The sum does not depend on the order of taking it. */
  lemma {:induction false} HeldSplit(m: map<Key, Conn>, k: Key)
    requires k in m
    ensures HeldIds(m) == multiset(Ids(m[k].held)) + HeldIds(m - {k})
    decreases |m|
  {
    var j :| j in m && HeldIds(m) == multiset(Ids(m[j].held)) + HeldIds(m - {j});
    if j != k {
      Smaller(m, j);
      Smaller(m, k);
      HeldSplit(m - {j}, k);
      HeldSplit(m - {k}, j);
      assert m - {j} - {k} == m - {k} - {j};
    }
  }

  lemma HeldUpdate(m: map<Key, Conn>, k: Key, c: Conn)
    ensures HeldIds(m[k := c]) == multiset(Ids(c.held)) + HeldIds(m - {k})
  {
    HeldSplit(m[k := c], k);
    assert m[k := c] - {k} == m - {k};
  }

  lemma HeldRemove(m: map<Key, Conn>, k: Key)
    ensures HeldIds(m) == (if k in m then multiset(Ids(m[k].held)) else multiset{}) + HeldIds(m - {k})
  {
    if k in m { HeldSplit(m, k); } else { assert m - {k} == m; }
  }

  lemma {:induction false} NoneHeld(m: map<Key, Conn>)
    requires forall k :: k in m ==> m[k].held == []
    ensures HeldIds(m) == multiset{}
    decreases |m|
  {
    if m != map[] {
      var k :| k in m;
      HeldSplit(m, k);
      Smaller(m, k);
      NoneHeld(m - {k});
    }
  }

  // ---------------------------------------------------------------- conservation

  /** Every packet fed is answered or held, as many times as it was fed. */
  ghost predicate Conserved(s: State) {
    multiset(Collect(s.log, ArrivedId)) == multiset(Collect(s.log, GivenId)) + HeldIds(s.conns)
  }

  lemma SettleHeld(s: State, policy: Policy, k: Key, host: Option<Bytes>)
    requires Base(s) && IsWait(s, k)
    ensures HeldIds(s.conns) == multiset(Ids(s.conns[k].held)) + HeldIds(Settle(s, policy, k, host).conns)
  {
    hide HeldIds, Ids;
    HeldSplit(s.conns, k);
    if policy(host) == BLOCK {
      var c := s.conns[k].(mode := Block, held := [], stream := []);
      EmptyAdded(s.conns, k, c);
      var blocked := s.(conns := s.conns[k := c]);
      RememberHeld(blocked, k);
      RememberConns(s, policy, k, host);
    }
  }

  lemma EmptyAdded(m: map<Key, Conn>, k: Key, c: Conn)
    requires c.held == []
    ensures HeldIds(m[k := c]) == HeldIds(m - {k})
  {
    HeldUpdate(m, k, c);
    assert Ids([]) == [];
  }

  lemma RememberHeld(s: State, k: Key)
    requires Base(s)
    ensures HeldIds(RememberBlocked(s, k).conns) == HeldIds(s.conns)
  {
    hide HeldIds;
    var victim := s.ring[s.next];
    if victim != 0 && victim != k && IsBlock(s, victim) { EmptyRemoved(s.conns, victim); }
  }

  lemma RememberConns(s: State, policy: Policy, k: Key, host: Option<Bytes>)
    requires Ok(s) && k in s.conns && policy(host) == BLOCK
    ensures var c := s.conns[k].(mode := Block, held := [], stream := []);
            Settle(s, policy, k, host).conns == RememberBlocked(s.(conns := s.conns[k := c]), k).conns
  {}

  lemma HoldHeld(s: State, k: Key, pkt: Packet)
    requires k in s.conns
    ensures HeldIds(Hold(s, k, pkt).conns) == multiset([pkt.id]) + HeldIds(s.conns)
  {
    var held := s.conns[k].held;
    HeldSplit(s.conns, k);
    HeldUpdate(s.conns, k, s.conns[k].(held := held + [pkt]));
    assert Ids(held + [pkt]) == Ids(held) + [pkt.id];
  }

  lemma SameHeld(m: map<Key, Conn>, k: Key, c: Conn)
    requires k in m && Ids(c.held) == Ids(m[k].held)
    ensures HeldIds(m[k := c]) == HeldIds(m)
  {
    HeldSplit(m, k);
    HeldUpdate(m, k, c);
  }

  lemma ReleaseIds(h: seq<Packet>)
    requires h != []
    ensures Ids(h[|h| - 1 := h[|h| - 1].Released()]) == Ids(h)
  {}

  /** Every other action changes the table without moving a packet. */
  lemma OtherHeldSame(e: Env, s: State, a: Action)
    requires Base(s) && Can(e, s, a) && !a.DoGive? && !a.DoHold? && !a.DoSettle?
    ensures HeldIds(Do(e, s, a).conns) == HeldIds(s.conns)
  {
    hide HeldIds, Ids;
    match a {
      case DoRelease(k) => ReleaseIds(s.conns[k].held); SameHeld(s.conns, k, Release(s, k).conns[k]);
      case DoOpen(k) => OpenHeld(s, k, e.now);
      case DoTouch(k) => SameHeld(s.conns, k, Touch(s, k, e.now).conns[k]);
      case DoLearn(k, token, closed) => SameHeld(s.conns, k, Learn(s, k, token, closed).conns[k]);
      case DoHear(k, chunk) => SameHeld(s.conns, k, Hear(s, k, chunk).conns[k]);
      case DoForget(k) => EmptyRemoved(s.conns, k);
      case DoTurn => if VictimAtNext(s) { EmptyRemoved(s.conns, s.ring[s.next]); }
      case DoClear =>
        forall k | k in s.conns ensures s.conns[k].held == [] { assert !IsWait(s, k) && IsBlock(s, k); }
        NoneHeld(s.conns);
        NoneHeld(map[]);
      case _ =>
    }
  }

  lemma OpenHeld(s: State, k: Key, now: int)
    requires k !in s.conns
    ensures HeldIds(Open(s, k, now).conns) == HeldIds(s.conns)
  {
    HeldUpdate(s.conns, k, Open(s, k, now).conns[k]);
    HeldRemove(s.conns, k);
    assert Ids([]) == [];
  }

  lemma EmptyRemoved(m: map<Key, Conn>, k: Key)
    requires k in m && m[k].held == []
    ensures HeldIds(m - {k}) == HeldIds(m)
  {
    HeldRemove(m, k);
    assert Ids([]) == [];
  }

  lemma Balance(s: State, t: State, fed: seq<nat>, given: seq<nat>)
    requires Conserved(s)
    requires Collect(t.log, ArrivedId) == Collect(s.log, ArrivedId) + fed
    requires Collect(t.log, GivenId) == Collect(s.log, GivenId) + given
    requires multiset(fed) + HeldIds(s.conns) == multiset(given) + HeldIds(t.conns)
    ensures Conserved(t)
  {
    var x, y, h, h' := Collect(s.log, ArrivedId), Collect(s.log, GivenId), HeldIds(s.conns), HeldIds(t.conns);
    hide Collect, HeldIds;
    assert multiset(x + fed) == multiset(x) + multiset(fed);
    assert multiset(y + given) == multiset(y) + multiset(given);
    assert multiset(x) == multiset(y) + h;
    assert multiset(x) + multiset(fed) == multiset(y) + (multiset(fed) + h);
    assert multiset(y) + (multiset(given) + h') == multiset(y) + multiset(given) + h';
  }

  lemma DoConserves(e: Env, s: State, a: Action)
    requires Base(s) && Can(e, s, a) && Conserved(s)
    ensures Conserved(Do(e, s, a))
  {
    hide Collect, HeldIds, NotesOf, Settle, Conserved;
    Reads(e, s, a, ArrivedId);
    Reads(e, s, a, GivenId);
    var fed, given := Collect(NotesOf(e, s, a), ArrivedId), Collect(NotesOf(e, s, a), GivenId);
    if a.DoGive? {
      GiveReads(e, s, a, 0);
    } else if a.DoHold? {
      HoldReads(e, s, a, a.k);
      HoldHeld(s, a.k, a.pkt);
    } else if a.DoSettle? {
      SettleReads(e, s, a, a.k);
      SettleHeld(s, e.policy, a.k, a.host);
    } else {
      OtherNotes(e, s, a, ArrivedId);
      OtherNotes(e, s, a, GivenId);
      OtherHeldSame(e, s, a);
    }
    Balance(s, Do(e, s, a), fed, given);
  }

  // ---------------------------------------------------------------- order within a flow

  /** The payload packets of a flow leave in the order they came; those held are the latest. */
  ghost predicate InOrder(s: State, k: Key) {
    Collect(s.log, FedOf(k)) == Collect(s.log, AnsweredOf(k)) + Ids(HeldOf(s, k))
  }

  /** What each action does to the packets held for a flow. */
  lemma HeldAfter(e: Env, s: State, a: Action, k: Key)
    requires Base(s) && Can(e, s, a)
    ensures Ids(HeldOf(Do(e, s, a), k)) ==
      if a.DoHold? && a.k == k then Ids(HeldOf(s, k)) + [a.pkt.id]
      else if a.DoSettle? && a.k == k then []
      else Ids(HeldOf(s, k))
  {
    hide Settle, Answer, TurnSlot, Give;
    match a {
      case DoHold(j, pkt) => if j == k { assert HeldOf(Do(e, s, a), k) == HeldOf(s, k) + [pkt]; }
      case DoSettle(j, host) => HeldSettled(s, e.policy, j, host, k);
      case DoTurn => HeldTurned(s, k);
      case DoRelease(j) => assert |HeldOf(Do(e, s, a), k)| == |HeldOf(s, k)|;
      case DoClear => assert !IsWait(s, k) && HeldOf(s, k) == [];
      case DoGive(key, payload, pkt, v) => HeldGiven(s, key, payload, pkt, v, k);
      case _ => assert HeldOf(Do(e, s, a), k) == HeldOf(s, k);
    }
  }

  lemma HeldSettled(s: State, policy: Policy, j: Key, host: Option<Bytes>, k: Key)
    requires Base(s) && IsWait(s, j)
    ensures HeldOf(Settle(s, policy, j, host), k) == if j == k then [] else HeldOf(s, k)
  {
    hide GivenNotes, Verdicts;
  }

  lemma HeldTurned(s: State, k: Key)
    requires Base(s)
    ensures HeldOf(TurnSlot(s), k) == HeldOf(s, k)
  {}

  lemma HeldGiven(s: State, key: Option<Key>, payload: bool, pkt: Packet, v: Verdict, k: Key)
    ensures HeldOf(Give(s, key, payload, pkt, v), k) == HeldOf(s, k)
  {}

  lemma DoInOrder(e: Env, s: State, a: Action, k: Key)
    requires Base(s) && Can(e, s, a) && InOrder(s, k)
    ensures InOrder(Do(e, s, a), k)
  {
    hide Collect, NotesOf, Settle, Ids;
    HeldAfter(e, s, a, k);
    Reads(e, s, a, FedOf(k));
    Reads(e, s, a, AnsweredOf(k));
    assert a.DoGive? && a.key == Some(k) && a.payload ==> Ids(HeldOf(s, k)) == [] by { NoIds(); }
    if a.DoGive? { GiveReads(e, s, a, k); }
    else if a.DoHold? { HoldReads(e, s, a, k); }
    else if a.DoSettle? { SettleReads(e, s, a, k); }
    else {
      OtherNotes(e, s, a, FedOf(k));
      OtherNotes(e, s, a, AnsweredOf(k));
    }
  }

  lemma NoIds()
    ensures Ids([]) == []
  {}

  // ---------------------------------------------------------------- over whole runs

  ghost predicate Accounted(s: State) {
    Base(s) && Conserved(s) && forall k :: InOrder(s, k)
  }

  lemma {:induction false} PathAccounted(e: Env, s: State, acts: seq<Action>, t: State)
    requires Accounted(s) && Path(e, s, acts, t)
    ensures Accounted(t)
    decreases |acts|
  {
    if acts != [] {
      var u := Do(e, s, acts[0]);
      DoBase(e, s, acts[0]);
      DoConserves(e, s, acts[0]);
      forall k ensures InOrder(u, k) { DoInOrder(e, s, acts[0], k); }
      PathAccounted(e, u, acts[1..], t);
    }
  }

  lemma StepAccounted(s: State, maxFlows: nat, policy: Policy, op: Op)
    requires Quiet(s, None) && Accounted(s) && OpOk(s, op)
    ensures Accounted(Step(s, maxFlows, policy, op))
  {
    StepReaches(s, maxFlows, policy, op);
    var t := Step(s, maxFlows, policy, op);
    if !op.OpDrain? {
      var acts :| Path(EnvOf(maxFlows, policy, op), s, acts, t);
      PathAccounted(EnvOf(maxFlows, policy, op), s, acts, t);
    } else {
      assert forall k :: InOrder(s, k) ==> InOrder(t, k);
    }
  }

  /**
   In every run, every packet fed is answered or held, exactly as often as it was fed, and every flow's
   payload packets are answered in the order they were fed.
   */
  lemma RunAccounted(s: State, maxFlows: nat, policy: Policy, ops: seq<Op>)
    requires Quiet(s, None) && Accounted(s) && RunOk(s, maxFlows, policy, ops)
    ensures var t := Run(s, maxFlows, policy, ops);
            && Accounted(t)
            && multiset(Collect(s.log, ArrivedId) + FedIds(ops)) == multiset(Collect(t.log, GivenId)) + HeldIds(t.conns)
            && forall k :: Collect(s.log, FedOf(k)) + FedTo(ops, k) == Collect(t.log, AnsweredOf(k)) + Ids(HeldOf(t, k))
  {
    assert Ok(s);
    hide Collect, Run, HeldIds, Ids, HeldOf, Base, Quiet;
    var t := Run(s, maxFlows, policy, ops);
    RunStaysAccounted(s, maxFlows, policy, ops);
    RunArrives(s, maxFlows, policy, ops);
    forall k ensures Collect(s.log, FedOf(k)) + FedTo(ops, k) == Collect(t.log, AnsweredOf(k)) + Ids(HeldOf(t, k)) {
      RunArrivesTo(s, maxFlows, policy, ops, k);
      assert InOrder(t, k);
    }
  }

  lemma {:induction false} RunStaysAccounted(s: State, maxFlows: nat, policy: Policy, ops: seq<Op>)
    requires Quiet(s, None) && Accounted(s) && RunOk(s, maxFlows, policy, ops)
    ensures Ok(s) && Accounted(Run(s, maxFlows, policy, ops))
    decreases |ops|
  {
    if ops != [] {
      StepReaches(s, maxFlows, policy, ops[0]);
      StepAccounted(s, maxFlows, policy, ops[0]);
      RunStaysAccounted(Step(s, maxFlows, policy, ops[0]), maxFlows, policy, ops[1..]);
    }
  }

  lemma InitAccounted(maxFlows: nat, maxBlocked: nat)
    ensures Quiet(Init(maxFlows, maxBlocked), None) && Accounted(Init(maxFlows, maxBlocked))
  {
    var s := Init(maxFlows, maxBlocked);
    assert Ids([]) == [];
    forall k ensures InOrder(s, k) { }
  }

  /** A run that ends in a flush leaves nothing held: everything fed has been answered, exactly as often as fed, in order. */
  lemma FlushAnswersAll(s: State, maxFlows: nat, policy: Policy, ops: seq<Op>, order: seq<Key>)
    requires Quiet(s, None) && Accounted(s) && RunOk(s, maxFlows, policy, ops + [OpFlush(order)])
    ensures var t := Run(s, maxFlows, policy, ops + [OpFlush(order)]);
            && t.conns == map[]
            && multiset(Collect(s.log, ArrivedId) + FedIds(ops)) == multiset(Collect(t.log, GivenId))
            && forall k :: Collect(s.log, FedOf(k)) + FedTo(ops, k) == Collect(t.log, AnsweredOf(k))
  {
    hide Collect, Run, RunOk, HeldIds, HeldOf, Accounted;
    var t := Run(s, maxFlows, policy, ops + [OpFlush(order)]);
    RunThen(s, maxFlows, policy, ops, OpFlush(order));
    RunAccounted(s, maxFlows, policy, ops + [OpFlush(order)]);
    FlushFeedsNothing(ops, order);
    NoneHeld(t.conns);
    forall k ensures Ids(HeldOf(t, k)) == [] { NoneOf(t, k); }
  }

  lemma NoneOf(s: State, k: Key)
    requires s.conns == map[]
    ensures Ids(HeldOf(s, k)) == []
  {}
}
