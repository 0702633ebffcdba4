/**
 Why a packet was blocked. The log is read as one small automaton per flow (free, waiting on a stream,
 blocked for a host); every run writes only logs that this automaton accepts, and from that follows
 where each BLOCK comes from, that the policy is asked once per tracked flow, and what it is asked.
 */
module Provenance {
  import opened Wire
  import opened Packets
  import opened FlowTable
  import opened FlowActions
  import opened History

  /** A flow as the log alone tells it. */
  datatype Phase = Free | Waits(stream: Bytes) | Blocked(host: Option<Bytes>)

  function After(p: Phase, k: Key, n: Note): Phase {
    match n
    case Opened(j) => if j == k then Waits([]) else p
    case Heard(j, chunk) => if j == k && p.Waits? then Waits(p.stream + chunk) else p
    case Asked(j, host, _, v) => if j != k then p else if v == BLOCK then Blocked(host) else Free
    case Gone(j, _) => if j == k then Free else p
    case Cleared => Free
    case _ => p
  }

  function PhaseOf(log: seq<Note>, k: Key): Phase
    decreases |log|
  {
    if log == [] then Free else After(PhaseOf(log[..|log| - 1], k), k, log[|log| - 1])
  }

  /** What may be written of a flow in a given phase. */
  ghost predicate Allowed(policy: Policy, log: seq<Note>, n: Note) {
    match n
    case Opened(k) => PhaseOf(log, k).Free?
    case Heard(k, _) => PhaseOf(log, k).Waits?
    case Asked(k, host, stream, v) => PhaseOf(log, k) == Waits(stream) && host == Answer(stream) && v == policy(host)
    case Gone(k, _) => PhaseOf(log, k).Blocked?
    case Cleared => forall k :: !PhaseOf(log, k).Waits?
    case Given(_, key, payload, v) =>
      && (v == BLOCK ==> key.Some? && PhaseOf(log, key.value).Blocked?)
      && (payload && key.Some? && PhaseOf(log, key.value).Blocked? ==> v == BLOCK)
    case _ => true
  }

  ghost predicate Legal(policy: Policy, log: seq<Note>)
    decreases |log|
  {
    log == [] || (Legal(policy, log[..|log| - 1]) && Allowed(policy, log[..|log| - 1], log[|log| - 1]))
  }

  lemma Append(policy: Policy, log: seq<Note>, n: Note, k: Key)
    ensures PhaseOf(log + [n], k) == After(PhaseOf(log, k), k, n)
    ensures Legal(policy, log + [n]) <==> Legal(policy, log) && Allowed(policy, log, n)
  {
    assert (log + [n])[..|log|] == log;
  }

  // ---------------------------------------------------------------- the table agrees with its log

  function PhaseInTable(s: State, k: Key, p: Phase): bool {
    if k !in s.conns then p.Free?
    else if s.conns[k].mode == Wait then p == Waits(s.conns[k].stream)
    else p.Blocked?
  }

  ghost predicate Agrees(s: State, policy: Policy) {
    Legal(policy, s.log) && forall k :: PhaseInTable(s, k, PhaseOf(s.log, k))
  }

  /** Writing one note and changing the table to match. */
  lemma OneNote(s: State, t: State, policy: Policy, n: Note)
    requires Agrees(s, policy) && t.log == s.log + [n] && Allowed(policy, s.log, n)
    requires forall k :: PhaseInTable(t, k, After(PhaseOf(s.log, k), k, n))
    ensures Agrees(t, policy)
  {
    forall k ensures PhaseInTable(t, k, PhaseOf(t.log, k)) { Append(policy, s.log, n, k); }
    Append(policy, s.log, n, 0);
  }

  /** A change that neither writes nor moves a flow between phases. */
  lemma NoNote(s: State, t: State, policy: Policy)
    requires Agrees(s, policy) && t.log == s.log && t.conns.Keys == s.conns.Keys
    requires forall k :: k in s.conns ==> t.conns[k].mode == s.conns[k].mode && t.conns[k].stream == s.conns[k].stream
    ensures Agrees(t, policy)
  {
    forall k ensures PhaseInTable(t, k, PhaseOf(t.log, k)) {
      assert PhaseInTable(s, k, PhaseOf(s.log, k));
    }
  }

  lemma RememberAgrees(s: State, policy: Policy, k: Key)
    requires Ok(s) && Agrees(s, policy)
    ensures Agrees(RememberBlocked(s, k), policy)
  {
    var victim := s.ring[s.next];
    if victim != 0 && victim != k && IsBlock(s, victim) {
      ForgetAgrees(s, policy, victim, Displaced);
      NoNote(Forget(s, victim, Displaced), RememberBlocked(s, k), policy);
    } else {
      NoNote(s, RememberBlocked(s, k), policy);
    }
  }

  lemma ForgetAgrees(s: State, policy: Policy, k: Key, why: Reason)
    requires Agrees(s, policy) && IsBlock(s, k)
    ensures Agrees(Forget(s, k, why), policy)
  {
    assert PhaseInTable(s, k, PhaseOf(s.log, k));
    OneNote(s, Forget(s, k, why), policy, Gone(k, why));
  }

  /** Handing out the verdict to held packets moves no flow. */
  lemma {:induction false} GivenAgrees(s: State, policy: Policy, held: seq<Packet>, k: Key, v: Verdict)
    requires Agrees(s, policy) && (v == BLOCK <==> IsBlock(s, k))
    ensures Agrees(Noted(s, GivenNotes(held, k, v)), policy)
    decreases |held|
  {
    var notes := GivenNotes(held, k, v);
    if held == [] {
      assert s.log + notes == s.log;
    } else {
      var init := held[..|held| - 1];
      GivenAgrees(s, policy, init, k, v);
      var t := Noted(s, GivenNotes(init, k, v));
      var n := Given(held[|init|].id, Some(k), true, v);
      assert notes == GivenNotes(init, k, v) + [n];
      assert Noted(s, notes).log == t.log + [n];
      assert PhaseInTable(t, k, PhaseOf(t.log, k));
      OneNote(t, Noted(s, notes), policy, n);
    }
  }

  lemma AskBlocks(s: State, policy: Policy, k: Key, host: Option<Bytes>, c: Conn)
    requires Ok(s) && Agrees(s, policy) && IsWait(s, k) && host == Answer(s.conns[k].stream) && policy(host) == BLOCK
    requires c.mode == Block
    ensures Agrees(Noted(s.(conns := s.conns[k := c]), [Asked(k, host, s.conns[k].stream, BLOCK)]), policy)
  {
    assert PhaseInTable(s, k, PhaseOf(s.log, k));
    var n := Asked(k, host, s.conns[k].stream, BLOCK);
    var t := Noted(s.(conns := s.conns[k := c]), [n]);
    forall j ensures PhaseInTable(t, j, After(PhaseOf(s.log, j), j, n)) { assert PhaseInTable(s, j, PhaseOf(s.log, j)); }
    OneNote(s, t, policy, n);
  }

  lemma AskAllows(s: State, policy: Policy, k: Key, host: Option<Bytes>)
    requires Ok(s) && Agrees(s, policy) && IsWait(s, k) && host == Answer(s.conns[k].stream) && policy(host) == ALLOW
    ensures Agrees(Noted(s.(conns := s.conns - {k}), [Asked(k, host, s.conns[k].stream, ALLOW)]), policy)
  {
    assert PhaseInTable(s, k, PhaseOf(s.log, k));
    var n := Asked(k, host, s.conns[k].stream, ALLOW);
    var t := Noted(s.(conns := s.conns - {k}), [n]);
    forall j ensures PhaseInTable(t, j, After(PhaseOf(s.log, j), j, n)) { assert PhaseInTable(s, j, PhaseOf(s.log, j)); }
    OneNote(s, t, policy, n);
  }

  lemma RememberKeeps(s: State, k: Key)
    requires Ok(s) && IsBlock(s, k)
    ensures IsBlock(RememberBlocked(s, k), k)
  {}

  /** The bookkeeping after the decision: close the connection, answer what was held. */
  lemma HandOut(s: State, t: State, policy: Policy, held: seq<Packet>, k: Key, v: Verdict)
    requires Agrees(s, policy) && (v == BLOCK <==> IsBlock(s, k))
    requires t.log == s.log + GivenNotes(held, k, v) && t.conns == s.conns
    ensures Agrees(t, policy)
  {
    GivenAgrees(s, policy, held, k, v);
    NoNote(Noted(s, GivenNotes(held, k, v)), t, policy);
  }

  lemma SettleAgrees(s: State, policy: Policy, k: Key, host: Option<Bytes>)
    requires Ok(s) && Agrees(s, policy) && IsWait(s, k) && host == Answer(s.conns[k].stream)
    ensures Agrees(Settle(s, policy, k, host), policy)
  {
    hide Agrees, RememberBlocked, GivenNotes, Verdicts, Answer;
    var c := s.conns[k];
    var n := Asked(k, host, c.stream, policy(host));
    if policy(host) == BLOCK {
      var b := c.(mode := Block, held := [], stream := []);
      AskBlocks(s, policy, k, host, b);
      var u := Noted(s.(conns := s.conns[k := b]), [n]);
      RememberAgrees(u, policy, k);
      RememberKeeps(u, k);
      HandOut(RememberBlocked(u, k), Settle(s, policy, k, host), policy, c.held, k, BLOCK);
    } else {
      AskAllows(s, policy, k, host);
      var u := Noted(s.(conns := s.conns - {k}), [n]);
      HandOut(u, Settle(s, policy, k, host), policy, c.held, k, ALLOW);
    }
  }

  lemma GiveAgrees(e: Env, s: State, a: Action)
    requires Ok(s) && Can(e, s, a) && a.DoGive? && Agrees(s, e.policy) && e.policy(None) == ALLOW
    ensures Agrees(Do(e, s, a), e.policy)
  {
    var m, n := Arrived(a.pkt.id, a.key, a.payload), Given(a.pkt.id, a.key, a.payload, a.verdict);
    var t := Noted(s, [m]);
    OneNote(s, t, e.policy, m);
    var u := Do(e, s, a);
    assert u.log == t.log + [n];
    if a.key.Some? { assert PhaseInTable(t, a.key.value, PhaseOf(t.log, a.key.value)); }
    forall k ensures PhaseInTable(u, k, After(PhaseOf(t.log, k), k, n)) {
      assert PhaseInTable(t, k, PhaseOf(t.log, k));
    }
    OneNote(t, u, e.policy, n);
  }

  lemma TurnAgrees(s: State, policy: Policy)
    requires Ok(s) && Agrees(s, policy)
    ensures Agrees(TurnSlot(s), policy)
  {
    var t := Noted(s.(ring := s.ring[s.next := 0], next := Succ(s.next, |s.ring|)), [SlotCleared]);
    forall k ensures PhaseInTable(t, k, After(PhaseOf(s.log, k), k, SlotCleared)) {
      assert PhaseInTable(s, k, PhaseOf(s.log, k));
    }
    OneNote(s, t, policy, SlotCleared);
    if VictimAtNext(s) { ForgetAgrees(t, policy, s.ring[s.next], Turned); }
  }

  /** The actions that write one note. */
  lemma NoteAgrees(e: Env, s: State, a: Action)
    requires Ok(s) && Can(e, s, a) && Agrees(s, e.policy) && (a.DoHold? || a.DoOpen? || a.DoHear? || a.DoClear?)
    ensures Agrees(Do(e, s, a), e.policy)
  {
    var n := match a
             case DoHold(k, pkt) => Arrived(pkt.id, Some(k), true)
             case DoOpen(k) => Opened(k)
             case DoHear(k, chunk) => Heard(k, chunk)
             case _ => Cleared;
    var t := Do(e, s, a);
    assert t.log == s.log + [n];
    forall k ensures PhaseInTable(t, k, After(PhaseOf(s.log, k), k, n)) && PhaseInTable(s, k, PhaseOf(s.log, k)) {
      assert PhaseInTable(s, k, PhaseOf(s.log, k));
    }
    if a.DoClear? {
      forall k ensures !PhaseOf(s.log, k).Waits? { assert !IsWait(s, k) && PhaseInTable(s, k, PhaseOf(s.log, k)); }
    }
    if a.DoOpen? || a.DoHear? { assert PhaseInTable(s, a.k, PhaseOf(s.log, a.k)); }
    OneNote(s, t, e.policy, n);
  }

  lemma DoAgrees(e: Env, s: State, a: Action)
    requires Ok(s) && Can(e, s, a) && Agrees(s, e.policy) && e.policy(None) == ALLOW
    ensures Agrees(Do(e, s, a), e.policy)
  {
    match a {
      case DoGive(_, _, _, _) => GiveAgrees(e, s, a);
      case DoSettle(k, host) => SettleAgrees(s, e.policy, k, host);
      case DoForget(k) => ForgetAgrees(s, e.policy, k, Idle);
      case DoTurn => TurnAgrees(s, e.policy);
      case DoHold(_, _) => NoteAgrees(e, s, a);
      case DoOpen(_) => NoteAgrees(e, s, a);
      case DoHear(_, _) => NoteAgrees(e, s, a);
      case DoClear => NoteAgrees(e, s, a);
      case _ => NoNote(s, Do(e, s, a), e.policy);
    }
  }

  lemma {:induction false} PathAgrees(e: Env, s: State, acts: seq<Action>, t: State)
    requires Ok(s) && Agrees(s, e.policy) && e.policy(None) == ALLOW && Path(e, s, acts, t)
    ensures Agrees(t, e.policy)
    decreases |acts|
  {
    if acts != [] {
      DoAgrees(e, s, acts[0]);
      PathAgrees(e, Do(e, s, acts[0]), acts[1..], t);
    }
  }

  /** In every run under a policy that lets a missing hostname through, the log is legal. */
  lemma {:induction false} RunAgrees(s: State, maxFlows: nat, policy: Policy, ops: seq<Op>)
    requires Quiet(s, None) && Agrees(s, policy) && policy(None) == ALLOW && RunOk(s, maxFlows, policy, ops)
    ensures Agrees(Run(s, maxFlows, policy, ops), policy)
    decreases |ops|
  {
    if ops != [] {
      StepReaches(s, maxFlows, policy, ops[0]);
      StepAgrees(s, maxFlows, policy, ops[0]);
      RunAgrees(Step(s, maxFlows, policy, ops[0]), maxFlows, policy, ops[1..]);
    }
  }

  lemma StepAgrees(s: State, maxFlows: nat, policy: Policy, op: Op)
    requires Quiet(s, None) && Agrees(s, policy) && policy(None) == ALLOW && OpOk(s, op)
    ensures Agrees(Step(s, maxFlows, policy, op), policy)
  {
    var t := Step(s, maxFlows, policy, op);
    if op.OpDrain? {
      NoNote(s, t, policy);
    } else {
      var e := EnvOf(maxFlows, policy, op);
      StepReaches(s, maxFlows, policy, op);
      var acts :| Path(e, s, acts, t);
      PathAgrees(e, s, acts, t);
    }
  }

  lemma InitAgrees(maxFlows: nat, maxBlocked: nat, policy: Policy)
    ensures Agrees(Init(maxFlows, maxBlocked), policy)
  {}

  // ---------------------------------------------------------------- reading the answer off a legal log

  /** The note concerns the tracking of flow `k`, not just one of its packets or chunks. */
  predicate Moves(n: Note, k: Key) {
    match n
    case Opened(j) => j == k
    case Asked(j, _, _, _) => j == k
    case Gone(j, _) => j == k
    case Cleared => true
    case _ => false
  }

  /** Between notes `from` and `to` nothing opens, decides or ends the tracking of `k`. */
  ghost predicate Still(log: seq<Note>, from: nat, to: nat, k: Key)
    requires to <= |log|
  {
    forall i :: from <= i < to ==> !Moves(log[i], k)
  }

  function HeardIn(log: seq<Note>, k: Key): Bytes
    decreases |log|
  {
    if log == [] then []
    else
      var n := log[|log| - 1];
      HeardIn(log[..|log| - 1], k) + if n.Heard? && n.flow == k then n.chunk else []
  }

  /** A waiting flow was opened, nothing has happened to it since, and its stream is what was heard since. */
  lemma {:induction false} WaitsSince(log: seq<Note>, k: Key) returns (o: nat)
    requires PhaseOf(log, k).Waits?
    ensures o < |log| && log[o] == Opened(k) && Still(log, o + 1, |log|, k)
    ensures PhaseOf(log, k).stream == HeardIn(log[o..], k)
    decreases |log|
  {
    assert log != [];
    var init, n := log[..|log| - 1], log[|log| - 1];
    assert PhaseOf(log, k) == After(PhaseOf(init, k), k, n);
    hide PhaseOf, HeardIn;
    if n == Opened(k) {
      o := |init|;
      HeardOnly(n, k);
      assert log[o..] == [n];
    } else {
      o := WaitsSince(init, k);
      HeardMore(log, o, k);
      assert forall i :: 0 <= i < |init| ==> log[i] == init[i];
    }
  }

  lemma HeardOnly(n: Note, k: Key)
    requires !n.Heard?
    ensures HeardIn([n], k) == []
  {
    assert [n][..0] == [];
  }

  lemma HeardMore(log: seq<Note>, o: nat, k: Key)
    requires o < |log| - 1
    ensures var init, n := log[..|log| - 1], log[|log| - 1];
            HeardIn(log[o..], k) == if n.Heard? && n.flow == k then HeardIn(init[o..], k) + n.chunk else HeardIn(init[o..], k)
  {
    assert log[o..][..|log| - 1 - o] == log[..|log| - 1][o..];
    assert log[o..][|log| - 1 - o] == log[|log| - 1];
    Assoc(HeardIn(log[..|log| - 1][o..], k), [], []);
  }

  lemma {:induction false} BlockedSince(policy: Policy, log: seq<Note>, k: Key) returns (q: nat)
    requires Legal(policy, log) && PhaseOf(log, k).Blocked?
    ensures q < |log| && log[q].Asked? && log[q].flow == k && log[q].verdict == BLOCK && Still(log, q + 1, |log|, k)
    ensures Allowed(policy, log[..q], log[q])
    decreases |log|
  {
    assert log != [];
    var init, n := log[..|log| - 1], log[|log| - 1];
    assert PhaseOf(log, k) == After(PhaseOf(init, k), k, n);
    hide PhaseOf;
    if n.Asked? && n.flow == k {
      q := |init|;
    } else {
      q := BlockedSince(policy, init, k);
      assert log[..q] == init[..q];
      assert forall i :: 0 <= i < |init| ==> log[i] == init[i];
    }
  }

  lemma {:induction false} LegalPrefix(policy: Policy, log: seq<Note>, i: nat)
    requires Legal(policy, log) && i < |log|
    ensures Legal(policy, log[..i]) && Allowed(policy, log[..i], log[i])
    decreases |log|
  {
    var init := log[..|log| - 1];
    if i < |init| {
      LegalPrefix(policy, init, i);
      assert log[..i] == init[..i];
    }
  }

  /**
   Every BLOCK goes back to its own flow: the flow was opened (o), the client bytes heard since make up
   a stream that names a host, the policy asked about exactly that host said BLOCK (q), and nothing has
   ended that entry since.
   */
  lemma BlockProvenance(policy: Policy, log: seq<Note>, i: nat) returns (o: nat, q: nat)
    requires Legal(policy, log) && policy(None) == ALLOW && i < |log| && log[i].Given? && log[i].verdict == BLOCK
    ensures log[i].key.Some? && o < q < i
    ensures var k := log[i].key.value;
            && log[o] == Opened(k) && Still(log, o + 1, q, k)
            && log[q].Asked? && log[q].flow == k && log[q].stream == HeardIn(log[o..q], k)
            && log[q].host.Some? && Hostname.Extract(log[q].stream) == Hostname.Found(log[q].host.value)
            && policy(log[q].host) == BLOCK
            && Still(log, q + 1, i, k)
  {
    LegalPrefix(policy, log, i);
    var before := log[..i];
    var k := log[i].key.value;
    q := BlockedSince(policy, before, k);
    assert before[..q] == log[..q] && before[q] == log[q];
    o := WaitsSince(log[..q], k);
    assert log[..q][o..] == log[o..q] && log[..q][o] == log[o];
    assert forall j :: 0 <= j < q ==> log[..q][j] == log[j];
    assert forall j :: 0 <= j < i ==> before[j] == log[j];
  }

  /** The policy is asked once per tracked flow: between two askings the flow was opened again. */
  lemma AskedOnce(policy: Policy, log: seq<Note>, i: nat, j: nat) returns (o: nat)
    requires Legal(policy, log) && i < j < |log|
    requires log[i].Asked? && log[j].Asked? && log[i].flow == log[j].flow
    ensures i < o < j && log[o] == Opened(log[i].flow)
  {
    var k := log[i].flow;
    LegalPrefix(policy, log, j);
    assert log[..j][i] == log[i] && Moves(log[..j][i], k);
    o := WaitsSince(log[..j], k);
    assert log[..j][o] == log[o];
  }

  /** It is asked about exactly what the client's bytes say: the host they name, or nothing. */
  lemma AskedTruthfully(policy: Policy, log: seq<Note>, q: nat) returns (o: nat)
    requires Legal(policy, log) && q < |log| && log[q].Asked?
    ensures o < q && log[o] == Opened(log[q].flow) && Still(log, o + 1, q, log[q].flow)
    ensures log[q].host == Answer(HeardIn(log[o..q], log[q].flow)) && log[q].verdict == policy(log[q].host)
  {
    LegalPrefix(policy, log, q);
    o := WaitsSince(log[..q], log[q].flow);
    assert log[..q][o..] == log[o..q] && log[..q][o] == log[o];
    assert forall j :: 0 <= j < q ==> log[..q][j] == log[j];
  }

  // ---------------------------------------------------------------- a blocked flow stays black-holed

  /** Whatever arrives for a flow that is blocked when it arrives is blocked, and nothing else happens. */
  lemma BlockedOnArrival(s: State, maxFlows: nat, policy: Policy, pkt: Packet, now: int, order: seq<Key>, events: seq<Event>)
    requires Ok(s) && TcpView(pkt).Some? && IsBlock(Tick(s, policy, now, order), KeyOf(TcpView(pkt).value))
    ensures var s' := Tick(s, policy, now, order); var k := KeyOf(TcpView(pkt).value);
            var t := Feed(s, maxFlows, policy, pkt, now, order, events);
            && t.decided == s'.decided + [Decided(pkt, BLOCK)]
            && t.conns == s'.conns[k := s'.conns[k].(last := now)] && t.ring == s'.ring && t.dropped == s'.dropped
  {}

  /** What callbacks can make of a flow, and what they decide meanwhile: only the packets it was holding. */
  ghost predicate Became(s: State, t: State, k: Key) {
    && (IsBlock(t, k) ==>
          || (IsBlock(s, k) && t.decided == s.decided)
          || (IsWait(s, k) && t.decided == s.decided + Verdicts(s.conns[k].held, BLOCK)))
    && (IsWait(t, k) ==> IsWait(s, k) && t.decided == s.decided && t.conns[k].held == s.conns[k].held)
  }

  lemma SettleBecame(s: State, policy: Policy, k: Key, host: Option<Bytes>)
    requires Ok(s) && IsWait(s, k)
    ensures Became(s, Settle(s, policy, k, host), k)
  {
    hide Verdicts, GivenNotes;
  }

  lemma OnEventBecame(s: State, policy: Policy, k: Key, ev: Event)
    requires Ok(s)
    ensures Became(s, OnEvent(s, policy, k, ev), k)
  {
    hide Settle, Verdicts, Hostname.Extract;
    if IsWait(s, k) {
      match ev {
        case Start(_) =>
        case Data(side, chunk, token) =>
          var t := Hear(Learn(s, k, token, s.conns[k].closed), k, chunk);
          SettleBecame(t, policy, k, Answer(t.conns[k].stream));
          SettleBecame(t, policy, k, None);
        case End => SettleBecame(Learn(s, k, s.conns[k].token, true), policy, k, None);
      }
    }
  }

  lemma {:induction false} OnEventsBecame(s: State, policy: Policy, k: Key, events: seq<Event>)
    requires Ok(s)
    ensures Became(s, OnEvents(s, policy, k, events), k)
    decreases |events|
  {
    if events != [] {
      hide OnEvent, Verdicts;
      OnEventBecame(s, policy, k, events[0]);
      OnEventsBecame(OnEvent(s, policy, k, events[0]), policy, k, events[1..]);
    }
  }

  /** The last entry of the decided buffer. */
  predicate LastIs(t: State, d: Decided) { t.decided != [] && t.decided[|t.decided| - 1] == d }

  /** A packet slips through a flow that blocks it could not: it carries no payload, or it is the 33rd to wait. */
  predicate Slips(s: State, k: Key, f: Dissector.FlowView) {
    !IsBlock(s, k) && (f.payloadLen == 0 || |HeldOf(s, k)| >= 32)
  }

  lemma TrackVerdict(s: State, policy: Policy, k: Key, f: Dissector.FlowView, pkt: Packet, events: seq<Event>)
    requires Ok(s) && IsWait(s, k)
    ensures var t := Track(s, policy, k, f, pkt, events);
            IsBlock(t, k) ==> LastIs(t, Decided(pkt, if Slips(s, k, f) then ALLOW else BLOCK))
    ensures policy(None) == ALLOW && |s.conns[k].held| >= MAX_HELD ==> !IsBlock(Track(s, policy, k, f, pkt, events), k)
  {
    if |s.conns[k].held| < MAX_HELD && f.payloadLen > 0 {
      hide OnEvents;
      OnEventsBecame(Hold(s, k, pkt), policy, k, events);
    } else {
      hide OnEvents;
    }
  }

  lemma PlaceVerdict(s: State, maxFlows: nat, policy: Policy, pkt: Packet, now: int, events: seq<Event>)
    requires Ok(s) && TcpView(pkt).Some?
    ensures var f := TcpView(pkt).value; var k := KeyOf(f);
            var t := Place(s, maxFlows, policy, pkt, now, events);
            && (IsBlock(t, k) ==> LastIs(t, Decided(pkt, if Slips(s, k, f) then ALLOW else BLOCK)))
            && (policy(None) == ALLOW && |HeldOf(s, k)| >= MAX_HELD && !IsBlock(s, k) ==> !IsBlock(t, k))
  {
    hide Track, Evict, TcpView, Opens;
    var f := TcpView(pkt).value;
    var k := KeyOf(f);
    if IsWait(s, k) {
      TrackVerdict(Touch(s, k, now), policy, k, f, pkt, events);
    } else if k !in s.conns {
      var t := MakeRoom(s, maxFlows);
      EvictSpares(s, |s.ring|);
      TrackVerdict(Open(t, k, now), policy, k, f, pkt, events);
    }
  }

  /**
   "Once blocked, every packet of the flow is dropped", exactly: of a flow that is blocked after the feed,
   the packet just fed is allowed if and only if the flow was not blocked when it arrived and the packet
   carries no payload (or, under a policy that blocks a missing hostname, was one too many to hold).
   */
  lemma BlockedFlowVerdictIff(s: State, maxFlows: nat, policy: Policy, pkt: Packet, now: int, order: seq<Key>, events: seq<Event>)
    requires Ok(s) && TcpView(pkt).Some?
    requires IsBlock(Feed(s, maxFlows, policy, pkt, now, order, events), KeyOf(TcpView(pkt).value))
    ensures var s' := Tick(s, policy, now, order); var f := TcpView(pkt).value; var k := KeyOf(f);
            var t := Feed(s, maxFlows, policy, pkt, now, order, events);
            && (LastIs(t, Decided(pkt, ALLOW)) || LastIs(t, Decided(pkt, BLOCK)))
            && (LastIs(t, Decided(pkt, ALLOW)) <==> !IsBlock(s', k) && (f.payloadLen == 0 || |HeldOf(s', k)| >= 32))
            && (policy(None) == ALLOW ==> (LastIs(t, Decided(pkt, ALLOW)) <==> !IsBlock(s', k) && f.payloadLen == 0))
  {
    hide Place, Tick, TcpView;
    PlaceVerdict(Tick(s, policy, now, order), maxFlows, policy, pkt, now, events);
  }

  /**
   The case is real: a bare SYN, FIN or RST that makes the reassembler deliver the rest of the hello is
   itself allowed, although the flow is already blocked by then.
   */
  lemma BareFinSlipsThrough(s: State, policy: Policy, k: Key, f: Dissector.FlowView, pkt: Packet, chunk: Bytes, h: Bytes)
    requires Ok(s) && IsWait(s, k) && |s.conns[k].held| < MAX_HELD
    requires f.payloadLen == 0 && ChangesState(f)
    requires Hostname.Extract(s.conns[k].stream + chunk) == Hostname.Found(h) && policy(Some(h)) == BLOCK
    ensures var t := Track(s, policy, k, f, pkt, [Data(CLIENT_SIDE, chunk, 0)]);
            IsBlock(t, k) && |t.decided| > 0 && t.decided[|t.decided| - 1] == Decided(pkt, ALLOW)
  {
    var ev := Data(CLIENT_SIDE, chunk, 0);
    var t := Hear(Learn(s, k, 0, s.conns[k].closed), k, chunk);
    assert OnEvent(s, policy, k, ev) == Settle(t, policy, k, Some(h));
    assert [ev][1..] == [];
    assert OnEvents(s, policy, k, [ev]) == OnEvents(OnEvent(s, policy, k, ev), policy, k, []);
  }
}
