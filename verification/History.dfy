/** Reading the log: what was fed and what was answered, as sequences, and what each action writes. */
module History {
  import opened Wire
  import opened Packets
  import opened FlowTable
  import opened FlowActions

  function Pick<T>(n: Note, f: Note -> Option<T>): seq<T> { match f(n) case Some(x) => [x] case None => [] }

  function Collect<T>(log: seq<Note>, f: Note -> Option<T>): seq<T> {
    if log == [] then [] else Pick(log[0], f) + Collect(log[1..], f)
  }

  lemma {:induction false} CollectConcat<T>(a: seq<Note>, b: seq<Note>, f: Note -> Option<T>)
    ensures Collect(a + b, f) == Collect(a, f) + Collect(b, f)
  {
    if a == [] {
      assert a + b == b;
    } else {
      hide Pick;
      assert (a + b)[0] == a[0] && (a + b)[1..] == a[1..] + b;
      CollectConcat(a[1..], b, f);
      var x, y, z := Pick(a[0], f), Collect(a[1..], f), Collect(b, f);
      assert Collect(a + b, f) == x + (y + z);
      assert x + (y + z) == x + y + z;
    }
  }

  lemma {:induction false} CollectNothing<T>(log: seq<Note>, f: Note -> Option<T>)
    requires forall i :: 0 <= i < |log| ==> f(log[i]).None?
    ensures Collect(log, f) == []
  {
    if log != [] { CollectNothing(log[1..], f); }
  }

  lemma CollectOne<T>(n: Note, f: Note -> Option<T>)
    ensures Collect([n], f) == Pick(n, f)
  {
    assert [n][1..] == [];
  }

  lemma CollectTwo<T>(m: Note, n: Note, f: Note -> Option<T>)
    ensures Collect([m, n], f) == Collect([m], f) + Collect([n], f)
  {
    assert [m, n] == [m] + [n];
    CollectConcat([m], [n], f);
  }

  // ---------------------------------------------------------------- the readings

  const ArrivedId: Note -> Option<nat> := (n: Note) => if n.Arrived? then Some(n.id) else None
  const GivenId: Note -> Option<nat> := (n: Note) => if n.Given? then Some(n.id) else None
  const Answered: Note -> Option<(nat, Verdict)> := (n: Note) => if n.Given? then Some((n.id, n.verdict)) else None

  /** Payload-carrying packets of one flow, as they were fed and as they were answered. */
  function FedOf(k: Key): Note -> Option<nat> {
    (n: Note) => if n.Arrived? && n.key == Some(k) && n.payload then Some(n.id) else None
  }

  function AnsweredOf(k: Key): Note -> Option<nat> {
    (n: Note) => if n.Given? && n.key == Some(k) && n.payload then Some(n.id) else None
  }

  function Ids(held: seq<Packet>): seq<nat> { seq(|held|, i requires 0 <= i < |held| => held[i].id) }

  function Summary(decided: seq<Decided>): seq<(nat, Verdict)> {
    seq(|decided|, i requires 0 <= i < |decided| => (decided[i].pkt.id, decided[i].verdict))
  }

  function AnsweredIds(issued: seq<(nat, Verdict)>): seq<nat> {
    seq(|issued|, i requires 0 <= i < |issued| => issued[i].0)
  }

  lemma {:induction false} AnsweredGiven(log: seq<Note>)
    ensures AnsweredIds(Collect(log, Answered)) == Collect(log, GivenId)
    decreases |log|
  {
    if log != [] {
      AnsweredGiven(log[1..]);
      var rest := Collect(log[1..], Answered);
      assert AnsweredIds(Pick(log[0], Answered) + rest) == AnsweredIds(Pick(log[0], Answered)) + AnsweredIds(rest);
      assert AnsweredIds(Pick(log[0], Answered)) == Pick(log[0], GivenId);
    }
  }

  // ---------------------------------------------------------------- what each action writes

  function DisplacedNotes(s: State, policy: Policy, k: Key, host: Option<Bytes>): seq<Note>
    requires Ok(s)
  {
    var victim := s.ring[s.next];
    if policy(host) == BLOCK && victim != 0 && victim != k && IsBlock(s, victim) then [Gone(victim, Displaced)] else []
  }

  ghost function NotesOf(e: Env, s: State, a: Action): seq<Note>
    requires Ok(s) && Can(e, s, a)
  {
    match a
    case DoGive(key, payload, pkt, v) => [Arrived(pkt.id, key, payload), Given(pkt.id, key, payload, v)]
    case DoHold(k, pkt) => [Arrived(pkt.id, Some(k), true)]
    case DoOpen(k) => [Opened(k)]
    case DoHear(k, chunk) => [Heard(k, chunk)]
    case DoSettle(k, host) =>
      [Asked(k, host, s.conns[k].stream, e.policy(host))] + DisplacedNotes(s, e.policy, k, host)
      + GivenNotes(s.conns[k].held, k, e.policy(host))
    case DoForget(k) => [Gone(k, Idle)]
    case DoTurn => [SlotCleared] + if VictimAtNext(s) then [Gone(s.ring[s.next], Turned)] else []
    case DoClear => [Cleared]
    case _ => []
  }

  lemma DoLogs(e: Env, s: State, a: Action)
    requires Ok(s) && Can(e, s, a)
    ensures Do(e, s, a).log == s.log + NotesOf(e, s, a)
  {
    hide GivenNotes, Verdicts, Answer;
    if a.DoSettle? { SettleLogs(e, s, a.k, a.host); }
    hide Settle;
  }

  lemma SettleLogs(e: Env, s: State, k: Key, host: Option<Bytes>)
    requires Ok(s) && Can(e, s, DoSettle(k, host))
    ensures Settle(s, e.policy, k, host).log == s.log + NotesOf(e, s, DoSettle(k, host))
  {
    hide GivenNotes, Verdicts, Answer;
  }

  lemma Reads<T>(e: Env, s: State, a: Action, f: Note -> Option<T>)
    requires Ok(s) && Can(e, s, a)
    ensures Collect(Do(e, s, a).log, f) == Collect(s.log, f) + Collect(NotesOf(e, s, a), f)
  {
    DoLogs(e, s, a);
    CollectConcat(s.log, NotesOf(e, s, a), f);
  }

  lemma GiveReads(e: Env, s: State, a: Action, k: Key)
    requires Ok(s) && Can(e, s, a) && a.DoGive?
    ensures Collect(NotesOf(e, s, a), ArrivedId) == [a.pkt.id] == Collect(NotesOf(e, s, a), GivenId)
    ensures Collect(NotesOf(e, s, a), FedOf(k)) == Collect(NotesOf(e, s, a), AnsweredOf(k))
         == if a.key == Some(k) && a.payload then [a.pkt.id] else []
  {
    var m, n := Arrived(a.pkt.id, a.key, a.payload), Given(a.pkt.id, a.key, a.payload, a.verdict);
    CollectTwo(m, n, ArrivedId); CollectOne(m, ArrivedId); CollectOne(n, ArrivedId);
    CollectTwo(m, n, GivenId); CollectOne(m, GivenId); CollectOne(n, GivenId);
    CollectTwo(m, n, FedOf(k)); CollectOne(m, FedOf(k)); CollectOne(n, FedOf(k));
    CollectTwo(m, n, AnsweredOf(k)); CollectOne(m, AnsweredOf(k)); CollectOne(n, AnsweredOf(k));
  }

  lemma HoldReads(e: Env, s: State, a: Action, k: Key)
    requires Ok(s) && Can(e, s, a) && a.DoHold?
    ensures Collect(NotesOf(e, s, a), ArrivedId) == [a.pkt.id] && Collect(NotesOf(e, s, a), GivenId) == []
    ensures Collect(NotesOf(e, s, a), FedOf(k)) == (if a.k == k then [a.pkt.id] else [])
    ensures Collect(NotesOf(e, s, a), AnsweredOf(k)) == []
  {
    var n := Arrived(a.pkt.id, Some(a.k), true);
    CollectOne(n, ArrivedId); CollectOne(n, GivenId); CollectOne(n, FedOf(k)); CollectOne(n, AnsweredOf(k));
  }

  lemma SettleReads(e: Env, s: State, a: Action, k: Key)
    requires Ok(s) && Can(e, s, a) && a.DoSettle?
    ensures var ids := Ids(s.conns[a.k].held); var notes := NotesOf(e, s, a);
            && Collect(notes, ArrivedId) == [] && Collect(notes, GivenId) == ids
            && Collect(notes, FedOf(k)) == [] && Collect(notes, AnsweredOf(k)) == if a.k == k then ids else []
  {
    var held, v := s.conns[a.k].held, e.policy(a.host);
    SettleNotes(e, s, a.k, a.host, ArrivedId);
    SettleNotes(e, s, a.k, a.host, GivenId);
    SettleNotes(e, s, a.k, a.host, FedOf(k));
    SettleNotes(e, s, a.k, a.host, AnsweredOf(k));
    AnsweredHeld(held, a.k, v);
    NothingArrives(held, a.k, v);
    if k != a.k { OtherHeld(held, a.k, k, v); }
  }

  // ---------------------------------------------------------------- the decided buffer says what the log says

  lemma {:induction false} AnsweredHeld(held: seq<Packet>, k: Key, v: Verdict)
    ensures Collect(GivenNotes(held, k, v), Answered) == Summary(Verdicts(held, v))
    ensures Collect(GivenNotes(held, k, v), GivenId) == Ids(held)
    ensures Collect(GivenNotes(held, k, v), AnsweredOf(k)) == Ids(held)
    decreases |held|
  {
    if held != [] {
      AnsweredHeld(held[1..], k, v);
      assert GivenNotes(held, k, v)[1..] == GivenNotes(held[1..], k, v);
      assert Summary(Verdicts(held, v)) == [(held[0].id, v)] + Summary(Verdicts(held[1..], v));
      assert Ids(held) == [held[0].id] + Ids(held[1..]);
    }
  }

  lemma OtherHeld(held: seq<Packet>, j: Key, k: Key, v: Verdict)
    requires j != k
    ensures Collect(GivenNotes(held, j, v), AnsweredOf(k)) == []
    ensures Collect(GivenNotes(held, j, v), FedOf(k)) == []
  {
    CollectNothing(GivenNotes(held, j, v), AnsweredOf(k));
    CollectNothing(GivenNotes(held, j, v), FedOf(k));
  }

  lemma NothingArrives(held: seq<Packet>, k: Key, v: Verdict)
    ensures Collect(GivenNotes(held, k, v), ArrivedId) == []
    ensures Collect(GivenNotes(held, k, v), FedOf(k)) == []
  {
    CollectNothing(GivenNotes(held, k, v), ArrivedId);
    CollectNothing(GivenNotes(held, k, v), FedOf(k));
  }

  /** A settled flow contributes exactly its held packets to any reading that ignores the asking. */
  lemma SettleNotes<T>(e: Env, s: State, k: Key, host: Option<Bytes>, f: Note -> Option<T>)
    requires Ok(s) && Can(e, s, DoSettle(k, host))
    requires forall n: Note :: n.Asked? || n.Gone? ==> f(n).None?
    ensures Collect(NotesOf(e, s, DoSettle(k, host)), f) == Collect(GivenNotes(s.conns[k].held, k, e.policy(host)), f)
  {
    var asked := [Asked(k, host, s.conns[k].stream, e.policy(host))];
    var gone := DisplacedNotes(s, e.policy, k, host);
    var given := GivenNotes(s.conns[k].held, k, e.policy(host));
    CollectConcat(asked + gone, given, f);
    CollectConcat(asked, gone, f);
    CollectNothing(asked, f);
    CollectNothing(gone, f);
  }

  /** Whatever else an action writes, a reading that knows only arrivals and answers does not see it. */
  lemma OtherNotes<T>(e: Env, s: State, a: Action, f: Note -> Option<T>)
    requires Ok(s) && Can(e, s, a) && !a.DoGive? && !a.DoHold? && !a.DoSettle?
    requires forall n: Note :: !n.Arrived? && !n.Given? ==> f(n).None?
    ensures Collect(NotesOf(e, s, a), f) == []
  {
    CollectNothing(NotesOf(e, s, a), f);
  }

  lemma DoDecides(e: Env, s: State, a: Action)
    requires Ok(s) && Can(e, s, a)
    ensures s.decided <= Do(e, s, a).decided
    ensures Summary(Do(e, s, a).decided[|s.decided|..]) == Collect(NotesOf(e, s, a), Answered)
  {
    match a {
      case DoGive(key, payload, pkt, v) =>
        CollectTwo(Arrived(pkt.id, key, payload), Given(pkt.id, key, payload, v), Answered);
        CollectOne(Arrived(pkt.id, key, payload), Answered);
        CollectOne(Given(pkt.id, key, payload, v), Answered);
      case DoHold(k, pkt) => CollectOne(Arrived(pkt.id, Some(k), true), Answered);
      case DoSettle(k, host) =>
        SettleNotes(e, s, k, host, Answered);
        AnsweredHeld(s.conns[k].held, k, e.policy(host));
        assert Do(e, s, a).decided[|s.decided|..] == Verdicts(s.conns[k].held, e.policy(host));
      case _ => OtherNotes(e, s, a, Answered);
    }
  }

  /** Along any path the buffer grows by exactly the answers the log gains. */
  ghost predicate Tells(s: State, t: State) {
    && s.log <= t.log && s.decided <= t.decided
    && Summary(t.decided[|s.decided|..]) == Collect(t.log[|s.log|..], Answered)
  }

  lemma SummaryConcat(a: seq<Decided>, b: seq<Decided>)
    ensures Summary(a + b) == Summary(a) + Summary(b)
  {}

  lemma TellsThen(s: State, t: State, u: State)
    requires Tells(s, t) && Tells(t, u)
    ensures Tells(s, u)
  {
    var m, n := t.log[|s.log|..], u.log[|t.log|..];
    var a, b := t.decided[|s.decided|..], u.decided[|t.decided|..];
    assert u.log[|s.log|..] == m + n;
    assert u.decided[|s.decided|..] == a + b;
    CollectConcat(m, n, Answered);
    SummaryConcat(a, b);
    hide Collect, Summary;
  }

  lemma {:induction false} PathTells(e: Env, s: State, acts: seq<Action>, t: State)
    requires Ok(s) && Path(e, s, acts, t)
    ensures Tells(s, t)
    decreases |acts|
  {
    if acts == [] {
      assert Collect<(nat, Verdict)>([], Answered) == [];
    } else {
      var u := Do(e, s, acts[0]);
      DoLogs(e, s, acts[0]);
      DoDecides(e, s, acts[0]);
      assert u.log[|s.log|..] == NotesOf(e, s, acts[0]);
      PathTells(e, u, acts[1..], t);
      TellsThen(s, u, t);
    }
  }

  lemma ReachTells(e: Env, s: State, t: State)
    requires Ok(s) && Reach(e, s, t)
    ensures Tells(s, t)
  {
    var acts :| Path(e, s, acts, t);
    PathTells(e, s, acts, t);
  }

  // ---------------------------------------------------------------- blocked flows hold nothing

  ghost predicate Base(s: State) {
    Ok(s) && forall k :: IsBlock(s, k) ==> s.conns[k].held == []
  }

  lemma DoBase(e: Env, s: State, a: Action)
    requires Base(s) && Can(e, s, a)
    ensures Base(Do(e, s, a))
  {}
}
