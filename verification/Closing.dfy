/**
 Which connections the extractor closes in the reassembler: when a flow is settled, the one whose token its
 callbacks last reported, unless none was reported or the reassembler has already ended it.
 */
module Closing {
  import opened Wire
  import opened Packets
  import opened FlowTable
  import opened FlowActions
  import opened EndToEnd
  import opened Decisions
  import opened Deliveries
  import opened Runs
  import Hostname

  // ---------------------------------------------------------------- one flow's callbacks

  /** The callback reports a token: a connection start or client data. */
  predicate Reports(e: Event) { e.Start? || (e.Data? && e.side == 0) }

  /** The token last reported. */
  function TokenAfter(token: Key, events: seq<Event>): Key
    decreases |events|
  {
    if events == [] then token else TokenAfter(if Reports(events[0]) then events[0].token else token, events[1..])
  }

  lemma OneToken(s: State, policy: Policy, k: Key, e: Event)
    requires Ok(s) && IsWait(s, k) && IsWait(OnEvent(s, policy, k, e), k)
    ensures var t := OnEvent(s, policy, k, e);
            && t.conns[k].token == TokenAfter(s.conns[k].token, [e]) && t.conns[k].closed == s.conns[k].closed
            && t.toClose == s.toClose
  {
    hide Settle, Hostname.Extract;
    assert [e][1..] == [];
    SettledFor(Learn(s, k, s.conns[k].token, true), policy, k, None);
    if e.Data? && e.side == 0 {
      var h := Hear(Learn(s, k, e.token, s.conns[k].closed), k, e.chunk);
      SettledFor(h, policy, k, Answer(h.conns[k].stream));
      SettledFor(h, policy, k, None);
    }
  }

  /** A flow that still waits knows the token last reported, and its connection has not ended. */
  lemma {:induction false} EventsToken(s: State, policy: Policy, k: Key, events: seq<Event>)
    requires Ok(s) && IsWait(s, k) && IsWait(OnEvents(s, policy, k, events), k)
    ensures var t := OnEvents(s, policy, k, events);
            && t.conns[k].token == TokenAfter(s.conns[k].token, events) && t.conns[k].closed == s.conns[k].closed
            && t.toClose == s.toClose
    decreases |events|
  {
    if events != [] {
      var e, rest := events[0], events[1..];
      var t := OnEvent(s, policy, k, e);
      hide OnEvent;
      OnEventsAnswer(t, policy, k, rest);
      OneToken(s, policy, k, e);
      EventsToken(t, policy, k, rest);
      assert [e][1..] == [];
    }
  }

  /** Settling queues the connection's token, if it is known and the connection has not ended. */
  lemma SettleCloses(s: State, policy: Policy, k: Key, host: Option<Bytes>)
    requires Ok(s) && IsWait(s, k)
    ensures var c := s.conns[k];
            Settle(s, policy, k, host).toClose == s.toClose + if c.token != 0 && !c.closed then [c.token] else []
  {
    hide Verdicts, GivenNotes;
    assert s.toClose + [] == s.toClose;
  }

  /** A flow that does not wait closes nothing. */
  lemma {:induction false} NothingToClose(s: State, policy: Policy, k: Key, events: seq<Event>)
    requires Ok(s) && !IsWait(s, k)
    ensures OnEvents(s, policy, k, events).toClose == s.toClose
    decreases |events|
  {
    if events != [] { NothingToClose(OnEvent(s, policy, k, events[0]), policy, k, events[1..]); }
  }

  /** What the callback that settles a flow does: the end closes nothing, client data its own token. */
  ghost predicate ClosedBy(s: State, t: State, e: Event) {
    if e.End? then t.toClose == s.toClose
    else Reports(e) && e.Data? && t.toClose == s.toClose + if e.token != 0 then [e.token] else []
  }

  lemma OneCloses(s: State, policy: Policy, k: Key, e: Event)
    requires Ok(s) && IsWait(s, k) && !s.conns[k].closed && !IsWait(OnEvent(s, policy, k, e), k)
    ensures ClosedBy(s, OnEvent(s, policy, k, e), e)
  {
    hide Settle, Hostname.Extract;
    assert s.toClose + [] == s.toClose;
    match e {
      case Start(_) =>
      case End => SettleCloses(Learn(s, k, s.conns[k].token, true), policy, k, None);
      case Data(side, chunk, token) =>
        if side == 0 {
          var h := Hear(Learn(s, k, token, s.conns[k].closed), k, chunk);
          SettleCloses(h, policy, k, Answer(h.conns[k].stream));
          SettleCloses(h, policy, k, None);
        }
    }
  }

  /**
   When callbacks settle a flow, one of them does it, the `n`th: the first on which the lookup answers, which
   closes the connection it names, or the end of the connection, which leaves nothing to close.
   */
  lemma {:induction false} EventsClose(s: State, policy: Policy, k: Key, events: seq<Event>) returns (n: nat)
    requires Ok(s) && IsWait(s, k) && !s.conns[k].closed && !IsWait(OnEvents(s, policy, k, events), k)
    ensures n < |events| && IsWait(OnEvents(s, policy, k, events[..n]), k)
    ensures ClosedBy(s, OnEvents(s, policy, k, events), events[n])
    decreases |events|
  {
    var e, rest := events[0], events[1..];
    var t := OnEvent(s, policy, k, e);
    if IsWait(t, k) {
      OneToken(s, policy, k, e);
      hide OnEvent;
      var m := EventsClose(t, policy, k, rest);
      n := m + 1;
      assert events[..n][0] == e && events[..n][1..] == rest[..m];
    } else {
      n := 0;
      OneCloses(s, policy, k, e);
      NothingToClose(t, policy, k, rest);
      assert events[..0] == [];
    }
  }

  // ---------------------------------------------------------------- sweep and flush

  /** The tokens of the connections to close among some waiting flows, in order. */
  function TokensOf(conns: map<Key, Conn>, keys: seq<Key>): seq<Key> {
    if keys == [] then []
    else
      (if keys[0] in conns && conns[keys[0]].mode == Wait && conns[keys[0]].token != 0 && !conns[keys[0]].closed
       then [conns[keys[0]].token] else []) + TokensOf(conns, keys[1..])
  }

  predicate Distinct(keys: seq<Key>) { forall i, j :: 0 <= i < j < |keys| ==> keys[i] != keys[j] }

  lemma {:induction false} SameTokens(a: map<Key, Conn>, b: map<Key, Conn>, keys: seq<Key>)
    requires forall k :: k in keys ==> (k in a && a[k].mode == Wait <==> k in b && b[k].mode == Wait)
    requires forall k :: k in keys && k in a && a[k].mode == Wait ==> b[k] == a[k]
    ensures TokensOf(a, keys) == TokensOf(b, keys)
    decreases |keys|
  {
    if keys != [] { SameTokens(a, b, keys[1..]); }
  }

  lemma ResolveCloses(s: State, policy: Policy, j: Key)
    requires Ok(s)
    ensures var t := Resolve(s, policy, j, None);
            && t.toClose == s.toClose + TokensOf(s.conns, [j])
            && forall k :: k != j ==> (IsWait(t, k) <==> IsWait(s, k)) && (IsWait(s, k) ==> t.conns[k] == s.conns[k])
  {
    hide Verdicts, GivenNotes;
    assert [j][1..] == [] && s.toClose + [] == s.toClose;
    if IsWait(s, j) { SettleCloses(s, policy, j, None); }
  }

  /** A sweep closes exactly the connections of the waiting flows it drops, each once. */
  lemma {:induction false} ExpireAllCloses(s: State, policy: Policy, keys: seq<Key>)
    requires Ok(s) && Distinct(keys)
    ensures ExpireAll(s, policy, keys).toClose == s.toClose + TokensOf(s.conns, keys)
    decreases |keys|
  {
    if keys == [] {
      assert s.toClose + [] == s.toClose;
    } else {
      var j, rest := keys[0], keys[1..];
      var t := Expire(s, policy, j);
      ResolveCloses(s, policy, j);
      assert [j][1..] == [];
      assert forall k :: k in rest ==> k != j;
      hide Resolve;
      SameTokens(s.conns, t.conns, rest);
      ExpireAllCloses(t, policy, rest);
      TokensFirst(s, t, j, rest);
    }
  }

  lemma TokensFirst(s: State, t: State, j: Key, rest: seq<Key>)
    requires t.toClose == s.toClose + TokensOf(s.conns, [j])
    ensures t.toClose + TokensOf(s.conns, rest) == s.toClose + TokensOf(s.conns, [j] + rest)
  {
    assert [j][1..] == [] && ([j] + rest)[1..] == rest;
    Joined(s.toClose, TokensOf(s.conns, [j]), TokensOf(s.conns, rest));
  }

  /** A flush closes exactly the connections of the flows still waiting, each once. */
  lemma {:induction false} ResolveAllCloses(s: State, policy: Policy, keys: seq<Key>)
    requires Ok(s) && Distinct(keys)
    ensures ResolveAll(s, policy, keys).toClose == s.toClose + TokensOf(s.conns, keys)
    decreases |keys|
  {
    if keys == [] {
      assert s.toClose + [] == s.toClose;
    } else {
      var j, rest := keys[0], keys[1..];
      var t := Resolve(s, policy, j, None);
      ResolveCloses(s, policy, j);
      assert forall k :: k in rest ==> k != j;
      hide Resolve;
      SameTokens(s.conns, t.conns, rest);
      ResolveAllCloses(t, policy, rest);
      TokensFirst(s, t, j, rest);
      assert [j] + rest == keys;
    }
  }
}
