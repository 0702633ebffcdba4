/** From a client's ClientHello, however it is framed and delivered, to the question put to the policy. */
module EndToEnd {
  import opened Wire
  import opened Packets
  import opened FlowTable
  import opened FlowActions
  import opened Provenance
  import Hostname
  import RT = RecordTheorems
  import Grammar = ClientHelloGrammar

  // ---------------------------------------------------------------- within one flow, callback by callback

  /** The client's chunks among the callbacks, in order. */
  function Chunks(events: seq<Event>): seq<Bytes> {
    if events == [] then []
    else (if events[0].Data? && events[0].side == 0 then [events[0].chunk] else []) + Chunks(events[1..])
  }

  ghost predicate NoEnd(events: seq<Event>) { forall i :: 0 <= i < |events| ==> !events[i].End? }

  /** The flow was put to the policy with exactly this host, or none, and treated as it answered. */
  ghost predicate AskedFor(s: State, t: State, policy: Policy, k: Key, host: Option<Bytes>) {
    && (exists i :: |s.log| <= i < |t.log| && t.log[i].Asked? && t.log[i].flow == k && t.log[i].host == host)
    && (if policy(host) == BLOCK then IsBlock(t, k) else k !in t.conns)
  }

  lemma SettledFor(s: State, policy: Policy, k: Key, host: Option<Bytes>)
    requires Ok(s) && IsWait(s, k)
    ensures AskedFor(s, Settle(s, policy, k, host), policy, k, host)
  {
    var t := Settle(s, policy, k, host);
    assert t.log[|s.log|] == Asked(k, host, s.conns[k].stream, policy(host));
  }

  /** Once decided, the rest of what the reassembler delivers changes nothing. */
  lemma {:induction false} DecidedStays(s: State, t: State, policy: Policy, k: Key, host: Option<Bytes>, events: seq<Event>)
    requires Ok(t) && AskedFor(s, t, policy, k, host)
    ensures AskedFor(s, OnEvents(t, policy, k, events), policy, k, host)
    decreases |events|
  {
    if events != [] {
      var u := OnEvent(t, policy, k, events[0]);
      assert u.log == t.log && u.conns.Keys == t.conns.Keys;
      DecidedStays(s, u, policy, k, host, events[1..]);
    }
  }

  /** The flow goes the way the incremental lookup on its stream says. */
  ghost predicate Follows(s: State, t: State, policy: Policy, k: Key, r: Hostname.Lookup, heard: Bytes) {
    match r
    case NeedMore => IsWait(t, k) && t.conns[k].stream == heard && s.log <= t.log
    case Found(h) => AskedFor(s, t, policy, k, Some(h))
    case NotFound => AskedFor(s, t, policy, k, None)
  }

  /** Callbacks other than client data and the end leave a waiting flow waiting on the same bytes. */
  lemma Unheard(s: State, policy: Policy, k: Key, e: Event)
    requires Ok(s) && IsWait(s, k) && !e.End? && !(e.Data? && e.side == 0)
    ensures var t := OnEvent(s, policy, k, e); Follows(s, t, policy, k, Hostname.NeedMore, s.conns[k].stream)
  {}

  /** One chunk of client data: the lookup's first step. */
  lemma OneChunk(s: State, policy: Policy, k: Key, e: Event)
    requires Ok(s) && IsWait(s, k) && e.Data? && e.side == 0
    ensures var more := s.conns[k].stream + e.chunk;
            Follows(s, OnEvent(s, policy, k, e), policy, k, Hostname.Incremental(s.conns[k].stream, [e.chunk]), more)
  {
    hide Settle, Hostname.Extract;
    var t := Hear(Learn(s, k, e.token, s.conns[k].closed), k, e.chunk);
    var more := t.conns[k].stream;
    SettledFor(t, policy, k, Answer(more));
    SettledFor(t, policy, k, None);
    assert [e.chunk][1..] == [];
  }

  /**
   Whatever is fed to a waiting flow, short of its end, it does what the incremental lookup does on the
   client's chunks: wait on, or be put to the policy with the lookup's answer.
   */
  lemma {:induction false} StreamFollows(s: State, policy: Policy, k: Key, events: seq<Event>)
    requires Ok(s) && IsWait(s, k) && NoEnd(events)
    ensures var stream := s.conns[k].stream;
            Follows(s, OnEvents(s, policy, k, events), policy, k,
                    Hostname.Incremental(stream, Chunks(events)), stream + Hostname.Concat(Chunks(events)))
    decreases |events|
  {
    var stream := s.conns[k].stream;
    if events == [] {
      assert stream + Hostname.Concat([]) == stream;
    } else {
      var e, rest := events[0], events[1..];
      var t := OnEvent(s, policy, k, e);
      var u := OnEvents(t, policy, k, rest);
      hide OnEvent, AskedFor, Hostname.Extract, Hostname.Incremental;
      var client := e.Data? && e.side == 0;
      var r := if client then Hostname.Incremental(stream, [e.chunk]) else Hostname.NeedMore;
      if client {
        OneChunk(s, policy, k, e);
        FirstChunk(stream, e.chunk, Chunks(rest));
      } else {
        Unheard(s, policy, k, e);
        assert Chunks(events) == Chunks(rest);
      }
      if r.NeedMore? {
        StreamFollows(t, policy, k, rest);
        var more := t.conns[k].stream;
        FollowsLater(s, t, u, policy, k, Hostname.Incremental(more, Chunks(rest)), more + Hostname.Concat(Chunks(rest)));
      } else {
        DecidedStays(s, t, policy, k, if r.Found? then Some(r.host) else None, rest);
      }
    }
  }

  lemma FollowsLater(s: State, t: State, u: State, policy: Policy, k: Key, r: Hostname.Lookup, heard: Bytes)
    requires s.log <= t.log && Follows(t, u, policy, k, r, heard)
    ensures Follows(s, u, policy, k, r, heard)
  {}

  lemma FirstChunk(buf: Bytes, chunk: Bytes, rest: seq<Bytes>)
    ensures Hostname.Incremental(buf, [chunk] + rest) ==
      if Hostname.Incremental(buf, [chunk]).NeedMore? then Hostname.Incremental(buf + chunk, rest)
      else Hostname.Incremental(buf, [chunk])
    ensures buf + Hostname.Concat([chunk] + rest) == buf + chunk + Hostname.Concat(rest)
  {
    hide Hostname.Extract;
    assert ([chunk] + rest)[1..] == rest && [chunk][1..] == [];
    Assoc(buf, chunk, Hostname.Concat(rest));
  }

  lemma {:induction false} OnEventsConcat(s: State, policy: Policy, k: Key, a: seq<Event>, b: seq<Event>)
    requires Ok(s)
    ensures OnEvents(s, policy, k, a + b) == OnEvents(OnEvents(s, policy, k, a), policy, k, b)
    decreases |a|
  {
    hide OnEvent;
    if a == [] {
      assert a + b == b;
    } else {
      OnEventsConcat(OnEvent(s, policy, k, a[0]), policy, k, a[1..], b);
      assert (a + b)[0] == a[0] && (a + b)[1..] == a[1..] + b;
    }
  }

  /**
   A waiting flow that has heard part of a framed ClientHello for `h` and now hears the rest, in any
   chunks and among any other callbacks but its end, is put to the policy as exactly `h`, unless a chunk
   ends past the stream limit and before the hello is complete. Whatever is called back after that, the end
   of the connection included, changes nothing.
   */
  lemma HelloResolves(
      s: State, policy: Policy, k: Key, events: seq<Event>, later: seq<Event>, rs: seq<RT.Record>, a: Grammar.Anatomy, h: Bytes)
    requires Ok(s) && IsWait(s, k) && NoEnd(events) && Hostname.Frames(rs, a, h)
    requires s.conns[k].stream < RT.Frame(rs) <= s.conns[k].stream + Hostname.Concat(Chunks(events))
    ensures var late := Hostname.CutTooLate(s.conns[k].stream, Chunks(events), |RT.Frame(rs)|);
            AskedFor(s, OnEvents(s, policy, k, events + later), policy, k, if late then None else Some(h))
  {
    var stream, f := s.conns[k].stream, RT.Frame(rs);
    var whole := stream + Hostname.Concat(Chunks(events));
    assert whole == f + whole[|f|..];
    Hostname.ChunkedRoundTrip(rs, a, h, stream, Chunks(events), whole[|f|..]);
    StreamFollows(s, policy, k, events);
    hide OnEvents, AskedFor, Hostname.Incremental, Hostname.CutTooLate;
    var late := Hostname.CutTooLate(stream, Chunks(events), |f|);
    DecidedStays(s, OnEvents(s, policy, k, events), policy, k, if late then None else Some(h), later);
    OnEventsConcat(s, policy, k, events, later);
  }

  // ---------------------------------------------------------------- over whole runs

  /** Since it was opened at `o`, the flow either still waits on all it has heard, or was asked about all of it. */
  ghost predicate WaitsOrAsked(log: seq<Note>, o: nat, end: nat, k: Key)
    requires o < end <= |log|
  {
    var heard := HeardIn(log[o..end], k);
    || PhaseOf(log[..end], k) == Waits(heard)
    || (!PhaseOf(log[..end], k).Waits?
        && exists q :: o < q < end && log[q].Asked? && log[q].flow == k && log[q].stream == heard && log[q].host == Answer(heard))
  }

  lemma {:induction false} TracksAllHeard(policy: Policy, log: seq<Note>, o: nat, end: nat, k: Key)
    requires Legal(policy, log) && o < end <= |log| && log[o] == Opened(k)
    requires forall i :: o < i < |log| ==> log[i] != Opened(k)
    ensures WaitsOrAsked(log, o, end, k)
    decreases end
  {
    hide *;
    if end == o + 1 {
      JustOpened(log, o, k);
    } else {
      TracksAllHeard(policy, log, o, end - 1, k);
      LegalPrefix(policy, log, end - 1);
      if PhaseOf(log[..end - 1], k).Waits? {
        WaitingStep(policy, log, o, end, k);
      } else {
        DecidedStep(policy, log, o, end, k);
      }
    }
  }

  lemma JustOpened(log: seq<Note>, o: nat, k: Key)
    requires o < |log| && log[o] == Opened(k)
    ensures WaitsOrAsked(log, o, o + 1, k)
  {
    PrefixStep(log, o, o + 1, k);
    hide PhaseOf, HeardIn;
  }

  /** One more note while the flow waits. */
  lemma WaitingStep(policy: Policy, log: seq<Note>, o: nat, end: nat, k: Key)
    requires o + 1 < end <= |log| && WaitsOrAsked(log, o, end - 1, k) && PhaseOf(log[..end - 1], k).Waits?
    requires Allowed(policy, log[..end - 1], log[end - 1]) && log[end - 1] != Opened(k)
    ensures WaitsOrAsked(log, o, end, k)
  {
    PrefixStep(log, o, end, k);
    hide HeardIn, PhaseOf, Answer;
    var n := log[end - 1];
    var heard := HeardIn(log[o..end - 1], k);
    if n.Asked? && n.flow == k { assert log[end - 1].stream == heard && HeardIn(log[o..end], k) == heard; }
  }

  /** One more note once it has been asked about. */
  lemma DecidedStep(policy: Policy, log: seq<Note>, o: nat, end: nat, k: Key)
    requires o + 1 < end <= |log| && WaitsOrAsked(log, o, end - 1, k) && !PhaseOf(log[..end - 1], k).Waits?
    requires Allowed(policy, log[..end - 1], log[end - 1]) && log[end - 1] != Opened(k)
    ensures WaitsOrAsked(log, o, end, k)
  {
    PrefixStep(log, o, end, k);
    hide HeardIn, PhaseOf, Answer;
  }

  lemma PrefixStep(log: seq<Note>, o: nat, end: nat, k: Key)
    requires o < end <= |log|
    ensures var n := log[end - 1];
            && PhaseOf(log[..end], k) == After(PhaseOf(log[..end - 1], k), k, n)
            && HeardIn(log[o..end], k)
               == (if n.Heard? && n.flow == k then HeardIn(log[o..end - 1], k) + n.chunk else HeardIn(log[o..end - 1], k))
            && HeardIn(log[end - 1..end - 1], k) == []
  {
    assert log[..end][..end - 1] == log[..end - 1];
    assert log[o..end][..end - 1 - o] == log[o..end - 1];
    assert log[o..end][|log[o..end]| - 1] == log[end - 1];
    Assoc(HeardIn(log[o..end - 1], k), [], []);
  }

  /**
   In every run, a flow whose tracked client bytes contain a framed ClientHello for `h` is no longer
   undecided: it has been put to the policy as exactly `h`.
   */
  lemma WholeHelloIsAsked(
      s: State, policy: Policy, o: nat, k: Key, rs: seq<RT.Record>, a: Grammar.Anatomy, h: Bytes) returns (q: nat)
    requires Quiet(s, None) && Agrees(s, policy)
    requires o < |s.log| && s.log[o] == Opened(k) && forall i :: o < i < |s.log| ==> s.log[i] != Opened(k)
    requires Hostname.Frames(rs, a, h) && RT.Frame(rs) <= HeardIn(s.log[o..], k)
    ensures o < q < |s.log| && s.log[q] == Asked(k, Some(h), HeardIn(s.log[o..], k), policy(Some(h)))
    ensures !IsWait(s, k)
  {
    var log := s.log;
    var heard := HeardIn(log[o..], k);
    assert log[..|log|] == log && log[o..|log|] == log[o..];
    TracksAllHeard(policy, log, o, |log|, k);
    assert heard == RT.Frame(rs) + heard[|RT.Frame(rs)|..];
    Hostname.RoundTrip(rs, a, h, heard[|RT.Frame(rs)|..]);
    assert PhaseInTable(s, k, PhaseOf(log, k));
    assert Answer(heard) == Some(h);
    q :| o < q < |log| && log[q].Asked? && log[q].flow == k && log[q].stream == heard && log[q].host == Some(h);
    LegalPrefix(policy, log, q);
  }
}
