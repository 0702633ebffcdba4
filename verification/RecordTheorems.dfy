/**
 What the record layer promises: decisions are final, the zero-copy path is the joining loop seen
 early, a message is found exactly where the record grammar has one, and waiting is worth it exactly
 when the buffered bytes are still the beginning of some framed ClientHello.
 */
module RecordTheorems {
  import opened Wire
  import opened Records

  // ---------------------------------------------------------------- the grammar

  /** A complete ClientHello message: type 1, a length of 34 to 65535, and exactly that many bytes behind it. */
  predicate IsMessage(m: Bytes) {
    38 <= |m| <= 65539 && m[0] == 1 && m[1] as int * 65536 + m[2] as int * 256 + m[3] as int == |m| - 4
  }

  lemma MessageHeader(m: Bytes)
    ensures IsMessage(m) <==> HeaderOf(m) == Message(|m|)
  {}

  datatype Record = Record(minor: Byte, payload: Bytes)

  predicate RecordOk(r: Record) { 0 < |r.payload| <= 16384 }

  predicate AllOk(rs: seq<Record>) { forall i | 0 <= i < |rs| :: RecordOk(rs[i]) }

  function FrameOne(r: Record): Bytes
    requires RecordOk(r)
  {
    [0x16, 0x03, r.minor] + U16(|r.payload|) + r.payload
  }

  function Frame(rs: seq<Record>): Bytes
    requires AllOk(rs)
  {
    if rs == [] then [] else FrameOne(rs[0]) + Frame(rs[1..])
  }

  function Payloads(rs: seq<Record>): Bytes {
    if rs == [] then [] else rs[0].payload + Payloads(rs[1..])
  }

  lemma FrontOfFrame(r: Record, t: Bytes)
    requires RecordOk(r)
    ensures var p := FrameOne(r) + t; var n := |r.payload|;
            FrontOf(p) == Whole(n) && p[5..5 + n] == r.payload && p[5 + n..] == t && p[..5 + n] == FrameOne(r)
  {
    var p := FrameOne(r) + t;
    assert p[3] == U16(|r.payload|)[0] && p[4] == U16(|r.payload|)[1];
  }

  lemma FrontIsFrame(p: Bytes)
    requires FrontOf(p).Whole?
    ensures var n := FrontOf(p).size; var r := Record(p[2], p[5..5 + n]);
            RecordOk(r) && p == FrameOne(r) + p[5 + n..]
  {
    var n := FrontOf(p).size;
    Rd16Inverse(p, 3);
    assert p[..3] == [0x16, 0x03, p[2]];
    assert p == p[..3] + p[3..5] + p[5..5 + n] + p[5 + n..];
  }

  // ---------------------------------------------------------------- decisions are final

  lemma FrontStable(p: Bytes, e: Bytes)
    requires !FrontOf(p).Short?
    ensures FrontOf(p + e) == FrontOf(p)
  {
    assert forall i | 0 <= i < |p| :: (p + e)[i] == p[i];
  }

  lemma {:induction false} JoinStable(p: Bytes, e: Bytes, acc: Bytes)
    requires !Join(p, acc).NeedMore?
    ensures Join(p + e, acc) == Join(p, acc)
    decreases |p|
  {
    FrontStable(p, e);
    if FrontOf(p).Whole? {
      var n := FrontOf(p).size;
      assert (p + e)[5..5 + n] == p[5..5 + n];
      assert (p + e)[5 + n..] == p[5 + n..] + e;
      if !Join(p[5 + n..], acc + p[5..5 + n]).NeedMore? {
        JoinStable(p[5 + n..], e, acc + p[5..5 + n]);
      }
    }
  }

  /** More bytes never change an answer: the caller may ask again after every chunk. */
  lemma CollectStable(p: Bytes, e: Bytes)
    requires !Collect(p).NeedMore?
    ensures Collect(p + e) == Collect(p)
  {
    var q := p + e;
    assert forall i | 0 <= i < |p| :: q[i] == p[i];
    if |p| >= 5 {
      assert Rd16(q, 3) == Rd16(p, 3);
      if |p| >= 9 {
        assert q[5..9] == p[5..9];
        if HeaderOf(p[5..9]).Message? {
          var n := HeaderOf(p[5..9]).size;
          if |p| >= 5 + n { assert q[5..5 + n] == p[5..5 + n]; }
        }
      }
      if !Join(p, []).NeedMore? {
        JoinStable(p, e, []);
      }
    }
  }

  // ---------------------------------------------------------------- the fast path refines the loop

  /** The same function with the fast path taken out. */
  function Loop(p: Bytes): Collected {
    if |p| < 1 then NeedMore
    else if p[0] != 0x16 || (|p| >= 2 && p[1] != 0x03) then NotFound
    else if |p| < 5 then NeedMore
    else Join(p, [])
  }

  predicate FirstArrived(p: Bytes) { |p| >= 5 && |p| - 5 >= Rd16(p, 3) }

  /**
   The two paths agree once the first record is complete, the loop never decides before the whole
   function does, and an early answer of the fast path is what the loop says on every continuation
   that completes that record.
   */
  lemma FastPathRefinesLoop(p: Bytes)
    ensures FirstArrived(p) ==> Collect(p) == Loop(p)
    ensures !Loop(p).NeedMore? ==> Collect(p) == Loop(p)
    ensures !Collect(p).NeedMore? ==> forall e :: FirstArrived(p + e) ==> Loop(p + e) == Collect(p)
  {
    LoopAgrees(p);
    if !Collect(p).NeedMore? {
      forall e | FirstArrived(p + e) ensures Loop(p + e) == Collect(p) {
        CollectStable(p, e);
        LoopAgrees(p + e);
      }
    }
  }

  lemma LoopAgrees(p: Bytes)
    ensures FirstArrived(p) || !Loop(p).NeedMore? ==> Collect(p) == Loop(p)
  {
    if |p| >= 9 && p[0] == 0x16 && p[1] == 0x03 {
      var rec0 := Rd16(p, 3);
      if 4 <= rec0 <= |p| - 5 && rec0 <= 16384 {
        assert FrontOf(p) == Whole(rec0);
        var first := p[5..5 + rec0];
        assert [] + first == first;
        assert p[5..9] == first[..4];
        KeepsHeader(first[..4], first);
        if HeaderOf(first).Message? && HeaderOf(first).size <= rec0 {
          assert first[..HeaderOf(first).size] == p[5..5 + HeaderOf(first).size];
        }
      }
    }
  }

  // ---------------------------------------------------------------- sound and complete for the grammar

  /** `acc` does not yet hold a whole message, nor a bad header. */
  predicate Unfinished(acc: Bytes) {
    match HeaderOf(acc)
    case Partial => true
    case Bad => false
    case Message(n) => |acc| < n
  }

  lemma {:induction false} JoinComplete(rs: seq<Record>, t: Bytes, acc: Bytes, n: nat)
    requires AllOk(rs) && Unfinished(acc)
    requires HeaderOf(acc + Payloads(rs)) == Message(n) && n <= |acc + Payloads(rs)|
    ensures Join(Frame(rs) + t, acc) == Found((acc + Payloads(rs))[..n])
    decreases |rs|
  {
    assert acc + [] == acc;
    if rs == [] {
      assert false;
    } else {
      var r, rest := rs[0], rs[1..];
      var acc' := acc + r.payload;
      assert rs == [r] + rest;
      Prepend(r, rest, acc, t);
      FrontOfFrame(r, Frame(rest) + t);
      hide FrontOf, FrameOne, Frame;
      KeepsHeader(acc', acc' + Payloads(rest));
      if Unfinished(acc') {
        JoinComplete(rest, t, acc', n);
      } else {
        assert acc'[..n] == (acc + Payloads(rs))[..n];
      }
    }
  }

  lemma {:induction false} JoinSound(p: Bytes, acc: Bytes, m: Bytes) returns (rs: seq<Record>, t: Bytes)
    requires Join(p, acc) == Found(m) && Unfinished(acc)
    ensures AllOk(rs) && p == Frame(rs) + t
    ensures IsMessage(m) && m <= acc + Payloads(rs)
    ensures |rs| > 0 && FrontOf(p) == Whole(|rs[0].payload|) && p[5..5 + |rs[0].payload|] == rs[0].payload
    decreases |p|
  {
    FrontIsFrame(p);
    hide FrontOf, FrameOne;
    var n := FrontOf(p).size;
    var r := Record(p[2], p[5..5 + n]);
    var acc' := acc + r.payload;
    if HeaderOf(acc').Message? && HeaderOf(acc').size <= |acc'| {
      rs, t := [r], p[5 + n..];
      Single(r);
      HeaderOfPrefix(acc', |m|);
    } else {
      var rest;
      rest, t := JoinSound(p[5 + n..], acc', m);
      rs := [r] + rest;
      Prepend(r, rest, acc, t);
    }
  }

  lemma Single(r: Record)
    requires RecordOk(r)
    ensures AllOk([r]) && Frame([r]) == FrameOne(r) && Payloads([r]) == r.payload
  {
    assert [r][1..] == [];
  }

  lemma HeaderOfPrefix(j: Bytes, n: nat)
    requires 4 <= n <= |j|
    ensures HeaderOf(j[..n]) == HeaderOf(j)
  {
    KeepsHeader(j[..n], j);
  }

  lemma Prepend(r: Record, rest: seq<Record>, acc: Bytes, t: Bytes)
    requires RecordOk(r) && AllOk(rest)
    ensures AllOk([r] + rest)
    ensures acc + Payloads([r] + rest) == acc + r.payload + Payloads(rest)
    ensures Frame([r] + rest) + t == FrameOne(r) + (Frame(rest) + t)
  {
    assert ([r] + rest)[1..] == rest;
  }

  /** Records, then anything; their payloads begin with the message. */
  ghost predicate FramedIn(p: Bytes, m: Bytes) {
    exists rs: seq<Record>, t: Bytes :: AllOk(rs) && p == Frame(rs) + t && m <= Payloads(rs)
  }

  /** The first record, not necessarily all there, and the whole message inside it. */
  ghost predicate InsideFirst(p: Bytes, m: Bytes) {
    exists minor: Byte, n: nat, t: Bytes ::
      |m| <= n <= 16384 && p == [0x16, 0x03, minor] + U16(n) + m + t
  }

  /** A message is found exactly when the buffer carries one, and then it is that one. */
  lemma FoundIff(p: Bytes, m: Bytes)
    ensures Collect(p) == Found(m) <==> IsMessage(m) && (FramedIn(p, m) || InsideFirst(p, m))
  {
    hide Collect, IsMessage, InsideFirst;
    if Collect(p) == Found(m) { FoundIsCarried(p, m); }
    if IsMessage(m) && FramedIn(p, m) {
      var rs: seq<Record>, t: Bytes :| AllOk(rs) && p == Frame(rs) + t && m <= Payloads(rs);
      FramedIsFound(rs, t, m);
    }
    if IsMessage(m) && InsideFirst(p, m) { InsideIsFound(p, m); }
  }

  lemma FoundIsCarried(p: Bytes, m: Bytes)
    requires Collect(p) == Found(m)
    ensures IsMessage(m) && (FramedIn(p, m) || InsideFirst(p, m))
  {
    MessageHeader(m);
    if Join(p, []) == Found(m) {
      var rs, t := JoinSound(p, [], m);
      assert [] + Payloads(rs) == Payloads(rs);
    } else {
      hide Join, FramedIn, IsMessage;
      Rd16Inverse(p, 3);
      assert p == [0x16, 0x03, p[2]] + U16(Rd16(p, 3)) + m + p[5 + |m|..];
      assert m[..4] == p[5..9];
      KeepsHeader(m[..4], m);
    }
  }

  lemma FramedIsFound(rs: seq<Record>, t: Bytes, m: Bytes)
    requires IsMessage(m) && AllOk(rs) && m <= Payloads(rs)
    ensures Collect(Frame(rs) + t) == Found(m) == Join(Frame(rs) + t, [])
  {
    MessageHeader(m);
    var whole := Payloads(rs);
    assert [] + whole == whole && whole[..|m|] == m && Unfinished([]);
    KeepsHeader(m, whole);
    hide *;
    JoinComplete(rs, t, [], |m|);
    JoinMeansCollect(Frame(rs) + t);
  }

  lemma InsideIsFound(p: Bytes, m: Bytes)
    requires IsMessage(m) && InsideFirst(p, m)
    ensures Collect(p) == Found(m)
  {
    var minor: Byte, n: nat, t: Bytes :|
      |m| <= n <= 16384 && p == [0x16, 0x03, minor] + U16(n) + m + t;
    assert p[3] == U16(n)[0] && p[4] == U16(n)[1];
    assert p[5..5 + |m|] == m;
    assert p[5..9] == m[..4];
    KeepsHeader(m[..4], m);
  }

  // ---------------------------------------------------------------- a message in flight is waited for

  lemma {:induction false} JoinWaits(rs: seq<Record>, q: Bytes, acc: Bytes)
    requires AllOk(rs) && q < Frame(rs)
    requires Unfinished(acc) && IsMessage(acc + Payloads(rs))
    ensures Join(q, acc).NeedMore?
    decreases |rs|
  {
    var r, rest := rs[0], rs[1..];
    var one := FrameOne(r);
    assert forall i | 0 <= i < |q| :: q[i] == Frame(rs)[i];
    assert Frame(rs) == one + Frame(rest);
    if |q| < |one| {
      assert q <= one;
      ShortWithin(r, q);
    } else {
      var q' := q[|one|..];
      assert q == one + q';
      assert q' < Frame(rest);
      FrontOfFrame(r, q');
      var acc' := acc + r.payload;
      assert acc' + Payloads(rest) == acc + Payloads(rs);
      assert |rest[0].payload| > 0;
      KeepsHeader(acc', acc' + Payloads(rest));
      JoinWaits(rest, q', acc');
    }
  }

  lemma ShortWithin(r: Record, q: Bytes)
    requires RecordOk(r) && q < FrameOne(r)
    ensures FrontOf(q).Short?
  {
    var one := FrameOne(r);
    assert one[3] == U16(|r.payload|)[0] && one[4] == U16(|r.payload|)[1];
    assert forall i | 0 <= i < |q| :: q[i] == one[i];
  }

  /** However the message is cut into records, no proper prefix of the stream is decided. */
  lemma ProperPrefixWaits(rs: seq<Record>, q: Bytes)
    requires AllOk(rs) && IsMessage(Payloads(rs)) && q < Frame(rs)
    ensures Collect(q).NeedMore?
  {
    var m := Payloads(rs);
    assert [] + m == m;
    JoinWaits(rs, q, []);
    FirstBytes(rs, q);
    if |q| >= 5 {
      LoopAgrees(q);
      if |q| >= 9 && |rs[0].payload| >= 4 {
        assert q[5..9] == m[..4];
        KeepsHeader(m[..4], m);
        if |m| <= |rs[0].payload| { AtMostOne(rs); }
      }
    }
  }

  lemma FirstBytes(rs: seq<Record>, q: Bytes)
    requires AllOk(rs) && q < Frame(rs)
    ensures |q| >= 1 ==> q[0] == 0x16
    ensures |q| >= 2 ==> q[1] == 0x03
    ensures |q| >= 5 ==> Rd16(q, 3) == |rs[0].payload|
    ensures |q| >= 9 && |rs[0].payload| >= 4 ==> q[5..9] == Payloads(rs)[..4]
    ensures rs[1..] == [] ==> |q| < 5 + |Payloads(rs)|
  {
    var r := rs[0];
    var one := FrameOne(r);
    assert one[3] == U16(|r.payload|)[0] && one[4] == U16(|r.payload|)[1];
    assert forall i | 0 <= i < |q| :: q[i] == Frame(rs)[i];
    assert forall i | 0 <= i < |q| && i < |one| :: q[i] == one[i];
    if |q| >= 9 && |r.payload| >= 4 { assert q[5..9] == r.payload[..4]; }
  }

  lemma AtMostOne(rs: seq<Record>)
    requires AllOk(rs) && rs != [] && |Payloads(rs)| <= |rs[0].payload|
    ensures rs[1..] == []
  {
    hide Payloads, RecordOk;
    if |rs| > 1 { MoreThanFirst(rs); }
  }

  lemma MoreThanFirst(rs: seq<Record>)
    requires AllOk(rs) && |rs| > 1
    ensures |Payloads(rs)| > |rs[0].payload|
  {
    assert RecordOk(rs[1]);
  }

  // ---------------------------------------------------------------- when waiting is worth it

  /** The unread tail and the joined bytes once every complete record has been consumed. */
  function Residue(p: Bytes, acc: Bytes): (Bytes, Bytes)
    decreases |p|
  {
    match FrontOf(p)
    case Whole(n) => Residue(p[5 + n..], acc + p[5..5 + n])
    case _ => (p, acc)
  }

  /** Nothing in these bytes rules out the beginning of an acceptable handshake header. */
  predicate HeaderViable(j: Bytes) {
    && (|j| >= 1 ==> j[0] == 0x01)
    && (|j| >= 2 ==> j[1] == 0)
    && (|j| >= 4 ==> Rd24(j, 1) >= 34)
  }

  /** Nothing in these bytes rules out the beginning of an acceptable record header. */
  predicate TailViable(t: Bytes) {
    && (|t| >= 1 ==> t[0] == 0x16)
    && (|t| >= 2 ==> t[1] == 0x03)
    && (|t| >= 4 ==> t[3] <= 64)
    && (|t| >= 5 ==> 0 < Rd16(t, 3) <= 16384)
  }

  function Body(t: Bytes): Bytes { if |t| > 5 then t[5..] else [] }

  predicate ViableFrom(p: Bytes, acc: Bytes) {
    var (t, j) := Residue(p, acc);
    TailViable(t) && HeaderViable(j + Body(t))
  }

  predicate Viable(p: Bytes) { ViableFrom(p, []) }

  lemma ViablePrefix(j: Bytes, k: Bytes)
    requires j <= k && HeaderViable(k)
    ensures HeaderViable(j)
  {
    assert forall i | 0 <= i < |j| :: j[i] == k[i];
  }

  lemma MessageViable(m: Bytes, k: Bytes)
    requires IsMessage(m) && m <= k
    ensures HeaderViable(k)
  {
    KeepsHeader(m, k);
  }

  function TemplateAt(i: nat): Byte { if i == 0 then 0x01 else if i == 1 then 0 else 255 }

  /** Any viable start can be grown to any length. */
  function Fill(q: Bytes, n: nat): (f: Bytes)
    requires HeaderViable(q) && |q| <= n
    ensures |f| == n && q <= f && HeaderViable(f)
    decreases n - |q|
  {
    if |q| == n then q else
      var q' := q + [TemplateAt(|q|)];
      assert HeaderViable(q') by { if |q| >= 4 { assert forall i | 0 <= i < 4 :: q'[i] == q[i]; } }
      Fill(q', n)
  }

  function Singles(b: Bytes): (rs: seq<Record>)
    ensures AllOk(rs) && Payloads(rs) == b
  {
    if b == [] then [] else [Record(0x03, [b[0]])] + Singles(b[1..])
  }

  predicate Complete(j: Bytes) { HeaderOf(j).Message? && HeaderOf(j).size <= |j| }

  /** Records that complete whatever message a viable start announces. */
  lemma Finish(q: Bytes) returns (rs: seq<Record>)
    requires HeaderViable(q)
    ensures AllOk(rs) && Complete(q + Payloads(rs))
  {
    hide Fill, Singles, Payloads;
    var h := if |q| < 4 then Fill(q, 4) else q;
    var n := HeaderOf(h).size;
    var f := if |h| < n then Fill(h, n) else h;
    KeepsHeader(h, f);
    hide HeaderViable, HeaderOf;
    rs := Singles(f[|q|..]);
    assert q + Payloads(rs) == f;
  }

  lemma WithinFrame(t: Bytes, r: Record)
    requires RecordOk(r) && TailViable(t) && Body(t) <= r.payload
    requires |t| >= 3 ==> t[2] == r.minor
    requires |t| >= 4 ==> t[3] == U16(|r.payload|)[0]
    requires |t| >= 5 ==> t[4] == U16(|r.payload|)[1]
    ensures t <= FrameOne(r)
  {
    var head := [0x16, 0x03, r.minor] + U16(|r.payload|);
    if |t| <= 5 {
      assert t == head[..|t|];
    } else {
      assert t == t[..5] + Body(t) && t[..5] == head;
    }
  }

  /** A payload length that a viable tail allows. */
  function TailLength(t: Bytes): (n: nat)
    requires FrontOf(t).Short? && TailViable(t)
    ensures 0 < n <= 16384 && |Body(t)| <= n
    ensures |t| >= 4 ==> t[3] == U16(n)[0]
    ensures |t| >= 5 ==> t[4] == U16(n)[1]
  {
    if |t| >= 5 then Rd16(t, 3)
    else if |t| == 4 then t[3] as int * 256 + (if t[3] == 0 then 1 else 0)
    else 1
  }

  /** The record a viable tail is the beginning of. */
  lemma CompleteRecord(t: Bytes, acc: Bytes) returns (r: Record)
    requires FrontOf(t).Short? && TailViable(t) && HeaderViable(acc + Body(t))
    ensures RecordOk(r) && t <= FrameOne(r) && HeaderViable(acc + r.payload)
  {
    hide FrontOf, Fill, FrameOne, HeaderViable;
    var n := TailLength(t);
    var f := Fill(acc + Body(t), |acc| + n);
    r := Record(if |t| >= 3 then t[2] else 0x03, f[|acc|..]);
    assert acc + r.payload == f;
    assert Body(t) == (acc + Body(t))[|acc|..] <= r.payload;
    WithinFrame(t, r);
  }

  lemma FinishTail(p: Bytes, acc: Bytes) returns (rs: seq<Record>)
    requires FrontOf(p).Short? && TailViable(p) && HeaderViable(acc + Body(p))
    ensures AllOk(rs) && p <= Frame(rs) && Complete(acc + Payloads(rs))
  {
    hide FrontOf, TailViable, HeaderViable, HeaderOf, FrameOne;
    var r := CompleteRecord(p, acc);
    var more := Finish(acc + r.payload);
    rs := [r] + more;
    assert rs[1..] == more;
    assert acc + Payloads(rs) == acc + r.payload + Payloads(more);
  }

  /** Consuming a complete record commutes with the arrival of more bytes. */
  lemma WholeStep(p: Bytes, e: Bytes, acc: Bytes)
    requires FrontOf(p).Whole? && Join(p, acc).NeedMore?
    ensures var n := FrontOf(p).size; var acc' := acc + p[5..5 + n];
            && Unfinished(acc')
            && Join(p[5 + n..], acc').NeedMore?
            && Join(p + e, acc) == Join(p[5 + n..] + e, acc')
  {
    var n := FrontOf(p).size;
    FrontStable(p, e);
    assert (p + e)[5..5 + n] == p[5..5 + n];
    assert (p + e)[5 + n..] == p[5 + n..] + e;
  }

  lemma {:induction false} ViableCompletes(p: Bytes, acc: Bytes) returns (e: Bytes)
    requires Join(p, acc).NeedMore? && Unfinished(acc) && ViableFrom(p, acc)
    ensures Join(p + e, acc).Found?
    decreases |p|
  {
    if FrontOf(p).Whole? {
      var n := FrontOf(p).size;
      WholeStep(p, [], acc);
      e := ViableCompletes(p[5 + n..], acc + p[5..5 + n]);
      WholeStep(p, e, acc);
    } else {
      e := ShortCompletes(p, acc);
    }
  }

  lemma ShortCompletes(p: Bytes, acc: Bytes) returns (e: Bytes)
    requires FrontOf(p).Short? && Unfinished(acc) && TailViable(p) && HeaderViable(acc + Body(p))
    ensures Join(p + e, acc).Found?
  {
    var rs := FinishTail(p, acc);
    e := Frame(rs)[|p|..];
    assert p + e == Frame(rs) + [];
    JoinComplete(rs, [], acc, HeaderOf(acc + Payloads(rs)).size);
  }

  lemma {:induction false} FoundWasViable(p: Bytes, e: Bytes, acc: Bytes, m: Bytes)
    requires Join(p, acc).NeedMore? && Unfinished(acc) && Join(p + e, acc) == Found(m)
    ensures ViableFrom(p, acc)
    decreases |p|
  {
    if FrontOf(p).Whole? {
      var n := FrontOf(p).size;
      WholeStep(p, e, acc);
      FoundWasViable(p[5 + n..], e, acc + p[5..5 + n], m);
    } else {
      ShortWasViable(p, p + e, acc, m);
    }
  }

  lemma ShortWasViable(p: Bytes, q: Bytes, acc: Bytes, m: Bytes)
    requires FrontOf(p).Short? && p <= q && Unfinished(acc) && Join(q, acc) == Found(m)
    ensures TailViable(p) && HeaderViable(acc + Body(p))
  {
    var rs, t := JoinSound(q, acc, m);
    var all := acc + Payloads(rs);
    MessageViable(m, all);
    var body := rs[0].payload;
    if |p| > 5 {
      assert Rd16(p, 3) == |body|;
      assert Body(p) == body[..|p| - 5];
    }
    assert acc + Body(p) <= all;
    ViablePrefix(acc + Body(p), all);
  }

  /**
   Waiting is worth it exactly when the bytes so far are viable: an undecided buffer has an extension
   in which a message is found if and only if nothing it already shows rules one out.
   */
  lemma NeedMoreIff(p: Bytes)
    ensures !Collect(p).Found? && (exists e :: Collect(p + e).Found?) <==> Collect(p).NeedMore? && Viable(p)
  {
    if Collect(p).NeedMore? {
      LoopWaits(p);
      if Viable(p) {
        var e := ViableCompletes(p, []);
        JoinMeansCollect(p + e);
      }
      forall e | Collect(p + e).Found? ensures Viable(p) {
        var e2 := seq(65540, _ => 0);
        FastPathRefinesLoop(p + e);
        assert FirstArrived(p + e + e2);
        assert p + e + e2 == p + (e + e2);
        FoundWasViable(p, e + e2, [], Collect(p + e).msg);
      }
    } else {
      forall e ensures !Collect(p).NeedMore? ==> Collect(p + e) == Collect(p) { CollectStable(p, e); }
    }
  }

  lemma LoopWaits(p: Bytes)
    requires Collect(p).NeedMore?
    ensures Join(p, []).NeedMore?
  {
    LoopAgrees(p);
  }

  lemma JoinMeansCollect(p: Bytes)
    requires Join(p, []).Found?
    ensures Collect(p) == Join(p, [])
  {
    LoopAgrees(p);
  }

  ghost predicate WaitsInVain(p: Bytes) { Collect(p).NeedMore? && forall e :: !Collect(p + e).Found? }

  /**
   Three buffers the code waits on although no continuation can be a ClientHello: a first record
   already announced too long, a second record that is not a handshake record, and a first handshake
   byte that is not a ClientHello's.
   */
  lemma SomeWaitsAreInVain()
    ensures WaitsInVain([0x16, 0x03, 1, 255])
    ensures WaitsInVain([0x16, 0x03, 1, 0, 1, 0x01] + [0x15])
    ensures WaitsInVain([0x16, 0x03, 1, 0, 1, 2] + [])
  {
    var a: Bytes := [0x16, 0x03, 1, 255];
    NotViable(a, a, []);
    OneByteRecord(0x01, [0x15]);
    OneByteRecord(2, []);
  }

  lemma OneByteRecord(b: Byte, t: Bytes)
    requires |t| < 5 && !(TailViable(t) && HeaderViable([b]))
    ensures WaitsInVain([0x16, 0x03, 1, 0, 1, b] + t)
  {
    var p := [0x16, 0x03, 1, 0, 1, b] + t;
    assert p[5 + 1..] == t && [] + p[5..5 + 1] == [b];
    assert FrontOf(p) == Whole(1) && FrontOf(t) == Short;
    assert Join(p, []) == Join(t, [b]);
    assert Residue(p, []) == Residue(t, [b]) == (t, [b]);
    assert [b] + Body(t) == [b];
    NotViable(p, t, [b]);
  }

  lemma NotViable(p: Bytes, t: Bytes, j: Bytes)
    requires Residue(p, []) == (t, j) && !(TailViable(t) && HeaderViable(j + Body(t)))
    requires Collect(p).NeedMore?
    ensures WaitsInVain(p)
  {
    NeedMoreIff(p);
  }
}
