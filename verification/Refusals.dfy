/**
 When the record layer gives up: NotFound is the answer exactly when the bytes already there rule out a
 ClientHello for one of four reasons, each stated on the bytes and the record grammar.
 */
module Refusals {
  import opened Wire
  import opened Records
  import opened RecordTheorems

  // ---------------------------------------------------------------- the four reasons, on bytes

  /** The first record header fails one of its checks, each made as soon as its bytes are there. */
  predicate BadStart(p: Bytes) {
    || (|p| >= 1 && p[0] != 0x16)
    || (|p| >= 2 && p[1] != 0x03)
    || (|p| >= 5 && !(0 < p[3] as int * 256 + p[4] as int <= 16384))
  }

  /** Five bytes that are not the header of a handshake record. */
  predicate NoRecord(t: Bytes) {
    |t| >= 5 && !(t[0] == 0x16 && t[1] == 0x03 && 0 < t[3] as int * 256 + t[4] as int <= 16384)
  }

  /** Four bytes that are not the header of a ClientHello of 34 to 65535 bytes. */
  predicate NoHello(j: Bytes) {
    |j| >= 4 && !(j[0] == 1 && 34 <= j[1] as int * 65536 + j[2] as int * 256 + j[3] as int <= 65535)
  }

  /** A ClientHello may have begun, and is not all there. */
  predicate Begun(j: Bytes) {
    |j| < 4 || (!NoHello(j) && |j| < 4 + j[1] as int * 65536 + j[2] as int * 256 + j[3] as int)
  }

  /** After records that leave the message unfinished comes something that is no handshake record. */
  ghost predicate Interrupted(p: Bytes) {
    exists rs: seq<Record>, t: Bytes :: AllOk(rs) && p == Frame(rs) + t && Begun(Payloads(rs)) && NoRecord(t)
  }

  /** The records that have arrived show a handshake header that is no ClientHello's. */
  ghost predicate OtherMessage(p: Bytes) {
    exists rs: seq<Record>, t: Bytes :: AllOk(rs) && p == Frame(rs) + t && NoHello(Payloads(rs))
  }

  /** So does the first record already, though it may still be arriving. */
  ghost predicate OtherMessageEarly(p: Bytes) {
    exists minor: Byte, n: nat, body: Bytes ::
      4 <= n <= 16384 && p == [0x16, 0x03, minor] + U16(n) + body && NoHello(body)
  }

  lemma HeadersAgree(j: Bytes)
    ensures NoHello(j) <==> HeaderOf(j).Bad?
    ensures Begun(j) <==> Unfinished(j)
  {}

  // ---------------------------------------------------------------- the loop

  lemma {:induction false} JoinRefuses(rs: seq<Record>, t: Bytes, acc: Bytes)
    requires AllOk(rs) && Unfinished(acc)
    requires (Unfinished(acc + Payloads(rs)) && NoRecord(t)) || HeaderOf(acc + Payloads(rs)).Bad?
    ensures Join(Frame(rs) + t, acc) == NotFound
    decreases |rs|
  {
    assert acc + [] == acc;
    if rs == [] {
      assert Frame(rs) + t == t;
    } else {
      var r, rest := rs[0], rs[1..];
      var acc' := acc + r.payload;
      assert rs == [r] + rest;
      Prepend(r, rest, acc, t);
      FrontOfFrame(r, Frame(rest) + t);
      hide FrontOf, FrameOne, Frame;
      KeepsHeader(acc', acc' + Payloads(rest));
      if Unfinished(acc') { JoinRefuses(rest, t, acc'); }
    }
  }

  lemma {:induction false} JoinRefusedBy(p: Bytes, acc: Bytes) returns (rs: seq<Record>, t: Bytes)
    requires Join(p, acc) == NotFound && Unfinished(acc)
    ensures AllOk(rs) && p == Frame(rs) + t
    ensures (Unfinished(acc + Payloads(rs)) && NoRecord(t)) || HeaderOf(acc + Payloads(rs)).Bad?
    decreases |p|
  {
    if FrontOf(p).Alien? {
      rs, t := [], p;
      assert acc + [] == acc;
    } else {
      FrontIsFrame(p);
      hide FrontOf, FrameOne;
      var n := FrontOf(p).size;
      var r := Record(p[2], p[5..5 + n]);
      var acc' := acc + r.payload;
      if HeaderOf(acc').Bad? {
        rs, t := [r], p[5 + n..];
        Single(r);
      } else {
        var rest;
        rest, t := JoinRefusedBy(p[5 + n..], acc');
        rs := [r] + rest;
        Prepend(r, rest, acc, t);
      }
    }
  }

  lemma JoinRefusedIff(p: Bytes)
    ensures Join(p, []) == NotFound <==> Interrupted(p) || OtherMessage(p)
  {
    assert Unfinished([]);
    hide Join, Begun, Unfinished, HeaderOf, NoRecord, NoHello, Frame;
    if Join(p, []) == NotFound {
      var rs, t := JoinRefusedBy(p, []);
      assert [] + Payloads(rs) == Payloads(rs);
      HeadersAgree(Payloads(rs));
    }
    if Interrupted(p) {
      var rs: seq<Record>, t: Bytes :| AllOk(rs) && p == Frame(rs) + t && Begun(Payloads(rs)) && NoRecord(t);
      RefusesFrame(rs, t);
    }
    if OtherMessage(p) {
      var rs: seq<Record>, t: Bytes :| AllOk(rs) && p == Frame(rs) + t && NoHello(Payloads(rs));
      RefusesFrame(rs, t);
    }
  }

  lemma RefusesFrame(rs: seq<Record>, t: Bytes)
    requires AllOk(rs) && ((Begun(Payloads(rs)) && NoRecord(t)) || NoHello(Payloads(rs)))
    ensures Join(Frame(rs) + t, []) == NotFound
  {
    assert [] + Payloads(rs) == Payloads(rs);
    HeadersAgree(Payloads(rs));
    JoinRefuses(rs, t, []);
  }

  // ---------------------------------------------------------------- the whole function

  lemma EarlyIsRefused(p: Bytes)
    requires OtherMessageEarly(p)
    ensures Collect(p) == NotFound
  {
    var minor: Byte, n: nat, body: Bytes :| 4 <= n <= 16384 && p == [0x16, 0x03, minor] + U16(n) + body && NoHello(body);
    assert p[3] == U16(n)[0] && p[4] == U16(n)[1];
    assert p[5..9] == body[..4];
    hide Join;
  }

  lemma LoopRefuses(p: Bytes)
    requires Join(p, []) == NotFound
    ensures Collect(p) == NotFound
  {
    LoopAgrees(p);
    assert |p| >= 5;
    hide Join;
  }

  lemma RefusedBy(p: Bytes)
    requires Collect(p) == NotFound && Join(p, []) != NotFound && !BadStart(p)
    ensures OtherMessageEarly(p)
  {
    hide Join;
    Rd16Inverse(p, 3);
    var body := p[5..];
    assert p == [0x16, 0x03, p[2]] + U16(Rd16(p, 3)) + body;
    assert p[5..9] == body[..4];
    assert NoHello(body);
  }

  /**
   Giving up, exactly: the first record header is bad, the records are interrupted before the message is
   complete, or the first four handshake bytes are no ClientHello's, in the records that have arrived or
   already in the first one on its way.
   */
  lemma NotFoundIff(p: Bytes)
    ensures Collect(p) == NotFound <==> BadStart(p) || Interrupted(p) || OtherMessage(p) || OtherMessageEarly(p)
  {
    JoinRefusedIff(p);
    if BadStart(p) { assert Collect(p) == NotFound; }
    hide Join, Interrupted, OtherMessage;
    if Join(p, []) == NotFound { LoopRefuses(p); }
    if OtherMessageEarly(p) { EarlyIsRefused(p); }
    if Collect(p) == NotFound && Join(p, []) != NotFound && !BadStart(p) { RefusedBy(p); }
  }

  /** A handshake record with one byte of a ClientHello, and then an alert: refused at once. */
  lemma AlertInterrupts()
    ensures Collect([0x16, 3, 1, 0, 1, 1, 0x15, 3, 3, 0, 2, 2, 40]) == NotFound
  {
    var p: Bytes := [0x16, 3, 1, 0, 1, 1, 0x15, 3, 3, 0, 2, 2, 40];
    var r := Record(1, [1]);
    var t: Bytes := [0x15, 3, 3, 0, 2, 2, 40];
    Single(r);
    assert p == Frame([r]) + t && Payloads([r]) == [1] && NoRecord(t) && Begun([1]);
    hide Frame, Payloads, NoRecord, Begun;
    assert Interrupted(p);
    NotFoundIff(p);
  }
}
