/**
 The TLS record layer of section 5.1 of RFC 8446, as the extractor strips it: `Collect` is what the
 source's collectHandshake computes on a buffer, `CollectHandshake` is its loop.
 */
module Records {
  import opened Wire

  const HANDSHAKE: Byte := 0x16
  const MAJOR: Byte := 0x03
  const CLIENT_HELLO: Byte := 0x01
  const MAX_RECORD := 16384
  const MIN_BODY := 34
  const MAX_BODY := 65535

  datatype Collected = Found(msg: Bytes) | NotFound | NeedMore

  /** What the first four handshake bytes say: nothing yet, not a ClientHello, or the message's size. */
  datatype Header = Partial | Bad | Message(size: nat)

  function HeaderOf(j: Bytes): Header {
    if |j| < 4 then Partial
    else if j[0] != CLIENT_HELLO || Rd24(j, 1) < MIN_BODY || Rd24(j, 1) > MAX_BODY then Bad
    else Message(4 + Rd24(j, 1))
  }

  /** What stands at the front of the unread bytes: part of a record, something else, or a record. */
  datatype Front = Short | Alien | Whole(size: nat)

  function FrontOf(p: Bytes): (f: Front)
    ensures f.Whole? ==> 0 < f.size <= MAX_RECORD && 5 + f.size <= |p|
  {
    if |p| < 5 then Short
    else if p[0] != HANDSHAKE || p[1] != MAJOR then Alien
    else
      var rl := Rd16(p, 3);
      if rl == 0 || rl > MAX_RECORD then Alien
      else if |p| - 5 < rl then Short
      else Whole(rl)
  }

  /** The joining loop on the unread bytes `p`, with `acc` already joined. */
  function Join(p: Bytes, acc: Bytes): Collected
    decreases |p|
  {
    match FrontOf(p)
    case Short => NeedMore
    case Alien => NotFound
    case Whole(rl) =>
      var acc' := acc + p[5..5 + rl];
      match HeaderOf(acc')
      case Bad => NotFound
      case Message(n) => if n <= |acc'| then Found(acc'[..n]) else Join(p[5 + rl..], acc')
      case Partial => Join(p[5 + rl..], acc')
  }

  /** The whole function: first-record checks, the fast path for one record, then the loop. */
  function Collect(p: Bytes): Collected {
    if |p| < 1 then NeedMore
    else if p[0] != HANDSHAKE || (|p| >= 2 && p[1] != MAJOR) then NotFound
    else if |p| < 5 then NeedMore
    else
      var rec0 := Rd16(p, 3);
      if rec0 == 0 || rec0 > MAX_RECORD then NotFound
      else
        var h := if rec0 >= 4 && |p| >= 9 then HeaderOf(p[5..9]) else Partial;
        match h
        case Bad => NotFound
        case Message(n) =>
          if n > rec0 then Join(p, [])
          else if |p| < 5 + n then NeedMore
          else Found(p[5..5 + n])
        case Partial => Join(p, [])
  }

  /** What the caller is told; the message itself is handed back beside it. */
  datatype Answer = AFound | ANotFound | ANeedMore

  function AnswerOf(c: Collected): Answer {
    match c
    case Found(_) => AFound
    case NotFound => ANotFound
    case NeedMore => ANeedMore
  }

  const MAX_SCRATCH := 65538 + 16384

  /** collectHandshake, in the source's own 32-bit arithmetic: the prelude and the fast path. */
  method CollectHandshake(p: Bytes, scratch0: Bytes) returns (r: Answer, hs: Bytes, scratch: Bytes)
    requires |p| < 0x1_0000_0000
    ensures r == AnswerOf(Collect(p))
    ensures r == AFound ==> Collect(p) == Found(hs)
    ensures scratch == scratch0 || |scratch| <= MAX_SCRATCH
  {
    var len := |p| as uint32;
    hs, scratch := [], scratch0;
    if len < 1 { return ANeedMore, hs, scratch; }
    if p[0] != HANDSHAKE { return ANotFound, hs, scratch; }
    if len >= 2 && p[1] != MAJOR { return ANotFound, hs, scratch; }
    if len < 5 { return ANeedMore, hs, scratch; }
    var rec0 := Rd16(p, 3) as uint32;
    if rec0 == 0 || rec0 > MAX_RECORD as uint32 { return ANotFound, hs, scratch; }

    if rec0 >= 4 && len >= 9 {
      if p[5] != CLIENT_HELLO { return ANotFound, hs, scratch; }
      var msgLen := Rd24(p, 6) as uint32;
      if msgLen < 34 || msgLen > 65535 { return ANotFound, hs, scratch; }
      var want := 4 + msgLen;
      if want <= rec0 {
        if len < 5 + want { return ANeedMore, hs, scratch; }
        return AFound, p[5..5 + want], scratch;
      }
    }
    r, hs, scratch := JoinRecords(p);
  }

  /** The fragmented case: join record payloads until the announced message is complete. */
  method JoinRecords(p: Bytes) returns (r: Answer, hs: Bytes, scratch: Bytes)
    requires |p| < 0x1_0000_0000
    ensures r == AnswerOf(Join(p, []))
    ensures r == AFound ==> Join(p, []) == Found(hs)
    ensures |scratch| <= MAX_SCRATCH
  {
    hide FrontOf;
    var len := |p| as uint32;
    hs, scratch := [], [];
    var off: uint32 := 0;
    var want: uint32 := 0; // stays 0 until the handshake header is complete
    while want == 0 || |scratch| < want as int
      invariant off <= len
      invariant |scratch| <= MAX_SCRATCH
      invariant HeaderOf(scratch) == if want == 0 then Partial else Message(want as nat)
      invariant Join(p, []) == if want == 0 || |scratch| < want as int then Join(p[off..], scratch)
                               else Found(scratch[..want])
      decreases len - off
    {
      ghost var rest := p[off..];
      var front, rl := ReadFront(p, off);
      if front == ANeedMore { return ANeedMore, hs, scratch; }
      if front == ANotFound { return ANotFound, hs, scratch; }
      assert rest[5..5 + rl] == p[off + 5..off + 5 + rl];
      assert rest[5 + rl..] == p[off + 5 + rl..];

      ghost var joined := scratch;
      scratch := scratch + p[off + 5..off + 5 + rl];
      off := off + (5 + rl);
      KeepsHeader(joined, scratch);

      if want == 0 && |scratch| >= 4 {
        if scratch[0] != CLIENT_HELLO { return ANotFound, hs, scratch; }
        var msgLen := Rd24(scratch, 1) as uint32;
        if msgLen < 34 || msgLen > 65535 { return ANotFound, hs, scratch; }
        want := 4 + msgLen;
      }
      if off >= len && (want == 0 || |scratch| < want as int) {
        NothingLeft(p[off..], scratch);
        return ANeedMore, hs, scratch;
      }
    }
    r, hs := AFound, scratch[..want];
  }

  /** Once four bytes are there, more bytes do not change what they say. */
  lemma KeepsHeader(j: Bytes, more: Bytes)
    requires j <= more
    ensures !HeaderOf(j).Partial? ==> HeaderOf(more) == HeaderOf(j)
  {
    if |j| >= 4 {
      assert forall i | 0 <= i < 4 :: more[i] == j[i];
    }
  }

  /** The record header at `off`: its checks in order, and the payload length when it has arrived. */
  method ReadFront(p: Bytes, off: uint32) returns (r: Answer, rl: uint32)
    requires off as int <= |p| < 0x1_0000_0000
    ensures FrontOf(p[off..]) == match r case ANeedMore => Short case ANotFound => Alien case AFound => Whole(rl as nat)
  {
    var len := |p| as uint32;
    rl := 0;
    if len - off < 5 { return ANeedMore, rl; }
    if p[off] != HANDSHAKE || p[off + 1] != MAJOR { return ANotFound, rl; }
    rl := Rd16(p, off as nat + 3) as uint32;
    if rl == 0 || rl > MAX_RECORD as uint32 { return ANotFound, rl; }
    if len - off - 5 < rl { return ANeedMore, rl; }
    r := AFound;
  }

  lemma NothingLeft(p: Bytes, acc: Bytes)
    requires p == []
    ensures Join(p, acc) == NeedMore
  {}
}
