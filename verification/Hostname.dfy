/**
 extractHostname, called on a growing buffer: its answers are final, incremental calls agree with one
 call on the whole stream, and it inverts every way of writing a ClientHello into records.
 */
module Hostname {
  import opened Wire
  import Records
  import RT = RecordTheorems
  import Refusals
  import ClientHello
  import Grammar = ClientHelloGrammar

  datatype Lookup = Found(host: Bytes) | NotFound | NeedMore

  function Extract(p: Bytes): Lookup {
    match Records.Collect(p)
    case NeedMore => NeedMore
    case NotFound => NotFound
    case Found(m) => match ClientHello.HostOf(m) case Some(h) => Found(h) case None => NotFound
  }

  /** extractHostname: collect the message from its records, walk the message inside it. */
  method ExtractHostname(p: Bytes, scratch0: Bytes) returns (r: Lookup, scratch: Bytes)
    requires |p| < 0x1_0000_0000
    ensures r == Extract(p)
    ensures scratch == scratch0 || |scratch| <= Records.MAX_SCRATCH
  {
    var a, hs;
    a, hs, scratch := Records.CollectHandshake(p, scratch0);
    if a == Records.ANeedMore { return NeedMore, scratch; }
    if a == Records.ANotFound { return NotFound, scratch; }
    MessageSize(p, hs);
    var found, host, hostLen := ClientHello.ParseClientHello(hs);
    r := if found then Found(hs[host as nat..host as nat + hostLen as nat]) else NotFound;
  }

  lemma MessageSize(p: Bytes, m: Bytes)
    requires Records.Collect(p) == Records.Found(m)
    ensures 38 <= |m| <= 65539
  {
    RT.FoundIff(p, m);
  }

  // ---------------------------------------------------------------- asking again is safe

  lemma ExtractStable(p: Bytes, e: Bytes)
    requires !Extract(p).NeedMore?
    ensures Extract(p + e) == Extract(p)
  {
    RT.CollectStable(p, e);
  }

  function Concat(chunks: seq<Bytes>): Bytes {
    if chunks == [] then [] else chunks[0] + Concat(chunks[1..])
  }

  // The most a flow's stream may grow to while undecided.
  const MAX_STREAM := 32 * 1024

  /** Append a chunk, ask, stop at the first answer or give up on a stream that has grown too long. */
  function Incremental(buf: Bytes, chunks: seq<Bytes>): Lookup
    decreases |chunks|
  {
    if chunks == [] then NeedMore
    else
      var b := buf + chunks[0];
      if !Extract(b).NeedMore? then Extract(b)
      else if |b| > MAX_STREAM then NotFound
      else Incremental(b, chunks[1..])
  }

  /** Some chunk leaves the stream over the limit and still undecided. */
  ghost predicate GivesUp(buf: Bytes, chunks: seq<Bytes>) {
    exists n :: 0 < n <= |chunks| && TooLong(buf + Concat(chunks[..n]))
  }

  predicate TooLong(p: Bytes) { |p| > 32768 && Extract(p).NeedMore? }

  lemma ConcatFirst(buf: Bytes, chunks: seq<Bytes>, n: nat)
    requires 0 < n <= |chunks|
    ensures buf + Concat(chunks[..n]) == (buf + chunks[0]) + Concat(chunks[1..][..n - 1])
  {
    assert chunks[..n][0] == chunks[0] && chunks[..n][1..] == chunks[1..][..n - 1];
    Assoc(buf, chunks[0], Concat(chunks[1..][..n - 1]));
  }

  lemma GivesUpFirst(buf: Bytes, chunks: seq<Bytes>)
    requires chunks != []
    ensures GivesUp(buf, chunks) <==> TooLong(buf + chunks[0]) || GivesUp(buf + chunks[0], chunks[1..])
  {
    var b, rest := buf + chunks[0], chunks[1..];
    hide TooLong, Concat;
    if n :| 0 < n <= |chunks| && TooLong(buf + Concat(chunks[..n])) {
      ConcatFirst(buf, chunks, n);
      if n == 1 { OneChunk(buf, chunks); }
    }
    if TooLong(b) {
      OneChunk(buf, chunks);
    } else if n :| 0 < n <= |rest| && TooLong(b + Concat(rest[..n])) {
      ConcatFirst(buf, chunks, n + 1);
      assert TooLong(buf + Concat(chunks[..n + 1]));
    }
  }

  lemma OneChunk(buf: Bytes, chunks: seq<Bytes>)
    requires chunks != []
    ensures buf + Concat(chunks[..1]) == buf + chunks[0]
  {
    assert chunks[..1][1..] == [];
  }

  /** How a stream is cut into chunks matters in one way only: whether the limit is passed undecided. */
  lemma {:induction false} IncrementalIsWhole(buf: Bytes, chunks: seq<Bytes>)
    requires Extract(buf).NeedMore?
    ensures Incremental(buf, chunks) == if GivesUp(buf, chunks) then NotFound else Extract(buf + Concat(chunks))
    decreases |chunks|
  {
    if chunks == [] {
      assert buf + Concat(chunks) == buf;
    } else {
      var b := buf + chunks[0];
      Assoc(buf, chunks[0], Concat(chunks[1..]));
      GivesUpFirst(buf, chunks);
      if Extract(b).NeedMore? {
        IncrementalIsWhole(b, chunks[1..]);
      } else {
        ExtractStable(b, Concat(chunks[1..]));
        forall n | 0 < n <= |chunks[1..]| ensures !TooLong(b + Concat(chunks[1..][..n])) {
          ExtractStable(b, Concat(chunks[1..][..n]));
        }
      }
    }
  }

  // ---------------------------------------------------------------- what it finds

  /** The stream carries a ClientHello message that names `h`. */
  ghost predicate Carries(p: Bytes, m: Bytes, a: Grammar.Anatomy, h: Bytes) {
    && RT.IsMessage(m) && (RT.FramedIn(p, m) || RT.InsideFirst(p, m))
    && Grammar.Fits(a, h) && Grammar.Assemble(a, h) == m
  }

  lemma ExtractIff(p: Bytes, h: Bytes)
    ensures Extract(p) == Found(h) <==> exists m, a :: Carries(p, m, a, h)
  {
    if Extract(p) == Found(h) {
      var m := Records.Collect(p).msg;
      RT.FoundIff(p, m);
      Grammar.HostOfIff(m, h);
      var a :| Grammar.Fits(a, h) && Grammar.Assemble(a, h) == m;
      assert Carries(p, m, a, h);
    }
    forall m, a | Carries(p, m, a, h) ensures Extract(p) == Found(h) {
      RT.FoundIff(p, m);
      Grammar.AssembledIsFound(a, h);
    }
  }

  /** The stream carries a ClientHello message that names no host. */
  ghost predicate CarriesNameless(p: Bytes, m: Bytes) {
    && RT.IsMessage(m) && (RT.FramedIn(p, m) || RT.InsideFirst(p, m))
    && forall a, h :: !(Grammar.Fits(a, h) && Grammar.Assemble(a, h) == m)
  }

  /**
   No host, finally: the record layer refuses the stream for one of its four reasons, or it carries a
   ClientHello that names none.
   */
  lemma NotFoundIff(p: Bytes)
    ensures Extract(p) == NotFound <==>
      || Refusals.BadStart(p) || Refusals.Interrupted(p) || Refusals.OtherMessage(p) || Refusals.OtherMessageEarly(p)
      || exists m :: CarriesNameless(p, m)
  {
    Refusals.NotFoundIff(p);
    hide Refusals.BadStart, Refusals.Interrupted, Refusals.OtherMessage, Refusals.OtherMessageEarly, RT.IsMessage, ClientHello.HostOf;
    if Extract(p) == NotFound && Records.Collect(p).Found? {
      var m := Records.Collect(p).msg;
      RT.FoundIff(p, m);
      forall a, h ensures !(Grammar.Fits(a, h) && Grammar.Assemble(a, h) == m) { Grammar.HostOfIff(m, h); }
      assert CarriesNameless(p, m);
    }
    forall m | CarriesNameless(p, m) ensures Extract(p) == NotFound {
      RT.FoundIff(p, m);
      if ClientHello.HostOf(m).Some? { Grammar.HostOfIff(m, ClientHello.HostOf(m).value); }
    }
  }

  // ---------------------------------------------------------------- the round trip

  /** A ClientHello for `h` whose three length bytes tell the truth, within the code's ceiling. */
  ghost predicate IsHello(a: Grammar.Anatomy, h: Bytes) {
    && Grammar.Fits(a, h)
    && |Grammar.Assemble(a, h)| - 4 <= 65535
    && a.length == U24(|Grammar.Assemble(a, h)| - 4)
  }

  lemma HelloIsMessage(a: Grammar.Anatomy, h: Bytes)
    requires IsHello(a, h)
    ensures RT.IsMessage(Grammar.Assemble(a, h))
  {
    var m := Grammar.Assemble(a, h);
    assert m[1..4] == a.length;
    assert m[1] == a.length[0] && m[2] == a.length[1] && m[3] == a.length[2];
    assert |Grammar.Head(a)| >= 38;
  }

  /** The records are a framing of that ClientHello: any split of its bytes into legal records. */
  ghost predicate Frames(rs: seq<RT.Record>, a: Grammar.Anatomy, h: Bytes) {
    IsHello(a, h) && RT.AllOk(rs) && RT.Payloads(rs) == Grammar.Assemble(a, h)
  }

  lemma RoundTrip(rs: seq<RT.Record>, a: Grammar.Anatomy, h: Bytes, t: Bytes)
    requires Frames(rs, a, h)
    ensures Extract(RT.Frame(rs) + t) == Found(h)
  {
    HelloIsMessage(a, h);
    RT.FramedIsFound(rs, t, RT.Payloads(rs));
    Grammar.AssembledIsFound(a, h);
  }

  lemma PrefixNeedsMore(rs: seq<RT.Record>, a: Grammar.Anatomy, h: Bytes, q: Bytes)
    requires Frames(rs, a, h) && q < RT.Frame(rs)
    ensures Extract(q) == NeedMore
  {
    HelloIsMessage(a, h);
    RT.ProperPrefixWaits(rs, q);
  }

  /** Some chunk ends past the limit and before the end of the framed hello. */
  ghost predicate CutTooLate(buf: Bytes, chunks: seq<Bytes>, end: nat) {
    exists n :: 0 < n <= |chunks| && 32768 < |buf + Concat(chunks[..n])| < end
  }

  /**
   Over any chunking, from any proper prefix on: the answer is the host, unless a chunk ends past the limit
   and before the last byte of the hello, and then it is given up. Within the limit nothing is answered
   before the last byte is in.
   */
  lemma ChunkedRoundTrip(rs: seq<RT.Record>, a: Grammar.Anatomy, h: Bytes, buf: Bytes, chunks: seq<Bytes>, t: Bytes)
    requires Frames(rs, a, h) && buf < RT.Frame(rs) && buf + Concat(chunks) == RT.Frame(rs) + t
    ensures Incremental(buf, chunks) == if CutTooLate(buf, chunks, |RT.Frame(rs)|) then NotFound else Found(h)
    ensures forall n :: 0 <= n <= |chunks| && |buf + Concat(chunks[..n])| < |RT.Frame(rs)| && |buf + Concat(chunks[..n])| <= 32768
              ==> Incremental(buf, chunks[..n]) == NeedMore
  {
    hide Incremental, Extract, IsHello, RT.Frame, Concat;
    PrefixNeedsMore(rs, a, h, buf);
    IncrementalIsWhole(buf, chunks);
    RoundTrip(rs, a, h, t);
    forall n | 0 < n <= |chunks| ensures TooLong(buf + Concat(chunks[..n])) <==> 32768 < |buf + Concat(chunks[..n])| < |RT.Frame(rs)| {
      CutIsUndecided(rs, a, h, buf, chunks, t, n);
    }
    forall n | 0 <= n <= |chunks| && |buf + Concat(chunks[..n])| < |RT.Frame(rs)| && |buf + Concat(chunks[..n])| <= 32768
      ensures Incremental(buf, chunks[..n]) == NeedMore
    {
      IncrementalIsWhole(buf, chunks[..n]);
      CutIsUndecided(rs, a, h, buf, chunks, t, n);
      forall i | 0 < i <= n ensures !TooLong(buf + Concat(chunks[..n][..i])) { ConcatGrows(chunks[..n], i); }
    }
  }

  /** A cut of the stream is undecided exactly when it falls before the end of the hello. */
  lemma CutIsUndecided(rs: seq<RT.Record>, a: Grammar.Anatomy, h: Bytes, buf: Bytes, chunks: seq<Bytes>, t: Bytes, n: nat)
    requires Frames(rs, a, h) && buf + Concat(chunks) == RT.Frame(rs) + t && n <= |chunks|
    ensures Extract(buf + Concat(chunks[..n])).NeedMore? <==> |buf + Concat(chunks[..n])| < |RT.Frame(rs)|
  {
    hide Extract, IsHello, RT.Frame, Concat;
    ConcatGrows(chunks, n);
    var f, q := RT.Frame(rs), buf + Concat(chunks[..n]);
    assert q == (f + t)[..|q|];
    if |q| < |f| {
      PrefixNeedsMore(rs, a, h, q);
    } else {
      assert q == f + q[|f|..];
      RoundTrip(rs, a, h, q[|f|..]);
    }
  }

  lemma {:induction false} ConcatGrows(chunks: seq<Bytes>, n: nat)
    requires n <= |chunks|
    ensures Concat(chunks[..n]) <= Concat(chunks)
    decreases |chunks|
  {
    if n > 0 {
      ConcatGrows(chunks[1..], n - 1);
      assert chunks[..n][1..] == chunks[1..][..n - 1];
    }
  }
}
