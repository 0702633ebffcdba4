/**
 The ClientHello walk of parseClientHello (section 4.1.2 of RFC 8446, server_name of section 3 of
 RFC 6066), as functions on the bytes still to read and as the source's index-driven loops.
 */
module ClientHello {
  import opened Wire

  const HOST_NAME: Byte := 0

  /** The ServerNameList: the first host_name entry, if every entry before it is whole. */
  function ScanNames(n: Bytes): Option<Bytes>
    decreases |n|
  {
    if |n| < 3 then None
    else
      var l := Rd16(n, 1);
      if 3 + l > |n| then None
      else if n[0] == HOST_NAME then Some(n[3..3 + l])
      else ScanNames(n[3 + l..])
  }

  /** The data of a server_name extension; a declared list length can only shorten it. */
  function ServerName(d: Bytes): Option<Bytes> {
    if |d| < 2 then None else ScanNames(d[2..Min(|d|, 2 + Rd16(d, 0))])
  }

  /** The extension list: only the first server_name extension counts. */
  function ScanExtensions(x: Bytes): Option<Bytes>
    decreases |x|
  {
    if |x| < 4 then None
    else
      var l := Rd16(x, 2);
      if 4 + l > |x| then None
      else if Rd16(x, 0) == 0 then ServerName(x[4..4 + l])
      else ScanExtensions(x[4 + l..])
  }

  /** From the extensions block on; a declared block length can only shorten it. */
  function AfterCompression(b: Bytes): Option<Bytes> {
    if |b| < 2 then None else ScanExtensions(b[2..Min(|b|, 2 + Rd16(b, 0))])
  }

  function AfterSuites(b: Bytes): Option<Bytes> {
    if |b| < 1 || |b| < 1 + b[0] as int then None else AfterCompression(b[1 + b[0] as int..])
  }

  function AfterSession(b: Bytes): Option<Bytes> {
    if |b| < 2 || |b| < 2 + Rd16(b, 0) then None else AfterSuites(b[2 + Rd16(b, 0)..])
  }

  function AfterRandom(b: Bytes): Option<Bytes> {
    if |b| < 1 || |b| < 1 + b[0] as int then None else AfterSession(b[1 + b[0] as int..])
  }

  /** The host_name of a handshake message, type and length included. */
  function HostOf(m: Bytes): Option<Bytes> {
    if |m| < 4 || m[0] != 1 || |m| < 4 + 34 then None else AfterRandom(m[4 + 34..])
  }

  // ---------------------------------------------------------------- the same steps, by offset

  lemma NamesAt(p: Bytes, q: nat, e: nat)
    requires q <= e <= |p|
    ensures ScanNames(p[q..e]) ==
      if e - q < 3 then None
      else
        var l := Rd16(p, q + 1);
        if q + 3 + l > e then None
        else if p[q] == HOST_NAME then Some(p[q + 3..q + 3 + l])
        else ScanNames(p[q + 3 + l..e])
  {
    var n := p[q..e];
    if e - q >= 3 {
      var l := Rd16(p, q + 1);
      assert l == Rd16(n, 1);
      if q + 3 + l <= e {
        SliceOfSlice(p, q, e, 3, 3 + l);
        SliceOfSlice(p, q, e, 3 + l, e - q);
        assert n[3 + l..] == n[3 + l..e - q];
      }
    }
  }

  lemma ServerNameAt(p: Bytes, q: nat, e: nat)
    requires q <= e <= |p|
    ensures ServerName(p[q..e]) ==
      if e - q < 2 then None else ScanNames(p[q + 2..Min(e, q + 2 + Rd16(p, q))])
  {
    var d := p[q..e];
    if e - q >= 2 {
      assert Rd16(d, 0) == Rd16(p, q);
      SliceOfSlice(p, q, e, 2, Min(e - q, 2 + Rd16(p, q)));
    }
  }

  lemma ExtensionsAt(p: Bytes, o: nat, e: nat)
    requires o <= e <= |p|
    ensures ScanExtensions(p[o..e]) ==
      if e - o < 4 then None
      else
        var l := Rd16(p, o + 2);
        if o + 4 + l > e then None
        else if Rd16(p, o) == 0 then ServerName(p[o + 4..o + 4 + l])
        else ScanExtensions(p[o + 4 + l..e])
  {
    var x := p[o..e];
    if e - o >= 4 {
      var l := Rd16(p, o + 2);
      assert l == Rd16(x, 2) && Rd16(p, o) == Rd16(x, 0);
      if o + 4 + l <= e {
        SliceOfSlice(p, o, e, 4, 4 + l);
        SliceOfSlice(p, o, e, 4 + l, e - o);
        assert x[4 + l..] == x[4 + l..e - o];
      }
    }
  }

  lemma AfterCompressionAt(p: Bytes, o: nat)
    requires o + 2 <= |p|
    ensures AfterCompression(p[o..]) == ScanExtensions(p[o + 2..Min(|p|, o + 2 + Rd16(p, o))])
  {
    var b := p[o..];
    assert Rd16(b, 0) == Rd16(p, o);
    assert b[2..Min(|b|, 2 + Rd16(b, 0))] == p[o + 2..Min(|p|, o + 2 + Rd16(p, o))];
  }

  lemma RandomAt(p: Bytes, o: nat)
    requires o < |p|
    ensures AfterRandom(p[o..]) == if |p| < o + 1 + p[o] as int then None else AfterSession(p[o + 1 + p[o] as int..])
  {
    if |p| >= o + 1 + p[o] as int { assert p[o..][1 + p[o] as int..] == p[o + 1 + p[o] as int..]; }
  }

  lemma SuitesAt(p: Bytes, o: nat)
    requires o < |p|
    ensures AfterSuites(p[o..]) == if |p| < o + 1 + p[o] as int then None else AfterCompression(p[o + 1 + p[o] as int..])
  {
    if |p| >= o + 1 + p[o] as int { assert p[o..][1 + p[o] as int..] == p[o + 1 + p[o] as int..]; }
  }

  lemma SessionAt(p: Bytes, o: nat)
    requires o + 2 <= |p|
    ensures AfterSession(p[o..]) == if |p| < o + 2 + Rd16(p, o) then None else AfterSuites(p[o + 2 + Rd16(p, o)..])
  {
    assert Rd16(p[o..], 0) == Rd16(p, o);
    if |p| >= o + 2 + Rd16(p, o) { assert p[o..][2 + Rd16(p, o)..] == p[o + 2 + Rd16(p, o)..]; }
  }

  // ---------------------------------------------------------------- the source's loops

  // Room below 2^32 for the largest field a step may skip, so that no offset wraps.
  const MAX_MESSAGE := 0xFFFF_FFFF - 0x1_0002

  /** `host` and `hostLen` point inside the message, at what the functions above say is there. */
  ghost predicate Answers(p: Bytes, found: bool, host: uint32, hostLen: uint32, want: Option<Bytes>) {
    if found then host as nat + hostLen as nat <= |p| && want == Some(p[host as nat..host as nat + hostLen as nat])
    else want == None
  }

  /** The fixed part, in the source's 32-bit arithmetic. */
  method ParseClientHello(p: Bytes) returns (found: bool, host: uint32, hostLen: uint32)
    requires |p| <= MAX_MESSAGE
    ensures Answers(p, found, host, hostLen, HostOf(p))
  {
    hide AfterSuites;
    var len := |p| as uint32;
    found, host, hostLen := false, 0, 0;
    if len < 4 || p[0] != 1 { return; }
    var o: uint32 := 4;
    if o + (2 + 32 + 1) > len { return; }
    o := o + (2 + 32);
    RandomAt(p, o as nat);
    o := o + (1 + p[o] as uint32);
    if o + 2 > len { return; }
    found, host, hostLen := ParseVectors(p, o);
  }

  /** The cipher suites at `start` and the compression methods after them. */
  method ParseVectors(p: Bytes, start: uint32) returns (found: bool, host: uint32, hostLen: uint32)
    requires |p| <= MAX_MESSAGE && start as int + 2 <= |p|
    ensures Answers(p, found, host, hostLen, AfterSession(p[start as nat..]))
  {
    hide ScanExtensions;
    var len := |p| as uint32;
    found, host, hostLen := false, 0, 0;
    var o := start;
    SessionAt(p, o as nat);
    o := o + (2 + Rd16(p, o as nat) as uint32);
    if o + 1 > len { return; }
    SuitesAt(p, o as nat);
    o := o + (1 + p[o] as uint32);
    if o + 2 > len { return; }
    AfterCompressionAt(p, o as nat);
    var extEnd := o + 2 + Rd16(p, o as nat) as uint32;
    o := o + 2;
    if extEnd > len { extEnd := len; }
    found, host, hostLen := ParseExtensions(p, o, extEnd);
  }

  /** The extension list, p[start..extEnd]. */
  method ParseExtensions(p: Bytes, start: uint32, extEnd: uint32) returns (found: bool, host: uint32, hostLen: uint32)
    requires |p| <= MAX_MESSAGE && start <= extEnd && extEnd as int <= |p|
    ensures Answers(p, found, host, hostLen, ScanExtensions(p[start as nat..extEnd as nat]))
  {
    hide ServerName, ScanExtensions;
    found, host, hostLen := false, 0, 0;
    var o := start;
    ghost var want := ScanExtensions(p[start as nat..extEnd as nat]);
    while o + 4 <= extEnd
      invariant start <= o <= extEnd
      invariant want == ScanExtensions(p[o as nat..extEnd as nat])
      decreases extEnd - o
    {
      ExtensionsAt(p, o as nat, extEnd as nat);
      var etype := Rd16(p, o as nat);
      var elen := Rd16(p, o as nat + 2) as uint32;
      o := o + 4;
      if o + elen > extEnd { return; }
      if etype == 0 {
        found, host, hostLen := ParseServerNames(p, o, o + elen);
        return;
      }
      o := o + elen;
    }
    ExtensionsAt(p, o as nat, extEnd as nat);
  }

  /** The data of the server_name extension, p[start..end]. */
  method ParseServerNames(p: Bytes, start: uint32, end: uint32) returns (found: bool, host: uint32, hostLen: uint32)
    requires |p| <= MAX_MESSAGE && start <= end && end as int <= |p|
    ensures Answers(p, found, host, hostLen, ServerName(p[start as nat..end as nat]))
  {
    hide ScanNames, ServerName;
    found, host, hostLen := false, 0, 0;
    var q := start;
    var listEnd := end;
    ServerNameAt(p, q as nat, listEnd as nat);
    if q + 2 > listEnd { return; }
    var named := q + 2 + Rd16(p, q as nat) as uint32;
    q := q + 2;
    if named < listEnd { listEnd := named; }
    while q + 3 <= listEnd
      invariant q <= listEnd <= end
      invariant ServerName(p[start as nat..end as nat]) == ScanNames(p[q as nat..listEnd as nat])
      decreases listEnd - q
    {
      NamesAt(p, q as nat, listEnd as nat);
      var nameType := p[q];
      var nameLen := Rd16(p, q as nat + 1) as uint32;
      q := q + 3;
      if q + nameLen > listEnd { return; }
      if nameType == HOST_NAME { return true, q, nameLen; }
      q := q + nameLen;
    }
    NamesAt(p, q as nat, listEnd as nat);
  }
}
