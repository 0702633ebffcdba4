/**
 A declarative grammar of the ClientHellos that name a host, and the proof that the walk finds exactly
 those: whatever it answers is spelled out by the grammar, and whatever the grammar spells it finds.
 The grammar is as lenient as the code, which lets declared lengths run past the data.
 */
module ClientHelloGrammar {
  import opened Wire
  import opened ClientHello

  datatype Extension = Extension(etype: nat, data: Bytes)
  datatype Name = Name(ntype: Byte, name: Bytes)

  predicate OtherExtension(x: Extension) { 0 < x.etype < 0x1_0000 && |x.data| < 0x1_0000 }
  predicate OtherExtensions(xs: seq<Extension>) { forall i | 0 <= i < |xs| :: OtherExtension(xs[i]) }
  predicate OtherName(n: Name) { n.ntype != 0 && |n.name| < 0x1_0000 }
  predicate OtherNames(ns: seq<Name>) { forall i | 0 <= i < |ns| :: OtherName(ns[i]) }

  function EncExtension(etype: nat, data: Bytes): Bytes
    requires etype < 0x1_0000 && |data| < 0x1_0000
  {
    U16(etype) + U16(|data|) + data
  }

  function EncName(ntype: Byte, name: Bytes): Bytes
    requires |name| < 0x1_0000
  {
    [ntype] + U16(|name|) + name
  }

  function EncExtensions(xs: seq<Extension>): Bytes
    requires OtherExtensions(xs)
  {
    if xs == [] then [] else EncExtension(xs[0].etype, xs[0].data) + EncExtensions(xs[1..])
  }

  function EncNames(ns: seq<Name>): Bytes
    requires OtherNames(ns)
  {
    if ns == [] then [] else EncName(ns[0].ntype, ns[0].name) + EncNames(ns[1..])
  }

  // ---------------------------------------------------------------- names

  lemma NameFront(ntype: Byte, name: Bytes, t: Bytes)
    requires |name| < 0x1_0000
    ensures var n := EncName(ntype, name) + t; var l := |name|;
            |n| >= 3 + l && n[0] == ntype && Rd16(n, 1) == l && n[3..3 + l] == name && n[3 + l..] == t
  {
    var n := EncName(ntype, name) + t;
    assert n[1] == U16(|name|)[0] && n[2] == U16(|name|)[1];
  }

  lemma NameScanned(ntype: Byte, name: Bytes, t: Bytes)
    requires |name| < 0x1_0000
    ensures ScanNames(EncName(ntype, name) + t) == if ntype == 0 then Some(name) else ScanNames(t)
  {
    NameFront(ntype, name, t);
    hide EncName;
  }

  lemma NameIsFront(n: Bytes)
    requires |n| >= 3 && |n| >= 3 + Rd16(n, 1)
    ensures var l := Rd16(n, 1); n == EncName(n[0], n[3..3 + l]) + n[3 + l..]
  {
    Rd16Inverse(n, 1);
    var l := Rd16(n, 1);
    assert n == [n[0]] + n[1..3] + n[3..3 + l] + n[3 + l..];
  }

  lemma {:induction false} NamesFound(ns: seq<Name>, h: Bytes, t: Bytes)
    requires OtherNames(ns) && |h| < 0x1_0000
    ensures ScanNames(EncNames(ns) + EncName(0, h) + t) == Some(h)
    decreases |ns|
  {
    hide ScanNames, EncName;
    if ns == [] {
      assert EncNames(ns) + EncName(0, h) + t == EncName(0, h) + t;
      NameScanned(0, h, t);
    } else {
      var rest := EncNames(ns[1..]) + EncName(0, h) + t;
      assert EncNames(ns) + EncName(0, h) + t == EncName(ns[0].ntype, ns[0].name) + rest;
      NameScanned(ns[0].ntype, ns[0].name, rest);
      NamesFound(ns[1..], h, t);
    }
  }

  lemma {:induction false} NamesSpelled(n: Bytes, h: Bytes) returns (ns: seq<Name>, t: Bytes)
    requires ScanNames(n) == Some(h)
    ensures OtherNames(ns) && |h| < 0x1_0000 && n == EncNames(ns) + EncName(0, h) + t
    decreases |n|
  {
    NameIsFront(n);
    var l := Rd16(n, 1);
    if n[0] == 0 {
      ns, t := [], n[3 + l..];
      assert EncNames(ns) + EncName(0, h) == EncName(0, h);
    } else {
      var more;
      more, t := NamesSpelled(n[3 + l..], h);
      ns := [Name(n[0], n[3..3 + l])] + more;
      PrependName(ns[0], more, EncName(0, h), t);
    }
  }

  lemma PrependName(first: Name, more: seq<Name>, host: Bytes, t: Bytes)
    requires OtherName(first) && OtherNames(more)
    ensures OtherNames([first] + more)
    ensures EncNames([first] + more) + host + t == EncName(first.ntype, first.name) + (EncNames(more) + host + t)
  {
    assert ([first] + more)[1..] == more;
  }

  // ---------------------------------------------------------------- the server_name extension

  /** Its data: the declared list length covers the host entry; anything may follow. */
  function SniData(listLen: nat, ns: seq<Name>, h: Bytes, slack: Bytes): Bytes
    requires OtherNames(ns) && |h| < 0x1_0000 && listLen < 0x1_0000
  {
    U16(listLen) + (EncNames(ns) + EncName(0, h)) + slack
  }

  lemma ServerNameFound(listLen: nat, ns: seq<Name>, h: Bytes, slack: Bytes)
    requires OtherNames(ns) && |h| < 0x1_0000 && listLen < 0x1_0000
    requires |EncNames(ns) + EncName(0, h)| <= listLen
    ensures ServerName(SniData(listLen, ns, h, slack)) == Some(h)
  {
    hide EncNames, EncName, ScanNames;
    var core := EncNames(ns) + EncName(0, h);
    var d := SniData(listLen, ns, h, slack);
    assert d[0] == U16(listLen)[0] && d[1] == U16(listLen)[1];
    var e := Min(|d|, 2 + listLen);
    assert d[2..e] == core + d[2 + |core|..e];
    NamesFound(ns, h, d[2 + |core|..e]);
  }

  lemma ServerNameSpelled(d: Bytes, h: Bytes) returns (ns: seq<Name>, slack: Bytes)
    requires ServerName(d) == Some(h)
    ensures |d| >= 2 && OtherNames(ns) && |h| < 0x1_0000
    ensures |EncNames(ns) + EncName(0, h)| <= Rd16(d, 0)
    ensures d == SniData(Rd16(d, 0), ns, h, slack)
  {
    hide EncNames, EncName, ScanNames, U16;
    var e := Min(|d|, 2 + Rd16(d, 0));
    Declared(d);
    var list, t;
    ns, list, t := ListSpelled(d[2..e], h);
    slack := t + d[e..];
    Regroup(U16(Rd16(d, 0)), list, t, d[e..]);
  }

  lemma ListSpelled(n: Bytes, h: Bytes) returns (ns: seq<Name>, list: Bytes, t: Bytes)
    requires ScanNames(n) == Some(h)
    ensures OtherNames(ns) && |h| < 0x1_0000 && list == EncNames(ns) + EncName(0, h) && n == list + t
  {
    ns, t := NamesSpelled(n, h);
    list := EncNames(ns) + EncName(0, h);
  }

  // ---------------------------------------------------------------- the extension list

  lemma ExtensionFront(etype: nat, data: Bytes, t: Bytes)
    requires etype < 0x1_0000 && |data| < 0x1_0000
    ensures var x := EncExtension(etype, data) + t; var l := |data|;
            |x| >= 4 + l && Rd16(x, 0) == etype && Rd16(x, 2) == l && x[4..4 + l] == data && x[4 + l..] == t
  {
    var x := EncExtension(etype, data) + t;
    assert x[0] == U16(etype)[0] && x[1] == U16(etype)[1];
    assert x[2] == U16(|data|)[0] && x[3] == U16(|data|)[1];
  }

  lemma ExtensionIsFront(x: Bytes)
    requires |x| >= 4 && |x| >= 4 + Rd16(x, 2)
    ensures var l := Rd16(x, 2); x == EncExtension(Rd16(x, 0), x[4..4 + l]) + x[4 + l..]
  {
    Rd16Inverse(x, 0);
    Rd16Inverse(x, 2);
    var l := Rd16(x, 2);
    assert x == x[0..2] + x[2..4] + x[4..4 + l] + x[4 + l..];
  }

  lemma {:induction false} ExtensionsFound(xs: seq<Extension>, d: Bytes, h: Bytes, t: Bytes)
    requires OtherExtensions(xs) && |d| < 0x1_0000 && ServerName(d) == Some(h)
    ensures ScanExtensions(EncExtensions(xs) + EncExtension(0, d) + t) == Some(h)
    decreases |xs|
  {
    if xs == [] {
      assert EncExtensions(xs) + EncExtension(0, d) + t == EncExtension(0, d) + t;
      ExtensionFront(0, d, t);
    } else {
      var rest := EncExtensions(xs[1..]) + EncExtension(0, d) + t;
      assert EncExtensions(xs) + EncExtension(0, d) + t == EncExtension(xs[0].etype, xs[0].data) + rest;
      ExtensionFront(xs[0].etype, xs[0].data, rest);
      ExtensionsFound(xs[1..], d, h, t);
    }
  }

  lemma {:induction false} ExtensionsSpelled(x: Bytes, h: Bytes) returns (xs: seq<Extension>, d: Bytes, t: Bytes)
    requires ScanExtensions(x) == Some(h)
    ensures OtherExtensions(xs) && |d| < 0x1_0000 && ServerName(d) == Some(h)
    ensures x == EncExtensions(xs) + EncExtension(0, d) + t
    decreases |x|
  {
    ExtensionIsFront(x);
    var l := Rd16(x, 2);
    if Rd16(x, 0) == 0 {
      xs, d, t := [], x[4..4 + l], x[4 + l..];
      assert EncExtensions(xs) + EncExtension(0, d) == EncExtension(0, d);
    } else {
      var more;
      more, d, t := ExtensionsSpelled(x[4 + l..], h);
      var first := Extension(Rd16(x, 0), x[4..4 + l]);
      xs := [first] + more;
      PrependExtension(first, more, EncExtension(0, d), t);
    }
  }

  lemma PrependExtension(first: Extension, more: seq<Extension>, sni: Bytes, t: Bytes)
    requires OtherExtension(first) && OtherExtensions(more)
    ensures OtherExtensions([first] + more)
    ensures EncExtensions([first] + more) + sni + t == EncExtension(first.etype, first.data) + (EncExtensions(more) + sni + t)
  {
    assert ([first] + more)[1..] == more;
  }

  // ---------------------------------------------------------------- the whole message

  /** Everything in a ClientHello but the host name. */
  datatype Anatomy = Anatomy(
    length: Bytes, fixed: Bytes, session: Bytes, suites: Bytes, compressions: Bytes,
    blockLen: nat, extensions: seq<Extension>,
    listLen: nat, names: seq<Name>, nameSlack: Bytes, blockSlack: Bytes)

  ghost predicate Fits(a: Anatomy, h: Bytes) {
    && |a.length| == 3 && |a.fixed| == 34 && |a.session| < 256 && |a.suites| < 0x1_0000 && |a.compressions| < 256
    && OtherNames(a.names) && |h| < 0x1_0000
    && |EncNames(a.names) + EncName(0, h)| <= a.listLen < 0x1_0000
    && |SniData(a.listLen, a.names, h, a.nameSlack)| < 0x1_0000
    && OtherExtensions(a.extensions)
    && |Block(a, h)| <= a.blockLen < 0x1_0000
  }

  /** The extensions before server_name and server_name itself. */
  function Block(a: Anatomy, h: Bytes): Bytes
    requires OtherNames(a.names) && |h| < 0x1_0000 && a.listLen < 0x1_0000 && OtherExtensions(a.extensions)
    requires |SniData(a.listLen, a.names, h, a.nameSlack)| < 0x1_0000
  {
    EncExtensions(a.extensions) + EncExtension(0, SniData(a.listLen, a.names, h, a.nameSlack))
  }

  function Head(a: Anatomy): Bytes
    requires |a.session| < 256 && |a.suites| < 0x1_0000 && |a.compressions| < 256
  {
    [1] + a.length + a.fixed + ([|a.session|] + a.session) + (U16(|a.suites|) + a.suites) + ([|a.compressions|] + a.compressions)
  }

  ghost function Assemble(a: Anatomy, h: Bytes): Bytes
    requires Fits(a, h)
  {
    Head(a) + (U16(a.blockLen) + Block(a, h) + a.blockSlack)
  }

  lemma BlockFound(a: Anatomy, h: Bytes)
    requires Fits(a, h)
    ensures AfterCompression(U16(a.blockLen) + Block(a, h) + a.blockSlack) == Some(h)
  {
    hide EncExtensions, EncExtension, EncNames, EncName, SniData, ScanExtensions, ServerName;
    var b := U16(a.blockLen) + Block(a, h) + a.blockSlack;
    var core := Block(a, h);
    assert b[0] == U16(a.blockLen)[0] && b[1] == U16(a.blockLen)[1];
    var e := Min(|b|, 2 + a.blockLen);
    assert b[2..e] == core + b[2 + |core|..e];
    ServerNameFound(a.listLen, a.names, h, a.nameSlack);
    ExtensionsFound(a.extensions, SniData(a.listLen, a.names, h, a.nameSlack), h, b[2 + |core|..e]);
  }

  lemma HeadSkipped(a: Anatomy, b: Bytes)
    requires |a.length| == 3 && |a.fixed| == 34 && |a.session| < 256 && |a.suites| < 0x1_0000 && |a.compressions| < 256
    ensures HostOf(Head(a) + b) == AfterCompression(b)
  {
    hide AfterRandom, AfterSession, AfterSuites, AfterCompression;
    var c := [|a.compressions|] + a.compressions + b;
    SkipSuites(a.compressions, b);
    var s := U16(|a.suites|) + a.suites + c;
    SkipSession(a.suites, c);
    var r := [|a.session|] + a.session + s;
    SkipRandom(a.session, s);
    var m := Head(a) + b;
    assert m == [1] + a.length + a.fixed + r;
    assert m[4 + 34..] == r;
  }

  lemma SkipRandom(v: Bytes, rest: Bytes)
    requires |v| < 256
    ensures AfterRandom([|v|] + v + rest) == AfterSession(rest)
  {
    var r := [|v|] + v + rest;
    assert r[1 + r[0] as int..] == rest;
  }

  lemma SkipSession(v: Bytes, rest: Bytes)
    requires |v| < 0x1_0000
    ensures AfterSession(U16(|v|) + v + rest) == AfterSuites(rest)
  {
    var s := U16(|v|) + v + rest;
    assert s[0] == U16(|v|)[0] && s[1] == U16(|v|)[1];
    assert s[2 + Rd16(s, 0)..] == rest;
  }

  lemma SkipSuites(v: Bytes, rest: Bytes)
    requires |v| < 256
    ensures AfterSuites([|v|] + v + rest) == AfterCompression(rest)
  {
    var c := [|v|] + v + rest;
    assert c[1 + c[0] as int..] == rest;
  }

  /** The message as its fixed part, three vectors, and the extensions block. */
  lemma HeadSpelled(m: Bytes, h: Bytes) returns (a: Anatomy, b: Bytes)
    requires HostOf(m) == Some(h)
    ensures |a.length| == 3 && |a.fixed| == 34 && |a.session| < 256 && |a.suites| < 0x1_0000 && |a.compressions| < 256
    ensures m == Head(a) + b && AfterCompression(b) == Some(h)
  {
    hide AfterRandom, AfterSession, AfterSuites, AfterCompression, Head, U16;
    var session, s := RandomSpelled(m[4 + 34..], h);
    var suites, c := SessionSpelled(s, h);
    var compressions;
    compressions, b := SuitesSpelled(c, h);
    a := Anatomy(m[1..4], m[4..4 + 34], session, suites, compressions, 0, [], 0, [], [], []);
    HeadRegroup(m, a, m[4 + 34..], s, c, b);
  }

  lemma RandomSpelled(r: Bytes, h: Bytes) returns (v: Bytes, rest: Bytes)
    requires AfterRandom(r) == Some(h)
    ensures |v| < 256 && r == [|v|] + v + rest && AfterSession(rest) == Some(h)
  {
    Vector8(r);
    v, rest := r[1..1 + r[0] as int], r[1 + r[0] as int..];
  }

  lemma SessionSpelled(s: Bytes, h: Bytes) returns (v: Bytes, rest: Bytes)
    requires AfterSession(s) == Some(h)
    ensures |v| < 0x1_0000 && s == U16(|v|) + v + rest && AfterSuites(rest) == Some(h)
  {
    Vector16(s);
    v, rest := s[2..2 + Rd16(s, 0)], s[2 + Rd16(s, 0)..];
  }

  lemma SuitesSpelled(c: Bytes, h: Bytes) returns (v: Bytes, rest: Bytes)
    requires AfterSuites(c) == Some(h)
    ensures |v| < 256 && c == [|v|] + v + rest && AfterCompression(rest) == Some(h)
  {
    Vector8(c);
    v, rest := c[1..1 + c[0] as int], c[1 + c[0] as int..];
  }

  lemma HeadRegroup(m: Bytes, a: Anatomy, r: Bytes, s: Bytes, c: Bytes, b: Bytes)
    requires |a.session| < 256 && |a.suites| < 0x1_0000 && |a.compressions| < 256
    requires |m| >= 4 + 34 && m[0] == 1 && a.length == m[1..4] && a.fixed == m[4..4 + 34] && r == m[4 + 34..]
    requires r == [|a.session|] + a.session + s
    requires s == U16(|a.suites|) + a.suites + c
    requires c == [|a.compressions|] + a.compressions + b
    ensures m == Head(a) + b
  {
    assert m == [1] + a.length + a.fixed + r;
  }

  lemma BlockSpelled(b: Bytes, h: Bytes) returns (blockLen: nat, xs: seq<Extension>, d: Bytes, slack: Bytes)
    requires AfterCompression(b) == Some(h)
    ensures blockLen < 0x1_0000 && OtherExtensions(xs) && |d| < 0x1_0000 && ServerName(d) == Some(h)
    ensures |EncExtensions(xs) + EncExtension(0, d)| <= blockLen
    ensures b == U16(blockLen) + (EncExtensions(xs) + EncExtension(0, d)) + slack
  {
    blockLen := Rd16(b, 0);
    var e := Min(|b|, 2 + blockLen);
    var t;
    xs, d, t := ExtensionsSpelled(b[2..e], h);
    slack := t + b[e..];
    Declared(b);
    Regroup(U16(blockLen), EncExtensions(xs) + EncExtension(0, d), t, b[e..]);
  }

  lemma Spelled(m: Bytes, h: Bytes) returns (a: Anatomy)
    requires HostOf(m) == Some(h)
    ensures Fits(a, h) && Assemble(a, h) == m
  {
    var b, d;
    a, b := HeadSpelled(m, h);
    var blockLen, xs, slack;
    blockLen, xs, d, slack := BlockSpelled(b, h);
    var ns, nameSlack := ServerNameSpelled(d, h);
    a := a.(blockLen := blockLen, extensions := xs, listLen := Rd16(d, 0), names := ns, nameSlack := nameSlack, blockSlack := slack);
  }

  lemma AssembledIsFound(a: Anatomy, h: Bytes)
    requires Fits(a, h)
    ensures HostOf(Assemble(a, h)) == Some(h)
  {
    BlockFound(a, h);
    HeadSkipped(a, U16(a.blockLen) + Block(a, h) + a.blockSlack);
  }

  /** The walk names a host exactly when the message is a ClientHello that names it. */
  lemma HostOfIff(m: Bytes, h: Bytes)
    ensures HostOf(m) == Some(h) <==> exists a :: Fits(a, h) && Assemble(a, h) == m
  {
    if HostOf(m) == Some(h) { var a := Spelled(m, h); }
    forall a | Fits(a, h) && Assemble(a, h) == m ensures HostOf(m) == Some(h) { AssembledIsFound(a, h); }
  }
}
