/** The blocklist: how entry lines are classified, and the suffix walk that answers a lookup. */
module Blocklist {
  import opened Wire

  const DOT: Byte := 46
  const STAR: Byte := 42
  const HASH: Byte := 35

  predicate IsSpace(c: Byte) { 9 <= c <= 13 || c == 32 }

  function Strip(line: Bytes): Bytes {
    if line == [] then []
    else if IsSpace(line[0]) then Strip(line[1..])
    else [line[0]] + Strip(line[1..])
  }

  /** Stripping keeps exactly the other characters, in order: it works piecewise and one character at a time. */
  lemma StripPiecewise(a: Bytes, b: Bytes)
    ensures Strip(a + b) == Strip(a) + Strip(b)
    ensures forall c: Byte :: Strip([c]) == if 9 <= c <= 13 || c == 32 then [] else [c]
    ensures forall c :: c in Strip(a) <==> c in a && !(9 <= c <= 13) && c != 32
  {
    forall c: Byte ensures Strip([c]) == if 9 <= c <= 13 || c == 32 then [] else [c] { assert [c][1..] == []; }
    hide Strip;
    StripConcat(a, b);
    StripKeeps(a);
  }

  lemma {:induction false} StripConcat(a: Bytes, b: Bytes)
    ensures Strip(a + b) == Strip(a) + Strip(b)
  {
    hide IsSpace;
    if a == [] {
      assert a + b == b;
    } else {
      StripConcat(a[1..], b);
      FrontOfConcat(a, b);
      Assoc([a[0]], Strip(a[1..]), Strip(b));
    }
  }

  lemma FrontOfConcat(a: Bytes, b: Bytes)
    requires a != []
    ensures (a + b)[0] == a[0] && (a + b)[1..] == a[1..] + b
  {}

  lemma {:induction false} StripKeeps(a: Bytes)
    ensures forall c :: c in Strip(a) <==> c in a && !IsSpace(c)
  {
    hide IsSpace;
    if a != [] {
      StripKeeps(a[1..]);
      assert a == [a[0]] + a[1..];
    }
  }

  predicate IsComment(s: Bytes) { s == [] || s[0] == HASH }
  predicate IsWildcard(s: Bytes) { |s| > 2 && s[0] == STAR && s[1] == DOT }

  /** Some line, stripped, is `e`, which is no comment (35 is "#") and no wildcard (42, 46 is "*."). */
  ghost predicate NamesExactly(lines: seq<Bytes>, e: Bytes) {
    exists i :: 0 <= i < |lines| && Strip(lines[i]) == e && e != [] && e[0] != 35 && !(|e| > 2 && e[..2] == [42, 46])
  }

  ghost predicate NamesSuffix(lines: seq<Bytes>, s: Bytes) {
    exists i :: 0 <= i < |lines| && Strip(lines[i]) == [42, 46] + s && s != []
  }

  /** `h` ends in "." + s (46 is the dot), whatever (possibly nothing) stands before it. */
  ghost predicate Under(h: Bytes, s: Bytes) { exists p: Bytes :: h == p + [46] + s }

  ghost predicate Listed(exact: set<Bytes>, wildcard: set<Bytes>, h: Bytes) {
    h in exact || exists s :: s in wildcard && Under(h, s)
  }

  /** The first dot at or after `from`, or the length when there is none. */
  function FindDot(h: Bytes, from: nat): (d: nat)
    requires from <= |h|
    ensures from <= d <= |h|
    ensures forall i :: from <= i < d ==> h[i] != DOT
    ensures d < |h| ==> h[d] == DOT
    decreases |h| - from
  {
    if from == |h| || h[from] == DOT then from else FindDot(h, from + 1)
  }

  /** A hostname is below a suffix exactly when one of its dots is followed by that suffix. */
  lemma UnderAtDot(h: Bytes, s: Bytes)
    ensures Under(h, s) <==> exists d :: 0 <= d < |h| && h[d] == DOT && h[d + 1..] == s
  {
    if Under(h, s) {
      var p: Bytes :| h == p + [DOT] + s;
      assert h[|p|] == DOT && h[|p| + 1..] == s;
    }
    forall d | 0 <= d < |h| && h[d] == DOT && h[d + 1..] == s ensures Under(h, s) {
      assert h == h[..d] + [DOT] + s;
    }
  }

  /** The lookup as a function: one of the hostname's dots is followed by a wildcard suffix. */
  predicate OnList(exact: set<Bytes>, wildcard: set<Bytes>, h: Bytes) {
    h in exact || exists d | 0 <= d < |h| && h[d] == DOT :: h[d + 1..] in wildcard
  }

  /** A hostname is on the list exactly when it is an exact entry or lies under a wildcard suffix. */
  lemma OnListIff(exact: set<Bytes>, wildcard: set<Bytes>, h: Bytes)
    ensures OnList(exact, wildcard, h) <==> Listed(exact, wildcard, h)
  {
    forall s ensures Under(h, s) <==> exists d :: 0 <= d < |h| && h[d] == DOT && h[d + 1..] == s { UnderAtDot(h, s); }
    if d :| 0 <= d < |h| && h[d] == DOT && h[d + 1..] in wildcard { assert Under(h, h[d + 1..]); }
  }

  /** A proper subdomain of `s`: something stands before the dot. */
  ghost predicate Below(h: Bytes, s: Bytes) { exists p: Bytes :: p != [] && h == p + [46] + s }

  /** A wildcard also matches its suffix behind a bare dot, which is no subdomain of it. */
  lemma BareDotIsListed(exact: set<Bytes>, wildcard: set<Bytes>, s: Bytes)
    requires s in wildcard
    ensures Listed(exact, wildcard, [46] + s) && !Below([46] + s, s)
  {
    assert [DOT] + s == [] + [DOT] + s;
    assert Under([DOT] + s, s);
  }

  lemma UnderSplits(h: Bytes, s: Bytes)
    ensures Under(h, s) <==> Below(h, s) || (h != [] && h[0] == DOT && h[1..] == s)
  {
    if Under(h, s) {
      var p: Bytes :| h == p + [DOT] + s;
      if p == [] { assert h[1..] == s; } else { assert Below(h, s); }
    }
    if Below(h, s) {
      var p: Bytes :| p != [] && h == p + [DOT] + s;
      assert Under(h, s);
    }
    if h != [] && h[0] == DOT && h[1..] == s { assert h == [] + [DOT] + s; }
  }

  /** The wildcards match the subdomains of their suffixes and, besides, a bare dot before a suffix; nothing else. */
  lemma WildcardsMatchIff(wildcard: set<Bytes>, h: Bytes)
    ensures (exists s :: s in wildcard && Under(h, s)) <==>
      (exists s :: s in wildcard && Below(h, s)) || (h != [] && h[0] == 46 && h[1..] in wildcard)
  {
    hide Under, Below;
    forall s ensures Under(h, s) <==> Below(h, s) || (h != [] && h[0] == DOT && h[1..] == s) { UnderSplits(h, s); }
    if h != [] && h[0] == DOT && h[1..] in wildcard { assert Under(h, h[1..]); }
  }

  class BlockList {
    var exact: set<Bytes>
    var wildcard: set<Bytes>

    ghost predicate Valid()
      reads this
    {
      [] !in wildcard
    }

    constructor (lines: seq<Bytes>)
      ensures Valid()
      ensures forall e :: e in exact <==> NamesExactly(lines, e)
      ensures forall s :: s in wildcard <==> NamesSuffix(lines, s)
    {
      exact, wildcard := {}, {};
      new;
      for i := 0 to |lines|
        invariant forall e :: e in exact <==> NamesExactly(lines[..i], e)
        invariant forall s :: s in wildcard <==> NamesSuffix(lines[..i], s)
      {
        ghost var exact0, wildcard0 := exact, wildcard;
        var line := Strip(lines[i]);
        if !IsComment(line) {
          if IsWildcard(line) {
            wildcard := wildcard + {line[2..]};
          } else {
            exact := exact + {line};
          }
        }
        forall e ensures e in exact <==> NamesExactly(lines[..i + 1], e) { ExactGrows(lines, i, e); }
        forall s ensures s in wildcard <==> NamesSuffix(lines[..i + 1], s) { SuffixGrows(lines, i, s); }
      }
      assert lines[..|lines|] == lines;
    }

    /** The walk over parent domains, one lookup a dot. */
    method IsHostnameBlocked(h: Bytes) returns (blocked: bool)
      requires Valid()
      ensures blocked <==> Listed(exact, wildcard, h)
      ensures blocked == OnList(exact, wildcard, h)
    {
      OnListIff(exact, wildcard, h);
      if h in exact { return true; }
      var dot := FindDot(h, 0);
      while dot != |h|
        invariant 0 <= dot <= |h| && (dot < |h| ==> h[dot] == DOT)
        invariant forall d :: 0 <= d < dot && h[d] == DOT ==> h[d + 1..] !in wildcard
        decreases |h| - dot
      {
        var suffix := h[dot + 1..];
        if suffix == [] { break; }
        if suffix in wildcard { assert h[dot + 1..] == suffix; return true; }
        dot := FindDot(h, dot + 1);
      }
      blocked := false;
    }
  }

  lemma ExactGrows(lines: seq<Bytes>, i: nat, e: Bytes)
    requires i < |lines|
    ensures NamesExactly(lines[..i + 1], e) <==>
      NamesExactly(lines[..i], e) || (Strip(lines[i]) == e && !IsComment(e) && !IsWildcard(e))
  {
    var a, b := lines[..i], lines[..i + 1];
    assert b[i] == lines[i];
    if NamesExactly(a, e) {
      var k :| 0 <= k < |a| && Strip(a[k]) == e;
      assert b[k] == a[k];
    }
    if NamesExactly(b, e) {
      var k :| 0 <= k < |b| && Strip(b[k]) == e;
      if k < i { assert a[k] == b[k]; }
    }
  }

  lemma SuffixGrows(lines: seq<Bytes>, i: nat, s: Bytes)
    requires i < |lines|
    ensures NamesSuffix(lines[..i + 1], s) <==>
      NamesSuffix(lines[..i], s) || (Strip(lines[i]) == [STAR, DOT] + s && s != [])
    ensures IsWildcard(Strip(lines[i])) ==> (Strip(lines[i]) == [STAR, DOT] + s && s != [] <==> Strip(lines[i])[2..] == s)
    ensures Strip(lines[i]) == [STAR, DOT] + s && s != [] ==> IsWildcard(Strip(lines[i])) && !IsComment(Strip(lines[i]))
  {
    var a, b := lines[..i], lines[..i + 1];
    assert b[i] == lines[i];
    if NamesSuffix(a, s) {
      var k :| 0 <= k < |a| && Strip(a[k]) == [STAR, DOT] + s;
      assert b[k] == a[k];
    }
    if NamesSuffix(b, s) {
      var k :| 0 <= k < |b| && Strip(b[k]) == [STAR, DOT] + s;
      if k < i { assert a[k] == b[k]; }
    }
    if IsWildcard(Strip(lines[i])) {
      assert Strip(lines[i]) == [STAR, DOT] + Strip(lines[i])[2..];
    }
  }
}
