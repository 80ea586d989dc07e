/**
 Unicode whitespace, and trimming, splitting at whitespace and splitting at separators
 as the standard library of Rust does them.
 */
module Text {
  import opened Prelude

  /** The characters with the Unicode property White_Space. */
  predicate IsSpace(c: char) {
    var n := c as int;
    0x09 <= n <= 0x0D || n == 0x20 || n == 0x85 || n == 0xA0 || n == 0x1680 || 0x2000 <= n <= 0x200A
    || n == 0x2028 || n == 0x2029 || n == 0x202F || n == 0x205F || n == 0x3000
  }

  /** Among the ASCII characters: tab, the line and page breaks, and the space. */
  lemma AsciiSpaces(c: char)
    requires c as int < 128
    ensures IsSpace(c) <==> c == ' ' || c == '\t' || c == '\n' || c == '\r' || c as int == 11 || c as int == 12
  {
  }

  predicate Blank(s: string) {
    forall i :: 0 <= i < |s| ==> IsSpace(s[i])
  }

  /** Number of whitespace characters at the front. */
  function Leading(s: string): (n: nat)
    ensures n <= |s| && Blank(s[..n]) && (n < |s| ==> !IsSpace(s[n]))
  {
    if s == [] || !IsSpace(s[0]) then 0
    else
      var n := 1 + Leading(s[1..]);
      assert s[..n] == [s[0]] + s[1..][..n - 1];
      n
  }

  /** Number of characters before the first whitespace. */
  function WordLength(s: string): (n: nat)
    ensures n <= |s| && (forall i :: 0 <= i < n ==> !IsSpace(s[i])) && (n < |s| ==> IsSpace(s[n]))
  {
    if s == [] || IsSpace(s[0]) then 0 else 1 + WordLength(s[1..])
  }

  predicate IsToken(s: string) {
    s != [] && forall i :: 0 <= i < |s| ==> !IsSpace(s[i])
  }

  /** The maximal runs of non-whitespace, in order. */
  function Tokenize(s: string): (tokens: seq<string>)
    ensures forall i :: 0 <= i < |tokens| ==> IsToken(tokens[i])
    decreases |s|
  {
    var t := s[Leading(s)..];
    if t == [] then []
    else
      var n := WordLength(t);
      [t[..n]] + Tokenize(t[n..])
  }

  /** Tokens each followed by some whitespace; only the last may have none after it. */
  datatype Piece = Piece(token: string, gap: string)

  ghost predicate Separated(pieces: seq<Piece>) {
    forall i :: 0 <= i < |pieces| ==>
      IsToken(pieces[i].token) && Blank(pieces[i].gap) && (i < |pieces| - 1 ==> pieces[i].gap != [])
  }

  function Layout(lead: string, pieces: seq<Piece>): string
    decreases |pieces|
  {
    if pieces == [] then lead else lead + (pieces[0].token + Layout(pieces[0].gap, pieces[1..]))
  }

  function TokensOf(pieces: seq<Piece>): seq<string> {
    if pieces == [] then [] else [pieces[0].token] + TokensOf(pieces[1..])
  }

  lemma LeadingIs(s: string, n: nat)
    requires n <= |s| && Blank(s[..n]) && (n < |s| ==> !IsSpace(s[n]))
    ensures Leading(s) == n
  {
    assert forall i :: 0 <= i < n ==> s[..n][i] == s[i];
    assert forall i :: 0 <= i < Leading(s) ==> s[..Leading(s)][i] == s[i];
  }

  /** Laying tokens out and splitting at whitespace gives the tokens back. */
  lemma {:induction false} TokenizeLayout(lead: string, pieces: seq<Piece>)
    requires Blank(lead) && Separated(pieces)
    ensures Tokenize(Layout(lead, pieces)) == TokensOf(pieces)
    decreases |pieces|
  {
    var s := Layout(lead, pieces);
    if pieces == [] {
      assert s[..|s|] == s;
      LeadingIs(s, |s|);
    } else {
      var token, rest := pieces[0].token, Layout(pieces[0].gap, pieces[1..]);
      assert s[..|lead|] == lead && s[|lead|] == token[0];
      LeadingIs(s, |lead|);
      var t := s[|lead|..];
      assert t == token + rest;
      if pieces[1..] != [] {
        assert rest[0] == pieces[0].gap[0];
      }
      assert t[..|token|] == token && t[|token|..] == rest;
      assert forall i :: 0 <= i < |pieces| - 1 ==> pieces[1..][i] == pieces[i + 1];
      TokenizeLayout(pieces[0].gap, pieces[1..]);
    }
  }

  // ---------- trimming ----------

  function Trailing(s: string): (n: nat)
    ensures n <= |s| && (n < |s| ==> !IsSpace(s[|s| - 1 - n]))
    ensures Blank(s[|s| - n..])
  {
    if s == [] || !IsSpace(s[|s| - 1]) then 0
    else
      var r := s[..|s| - 1];
      var n := 1 + Trailing(r);
      assert s[|s| - n..] == r[|r| - (n - 1)..] + [s[|s| - 1]];
      n
  }

  function Trim(s: string): string {
    var t := s[Leading(s)..];
    t[..|t| - Trailing(t)]
  }

  predicate Trimmed(s: string) {
    s == [] || (!IsSpace(s[0]) && !IsSpace(s[|s| - 1]))
  }

  /** Padding on both sides is what trimming takes off. */
  lemma TrimPadded(left: string, s: string, right: string)
    requires Blank(left) && Blank(right) && Trimmed(s)
    ensures Trim(left + s + right) == s
  {
    var all := left + s + right;
    if s == [] {
      assert all[..|all|] == all;
      LeadingIs(all, |all|);
    } else {
      assert all[..|left|] == left && all[|left|] == s[0];
      LeadingIs(all, |left|);
      var t := all[|left|..];
      assert t == s + right && t[|t| - |right|..] == right && t[|t| - 1 - |right|] == s[|s| - 1];
    }
  }

  lemma TrimTrims(s: string)
    ensures Trimmed(Trim(s))
  {
    var t := s[Leading(s)..];
    var r := Trim(s);
    if r != [] {
      assert r[0] == t[0] && r[|r| - 1] == t[|t| - 1 - Trailing(t)];
    }
  }

  // ---------- splitting at a separator ----------

  function Split(s: string, c: char): (parts: seq<string>)
    ensures |parts| >= 1
    ensures forall i :: 0 <= i < |parts| ==> c !in parts[i]
  {
    if s == [] then [[]]
    else
      var rest := Split(s[1..], c);
      if s[0] == c then [[]] + rest else [[s[0]] + rest[0]] + rest[1..]
  }

  function Join(parts: seq<string>, c: char): string {
    if parts == [] then []
    else if |parts| == 1 then parts[0]
    else parts[0] + [c] + Join(parts[1..], c)
  }

  function SplitOnce(s: string, c: char): (r: Option<(string, string)>)
    ensures r.None? <==> c !in s
    ensures r.Some? ==> s == r.value.0 + [c] + r.value.1 && c !in r.value.0
  {
    if s == [] then None
    else if s[0] == c then Some(([], s[1..]))
    else
      var rest := SplitOnce(s[1..], c);
      if rest.Some? then Some(([s[0]] + rest.value.0, rest.value.1)) else None
  }

  lemma {:induction false} SplitWhole(s: string, c: char)
    requires c !in s
    ensures Split(s, c) == [s]
  {
    if s != [] {
      SplitWhole(s[1..], c);
      assert s == [s[0]] + s[1..];
    }
  }

  lemma {:induction false} SplitFirst(s: string, rest: string, c: char)
    requires c !in s
    ensures Split(s + [c] + rest, c) == [s] + Split(rest, c)
  {
    var all := s + [c] + rest;
    if s == [] {
      assert all[1..] == rest;
    } else {
      assert all[1..] == s[1..] + [c] + rest;
      SplitFirst(s[1..], rest, c);
      assert s == [s[0]] + s[1..];
    }
  }

  lemma {:induction false} SplitJoin(parts: seq<string>, c: char)
    requires parts != [] && forall i :: 0 <= i < |parts| ==> c !in parts[i]
    ensures Split(Join(parts, c), c) == parts
  {
    if |parts| == 1 {
      SplitWhole(parts[0], c);
    } else {
      SplitFirst(parts[0], Join(parts[1..], c), c);
      SplitJoin(parts[1..], c);
    }
  }

  lemma {:induction false} SplitOnceIs(a: string, c: char, b: string)
    requires c !in a
    ensures SplitOnce(a + [c] + b, c) == Some((a, b))
  {
    var all := a + [c] + b;
    if a == [] {
      assert all[1..] == b;
    } else {
      assert all[1..] == a[1..] + [c] + b;
      SplitOnceIs(a[1..], c, b);
      assert a == [a[0]] + a[1..];
    }
  }
}
