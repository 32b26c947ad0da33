/** Strings, as the language has them. */
module Text {
  /** What `\s` and `trim` treat as white space, line terminators included. */
  predicate IsSpace(c: char) {
    || '\t' <= c <= '\r' || c == ' ' || c == '\U{A0}' || c == '\U{1680}'
    || '\U{2000}' <= c <= '\U{200A}' || c == '\U{2028}' || c == '\U{2029}'
    || c == '\U{202F}' || c == '\U{205F}' || c == '\U{3000}' || c == '\U{FEFF}'
  }

  /**
   The same by code: tab to carriage return, the space, the no-break space and the rest of
   Unicode's, the line and paragraph separators and the byte order mark.
   */
  lemma SpacesByCode(c: char)
    ensures IsSpace(c) <==>
            || 9 <= c as int <= 13 || 0x2000 <= c as int <= 0x200A
            || c as int in {0x20, 0xA0, 0x1680, 0x2028, 0x2029, 0x202F, 0x205F, 0x3000, 0xFEFF}
  {
  }

  predicate IsDigit(c: char) { '0' <= c <= '9' }

  function TrimStart(s: string): string {
    if s != [] && IsSpace(s[0]) then TrimStart(s[1..]) else s
  }

  function TrimEnd(s: string): string {
    if s != [] && IsSpace(s[|s| - 1]) then TrimEnd(s[..|s| - 1]) else s
  }

  function Trim(s: string): string { TrimEnd(TrimStart(s)) }

  ghost predicate Blank(s: string) { forall i :: 0 <= i < |s| ==> IsSpace(s[i]) }

  ghost predicate Tight(s: string) { s != [] ==> !IsSpace(s[0]) && !IsSpace(s[|s| - 1]) }

  lemma {:induction false} TrimStartDrops(a: string, w: string)
    requires Blank(a) && (w == [] || !IsSpace(w[0]))
    ensures TrimStart(a + w) == w
  {
    if a == [] {
      assert a + w == w;
    } else {
      assert (a + w)[1..] == a[1..] + w;
      TrimStartDrops(a[1..], w);
    }
  }

  lemma {:induction false} TrimEndDrops(w: string, b: string)
    requires Blank(b) && (w == [] || !IsSpace(w[|w| - 1]))
    ensures TrimEnd(w + b) == w
  {
    if b == [] {
      assert w + b == w;
    } else {
      assert (w + b)[..|w + b| - 1] == w + b[..|b| - 1];
      TrimEndDrops(w, b[..|b| - 1]);
    }
  }

  /** Trimming leaves what has no white space at its ends, whatever white space stands around it. */
  lemma TrimKeeps(a: string, w: string, b: string)
    requires Blank(a) && Tight(w) && Blank(b)
    ensures Trim(a + (w + b)) == w
  {
    if w == [] {
      assert a + (w + b) == (a + b) + [];
      TrimStartDrops(a + b, []);
    } else {
      TrimStartDrops(a, w + b);
      TrimEndDrops(w, b);
    }
  }

  lemma {:induction false} TrimStartSays(s: string) returns (a: string)
    ensures Blank(a) && s == a + TrimStart(s)
    ensures TrimStart(s) != [] ==> !IsSpace(TrimStart(s)[0])
  {
    a := [];
    if s != [] && IsSpace(s[0]) {
      var rest := TrimStartSays(s[1..]);
      a := [s[0]] + rest;
    }
  }

  lemma {:induction false} TrimEndSays(s: string) returns (b: string)
    ensures Blank(b) && s == TrimEnd(s) + b
    ensures TrimEnd(s) != [] ==> !IsSpace(TrimEnd(s)[|TrimEnd(s)| - 1])
  {
    b := [];
    if s != [] && IsSpace(s[|s| - 1]) {
      var rest := TrimEndSays(s[..|s| - 1]);
      b := rest + [s[|s| - 1]];
    }
  }

  /** Only white space is trimmed off. */
  lemma TrimSays(s: string) returns (a: string, b: string)
    ensures Blank(a) && Tight(Trim(s)) && Blank(b) && s == a + (Trim(s) + b)
  {
    a := TrimStartSays(s);
    b := TrimEndSays(TrimStart(s));
    if Trim(s) != [] {
      assert Trim(s)[0] == TrimStart(s)[0];
    }
  }

  /** `toLowerCase` and `toUpperCase` on the ASCII letters; every other character is left as it is. */
  function LowerChar(c: char): char { if 'A' <= c <= 'Z' then (c as int + 32) as char else c }

  function UpperChar(c: char): char { if 'a' <= c <= 'z' then (c as int - 32) as char else c }

  function Lower(s: string): (r: string)
    ensures |r| == |s| && forall i :: 0 <= i < |s| ==> r[i] == LowerChar(s[i])
  {
    if s == [] then [] else [LowerChar(s[0])] + Lower(s[1..])
  }

  function Upper(s: string): (r: string)
    ensures |r| == |s| && forall i :: 0 <= i < |s| ==> r[i] == UpperChar(s[i])
  {
    if s == [] then [] else [UpperChar(s[0])] + Upper(s[1..])
  }

  /** The first occurrence of `c`, or -1. */
  function IndexOf(s: string, c: char): (k: int)
    ensures -1 <= k < |s|
    ensures k == -1 <==> c !in s
    ensures k >= 0 ==> s[k] == c && c !in s[..k]
  {
    if s == [] then -1
    else if s[0] == c then 0
    else
      var k := IndexOf(s[1..], c);
      assert s == [s[0]] + s[1..];
      if k == -1 then -1
      else
        assert s[..k + 1] == [s[0]] + s[1..][..k];
        k + 1
  }

  lemma {:induction false} FirstIndex(s: string, c: char, n: nat)
    requires n < |s| && s[n] == c && c !in s[..n]
    ensures IndexOf(s, c) == n
  {
    if n > 0 {
      assert s[..n][0] == s[0];
      assert s[..n][1..] == s[1..][..n - 1];
      FirstIndex(s[1..], c, n - 1);
    }
  }

  /** `s.split(c)` for a single separator character: never empty. */
  function Split(s: string, c: char): (parts: seq<string>)
    ensures |parts| >= 1
  {
    if s == [] then [[]]
    else
      var rest := Split(s[1..], c);
      if s[0] == c then [[]] + rest else [[s[0]] + rest[0]] + rest[1..]
  }

  /** The UTF-8 length of a string. */
  function Octets(s: string): nat {
    if s == [] then 0
    else Octets(s[1..]) +
         if s[0] < '\U{80}' then 1 else if s[0] < '\U{800}' then 2 else if s[0] < '\U{10000}' then 3 else 4
  }

  lemma {:induction false} SplitAfterPlain(w: string, t: string, c: char)
    requires c !in w
    ensures Split(w + t, c) == [w + Split(t, c)[0]] + Split(t, c)[1..]
  {
    if w == [] {
      assert w + t == t && w + Split(t, c)[0] == Split(t, c)[0];
    } else {
      assert (w + t)[1..] == w[1..] + t;
      SplitAfterPlain(w[1..], t, c);
      assert [w[0]] + (w[1..] + Split(t, c)[0]) == w + Split(t, c)[0];
    }
  }

  lemma {:induction false} SplitPartsArePlain(s: string, c: char)
    ensures forall i :: 0 <= i < |Split(s, c)| ==> c !in Split(s, c)[i]
    ensures |Split(s, c)| == 1 <==> c !in s
  {
    if s != [] {
      SplitPartsArePlain(s[1..], c);
      assert s == [s[0]] + s[1..];
    }
  }
}
