/** Robots rules. */
module RobotsMatch {
  // Matching one path against robots rules (packages/governor/src/robots-parse.ts,
  // `matchesPattern`, `decidePath`, `selectGroup`, `normalisePath`).

  import opened Prelude
  import opened Text

  // ---------------------------------------------------------------------------
  // Patterns. The reference is the character-by-character reading of section
  // 2.2.3 of RFC 9309: `*` stands for any run of characters, everything else for
  // itself, and `$` at the end asks that nothing be left over.
  // ---------------------------------------------------------------------------

  /** Does `p` match `s` from position `j`, and, when anchored, up to the end? */
  ghost predicate Glob(p: string, s: string, j: nat, anchored: bool)
    requires j <= |s|
    decreases |p|
  {
    if p == [] then (anchored ==> j == |s|)
    else if p[0] == '*' then exists k: nat :: j <= k <= |s| && Glob(p[1..], s, k, anchored)
    else j < |s| && s[j] == p[0] && Glob(p[1..], s, j + 1, anchored)
  }

  predicate Anchored(pattern: string) { pattern != [] && pattern[|pattern| - 1] == '$' }

  function Body(pattern: string): string {
    if Anchored(pattern) then pattern[..|pattern| - 1] else pattern
  }

  /** The standard's own answer. */
  ghost predicate StandardMatches(pattern: string, path: string) {
    Glob(Body(pattern), path, 0, Anchored(pattern))
  }

  /** An anchored pattern with no `*`: the code tests only the two ends of the path. */
  predicate BothEndsMatch(body: string, path: string) {
    At(path, body, 0) && EndsWith(path, body)
  }

  /** What the code accepts, for every pattern and path. */
  ghost predicate Matches(pattern: string, path: string) {
    if Anchored(pattern) && '*' !in Body(pattern) then BothEndsMatch(Body(pattern), path)
    else StandardMatches(pattern, path)
  }

  predicate At(s: string, segment: string, k: nat) {
    k + |segment| <= |s| && s[k..k + |segment|] == segment
  }

  predicate EndsWith(s: string, segment: string) {
    |segment| <= |s| && At(s, segment, |s| - |segment|)
  }

  /** The remaining segments, each preceded by a `*`, can be laid out in `s` from `j` on. */
  ghost predicate Tail(segments: seq<string>, s: string, j: nat, anchored: bool)
    requires j <= |s|
    decreases |segments|
  {
    if segments == [] then (anchored ==> j == |s|)
    else exists k: nat :: j <= k && At(s, segments[0], k) && Tail(segments[1..], s, k + |segments[0]|, anchored)
  }

  /** Reading by characters and reading by the segments between the `*`s agree. */
  lemma {:induction false} GlobIsTail(p: string, s: string, j: nat, anchored: bool)
    requires j <= |s|
    ensures var r := Split(p, '*');
            Glob(p, s, j, anchored) <==> At(s, r[0], j) && Tail(r[1..], s, j + |r[0]|, anchored)
    decreases |p|
  {
    var r := Split(p, '*');
    if p != [] {
      var r' := Split(p[1..], '*');
      if p[0] == '*' {
        assert r[1..] == r';
        forall k: nat | j <= k <= |s|
          ensures Glob(p[1..], s, k, anchored) <==> At(s, r'[0], k) && Tail(r'[1..], s, k + |r'[0]|, anchored)
        {
          GlobIsTail(p[1..], s, k, anchored);
        }
      } else {
        assert r[1..] == r'[1..] && r[0] == [p[0]] + r'[0];
        if j < |s| {
          GlobIsTail(p[1..], s, j + 1, anchored);
          AtCons(s, p[0], r'[0], j);
        }
      }
    }
  }

  lemma AtCons(s: string, c: char, w: string, j: nat)
    requires j < |s|
    ensures At(s, [c] + w, j) <==> s[j] == c && At(s, w, j + 1)
  {
    if j + 1 + |w| <= |s| {
      assert s[j..j + 1 + |w|] == [s[j]] + s[j + 1..j + 1 + |w|];
    }
  }

  /** Room further right is room further left, because a `*` comes first. */
  lemma {:induction false} TailFromFurtherLeft(segments: seq<string>, s: string, j: nat, k: nat, anchored: bool)
    requires segments != [] && j <= k <= |s| && Tail(segments, s, k, anchored)
    ensures Tail(segments, s, j, anchored)
  {
  }

  /** `path.indexOf(segment, from)`. */
  function Find(s: string, segment: string, from: nat): (k: int)
    requires from <= |s|
    ensures k == -1 || from <= k
    ensures k == -1 ==> forall i: nat :: from <= i ==> !At(s, segment, i)
    ensures k >= 0 ==> At(s, segment, k) && forall i: nat :: from <= i < k ==> !At(s, segment, i)
    decreases |s| - from
  {
    if from + |segment| > |s| then -1
    else if At(s, segment, from) then from
    else if from == |s| then -1
    else Find(s, segment, from + 1)
  }

  /** Taking the leftmost occurrence of the next segment loses no layout of the ones after it. */
  lemma {:induction false} LeftmostIsEnough(segments: seq<string>, s: string, j: nat, anchored: bool)
    requires segments != [] && j <= |s|
    ensures var k := Find(s, segments[0], j);
            if k == -1 then !Tail(segments, s, j, anchored)
            else if |segments| > 1 then Tail(segments, s, j, anchored) <==> Tail(segments[1..], s, k + |segments[0]|, anchored)
            else Tail(segments, s, j, anchored) <==> !anchored || EndsWith(s, segments[0])
  {
    if Find(s, segments[0], j) >= 0 {
      if |segments| > 1 {
        LeftmostLeavesRoom(segments, s, j, anchored);
      } else {
        LastEndsAnywhere(segments, s, j, anchored);
      }
    }
  }

  lemma {:induction false} LeftmostLeavesRoom(segments: seq<string>, s: string, j: nat, anchored: bool)
    requires |segments| > 1 && j <= |s| && Find(s, segments[0], j) >= 0
    ensures Tail(segments, s, j, anchored) <==> Tail(segments[1..], s, Find(s, segments[0], j) + |segments[0]|, anchored)
  {
    var k, n := Find(s, segments[0], j), |segments[0]|;
    if Tail(segments, s, j, anchored) {
      var i: nat :| j <= i && At(s, segments[0], i) && Tail(segments[1..], s, i + n, anchored);
      TailFromFurtherLeft(segments[1..], s, k + n, i + n, anchored);
    }
  }

  lemma {:induction false} LastEndsAnywhere(segments: seq<string>, s: string, j: nat, anchored: bool)
    requires |segments| == 1 && j <= |s| && Find(s, segments[0], j) >= 0
    ensures Tail(segments, s, j, anchored) <==> !anchored || EndsWith(s, segments[0])
  {
    var k, n := Find(s, segments[0], j), |segments[0]|;
    assert segments[1..] == [];
    assert At(s, segments[0], k) && (!anchored ==> Tail(segments[1..], s, k + n, anchored));
    if At(s, segments[0], |s| - n) {
      assert j <= |s| - n && Tail(segments[1..], s, |s| - n + n, anchored);
    }
  }

  lemma FindEmpty(s: string, from: nat)
    requires from <= |s|
    ensures Find(s, [], from) == from
  {
    assert At(s, [], from);
  }

  /** The loop of the code: leftmost-greedy over the segments between the `*`s. */
  method MatchesPattern(pattern: string, path: string) returns (matched: bool)
    ensures matched <==> Matches(pattern, path)
  {
    var anchored := Anchored(pattern);
    var body := Body(pattern);
    var segments := Split(body, '*');
    SplitPartsArePlain(body, '*');
    GlobIsTail(body, path, 0, anchored);
    if !At(path, segments[0], 0) {
      OnlySegmentIsBody(body);
      return false;
    }
    var index: nat := |segments[0]|;
    var i := 1;
    assert segments[1..] == segments[i..];
    while i < |segments|
      invariant 1 <= i <= |segments| && index <= |path| && At(path, segments[0], 0)
      invariant i < |segments| ==> (Glob(body, path, 0, anchored) <==> Tail(segments[i..], path, index, anchored))
      invariant i == |segments| == 1 ==> index == |segments[0]| && (Glob(body, path, 0, anchored) <==> !anchored || index == |path|)
      invariant i == |segments| > 1 ==> |segments[|segments| - 1]| <= index
      invariant i == |segments| > 1 ==>
          (Glob(body, path, 0, anchored) <==> !anchored || EndsWith(path, segments[|segments| - 1]))
    {
      var segment := segments[i];
      LeftmostIsEnough(segments[i..], path, index, anchored);
      assert segments[i..][0] == segment && segments[i..][1..] == segments[i + 1..];
      FindEmpty(path, index);
      if |segment| > 0 {
        var found := Find(path, segment, index);
        if found == -1 {
          return false;
        }
        index := found + |segment|;
      }
      i := i + 1;
    }
    if !anchored {
      return true;
    }
    var last := segments[|segments| - 1];
    OnlySegmentIsBody(body);
    if |last| == 0 {
      return true;
    }
    matched := EndsWith(path, last) && |path| >= index;
  }

  lemma {:induction false} OnlySegmentIsBody(body: string)
    ensures '*' !in body ==> Split(body, '*') == [body]
  {
    if '*' !in body {
      SplitAfterPlain(body, [], '*');
      assert body + [] == body;
    }
  }

  /**
   THE EXACT CONDITION: the code reads a pattern as the standard does, on every path, iff it is
   unanchored or has a `*`.
   */
  lemma StandardOnEveryPathIff(pattern: string)
    ensures (forall path :: Matches(pattern, path) <==> StandardMatches(pattern, path)) <==>
            !Anchored(pattern) || '*' in Body(pattern)
  {
    var body := Body(pattern);
    if Anchored(pattern) && '*' !in body {
      var path := if body == [] then "x" else body + body;
      LiteralMatchesItself(body, path);
      assert At(path, body, 0);
      assert EndsWith(path, body);
      assert Matches(pattern, path) && !StandardMatches(pattern, path);
    }
  }

  lemma {:induction false} LiteralMatchesItself(body: string, path: string)
    requires '*' !in body
    ensures Glob(body, path, 0, true) <==> path == body
  {
    OnlySegmentIsBody(body);
    GlobIsTail(body, path, 0, true);
    assert Split(body, '*')[1..] == [];
  }

  /** The witness in words: `/a$` accepts `/a/a`, which the standard's anchor does not. */
  lemma AnchoredLiteralOverAccepts()
    ensures Matches("/a$", "/a/a") && !StandardMatches("/a$", "/a/a")
  {
    assert Body("/a$") == "/a";
    LiteralMatchesItself("/a", "/a/a");
    assert At("/a/a", "/a", 0) && At("/a/a", "/a", 2);
  }

  // ---------------------------------------------------------------------------
  // Percent normalisation.
  // ---------------------------------------------------------------------------

  predicate IsHex(c: char) { IsDigit(c) || 'A' <= c <= 'F' || 'a' <= c <= 'f' }

  function HexValue(c: char): (v: nat)
    requires IsHex(c)
    ensures v < 16
  {
    if IsDigit(c) then (c as int - '0' as int)
    else if 'A' <= c <= 'F' then (c as int - 'A' as int) + 10
    else (c as int - 'a' as int) + 10
  }

  predicate IsUnreserved(c: char) {
    'A' <= c <= 'Z' || 'a' <= c <= 'z' || IsDigit(c) || c == '-' || c == '.' || c == '_' || c == '~'
  }

  predicate EscapeAt(s: string, i: nat) {
    i + 2 < |s| && s[i] == '%' && IsHex(s[i + 1]) && IsHex(s[i + 2])
  }

  /** One escape: an unreserved octet is decoded, any other is only upper-cased. */
  function Unescape(a: char, b: char): (r: string)
    requires IsHex(a) && IsHex(b)
    ensures '*' !in r
    ensures (|r| == 1 && IsUnreserved(r[0])) || (|r| == 3 && EscapeAt(r, 0))
  {
    var c := (16 * HexValue(a) + HexValue(b)) as char;
    if IsUnreserved(c) then [c] else ['%', UpperChar(a), UpperChar(b)]
  }

  lemma UnescapeTwice(a: char, b: char)
    requires IsHex(a) && IsHex(b)
    ensures var r := Unescape(a, b); |r| == 3 ==> Unescape(r[1], r[2]) == r
  {
  }

  function Normalise(s: string): string {
    if s == [] then []
    else if EscapeAt(s, 0) then Unescape(s[1], s[2]) + Normalise(s[3..])
    else [s[0]] + Normalise(s[1..])
  }

  function NormaliseAll(parts: seq<string>): (r: seq<string>)
    ensures |r| == |parts| && forall i :: 0 <= i < |parts| ==> r[i] == Normalise(parts[i])
  {
    if parts == [] then [] else [Normalise(parts[0])] + NormaliseAll(parts[1..])
  }

  /** Normalising a pattern and cutting it at its `*`s can be done in either order. */
  lemma {:induction false} NormaliseCommutesWithSplit(s: string)
    ensures Split(Normalise(s), '*') == NormaliseAll(Split(s, '*'))
    decreases |s|
  {
    if s == [] {
    } else if EscapeAt(s, 0) {
      var t := s[3..];
      NormaliseCommutesWithSplit(t);
      var w := ['%', s[1], s[2]];
      assert s == w + t;
      SplitAfterPlain(w, t, '*');
      SplitAfterPlain(Unescape(s[1], s[2]), Normalise(t), '*');
      var first := Split(t, '*')[0];
      assert EscapeAt(w + first, 0) && (w + first)[3..] == first;
    } else {
      var t := s[1..];
      NormaliseCommutesWithSplit(t);
      if s[0] != '*' {
        var first := Split(t, '*')[0];
        FirstPartIsPrefix(t, '*');
        assert s == [s[0]] + t;
        assert !EscapeAt([s[0]] + first, 0);
        assert ([s[0]] + first)[1..] == first;
        SplitAfterPlain([s[0]], t, '*');
        SplitAfterPlain([s[0]], Normalise(t), '*');
      } else {
        assert Normalise([]) == [];
        assert Normalise(s) == ['*'] + Normalise(t) && Normalise(s)[1..] == Normalise(t);
      }
    }
  }

  lemma {:induction false} FirstPartIsPrefix(s: string, c: char)
    ensures Split(s, c)[0] <= s
  {
    if s != [] && s[0] != c {
      FirstPartIsPrefix(s[1..], c);
      assert s == [s[0]] + s[1..];
    }
  }

  /** How many characters of `s` its first normalised character is made of, when it stands for one. */
  function LeadLength(s: string): nat { if EscapeAt(s, 0) then 3 else 1 }

  /** The first character of `s` once normalised. */
  function Lead(s: string): Option<char> {
    if s == [] then None else if EscapeAt(s, 0) then Some(Unescape(s[1], s[2])[0]) else Some(s[0])
  }

  predicate LeadsWithHex(s: string) { Lead(s).Some? && IsHex(Lead(s).value) }

  /**
   What follows a `%` in `s` will be two hex digits, each written as itself or as an escape, and
   not in their final spelling.
   */
  predicate NewEscape(s: string) {
    && LeadsWithHex(s) && LeadsWithHex(s[LeadLength(s)..])
    && var a, b := Lead(s).value, Lead(s[LeadLength(s)..]).value;
       Unescape(a, b) != ['%', a, b]
  }

  /** The lead is indeed what normalising puts first. */
  lemma {:induction false} LeadIsFirst(s: string)
    ensures Lead(s).Some? <==> Normalise(s) != []
    ensures s != [] ==> Normalise(s)[0] == Lead(s).value
    ensures LeadsWithHex(s) ==> LeadLength(s) <= |s| && Normalise(s) == [Lead(s).value] + Normalise(s[LeadLength(s)..])
  {
  }

  /** So the test on the text decides whether a `%` before it comes to start an escape not in its final spelling. */
  lemma {:induction false} NewEscapeIsMade(s: string)
    ensures var r := Normalise(s);
            NewEscape(s) <==> EscapeAt(['%'] + r, 0) && Unescape(r[0], r[1]) != ['%', r[0], r[1]]
  {
    LeadIsFirst(s);
    if LeadsWithHex(s) {
      LeadIsFirst(s[LeadLength(s)..]);
    }
  }

  /** Reading from the left, some `%` that starts no escape comes to start one by what follows it. */
  predicate Stray(s: string) {
    if s == [] then false
    else if EscapeAt(s, 0) then Stray(s[3..])
    else (s[0] == '%' && NewEscape(s[1..])) || Stray(s[1..])
  }

  lemma {:induction false} NormaliseStep(c: char, r: string)
    ensures Normalise([c] + r) == if EscapeAt([c] + r, 0) then Unescape(r[0], r[1]) + Normalise(r[2..]) else [c] + Normalise(r)
  {
    assert ([c] + r)[1..] == r;
    if EscapeAt([c] + r, 0) {
      assert ([c] + r)[3..] == r[2..];
    }
  }

  /** Two digits at the front are left as they are. */
  lemma {:induction false} NormaliseDigits(r: string)
    requires |r| >= 2 && IsHex(r[0]) && IsHex(r[1])
    ensures Normalise(r) == [r[0], r[1]] + Normalise(r[2..])
  {
    assert !EscapeAt(r, 0) && !EscapeAt(r[1..], 0);
    assert r[1..][1..] == r[2..];
  }

  lemma {:induction false} NormaliseAfterEscape(a: char, b: char, rest: string)
    requires IsHex(a) && IsHex(b)
    ensures var u := Unescape(a, b); Normalise(u + rest) == u + Normalise(rest)
  {
    var u := Unescape(a, b);
    if |u| == 1 {
      NormaliseStep(u[0], rest);
    } else {
      assert EscapeAt(u + rest, 0) && (u + rest)[3..] == rest;
      UnescapeTwice(a, b);
    }
  }

  lemma SameAfterPrefix(u: string, x: string, y: string)
    ensures u + x == u + y <==> x == y
  {
    if u + x == u + y {
      assert (u + x)[|u|..] == x && (u + y)[|u|..] == y;
    }
  }

  /** A lone `%`: normalised again it stays, unless what follows has made it an escape not yet in its final spelling. */
  lemma {:induction false} LonePercent(rest: string)
    ensures var r := Normalise(rest);
            Normalise(['%'] + r) == ['%'] + r <==> !NewEscape(rest) && Normalise(r) == r
  {
    var r := Normalise(rest);
    NewEscapeIsMade(rest);
    if EscapeAt(['%'] + r, 0) {
      MadeEscape(r);
    } else {
      NormaliseStep('%', r);
      SameAfterPrefix(['%'], Normalise(r), r);
    }
  }

  /** A `%` that the two digits after it have made an escape. */
  lemma {:induction false} MadeEscape(r: string)
    requires EscapeAt(['%'] + r, 0)
    ensures Normalise(['%'] + r) == ['%'] + r <==> Unescape(r[0], r[1]) == ['%', r[0], r[1]] && Normalise(r) == r
  {
    var tail := r[2..];
    NormaliseStep('%', r);
    NormaliseDigits(r);
    TwoThenTail(r);
    SameAfterPrefix([r[0], r[1]], Normalise(tail), tail);
    if Unescape(r[0], r[1]) == ['%', r[0], r[1]] {
      SameAfterPrefix(['%', r[0], r[1]], Normalise(tail), tail);
    } else {
      EscapeChanges(r[0], r[1], Normalise(tail), tail);
    }
  }

  lemma TwoThenTail(r: string)
    requires |r| >= 2
    ensures r == [r[0], r[1]] + r[2..] && ['%'] + r == ['%', r[0], r[1]] + r[2..]
  {
  }

  lemma EscapeChanges(a: char, b: char, x: string, y: string)
    requires IsHex(a) && IsHex(b) && Unescape(a, b) != ['%', a, b]
    ensures Unescape(a, b) + x != ['%', a, b] + y
  {
    var u := Unescape(a, b);
    if |u| == 1 {
      assert (u + x)[0] == u[0] && (['%', a, b] + y)[0] == '%';
    } else {
      assert (u + x)[..3] == u && (['%', a, b] + y)[..3] == ['%', a, b];
    }
  }

  /** IDEMPOTENT, exactly when no lone `%` comes to start an escape: normalising twice is then normalising once. */
  lemma {:induction false} NormaliseIsIdempotentIff(s: string)
    ensures Normalise(Normalise(s)) == Normalise(s) <==> !Stray(s)
    decreases |s|
  {
    if s == [] {
    } else if EscapeAt(s, 0) {
      NormaliseIsIdempotentIff(s[3..]);
      NormaliseAfterEscape(s[1], s[2], Normalise(s[3..]));
      SameAfterPrefix(Unescape(s[1], s[2]), Normalise(Normalise(s[3..])), Normalise(s[3..]));
    } else {
      NormaliseIsIdempotentIff(s[1..]);
      if s[0] == '%' {
        LonePercent(s[1..]);
      } else {
        NormaliseStep(s[0], Normalise(s[1..]));
        SameAfterPrefix([s[0]], Normalise(Normalise(s[1..])), Normalise(s[1..]));
      }
    }
  }

  /** Such a path: the first pass spells the escape `%41`, the second decodes it. */
  lemma LonePercentIsNotIdempotent()
    ensures Normalise("%%34%31") == "%41" && Normalise("%41") == "A"
  {
    assert Normalise("%31") == "1" && Normalise("%34%31") == "41";
  }

  /** Every `%` of `s` starts a two-digit escape. */
  ghost predicate WellEscaped(s: string) {
    forall i: nat :: i < |s| && s[i] == '%' ==> EscapeAt(s, i)
  }

  /** In particular it is idempotent on every well-formed path. */
  lemma {:induction false} WellEscapedHasNoStray(s: string)
    requires WellEscaped(s)
    ensures !Stray(s)
    decreases |s|
  {
    if s != [] {
      var n := if EscapeAt(s, 0) then 3 else 1;
      forall i: nat | i < |s[n..]| && s[n..][i] == '%' ensures EscapeAt(s[n..], i) {
        assert EscapeAt(s, i + n);
      }
      WellEscapedHasNoStray(s[n..]);
    }
  }

  // ---------------------------------------------------------------------------
  // Deciding one path against one group's rules.
  // ---------------------------------------------------------------------------

  datatype Kind = Allow | Disallow
  datatype Rule = Rule(kind: Kind, pattern: string)
  datatype Verdict = Verdict(allowed: bool, rule: Option<Rule>)

  ghost predicate Applies(rule: Rule, target: string) {
    rule.pattern != [] && Matches(Normalise(rule.pattern), target)
  }

  /** No rule applies, or among those with the most written octets one is an allow. */
  ghost predicate RulesAllow(rules: seq<Rule>, target: string) {
    || (forall r :: r in rules ==> !Applies(r, target))
    || exists a :: a in rules && a.kind.Allow? && MostSpecific(a, rules, target)
  }

  ghost predicate MostSpecific(rule: Rule, rules: seq<Rule>, target: string) {
    && rule in rules && Applies(rule, target)
    && forall r :: r in rules && Applies(r, target) ==> Octets(r.pattern) <= Octets(rule.pattern)
  }

  ghost predicate PathAllowed(rules: seq<Rule>, path: string) {
    Normalise(path) == "/robots.txt" || RulesAllow(rules, Normalise(path))
  }

  method DecidePath(rules: seq<Rule>, path: string) returns (verdict: Verdict)
    ensures verdict.allowed <==> PathAllowed(rules, path)
    ensures verdict.rule.Some? ==>
              MostSpecific(verdict.rule.value, rules, Normalise(path)) && verdict.allowed == verdict.rule.value.kind.Allow?
    ensures verdict.rule == None ==>
              verdict.allowed && (Normalise(path) == "/robots.txt" || forall r :: r in rules ==> !Applies(r, Normalise(path)))
  {
    var target := Normalise(path);
    if target == "/robots.txt" {
      return Verdict(true, None);
    }
    var best: Option<Rule> := None;
    for i := 0 to |rules|
      invariant best == None ==> forall r :: r in rules[..i] ==> !Applies(r, target)
      invariant best.Some? ==> MostSpecific(best.value, rules[..i], target)
      invariant best.Some? && best.value.kind.Disallow? ==>
          forall r :: r in rules[..i] && Applies(r, target) && r.kind.Allow? ==> Octets(r.pattern) < Octets(best.value.pattern)
    {
      var rule := rules[i];
      assert rules[..i + 1] == rules[..i] + [rule];
      if |rule.pattern| == 0 {
        continue;
      }
      var matched := MatchesPattern(Normalise(rule.pattern), target);
      if !matched {
        continue;
      }
      var octets := Octets(rule.pattern);
      if best == None || octets > Octets(best.value.pattern) {
        best := Some(rule);
        continue;
      }
      if octets == Octets(best.value.pattern) && rule.kind == Allow {
        best := Some(rule);
      }
    }
    assert rules[..|rules|] == rules;
    if best == None {
      return Verdict(true, None);
    }
    verdict := Verdict(best.value.kind == Allow, best);
  }

  // ---------------------------------------------------------------------------
  // Group selection, and what the verdict does not depend on.
  // ---------------------------------------------------------------------------

  datatype Group = Group(agents: seq<string>, rules: seq<Rule>)

  /** The rules of every group naming `agent`, in file order. */
  function RulesFor(groups: seq<Group>, agent: string): seq<Rule> {
    if groups == [] then []
    else (if agent in groups[0].agents then groups[0].rules else []) + RulesFor(groups[1..], agent)
  }

  predicate Names(groups: seq<Group>, agent: string) {
    exists g :: g in groups && agent in g.agents
  }

  function SelectGroup(groups: seq<Group>, productToken: string): seq<Rule> {
    var token := Lower(productToken);
    if Names(groups, token) then RulesFor(groups, token)
    else if Names(groups, "*") then RulesFor(groups, "*")
    else []
  }

  /** A file, for one agent: is it named, and by which rules? */
  ghost predicate Attached(groups: seq<Group>, agent: string, rule: Rule) {
    exists g :: g in groups && agent in g.agents && rule in g.rules
  }

  lemma {:induction false} RulesForAreAttached(groups: seq<Group>, agent: string, rule: Rule)
    ensures rule in RulesFor(groups, agent) <==> Attached(groups, agent, rule)
  {
    if groups != [] {
      RulesForAreAttached(groups[1..], agent, rule);
      assert groups == [groups[0]] + groups[1..];
      if Attached(groups, agent, rule) && !(agent in groups[0].agents && rule in groups[0].rules) {
        var g :| g in groups && agent in g.agents && rule in g.rules;
        assert g in groups[1..];
      }
    }
  }

  /** Two rule lists with the same members decide alike: order and repetition do not matter. */
  lemma VerdictIgnoresOrder(a: seq<Rule>, b: seq<Rule>, path: string)
    requires forall r :: r in a <==> r in b
    ensures PathAllowed(a, path) <==> PathAllowed(b, path)
  {
    var target := Normalise(path);
    forall r ensures MostSpecific(r, a, target) <==> MostSpecific(r, b, target) {
    }
  }

  /**
   Reordering groups or rules, and splitting or merging groups, never changes a
   verdict: it depends only on which agents are named and which rules attach to them.
   */
  lemma {:induction false} VerdictDependsOnAttachments(a: seq<Group>, b: seq<Group>, productToken: string, path: string)
    requires forall agent :: Names(a, agent) <==> Names(b, agent)
    requires forall agent, rule :: Attached(a, agent, rule) <==> Attached(b, agent, rule)
    ensures PathAllowed(SelectGroup(a, productToken), path) <==> PathAllowed(SelectGroup(b, productToken), path)
  {
    forall agent, rule ensures rule in RulesFor(a, agent) <==> rule in RulesFor(b, agent) {
      RulesForAreAttached(a, agent, rule);
      RulesForAreAttached(b, agent, rule);
      assert Attached(a, agent, rule) <==> Attached(b, agent, rule);
    }
    var token := Lower(productToken);
    assert Names(a, token) <==> Names(b, token);
    assert Names(a, "*") <==> Names(b, "*");
    VerdictIgnoresOrder(SelectGroup(a, productToken), SelectGroup(b, productToken), path);
  }

  /** One group split into two with the same agents, anywhere in the file. */
  lemma {:induction false} SplittingAGroupChangesNothing(before: seq<Group>, g: Group, n: nat, after: seq<Group>, productToken: string, path: string)
    requires n <= |g.rules|
    ensures var whole := before + [g] + after;
            var split := before + [Group(g.agents, g.rules[..n]), Group(g.agents, g.rules[n..])] + after;
            PathAllowed(SelectGroup(whole, productToken), path) <==> PathAllowed(SelectGroup(split, productToken), path)
  {
    var whole := before + [g] + after;
    var g1, g2 := Group(g.agents, g.rules[..n]), Group(g.agents, g.rules[n..]);
    var split := before + [g1, g2] + after;
    assert forall x :: x in whole <==> x in before || x == g || x in after;
    assert forall x :: x in split <==> x in before || x == g1 || x == g2 || x in after;
    assert g1 in split && g2 in split && g in whole;
    forall agent ensures Names(whole, agent) <==> Names(split, agent) {
    }
    assert g.rules == g1.rules + g2.rules;
    forall agent, rule ensures Attached(whole, agent, rule) <==> Attached(split, agent, rule) {
      if Attached(whole, agent, rule) {
        var x :| x in whole && agent in x.agents && rule in x.rules;
        assert x == g ==> rule in g1.rules || rule in g2.rules;
      }
    }
    VerdictDependsOnAttachments(whole, split, productToken, path);
  }
}
