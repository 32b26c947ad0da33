/** What robots rules say, written out. */
module RobotsDecision {
  // The parts of the robots decision (packages/governor/src/robots-parse.ts) said without
  // each other: patterns by their last character, escapes by their octet, groups by the
  // token's letters, and the verdict by the rules that match.

  import opened Prelude
  import opened Text
  import opened RobotsMatch

  // ---------------------------------------------------------------------------
  // Patterns.
  // ---------------------------------------------------------------------------

  /** A dollar at the end anchors; anywhere else, like every character but the star, it stands for itself. */
  lemma {:induction false} DollarAnchors(body: string, path: string)
    ensures Matches(body + "$", path) <==>
            if '*' in body then Glob(body, path, 0, true)
            else |body| <= |path| && path[..|body|] == body && path[|path| - |body|..] == body
    ensures body == [] || body[|body| - 1] != '$' ==> (Matches(body, path) <==> Glob(body, path, 0, false))
  {
    assert Body(body + "$") == body;
  }

  // ---------------------------------------------------------------------------
  // Escapes.
  // ---------------------------------------------------------------------------

  const UPPER_DIGITS := "0123456789ABCDEF"
  const LOWER_DIGITS := "0123456789abcdef"

  ghost predicate IsDigitOf(c: char, v: nat)
    requires v < 16
  {
    c == UPPER_DIGITS[v] || c == LOWER_DIGITS[v]
  }

  /** Letters, digits, hyphen, full stop, underscore and tilde, by their codes: section 2.3 of RFC 3986. */
  ghost predicate IsUnreservedCode(n: nat) {
    48 <= n <= 57 || 65 <= n <= 90 || 97 <= n <= 122 || n in {45, 46, 95, 126}
  }

  lemma DigitValue(c: char, v: nat)
    requires v < 16 && IsDigitOf(c, v)
    ensures IsHex(c) && HexValue(c) == v && UpperChar(c) == UPPER_DIGITS[v]
  {
  }

  lemma HexDigitExists(c: char) returns (v: nat)
    requires IsHex(c)
    ensures v < 16 && IsDigitOf(c, v)
  {
    v := HexValue(c);
  }

  /** An escape is its octet: an unreserved one is decoded, any other keeps its number in upper-case digits. */
  lemma {:induction false} EscapesByOctet(n: nat, a: char, b: char, rest: string)
    requires n < 256 && IsDigitOf(a, n / 16) && IsDigitOf(b, n % 16)
    ensures Normalise(['%', a, b] + rest) ==
            (if IsUnreservedCode(n) then [n as char] else ['%', UPPER_DIGITS[n / 16], UPPER_DIGITS[n % 16]]) + Normalise(rest)
  {
    DigitValue(a, n / 16);
    DigitValue(b, n % 16);
    assert (['%', a, b] + rest)[3..] == rest;
    UnreservedByCode(n);
  }

  lemma UnreservedByCode(n: nat)
    requires n < 256
    ensures IsUnreserved(n as char) <==> IsUnreservedCode(n)
  {
  }

  /** What starts no escape is left as it is. */
  lemma {:induction false} OthersStay(c: char, rest: string)
    requires c != '%' || |rest| < 2 || (forall v: nat | v < 16 :: !IsDigitOf(rest[0], v)) || (forall v: nat | v < 16 :: !IsDigitOf(rest[1], v))
    ensures Normalise([c] + rest) == [c] + Normalise(rest)
  {
    var s := [c] + rest;
    assert s[1..] == rest;
    if EscapeAt(s, 0) {
      var v := HexDigitExists(rest[0]);
      var w := HexDigitExists(rest[1]);
    }
  }

  /** So an escaped letter is that letter, and an escaped slash is not a slash. */
  lemma {:induction false} LettersAreDecoded(rest: string)
    ensures Normalise(['%', '6', '2'] + rest) == ['b'] + Normalise(rest)
    ensures Normalise(['%', '2', 'f'] + rest) == ['%', '2', 'F'] + Normalise(rest)
  {
    EscapesByOctet(0x62, '6', '2', rest);
    EscapesByOctet(0x2F, '2', 'f', rest);
  }

  // ---------------------------------------------------------------------------
  // Octets.
  // ---------------------------------------------------------------------------

  lemma {:induction false} OctetsAdd(a: string, b: string)
    ensures Octets(a + b) == Octets(a) + Octets(b)
  {
    if a == [] {
      assert a + b == b;
    } else {
      assert (a + b)[1..] == a[1..] + b;
      OctetsAdd(a[1..], b);
    }
  }

  /** One octet up to code 127, two up to 2047, three up to 65535 and four above. */
  lemma {:induction false} OctetsOfOne(c: char)
    ensures Octets([c]) == if c as int <= 127 then 1 else if c as int <= 2047 then 2 else if c as int <= 65535 then 3 else 4
  {
    assert [c][1..] == [];
  }

  lemma {:induction false} OctetsOfAscii(s: string)
    requires forall i :: 0 <= i < |s| ==> s[i] as int <= 127
    ensures Octets(s) == |s|
  {
    if s != [] {
      OctetsOfAscii(s[1..]);
    }
  }

  // ---------------------------------------------------------------------------
  // Groups.
  // ---------------------------------------------------------------------------

  /** The agents of a group are in lower case; the token may be in any. */
  ghost predicate IsNamed(g: Group, token: string) {
    exists a :: a in g.agents && |a| == |token| && forall i :: 0 <= i < |a| ==>
      a[i] as int == if 65 <= token[i] as int <= 90 then token[i] as int + 32 else token[i] as int
  }

  lemma {:induction false} NamedIff(g: Group, token: string)
    ensures IsNamed(g, token) <==> Lower(token) in g.agents
  {
    if Lower(token) in g.agents {
      var a := Lower(token);
      assert a in g.agents && |a| == |token|;
    }
    if IsNamed(g, token) {
      var a :| a in g.agents && |a| == |token| && forall i :: 0 <= i < |a| ==>
        a[i] as int == if 65 <= token[i] as int <= 90 then token[i] as int + 32 else token[i] as int;
      assert a == Lower(token);
    }
  }

  /**
   GROUPS: a rule counts if and only if a group naming the token has it, or none names it and a
   group naming `*` has it.
   */
  lemma {:induction false} SelectedIff(groups: seq<Group>, token: string, rule: Rule)
    ensures rule in SelectGroup(groups, token) <==>
            || (exists g :: g in groups && IsNamed(g, token) && rule in g.rules)
            || ((forall g :: g in groups ==> !IsNamed(g, token)) && exists g :: g in groups && "*" in g.agents && rule in g.rules)
  {
    forall g | g in groups ensures IsNamed(g, token) <==> Lower(token) in g.agents {
      NamedIff(g, token);
    }
    RulesForAreAttached(groups, Lower(token), rule);
    RulesForAreAttached(groups, "*", rule);
  }

  // ---------------------------------------------------------------------------
  // Verdicts.
  // ---------------------------------------------------------------------------

  /** A rule with something written that matches the path, both normalised. */
  ghost predicate Hits(r: Rule, path: string) {
    r.pattern != "" && Matches(Normalise(r.pattern), Normalise(path))
  }

  ghost predicate Outweighed(d: Rule, rules: seq<Rule>, path: string) {
    exists a :: a in rules && a.kind.Allow? && Hits(a, path) && Octets(a.pattern) >= Octets(d.pattern)
  }

  /** Among the rules that hit there is one with the most octets. */
  lemma {:induction false} HeaviestExists(rules: seq<Rule>, n: nat, hits: Rule -> bool) returns (best: Option<Rule>)
    requires n <= |rules|
    ensures best == None ==> forall i :: 0 <= i < n ==> !hits(rules[i])
    ensures best.Some? ==> best.value in rules && hits(best.value)
    ensures best.Some? ==> forall i :: 0 <= i < n && hits(rules[i]) ==> Octets(rules[i].pattern) <= Octets(best.value.pattern)
  {
    best := None;
    if n > 0 {
      best := HeaviestExists(rules, n - 1, hits);
      var r := rules[n - 1];
      if hits(r) && (best == None || Octets(r.pattern) > Octets(best.value.pattern)) {
        best := Some(r);
      }
    }
  }

  /** VERDICTS: allowed if and only if every disallow that matches is outweighed by an allow at least as long. */
  lemma {:induction false} AllowedIff(rules: seq<Rule>, path: string)
    ensures PathAllowed(rules, path) <==>
            || Normalise(path) == "/robots.txt"
            || forall d :: d in rules && d.kind.Disallow? && Hits(d, path) ==> Outweighed(d, rules, path)
  {
    var target := Normalise(path);
    var hits := r => Hits(r, path);
    var best := HeaviestExists(rules, |rules|, hits);
    assert forall r :: r in rules ==> (hits(r) <==> Hits(r, path));
    if best.Some? {
      HeaviestDecides(rules, path, best.value);
    }
  }

  lemma {:induction false} HeaviestDecides(rules: seq<Rule>, path: string, best: Rule)
    requires best in rules && Hits(best, path)
    requires forall r :: r in rules && Hits(r, path) ==> Octets(r.pattern) <= Octets(best.pattern)
    ensures RulesAllow(rules, Normalise(path)) <==>
            forall d :: d in rules && d.kind.Disallow? && Hits(d, path) ==> Outweighed(d, rules, path)
  {
    var target := Normalise(path);
    assert Applies(best, target) && MostSpecific(best, rules, target);
    if RulesAllow(rules, target) {
      var a :| a in rules && a.kind.Allow? && MostSpecific(a, rules, target);
      forall d | d in rules && d.kind.Disallow? && Hits(d, path) ensures Outweighed(d, rules, path) {
        assert Applies(d, target) && Hits(a, path);
      }
    } else if forall d :: d in rules && d.kind.Disallow? && Hits(d, path) ==> Outweighed(d, rules, path) {
      AllowIsHeaviest(rules, path, best);
    }
  }

  lemma {:induction false} AllowIsHeaviest(rules: seq<Rule>, path: string, best: Rule)
    requires best in rules && Hits(best, path)
    requires forall r :: r in rules && Hits(r, path) ==> Octets(r.pattern) <= Octets(best.pattern)
    requires best.kind.Disallow? ==> Outweighed(best, rules, path)
    ensures RulesAllow(rules, Normalise(path))
  {
    var target := Normalise(path);
    var a := best;
    if best.kind.Disallow? {
      a :| a in rules && a.kind.Allow? && Hits(a, path) && Octets(a.pattern) >= Octets(best.pattern);
    }
    assert Applies(a, target) && MostSpecific(a, rules, target);
  }

}
