/** Which prices are read, by character. */
module PriceSpelling {
  // Which texts are prices and what they are worth (packages/extractor/src/currency.ts),
  // said on their characters alone: nothing here is stated through the reader's own parts.

  import opened Prelude
  import opened Text
  import opened Currency

  // ---------------------------------------------------------------------------
  // The shape of an amount.
  // ---------------------------------------------------------------------------

  /** A comma at `i` has exactly three digits behind it, and then the next comma, the point or the end. */
  ghost predicate CommaAt(t: string, i: nat)
    requires i < |t|
  {
    && i + 4 <= |t|
    && IsDigit(t[i + 1]) && IsDigit(t[i + 2]) && IsDigit(t[i + 3])
    && (i + 4 == |t| || t[i + 4] == ',' || t[i + 4] == '.')
  }

  /** The point is the only one, with digits and nothing else behind it and something before it. */
  ghost predicate PointAt(t: string, i: nat)
    requires i < |t|
  {
    0 < i < |t| - 1 && forall j :: i < j < |t| ==> IsDigit(t[j])
  }

  ghost predicate IsAmount(t: string) {
    && t != []
    && (forall i :: 0 <= i < |t| ==> IsDigit(t[i]) || t[i] == ',' || t[i] == '.')
    && (forall i :: 0 <= i < |t| && t[i] == '.' ==> PointAt(t, i))
    && (forall i :: 0 <= i < |t| && t[i] == ',' ==> CommaAt(t, i))
    && (forall i :: 0 <= i < |t| && t[i] == ',' && ',' !in t[..i] ==> 1 <= i <= 3)
  }

  /** The number the digits among the first `n` characters spell, whatever stands between them. */
  ghost function Worth(t: string, n: nat): nat
    requires n <= |t|
  {
    if n == 0 then 0
    else if IsDigit(t[n - 1]) then 10 * Worth(t, n - 1) + (t[n - 1] as int - 48)
    else Worth(t, n - 1)
  }

  /** `n` digits stand behind the point, or there is no point and `n` is zero. */
  ghost predicate HasPlaces(t: string, n: nat) {
    if '.' in t then n < |t| && t[|t| - 1 - n] == '.' else n == 0
  }

  lemma {:induction false} OneGroup(t: string, w: string, k: nat)
    requires IsAmount(t) && w <= t && (w == t || t[|w|] == '.') && k < |w| && w[k] == ','
    ensures k + 4 <= |w| && IsDigit(w[k + 1]) && IsDigit(w[k + 2]) && IsDigit(w[k + 3])
    ensures k + 4 < |w| && '.' !in w ==> w[k + 4] == ','
  {
    assert t[k] == ',' && CommaAt(t, k);
    BeforeThePoint(t, w, k + 1);
    BeforeThePoint(t, w, k + 2);
    BeforeThePoint(t, w, k + 3);
  }

  lemma {:induction false} GroupsFrom(t: string, w: string, k: nat)
    requires IsAmount(t) && w <= t && '.' !in w && (w == t || t[|w|] == '.')
    requires k == |w| || (k < |w| && w[k] == ',')
    ensures Groups(w, k)
    decreases |w| - k
  {
    if k < |w| {
      OneGroup(t, w, k);
      GroupsFrom(t, w, k + 4);
    }
  }

  /** A digit that follows the whole part without a break is in it. */
  lemma BeforeThePoint(t: string, w: string, i: nat)
    requires w <= t && (w == t || t[|w|] == '.') && i < |t| && i <= |w| && IsDigit(t[i])
    ensures i < |w| && w[i] == t[i]
  {
  }

  lemma WholeIsPrefix(t: string)
    ensures var w := WholeOf(t);
            w <= t && '.' !in w && (if '.' in t then |w| < |t| && t[|w|] == '.' && FractionOf(t) == t[|w| + 1..] else w == t)
  {
  }

  lemma {:induction false} WholesAreGrouped(t: string, w: string)
    requires IsAmount(t) && w <= t && '.' !in w && (w == t || t[|w|] == '.') && ',' in w
    ensures Grouped(w)
  {
    var k := IndexOf(w, ',');
    assert t[k] == ',' && t[..k] == w[..k];
    GroupsFrom(t, w, k);
    forall i | 0 <= i < k ensures IsDigit(w[i]) {
      assert w[i] == t[i] && w[i] in w[..k];
    }
  }

  lemma {:induction false} AmountsAreShaped(t: string)
    requires IsAmount(t)
    ensures Shaped(t)
  {
    var w := WholeOf(t);
    WholeIsPrefix(t);
    if '.' in t {
      assert PointAt(t, |w|);
    }
    if ',' in w {
      WholesAreGrouped(t, w);
    } else {
      forall i | 0 <= i < |w| ensures IsDigit(w[i]) {
        assert w[i] == t[i];
      }
    }
  }

  /** What the shape says of one character of the whole part. */
  lemma {:induction false} WholeAt(t: string, i: nat)
    requires Shaped(t) && i < |WholeOf(t)|
    ensures WholeOf(t) <= t
    ensures IsDigit(t[i]) || t[i] == ','
    ensures t[i] == ',' ==> CommaAt(t, i)
    ensures t[i] == ',' && ',' !in t[..i] ==> 1 <= i <= 3
  {
    var w := WholeOf(t);
    WholeIsPrefix(t);
    assert w[i] == t[i];
    if !Digits(w) {
      var k :| 1 <= k <= 3 && k < |w| && Groups(w, k) && forall i :: 0 <= i < k ==> IsDigit(w[i]);
      if i >= k {
        GroupAt(w, k, i);
        if k < i {
          CommaBefore(t, k, i);
        }
      }
    }
  }

  lemma CommaBefore(t: string, k: nat, i: nat)
    requires k < i < |t| && t[k] == ','
    ensures ',' in t[..i]
  {
    assert t[..i][k] == ',';
  }

  lemma {:induction false} ShapedAreAmounts(t: string)
    requires Shaped(t)
    ensures IsAmount(t)
  {
    var w := WholeOf(t);
    WholeIsPrefix(t);
    forall i | 0 <= i < |t|
      ensures IsDigit(t[i]) || t[i] == ',' || t[i] == '.'
      ensures t[i] == '.' ==> PointAt(t, i)
      ensures t[i] == ',' ==> CommaAt(t, i)
      ensures t[i] == ',' && ',' !in t[..i] ==> 1 <= i <= 3
    {
      if i < |w| {
        WholeAt(t, i);
      } else if i == |w| {
        assert forall j :: i < j < |t| ==> t[j] == FractionOf(t)[j - i - 1];
      } else {
        assert t[i] == FractionOf(t)[i - |w| - 1];
      }
    }
  }

  // ---------------------------------------------------------------------------
  // What an amount is worth.
  // ---------------------------------------------------------------------------

  lemma {:induction false} WorthOfPrefix(t: string, w: string, n: nat)
    requires w <= t && n <= |w|
    ensures Worth(t, n) == Worth(w, n)
  {
    if n > 0 {
      WorthOfPrefix(t, w, n - 1);
      assert t[n - 1] == w[n - 1];
    }
  }

  lemma {:induction false} ValGrows(digits: string, c: char)
    requires AllDigits(digits) && IsDigit(c)
    ensures AllDigits(digits + [c]) && Val(digits + [c]) == 10 * Val(digits) + (c as int - 48)
  {
    assert (digits + [c])[..|digits|] == digits;
  }

  lemma {:induction false} WithoutCommaStep(w: string, n: nat)
    requires 0 < n <= |w|
    ensures var front := Without(w, n - 1, COMMAS);
            Without(w, n, COMMAS) == if w[n - 1] == ',' then front else front + [w[n - 1]]
  {
    assert ',' in COMMAS;
  }

  lemma {:induction false} WorthOfWhole(w: string, n: nat)
    requires n <= |w| && forall i :: 0 <= i < n ==> IsDigit(w[i]) || w[i] == ','
    ensures AllDigits(Without(w, n, COMMAS)) && Val(Without(w, n, COMMAS)) == Worth(w, n)
  {
    if n > 0 {
      WorthOfWhole(w, n - 1);
      WithoutCommaStep(w, n);
      if w[n - 1] != ',' {
        ValGrows(Without(w, n - 1, COMMAS), w[n - 1]);
      }
    }
  }

  lemma {:induction false} WorthOfFraction(t: string, at: nat, whole: string, m: nat)
    requires AllDigits(whole) && at + m <= |t| && Worth(t, at) == Val(whole)
    requires forall i :: at <= i < at + m ==> IsDigit(t[i])
    ensures AllDigits(whole + t[at..at + m]) && Val(whole + t[at..at + m]) == Worth(t, at + m)
    decreases m
  {
    if m == 0 {
      assert whole + t[at..at] == whole;
    } else {
      WorthOfFraction(t, at, whole, m - 1);
      assert whole + t[at..at + m] == (whole + t[at..at + m - 1]) + [t[at + m - 1]];
      ValGrows(whole + t[at..at + m - 1], t[at + m - 1]);
    }
  }

  lemma {:induction false} WorthIsVal(t: string)
    requires Shaped(t)
    ensures AllDigits(Ungrouped(WholeOf(t)) + FractionOf(t))
    ensures Val(Ungrouped(WholeOf(t)) + FractionOf(t)) == Worth(t, |t|)
  {
    var w := WholeOf(t);
    WholeIsPrefix(t);
    forall i | 0 <= i < |w| ensures IsDigit(w[i]) || w[i] == ',' {
      WholeAt(t, i);
    }
    WorthOfWhole(w, |w|);
    WorthOfPrefix(t, w, |w|);
    if '.' in t {
      WorthBehindPoint(t, |w| + 1, Ungrouped(w), FractionOf(t));
    } else {
      NothingAfter(Ungrouped(w));
    }
  }

  lemma {:induction false} WorthBehindPoint(t: string, at: nat, whole: string, fraction: string)
    requires 0 < at <= |t| && t[at - 1] == '.' && fraction == t[at..] && AllDigits(fraction)
    requires AllDigits(whole) && Val(whole) == Worth(t, at - 1)
    ensures AllDigits(whole + fraction) && Val(whole + fraction) == Worth(t, |t|)
  {
    assert forall i :: at <= i < |t| ==> t[i] == fraction[i - at];
    WorthOfFraction(t, at, whole, |t| - at);
    assert t[at..|t|] == t[at..];
  }

  lemma {:induction false} PlacesOfFraction(t: string, n: nat)
    requires Shaped(t) && HasPlaces(t, n)
    ensures |FractionOf(t)| == n && forall j :: 0 <= j < n ==> FractionOf(t)[j] == t[|t| - n + j]
  {
    WholeIsPrefix(t);
    if '.' in t {
      var at := |t| - 1 - n;
      ShapedAreAmounts(t);
      assert PointAt(t, at) && PointAt(t, |WholeOf(t)|);
    }
  }

  /** AMOUNTS: a text reads as `r` if and only if it has the shape and its digits, shifted by its places, are worth `r`. */
  lemma {:induction false} AmountIsExact(t: string, places: nat, exponent: nat, r: nat)
    requires HasPlaces(t, places)
    ensures ReadAmount(t, exponent) == Some(r) <==> IsAmount(t) && r * Pow10(places) == Worth(t, |t|) * Pow10(exponent)
  {
    if Shaped(t) {
      ShapedAreAmounts(t);
      PlacesOfFraction(t, places);
      WorthIsVal(t);
      ShapedIsRead(t, exponent);
      ScaledIsExact(Ungrouped(WholeOf(t)), FractionOf(t), exponent, r);
    } else if IsAmount(t) {
      AmountsAreShaped(t);
    }
  }

  /** Every text of the shape has an amount, unless a digit other than zero is cut off. */
  lemma {:induction false} AmountUnlessCut(t: string, places: nat, exponent: nat)
    requires HasPlaces(t, places)
    ensures ReadAmount(t, exponent).Some? <==>
            IsAmount(t) && forall i :: |t| - places + exponent <= i < |t| ==> t[i] == '0'
  {
    if Shaped(t) {
      ShapedAreAmounts(t);
      PlacesOfFraction(t, places);
      ShapedIsRead(t, exponent);
      assert forall i :: |t| - places <= i < |t| ==> t[i] == FractionOf(t)[i - (|t| - places)];
    } else if IsAmount(t) {
      AmountsAreShaped(t);
    }
  }

  // ---------------------------------------------------------------------------
  // Decoration.
  // ---------------------------------------------------------------------------

  /** The currency symbols, by code. */
  ghost predicate Symbols(s: string) {
    forall i :: 0 <= i < |s| ==>
      s[i] as int in {36, 163, 165, 3647, 8358, 8361, 8362, 8364, 8369, 8377, 8381}
  }

  /** The same letters, each in either case. */
  ghost predicate InAnyCase(written: string, code: string) {
    && |written| == |code|
    && forall i :: 0 <= i < |code| ==>
         written[i] == code[i] || ('A' <= code[i] <= 'Z' && written[i] as int == code[i] as int + 32)
  }

  /** Symbols, and then at most a copy of the code. */
  ghost predicate Leads(s: string, code: string) {
    exists n :: 0 <= n <= |s| && Symbols(s[..n]) && (n == |s| || InAnyCase(s[n..], code))
  }

  /** At most a copy of the code, and then symbols. */
  ghost predicate Trails(s: string, code: string) {
    exists n :: 0 <= n <= |s| && (n == 0 || InAnyCase(s[..n], code)) && Symbols(s[n..])
  }

  /** Three letters in either case, with white space around them. */
  ghost predicate Spells(currency: string, code: string) {
    && |code| == 3 && (forall i :: 0 <= i < 3 ==> 'A' <= code[i] <= 'Z')
    && exists a, w, b :: currency == a + (w + b) && Blank(a) && InAnyCase(w, code) && Blank(b)
  }

  /** What is left of a string without its white space. */
  function Squeezed(s: string): string {
    if s == [] then [] else (if IsSpace(s[0]) then [] else [s[0]]) + Squeezed(s[1..])
  }

  lemma {:induction false} SqueezedIsBare(s: string)
    ensures Without(s, |s|, SPACES) == Squeezed(s)
    decreases |s|
  {
    if s != [] {
      SqueezedIsBare(s[1..]);
      assert s == [s[0]] + s[1..];
      WithoutConcat([s[0]], s[1..], |s| - 1, SPACES);
      assert Without([s[0]], 0, SPACES) == [];
    }
  }

  lemma {:induction false} UpperIffInAnyCase(written: string, code: string)
    requires forall i :: 0 <= i < |code| ==> 'A' <= code[i] <= 'Z'
    ensures Upper(written) == code <==> InAnyCase(written, code)
  {
    if InAnyCase(written, code) {
      assert forall i :: 0 <= i < |code| ==> UpperChar(written[i]) == code[i];
    }
  }

  lemma {:induction false} SymbolsByCode(s: string)
    ensures Symbols(s) <==> forall i :: 0 <= i < |s| ==> IsSymbol(s[i])
  {
    assert forall i :: 0 <= i < |s| ==>
      (s[i] as int in {36, 163, 165, 3647, 8358, 8361, 8362, 8364, 8369, 8377, 8381} <==> IsSymbol(s[i]));
  }

  /** CURRENCIES: a text names a currency if and only if it is a known code, in any case, with white space around it. */
  lemma {:induction false} CurrencyIsKnownIff(table: Table, currency: string, code: string)
    requires IsCode(code)
    ensures Spells(currency, code) <==> Normalise(currency) == code
  {
    if Spells(currency, code) {
      var a, w, b :| currency == a + (w + b) && Blank(a) && InAnyCase(w, code) && Blank(b);
      UpperIffInAnyCase(w, code);
      assert forall i :: 0 <= i < 3 ==> !IsSpace(w[i]);
      TrimKeeps(a, w, b);
    }
    if Normalise(currency) == code {
      var a, b := TrimSays(currency);
      UpperIffInAnyCase(Trim(currency), code);
    }
  }

  lemma {:induction false} SymbolsBefore(s: string) returns (a: string)
    ensures Symbols(a) && s == a + DropSymbolsBefore(s)
  {
    a := [];
    if s != [] && IsSymbol(s[0]) {
      var rest := SymbolsBefore(s[1..]);
      a := [s[0]] + rest;
      SymbolsByCode(rest);
      SymbolsByCode(a);
    }
  }

  lemma {:induction false} SymbolsAfter(s: string) returns (b: string)
    ensures Symbols(b) && s == DropSymbolsAfter(s) + b
  {
    b := [];
    if s != [] && IsSymbol(s[|s| - 1]) {
      var rest := SymbolsAfter(s[..|s| - 1]);
      b := rest + [s[|s| - 1]];
      SymbolsByCode(rest);
      SymbolsByCode(b);
    }
  }

  predicate CopyOrNone(c: string, code: string) { c == [] || Upper(c) == code }

  lemma {:induction false} CodesAround(s: string, code: string) returns (c1: string, c2: string)
    requires IsCode(code)
    ensures CopyOrNone(c1, code) && CopyOrNone(c2, code)
    ensures s == c1 + (DropCodeAfter(DropCodeBefore(s, code), code) + c2)
  {
    var tail := DropCodeBefore(s, code);
    c1 := if StartsWithCode(s, code) then s[..3] else [];
    c2 := if EndsWithCode(tail, code) then tail[|tail| - 3..] else [];
    assert s == c1 + tail;
    assert tail == DropCodeAfter(tail, code) + c2;
  }

  lemma Five<T>(s1: seq<T>, c1: seq<T>, t: seq<T>, c2: seq<T>, s2: seq<T>)
    ensures (s1 + c1) + (t + (c2 + s2)) == s1 + ((c1 + (t + c2)) + s2)
  {
  }

  /** What is stripped is decoration. */
  lemma {:induction false} StrippedWasDecorated(price: string, code: string) returns (before: string, after: string)
    requires IsCode(code) && StripCurrencyDecoration(price, code).Some?
    ensures Leads(before, code) && Trails(after, code)
    ensures Squeezed(price) == before + (StripCurrencyDecoration(price, code).value + after)
  {
    SqueezedIsBare(price);
    var s1 := SymbolsBefore(Squeezed(price));
    var s2 := SymbolsAfter(DropSymbolsBefore(Squeezed(price)));
    var c1, c2 := CodesAround(DropSymbolsAfter(DropSymbolsBefore(Squeezed(price))), code);
    before, after := s1 + c1, c2 + s2;
    LeadsIf(s1, c1, code);
    TrailsIf(c2, s2, code);
    Five(s1, c1, StripCurrencyDecoration(price, code).value, c2, s2);
  }

  lemma {:induction false} LeadsIf(symbols: string, copy: string, code: string)
    requires Symbols(symbols) && IsCode(code) && CopyOrNone(copy, code)
    ensures Leads(symbols + copy, code)
  {
    var s, n := symbols + copy, |symbols|;
    UpperIffInAnyCase(copy, code);
    assert s[..n] == symbols && s[n..] == copy;
  }

  lemma {:induction false} TrailsIf(copy: string, symbols: string, code: string)
    requires Symbols(symbols) && IsCode(code) && CopyOrNone(copy, code)
    ensures Trails(copy + symbols, code)
  {
    var s, n := copy + symbols, |copy|;
    UpperIffInAnyCase(copy, code);
    assert s[..n] == copy && s[n..] == symbols;
  }

  lemma {:induction false} LettersAreNotSymbols(written: string, code: string)
    requires IsCode(code) && Upper(written) == code
    ensures forall i :: 0 <= i < |written| ==> !IsSymbol(written[i])
  {
    LettersStay(written, code);
  }

  /** Copies of the code go at both ends, and digits stop the stripping. */
  lemma {:induction false} CopiesGo(c1: string, text: string, c2: string, code: string)
    requires IsCode(code) && IsAmount(text) && CopyOrNone(c1, code) && CopyOrNone(c2, code)
    ensures DropCodeAfter(DropCodeBefore(c1 + (text + c2), code), code) == text
  {
    var rest := text + c2;
    AmountsArePlain(text);
    if c1 == [] {
      assert c1 + rest == rest;
      if |rest| >= 3 {
        assert Upper(rest[..3])[0] == UpperChar(text[0]);
      }
    } else {
      assert (c1 + rest)[..3] == c1 && (c1 + rest)[3..] == rest;
    }
    if c2 == [] {
      assert rest == text;
      PlainEndsWithoutCode(text, code);
    } else {
      assert rest[|rest| - 3..] == c2 && rest[..|rest| - 3] == text;
    }
  }

  lemma AmountsArePlain(text: string)
    requires IsAmount(text)
    ensures Plain(text) && IsDigit(text[0])
  {
    var last := |text| - 1;
    assert text[last] == '.' ==> PointAt(text, last);
    assert text[last] == ',' ==> CommaAt(text, last);
    assert text[0] == '.' ==> PointAt(text, 0);
  }

  lemma {:induction false} EndsAreNotSymbols(c1: string, text: string, c2: string, code: string)
    requires IsCode(code) && IsAmount(text) && CopyOrNone(c1, code) && CopyOrNone(c2, code)
    ensures var all := c1 + (text + c2); all != [] && !IsSymbol(all[0]) && !IsSymbol(all[|all| - 1])
  {
    AmountsArePlain(text);
    if c1 != [] {
      LettersAreNotSymbols(c1, code);
    }
    if c2 != [] {
      LettersAreNotSymbols(c2, code);
    }
  }

  lemma {:induction false} LeadsOnlyIf(s: string, code: string) returns (symbols: string, copy: string)
    requires IsCode(code) && Leads(s, code)
    ensures s == symbols + copy && CopyOrNone(copy, code) && forall i :: 0 <= i < |symbols| ==> IsSymbol(symbols[i])
  {
    var n :| 0 <= n <= |s| && Symbols(s[..n]) && (n == |s| || InAnyCase(s[n..], code));
    symbols, copy := s[..n], s[n..];
    UpperIffInAnyCase(copy, code);
    SymbolsByCode(symbols);
  }

  lemma {:induction false} TrailsOnlyIf(s: string, code: string) returns (copy: string, symbols: string)
    requires IsCode(code) && Trails(s, code)
    ensures s == copy + symbols && CopyOrNone(copy, code) && forall i :: 0 <= i < |symbols| ==> IsSymbol(symbols[i])
  {
    var n :| 0 <= n <= |s| && (n == 0 || InAnyCase(s[..n], code)) && Symbols(s[n..]);
    copy, symbols := s[..n], s[n..];
    UpperIffInAnyCase(copy, code);
    SymbolsByCode(symbols);
  }

  lemma {:induction false} SymbolsGo(s1: string, middle: string, s2: string)
    requires forall i :: 0 <= i < |s1| ==> IsSymbol(s1[i])
    requires forall i :: 0 <= i < |s2| ==> IsSymbol(s2[i])
    requires middle != [] && !IsSymbol(middle[0]) && !IsSymbol(middle[|middle| - 1])
    ensures DropSymbolsAfter(DropSymbolsBefore(s1 + (middle + s2))) == middle
  {
    SymbolsBeforeGo(s1, middle + s2);
    SymbolsAfterGo(middle, s2);
  }

  lemma {:induction false} DecoratedIsStripped(price: string, before: string, text: string, after: string, code: string)
    requires IsCode(code) && IsAmount(text) && Leads(before, code) && Trails(after, code)
    requires Squeezed(price) == before + (text + after)
    ensures StripCurrencyDecoration(price, code) == Some(text)
  {
    var s1, c1 := LeadsOnlyIf(before, code);
    var c2, s2 := TrailsOnlyIf(after, code);
    SqueezedIsBare(price);
    EndsAreNotSymbols(c1, text, c2, code);
    Five(s1, c1, text, c2, s2);
    SymbolsGo(s1, c1 + (text + c2), s2);
    CopiesGo(c1, text, c2, code);
  }

  // ---------------------------------------------------------------------------
  // Whole prices.
  // ---------------------------------------------------------------------------

  /** A known currency, and a decorated amount worth `r` of its minor units, to the last one. */
  ghost predicate WorthExactly(table: Table, price: string, currency: string, r: nat,
                               code: string, before: string, text: string, after: string, places: nat) {
    && Spells(currency, code) && Code(code) in table
    && Squeezed(price) == before + (text + after) && Leads(before, code) && Trails(after, code)
    && IsAmount(text) && HasPlaces(text, places)
    && r * Pow10(places) == Worth(text, |text|) * Pow10(table[Code(code)])
  }

  ghost predicate Denotes(table: Table, price: string, currency: string, r: nat) {
    exists code, before, text, after, places :: WorthExactly(table, price, currency, r, code, before, text, after, places)
  }

  lemma {:induction false} DenotedIsRead(table: Table, price: string, currency: string, r: nat)
    requires Denotes(table, price, currency, r)
    ensures ToMinorUnits(table, price, currency) == Some(r)
  {
    var code, before, text, after, places :|
      WorthExactly(table, price, currency, r, code, before, text, after, places);
    CurrencyIsKnownIff(table, currency, code);
    DecoratedIsStripped(price, before, text, after, code);
    AmountIsExact(text, places, table[Code(code)], r);
  }

  lemma PlacesExist(text: string) returns (places: nat)
    requires IsAmount(text)
    ensures HasPlaces(text, places)
  {
    places := if '.' in text then |text| - 1 - IndexOf(text, '.') else 0;
  }

  lemma {:induction false} ReadIsDenoted(table: Table, price: string, currency: string, r: nat)
    requires ToMinorUnits(table, price, currency) == Some(r)
    ensures Denotes(table, price, currency, r)
  {
    var code := Normalise(currency);
    var text := StripCurrencyDecoration(price, code).value;
    CurrencyIsKnownIff(table, currency, code);
    var before, after := StrippedWasDecorated(price, code);
    ShapedAreAmounts(text);
    var places := PlacesExist(text);
    AmountIsExact(text, places, table[Code(code)], r);
    assert WorthExactly(table, price, currency, r, code, before, text, after, places);
  }

  /** EXACT: a price reads as `r` if and only if its characters denote `r` minor units; it is refused if none are denoted. */
  lemma {:induction false} PriceIsExact(table: Table, price: string, currency: string, r: nat)
    ensures ToMinorUnits(table, price, currency) == Some(r) <==> Denotes(table, price, currency, r)
  {
    if Denotes(table, price, currency, r) {
      DenotedIsRead(table, price, currency, r);
    }
    if ToMinorUnits(table, price, currency) == Some(r) {
      ReadIsDenoted(table, price, currency, r);
    }
  }

  lemma {:induction false} NoNeedlessZero(n: nat)
    ensures Decimal(n)[0] == '0' ==> |Decimal(n)| == 1
  {
    if n >= 10 {
      NoNeedlessZero(n / 10);
      assert Decimal(n)[0] == Decimal(n / 10)[0];
      TwoDigits(n / 10);
    }
  }

  lemma {:induction false} TwoDigits(n: nat)
    requires n > 0
    ensures Decimal(n)[0] != '0'
  {
    if n >= 10 {
      TwoDigits(n / 10);
    }
  }

  lemma {:induction false} PaddedStart(n: nat, k: nat)
    requires k > 0
    ensures var d := PadStart(Decimal(n), k); |d| >= k && (d[0] == '0' ==> |d| == k)
  {
    NoNeedlessZero(n);
  }

  lemma {:induction false} JoinedIsShaped(whole: string, point: bool, fraction: string)
    requires Digits(whole) && (if point then Digits(fraction) else fraction == [])
    ensures var text := Joined(whole, point, fraction); Shaped(text) && ',' !in text && HasPlaces(text, |fraction|)
    ensures WholeOf(Joined(whole, point, fraction)) == whole && FractionOf(Joined(whole, point, fraction)) == fraction
  {
    JoinedParts(whole, point, fraction);
  }

  /** PRINTING: the code, a space, a sign if it is below zero, and the one amount without commas or needless zeros. */
  lemma {:induction false} PrintedAmountIs(table: Table, amount: int, currency: string) returns (text: string)
    requires MinorUnitExponent(table, currency).Some?
    ensures FormatMinorUnits(table, amount, currency) ==
            Normalise(currency) + ([' '] + ((if amount < 0 then "-" else "") + text))
    ensures IsAmount(text) && ',' !in text && HasPlaces(text, MinorUnitExponent(table, currency).value)
    ensures Worth(text, |text|) == if amount < 0 then -amount else amount
    ensures text[0] == '0' ==> |text| == 1 || text[1] == '.'
  {
    var e := MinorUnitExponent(table, currency).value;
    var digits := AmountDigits(amount, e);
    var whole, fraction := Before(digits, e), Last(digits, e);
    text := Joined(whole, e > 0, fraction);
    DigitsOfAmount(amount, e);
    Slices(digits, e);
    JoinedIsShaped(whole, e > 0, fraction);
    ShapedAreAmounts(text);
    WorthIsVal(text);
    WithoutNone(whole, COMMAS);
    PaddedStart(Size(amount), e + 1);
  }

  /** In a currency that is not known the amount itself is printed, and said to be in minor units. */
  lemma {:induction false} RawAmountIs(table: Table, amount: int, currency: string) returns (digits: string)
    requires MinorUnitExponent(table, currency).None?
    ensures FormatMinorUnits(table, amount, currency) ==
            Normalise(currency) + ([' '] + ((if amount < 0 then "-" else "") + digits + " (minor units)"))
    ensures Digits(digits) && Worth(digits, |digits|) == (if amount < 0 then -amount else amount)
    ensures digits[0] == '0' ==> |digits| == 1
  {
    digits := Decimal(Size(amount));
    DecimalReadsBack(Size(amount));
    NoNeedlessZero(Size(amount));
    WithoutNone(digits, COMMAS);
    WorthOfWhole(digits, |digits|);
  }
}
