/** Prices as exact integers. */
module Currency {
  // Prices as text and as exact integers in a currency's minor unit (packages/extractor/src/currency.ts).

  import opened Prelude
  import opened Text

  // ---------------------------------------------------------------------------
  // Digits.
  // ---------------------------------------------------------------------------

  function DigitOf(c: char): nat
    requires IsDigit(c)
  {
    c as int - '0' as int
  }

  ghost predicate AllDigits(s: string) { forall i :: 0 <= i < |s| ==> IsDigit(s[i]) }

  ghost predicate Digits(s: string) { |s| > 0 && AllDigits(s) }

  function Pow10(n: nat): nat { if n == 0 then 1 else 10 * Pow10(n - 1) }

  /** The number a string of digits denotes. */
  ghost function Val(s: string): nat
    requires AllDigits(s)
  {
    if s == [] then 0 else 10 * Val(s[..|s| - 1]) + DigitOf(s[|s| - 1])
  }

  function Zeros(n: nat): (r: string)
    ensures |r| == n && AllDigits(r)
  {
    if n == 0 then [] else Zeros(n - 1) + ['0']
  }

  /** `BigInt.toString` of a number not below zero. */
  function Decimal(n: nat): (r: string)
    ensures Digits(r)
  {
    if n < 10 then [('0' as int + n) as char] else Decimal(n / 10) + [('0' as int + n % 10) as char]
  }

  lemma Pow10Positive(n: nat)
    ensures Pow10(n) >= 1
  {
  }

  lemma {:induction false} Pow10Adds(a: nat, b: nat)
    ensures Pow10(a + b) == Pow10(a) * Pow10(b)
    decreases b
  {
    if b > 0 {
      Pow10Adds(a, b - 1);
    }
  }

  lemma {:induction false} ValOfConcat(a: string, b: string)
    requires AllDigits(a) && AllDigits(b)
    ensures AllDigits(a + b) && Val(a + b) == Val(a) * Pow10(|b|) + Val(b)
    decreases |b|
  {
    if b == [] {
      assert a + b == a;
    } else {
      var front := b[..|b| - 1];
      ValOfConcat(a, front);
      assert (a + b)[..|a + b| - 1] == a + front;
      Distribute(Val(a), Pow10(|front|), Val(front), DigitOf(b[|b| - 1]));
    }
  }

  lemma Distribute(a: nat, p: nat, v: nat, d: nat)
    ensures 10 * (a * p + v) + d == a * (10 * p) + (10 * v + d)
  {
  }

  lemma {:induction false} ValOfZeros(n: nat)
    ensures Val(Zeros(n)) == 0
  {
    if n > 0 {
      ValOfZeros(n - 1);
      assert Zeros(n)[..n - 1] == Zeros(n - 1);
    }
  }

  lemma {:induction false} ValIsBelow(s: string)
    requires AllDigits(s)
    ensures Val(s) < Pow10(|s|)
    decreases |s|
  {
    if s != [] {
      ValIsBelow(s[..|s| - 1]);
    }
  }

  /** Only zeros denote zero. */
  lemma {:induction false} NonZeroCounts(s: string, i: nat)
    requires AllDigits(s) && i < |s| && s[i] != '0'
    ensures Val(s) > 0
    decreases |s|
  {
    if i < |s| - 1 {
      NonZeroCounts(s[..|s| - 1], i);
    }
  }

  lemma {:induction false} OnlyZeros(s: string)
    requires AllDigits(s) && forall i :: 0 <= i < |s| ==> s[i] == '0'
    ensures Val(s) == 0
    decreases |s|
  {
    if s != [] {
      OnlyZeros(s[..|s| - 1]);
    }
  }

  lemma {:induction false} DecimalReadsBack(n: nat)
    ensures Val(Decimal(n)) == n
  {
    var d := Decimal(n);
    if n >= 10 {
      DecimalReadsBack(n / 10);
      assert d[..|d| - 1] == Decimal(n / 10);
    } else {
      assert d[..0] == [];
    }
  }

  // ---------------------------------------------------------------------------
  // Reading a price.
  // ---------------------------------------------------------------------------

  datatype Code = Code(letters: string)

  /** The exponent of each known currency. */
  type Table = map<Code, nat>

  predicate IsCode(c: string) { |c| == 3 && forall i :: 0 <= i < 3 ==> 'A' <= c[i] <= 'Z' }

  function Normalise(currency: string): string { Upper(Trim(currency)) }

  function MinorUnitExponent(table: Table, currency: string): Option<nat> {
    var code := Normalise(currency);
    if IsCode(code) && Code(code) in table then Some(table[Code(code)]) else None
  }

  predicate IsSymbol(c: char) {
    || c == '$' || c == '\U{20AC}' || c == '\U{A3}' || c == '\U{A5}' || c == '\U{20A9}' || c == '\U{20B9}'
    || c == '\U{20BD}' || c == '\U{20A6}' || c == '\U{20B1}' || c == '\U{E3F}' || c == '\U{20AA}'
  }

  const SPACES: set<char> := set c: char | IsSpace(c)
  const COMMAS: set<char> := {','}

  /** The first `n` characters without those `drop` names. */
  function Without(s: string, n: nat, drop: set<char>): string
    requires n <= |s|
  {
    if n == 0 then [] else if s[n - 1] in drop then Without(s, n - 1, drop) else Without(s, n - 1, drop) + [s[n - 1]]
  }

  function DropSymbolsBefore(s: string): string {
    if s != [] && IsSymbol(s[0]) then DropSymbolsBefore(s[1..]) else s
  }

  function DropSymbolsAfter(s: string): string {
    if s != [] && IsSymbol(s[|s| - 1]) then DropSymbolsAfter(s[..|s| - 1]) else s
  }

  predicate StartsWithCode(s: string, code: string) { |s| >= |code| && Upper(s[..|code|]) == code }

  predicate EndsWithCode(s: string, code: string) { |s| >= |code| && Upper(s[|s| - |code|..]) == code }

  function DropCodeBefore(s: string, code: string): string { if StartsWithCode(s, code) then s[|code|..] else s }

  function DropCodeAfter(s: string, code: string): string { if EndsWithCode(s, code) then s[..|s| - |code|] else s }

  /** White space anywhere, then symbols and then the normalised code at either end, are decoration. */
  function StripCurrencyDecoration(price: string, code: string): Option<string> {
    var bare := Without(price, |price|, SPACES);
    var plain := DropSymbolsAfter(DropSymbolsBefore(bare));
    var text := if |code| == 3 then DropCodeAfter(DropCodeBefore(plain, code), code) else plain;
    if bare == [] || text == [] then None else Some(text)
  }

  function WholeOf(text: string): string { if IndexOf(text, '.') == -1 then text else text[..IndexOf(text, '.')] }

  function FractionOf(text: string): string { if IndexOf(text, '.') == -1 then [] else text[IndexOf(text, '.') + 1..] }

  /** From `k` on nothing but groups of a comma and three digits. */
  ghost predicate Groups(s: string, k: nat)
    requires k <= |s|
    decreases |s| - k
  {
    || k == |s|
    || (k + 4 <= |s| && s[k] == ',' && IsDigit(s[k + 1]) && IsDigit(s[k + 2]) && IsDigit(s[k + 3]) && Groups(s, k + 4))
  }

  /** One to three digits, then at least one group. */
  ghost predicate Grouped(whole: string) {
    exists k :: 1 <= k <= 3 && k < |whole| && Groups(whole, k) && forall i :: 0 <= i < k ==> IsDigit(whole[i])
  }

  function Ungrouped(whole: string): string { Without(whole, |whole|, COMMAS) }

  /** The shapes accepted: digits, plain or grouped, and optionally a point and more digits. */
  ghost predicate Shaped(text: string) {
    && (Digits(WholeOf(text)) || Grouped(WholeOf(text)))
    && if '.' in text then Digits(FractionOf(text)) else true
  }

  /** The fraction cut or padded to the exponent; nothing but zeros may be cut off. */
  ghost function Scaled(whole: string, fraction: string, exponent: nat): Option<nat>
    requires AllDigits(whole) && AllDigits(fraction)
  {
    var kept := if |fraction| <= exponent then fraction else fraction[..exponent];
    if exists i :: |kept| <= i < |fraction| && fraction[i] != '0' then None
    else Some(Val(whole + (kept + Zeros(exponent - |kept|))))
  }

  /** An undecorated text: nothing below zero, nothing of another shape, and nothing inexact. */
  ghost function ReadAmount(text: string, exponent: nat): Option<nat> {
    if text != [] && text[0] == '-' then None
    else if !Shaped(text) then None
    else
      ShapedIsDigits(text);
      Scaled(Ungrouped(WholeOf(text)), FractionOf(text), exponent)
  }

  ghost function ToMinorUnits(table: Table, price: string, currency: string): Option<nat> {
    var exponent := MinorUnitExponent(table, currency);
    var text := StripCurrencyDecoration(price, Normalise(currency));
    if exponent.None? || text.None? then None else ReadAmount(text.value, exponent.value)
  }

  /** Every character kept comes from somewhere in the string. */
  lemma {:induction false} WithoutFrom(s: string, n: nat, drop: set<char>, i: nat) returns (j: nat)
    requires n <= |s| && i < |Without(s, n, drop)|
    ensures j < n && Without(s, n, drop)[i] == s[j] && s[j] !in drop
  {
    if i < |Without(s, n - 1, drop)| {
      j := WithoutFrom(s, n - 1, drop, i);
    } else {
      j := n - 1;
    }
  }

  lemma {:induction false} WithoutNothing(s: string, n: nat, drop: set<char>)
    requires n <= |s| && forall i :: 0 <= i < n ==> s[i] !in drop
    ensures Without(s, n, drop) == s[..n]
  {
    if n > 0 {
      WithoutNothing(s, n - 1, drop);
      assert s[..n] == s[..n - 1] + [s[n - 1]];
    }
  }

  lemma {:induction false} WithoutNone(s: string, drop: set<char>)
    requires forall i :: 0 <= i < |s| ==> s[i] !in drop
    ensures Without(s, |s|, drop) == s
  {
    WithoutNothing(s, |s|, drop);
    assert s[..|s|] == s;
  }

  /** What stands at an index among the groups, and behind a comma. */
  lemma {:induction false} GroupAt(s: string, k: nat, i: nat)
    requires k <= i < |s| && Groups(s, k)
    ensures s[i] == ',' || IsDigit(s[i])
    ensures s[i] == ',' ==> i + 4 <= |s| && IsDigit(s[i + 1]) && IsDigit(s[i + 2]) && IsDigit(s[i + 3])
    ensures s[i] == ',' ==> i + 4 == |s| || s[i + 4] == ','
    decreases |s| - k
  {
    if i >= k + 4 {
      GroupAt(s, k + 4, i);
    }
  }

  lemma {:induction false} GroupedHasDigits(whole: string, i: nat)
    requires Grouped(whole) && i < |whole| && whole[i] != ','
    ensures IsDigit(whole[i])
  {
    var k :| 1 <= k <= 3 && k < |whole| && Groups(whole, k) && forall i :: 0 <= i < k ==> IsDigit(whole[i]);
    if i >= k {
      GroupAt(whole, k, i);
    }
  }

  lemma {:induction false} UngroupedHasDigits(whole: string)
    requires Digits(whole) || Grouped(whole)
    ensures AllDigits(Ungrouped(whole))
  {
    forall i | 0 <= i < |Ungrouped(whole)| ensures IsDigit(Ungrouped(whole)[i]) {
      var j := WithoutFrom(whole, |whole|, COMMAS, i);
      if !Digits(whole) {
        GroupedHasDigits(whole, j);
      }
    }
  }

  lemma {:induction false} ShapedIsDigits(text: string)
    requires Shaped(text)
    ensures AllDigits(Ungrouped(WholeOf(text))) && AllDigits(FractionOf(text))
  {
    UngroupedHasDigits(WholeOf(text));
  }

  // ---------------------------------------------------------------------------
  // Exactness.
  // ---------------------------------------------------------------------------

  lemma CancelFactor(a: nat, b: nat, k: nat)
    requires k >= 1
    ensures a * k == b * k <==> a == b
  {
  }

  lemma ScaledUp(r: nat, v: nat, pn: nat, pf: nat, pe: nat)
    requires pe == pn * pf && pf >= 1
    ensures v * pn == r <==> r * pf == v * pe
  {
    CancelFactor(r, v * pn, pf);
    assert (v * pn) * pf == v * (pn * pf);
  }

  lemma OnlyWholeMultiples(r: nat, v: nat, d: nat, k: nat)
    requires d < k
    ensures d == 0 && r == v <==> r * k == v * k + d
  {
    var x := r - v;
    Differs(r, v, k);
    TimesIsFar(x, k);
    assert x == 0 ==> x * k == 0;
  }

  lemma Associates(a: nat, b: nat, c: nat)
    ensures a * (b * c) == (a * b) * c
  {
  }

  lemma ScaledDown(r: nat, v: nat, d: nat, k: nat, pe: nat, pf: nat)
    requires d < k && pe >= 1 && pf == k * pe
    ensures d == 0 && r == v <==> r * pf == (v * k + d) * pe
  {
    Associates(r, k, pe);
    var left, right := r * k, v * k + d;
    CancelFactor(left, right, pe);
    OnlyWholeMultiples(r, v, d, k);
  }

  lemma Regroup<T>(a: seq<T>, b: seq<T>, c: seq<T>)
    ensures (a + b) + c == a + (b + c)
  {
  }

  lemma {:induction false} PaddedValue(digits: string, n: nat)
    requires AllDigits(digits)
    ensures AllDigits(digits + Zeros(n)) && Val(digits + Zeros(n)) == Val(digits) * Pow10(n)
  {
    ValOfConcat(digits, Zeros(n));
    ValOfZeros(n);
  }

  lemma {:induction false} ShortFraction(whole: string, fraction: string, exponent: nat)
    requires AllDigits(whole) && AllDigits(fraction) && |fraction| <= exponent
    ensures AllDigits(whole + fraction)
    ensures Scaled(whole, fraction, exponent) == Some(Val(whole + fraction) * Pow10(exponent - |fraction|))
  {
    PaddedValue(whole + fraction, exponent - |fraction|);
    Regroup(whole, fraction, Zeros(exponent - |fraction|));
  }

  lemma {:induction false} LongFraction(whole: string, fraction: string, exponent: nat) returns (v: nat, d: nat)
    requires AllDigits(whole) && AllDigits(fraction) && |fraction| > exponent
    ensures AllDigits(whole + fraction) && d < Pow10(|fraction| - exponent)
    ensures Val(whole + fraction) == v * Pow10(|fraction| - exponent) + d
    ensures Scaled(whole, fraction, exponent) == if d == 0 then Some(v) else None
  {
    var kept, dropped := fraction[..exponent], fraction[exponent..];
    ValOfConcat(whole, kept);
    ValOfConcat(whole + kept, dropped);
    assert (whole + kept) + dropped == whole + fraction;
    assert kept + Zeros(0) == kept;
    v, d := Val(whole + kept), Val(dropped);
    ValIsBelow(dropped);
    if i :| exponent <= i < |fraction| && fraction[i] != '0' {
      assert dropped[i - exponent] == fraction[i];
      NonZeroCounts(dropped, i - exponent);
    } else {
      OnlyZeros(dropped);
    }
  }

  /**
   EXACT: the reading is `r` if and only if `r` is the decimal text times
   10^exponent; so it is refused if and only if no integer is.
   */
  lemma ScaledIsExact(whole: string, fraction: string, exponent: nat, r: nat)
    requires AllDigits(whole) && AllDigits(fraction)
    ensures AllDigits(whole + fraction)
    ensures Scaled(whole, fraction, exponent) == Some(r) <==> r * Pow10(|fraction|) == Val(whole + fraction) * Pow10(exponent)
  {
    if |fraction| <= exponent {
      ShortFraction(whole, fraction, exponent);
      Pow10Adds(exponent - |fraction|, |fraction|);
      Pow10Positive(|fraction|);
      ScaledUp(r, Val(whole + fraction), Pow10(exponent - |fraction|), Pow10(|fraction|), Pow10(exponent));
    } else {
      var v, d := LongFraction(whole, fraction, exponent);
      Pow10Adds(|fraction| - exponent, exponent);
      Pow10Positive(exponent);
      ScaledDown(r, v, d, Pow10(|fraction| - exponent), Pow10(exponent), Pow10(|fraction|));
    }
  }

  /** A zero more at the end of the fraction changes nothing. */
  lemma TrailingZeroChangesNothing(whole: string, fraction: string, exponent: nat)
    requires AllDigits(whole) && AllDigits(fraction)
    ensures AllDigits(fraction + ['0']) && Scaled(whole, fraction + ['0'], exponent) == Scaled(whole, fraction, exponent)
  {
    var longer := fraction + ['0'];
    forall r: nat ensures Scaled(whole, longer, exponent) == Some(r) <==> Scaled(whole, fraction, exponent) == Some(r) {
      ScaledIsExact(whole, longer, exponent, r);
      ScaledIsExact(whole, fraction, exponent, r);
      assert (whole + longer)[..|whole + longer| - 1] == whole + fraction;
      TenTimes(r, Pow10(|fraction|), Val(whole + fraction), Pow10(exponent));
    }
    var a, b := Scaled(whole, longer, exponent), Scaled(whole, fraction, exponent);
    if a.Some? {
      assert b == Some(a.value);
    }
    if b.Some? {
      assert a == Some(b.value);
    }
  }

  lemma TenTimes(r: nat, p: nat, v: nat, q: nat)
    ensures r * (10 * p) == (10 * v) * q <==> r * p == v * q
  {
    assert r * (10 * p) == 10 * (r * p) && (10 * v) * q == 10 * (v * q);
  }

  lemma {:induction false} WithoutConcat(a: string, b: string, n: nat, drop: set<char>)
    requires n <= |b|
    ensures Without(a + b, |a| + n, drop) == Without(a, |a|, drop) + Without(b, n, drop)
    decreases n
  {
    if n > 0 {
      WithoutConcat(a, b, n - 1, drop);
    } else {
      WithoutPrefix(a, b, |a|, drop);
    }
  }

  lemma {:induction false} WithoutPrefix(a: string, b: string, n: nat, drop: set<char>)
    requires n <= |a|
    ensures Without(a + b, n, drop) == Without(a, n, drop)
  {
    if n > 0 {
      WithoutPrefix(a, b, n - 1, drop);
    }
  }

  lemma {:induction false} WithoutKeeps(s: string, n: nat, i: nat, drop: set<char>)
    requires i < n <= |s| && s[i] !in drop
    ensures s[i] in Without(s, n, drop)
    decreases n
  {
    if i < n - 1 {
      WithoutKeeps(s, n - 1, i, drop);
    }
  }

  /** The whole part is what stands before the point, and the fraction what stands after it. */
  lemma {:induction false} PartsOf(whole: string, fraction: string)
    requires '.' !in whole
    ensures WholeOf(whole) == whole && FractionOf(whole) == []
    ensures WholeOf(whole + (['.'] + fraction)) == whole && FractionOf(whole + (['.'] + fraction)) == fraction
  {
    var text := whole + (['.'] + fraction);
    assert text[..|whole|] == whole && text[|whole| + 1..] == fraction;
    FirstIndex(text, '.', |whole|);
  }

  lemma {:induction false} TextParts(text: string)
    ensures '.' !in WholeOf(text)
    ensures text == Joined(WholeOf(text), '.' in text, FractionOf(text))
    ensures '.' !in text ==> FractionOf(text) == []
  {
    if '.' in text {
      var k := IndexOf(text, '.');
      assert text == text[..k] + ([text[k]] + text[k + 1..]);
    }
  }

  lemma {:induction false} UngroupedIsDigits(whole: string)
    requires Digits(whole) || Grouped(whole)
    ensures Digits(Ungrouped(whole)) && Ungrouped(Ungrouped(whole)) == Ungrouped(whole) && '.' !in Ungrouped(whole)
    ensures whole != [] && IsDigit(whole[0])
  {
    WithoutKeeps(whole, |whole|, 0, COMMAS);
    UngroupedHasDigits(whole);
    WithoutNone(Ungrouped(whole), COMMAS);
  }

  lemma {:induction false} ShapedIsRead(text: string, exponent: nat)
    requires Shaped(text)
    ensures AllDigits(Ungrouped(WholeOf(text))) && AllDigits(FractionOf(text))
    ensures ReadAmount(text, exponent) == Scaled(Ungrouped(WholeOf(text)), FractionOf(text), exponent)
  {
    ShapedIsDigits(text);
    UngroupedIsDigits(WholeOf(text));
    TextParts(text);
    assert text[0] == WholeOf(text)[0];
  }

  ghost predicate NoneDropped(s: string, drop: set<char>) { forall i :: 0 <= i < |s| ==> s[i] !in drop }

  lemma {:induction false} WithoutOnlyBefore(a: string, b: string, n: nat, drop: set<char>)
    requires n <= |b| && NoneDropped(b, drop)
    ensures Without(a + b, |a| + n, drop) == Without(a, |a|, drop) + b[..n]
  {
    if n > 0 {
      WithoutOnlyBefore(a, b, n - 1, drop);
      assert b[..n] == b[..n - 1] + [b[n - 1]];
    } else {
      WithoutPrefix(a, b, |a|, drop);
    }
  }

  lemma {:induction false} WithoutTail(a: string, b: string, drop: set<char>)
    requires NoneDropped(b, drop)
    ensures Without(a + b, |a| + |b|, drop) == Without(a, |a|, drop) + b[..|b|]
  {
    WithoutOnlyBefore(a, b, |b|, drop);
  }

  lemma Whole<T>(s: seq<T>)
    ensures s[..|s|] == s
  {
  }

  /** A text put together from its parts. */
  function Joined(whole: string, point: bool, fraction: string): string {
    if point then whole + (['.'] + fraction) else whole
  }

  lemma TailIsKept(fraction: string)
    requires AllDigits(fraction)
    ensures NoneDropped(['.'] + fraction, COMMAS)
  {
  }

  lemma {:induction false} UngroupedText(whole: string, point: bool, fraction: string, text: string)
    requires AllDigits(fraction) && text == Joined(whole, point, fraction)
    ensures Without(text, |text|, COMMAS) == Joined(Ungrouped(whole), point, fraction)
  {
    if point {
      var tail := ['.'] + fraction;
      TailIsKept(fraction);
      WithoutTail(whole, tail, COMMAS);
      Whole(tail);
    }
  }

  lemma {:induction false} JoinedParts(whole: string, point: bool, fraction: string)
    requires '.' !in whole && (!point ==> fraction == [])
    ensures var text := Joined(whole, point, fraction);
            WholeOf(text) == whole && FractionOf(text) == fraction && ('.' in text <==> point)
  {
    PartsOf(whole, fraction);
    if point {
      assert (whole + (['.'] + fraction))[|whole|] == '.';
    }
  }

  lemma {:induction false} UngroupedParts(text: string)
    requires Shaped(text)
    ensures var bare := Without(text, |text|, COMMAS);
            WholeOf(bare) == Ungrouped(WholeOf(text)) && FractionOf(bare) == FractionOf(text) && ('.' in bare <==> '.' in text)
  {
    var whole, point, fraction := WholeOf(text), '.' in text, FractionOf(text);
    TextParts(text);
    UngroupedIsDigits(whole);
    ShapedIsDigits(text);
    UngroupedText(whole, point, fraction, text);
    JoinedParts(Ungrouped(whole), point, fraction);
  }

  /** Grouping commas change nothing. */
  lemma GroupingChangesNothing(text: string, exponent: nat)
    requires Shaped(text)
    ensures ReadAmount(Without(text, |text|, COMMAS), exponent) == ReadAmount(text, exponent)
  {
    UngroupedParts(text);
    UngroupedIsDigits(WholeOf(text));
    ShapedIsRead(text, exponent);
    ShapedIsRead(Without(text, |text|, COMMAS), exponent);
  }

  // ---------------------------------------------------------------------------
  // Printing, and reading back.
  // ---------------------------------------------------------------------------

  function PadStart(s: string, n: nat): string { if |s| < n then Zeros(n - |s|) + s else s }

  function Sign(amount: int): string { if amount < 0 then ['-'] else [] }

  function Size(amount: int): nat { if amount < 0 then -amount else amount }

  function AmountDigits(amount: int, exponent: nat): string {
    if exponent == 0 then Decimal(Size(amount)) else PadStart(Decimal(Size(amount)), exponent + 1)
  }

  function Before(s: string, n: nat): string { if n <= |s| then s[..|s| - n] else [] }

  function Last(s: string, n: nat): string { if n <= |s| then s[|s| - n..] else s }

  /** The digits sliced at the exponent, never divided. */
  function AmountText(amount: int, exponent: nat): string {
    var digits := AmountDigits(amount, exponent);
    Sign(amount) + Joined(Before(digits, exponent), exponent > 0, Last(digits, exponent))
  }

  function FormatMinorUnits(table: Table, amount: int, currency: string): string {
    var code := Normalise(currency);
    var exponent := MinorUnitExponent(table, currency);
    if exponent.None? then code + ([' '] + (Sign(amount) + Decimal(Size(amount)) + " (minor units)"))
    else code + ([' '] + AmountText(amount, exponent.value))
  }

  lemma {:induction false} PaddedDigits(n: nat, k: nat)
    ensures var d := PadStart(Decimal(n), k); Digits(d) && |d| >= k && Val(d) == n
  {
    DecimalReadsBack(n);
    var d := Decimal(n);
    if |d| < k {
      ValOfConcat(Zeros(k - |d|), d);
      ValOfZeros(k - |d|);
    }
  }

  predicate PlainChar(c: char) { IsDigit(c) || c == '.' || c == ',' || c == '-' }

  /** What an amount looks like from outside: digits, points, grouping commas and a sign, with a digit at its end. */
  ghost predicate Plain(text: string) {
    text != [] && IsDigit(text[|text| - 1]) && forall i :: 0 <= i < |text| ==> PlainChar(text[i])
  }

  lemma PlainJoins(a: string, b: string)
    requires Plain(b) && forall i :: 0 <= i < |a| ==> PlainChar(a[i])
    ensures Plain(a + b)
  {
  }

  lemma Slices(digits: string, n: nat)
    requires AllDigits(digits) && n < |digits|
    ensures Digits(Before(digits, n)) && AllDigits(Last(digits, n)) && |Last(digits, n)| == n
    ensures Before(digits, n) + Last(digits, n) == digits
  {
  }

  lemma DigitsOfAmount(amount: int, exponent: nat)
    ensures var d := AmountDigits(amount, exponent); Digits(d) && |d| > exponent && Val(d) == Size(amount)
  {
    PaddedDigits(Size(amount), exponent + 1);
    DecimalReadsBack(Size(amount));
  }

  lemma JoinedIsPlain(whole: string, point: bool, fraction: string)
    requires Digits(whole) && AllDigits(fraction) && (point ==> fraction != [])
    ensures Plain(Joined(whole, point, fraction))
  {
    if point {
      PlainJoins(['.'], fraction);
      PlainJoins(whole, ['.'] + fraction);
    }
  }

  lemma AmountIsPlain(amount: int, exponent: nat)
    ensures Plain(AmountText(amount, exponent))
  {
    var digits := AmountDigits(amount, exponent);
    DigitsOfAmount(amount, exponent);
    Slices(digits, exponent);
    JoinedIsPlain(Before(digits, exponent), exponent > 0, Last(digits, exponent));
    PlainJoins(Sign(amount), Joined(Before(digits, exponent), exponent > 0, Last(digits, exponent)));
  }

  lemma {:induction false} CodeIsStripped(code: string, text: string)
    requires IsCode(code) && Plain(text)
    ensures DropSymbolsAfter(DropSymbolsBefore(code + text)) == code + text
    ensures DropCodeAfter(DropCodeBefore(code + text, code), code) == text
  {
    var all := code + text;
    assert !IsSymbol(all[0]) && !IsSymbol(all[|all| - 1]);
    assert all[..3] == code && all[3..] == text;
    assert Upper(code) == code;
    if |text| >= 3 {
      assert Upper(text[|text| - 3..])[2] == UpperChar(text[|text| - 1]);
    }
  }

  lemma {:induction false} SpaceIsStripped(code: string, text: string)
    requires IsCode(code) && Plain(text)
    ensures var all := code + ([' '] + text); Without(all, |all|, SPACES) == code + text
  {
    var tail := [' '] + text;
    WithoutConcat(code, tail, |tail|, SPACES);
    WithoutConcat([' '], text, |text|, SPACES);
    WithoutNone(code, SPACES);
    WithoutNone(text, SPACES);
    assert Without([' '], 1, SPACES) == [];
  }

  lemma DecorationIsStripped(code: string, text: string)
    requires IsCode(code) && Plain(text)
    ensures StripCurrencyDecoration(code + ([' '] + text), code) == Some(text)
  {
    SpaceIsStripped(code, text);
    CodeIsStripped(code, text);
  }

  lemma {:induction false} JoinedReads(whole: string, fraction: string)
    requires Digits(whole) && AllDigits(fraction)
    ensures ReadAmount(Joined(whole, |fraction| > 0, fraction), |fraction|) == Some(Val(whole + fraction))
  {
    var text := Joined(whole, |fraction| > 0, fraction);
    JoinedParts(whole, |fraction| > 0, fraction);
    ShapedIsRead(text, |fraction|);
    WithoutNone(whole, COMMAS);
    ShortFraction(whole, fraction, |fraction|);
  }

  lemma AmountReadsBack(amount: nat, exponent: nat)
    ensures ReadAmount(AmountText(amount, exponent), exponent) == Some(amount)
  {
    var digits := AmountDigits(amount, exponent);
    DigitsOfAmount(amount, exponent);
    Slices(digits, exponent);
    JoinedReads(Before(digits, exponent), Last(digits, exponent));
    Unsigned(amount, Joined(Before(digits, exponent), exponent > 0, Last(digits, exponent)));
  }

  lemma Unsigned(amount: nat, text: string)
    ensures Sign(amount) + text == text && Size(amount) == amount
  {
  }

  lemma BelowZeroIsRefused(amount: int, exponent: nat)
    requires amount < 0
    ensures ReadAmount(AmountText(amount, exponent), exponent) == None
  {
    assert AmountText(amount, exponent)[0] == Sign(amount)[0];
  }

  /** ROUND TRIP: a printed amount reads back as itself, and an amount below zero is refused. */
  lemma PrintedAmountReadsBack(table: Table, amount: int, currency: string)
    requires MinorUnitExponent(table, currency).Some?
    ensures ToMinorUnits(table, FormatMinorUnits(table, amount, currency), currency) == if amount >= 0 then Some(amount) else None
  {
    var exponent := MinorUnitExponent(table, currency).value;
    AmountIsPlain(amount, exponent);
    DecorationIsStripped(Normalise(currency), AmountText(amount, exponent));
    if amount >= 0 {
      AmountReadsBack(amount, exponent);
    } else {
      BelowZeroIsRefused(amount, exponent);
    }
  }

  // ---------------------------------------------------------------------------
  // Decoration changes nothing.
  // ---------------------------------------------------------------------------

  lemma {:induction false} SymbolsBeforeGo(symbols: string, rest: string)
    requires (forall i :: 0 <= i < |symbols| ==> IsSymbol(symbols[i])) && rest != [] && !IsSymbol(rest[0])
    ensures DropSymbolsBefore(symbols + rest) == rest
    decreases |symbols|
  {
    if symbols == [] {
      NothingBefore(rest);
    } else {
      assert (symbols + rest)[1..] == symbols[1..] + rest;
      SymbolsBeforeGo(symbols[1..], rest);
    }
  }

  lemma {:induction false} SymbolsAfterGo(rest: string, symbols: string)
    requires (forall i :: 0 <= i < |symbols| ==> IsSymbol(symbols[i])) && rest != [] && !IsSymbol(rest[|rest| - 1])
    ensures DropSymbolsAfter(rest + symbols) == rest
    decreases |symbols|
  {
    if symbols == [] {
      NothingAfter(rest);
    } else {
      var all := rest + symbols;
      assert all[|all| - 1] == symbols[|symbols| - 1] && all[..|all| - 1] == rest + symbols[..|symbols| - 1];
      SymbolsAfterGo(rest, symbols[..|symbols| - 1]);
    }
  }

  lemma NothingBefore<T>(s: seq<T>)
    ensures [] + s == s
  {
  }

  lemma NothingAfter<T>(s: seq<T>)
    ensures s + [] == s
  {
  }

  /** A plain text neither starts nor ends with a code. */
  lemma {:induction false} PlainHasNoCode(text: string, code: string)
    requires Plain(text) && IsCode(code)
    ensures DropCodeAfter(DropCodeBefore(text, code), code) == text
  {
    if |text| >= 3 {
      assert Upper(text[..3])[0] == UpperChar(text[0]);
      assert Upper(text[|text| - 3..])[2] == UpperChar(text[|text| - 1]);
    }
  }

  predicate Decorates(s: string) { forall i :: 0 <= i < |s| ==> IsSpace(s[i]) || IsSymbol(s[i]) }

  lemma {:induction false} OnlySymbolsStay(s: string)
    requires Decorates(s)
    ensures forall i :: 0 <= i < |Without(s, |s|, SPACES)| ==> IsSymbol(Without(s, |s|, SPACES)[i])
  {
    forall i | 0 <= i < |Without(s, |s|, SPACES)| ensures IsSymbol(Without(s, |s|, SPACES)[i]) {
      var j := WithoutFrom(s, |s|, SPACES, i);
    }
  }

  lemma {:induction false} SpacesGo(before: string, text: string, after: string)
    requires Plain(text)
    ensures var all := before + (text + after);
            Without(all, |all|, SPACES) == Without(before, |before|, SPACES) + (text + Without(after, |after|, SPACES))
  {
    WithoutConcat(before, text + after, |text + after|, SPACES);
    WithoutConcat(text, after, |after|, SPACES);
    WithoutNone(text, SPACES);
  }

  /** White space and currency symbols, any number of them on either side, change nothing. */
  lemma {:induction false} DecorationIsIgnored(before: string, text: string, after: string, code: string)
    requires IsCode(code) && Plain(text) && Decorates(before) && Decorates(after)
    ensures StripCurrencyDecoration(before + (text + after), code) == Some(text)
  {
    var b, a := Without(before, |before|, SPACES), Without(after, |after|, SPACES);
    SpacesGo(before, text, after);
    OnlySymbolsStay(before);
    OnlySymbolsStay(after);
    SymbolsBeforeGo(b, text + a);
    SymbolsAfterGo(text, a);
    PlainHasNoCode(text, code);
  }

  /** The code itself, in either case and whatever white space stands between, changes nothing at either end. */
  lemma {:induction false} CodeIsIgnored(written: string, code: string, space: string, text: string)
    requires IsCode(code) && |written| == 3 && Upper(written) == code && Plain(text)
    requires forall i :: 0 <= i < |space| ==> IsSpace(space[i])
    ensures StripCurrencyDecoration(written + (space + text), code) == Some(text)
    ensures StripCurrencyDecoration(text + (space + written), code) == Some(text)
  {
    LettersStay(written, code);
    SpaceGoes(written, space, text);
    SpaceGoes(text, space, written);
    CodeBeforeGoes(written, code, text);
    CodeAfterGoes(text, written, code);
  }

  lemma {:induction false} LettersStay(written: string, code: string)
    requires IsCode(code) && |written| == 3 && Upper(written) == code
    ensures forall i :: 0 <= i < 3 ==> !IsSpace(written[i]) && !IsSymbol(written[i]) && !PlainChar(written[i])
  {
    forall i | 0 <= i < 3 ensures !IsSpace(written[i]) && !IsSymbol(written[i]) && !PlainChar(written[i]) {
      assert UpperChar(written[i]) == code[i];
    }
  }

  lemma {:induction false} WithoutAll(s: string, n: nat, drop: set<char>)
    requires n <= |s| && forall i :: 0 <= i < n ==> s[i] in drop
    ensures Without(s, n, drop) == []
  {
    if n > 0 {
      WithoutAll(s, n - 1, drop);
    }
  }

  lemma {:induction false} SpaceGoes(a: string, space: string, b: string)
    requires forall i :: 0 <= i < |space| ==> IsSpace(space[i])
    requires (forall i :: 0 <= i < |a| ==> !IsSpace(a[i])) && (forall i :: 0 <= i < |b| ==> !IsSpace(b[i]))
    ensures var all := a + (space + b); Without(all, |all|, SPACES) == a + b
  {
    WithoutConcat(a, space + b, |space + b|, SPACES);
    WithoutConcat(space, b, |b|, SPACES);
    WithoutNone(a, SPACES);
    WithoutNone(b, SPACES);
    WithoutAll(space, |space|, SPACES);
    NothingBefore(b);
  }

  lemma {:induction false} CodeBeforeGoes(written: string, code: string, text: string)
    requires IsCode(code) && |written| == 3 && Upper(written) == code && Plain(text)
    requires forall i :: 0 <= i < 3 ==> !IsSymbol(written[i])
    ensures DropSymbolsAfter(DropSymbolsBefore(written + text)) == written + text
    ensures DropCodeAfter(DropCodeBefore(written + text, code), code) == text
  {
    var all := written + text;
    assert !IsSymbol(all[0]) && !IsSymbol(all[|all| - 1]);
    assert all[..3] == written && all[3..] == text;
    PlainEndsWithoutCode(text, code);
  }

  lemma {:induction false} PlainEndsWithoutCode(text: string, code: string)
    requires Plain(text) && IsCode(code)
    ensures DropCodeAfter(text, code) == text
  {
    if |text| >= 3 {
      assert Upper(text[|text| - 3..])[2] == UpperChar(text[|text| - 1]);
    }
  }

  lemma {:induction false} CodeAfterGoes(text: string, written: string, code: string)
    requires IsCode(code) && |written| == 3 && Upper(written) == code && Plain(text)
    requires forall i :: 0 <= i < 3 ==> !IsSymbol(written[i])
    ensures DropSymbolsAfter(DropSymbolsBefore(text + written)) == text + written
    ensures DropCodeAfter(DropCodeBefore(text + written, code), code) == text
  {
    var all := text + written;
    assert PlainChar(all[0]);
    assert !IsSymbol(all[0]) && !IsSymbol(all[|all| - 1]);
    assert Upper(all[..3])[0] == UpperChar(all[0]);
    assert all[|all| - 3..] == written && all[..|all| - 3] == text;
  }

  // ---------------------------------------------------------------------------
  // Spellings of one amount, as they stand in a price.
  // ---------------------------------------------------------------------------

  /** The parts of a text with one more zero at its end. */
  lemma {:induction false} ZeroMorePart(text: string)
    requires '.' in text
    ensures WholeOf(text + ['0']) == WholeOf(text) && FractionOf(text + ['0']) == FractionOf(text) + ['0']
    ensures '.' in text + ['0']
  {
    TextParts(text);
    JoinedLonger(WholeOf(text), FractionOf(text));
    JoinedParts(WholeOf(text), true, FractionOf(text) + ['0']);
  }

  lemma JoinedLonger(whole: string, fraction: string)
    ensures Joined(whole, true, fraction) + ['0'] == Joined(whole, true, fraction + ['0'])
  {
  }

  lemma EndsInItsFraction(text: string)
    requires '.' in text && text[|text| - 1] != '.'
    ensures FractionOf(text) != []
  {
  }

  lemma {:induction false} ZeroMoreIsShaped(text: string)
    requires Plain(text) && '.' in text
    ensures Shaped(text + ['0']) <==> Shaped(text)
  {
    var fraction := FractionOf(text);
    ZeroMorePart(text);
    EndsInItsFraction(text);
    assert forall i :: 0 <= i < |fraction| ==> (fraction + ['0'])[i] == fraction[i];
  }

  /** A zero more at the end of an amount's fraction changes nothing, shaped or not. */
  lemma {:induction false} TrailingZeroIsIgnored(text: string, exponent: nat)
    requires Plain(text) && '.' in text
    ensures ReadAmount(text + ['0'], exponent) == ReadAmount(text, exponent)
  {
    ZeroMoreIsShaped(text);
    assert (text + ['0'])[0] == text[0];
    if Shaped(text) {
      ZeroMorePart(text);
      ShapedIsRead(text, exponent);
      ShapedIsRead(text + ['0'], exponent);
      TrailingZeroChangesNothing(Ungrouped(WholeOf(text)), FractionOf(text), exponent);
    }
  }

  lemma {:induction false} UngroupedIsPlain(text: string)
    requires Plain(text)
    ensures Plain(Without(text, |text|, COMMAS))
  {
    var bare := Without(text, |text|, COMMAS);
    forall i | 0 <= i < |bare| ensures PlainChar(bare[i]) {
      var j := WithoutFrom(text, |text|, COMMAS, i);
    }
  }

  /** What a decorated amount reads as is what the amount reads as. */
  lemma {:induction false} DecoratedReads(table: Table, before: string, text: string, after: string, currency: string)
    requires Plain(text) && Decorates(before) && Decorates(after) && MinorUnitExponent(table, currency).Some?
    ensures ToMinorUnits(table, before + (text + after), currency) == ReadAmount(text, MinorUnitExponent(table, currency).value)
  {
    DecorationIsIgnored(before, text, after, Normalise(currency));
  }

  /**
   ONE AMOUNT, ONE READING: in a decorated price of any currency, grouping commas and
   a zero more at the end of the fraction never change what is read.
   */
  lemma {:induction false} SpellingsReadAlike(table: Table, before: string, text: string, after: string, currency: string)
    requires Plain(text) && Decorates(before) && Decorates(after)
    ensures '.' in text ==> ToMinorUnits(table, before + ((text + ['0']) + after), currency) ==
                            ToMinorUnits(table, before + (text + after), currency)
    ensures Shaped(text) ==> ToMinorUnits(table, before + (Without(text, |text|, COMMAS) + after), currency) ==
                             ToMinorUnits(table, before + (text + after), currency)
  {
    if MinorUnitExponent(table, currency).Some? {
      var exponent := MinorUnitExponent(table, currency).value;
      PlainJoins(text, ['0']);
      UngroupedIsPlain(text);
      DecoratedReads(table, before, text, after, currency);
      DecoratedReads(table, before, text + ['0'], after, currency);
      DecoratedReads(table, before, Without(text, |text|, COMMAS), after, currency);
      if '.' in text {
        TrailingZeroIsIgnored(text, exponent);
      }
      if Shaped(text) {
        GroupingChangesNothing(text, exponent);
      }
    }
  }
}
