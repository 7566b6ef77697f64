/**
 * How the add-to-cart handler of script.js reads a menu item's price: the
 * element's `data-price` attribute when it is a non-empty string, parsed with
 * `parseFloat`; otherwise the element's text with everything but digits and
 * `.` removed, parsed with `parseFloat`, and 0 when that gives NaN (or 0).
 * Numbers are exact reals here; the rounding of IEEE doubles is not modelled.
 */
module PriceParsing {
  import opened Wrappers

  /** What `parseFloat` can return, without the rounding of doubles. */
  datatype JsNumber = Finite(value: real) | Infinite(negative: bool) | NaN

  /** The `.price` element of a menu item: its `data-price` attribute, if any, and its text. */
  datatype PriceElement = PriceElement(dataPrice: Option<string>, textContent: string)

  /** The error the handler throws when it reads `textContent` of a missing element. */
  const TypeErrorOnNull: string := "TypeError: cannot read properties of null (reading 'textContent')"

  predicate IsDigit(c: char)
  {
    '0' <= c <= '9'
  }

  /** The characters that `/[^\d.]/g` keeps. */
  predicate IsDigitOrDot(c: char)
  {
    IsDigit(c) || c == '.'
  }

  /** The characters `parseFloat` skips before the number (white space and line terminators). */
  predicate IsJsWhiteSpace(c: char)
  {
    c == '\t' || c == '\n' || c == '\U{000B}' || c == '\U{000C}' || c == '\r' || c == ' '
    || c == '\U{00A0}' || c == '\U{1680}' || ('\U{2000}' <= c <= '\U{200A}')
    || c == '\U{2028}' || c == '\U{2029}' || c == '\U{202F}' || c == '\U{205F}'
    || c == '\U{3000}' || c == '\U{FEFF}'
  }

  // ---------------------------------------------------------------------------
  // text.replace(/[^\d.]/g, '')

  /** The digits and dots of `s`, every other character removed. */
  function KeepDigitsAndDots(s: string): (r: string)
    ensures |r| <= |s|
    ensures forall i :: 0 <= i < |r| ==> IsDigitOrDot(r[i])
  {
    if s == [] then []
    else
      var rest := KeepDigitsAndDots(s[1..]);
      if IsDigitOrDot(s[0]) then [s[0]] + rest else rest
  }

  /** Every digit and dot of the text is kept, as often as it occurs; nothing else is. */
  lemma {:induction false} KeepDigitsAndDotsCounts(s: string, c: char)
    ensures multiset(KeepDigitsAndDots(s))[c] == if IsDigitOrDot(c) then multiset(s)[c] else 0
  {
    if s != [] {
      KeepDigitsAndDotsCounts(s[1..], c);
      assert s == [s[0]] + s[1..];
      assert multiset(s) == multiset([s[0]]) + multiset(s[1..]);
      if IsDigitOrDot(s[0]) {
        assert KeepDigitsAndDots(s) == [s[0]] + KeepDigitsAndDots(s[1..]);
        assert multiset(KeepDigitsAndDots(s)) == multiset([s[0]]) + multiset(KeepDigitsAndDots(s[1..]));
      }
    }
  }

  /** Filtering works piece by piece, so the kept characters stay in their original order. */
  lemma {:induction false} KeepDigitsAndDotsConcat(a: string, b: string)
    ensures KeepDigitsAndDots(a + b) == KeepDigitsAndDots(a) + KeepDigitsAndDots(b)
  {
    if a == [] {
      assert a + b == b;
    } else {
      assert (a + b)[0] == a[0];
      assert (a + b)[1..] == a[1..] + b;
      KeepDigitsAndDotsConcat(a[1..], b);
      var head := if IsDigitOrDot(a[0]) then [a[0]] else [];
      assert KeepDigitsAndDots(a + b) == head + KeepDigitsAndDots(a[1..] + b);
      assert KeepDigitsAndDots(a) == head + KeepDigitsAndDots(a[1..]);
      assert head + (KeepDigitsAndDots(a[1..]) + KeepDigitsAndDots(b)) == (head + KeepDigitsAndDots(a[1..])) + KeepDigitsAndDots(b);
    }
  }

  /** A text made only of digits and dots comes through unchanged, so filtering twice is filtering once. */
  lemma {:induction false} KeepDigitsAndDotsClean(s: string)
    requires forall i :: 0 <= i < |s| ==> IsDigitOrDot(s[i])
    ensures KeepDigitsAndDots(s) == s
  {
    if s != [] {
      KeepDigitsAndDotsClean(s[1..]);
    }
  }

  // ---------------------------------------------------------------------------
  // parseFloat

  function Pow10(n: nat): (p: nat)
    ensures p >= 1
  {
    if n == 0 then 1 else 10 * Pow10(n - 1)
  }

  /** `10^e` for an exponent of either sign. */
  function Scale(e: int): (r: real)
    ensures r > 0.0
  {
    if e >= 0 then Pow10(e) as real else 1.0 / (Pow10(-e) as real)
  }

  /** The length of the run of digits `s` starts with. */
  function LeadingDigits(s: string): (n: nat)
    ensures n <= |s|
    ensures forall i :: 0 <= i < n ==> IsDigit(s[i])
    ensures n < |s| ==> !IsDigit(s[n])
  {
    if s != [] && IsDigit(s[0]) then 1 + LeadingDigits(s[1..]) else 0
  }

  /** A string of decimal digits, possibly empty. */
  predicate AllDigits(d: string)
  {
    forall i :: 0 <= i < |d| ==> IsDigit(d[i])
  }

  /** The value of a string of decimal digits (0 for the empty string). */
  function DigitsValue(d: string): nat
    requires AllDigits(d)
  {
    if d == [] then 0
    else
      var last := d[|d| - 1];
      assert IsDigit(last);
      DigitsValue(d[..|d| - 1]) * 10 + (last as int - '0' as int)
  }

  /** `s` without the white space it starts with. */
  function TrimStart(s: string): (r: string)
    ensures |r| <= |s| && r == s[|s| - |r|..]
    ensures r == [] || !IsJsWhiteSpace(r[0])
  {
    if s != [] && IsJsWhiteSpace(s[0]) then TrimStart(s[1..]) else s
  }

  /** The exponent `e[+-]digits` that `s` starts with, or 0 when it does not start with a complete one. */
  function ExponentOf(s: string): int
  {
    if s == [] || (s[0] != 'e' && s[0] != 'E') then 0
    else
      var t := s[1..];
      var negative := t != [] && t[0] == '-';
      var u := if t != [] && (t[0] == '-' || t[0] == '+') then t[1..] else t;
      var v: int := DigitsValue(u[..LeadingDigits(u)]);
      if negative then -v else v
  }

  /** An unsigned decimal literal as read: `whole [. fraction] [e exponent]`. */
  datatype Decimal = Decimal(whole: string, fraction: string, exponent: int)

  /** True when `u` starts with a digit, or with a dot and a digit: the start of a decimal literal. */
  predicate StartsDecimal(u: string)
  {
    (|u| > 0 && IsDigit(u[0])) || (|u| > 1 && u[0] == '.' && IsDigit(u[1]))
  }

  /** The longest prefix of `u` that is an unsigned decimal literal with at least one digit, or None. */
  function ScanDecimal(u: string): (r: Option<Decimal>)
    ensures r.Some? <==> StartsDecimal(u)
    ensures r.Some? ==> AllDigits(r.value.whole) && AllDigits(r.value.fraction)
  {
    var i := LeadingDigits(u);
    var rest := u[i..];
    if rest != [] && rest[0] == '.' then
      var tail := rest[1..];
      var f := LeadingDigits(tail);
      if i + f == 0 then None else Some(Decimal(u[..i], tail[..f], ExponentOf(tail[f..])))
    else if i == 0 then None
    else Some(Decimal(u[..i], "", ExponentOf(rest)))
  }

  /** The exact value of a decimal literal. */
  function DecimalValue(d: Decimal): (v: real)
    requires AllDigits(d.whole) && AllDigits(d.fraction)
    ensures v >= 0.0
  {
    var mantissa := DigitsValue(d.whole) as real + DigitsValue(d.fraction) as real / (Pow10(|d.fraction|) as real);
    var scale := Scale(d.exponent);
    assert mantissa >= 0.0 && scale > 0.0;
    mantissa * scale
  }

  /** True when `u` starts with the word `Infinity`. */
  predicate StartsWithInfinity(u: string)
  {
    |u| >= 8 && u[0] == 'I' && u[..8] == "Infinity"
  }

  /** True when `u` starts with something `parseFloat` reads as a number once white space and sign are gone. */
  predicate StartsNumber(u: string)
  {
    StartsWithInfinity(u) || StartsDecimal(u)
  }

  /** `t` without the one sign character it may start with. */
  function Unsigned(t: string): (u: string)
    ensures |u| <= |t| && u == t[|t| - |u|..]
  {
    if t != [] && (t[0] == '-' || t[0] == '+') then t[1..] else t
  }

  /** An unsigned number: `Infinity` or an unsigned decimal. */
  function ParseMagnitude(u: string): (r: JsNumber)
    ensures r == NaN <==> !StartsNumber(u)
    ensures r.Finite? ==> r.value >= 0.0
  {
    if StartsWithInfinity(u) then Infinite(false)
    else
      match ScanDecimal(u)
      case None => NaN
      case Some(d) => Finite(DecimalValue(d))
  }

  /** Unary minus on a parsed number. */
  function Negate(n: JsNumber): (r: JsNumber)
    ensures r == NaN <==> n == NaN
    ensures n.Finite? ==> r.Finite? && r.value == -n.value
  {
    match n
    case Finite(v) => Finite(-v)
    case Infinite(neg) => Infinite(!neg)
    case NaN => NaN
  }

  /**
   * `parseFloat(s)`: skip white space, read a sign, then `Infinity` or an unsigned decimal.
   * The result is NaN exactly when no number follows the white space and the sign.
   */
  function ParseFloat(s: string): (r: JsNumber)
    ensures r == NaN <==> !StartsNumber(Unsigned(TrimStart(s)))
    ensures r.Finite? && r.value < 0.0 ==> TrimStart(s)[0] == '-'
  {
    var t := TrimStart(s);
    if t != [] && t[0] == '-' then Negate(ParseMagnitude(t[1..]))
    else if t != [] && t[0] == '+' then ParseMagnitude(t[1..])
    else ParseMagnitude(t)
  }

  /** `n || 0`: NaN and 0 are falsy and become 0; every other number stays. */
  function OrZero(n: JsNumber): (r: JsNumber)
    ensures r != NaN
    ensures n == NaN ==> r == Finite(0.0)
    ensures n != NaN ==> r == n
  {
    if n == NaN || n == Finite(0.0) then Finite(0.0) else n
  }

  // ---------------------------------------------------------------------------
  // The price of a menu item

  /** True when `priceEl?.dataset?.price` is truthy, i.e. a non-empty string. */
  predicate HasDataPrice(el: PriceElement)
  {
    el.dataPrice.Some? && el.dataPrice.value != ""
  }

  /** The price of a present `.price` element; only the `data-price` branch can give NaN. */
  function PriceOf(el: PriceElement): (r: JsNumber)
    ensures r == NaN ==> HasDataPrice(el)
  {
    if HasDataPrice(el) then ParseFloat(el.dataPrice.value)
    else OrZero(ParseFloat(KeepDigitsAndDots(el.textContent)))
  }

  /** The price expression as written: a missing `.price` element throws on `priceEl.textContent`. */
  function ExtractPriceAsWritten(el: Option<PriceElement>): (r: Result<JsNumber, string>)
    ensures r.Err? <==> el.None?
    ensures el.Some? ==> r == Ok(PriceOf(el.value))
  {
    match el
    case None => Err(TypeErrorOnNull)
    case Some(e) => Ok(PriceOf(e))
  }

  /** The price with a missing `.price` element read as an empty text, which the text branch turns into 0. */
  function ExtractPrice(el: Option<PriceElement>): (r: JsNumber)
    ensures el.None? ==> r == Finite(0.0)
    ensures r == NaN ==> el.Some? && HasDataPrice(el.value)
  {
    match el
    case None => PriceOf(PriceElement(None, ""))
    case Some(e) => PriceOf(e)
  }

  /** One character that is a digit or a dot is neither white space nor a sign nor the `I` of `Infinity`. */
  lemma CleanTextHasNoPrefix(s: string)
    requires forall i :: 0 <= i < |s| ==> IsDigitOrDot(s[i])
    ensures TrimStart(s) == s
    ensures !StartsWithInfinity(s)
    ensures ParseFloat(s) == ParseMagnitude(s)
  {
    if s != [] {
      assert IsDigitOrDot(s[0]);
      assert !IsJsWhiteSpace(s[0]);
      assert s[0] != '-' && s[0] != '+' && s[0] != 'I';
    }
  }

  /** A text of digits and dots parses to NaN exactly when it does not start a decimal, and otherwise to a finite value of at least 0. */
  lemma CleanTextMagnitude(s: string)
    requires forall i :: 0 <= i < |s| ==> IsDigitOrDot(s[i])
    ensures ParseFloat(s) == NaN <==> !StartsDecimal(s)
    ensures ParseFloat(s) != NaN ==> ParseFloat(s).Finite? && ParseFloat(s).value >= 0.0
    ensures StartsDecimal(s) ==> ParseFloat(s) == Finite(DecimalValue(ScanDecimal(s).value))
  {
    CleanTextHasNoPrefix(s);
    var scanned := ScanDecimal(s);
    assert ParseMagnitude(s) == if scanned.None? then NaN else Finite(DecimalValue(scanned.value));
  }

  /** The `data-price` attribute takes precedence: when it is present the text plays no part. */
  lemma DataPriceWins(d: string, text1: string, text2: string)
    requires d != ""
    ensures PriceOf(PriceElement(Some(d), text1)) == PriceOf(PriceElement(Some(d), text2)) == ParseFloat(d)
  {
  }

  /**
   * Without a `data-price` the price depends only on the digits and dots of the
   * text, is never NaN, infinite or negative, and is 0 when they do not parse.
   */
  lemma TextPrice(el: PriceElement)
    requires !HasDataPrice(el)
    ensures PriceOf(el) == PriceOf(PriceElement(None, KeepDigitsAndDots(el.textContent)))
    ensures PriceOf(el).Finite? && PriceOf(el).value >= 0.0
    ensures !StartsDecimal(KeepDigitsAndDots(el.textContent)) ==> PriceOf(el) == Finite(0.0)
    ensures var kept := KeepDigitsAndDots(el.textContent);
      PriceOf(el) == if StartsDecimal(kept) then Finite(DecimalValue(ScanDecimal(kept).value)) else Finite(0.0)
  {
    var kept := KeepDigitsAndDots(el.textContent);
    KeepDigitsAndDotsClean(kept);
    CleanTextMagnitude(kept);
    var n := ParseFloat(kept);
    assert PriceOf(el) == OrZero(n);
    assert PriceOf(PriceElement(None, kept)) == OrZero(n);
    if StartsDecimal(kept) {
      assert n == Finite(DecimalValue(ScanDecimal(kept).value));
    } else {
      assert n == NaN;
    }
  }

  /**
   * A parse failure gives 0 only on the text branch: a non-empty `data-price` gives
   * NaN, whatever the text says, exactly when no number follows its white space and sign.
   */
  lemma DataPriceFailureIsNaN(d: string, text: string)
    requires d != ""
    ensures PriceOf(PriceElement(Some(d), text)) == NaN <==> !StartsNumber(Unsigned(TrimStart(d)))
  {
    var el := PriceElement(Some(d), text);
    assert HasDataPrice(el);
    assert PriceOf(el) == ParseFloat(d);
  }

  /** `parseFloat` reads `digits.digits` as the decimal it writes, with no exponent. */
  lemma ParseDecimal(a: string, b: string)
    requires |a| >= 1 && AllDigits(a) && AllDigits(b)
    ensures ScanDecimal(a + "." + b) == Some(Decimal(a, b, 0))
    ensures ParseFloat(a + "." + b) == Finite(DecimalValue(Decimal(a, b, 0)))
  {
    var s := a + "." + b;
    forall i | 0 <= i < |s| ensures IsDigitOrDot(s[i]) {
      if i < |a| { assert s[i] == a[i]; } else if i > |a| { assert s[i] == b[i - |a| - 1]; }
    }
    CleanTextHasNoPrefix(s);
    assert !StartsWithInfinity(s) by { assert s[0] == a[0]; }
    ScanPointDecimal(a, b);
  }

  /** The scan of `digits.digits` stops at the end, with the dot between the two parts. */
  lemma ScanPointDecimal(a: string, b: string)
    requires |a| >= 1 && AllDigits(a) && AllDigits(b)
    ensures ScanDecimal(a + "." + b) == Some(Decimal(a, b, 0))
  {
    var s := a + "." + b;
    var tail := "." + b;
    assert s == a + tail;
    LeadingDigitsOfDigitsThen(a, tail);
    assert s[|a|..] == tail && s[..|a|] == a;
    LeadingDigitsOfDigitsThen(b, "");
    assert tail[1..] == b && b + "" == b;
    assert b[..|b|] == b && b[|b|..] == "";
  }

  /** A string of digits followed by something that does not start with one is read up to its end. */
  lemma {:induction false} LeadingDigitsOfDigitsThen(a: string, t: string)
    requires AllDigits(a)
    requires t == [] || !IsDigit(t[0])
    ensures LeadingDigits(a + t) == |a|
  {
    if a != [] {
      assert (a + t)[1..] == a[1..] + t;
      LeadingDigitsOfDigitsThen(a[1..], t);
    }
  }

  /** A missing `.price` element is priced 0, and every element without a `data-price` is priced at least 0. */
  lemma ExtractPriceNeverFails(el: Option<PriceElement>)
    ensures el.None? ==> ExtractPrice(el) == Finite(0.0)
    ensures el.Some? ==> ExtractPrice(el) == PriceOf(el.value)
    ensures (el.None? || !HasDataPrice(el.value)) ==> ExtractPrice(el).Finite? && ExtractPrice(el).value >= 0.0
  {
    TextPrice(PriceElement(None, ""));
    if el.Some? && !HasDataPrice(el.value) {
      TextPrice(el.value);
    }
  }

  /** The handler as written throws on a menu item without a `.price` element. */
  lemma MissingPriceElementThrows()
    ensures ExtractPriceAsWritten(None).Err?
    ensures ExtractPrice(None) == Finite(0.0)
  {
    ExtractPriceNeverFails(None);
  }
}
