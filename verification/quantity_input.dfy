/** The quantity controls of a cart row (`CartItemRow` in `App.tsx`): the "-"
    and "+" buttons and the free-text field whose contents are parsed with
    JavaScript's `parseInt(text, 10)` when it loses focus. */
module QuantityInput {
  import opened Types

  /** The characters `parseInt` skips before the number: ECMAScript's
      WhiteSpace and LineTerminator code points (sections 12.2 and 12.3 of
      ECMA-262, 2015 edition onwards; 7.2 and 7.3 in edition 5.1), including
      every space separator of Unicode category Zs. */
  predicate IsJsWhitespace(c: char) {
    || c == '\t' || c == '\n' || c == '\U{000B}' || c == '\U{000C}' || c == '\r'
    || c == ' ' || c == '\U{00A0}' || c == '\U{1680}'
    || ('\U{2000}' <= c <= '\U{200A}')
    || c == '\U{2028}' || c == '\U{2029}' || c == '\U{202F}' || c == '\U{205F}'
    || c == '\U{3000}' || c == '\U{FEFF}'
  }

  predicate IsDigit(c: char) {
    '0' <= c <= '9'
  }

  predicate AllDigits(s: string) {
    forall i :: 0 <= i < |s| ==> IsDigit(s[i])
  }

  function DigitValue(c: char): (d: nat)
    requires IsDigit(c)
    ensures d < 10
  {
    (c as int) - ('0' as int)
  }

  function DigitChar(d: nat): (c: char)
    requires d < 10
    ensures IsDigit(c) && DigitValue(c) == d
  {
    (('0' as int) + d) as char
  }

  /** `s` without its leading whitespace. */
  function TrimStart(s: string): (r: string)
    ensures |r| <= |s| && r == s[|s| - |r|..]
    ensures forall i :: 0 <= i < |s| - |r| ==> IsJsWhitespace(s[i])
    ensures |r| > 0 ==> !IsJsWhitespace(r[0])
  {
    if |s| > 0 && IsJsWhitespace(s[0]) then TrimStart(s[1..]) else s
  }

  /** The longest prefix of `s` made of decimal digits. */
  function LeadingDigits(s: string): (r: string)
    ensures |r| <= |s| && r == s[..|r|]
    ensures AllDigits(r)
    ensures |r| < |s| ==> !IsDigit(s[|r|])
  {
    if |s| > 0 && IsDigit(s[0]) then [s[0]] + LeadingDigits(s[1..]) else []
  }

  /** The value of a decimal numeral, read left to right. */
  function DigitsValue(ds: string): nat
    requires AllDigits(ds)
  {
    if |ds| == 0 then 0
    else DigitsValue(ds[..|ds| - 1]) * 10 + DigitValue(ds[|ds| - 1])
  }

  /** `parseInt(s, 10)`: skip leading whitespace, read an optional sign and
      then the longest run of decimal digits; `None` stands for NaN (no digit
      after the sign). Whatever follows the digits is ignored. */
  function ParseInt(s: string): Option<int> {
    var t := TrimStart(s);
    var negative := |t| > 0 && t[0] == '-';
    var unsigned := if |t| > 0 && (t[0] == '-' || t[0] == '+') then t[1..] else t;
    var ds := LeadingDigits(unsigned);
    var magnitude: int := DigitsValue(ds);
    if |ds| == 0 then None
    else if negative then Some(-magnitude)
    else Some(magnitude)
  }

  /** The decimal numeral of a non-negative integer, without leading zeros.
      This is what `Number.prototype.toString()` prints only below 10^21;
      from 10^21 upwards JavaScript switches to exponent notation ("1e+21"),
      which this function does not model. */
  function NatToDecimal(n: nat): (r: string)
    ensures |r| > 0 && AllDigits(r)
    ensures |r| > 1 ==> r[0] != '0'
  {
    if n < 10 then [DigitChar(n)] else NatToDecimal(n / 10) + [DigitChar(n % 10)]
  }

  /** handleQuantityBlur: the quantity forwarded to the cart, or `None` when
      the text is NaN or below 1 and the field reverts instead. */
  function BlurRequest(text: string): (r: Option<int>)
    ensures r.Some? ==> r.value >= 1
    ensures r.Some? ==> ParseInt(text) == r
    ensures r.None? ==> ParseInt(text).None? || ParseInt(text).value < 1
  {
    match ParseInt(text)
    case None => None
    case Some(n) => if n < 1 then None else Some(n)
  }

  /** The "-" button: one less than the current quantity, but never below 1. */
  function DecrementRequest(quantity: int): (q: int)
    ensures q >= 1
    ensures quantity > 1 ==> q == quantity - 1
    ensures quantity <= 1 ==> q == 1
  {
    if quantity - 1 < 1 then 1 else quantity - 1
  }

  /** The "+" button: one more than the current quantity. */
  function IncrementRequest(quantity: int): (q: int)
    ensures q == quantity + 1
    ensures quantity >= 1 ==> q >= 2
  {
    quantity + 1
  }

  // ---------------------------------------------------------------------
  // Lemmas

  lemma {:induction false} DigitsValueOfDecimal(n: nat)
    ensures DigitsValue(NatToDecimal(n)) == n
  {
    var r := NatToDecimal(n);
    if n >= 10 {
      DigitsValueOfDecimal(n / 10);
      assert r[..|r| - 1] == NatToDecimal(n / 10);
    }
  }

  /** `parseInt` reads back the numeral that `toString` prints. */
  lemma DecimalRoundTrip(n: nat)
    ensures ParseInt(NatToDecimal(n)) == Some(n)
  {
    var r := NatToDecimal(n);
    assert !IsJsWhitespace(r[0]);
    assert TrimStart(r) == r;
    assert LeadingDigits(r) == r;
    DigitsValueOfDecimal(n);
  }

  /** The text a row reverts to (its quantity printed in decimal) is accepted
      on blur and forwards that same quantity. */
  lemma RevertedTextForwardsQuantity(quantity: int)
    requires quantity >= 1
    ensures BlurRequest(NatToDecimal(quantity)) == Some(quantity)
  {
    DecimalRoundTrip(quantity);
  }

  /** A fractional entry is truncated, and whatever follows the digits is
      ignored. */
  lemma BlurTruncates()
    ensures BlurRequest("2.5") == Some(2)
    ensures BlurRequest(" 7x") == Some(7)
  {
    assert "2.5"[0] == '2' && !IsJsWhitespace('2');
    assert TrimStart("2.5") == "2.5";
    assert LeadingDigits("2.5") == "2";
    assert DigitsValue("2") == 2;
    assert ParseInt("2.5") == Some(2);
    assert " 7x"[1..] == "7x" && "7x"[0] == '7' && !IsJsWhitespace('7');
    assert TrimStart(" 7x") == "7x";
    assert LeadingDigits("7x") == "7";
  }

  /** Zero, negatives, blanks and non-numbers revert. */
  lemma BlurRejects()
    ensures BlurRequest("0") == None
    ensures BlurRequest("-2") == None
    ensures BlurRequest("") == None
    ensures BlurRequest("abc") == None
  {
    ParsesNoDigits("");
    ParsesNoDigits("abc");
    ParsesAsDigits("0");
    assert ParseInt("-2") == Some(-2) by {
      assert "-2"[0] == '-' && !IsJsWhitespace('-');
      assert TrimStart("-2") == "-2";
      assert "-2"[1..] == "2";
      assert LeadingDigits("2") == "2";
      assert DigitsValue("2") == 2;
    }
  }

  /** A numeral that starts the text parses as its value. */
  lemma ParsesAsDigits(ds: string)
    requires |ds| > 0 && AllDigits(ds)
    ensures ParseInt(ds) == Some(DigitsValue(ds))
  {
    DigitIsNotWhitespace(ds[0]);
    assert TrimStart(ds) == ds;
    assert ds[0] != '-' && ds[0] != '+';
    AllDigitsAreLeading(ds);
  }

  lemma DigitIsNotWhitespace(c: char)
    requires IsDigit(c)
    ensures !IsJsWhitespace(c)
  {
  }

  lemma AllDigitsAreLeading(ds: string)
    requires AllDigits(ds)
    ensures LeadingDigits(ds) == ds
  {
  }

  /** Text that starts with neither whitespace, a sign nor a digit is NaN. */
  lemma ParsesNoDigits(s: string)
    requires |s| == 0 || !(IsJsWhitespace(s[0]) || IsDigit(s[0]) || s[0] == '-' || s[0] == '+')
    ensures ParseInt(s) == None
  {
  }
}
