/** The JavaScript built-ins the customer form relies on: `String#toLowerCase`
    (duplicate check), `Number#toString` (what a number input displays) and
    the global `parseInt` called without a radix (what a number input's text
    becomes), and the truthiness the form's `||` and `?:` tests rely on.
    A character is a Unicode scalar value; the UTF-16 surrogate pairs of
    JavaScript strings are not modelled. */
module JsBuiltins {
  import opened Optional

  // ---------------------------------------------------------------------------
  // Values and truthiness
  // ---------------------------------------------------------------------------

  /** The run-time values the form reads: `undefined`, a string, a number, or
      an object with a `Url` member (the hyperlink column's value). */
  datatype JsValue = Undefined | Str(s: string) | Num(n: int) | UrlObject(url: string)

  /** JavaScript truthiness (ToBoolean): `undefined`, the empty string and 0
      are falsy, every object is truthy. */
  predicate Truthy(v: JsValue) {
    match v
    case Undefined => false
    case Str(s) => s != ""
    case Num(n) => n != 0
    case UrlObject(_) => true
  }

  // ---------------------------------------------------------------------------
  // toLowerCase, restricted to the ASCII letters
  // ---------------------------------------------------------------------------

  predicate IsUpper(c: char) {
    'A' <= c <= 'Z'
  }

  function LowerChar(c: char): (l: char)
    ensures !IsUpper(l)
    ensures !IsUpper(c) ==> l == c
  {
    if IsUpper(c) then (c as int + 32) as char else c
  }

  /** `s.toLowerCase()`: every character lowered on its own, length kept. */
  function ToLower(s: string): (r: string)
    ensures |r| == |s|
    ensures forall i :: 0 <= i < |s| ==> r[i] == LowerChar(s[i])
  {
    if s == [] then [] else [LowerChar(s[0])] + ToLower(s[1..])
  }

  /** Lower-casing twice is lower-casing once. */
  lemma ToLowerIdempotent(s: string)
    ensures ToLower(ToLower(s)) == ToLower(s)
  {
  }

  // ---------------------------------------------------------------------------
  // Number#toString on integers
  // ---------------------------------------------------------------------------

  predicate IsDecimalDigit(c: char) {
    '0' <= c <= '9'
  }

  function DigitChar(d: nat): (c: char)
    requires d < 10
    ensures IsDecimalDigit(c)
  {
    ('0' as int + d) as char
  }

  /** The shortest decimal numeral of `n`. */
  function NatToDecimal(n: nat): (r: string)
    ensures |r| > 0
    ensures forall i :: 0 <= i < |r| ==> IsDecimalDigit(r[i])
    ensures |r| > 1 ==> r[0] != '0'
    decreases n
  {
    if n < 10 then [DigitChar(n)] else NatToDecimal(n / 10) + [DigitChar(n % 10)]
  }

  /** `n.toString()` for an integer `n`: a minus sign exactly for a negative
      `n`, then the digits of its magnitude. */
  function DecimalString(n: int): (r: string)
    ensures |r| > 0
    ensures r[0] == '-' <==> n < 0
    ensures n < 0 ==> |r| > 1
    ensures forall i :: (if n < 0 then 1 else 0) <= i < |r| ==> IsDecimalDigit(r[i])
  {
    if n < 0 then "-" + NatToDecimal(-n) else NatToDecimal(n)
  }

  // ---------------------------------------------------------------------------
  // parseInt(s) with no radix argument
  // ---------------------------------------------------------------------------

  /** The characters `parseInt` skips at the start: white space and line
      terminators of the ECMAScript grammar (StrWhiteSpaceChar). */
  predicate IsStrWhiteSpace(c: char) {
    c == '\t' || c == '\n' || c == '\U{000B}' || c == '\U{000C}' || c == '\r'
    || c == ' ' || c == '\U{00A0}' || c == '\U{1680}'
    || ('\U{2000}' <= c <= '\U{200A}')
    || c == '\U{2028}' || c == '\U{2029}' || c == '\U{202F}' || c == '\U{205F}'
    || c == '\U{3000}' || c == '\U{FEFF}'
  }

  /** `s` without its leading white space. */
  function TrimStart(s: string): (r: string)
    ensures |r| <= |s| && r == s[|s| - |r|..]
    ensures r == [] || !IsStrWhiteSpace(r[0])
    ensures forall i :: 0 <= i < |s| - |r| ==> IsStrWhiteSpace(s[i])
  {
    if s != [] && IsStrWhiteSpace(s[0]) then TrimStart(s[1..]) else s
  }

  /** The value of `c` as a digit of any radix up to 36; 36 when `c` is no digit. */
  function DigitValue(c: char): (d: nat)
    ensures d <= 36
    ensures IsDecimalDigit(c) <==> d < 10
  {
    if '0' <= c <= '9' then c as int - '0' as int
    else if 'a' <= c <= 'z' then c as int - 'a' as int + 10
    else if 'A' <= c <= 'Z' then c as int - 'A' as int + 10
    else 36
  }

  predicate IsDigitIn(c: char, radix: nat) {
    DigitValue(c) < radix
  }

  /** The longest prefix of `s` made of digits of `radix`. */
  function LeadingDigits(s: string, radix: nat): (r: string)
    ensures |r| <= |s| && r == s[..|r|]
    ensures forall i :: 0 <= i < |r| ==> IsDigitIn(r[i], radix)
    ensures |r| == |s| || !IsDigitIn(s[|r|], radix)
  {
    if s != [] && IsDigitIn(s[0], radix) then [s[0]] + LeadingDigits(s[1..], radix) else []
  }

  /** The number the digit string `ds` denotes in `radix`. */
  function DigitsValue(ds: string, radix: nat): nat {
    if ds == [] then 0
    else DigitsValue(ds[..|ds| - 1], radix) * radix + DigitValue(ds[|ds| - 1])
  }

  /** Whether trimmed text is negative: it starts with `-`. */
  predicate IsNegative(t: string) {
    t != [] && t[0] == '-'
  }

  /** Trimmed text without the one sign character it may start with. */
  function StripSign(t: string): string {
    if t != [] && (t[0] == '-' || t[0] == '+') then t[1..] else t
  }

  /** The unsigned part of `parseInt`: a `0x`/`0X` prefix selects radix 16,
      otherwise radix 10, and the longest run of digits that follows is the
      magnitude; no digit at all is NaN (`None`). */
  function ParseMagnitude(u: string): Option<nat> {
    var hex := |u| >= 2 && u[0] == '0' && (u[1] == 'x' || u[1] == 'X');
    var radix := if hex then 16 else 10;
    var ds := LeadingDigits(if hex then u[2..] else u, radix);
    if ds == [] then None else Some(DigitsValue(ds, radix))
  }

  /** `parseInt(s)`; `None` stands for NaN. Leading white space is skipped,
      one sign is read, and the magnitude follows. A number comes only from
      text whose unsigned part starts with a decimal digit, and every such
      text gives one unless it is a `0x` prefix with no hex digit after it;
      only a minus sign gives a negative number. */
  function ParseInt(s: string): (r: Option<int>)
    ensures var u := StripSign(TrimStart(s));
      r.Some? ==> u != [] && IsDecimalDigit(u[0])
    ensures var u := StripSign(TrimStart(s));
      u != [] && IsDecimalDigit(u[0]) && !(|u| >= 2 && u[0] == '0' && (u[1] == 'x' || u[1] == 'X'))
      ==> r.Some?
    ensures r.Some? && r.value < 0 ==> IsNegative(TrimStart(s))
    ensures r.Some? && IsNegative(TrimStart(s)) ==> r.value <= 0
  {
    var t := TrimStart(s);
    match ParseMagnitude(StripSign(t))
    case None => None
    case Some(v) => Some(if IsNegative(t) then -(v as int) else v)
  }

  /** `parseInt(text || '0') || 0`, the coercion every count input applies to
      its new text (`None` is an `undefined` text). NaN becomes 0, so the
      result is always a number: the parsed value when there is one, else 0. */
  function CoerceCount(text: Option<string>): (n: int)
    ensures text.None? || text.value == "" ==> n == 0
    ensures text.Some? && text.value != "" && ParseInt(text.value).Some? ==> n == ParseInt(text.value).value
    ensures text.Some? && text.value != "" && ParseInt(text.value).None? ==> n == 0
    ensures n != 0 ==> text.Some? && ParseInt(text.value) == Some(n)
  {
    var s := if text.None? || text.value == "" then "0" else text.value;
    ParseNumeral(0, "");
    assert NatToDecimal(0) + "" == "0";
    match ParseInt(s)
    case None => 0
    case Some(v) => v
  }

  // ---------------------------------------------------------------------------
  // parseInt reads back what toString wrote
  // ---------------------------------------------------------------------------

  lemma {:induction false} DigitsValueOfDecimal(n: nat)
    ensures DigitsValue(NatToDecimal(n), 10) == n
    decreases n
  {
    var r := NatToDecimal(n);
    if n < 10 {
      assert r[..|r| - 1] == [];
    } else {
      DigitsValueOfDecimal(n / 10);
      assert r[..|r| - 1] == NatToDecimal(n / 10);
    }
  }

  /** Digits followed by a non-digit: the digit run is exactly `ds`. */
  lemma {:induction false} LeadingDigitsOfRun(ds: string, rest: string, radix: nat)
    requires forall i :: 0 <= i < |ds| ==> IsDigitIn(ds[i], radix)
    requires rest == [] || !IsDigitIn(rest[0], radix)
    ensures LeadingDigits(ds + rest, radix) == ds
  {
    if ds != [] {
      LeadingDigitsOfRun(ds[1..], rest, radix);
      assert (ds + rest)[1..] == ds[1..] + rest;
    } else {
      assert ds + rest == rest;
    }
  }

  /** A decimal run followed by text that neither continues it nor turns a
      leading `0` into a `0x` prefix: the magnitude is the run's value. */
  lemma MagnitudeOfDecimalRun(ds: string, rest: string)
    requires ds != [] && forall i :: 0 <= i < |ds| ==> IsDecimalDigit(ds[i])
    requires |ds| > 1 ==> ds[0] != '0'
    requires rest == [] || (!IsDecimalDigit(rest[0]) && rest[0] != 'x' && rest[0] != 'X')
    ensures ParseMagnitude(ds + rest) == Some(DigitsValue(ds, 10))
  {
    var u := ds + rest;
    assert u[0] == ds[0];
    assert !(|u| >= 2 && u[0] == '0' && (u[1] == 'x' || u[1] == 'X')) by {
      if |ds| == 1 && |u| >= 2 {
        assert u[1] == rest[0];
      }
    }
    LeadingDigitsOfRun(ds, rest, 10);
  }

  /** Text that starts with a digit is its own trimmed, unsigned form. */
  lemma ParseUnsigned(u: string, v: nat)
    requires u != [] && IsDecimalDigit(u[0])
    requires ParseMagnitude(u) == Some(v)
    ensures ParseInt(u) == Some(v)
  {
    UnsignedForm(u);
  }

  /** Text that starts with a digit has no white space and no sign to drop. */
  lemma UnsignedForm(u: string)
    requires u != [] && IsDecimalDigit(u[0])
    ensures TrimStart(u) == u && !IsNegative(u) && StripSign(u) == u
  {
    assert !IsStrWhiteSpace(u[0]) && u[0] != '-' && u[0] != '+';
  }

  /** A minus sign followed by such text parses to the negated magnitude. */
  lemma ParseNegated(t: string, u: string, n: int)
    requires t != [] && t[0] == '-' && t[1..] == u
    requires n <= 0 && u != [] && IsDecimalDigit(u[0]) && ParseMagnitude(u) == Some(-n)
    ensures ParseInt(t) == Some(n)
  {
    assert TrimStart(t) == t;
    assert IsNegative(t) && StripSign(t) == u;
  }

  /** `parseInt` recovers `n` from `n.toString()` followed by any text that
      does not continue the numeral (so "12", "12abc", "12.5" and "12e3" all
      give 12). */
  lemma ParseDecimalPrefix(n: int, rest: string)
    requires rest == [] || (!IsDecimalDigit(rest[0]) && rest[0] != 'x' && rest[0] != 'X')
    ensures ParseInt(DecimalString(n) + rest) == Some(n)
  {
    if n < 0 {
      ParseNegativeDecimalPrefix(n, rest);
    } else {
      ParseNonNegativeDecimalPrefix(n, rest);
    }
  }

  /** `ParseDecimalPrefix` for a negative `n`: the numeral is a minus sign and
      the digits of `-n`. */
  lemma ParseNegativeDecimalPrefix(n: int, rest: string)
    requires n < 0
    requires rest == [] || (!IsDecimalDigit(rest[0]) && rest[0] != 'x' && rest[0] != 'X')
    ensures ParseInt(DecimalString(n) + rest) == Some(n)
  {
    NumeralMagnitude(-n, rest);
    NegativeNumeralText(n, rest);
    ParseNegated(DecimalString(n) + rest, NatToDecimal(-n) + rest, n);
  }

  /** The text `ParseNegativeDecimalPrefix` reads is a minus sign followed by
      the digits of `-n` and `rest`. */
  lemma NegativeNumeralText(n: int, rest: string)
    requires n < 0
    ensures var t := DecimalString(n) + rest;
      t != [] && t[0] == '-' && t[1..] == NatToDecimal(-n) + rest
  {
    assert DecimalString(n) == "-" + NatToDecimal(-n);
  }

  /** `ParseDecimalPrefix` for `n >= 0`: the numeral is the digits of `n`. */
  lemma ParseNonNegativeDecimalPrefix(n: int, rest: string)
    requires n >= 0
    requires rest == [] || (!IsDecimalDigit(rest[0]) && rest[0] != 'x' && rest[0] != 'X')
    ensures ParseInt(DecimalString(n) + rest) == Some(n)
  {
    ParseNumeral(n, rest);
    assert DecimalString(n) == NatToDecimal(n);
  }

  /** The unsigned core of `ParseDecimalPrefix`: the magnitude of the digits
      of `m` followed by `rest` is `m`. */
  lemma NumeralMagnitude(m: nat, rest: string)
    requires rest == [] || (!IsDecimalDigit(rest[0]) && rest[0] != 'x' && rest[0] != 'X')
    ensures var u := NatToDecimal(m) + rest;
      u != [] && IsDecimalDigit(u[0]) && ParseMagnitude(u) == Some(m)
  {
    var ds := NatToDecimal(m);
    var u := ds + rest;
    MagnitudeOfDecimalRun(ds, rest);
    DigitsValueOfDecimal(m);
    assert u[0] == ds[0];
  }

  /** The digits of `m`, then `rest`, read with no sign. */
  lemma ParseNumeral(m: nat, rest: string)
    requires rest == [] || (!IsDecimalDigit(rest[0]) && rest[0] != 'x' && rest[0] != 'X')
    ensures ParseInt(NatToDecimal(m) + rest) == Some(m)
  {
    NumeralMagnitude(m, rest);
    ParseUnsigned(NatToDecimal(m) + rest, m);
  }

  /** Typing back the numeral a count input displays gives the same count. */
  lemma CoerceCountOfDecimal(n: int)
    ensures CoerceCount(Some(DecimalString(n))) == n
  {
    ParseDecimalPrefix(n, "");
    assert DecimalString(n) + "" == DecimalString(n);
  }
}
