/** Python's `int(s)`, `float(s)` and `int(x)` of a float, over exact numbers. A `None`
    result stands for the `ValueError` (or, for an infinite float, `OverflowError`) that
    Python raises. Digits are the ASCII digits. */
module Numbers {
  import opened Wrappers
  import opened Strings

  function DigitValue(c: char): nat
    requires IsDigit(c)
  {
    c as int - '0' as int
  }

  /** The value of a string of decimal digits, most significant first. */
  function DigitsValue(s: string): nat
    requires AllDigits(s)
    decreases |s|
  {
    if s == [] then 0 else 10 * DigitsValue(s[..|s| - 1]) + DigitValue(s[|s| - 1])
  }

  function Pow10(n: nat): (r: nat)
    ensures r >= 1
  {
    if n == 0 then 1 else 10 * Pow10(n - 1)
  }

  /** A digit follows position `i`. */
  predicate DigitAfter(s: string, i: nat) {
    i + 1 < |s| && IsDigit(s[i + 1])
  }

  /** Python's `digitpart`: digits, with single underscores allowed between two digits. */
  predicate IsDigitPart(s: string) {
    && |s| > 0
    && IsDigit(s[0])
    && forall i :: 0 <= i < |s| ==> IsDigit(s[i]) || (s[i] == '_' && DigitAfter(s, i))
  }

  /** The digits of a digit part (or of the empty string), underscores removed. */
  function DigitsOf(s: string): (r: string)
    requires s == [] || IsDigitPart(s)
    ensures AllDigits(r)
  {
    var r := RemoveChar(s, '_');
    assert AllDigits(r) by {
      forall i | 0 <= i < |r| ensures IsDigit(r[i]) {
        assert r[i] in s && r[i] != '_';
        var j :| 0 <= j < |s| && s[j] == r[i];
      }
    }
    r
  }

  /** A string of digits is a digit part, of the same value. */
  lemma DigitsAreDigitPart(s: string)
    requires |s| > 0 && AllDigits(s)
    ensures IsDigitPart(s)
    ensures RemoveChar(s, '_') == s
  {
    RemoveCharAbsent(s, '_');
  }

  function DigitPartValue(s: string): nat
    requires IsDigitPart(s)
  {
    DigitsValue(DigitsOf(s))
  }

  predicate HasSign(s: string) {
    |s| > 0 && (s[0] == '+' || s[0] == '-')
  }

  /** Whether an optional leading sign is `-`. */
  predicate Negative(s: string) {
    |s| > 0 && s[0] == '-'
  }

  /** The text after an optional leading `+` or `-`. */
  function Unsigned(s: string): string {
    if HasSign(s) then s[1..] else s
  }

  /** The default of `sys.int_max_str_digits`: `int` of a decimal string with more digits
      than this raises `ValueError`. */
  const MaxStrDigits: nat := 4300

  /** `int(s)`: surrounding whitespace, an optional sign, then a digit part of at most
      `MaxStrDigits` digits (underscores not counted). */
  function ParseInt(s: string): Option<int> {
    var t := Strip(s);
    var body := Unsigned(t);
    if IsDigitPart(body) && |DigitsOf(body)| <= MaxStrDigits then
      var v := DigitPartValue(body) as int;
      Some(if Negative(t) then -v else v)
    else None
  }

  /** A string of digits converts to its decimal value, unless it has more digits than
      `int` accepts. */
  lemma {:induction false} ParseIntDigits(s: string)
    requires |s| > 0 && AllDigits(s)
    ensures ParseInt(s) == if |s| <= MaxStrDigits then Some(DigitsValue(s) as int) else None
  {
    StripUntouched(s);
    assert Unsigned(s) == s && !Negative(s);
    ParseIntSigned(s, s);
  }

  /** A stripped, optionally signed string of digits converts to its signed value, unless
      it has more digits than `int` accepts. */
  lemma {:induction false} ParseIntSigned(s: string, d: string)
    requires |d| > 0 && AllDigits(d)
    requires Strip(s) == s && Unsigned(s) == d
    ensures ParseInt(s)
         == if |d| > MaxStrDigits then None
            else Some(if Negative(s) then -(DigitsValue(d) as int) else DigitsValue(d) as int)
  {
    DigitsAreDigitPart(d);
    DigitsOfDigits(d);
    var body := Unsigned(Strip(s));
    assert body == d && DigitsOf(body) == d;
    if |d| <= MaxStrDigits {
      assert DigitPartValue(body) == DigitsValue(d);
    }
  }

  datatype Float = Finite(value: real) | Infinity(negative: bool) | NaN

  /** `x > bound` for a Python float and a number. */
  predicate Exceeds(x: Float, bound: real) {
    match x
    case Finite(v) => v > bound
    case Infinity(negative) => !negative
    case NaN => false
  }

  /** The index of the first `e` or `E`. */
  function FindExponent(s: string, from: nat): (r: Option<nat>)
    ensures r.Some? ==> from <= r.value < |s| && (s[r.value] == 'e' || s[r.value] == 'E')
    decreases |s| - from
  {
    if from >= |s| then None
    else if s[from] == 'e' || s[from] == 'E' then Some(from)
    else FindExponent(s, from + 1)
  }

  lemma {:induction false} FindExponentNone(s: string, from: nat)
    requires forall i :: from <= i < |s| ==> s[i] != 'e' && s[i] != 'E'
    ensures FindExponent(s, from).None?
    decreases |s| - from
  {
    if from < |s| {
      FindExponentNone(s, from + 1);
    }
  }

  function Scale(m: real, e: int): real {
    if e >= 0 then m * Pow10(e) as real else m / Pow10(-e) as real
  }

  /** The value of the decimal numeral `whole.fraction`. */
  function DecimalValue(whole: string, fraction: string): (v: real)
    requires AllDigits(whole) && AllDigits(fraction)
    ensures v >= DigitsValue(whole) as real
  {
    DigitsValue(whole) as real + DigitsValue(fraction) as real / Pow10(|fraction|) as real
  }

  /** Python's `number ::= [digitpart] "." digitpart | digitpart ["."]`. */
  function DecimalNumber(s: string): Option<real> {
    match Find(s, ".", 0)
    case None => if IsDigitPart(s) then Some(DigitPartValue(s) as real) else None
    case Some(i) =>
      var whole, fraction := s[..i], s[i + 1..];
      if whole == [] && fraction == [] then None
      else if whole != [] && !IsDigitPart(whole) then None
      else if fraction != [] && !IsDigitPart(fraction) then None
      else Some(DecimalValue(DigitsOf(whole), DigitsOf(fraction)))
  }

  /** Python's `exponent ::= ("e" | "E") [sign] digitpart`, without its letter. */
  function Exponent(s: string): Option<int> {
    var body := Unsigned(s);
    if IsDigitPart(body) then
      var v := DigitPartValue(body) as int;
      Some(if Negative(s) then -v else v)
    else None
  }

  /** Python's `floatnumber ::= number [exponent]`. */
  function FloatNumber(s: string): Option<real> {
    match FindExponent(s, 0)
    case None => DecimalNumber(s)
    case Some(i) =>
      match (DecimalNumber(s[..i]), Exponent(s[i + 1..]))
      case (Some(m), Some(e)) => Some(Scale(m, e))
      case _ => None
  }

  /** `float(s)`: surrounding whitespace, an optional sign, then `inf`, `infinity` or `nan`
      in any case, or a decimal number with an optional exponent. */
  function ParseFloat(s: string): Option<Float> {
    var t := Strip(s);
    var body := Unsigned(t);
    var word := Lower(body);
    if word == "inf" || word == "infinity" then Some(Infinity(Negative(t)))
    else if word == "nan" then Some(NaN)
    else
      match FloatNumber(body)
      case None => None
      case Some(v) => Some(Finite(if Negative(t) then -v else v))
  }

  /** `int(x)` of a float: truncation toward zero; infinities and NaN raise. */
  function Truncate(x: Float): Option<int> {
    match x
    case Finite(v) => Some(if v >= 0.0 then v.Floor else -((-v).Floor))
    case _ => None
  }

  /** A string made of digits and dots, starting with one of them, is not a word
      that `float` reads as an infinity or a NaN. */
  lemma NotSpecialWord(s: string)
    requires |s| > 0 && (IsDigit(s[0]) || s[0] == '.')
    ensures Lower(s) != "inf" && Lower(s) != "infinity" && Lower(s) != "nan"
  {
    assert Lower(s)[0] == s[0];
  }

  /** A non-empty string of digits converts to its value. */
  lemma ParseFloatDigits(a: string)
    requires |a| > 0 && AllDigits(a)
    ensures ParseFloat(a) == Some(Finite(DigitsValue(a) as real))
  {
    StripUntouched(a);
    FindExponentNone(a, 0);
    ParseFloatPlain(a);
    FindCharNone(a, '.');
    DigitsAreDigitPart(a);
    DigitsOfDigits(a);
    assert DecimalNumber(a) == Some(DigitsValue(a) as real);
  }

  lemma DigitsOfDigits(s: string)
    requires AllDigits(s)
    ensures DigitsOf(s) == s
  {
    RemoveCharAbsent(s, '_');
  }

  lemma DecimalNumberOfParts(whole: string, fraction: string)
    requires AllDigits(whole) && AllDigits(fraction)
    ensures DecimalNumber(whole + "." + fraction)
         == if whole == [] && fraction == [] then None else Some(DecimalValue(whole, fraction))
  {
    var s := whole + "." + fraction;
    assert s[|whole|] == '.';
    FindChar(s, '.', |whole|);
    assert s[..|whole|] == whole && s[|whole| + 1..] == fraction;
    if whole != [] { DigitsAreDigitPart(whole); }
    if fraction != [] { DigitsAreDigitPart(fraction); }
    DigitsOfDigits(whole);
    DigitsOfDigits(fraction);
  }

  /** An unsigned numeral without exponent converts to its decimal value. */
  lemma ParseFloatPlain(s: string)
    requires |s| > 0 && (IsDigit(s[0]) || s[0] == '.') && Strip(s) == s
    requires FindExponent(s, 0).None?
    ensures ParseFloat(s) == if DecimalNumber(s).None? then None else Some(Finite(DecimalNumber(s).value))
  {
    assert Unsigned(s) == s && !Negative(s);
    NotSpecialWord(s);
  }

  /** `whole "." fraction` with digits on either side converts to its decimal value,
      and fails exactly when there is no digit at all (`float(".")`). */
  lemma ParseFloatDecimal(whole: string, fraction: string)
    requires AllDigits(whole) && AllDigits(fraction)
    ensures ParseFloat(whole + "." + fraction)
         == if whole == [] && fraction == [] then None else Some(Finite(DecimalValue(whole, fraction)))
  {
    DecimalPlain(whole, fraction);
    DecimalNumberOfParts(whole, fraction);
    ParseFloatPlain(whole + "." + fraction);
  }

  lemma DecimalPlain(whole: string, fraction: string)
    requires AllDigits(whole) && AllDigits(fraction)
    ensures var s := whole + "." + fraction;
      && (IsDigit(s[0]) || s[0] == '.') && Strip(s) == s && FindExponent(s, 0).None?
  {
    var s := whole + "." + fraction;
    assert s[0] == if whole == [] then '.' else whole[0];
    assert s[|s| - 1] == if fraction == [] then '.' else fraction[|fraction| - 1];
    StripUntouched(s);
    FindExponentNone(s, 0);
  }

  /** Truncating a non-negative float rounds it down. */
  lemma TruncateNonNegative(v: real)
    requires v >= 0.0
    ensures Truncate(Finite(v)) == Some(v.Floor) && v.Floor >= 0
  {
  }
}
