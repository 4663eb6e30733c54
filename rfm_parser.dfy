/** The agent's reading of the model's answer (`parse_rfm_response` in agent/aiagent.py):
    recency, frequency, monetary value and priority, found by a strict one-line pattern,
    else by one pattern per keyword, else as the first three numbers of the text. A
    conversion that raises ends the parse with no result. */
module RfmParser {
  import opened Wrappers
  import opened Strings
  import opened Numbers
  import opened Regex

  /** The parsed answer: `{"recency", "frequency", "monetary", "priority"}`. */
  datatype Rfm = Rfm(recency: int, frequency: int, monetary: Float, priority: string)

  /** What one strategy did: its pattern found nothing, a conversion raised, or it parsed. */
  datatype Attempt = NoMatch | Raised | Parsed(rfm: Rfm)

  const Spaces: Item := Rep(Space, 0, Unbounded)
  const Digits: Item := Rep(Digit, 1, Unbounded)

  /** `x?` for a single character `x`. */
  function Optional(c: char): Item {
    Rep(Char(c), 0, AtMost(1))
  }

  /** `[0-9,]+\.?\d*`: the amount, at index 0. */
  const Amount: seq<Item> := [Rep(DigitOrComma, 1, Unbounded), Optional('.'), Rep(Digit, 0, Unbounded)]

  /** `Recency:\s*(\d+)\s*days?,\s*Frequency:\s*(\d+)\s*orders?,\s*Monetary:\s*\$?([0-9,]+\.?\d*),\s*Priority:\s*(High|Low)`;
      its groups are items 2, 10, 19 to 21 and 26. */
  const Strict: seq<Item> :=
    [Lit("Recency:"), Spaces, Digits, Spaces, Lit("day"), Optional('s'), Lit(","), Spaces,
     Lit("Frequency:"), Spaces, Digits, Spaces, Lit("order"), Optional('s'), Lit(","), Spaces,
     Lit("Monetary:"), Spaces, Optional('$')] + Amount +
    [Lit(","), Spaces, Lit("Priority:"), Spaces, Alt(["High", "Low"])]

  /** `Recency:\s*(\d+)`, `Frequency:\s*(\d+)`: the group is item 2. */
  const RecencyKey: seq<Item> := [Lit("Recency:"), Spaces, Digits]
  const FrequencyKey: seq<Item> := [Lit("Frequency:"), Spaces, Digits]

  /** `Monetary:\s*\$?([0-9,]+\.?\d*)`: the group is items 3 to 5. */
  const MonetaryKey: seq<Item> := [Lit("Monetary:"), Spaces, Optional('$')] + Amount

  /** `Priority:\s*(High|Low)`: the group is item 2. */
  const PriorityKey: seq<Item> := [Lit("Priority:"), Spaces, Alt(["High", "Low"])]

  /** `\d+\.?\d*`, the numbers of the fallback. */
  const Number: seq<Item> := [Digits, Optional('.'), Rep(Digit, 0, Unbounded)]

  /** The amount items `[0-9,]+` (or `\d+`), `\.?`, `\d*` sit at index `j` of `p`. */
  predicate AmountAt(p: seq<Item>, j: nat) {
    && j + 3 <= |p|
    && (p[j] == Amount[0] || p[j] == Digits)
    && p[j + 1] == Amount[1]
    && p[j + 2] == Amount[2]
  }

  /** The value of a numeral: its digits, read with the decimal point when it has one. */
  function Numeral(whole: string, dotted: bool, fraction: string): (v: real)
    requires AllDigits(whole) && AllDigits(fraction)
    ensures v >= 0.0
  {
    if dotted then DecimalValue(whole, fraction) else DigitsValue(whole + fraction) as real
  }

  /** The digits a `\d+` group captured. */
  function DigitGroup(p: seq<Item>, t: string, bs: seq<nat>, k: nat, icase: bool): (g: string)
    requires Trace(p, t, bs, icase) && k < |p| && p[k] == Digits
    ensures |g| > 0 && AllDigits(g)
  {
    assert StepSpans(p, t, bs, k, icase);
    Group(t, bs, k, k + 1)
  }

  /** The digits of the integer part of a captured amount, commas removed. */
  function WholeDigits(p: seq<Item>, t: string, bs: seq<nat>, j: nat, icase: bool): (w: string)
    requires Trace(p, t, bs, icase) && AmountAt(p, j)
    ensures AllDigits(w)
  {
    assert StepSpans(p, t, bs, j, icase);
    var g := Group(t, bs, j, j + 1);
    var w := RemoveChar(g, ',');
    assert AllDigits(w) by {
      forall i | 0 <= i < |w| ensures IsDigit(w[i]) {
        assert w[i] in g && w[i] != ',';
        var x :| 0 <= x < |g| && g[x] == w[i];
        assert InClass(p[j].cls, t[bs[j] + x], icase);
      }
    }
    w
  }

  /** The captured amount had a decimal point. */
  function Dotted(p: seq<Item>, t: string, bs: seq<nat>, j: nat, icase: bool): bool
    requires Trace(p, t, bs, icase) && AmountAt(p, j)
  {
    Group(t, bs, j + 1, j + 2) != ""
  }

  /** The digits after the decimal point of a captured amount. */
  function FractionDigits(p: seq<Item>, t: string, bs: seq<nat>, j: nat, icase: bool): (f: string)
    requires Trace(p, t, bs, icase) && AmountAt(p, j)
    ensures AllDigits(f)
  {
    assert StepSpans(p, t, bs, j + 2, icase);
    Group(t, bs, j + 2, j + 3)
  }

  /** A `\.?` group is empty or a single dot. */
  lemma DotGroup(p: seq<Item>, t: string, bs: seq<nat>, j: nat, icase: bool)
    requires Trace(p, t, bs, icase) && AmountAt(p, j)
    ensures Group(t, bs, j + 1, j + 2) == if Dotted(p, t, bs, j, icase) then "." else ""
  {
    assert StepSpans(p, t, bs, j + 1, icase);
    var g := Group(t, bs, j + 1, j + 2);
    if g != "" {
      assert InClass(Char('.'), t[bs[j + 1]], icase);
      assert Fold(g[0]) == Fold('.');
    }
  }

  /** The whole captured amount, as the integer part, the optional dot and the fraction. */
  lemma AmountGroup(p: seq<Item>, t: string, bs: seq<nat>, j: nat, icase: bool)
    requires Trace(p, t, bs, icase) && AmountAt(p, j)
    ensures RemoveChar(Group(t, bs, j, j + 3), ',')
         == WholeDigits(p, t, bs, j, icase) + (if Dotted(p, t, bs, j, icase) then "." else "")
            + FractionDigits(p, t, bs, j, icase)
  {
    var g0, g1, g2 := Group(t, bs, j, j + 1), Group(t, bs, j + 1, j + 2), Group(t, bs, j + 2, j + 3);
    assert Group(t, bs, j, j + 3) == g0 + g1 + g2;
    RemoveCharAppend(g0 + g1, g2, ',');
    RemoveCharAppend(g0, g1, ',');
    DotGroup(p, t, bs, j, icase);
    RemoveCharAbsent(g1, ',');
    var f := FractionDigits(p, t, bs, j, icase);
    RemoveCharAbsent(g2, ',');
  }

  /** `float(whole + dot + fraction)` for digit strings: it raises exactly when there is
      no digit at all, and otherwise reads the numeral. */
  lemma NumeralConversion(whole: string, dotted: bool, fraction: string)
    requires AllDigits(whole) && AllDigits(fraction)
    ensures ParseFloat(whole + (if dotted then "." else "") + fraction)
         == if whole == [] && fraction == [] then None else Some(Finite(Numeral(whole, dotted, fraction)))
  {
    if dotted {
      ParseFloatDecimal(whole, fraction);
    } else {
      var s := whole + "" + fraction;
      assert s == whole + fraction;
      if s != [] {
        ParseFloatDigits(s);
      } else {
        assert ParseFloat(s) == None by {
          assert Strip(s) == [] && Unsigned([]) == [] && Lower([]) == [];
          FindExponentNone(s, 0);
          assert Find(s, ".", 0).None?;
        }
      }
    }
  }

  /** `float(group.replace(',', ''))` for a captured amount: it raises exactly when the
      amount has no digit (as in `"Monetary: ,"`), and otherwise reads its numeral. */
  lemma AmountConversion(p: seq<Item>, t: string, bs: seq<nat>, j: nat, icase: bool)
    requires Trace(p, t, bs, icase) && AmountAt(p, j)
    ensures var whole, fraction := WholeDigits(p, t, bs, j, icase), FractionDigits(p, t, bs, j, icase);
      ParseFloat(RemoveChar(Group(t, bs, j, j + 3), ','))
        == if whole == [] && fraction == [] then None
           else Some(Finite(Numeral(whole, Dotted(p, t, bs, j, icase), fraction)))
  {
    AmountGroup(p, t, bs, j, icase);
    NumeralConversion(WholeDigits(p, t, bs, j, icase), Dotted(p, t, bs, j, icase), FractionDigits(p, t, bs, j, icase));
  }

  /** The four conversions shared by the two pattern strategies: `int` of the recency and
      frequency groups, `float` of the amount with its commas removed. */
  function Convert(recency: string, frequency: string, amount: string, priority: string): Attempt {
    match (ParseInt(recency), ParseInt(frequency), ParseFloat(RemoveChar(amount, ',')))
    case (Some(r), Some(f), Some(m)) => Parsed(Rfm(r, f, m, priority))
    case _ => Raised
  }

  /** Strategy 1: the strict one-line pattern, searched case-insensitively. */
  function StrictStrategy(text: string): Attempt {
    match Search(Strict, text, true)
    case None => NoMatch
    case Some(bs) =>
      Convert(Group(text, bs, 2, 3), Group(text, bs, 10, 11), Group(text, bs, 19, 22), Group(text, bs, 26, 27))
  }

  /** Strategy 2: one pattern per keyword; recency, frequency and monetary must all be
      found, and the priority is `"Unknown"` when its pattern is not. */
  function KeywordStrategy(text: string): Attempt {
    match (Search(RecencyKey, text, true), Search(FrequencyKey, text, true), Search(MonetaryKey, text, true))
    case (Some(r), Some(f), Some(m)) =>
      Convert(Group(text, r, 2, 3), Group(text, f, 2, 3), Group(text, m, 3, 6), KeywordPriority(text))
    case _ => NoMatch
  }

  /** The priority strategy 2 reports: the `High|Low` group, or `"Unknown"`. */
  function KeywordPriority(text: string): string {
    match Search(PriorityKey, text, true)
    case Some(bs) => Group(text, bs, 2, 3)
    case None => "Unknown"
  }

  /** The numbers of the fallback: `re.findall(r'\d+\.?\d*', text.replace(',', ''))`. */
  function NumbersIn(text: string): seq<string> {
    FindAll(Number, RemoveChar(text, ','), false)
  }

  /** Strategy 3: the first three numbers are recency, frequency (both `int(float(...))`)
      and monetary; the priority is `"High"` when "high" occurs in the text in any case. */
  function NumericStrategy(text: string): Attempt {
    var numbers := NumbersIn(text);
    if |numbers| < 3 then NoMatch
    else
      match (ParseFloat(numbers[0]), ParseFloat(numbers[1]), ParseFloat(numbers[2]))
      case (Some(a), Some(b), Some(m)) =>
        (match (Truncate(a), Truncate(b))
         case (Some(r), Some(f)) =>
           Parsed(Rfm(r, f, m, if Contains(Lower(text), "high") then "High" else "Low"))
         case _ => Raised)
      case _ => Raised
  }

  /** A parsed answer as the parser can produce it: counts and amount non-negative, the
      amount finite, and the priority `High` or `Low` in some case, or `Unknown`. */
  predicate WellFormed(r: Rfm) {
    && r.recency >= 0
    && r.frequency >= 0
    && r.monetary.Finite?
    && r.monetary.value >= 0.0
    && (Lower(r.priority) == "high" || Lower(r.priority) == "low" || r.priority == "Unknown")
  }

  /** `parse_rfm_response(response_text)`: the strategies in order on the stripped text;
      the first that parses wins, and one that raises ends the parse with `None`. */
  function ParseRfmResponse(responseText: string): (r: Option<Rfm>)
    ensures r.Some? ==> WellFormed(r.value)
  {
    var text := Strip(responseText);
    StrictWellFormed(text);
    KeywordWellFormed(text);
    NumericWellFormed(text);
    match StrictStrategy(text)
    case Parsed(rfm) => Some(rfm)
    case Raised => None
    case NoMatch =>
      match KeywordStrategy(text)
      case Parsed(rfm) => Some(rfm)
      case Raised => None
      case NoMatch =>
        match NumericStrategy(text)
        case Parsed(rfm) => Some(rfm)
        case _ => None
  }

  /** A digit group converts unless it is longer than `int` accepts, so the conversion
      raises exactly when a digit group is too long or the amount does not convert. */
  lemma ConvertDigits(recency: string, frequency: string, amount: string, priority: string)
    requires |recency| > 0 && AllDigits(recency) && |frequency| > 0 && AllDigits(frequency)
    ensures Convert(recency, frequency, amount, priority)
         == if |recency| > MaxStrDigits || |frequency| > MaxStrDigits then Raised
            else match ParseFloat(RemoveChar(amount, ','))
            case None => Raised
            case Some(m) => Parsed(Rfm(DigitsValue(recency), DigitsValue(frequency), m, priority))
  {
    ParseIntDigits(recency);
    ParseIntDigits(frequency);
  }

  /** The outcome read directly off a match's captured digits: an error when a digit group
      has more digits than `int` accepts or the amount has no digit, and otherwise the
      values of the two digit groups and of the amount. */
  function Captured(p: seq<Item>, t: string, bs: seq<nat>, kr: nat, kf: nat, j: nat, icase: bool, priority: string): Attempt
    requires Trace(p, t, bs, icase) && kr < |p| && kf < |p| && p[kr] == Digits && p[kf] == Digits && AmountAt(p, j)
  {
    var whole, fraction := WholeDigits(p, t, bs, j, icase), FractionDigits(p, t, bs, j, icase);
    if |DigitGroup(p, t, bs, kr, icase)| > MaxStrDigits || |DigitGroup(p, t, bs, kf, icase)| > MaxStrDigits then Raised
    else if whole == [] && fraction == [] then Raised
    else Parsed(Rfm(DigitsValue(DigitGroup(p, t, bs, kr, icase)), DigitsValue(DigitGroup(p, t, bs, kf, icase)),
                    Finite(Numeral(whole, Dotted(p, t, bs, j, icase), fraction)), priority))
  }

  /** The conversions of two digit groups and an amount (`int`, `int`, `float` without the
      commas) agree with the captured digits: they raise exactly when a digit group is
      longer than `int` accepts or the amount has no digit. */
  lemma ConvertGroups(p: seq<Item>, t: string, bs: seq<nat>, kr: nat, kf: nat, j: nat, icase: bool, priority: string)
    requires Trace(p, t, bs, icase) && kr < |p| && kf < |p| && p[kr] == Digits && p[kf] == Digits && AmountAt(p, j)
    ensures Convert(Group(t, bs, kr, kr + 1), Group(t, bs, kf, kf + 1), Group(t, bs, j, j + 3), priority)
         == Captured(p, t, bs, kr, kf, j, icase, priority)
  {
    ConvertDigits(DigitGroup(p, t, bs, kr, icase), DigitGroup(p, t, bs, kf, icase), Group(t, bs, j, j + 3), priority);
    AmountConversion(p, t, bs, j, icase);
  }

  lemma StrictShape()
    ensures |Strict| == 27 && Strict[2] == Digits && Strict[10] == Digits && AmountAt(Strict, 19)
    ensures Strict[26] == Alt(["High", "Low"])
  {
  }

  /** When the strict pattern matches, strategy 1 raises exactly when a captured digit
      group is longer than `int` accepts or the captured amount has no digit, and otherwise
      returns the captured values. */
  lemma StrictOutcome(text: string, bs: seq<nat>)
    requires Search(Strict, text, true) == Some(bs)
    ensures StrictStrategy(text) == Captured(Strict, text, bs, 2, 10, 19, true, Group(text, bs, 26, 27))
  {
    var priority := Group(text, bs, 26, 27);
    assert StrictStrategy(text) == Convert(Group(text, bs, 2, 3), Group(text, bs, 10, 11), Group(text, bs, 19, 22), priority);
    StrictShape();
    ConvertGroups(Strict, text, bs, 2, 10, 19, true, priority);
  }

  lemma KeywordShape()
    ensures RecencyKey[2] == Digits && FrequencyKey[2] == Digits && AmountAt(MonetaryKey, 3)
    ensures |PriorityKey| == 3 && PriorityKey[2] == Alt(["High", "Low"])
  {
  }

  /** The digit group that `Recency:\s*(\d+)` or `Frequency:\s*(\d+)` captures is a whole
      run of digits: no digit stands right before it or right after it. */
  lemma KeyDigitsMaximal(p: seq<Item>, text: string, bs: seq<nat>)
    requires p == RecencyKey || p == FrequencyKey
    requires Search(p, text, true) == Some(bs)
    ensures 0 < bs[2] <= |text| && !IsDigit(text[bs[2] - 1])
    ensures bs[3] == |text| || !IsDigit(text[bs[3]])
  {
    assert MatchAt(p, text, bs[0], true) == Some(bs);
    LastRepMaximal(p, text, bs[0], true);
    assert StepSpans(p, text, bs, 0, true) && StepSpans(p, text, bs, 1, true);
    var w := p[0].word;
    assert |w| > 0 && w[|w| - 1] == ':';
    if bs[1] < bs[2] {
      assert InClass(Space, text[bs[2] - 1], true);
    } else {
      assert CharEq(text[bs[0] + (|w| - 1)], w[|w| - 1], true);
    }
  }

  /** The text an `High|Low` group captured is one of the two words, in some case. */
  lemma PriorityGroup(p: seq<Item>, t: string, bs: seq<nat>, k: nat)
    requires Trace(p, t, bs, true) && k < |p| && p[k] == Alt(["High", "Low"])
    ensures Lower(Group(t, bs, k, k + 1)) == "high" || Lower(Group(t, bs, k, k + 1)) == "low"
  {
    assert StepSpans(p, t, bs, k, true);
    var ws := ["High", "Low"];
    var g := Group(t, bs, k, k + 1);
    var j :| 0 <= j < 2 && bs[k + 1] == bs[k] + |ws[j]| && LitAt(t, bs[k], ws[j], true);
    assert forall x :: 0 <= x < |g| ==> Fold(g[x]) == Fold(ws[j][x]);
    assert Lower(g) == Lower(ws[j]);
  }

  /** When the three keyword patterns are found, at the traces `r`, `f` and `m`, strategy 2
      raises exactly when a captured digit group is longer than `int` accepts or the
      captured amount has no digit, and otherwise returns the captured values, with the
      priority group or `"Unknown"`. */
  lemma KeywordOutcome(text: string, r: seq<nat>, f: seq<nat>, m: seq<nat>)
    requires Search(RecencyKey, text, true) == Some(r) && Search(FrequencyKey, text, true) == Some(f)
    requires Search(MonetaryKey, text, true) == Some(m)
    ensures var whole, fraction := WholeDigits(MonetaryKey, text, m, 3, true), FractionDigits(MonetaryKey, text, m, 3, true);
      KeywordStrategy(text)
        == if |DigitGroup(RecencyKey, text, r, 2, true)| > MaxStrDigits || |DigitGroup(FrequencyKey, text, f, 2, true)| > MaxStrDigits then Raised
           else if whole == [] && fraction == [] then Raised
           else Parsed(Rfm(DigitsValue(DigitGroup(RecencyKey, text, r, 2, true)), DigitsValue(DigitGroup(FrequencyKey, text, f, 2, true)),
                           Finite(Numeral(whole, Dotted(MonetaryKey, text, m, 3, true), fraction)), KeywordPriority(text)))
  {
    KeywordShape();
    assert KeywordStrategy(text) == Convert(Group(text, r, 2, 3), Group(text, f, 2, 3), Group(text, m, 3, 6), KeywordPriority(text));
    assert DigitGroup(RecencyKey, text, r, 2, true) == Group(text, r, 2, 3);
    assert DigitGroup(FrequencyKey, text, f, 2, true) == Group(text, f, 2, 3);
    ConvertDigits(Group(text, r, 2, 3), Group(text, f, 2, 3), Group(text, m, 3, 6), KeywordPriority(text));
    AmountConversion(MonetaryKey, text, m, 3, true);
  }

  /** Strategy 2 finds nothing exactly when one of the three keyword patterns is missing;
      a missing priority alone does not stop it. */
  lemma KeywordNoMatch(text: string)
    ensures KeywordStrategy(text).NoMatch?
        <==> Search(RecencyKey, text, true).None? || Search(FrequencyKey, text, true).None?
             || Search(MonetaryKey, text, true).None?
  {
    if Search(RecencyKey, text, true).Some? && Search(FrequencyKey, text, true).Some?
       && Search(MonetaryKey, text, true).Some? {
      KeywordOutcome(text, Search(RecencyKey, text, true).value, Search(FrequencyKey, text, true).value,
                     Search(MonetaryKey, text, true).value);
    }
  }

  lemma StrictWellFormed(text: string)
    ensures StrictStrategy(text).Parsed? ==> WellFormed(StrictStrategy(text).rfm)
  {
    if Search(Strict, text, true).Some? {
      var bs := Search(Strict, text, true).value;
      StrictOutcome(text, bs);
      StrictShape();
      PriorityGroup(Strict, text, bs, 26);
    }
  }

  lemma KeywordWellFormed(text: string)
    ensures KeywordStrategy(text).Parsed? ==> WellFormed(KeywordStrategy(text).rfm)
  {
    if Search(RecencyKey, text, true).Some? && Search(FrequencyKey, text, true).Some?
       && Search(MonetaryKey, text, true).Some? {
      KeywordOutcome(text, Search(RecencyKey, text, true).value, Search(FrequencyKey, text, true).value,
                     Search(MonetaryKey, text, true).value);
      KeywordShape();
      if Search(PriorityKey, text, true).Some? {
        PriorityGroup(PriorityKey, text, Search(PriorityKey, text, true).value, 2);
      }
    }
  }

  /** Every number the fallback finds converts to a finite non-negative float. */
  lemma NumbersConvert(text: string)
    ensures forall k :: 0 <= k < |NumbersIn(text)| ==>
      ParseFloat(NumbersIn(text)[k]).Some? && ParseFloat(NumbersIn(text)[k]).value.Finite?
      && ParseFloat(NumbersIn(text)[k]).value.value >= 0.0
  {
    var t := RemoveChar(text, ',');
    var ms := FindAllFrom(Number, t, 0, false);
    forall k | 0 <= k < |NumbersIn(text)|
      ensures ParseFloat(NumbersIn(text)[k]).Some? && ParseFloat(NumbersIn(text)[k]).value.Finite?
           && ParseFloat(NumbersIn(text)[k]).value.value >= 0.0
    {
      var bs := ms[k];
      assert NumbersIn(text)[k] == Group(t, bs, 0, 3);
      NumberConversion(t, bs);
    }
  }

  /** A found number converts to the value of its numeral. */
  lemma NumberConversion(t: string, bs: seq<nat>)
    requires Trace(Number, t, bs, false) && forall i :: 0 <= i < |t| ==> t[i] != ','
    ensures AmountAt(Number, 0)
    ensures ParseFloat(Group(t, bs, 0, 3)) == Some(Finite(Numeral(WholeDigits(Number, t, bs, 0, false),
                                                                 Dotted(Number, t, bs, 0, false),
                                                                 FractionDigits(Number, t, bs, 0, false))))
    ensures Numeral(WholeDigits(Number, t, bs, 0, false), Dotted(Number, t, bs, 0, false),
                    FractionDigits(Number, t, bs, 0, false)) >= 0.0
  {
    var g := Group(t, bs, 0, 3);
    RemoveCharAbsent(g, ',');
    var d := DigitGroup(Number, t, bs, 0, false);
    RemoveCharAbsent(d, ',');
    AmountConversion(Number, t, bs, 0, false);
    var whole, fraction := WholeDigits(Number, t, bs, 0, false), FractionDigits(Number, t, bs, 0, false);
    assert whole != [];
    if Dotted(Number, t, bs, 0, false) {
      assert DecimalValue(whole, fraction) >= 0.0;
    }
  }

  /** The fallback never raises: it parses exactly when the text holds three numbers, and
      then recency and frequency are the first two numbers rounded down. */
  lemma NumericOutcome(text: string)
    ensures NumericStrategy(text).Parsed? <==> |NumbersIn(text)| >= 3
    ensures NumericStrategy(text).Parsed? ==>
      var r := NumericStrategy(text).rfm;
      && r.recency == ParseFloat(NumbersIn(text)[0]).value.value.Floor
      && r.frequency == ParseFloat(NumbersIn(text)[1]).value.value.Floor
      && r.monetary == ParseFloat(NumbersIn(text)[2]).value
      && r.priority == (if Contains(Lower(text), "high") then "High" else "Low")
      && r.recency >= 0 && r.frequency >= 0 && r.monetary.Finite? && r.monetary.value >= 0.0
  {
    NumbersConvert(text);
    if |NumbersIn(text)| >= 3 {
      var ns := NumbersIn(text);
      TruncateNonNegative(ParseFloat(ns[0]).value.value);
      TruncateNonNegative(ParseFloat(ns[1]).value.value);
    }
  }

  lemma NumericWellFormed(text: string)
    ensures NumericStrategy(text).Parsed? ==> WellFormed(NumericStrategy(text).rfm)
  {
    var a := NumericStrategy(text);
    NumericOutcome(text);
    if a.Parsed? {
      assert a.rfm.priority == "High" || a.rfm.priority == "Low";
      PlainPriority(a.rfm);
    }
  }

  lemma PlainPriority(r: Rfm)
    requires r.priority == "High" || r.priority == "Low"
    ensures Lower(r.priority) == "high" || Lower(r.priority) == "low"
  {
    assert Lower("High") == "high" && Lower("Low") == "low";
  }
}
