/** Python's `re.search` and `re.findall` for the fragment of regular expressions the
    RFM parser uses: a pattern is a sequence of items, each a literal word, a greedy
    repetition of one character class (`\d+`, `\s*`, `\$?`, `[0-9,]+`) or an
    alternation of literal words (`High|Low`). Matching is Python's backtracking:
    a repetition first takes as many characters as it can and gives them back one at a
    time, an alternation tries its words in order, and a search tries each start
    position from the left. A match is reported as its trace: the text positions
    between consecutive items, so a capturing group around items `lo..hi-1` is the text
    between positions `lo` and `hi` of the trace. */
module Regex {
  import opened Wrappers
  import opened Strings

  datatype Class = Digit | Space | DigitOrComma | Char(c: char)

  datatype Bound = Unbounded | AtMost(n: nat)

  datatype Item =
    | Lit(word: string)
    | Rep(cls: Class, min: nat, max: Bound)
    | Alt(words: seq<string>)

  /** One text character against one pattern character; `icase` is `re.IGNORECASE`. */
  predicate CharEq(c: char, p: char, icase: bool) {
    if icase then Fold(c) == Fold(p) else c == p
  }

  predicate InClass(cls: Class, c: char, icase: bool) {
    match cls
    case Digit => IsDigit(c)
    case Space => IsSpace(c)
    case DigitOrComma => IsDigit(c) || c == ','
    case Char(x) => CharEq(c, x, icase)
  }

  predicate Within(n: nat, max: Bound) {
    max.AtMost? ==> n <= max.n
  }

  /** The word `w` occurs in `t` at position `i`. */
  predicate LitAt(t: string, i: nat, w: string, icase: bool) {
    i + |w| <= |t| && forall k :: 0 <= k < |w| ==> CharEq(t[i + k], w[k], icase)
  }

  /** Item `it` can span the text between positions `a` and `b`. */
  predicate Spans(it: Item, t: string, a: nat, b: nat, icase: bool) {
    && a <= b <= |t|
    && match it
       case Lit(w) => b == a + |w| && LitAt(t, a, w, icase)
       case Rep(cls, min, max) =>
         min <= b - a && Within(b - a, max) && forall k :: a <= k < b ==> InClass(cls, t[k], icase)
       case Alt(ws) => exists j :: 0 <= j < |ws| && b == a + |ws[j]| && LitAt(t, a, ws[j], icase)
  }

  predicate Sorted(bs: seq<nat>) {
    forall x, y :: 0 <= x <= y < |bs| ==> bs[x] <= bs[y]
  }

  /** Item `k` of the pattern spans the text between positions `bs[k]` and `bs[k + 1]`. */
  predicate StepSpans(p: seq<Item>, t: string, bs: seq<nat>, k: nat, icase: bool)
    requires k < |p| && |bs| == |p| + 1
  {
    Spans(p[k], t, bs[k], bs[k + 1], icase)
  }

  /** `bs` is a match of pattern `p` in `t` starting at `bs[0]`. */
  predicate Trace(p: seq<Item>, t: string, bs: seq<nat>, icase: bool) {
    && |bs| == |p| + 1
    && Sorted(bs)
    && bs[|p|] <= |t|
    && forall k: nat :: k < |p| ==> StepSpans(p, t, bs, k, icase)
  }

  function Less(max: Bound): Bound {
    match max
    case Unbounded => Unbounded
    case AtMost(n) => AtMost(if n == 0 then 0 else n - 1)
  }

  /** How many characters of the class a greedy repetition takes at `i`: the longest run
      of class characters there, cut off at the repetition's upper bound. */
  function RunLength(t: string, i: nat, cls: Class, max: Bound, icase: bool): (n: nat)
    requires i <= |t|
    ensures i + n <= |t| && Within(n, max)
    ensures forall k :: i <= k < i + n ==> InClass(cls, t[k], icase)
    ensures i + n == |t| || !InClass(cls, t[i + n], icase) || max == AtMost(n)
    decreases |t| - i
  {
    if i < |t| && InClass(cls, t[i], icase) && max != AtMost(0) then
      1 + RunLength(t, i + 1, cls, Less(max), icase)
    else 0
  }

  /** A run of class characters no longer than the bound is no longer than what the
      repetition takes. */
  lemma {:induction false} RunLengthMaximal(t: string, i: nat, cls: Class, max: Bound, icase: bool, c: nat)
    requires i + c <= |t| && Within(c, max)
    requires forall k :: i <= k < i + c ==> InClass(cls, t[k], icase)
    ensures c <= RunLength(t, i, cls, max, icase)
    decreases c
  {
    if c > 0 {
      RunLengthMaximal(t, i + 1, cls, Less(max), icase, c - 1);
    }
  }

  lemma TraceCons(p: seq<Item>, t: string, i: nat, bs: seq<nat>, icase: bool)
    requires |p| > 0 && Trace(p[1..], t, bs, icase) && Spans(p[0], t, i, bs[0], icase)
    ensures Trace(p, t, [i] + bs, icase)
  {
    var cs := [i] + bs;
    forall x, y | 0 <= x <= y < |cs| ensures cs[x] <= cs[y] {
      if x > 0 { assert cs[x] == bs[x - 1] && cs[y] == bs[y - 1]; }
      else if y > 0 { assert cs[y] == bs[y - 1] && bs[0] <= bs[y - 1]; }
    }
    forall k: nat | k < |p| ensures StepSpans(p, t, cs, k, icase) {
      if k > 0 {
        assert StepSpans(p[1..], t, bs, k - 1, icase);
        assert p[k] == p[1..][k - 1] && cs[k] == bs[k - 1] && cs[k + 1] == bs[k];
      }
    }
  }

  lemma TraceTail(p: seq<Item>, t: string, bs: seq<nat>, icase: bool)
    requires |p| > 0 && Trace(p, t, bs, icase)
    ensures Trace(p[1..], t, bs[1..], icase) && Spans(p[0], t, bs[0], bs[1], icase)
  {
    assert StepSpans(p, t, bs, 0, icase);
    forall k: nat | k < |p| - 1 ensures StepSpans(p[1..], t, bs[1..], k, icase) {
      assert StepSpans(p, t, bs, k + 1, icase);
    }
  }

  /** The backtracking match of `p` anchored at position `i`. */
  function MatchAt(p: seq<Item>, t: string, i: nat, icase: bool): (r: Option<seq<nat>>)
    requires i <= |t|
    ensures r.Some? ==> Trace(p, t, r.value, icase) && r.value[0] == i
    decreases |p|, 1, 0
  {
    if p == [] then Some([i])
    else
      match p[0]
      case Lit(w) =>
        if LitAt(t, i, w, icase) then
          match MatchAt(p[1..], t, i + |w|, icase)
          case None => None
          case Some(bs) => TraceCons(p, t, i, bs, icase); Some([i] + bs)
        else None
      case Rep(cls, min, max) =>
        var n := RunLength(t, i, cls, max, icase);
        if n < min then None else TryCounts(p, t, i, n, icase)
      case Alt(ws) => TryWords(p, t, i, 0, icase)
  }

  /** A greedy repetition at `i` taking `k` characters, then `k - 1`, ... down to its
      minimum, until the rest of the pattern matches. */
  function TryCounts(p: seq<Item>, t: string, i: nat, k: nat, icase: bool): (r: Option<seq<nat>>)
    requires |p| > 0 && p[0].Rep? && i + k <= |t|
    requires p[0].min <= k && Within(k, p[0].max)
    requires forall x :: i <= x < i + k ==> InClass(p[0].cls, t[x], icase)
    ensures r.Some? ==> Trace(p, t, r.value, icase) && r.value[0] == i
    decreases |p|, 0, k
  {
    match MatchAt(p[1..], t, i + k, icase)
    case Some(bs) => TraceCons(p, t, i, bs, icase); Some([i] + bs)
    case None => if k == p[0].min then None else TryCounts(p, t, i, k - 1, icase)
  }

  /** An alternation at `i` trying its words from the `j`-th on, in order. */
  function TryWords(p: seq<Item>, t: string, i: nat, j: nat, icase: bool): (r: Option<seq<nat>>)
    requires |p| > 0 && p[0].Alt? && i <= |t| && j <= |p[0].words|
    ensures r.Some? ==> Trace(p, t, r.value, icase) && r.value[0] == i
    decreases |p|, 0, |p[0].words| - j
  {
    var ws := p[0].words;
    if j == |ws| then None
    else if LitAt(t, i, ws[j], icase) then
      match MatchAt(p[1..], t, i + |ws[j]|, icase)
      case Some(bs) => TraceCons(p, t, i, bs, icase); Some([i] + bs)
      case None => TryWords(p, t, i, j + 1, icase)
    else TryWords(p, t, i, j + 1, icase)
  }

  /** Backtracking misses no match: whenever the pattern can match at a position, the
      matcher finds a match there. */
  lemma {:induction false} MatchComplete(p: seq<Item>, t: string, bs: seq<nat>, icase: bool)
    requires Trace(p, t, bs, icase)
    ensures MatchAt(p, t, bs[0], icase).Some?
    decreases |p|, 1, 0
  {
    if p != [] {
      TraceTail(p, t, bs, icase);
      match p[0]
      case Lit(w) =>
        MatchComplete(p[1..], t, bs[1..], icase);
      case Rep(cls, min, max) =>
        var i := bs[0];
        RunLengthMaximal(t, i, cls, max, icase, bs[1] - i);
        TryCountsComplete(p, t, i, RunLength(t, i, cls, max, icase), bs, icase);
      case Alt(ws) =>
        TryWordsComplete(p, t, bs[0], 0, bs, icase);
    }
  }

  lemma {:induction false} TryCountsComplete(p: seq<Item>, t: string, i: nat, k: nat, bs: seq<nat>, icase: bool)
    requires |p| > 0 && p[0].Rep? && i + k <= |t|
    requires p[0].min <= k && Within(k, p[0].max)
    requires forall x :: i <= x < i + k ==> InClass(p[0].cls, t[x], icase)
    requires Trace(p, t, bs, icase) && bs[0] == i && bs[1] <= i + k
    ensures TryCounts(p, t, i, k, icase).Some?
    decreases |p|, 0, k
  {
    TraceTail(p, t, bs, icase);
    if MatchAt(p[1..], t, i + k, icase).None? {
      if bs[1] == i + k {
        MatchComplete(p[1..], t, bs[1..], icase);
      } else {
        TryCountsComplete(p, t, i, k - 1, bs, icase);
      }
    }
  }

  lemma {:induction false} TryWordsComplete(p: seq<Item>, t: string, i: nat, j: nat, bs: seq<nat>, icase: bool)
    requires |p| > 0 && p[0].Alt? && i <= |t| && j <= |p[0].words|
    requires Trace(p, t, bs, icase) && bs[0] == i
    requires exists w :: j <= w < |p[0].words| && bs[1] == i + |p[0].words[w]| && LitAt(t, i, p[0].words[w], icase)
    ensures TryWords(p, t, i, j, icase).Some?
    decreases |p|, 0, |p[0].words| - j
  {
    TraceTail(p, t, bs, icase);
    var ws := p[0].words;
    if LitAt(t, i, ws[j], icase) && MatchAt(p[1..], t, i + |ws[j]|, icase).Some? {
    } else if bs[1] == i + |ws[j]| && LitAt(t, i, ws[j], icase) {
      MatchComplete(p[1..], t, bs[1..], icase);
    } else {
      TryWordsComplete(p, t, i, j + 1, bs, icase);
    }
  }

  /** A repetition gives characters back one at a time: the count it settles on is the
      largest one, from `k` down to its minimum, after which the rest of the pattern
      matches, and the rest of the match is that match of the rest. */
  lemma {:induction false} TryCountsGreedy(p: seq<Item>, t: string, i: nat, k: nat, icase: bool)
    requires |p| > 0 && p[0].Rep? && i + k <= |t|
    requires p[0].min <= k && Within(k, p[0].max)
    requires forall x :: i <= x < i + k ==> InClass(p[0].cls, t[x], icase)
    ensures var r := TryCounts(p, t, i, k, icase);
      r.Some? ==>
        && i + p[0].min <= r.value[1] <= i + k
        && MatchAt(p[1..], t, r.value[1], icase) == Some(r.value[1..])
        && forall c :: r.value[1] < c <= i + k ==> MatchAt(p[1..], t, c, icase).None?
    ensures TryCounts(p, t, i, k, icase).None? ==>
      forall c :: i + p[0].min <= c <= i + k ==> MatchAt(p[1..], t, c, icase).None?
    decreases k
  {
    match MatchAt(p[1..], t, i + k, icase)
    case Some(bs) =>
      assert TryCounts(p, t, i, k, icase) == Some([i] + bs);
      assert bs[0] == i + k && ([i] + bs)[1..] == bs;
    case None =>
      if k > p[0].min {
        var r := TryCounts(p, t, i, k - 1, icase);
        assert TryCounts(p, t, i, k, icase) == r;
        TryCountsGreedy(p, t, i, k - 1, icase);
        var lo := if r.Some? then r.value[1] else i + p[0].min - 1;
        forall c | lo < c <= i + k
          ensures MatchAt(p[1..], t, c, icase).None?
        {
          if c < i + k {
            assert lo < c <= i + (k - 1);
          }
        }
      } else {
        assert TryCounts(p, t, i, k, icase) == None;
      }
  }

  /** The rest of an alternation's match is the match of the rest of the pattern. */
  lemma {:induction false} TryWordsShape(p: seq<Item>, t: string, i: nat, j: nat, icase: bool)
    requires |p| > 0 && p[0].Alt? && i <= |t| && j <= |p[0].words|
    ensures var r := TryWords(p, t, i, j, icase);
      r.Some? ==> MatchAt(p[1..], t, r.value[1], icase) == Some(r.value[1..])
    decreases |p[0].words| - j
  {
    var ws := p[0].words;
    if j < |ws| {
      if AltChoice(p, t, i, j, icase) {
        var bs := MatchAt(p[1..], t, i + |ws[j]|, icase).value;
        assert TryWords(p, t, i, j, icase) == Some([i] + bs);
        assert bs[0] == i + |ws[j]| && ([i] + bs)[1..] == bs;
      } else {
        assert TryWords(p, t, i, j, icase) == TryWords(p, t, i, j + 1, icase);
        TryWordsShape(p, t, i, j + 1, icase);
      }
    }
  }

  /** Word `w` of the leading alternation occurs at `i` and the rest of the pattern
      matches after it. */
  predicate AltChoice(p: seq<Item>, t: string, i: nat, w: nat, icase: bool)
    requires |p| > 0 && p[0].Alt? && i <= |t| && w < |p[0].words|
  {
    LitAt(t, i, p[0].words[w], icase) && MatchAt(p[1..], t, i + |p[0].words[w]|, icase).Some?
  }

  /** The match of a pattern is its first item's span followed by the match of the rest
      of the pattern from there. */
  lemma MatchShape(p: seq<Item>, t: string, i: nat, icase: bool)
    requires i <= |t| && |p| > 0 && MatchAt(p, t, i, icase).Some?
    ensures var bs := MatchAt(p, t, i, icase).value;
      MatchAt(p[1..], t, bs[1], icase) == Some(bs[1..])
  {
    if p[0].Lit? {
      LitShape(p, t, i, icase);
    } else if p[0].Rep? {
      var n := RunLength(t, i, p[0].cls, p[0].max, icase);
      assert MatchAt(p, t, i, icase) == TryCounts(p, t, i, n, icase);
      TryCountsGreedy(p, t, i, n, icase);
    } else {
      assert MatchAt(p, t, i, icase) == TryWords(p, t, i, 0, icase);
      TryWordsShape(p, t, i, 0, icase);
    }
  }

  lemma LitShape(p: seq<Item>, t: string, i: nat, icase: bool)
    requires i <= |t| && |p| > 0 && p[0].Lit? && MatchAt(p, t, i, icase).Some?
    ensures var bs := MatchAt(p, t, i, icase).value;
      MatchAt(p[1..], t, bs[1], icase) == Some(bs[1..])
  {
    var w := p[0].word;
    var bs := MatchAt(p[1..], t, i + |w|, icase).value;
    assert MatchAt(p, t, i, icase) == Some([i] + bs);
    assert bs[0] == i + |w| && ([i] + bs)[1..] == bs;
  }

  /** A leading repetition is greedy: the match takes the most characters of the class,
      up to what the repetition can take, after which the rest of the pattern matches. */
  lemma RepGreedy(p: seq<Item>, t: string, i: nat, icase: bool)
    requires i <= |t| && |p| > 0 && p[0].Rep? && MatchAt(p, t, i, icase).Some?
    ensures var bs, n := MatchAt(p, t, i, icase).value, RunLength(t, i, p[0].cls, p[0].max, icase);
      && bs[1] <= i + n
      && forall c :: bs[1] < c <= i + n ==> MatchAt(p[1..], t, c, icase).None?
  {
    TryCountsGreedy(p, t, i, RunLength(t, i, p[0].cls, p[0].max, icase), icase);
  }

  /** A pattern that ends with an unbounded repetition matches as far as the class goes:
      its match ends at the end of the text or before a character outside the class. */
  lemma {:induction false} LastRepMaximal(p: seq<Item>, t: string, i: nat, icase: bool)
    requires i <= |t| && |p| > 0 && p[|p| - 1].Rep? && p[|p| - 1].max == Unbounded
    requires MatchAt(p, t, i, icase).Some?
    ensures var bs := MatchAt(p, t, i, icase).value;
      bs[|p|] == |t| || !InClass(p[|p| - 1].cls, t[bs[|p|]], icase)
    decreases |p|
  {
    var bs := MatchAt(p, t, i, icase).value;
    if |p| == 1 {
      var n := RunLength(t, i, p[0].cls, p[0].max, icase);
      assert p[1..] == [];
      assert MatchAt(p[1..], t, i + n, icase) == Some([i + n]);
      assert bs == [i, i + n];
    } else {
      MatchShape(p, t, i, icase);
      LastRepMaximal(p[1..], t, bs[1], icase);
      assert p[1..][|p| - 2] == p[|p| - 1];
      assert bs[1..][|p| - 1] == bs[|p|];
    }
  }

  /** `re.search` from position `s` on: the match at the first position where there is one. */
  function SearchFrom(p: seq<Item>, t: string, s: nat, icase: bool): (r: Option<seq<nat>>)
    ensures r.Some? ==> Trace(p, t, r.value, icase) && s <= r.value[0] <= |t|
    ensures r.Some? ==> forall x :: s <= x < r.value[0] ==> MatchAt(p, t, x, icase).None?
    ensures r.Some? ==> MatchAt(p, t, r.value[0], icase) == r
    ensures r.None? ==> forall x :: s <= x <= |t| ==> MatchAt(p, t, x, icase).None?
    decreases |t| + 1 - s
  {
    if s > |t| then None
    else
      match MatchAt(p, t, s, icase)
      case Some(bs) => Some(bs)
      case None => SearchFrom(p, t, s + 1, icase)
  }

  /** `re.search(p, t)`, with `re.IGNORECASE` when `icase`. */
  function Search(p: seq<Item>, t: string, icase: bool): Option<seq<nat>> {
    SearchFrom(p, t, 0, icase)
  }

  lemma {:induction false} SearchFromComplete(p: seq<Item>, t: string, s: nat, bs: seq<nat>, icase: bool)
    requires Trace(p, t, bs, icase) && s <= bs[0]
    ensures SearchFrom(p, t, s, icase).Some? && SearchFrom(p, t, s, icase).value[0] <= bs[0]
    decreases bs[0] - s
  {
    if s == bs[0] {
      MatchComplete(p, t, bs, icase);
    } else if MatchAt(p, t, s, icase).None? {
      SearchFromComplete(p, t, s + 1, bs, icase);
    }
  }

  /** `re.search` finds a match exactly when the pattern matches somewhere, and the match
      it reports is the leftmost one. */
  lemma SearchLeftmost(p: seq<Item>, t: string, bs: seq<nat>, icase: bool)
    requires Trace(p, t, bs, icase)
    ensures Search(p, t, icase).Some? && Search(p, t, icase).value[0] <= bs[0]
  {
    SearchFromComplete(p, t, 0, bs, icase);
  }

  /** The text that items `lo` to `hi - 1` of a match spanned: the capturing group
      around them. */
  function Group(t: string, bs: seq<nat>, lo: nat, hi: nat): string
    requires lo <= hi < |bs| && Sorted(bs) && bs[|bs| - 1] <= |t|
  {
    t[bs[lo]..bs[hi]]
  }

  /** Every pattern match spans at least one character. */
  predicate Consumes(p: seq<Item>) {
    |p| > 0 && ((p[0].Lit? && |p[0].word| > 0) || (p[0].Rep? && p[0].min > 0))
  }

  /** `re.findall` from position `s` on, for a pattern whose matches are never empty:
      the successive non-overlapping leftmost matches. */
  function FindAllFrom(p: seq<Item>, t: string, s: nat, icase: bool): (ms: seq<seq<nat>>)
    requires Consumes(p)
    ensures forall k :: 0 <= k < |ms| ==> Trace(p, t, ms[k], icase) && s <= ms[k][0]
    decreases |t| + 1 - s
  {
    match SearchFrom(p, t, s, icase)
    case None => []
    case Some(bs) =>
      assert StepSpans(p, t, bs, 0, icase);
      [bs] + FindAllFrom(p, t, bs[|p|], icase)
  }

  /** The pattern matches at no position from `lo` up to, not including, `hi`. */
  predicate NoMatchIn(p: seq<Item>, t: string, lo: nat, hi: nat, icase: bool) {
    forall x :: lo <= x < hi && x <= |t| ==> MatchAt(p, t, x, icase).None?
  }

  /** `re.findall` skips no match at the start: the pattern matches nowhere before its
      first match, and nowhere at all when it finds none. */
  lemma FindAllFirst(p: seq<Item>, t: string, s: nat, icase: bool)
    requires Consumes(p)
    ensures var ms := FindAllFrom(p, t, s, icase);
      NoMatchIn(p, t, s, if ms == [] then |t| + 1 else ms[0][0], icase)
  {
    var ms := FindAllFrom(p, t, s, icase);
    match SearchFrom(p, t, s, icase)
    case None =>
      assert ms == [];
    case Some(bs) =>
      assert ms[0] == bs;
  }

  /** `re.findall` scans left to right and skips nothing in between: its matches come in
      order without overlapping, and the pattern matches nowhere between two of them. */
  lemma {:induction false} FindAllOrdered(p: seq<Item>, t: string, s: nat, icase: bool)
    requires Consumes(p)
    ensures var ms := FindAllFrom(p, t, s, icase);
      forall k :: 0 <= k < |ms| - 1 ==>
        ms[k][|p|] <= ms[k + 1][0] && NoMatchIn(p, t, ms[k][|p|], ms[k + 1][0], icase)
    decreases |t| + 1 - s
  {
    var ms := FindAllFrom(p, t, s, icase);
    if SearchFrom(p, t, s, icase).Some? {
      var bs := SearchFrom(p, t, s, icase).value;
      assert StepSpans(p, t, bs, 0, icase);
      var e := bs[|p|];
      var rest := FindAllFrom(p, t, e, icase);
      assert ms == [bs] + rest;
      FindAllOrdered(p, t, e, icase);
      FindAllFirst(p, t, e, icase);
      forall k | 0 <= k < |ms| - 1
        ensures ms[k][|p|] <= ms[k + 1][0] && NoMatchIn(p, t, ms[k][|p|], ms[k + 1][0], icase)
      {
        if k == 0 {
          assert ms[1] == rest[0];
        } else {
          assert ms[k] == rest[k - 1] && ms[k + 1] == rest[k];
        }
      }
    }
  }

  /** `re.findall` skips nothing at the end: the pattern matches nowhere after its last
      match. */
  lemma {:induction false} FindAllLast(p: seq<Item>, t: string, s: nat, icase: bool)
    requires Consumes(p)
    ensures var ms := FindAllFrom(p, t, s, icase);
      ms != [] ==> NoMatchIn(p, t, ms[|ms| - 1][|p|], |t| + 1, icase)
    decreases |t| + 1 - s
  {
    var ms := FindAllFrom(p, t, s, icase);
    if SearchFrom(p, t, s, icase).Some? {
      var bs := SearchFrom(p, t, s, icase).value;
      assert StepSpans(p, t, bs, 0, icase);
      var e := bs[|p|];
      var rest := FindAllFrom(p, t, e, icase);
      assert ms == [bs] + rest;
      if rest == [] {
        FindAllFirst(p, t, e, icase);
        assert ms[|ms| - 1][|p|] == e;
      } else {
        FindAllLast(p, t, e, icase);
        assert ms[|ms| - 1] == rest[|rest| - 1];
      }
    }
  }

  /** The matched texts of `re.findall(p, t)` for a pattern without groups. */
  function FindAll(p: seq<Item>, t: string, icase: bool): (found: seq<string>)
    requires Consumes(p)
  {
    var ms := FindAllFrom(p, t, 0, icase);
    seq(|ms|, k requires 0 <= k < |ms| => Group(t, ms[k], 0, |p|))
  }
}
