/**
 * Hand-written scanners for the fixed regular expressions that both
 * notification paths share, and the amount extraction loop.
 *
 * A scanner `XAt(s, i)` answers whether the pattern matches starting at
 * position `i` and, if so, where its capturing group lies; `Find` gives
 * the leftmost such position, as `Regex.find` does. Ordered alternatives
 * and greedy optional parts are tried in the regex engine's order: a
 * scanner collects the positions each choice leads to, in priority
 * order, and takes the first from which the rest of the pattern matches.
 * A greedy `\s*` or `\s+` is taken at its longest: in these patterns the
 * element after it can never begin with whitespace, so the shorter runs
 * that backtracking would try cannot match where the longest did not.
 * The one pattern where that is not so, `towards\s+(.+?)\.`, backtracks
 * over the length of its `\s+` explicitly.
 */
module Patterns {
  import opened Options
  import opened Chars
  import opened Decimal

  /** The positions of the text captured by group 1. */
  datatype Span = Span(start: nat, end: nat)

  /** A match of a whole pattern: where it starts and what group 1 captured. */
  datatype Found = Found(at: nat, group: Span)

  predicate SpanIn(s: string, g: Span) { g.start <= g.end <= |s| }

  /** The captured text (`groupValues[1]`). */
  function Slice(s: string, g: Span): string {
    if SpanIn(s, g) then s[g.start..g.end] else []
  }

  /** `Regex.find`: the leftmost position at or after `from` where `m` matches. */
  function Find(s: string, m: (string, nat) -> Option<Span>, from: nat): (r: Option<Found>)
    ensures r.Some? ==> from <= r.value.at <= |s| && m(s, r.value.at) == Some(r.value.group)
    ensures r.Some? ==> forall k :: from <= k < r.value.at ==> m(s, k).None?
    ensures r.None? ==> forall k :: from <= k <= |s| ==> m(s, k).None?
    decreases |s| - from
  {
    if from > |s| then None
    else
      match m(s, from)
      case Some(g) => Some(Found(from, g))
      case None => Find(s, m, from + 1)
  }

  /** The positions just after each of `lits` that occurs at `i`, in the order of `lits`. */
  function Tails(s: string, i: nat, lits: seq<string>): (r: seq<nat>)
    ensures forall k :: 0 <= k < |r| ==> i <= r[k] <= |s|
  {
    if lits == [] then []
    else (if LitAt(s, i, lits[0]) then [i + |lits[0]|] else []) + Tails(s, i, lits[1..])
  }

  /** The candidate positions of every `x` in `xs`, in order. */
  function FlatMap(xs: seq<nat>, f: nat -> seq<nat>): seq<nat> {
    if xs == [] then [] else f(xs[0]) + FlatMap(xs[1..], f)
  }

  /** A position is among the tails exactly when one of the literals occurs at `i` and ends there. */
  lemma {:induction false} TailsMember(s: string, i: nat, lits: seq<string>, c: nat)
    ensures c in Tails(s, i, lits) <==>
      exists t :: 0 <= t < |lits| && LitAt(s, i, lits[t]) && c == i + |lits[t]|
  {
    if lits != [] {
      var head := if LitAt(s, i, lits[0]) then [i + |lits[0]|] else [];
      var rest := lits[1..];
      assert Tails(s, i, lits) == head + Tails(s, i, rest);
      assert c in Tails(s, i, lits) <==> c in head || c in Tails(s, i, rest);
      TailsMember(s, i, rest, c);
      if c in Tails(s, i, rest) {
        var t :| 0 <= t < |rest| && LitAt(s, i, rest[t]) && c == i + |rest[t]|;
        assert lits[t + 1] == rest[t];
      }
      if exists t :: 0 <= t < |lits| && LitAt(s, i, lits[t]) && c == i + |lits[t]| {
        var t :| 0 <= t < |lits| && LitAt(s, i, lits[t]) && c == i + |lits[t]|;
        if t > 0 {
          assert rest[t - 1] == lits[t];
        }
      }
    }
  }

  /** The candidates of a `FlatMap` are the candidates of its elements. */
  lemma {:induction false} FlatMapMember(xs: seq<nat>, f: nat -> seq<nat>, c: nat)
    ensures c in FlatMap(xs, f) <==> exists x :: x in xs && c in f(x)
  {
    if xs != [] {
      FlatMapMember(xs[1..], f, c);
      assert forall x :: x in xs <==> x == xs[0] || x in xs[1..];
    }
  }

  /**
   * The first candidate, in order, from which the rest of a pattern,
   * `rest`, matches; there is none exactly when every candidate fails.
   */
  function FirstOf(s: string, cands: seq<nat>, rest: (string, nat) -> Option<Span>): (r: Option<Span>)
    ensures r.Some? ==>
      exists k :: 0 <= k < |cands| && rest(s, cands[k]) == r
        && forall j :: 0 <= j < k ==> rest(s, cands[j]).None?
    ensures r.None? ==> forall k :: 0 <= k < |cands| ==> rest(s, cands[k]).None?
  {
    if cands == [] then None
    else if rest(s, cands[0]).Some? then rest(s, cands[0])
    else
      var r := FirstOf(s, cands[1..], rest);
      assert forall k :: 1 <= k < |cands| ==> cands[k] == cands[1..][k - 1];
      r
  }

  /** What `FirstOf` yields comes from some candidate, and it fails only if every candidate does. */
  lemma FirstOfMember(s: string, cands: seq<nat>, rest: (string, nat) -> Option<Span>)
    ensures FirstOf(s, cands, rest).Some? ==>
      exists c :: c in cands && rest(s, c) == FirstOf(s, cands, rest)
    ensures FirstOf(s, cands, rest).None? ==> forall c :: c in cands ==> rest(s, c).None?
  {
    var r := FirstOf(s, cands, rest);
    if r.Some? {
      var k :| 0 <= k < |cands| && rest(s, cands[k]) == r
        && forall j :: 0 <= j < k ==> rest(s, cands[j]).None?;
      assert cands[k] in cands;
    }
  }

  // ---------------------------------------------------------------- numbers

  predicate IsNumberChar(c: char) { IsDigit(c) || c == ',' }

  /**
   * Declarative: `x` is exactly what `[0-9,]+(?:\.[0-9]{1,2})?` matches,
   * a non-empty run of digits and commas, then "." and one or two digits
   * or nothing.
   */
  ghost predicate IsNumberText(x: string) {
    exists n: nat :: NumberTextSplit(x, n)
  }

  /** `x[..n]` is the run of digits and commas, `x[n..]` the decimal part. */
  predicate NumberTextSplit(x: string, n: nat) {
    1 <= n <= |x| && (forall k :: 0 <= k < n ==> IsNumberChar(x[k]))
    && (n == |x| || (x[n] == '.' && (|x| == n + 2 || |x| == n + 3) && AllDigits(x[n + 1..])))
  }

  /** The greedy `(?:\.[0-9]{1,2})?` after the integer part ending at `e`. */
  function DecimalsEnd(s: string, e: nat): (r: nat)
    requires e <= |s|
    ensures e <= r <= |s|
  {
    if e + 1 < |s| && s[e] == '.' && IsDigit(s[e + 1]) then
      (if e + 2 < |s| && IsDigit(s[e + 2]) then e + 3 else e + 2)
    else e
  }

  /**
   * `g` is number text that cannot be made longer: no longer slice from
   * its start is number text, which is where the greedy repetitions stop
   * when nothing follows them in the pattern.
   */
  ghost predicate LongestNumber(s: string, g: Span) {
    SpanIn(s, g) && IsNumberText(Slice(s, g))
    && forall e :: g.end < e <= |s| ==> !IsNumberText(s[g.start..e])
  }

  /** No number text starts at a character that is neither a digit nor a comma. */
  lemma NoNumberTextAt(s: string, j: nat, e: nat)
    requires j <= e <= |s| && (j == |s| || !IsNumberChar(s[j]))
    ensures !IsNumberText(s[j..e])
  {
    if j < e {
      assert s[j..e][0] == s[j];
    }
  }

  /** Number text from `j` ends no later than where the greedy scan of `[0-9,]+`, then the decimals, ends. */
  lemma NumberTextBound(s: string, j: nat, e: nat, x: string, n: nat)
    requires j < e <= |s| && e == RunEnd(s, j, IsNumberChar)
    requires j + |x| <= |s| && x == s[j..j + |x|] && NumberTextSplit(x, n)
    ensures j + |x| <= DecimalsEnd(s, e)
  {
    assert forall k :: 0 <= k < |x| ==> x[k] == s[j + k];
  }

  /** No number text from `j` is longer than the greedy scan's. */
  lemma NumberTextLongest(s: string, j: nat, e: nat, e': nat)
    requires j < e <= |s| && e == RunEnd(s, j, IsNumberChar) && DecimalsEnd(s, e) < e' <= |s|
    ensures !IsNumberText(s[j..e'])
  {
    var x := s[j..e'];
    if IsNumberText(x) {
      var n: nat :| NumberTextSplit(x, n);
      NumberTextBound(s, j, e, x, n);
    }
  }

  /**
   * `([0-9,]+(?:\.[0-9]{1,2})?)` at `j`: it ends a pattern, so it is taken
   * greedily, as the longest number text there is at `j`.
   */
  function NumberSpan(s: string, j: nat): (r: Option<Span>)
    ensures r.Some? ==> r.value.start == j && LongestNumber(s, r.value)
    ensures r.None? ==> forall e :: j <= e <= |s| ==> !IsNumberText(s[j..e])
  {
    var e := RunEnd(s, j, IsNumberChar);
    if e == j || e > |s| then
      assert forall e' :: j <= e' <= |s| ==> !IsNumberText(s[j..e']) by {
        forall e' | j <= e' <= |s| ensures !IsNumberText(s[j..e']) {
          NoNumberTextAt(s, j, e');
        }
      }
      None
    else
      var d := DecimalsEnd(s, e);
      var x := s[j..d];
      assert forall k :: 0 <= k < e - j ==> IsNumberChar(x[k]);
      assert d == e || (x[e - j] == '.' && AllDigits(x[e - j + 1..]));
      assert NumberTextSplit(x, e - j);
      assert forall e' :: d < e' <= |s| ==> !IsNumberText(s[j..e']) by {
        forall e' | d < e' <= |s| ensures !IsNumberText(s[j..e']) {
          NumberTextLongest(s, j, e, e');
        }
      }
      Some(Span(j, d))
  }

  /** `\s*` followed by the number: the longest number text right after the spaces. */
  function NumberAfterSpaces(s: string, j: nat): (r: Option<Span>)
    ensures r.Some? ==> r.value.start == SkipSpaces(s, j) && LongestNumber(s, r.value)
    ensures r.None? ==>
      forall e :: SkipSpaces(s, j) <= e <= |s| ==> !IsNumberText(s[SkipSpaces(s, j)..e])
  {
    NumberSpan(s, SkipSpaces(s, j))
  }

  /** The currency marker `(?:INR|Rs\.?|₹)`, with `Rs.` tried before `Rs`. */
  const CurrencyTokens: seq<string> := ["INR", "Rs.", "Rs", "₹"]

  /** `\s*(?:INR|Rs\.?|₹)?` from `o`: after a marker, else right after the spaces. */
  function OptCurrency(s: string, o: nat): seq<nat> {
    var w := SkipSpaces(s, o);
    Tails(s, w, CurrencyTokens) + [w]
  }

  // ---------------------------------------------------------------- amounts

  /** `(?:INR|Rs\.?|₹)\s*([0-9,]+(?:\.[0-9]{1,2})?)` at `i`. */
  function CurrencyAmountAt(s: string, i: nat): (r: Option<Span>)
    ensures r.Some? ==> LongestNumber(s, r.value)
  {
    FirstOf(s, Tails(s, i, CurrencyTokens), NumberAfterSpaces)
  }

  const VerbTokens: seq<string> :=
    ["debited", "credited", "paid", "received", "withdrawn", "deposited"]

  /** `\s+(?:with\s+)?(?:INR|Rs\.?|₹)?\s*` after a movement verb ending at `e`. */
  function VerbRest(s: string, e: nat): seq<nat> {
    var q := SkipSpaces(s, e);
    if q == e then []
    else
      var h := SkipSpaces(s, q + 4);
      FlatMap((if LitAt(s, q, "with") && h > q + 4 then [h] else []) + [q], o => OptCurrency(s, o))
  }

  /**
   * `(?:debited|credited|paid|received|withdrawn|deposited)\s+(?:with\s+)?`
   * `(?:INR|Rs\.?|₹)?\s*([0-9,]+(?:\.[0-9]{1,2})?)` at `i`.
   */
  function VerbAmountAt(s: string, i: nat): (r: Option<Span>)
    ensures r.Some? ==> LongestNumber(s, r.value)
  {
    FirstOf(s, FlatMap(Tails(s, i, VerbTokens), e => VerbRest(s, e)), NumberAfterSpaces)
  }

  /** `\s*(?:of)?\s*(?:INR|Rs\.?|₹)?\s*` after "amount" or "amt" ending at `e`. */
  function WordRest(s: string, e: nat): seq<nat> {
    var q := SkipSpaces(s, e);
    FlatMap(Tails(s, q, ["of"]) + [q], o => OptCurrency(s, o))
  }

  /** `(?:amount|amt)\s*(?:of)?\s*(?:INR|Rs\.?|₹)?\s*([0-9,]+(?:\.[0-9]{1,2})?)` at `i`. */
  function WordAmountAt(s: string, i: nat): (r: Option<Span>)
    ensures r.Some? ==> LongestNumber(s, r.value)
  {
    FirstOf(s, FlatMap(Tails(s, i, ["amount", "amt"]), e => WordRest(s, e)), NumberAfterSpaces)
  }

  /** The three pattern families of `extractAmount`, in the order they are tried. */
  const AmountPatterns: seq<(string, nat) -> Option<Span>> :=
    [CurrencyAmountAt, VerbAmountAt, WordAmountAt]

  /** What family `f` yields: its leftmost match, commas removed, if plausible. */
  function FamilyAmount(text: string, f: nat): Option<string>
    requires f < |AmountPatterns|
  {
    match Find(text, AmountPatterns[f], 0)
    case None => None
    case Some(m) =>
      var a := StripCommas(Slice(text, m.group));
      if IsPlausibleAmount(a) then Some(a) else None
  }

  /** The first family from `f` on that yields an amount. */
  function AmountFrom(text: string, f: nat): Option<string>
    decreases |AmountPatterns| - f
  {
    if f >= |AmountPatterns| then None
    else
      match FamilyAmount(text, f)
      case Some(a) => Some(a)
      case None => AmountFrom(text, f + 1)
  }

  /** The amount `extractAmount` returns. */
  function AmountOf(text: string): Option<string> {
    AmountFrom(text, 0)
  }

  /**
   * `extractAmount`: tries each family in order; a family whose leftmost
   * match is absent or implausible passes the turn to the next family.
   */
  method ExtractAmount(text: string) returns (r: Option<string>)
    ensures r == AmountOf(text)
  {
    var f := 0;
    while f < |AmountPatterns|
      invariant 0 <= f <= |AmountPatterns|
      invariant AmountFrom(text, f) == AmountOf(text)
    {
      var m := Find(text, AmountPatterns[f], 0);
      if m.Some? {
        var amount := StripCommas(Slice(text, m.value.group));
        if IsPlausibleAmount(amount) {
          return Some(amount);
        }
      }
      f := f + 1;
    }
    return None;
  }

  /** A comma-free, well-formed decimal strictly between 0 and 10,000,000. */
  lemma {:induction false} AmountFromShape(text: string, f: nat)
    ensures AmountFrom(text, f).Some? ==>
      var a := AmountFrom(text, f).value;
      ',' !in a && IsAmountText(a) && 0 < Hundredths(a) < AmountLimit
    decreases |AmountPatterns| - f
  {
    if f < |AmountPatterns| && FamilyAmount(text, f).None? {
      AmountFromShape(text, f + 1);
    }
  }

  lemma AmountShape(text: string)
    ensures AmountOf(text).Some? ==>
      var a := AmountOf(text).value;
      ',' !in a && IsAmountText(a) && 0 < Hundredths(a) < AmountLimit
  {
    AmountFromShape(text, 0);
  }

  /**
   * The amount is the yield of the first family that yields one; there is
   * none exactly when no family does.
   */
  lemma {:induction false} AmountFromIsFirstFamily(text: string, f: nat)
    requires f <= |AmountPatterns|
    ensures AmountFrom(text, f).None? <==>
      forall g :: f <= g < |AmountPatterns| ==> FamilyAmount(text, g).None?
    ensures AmountFrom(text, f).Some? ==>
      exists g :: f <= g < |AmountPatterns| && AmountFrom(text, f) == FamilyAmount(text, g)
        && forall h :: f <= h < g ==> FamilyAmount(text, h).None?
    decreases |AmountPatterns| - f
  {
    if f < |AmountPatterns| {
      var y := FamilyAmount(text, f);
      if y.None? {
        assert AmountFrom(text, f) == AmountFrom(text, f + 1);
        AmountFromIsFirstFamily(text, f + 1);
        if AmountFrom(text, f + 1).Some? {
          var g :| f + 1 <= g < |AmountPatterns| && AmountFrom(text, f + 1) == FamilyAmount(text, g)
            && forall h :: f + 1 <= h < g ==> FamilyAmount(text, h).None?;
          assert forall h :: f <= h < g ==> FamilyAmount(text, h).None?;
        }
      } else {
        assert AmountFrom(text, f) == y;
      }
    }
  }

  /** Removing the commas from a run of digits and commas leaves digits only. */
  lemma {:induction false} StripNumberChars(d: string)
    requires forall k :: 0 <= k < |d| ==> IsNumberChar(d[k])
    ensures AllDigits(StripCommas(d))
  {
    if d != [] {
      StripNumberChars(d[1..]);
    }
  }

  /** Stripping the commas of number text leaves nothing, or a text `toDoubleOrNull` reads. */
  lemma StrippedNumberText(x: string)
    requires IsNumberText(x)
    ensures StripCommas(x) == [] || IsAmountText(StripCommas(x))
  {
    var n: nat :| NumberTextSplit(x, n);
    var d, t := x[..n], x[n..];
    assert x == d + t;
    StripCommasAppend(d, t);
    assert ',' !in t;
    StripCommasOfCommaFree(t);
    StripNumberChars(d);
    var sd := StripCommas(d);
    var r := StripCommas(x);
    assert r == sd + t;
    if t != [] {
      assert r[..|r| - |t|] == sd;
      assert r[|r| - |t|] == '.';
      assert r[|r| - |t| + 1..] == t[1..];
    }
  }

  /**
   * The captured amount text, without commas, is either empty or one of
   * the forms `IsAmountText` admits: `toDoubleOrNull` never meets any text
   * outside those two cases here.
   */
  lemma FamilyCaptureParses(text: string, f: nat)
    requires f < |AmountPatterns|
    ensures Find(text, AmountPatterns[f], 0).Some? ==>
      var a := StripCommas(Slice(text, Find(text, AmountPatterns[f], 0).value.group));
      a == [] || IsAmountText(a)
  {
    var m := Find(text, AmountPatterns[f], 0);
    if m.Some? {
      assert AmountPatterns[f](text, m.value.at) == Some(m.value.group);
      assert IsNumberText(Slice(text, m.value.group)) by {
        if f == 0 {
          assert CurrencyAmountAt(text, m.value.at) == Some(m.value.group);
        } else if f == 1 {
          assert VerbAmountAt(text, m.value.at) == Some(m.value.group);
        } else {
          assert WordAmountAt(text, m.value.at) == Some(m.value.group);
        }
      }
      StrippedNumberText(Slice(text, m.value.group));
    }
  }

  // ---------------------------------------------------------------- balance

  const BalanceTokens: seq<string> :=
    ["balance", "bal", "avbl bal", "available balance", "avl bal", "avail bal"]

  /** `(?:\s+is)?\s*(?:INR|Rs\.?|₹)?\s*` after a balance keyword ending at `e`. */
  function BalanceRest(s: string, e: nat): seq<nat> {
    var q := SkipSpaces(s, e);
    FlatMap((if q > e && LitAt(s, q, "is") then [q + 2] else []) + [e], o => OptCurrency(s, o))
  }

  /**
   * `(?:balance|bal|avbl bal|available balance|avl bal|avail bal)(?:\s+is)?`
   * `\s*(?:INR|Rs\.?|₹)?\s*([0-9,]+(?:\.[0-9]{1,2})?)` at `i`.
   */
  function BalanceAt(s: string, i: nat): (r: Option<Span>)
    ensures r.Some? ==> LongestNumber(s, r.value)
  {
    FirstOf(s, FlatMap(Tails(s, i, BalanceTokens), e => BalanceRest(s, e)), NumberAfterSpaces)
  }

  /**
   * `extractBalance`: "N/A" when no balance pattern matches; otherwise the
   * figure the leftmost match captures, the longest number text there,
   * with its commas removed.
   */
  function BalanceOf(text: string): (r: string)
    ensures Find(text, BalanceAt, 0).None? ==> r == "N/A"
    ensures Find(text, BalanceAt, 0).Some? ==>
      var m := Find(text, BalanceAt, 0).value;
      LongestNumber(text, m.group) && r == StripCommas(Slice(text, m.group))
    ensures Find(text, BalanceAt, 0).Some? ==> ',' !in r && (r == [] || IsAmountText(r))
  {
    match Find(text, BalanceAt, 0)
    case None => "N/A"
    case Some(m) =>
      assert BalanceAt(text, m.at) == Some(m.group);
      StrippedNumberText(Slice(text, m.group));
      StripCommas(Slice(text, m.group))
  }

  // ---------------------------------------------------------------- account suffix

  predicate IsMask(c: char) { c == 'X' || c == 'x' || c == '*' }

  /** Everything from `w` up to `m` is a mask character. */
  predicate MaskRun(s: string, w: nat, m: nat) {
    w <= m <= |s| && forall k :: w <= k < m ==> IsMask(s[k])
  }

  /** Four digits start at `m`. */
  predicate FourDigitsAt(s: string, m: nat) {
    m + 4 <= |s| && AllDigits(s[m..m + 4])
  }

  /**
   * `\s*[Xx*]*([0-9]{4})` from `g`: the four digits right after the
   * spaces and the run of masks. A mask is not a digit, so the greedy
   * `[Xx*]*` never gives back a character: there is a match exactly when
   * four digits follow the whole run.
   */
  function SuffixAfter(s: string, g: nat): (r: Option<Span>)
    ensures r.Some? ==>
      SpanIn(s, r.value) && r.value.end == r.value.start + 4 && AllDigits(Slice(s, r.value))
    ensures r.Some? ==>
      SkipSpaces(s, g) <= r.value.start && MaskRun(s, SkipSpaces(s, g), r.value.start)
    ensures r.None? ==>
      forall m: nat :: MaskRun(s, SkipSpaces(s, g), m) ==> !FourDigitsAt(s, m)
  {
    var w := SkipSpaces(s, g);
    var m := RunEnd(s, w, IsMask);
    if FourDigitsAt(s, m) then Some(Span(m, m + 4))
    else
      assert forall m': nat :: MaskRun(s, w, m') ==> !FourDigitsAt(s, m') by {
        forall m': nat | MaskRun(s, w, m') ensures !FourDigitsAt(s, m') {
          if m' < m && m' + 4 <= |s| {
            assert s[m'..m' + 4][0] == s[m'];
          }
        }
      }
      None
  }

  /** `(?:no\.?|number)?`: "no." before "no", and the empty choice last. */
  const NumberWords: seq<string> := ["no.", "no", "number", ""]

  /** `\s*(?:no\.?|number)?` after an account keyword ending at `e`. */
  function NumberWordRest(s: string, e: nat): seq<nat> {
    Tails(s, SkipSpaces(s, e), NumberWords)
  }

  /**
   * Declarative: the account pattern, up to its `\s*[Xx*]*`, leads from `i`
   * to `g`: keyword `t` of `keywords` occurs at `i`, then spaces, then the
   * number word `w` (possibly the empty one), which ends at `g`.
   */
  predicate AccountLeadIn(s: string, i: nat, keywords: seq<string>, t: nat, w: nat, g: nat) {
    t < |keywords| && w < |NumberWords| && LitAt(s, i, keywords[t])
    && var q := SkipSpaces(s, i + |keywords[t]|);
    LitAt(s, q, NumberWords[w]) && g == q + |NumberWords[w]|
  }

  /** A candidate of the account pattern is reached by a lead-in. */
  lemma CandidateIsLeadIn(s: string, i: nat, keywords: seq<string>, g: nat)
    requires g in FlatMap(Tails(s, i, keywords), (e: nat) => NumberWordRest(s, e))
    ensures exists t: nat, w: nat :: AccountLeadIn(s, i, keywords, t, w, g)
  {
    var f := (e: nat) => NumberWordRest(s, e);
    FlatMapMember(Tails(s, i, keywords), f, g);
    var e :| e in Tails(s, i, keywords) && g in f(e);
    KeywordThenNumberWord(s, i, keywords, e, g);
  }

  /** A keyword's tail followed by a number word's is a lead-in. */
  lemma KeywordThenNumberWord(s: string, i: nat, keywords: seq<string>, e: nat, g: nat)
    requires e in Tails(s, i, keywords) && g in NumberWordRest(s, e)
    ensures exists t: nat, w: nat :: AccountLeadIn(s, i, keywords, t, w, g)
  {
    TailsMember(s, i, keywords, e);
    var t :| 0 <= t < |keywords| && LitAt(s, i, keywords[t]) && e == i + |keywords[t]|;
    var q := SkipSpaces(s, e);
    TailsMember(s, q, NumberWords, g);
    var w :| 0 <= w < |NumberWords| && LitAt(s, q, NumberWords[w]) && g == q + |NumberWords[w]|;
    assert AccountLeadIn(s, i, keywords, t, w, g);
  }

  /** A lead-in reaches a candidate of the account pattern. */
  lemma LeadInIsCandidate(s: string, i: nat, keywords: seq<string>, t: nat, w: nat, g: nat)
    requires AccountLeadIn(s, i, keywords, t, w, g)
    ensures g in FlatMap(Tails(s, i, keywords), (e: nat) => NumberWordRest(s, e))
  {
    var f := (e: nat) => NumberWordRest(s, e);
    var e := i + |keywords[t]|;
    TailsMember(s, i, keywords, e);
    TailsMember(s, SkipSpaces(s, e), NumberWords, g);
    assert g in f(e);
    FlatMapMember(Tails(s, i, keywords), f, g);
  }

  /** What the first successful candidate of the account pattern yields, stated through its lead-ins. */
  lemma FirstAccountLeadIn(s: string, i: nat, keywords: seq<string>)
    ensures var cands := FlatMap(Tails(s, i, keywords), (e: nat) => NumberWordRest(s, e));
      var r := FirstOf(s, cands, SuffixAfter);
      (r.Some? ==> exists t: nat, w: nat, g: nat :: AccountLeadIn(s, i, keywords, t, w, g) && SuffixAfter(s, g) == r)
      && (r.None? ==> forall t: nat, w: nat, g: nat :: AccountLeadIn(s, i, keywords, t, w, g) ==> SuffixAfter(s, g).None?)
  {
    var cands := FlatMap(Tails(s, i, keywords), (e: nat) => NumberWordRest(s, e));
    var r := FirstOf(s, cands, SuffixAfter);
    FirstOfMember(s, cands, SuffixAfter);
    if r.Some? {
      var g :| g in cands && SuffixAfter(s, g) == r;
      CandidateIsLeadIn(s, i, keywords, g);
    } else {
      forall t: nat, w: nat, g: nat | AccountLeadIn(s, i, keywords, t, w, g) ensures SuffixAfter(s, g).None? {
        LeadInIsCandidate(s, i, keywords, t, w, g);
      }
    }
  }

  /**
   * `(?:k1|k2|...)\s*(?:no\.?|number)?\s*[Xx*]*([0-9]{4})` at `i`, for the
   * account keywords `keywords` of one variant: the four digits after a
   * keyword, its optional number word, the spaces and the masks; no match
   * when no lead-in is followed by them.
   */
  function AccountAt(s: string, i: nat, keywords: seq<string>): (r: Option<Span>)
    ensures r.Some? ==> exists t: nat, w: nat, g: nat :: AccountLeadIn(s, i, keywords, t, w, g) && SuffixAfter(s, g) == r
    ensures r.None? ==> forall t: nat, w: nat, g: nat :: AccountLeadIn(s, i, keywords, t, w, g) ==> SuffixAfter(s, g).None?
  {
    FirstAccountLeadIn(s, i, keywords);
    FirstOf(s, FlatMap(Tails(s, i, keywords), (e: nat) => NumberWordRest(s, e)), SuffixAfter)
  }

  // ---------------------------------------------------------------- "towards X."

  /** The first "." at or after `k` with no line terminator before it. */
  function DotFrom(s: string, k: nat): (r: Option<nat>)
    ensures r.Some? ==>
      k <= r.value < |s| && s[r.value] == '.'
      && forall j :: k <= j < r.value ==> !IsLineTerminator(s[j]) && s[j] != '.'
    decreases |s| - k
  {
    if k >= |s| then None
    else if s[k] == '.' then Some(k)
    else if IsLineTerminator(s[k]) then None
    else DotFrom(s, k + 1)
  }

  /** `(.+?)\.` from `q`: at least one character, up to the first "." after it. */
  function LazyToDot(s: string, q: nat): (r: Option<Span>)
    ensures r.Some? ==>
      r.value.start == q < r.value.end < |s| && s[r.value.end] == '.'
      && (forall j :: q <= j < r.value.end ==> !IsLineTerminator(s[j]))
      && forall j :: q < j < r.value.end ==> s[j] != '.'
  {
    if q < |s| && !IsLineTerminator(s[q]) then
      match DotFrom(s, q + 1)
      case Some(k) => Some(Span(q, k))
      case None => None
    else None
  }

  /**
   * Backtracking over `\s+`: its run ends at `q`, then at `q - 1`, down to
   * `e + 1`; the first of those ends from which `(.+?)\.` matches wins.
   */
  function TowardsBack(s: string, e: nat, q: nat): (r: Option<Span>)
    ensures r.Some? ==>
      e < r.value.start <= q && LazyToDot(s, r.value.start) == r
      && forall p :: r.value.start < p <= q ==> LazyToDot(s, p).None?
    ensures r.None? ==> forall p :: e < p <= q ==> LazyToDot(s, p).None?
    decreases q
  {
    if q <= e then None
    else
      match LazyToDot(s, q)
      case Some(g) => Some(g)
      case None => TowardsBack(s, e, q - 1)
  }

  /**
   * `towards\s+(.+?)\.` at `i`: after "towards" and the longest run of
   * spaces that still lets `(.+?)\.` match, at least one character with no
   * line break, up to the first "." after it.
   */
  function TowardsAt(s: string, i: nat): (r: Option<Span>)
    ensures r.Some? ==>
      LitAt(s, i, "towards") && i + 7 < r.value.start <= SkipSpaces(s, i + 7)
      && r.value.start < r.value.end < |s| && s[r.value.end] == '.'
      && (forall j :: r.value.start <= j < r.value.end ==> !IsLineTerminator(s[j]))
      && (forall j :: r.value.start < j < r.value.end ==> s[j] != '.')
      && forall p :: r.value.start < p <= SkipSpaces(s, i + 7) ==> LazyToDot(s, p).None?
    ensures r.None? && LitAt(s, i, "towards") ==>
      forall p :: i + 7 < p <= SkipSpaces(s, i + 7) ==> LazyToDot(s, p).None?
  {
    if !LitAt(s, i, "towards") then None
    else
      var e := i + 7;
      TowardsBack(s, e, SkipSpaces(s, e))
  }

  // ---------------------------------------------------------------- bare codes

  predicate NoLineTerminator(s: string) {
    forall k :: 0 <= k < |s| ==> !IsLineTerminator(s[k])
  }

  /** Declarative `\b\d{4,6}\b` at `i`: a whole word of `n` digits, 4 <= n <= 6. */
  ghost predicate BareCodeAt(s: string, i: nat, n: nat) {
    4 <= n <= 6 && i + n <= |s| && AllDigits(s[i..i + n])
    && (i == 0 || !IsWordChar(s[i - 1])) && (i + n == |s| || !IsWordChar(s[i + n]))
  }

  ghost predicate HasBareCodeFrom(s: string, i: nat) {
    exists k: nat, n: nat :: i <= k && BareCodeAt(s, k, n)
  }

  /** A scanner over the words of `s` from `i` on: is one of them 4 to 6 digits? */
  function WordsFrom(s: string, i: nat): bool
    decreases |s| - i
  {
    if i >= |s| then false
    else if !IsWordChar(s[i]) then WordsFrom(s, i + 1)
    else
      var j := RunEnd(s, i, IsWordChar);
      (j - i >= 4 && j - i <= 6 && AllDigits(s[i..j])) || WordsFrom(s, j)
  }

  /** `matches(".*\\b\\d{4,6}\\b.*")`: the `.*` on both sides rule out line terminators. */
  function OtpCodeMatches(body: string): bool {
    NoLineTerminator(body) && WordsFrom(body, 0)
  }

  /** From a word start (or a non-word character) on, the scanner finds a bare code exactly when one exists. */
  lemma {:induction false} WordsFromIsBareCode(s: string, i: nat)
    requires i == 0 || i >= |s| || !IsWordChar(s[i - 1]) || !IsWordChar(s[i])
    ensures WordsFrom(s, i) <==> HasBareCodeFrom(s, i)
    decreases |s| - i
  {
    if i >= |s| {
    } else if !IsWordChar(s[i]) {
      WordsFromIsBareCode(s, i + 1);
      if HasBareCodeFrom(s, i) {
        var k: nat, n: nat :| i <= k && BareCodeAt(s, k, n);
        assert s[k..k + n][0] == s[k];
        assert k != i;
        assert HasBareCodeFrom(s, i + 1);
      }
    } else {
      var j := RunEnd(s, i, IsWordChar);
      WordsFromIsBareCode(s, j);
      if j - i >= 4 && j - i <= 6 && AllDigits(s[i..j]) {
        assert BareCodeAt(s, i, j - i);
      }
      if HasBareCodeFrom(s, i) {
        var k: nat, n: nat :| i <= k && BareCodeAt(s, k, n);
        if k >= j {
          assert HasBareCodeFrom(s, j);
        } else {
          assert k == i;
          forall t | i <= t < i + n ensures IsWordChar(s[t]) {
            assert s[t] == s[i..i + n][t - i];
          }
          assert j == i + n;
          assert s[i..j] == s[i..i + n];
        }
      }
    }
  }

  lemma OtpCodeMatchesSpec(body: string)
    ensures OtpCodeMatches(body) <==> NoLineTerminator(body) && HasBareCodeFrom(body, 0)
  {
    WordsFromIsBareCode(body, 0);
  }

  /**
   * The regex test of the classifiers: "OTP" or "verification" occurs, or
   * the body is shorter than 100 characters and is one line holding a
   * whole word of 4 to 6 digits.
   */
  function OtpLike(body: string): (b: bool)
    ensures b <==>
      Occurs(body, "OTP") || Occurs(body, "verification")
      || (|body| < 100 && NoLineTerminator(body) && HasBareCodeFrom(body, 0))
  {
    OtpCodeMatchesSpec(body);
    Contains(body, "OTP") || Contains(body, "verification") || (|body| < 100 && OtpCodeMatches(body))
  }

  // ---------------------------------------------------------------- bounded repetition

  /**
   * A greedy bounded repetition backtracking: the largest end in `[lo, g]`
   * at which what follows it, `stop`, matches.
   */
  function LongestEnd(s: string, lo: nat, g: nat, stop: (string, nat) -> bool): (r: Option<nat>)
    ensures r.Some? ==>
      lo <= r.value <= g && stop(s, r.value)
      && forall h :: r.value < h <= g ==> !stop(s, h)
    ensures r.None? ==> forall h :: lo <= h <= g ==> !stop(s, h)
    decreases g
  {
    if g < lo then None
    else if stop(s, g) then Some(g)
    else if g == 0 then None
    else LongestEnd(s, lo, g - 1, stop)
  }

  /**
   * A lazy bounded repetition: the smallest end in `[g, hi]` at which what
   * follows it, `stop`, matches.
   */
  function ShortestEnd(s: string, g: nat, hi: nat, stop: (string, nat) -> bool): (r: Option<nat>)
    ensures r.Some? ==>
      g <= r.value <= hi && stop(s, r.value)
      && forall h :: g <= h < r.value ==> !stop(s, h)
    ensures r.None? ==> forall h :: g <= h <= hi ==> !stop(s, h)
    decreases hi - g
  {
    if g > hi then None
    else if stop(s, g) then Some(g)
    else ShortestEnd(s, g + 1, hi, stop)
  }

  /** Every character strictly between `q` and `h` is in the class `p`. */
  predicate ClassBetween(s: string, q: nat, h: nat, p: char -> bool) {
    h <= |s| && forall k :: q < k < h ==> p(s[k])
  }

  /** A run of the class after `q` of at most `max` characters ends within the scanner's bound. */
  lemma ClassBound(s: string, q: nat, h: nat, max: nat, p: char -> bool)
    requires q < |s| && ClassBetween(s, q, h, p) && h <= q + max
    ensures h <= Min(RunEnd(s, q + 1, p), q + max)
  {
  }

  /** No end after `e`, within `max` of `q`, that keeps the class `p` has `stop` after it. */
  ghost predicate NoStopBeyond(s: string, q: nat, e: nat, max: nat, p: char -> bool, stop: (string, nat) -> bool) {
    forall h :: e < h <= q + max && ClassBetween(s, q, h, p) ==> !stop(s, h)
  }

  /**
   * `c[p]{lo - 1,max - 1}` after a first character at `q`, greedy, then
   * `stop`: the longest end that keeps the class and that `stop` follows.
   */
  lemma GreedyRunEnd(s: string, q: nat, lo: nat, max: nat, p: char -> bool, stop: (string, nat) -> bool)
    requires q < |s| && lo >= 1
    ensures var r := LongestEnd(s, q + lo, Min(RunEnd(s, q + 1, p), q + max), stop);
      (r.Some? ==> ClassBetween(s, q, r.value, p) && NoStopBeyond(s, q, r.value, max, p, stop))
      && (r.None? ==> NoStopBeyond(s, q, q + lo - 1, max, p, stop))
  {
    forall h | q + 1 <= h <= q + max && ClassBetween(s, q, h, p)
      ensures h <= Min(RunEnd(s, q + 1, p), q + max)
    {
      ClassBound(s, q, h, max, p);
    }
  }

  /**
   * `c[p]{lo - 1,max - 1}?` after a first character at `q`, lazy, then
   * `stop`: the shortest end that keeps the class and that `stop` follows.
   */
  lemma LazyRunEnd(s: string, q: nat, lo: nat, max: nat, p: char -> bool, stop: (string, nat) -> bool)
    requires q < |s| && lo >= 1
    ensures var r := ShortestEnd(s, q + lo, Min(RunEnd(s, q + 1, p), q + max), stop);
      (r.Some? ==> ClassBetween(s, q, r.value, p))
      && (r.None? ==> NoStopBeyond(s, q, q + lo - 1, max, p, stop))
  {
    forall h | q + 1 <= h <= q + max && ClassBetween(s, q, h, p)
      ensures h <= Min(RunEnd(s, q + 1, p), q + max)
    {
      ClassBound(s, q, h, max, p);
    }
  }

  /** `\s+w` at `g` for a word `w` that does not start with whitespace. */
  predicate SpacesThen(s: string, g: nat, w: string) {
    var q := SkipSpaces(s, g);
    q > g && LitAt(s, q, w)
  }

  function Min(a: nat, b: nat): nat { if a < b then a else b }

  // ---------------------------------------------------------------- payment handles

  predicate IsHandleChar(c: char) { IsAlnum(c) || c == '@' || c == '.' || c == '-' }

  /**
   * `\s*([A-Za-z0-9@.-]+)` from `j`: a payment handle right after the
   * spaces, taken whole; none when no handle character follows them.
   */
  function HandleAt(s: string, j: nat): (r: Option<Span>)
    ensures r.Some? ==>
      SpanIn(s, r.value) && r.value.start == SkipSpaces(s, j) < r.value.end
      && (forall k :: r.value.start <= k < r.value.end ==> IsHandleChar(s[k]))
      && (r.value.end == |s| || !IsHandleChar(s[r.value.end]))
    ensures r.None? ==> SkipSpaces(s, j) >= |s| || !IsHandleChar(s[SkipSpaces(s, j)])
  {
    var w := SkipSpaces(s, j);
    var e := RunEnd(s, w, IsHandleChar);
    if e == w || e > |s| then None else Some(Span(w, e))
  }

  // ---------------------------------------------------------------- ordered pattern lists

  /** Pattern `q` of `pats` matches somewhere in `s`. */
  predicate Matches(s: string, pats: seq<(string, nat) -> Option<Span>>, q: nat)
    requires q < |pats|
  {
    Find(s, pats[q], 0).Some?
  }

  /** Declarative: pattern `q` is the first of `pats` that matches somewhere in `s`. */
  predicate FirstMatch(s: string, pats: seq<(string, nat) -> Option<Span>>, q: nat) {
    q < |pats| && Matches(s, pats, q) && forall o :: 0 <= o < q ==> !Matches(s, pats, o)
  }

  /** The first pattern of `pats` from `p` on that matches somewhere in `s`. */
  function FirstMatching(s: string, pats: seq<(string, nat) -> Option<Span>>, p: nat): (r: Option<nat>)
    requires p <= |pats|
    ensures r.Some? ==>
      p <= r.value < |pats| && Matches(s, pats, r.value)
      && forall o :: p <= o < r.value ==> !Matches(s, pats, o)
    ensures r.None? ==> forall q :: p <= q < |pats| ==> !Matches(s, pats, q)
    decreases |pats| - p
  {
    if p == |pats| then None
    else if Matches(s, pats, p) then Some(p)
    else FirstMatching(s, pats, p + 1)
  }

  /** `FirstMatching` from the start finds pattern `q` exactly when `q` is the first that matches. */
  lemma FirstMatchingIsFirstMatch(s: string, pats: seq<(string, nat) -> Option<Span>>)
    ensures FirstMatching(s, pats, 0).None? <==> forall q: nat :: !FirstMatch(s, pats, q)
    ensures forall q: nat :: FirstMatch(s, pats, q) ==> FirstMatching(s, pats, 0) == Some(q)
  {
    var r := FirstMatching(s, pats, 0);
    if r.Some? {
      assert FirstMatch(s, pats, r.value);
    }
  }
}
