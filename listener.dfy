/**
 * `NotificationListener`: the notification path's copy of the transaction
 * engine.
 *
 * It differs from the SMS path's copy in small places: fewer account
 * markers, a type window measured from index 0 when there is no account
 * mention, two fallback words, its own merchant patterns whose captures
 * go through `sanitizeMerchantName`, no repeat check, and a category-cap
 * check after every report.
 */
module Listener {
  import opened Options
  import opened Chars
  import opened Decimal
  import opened Patterns
  import opened Banks
  import opened Caps
  import opened Ledger

  // ---------------------------------------------------------------- merchant names

  /** `[\p{L}\p{N}\s&.'-]`: what the name filter keeps. */
  predicate KeptInName(c: char) {
    IsAlnum(c) || IsRegexSpace(c) || c == '&' || c == '.' || c == '\'' || c == '-'
  }

  /** The characters of a sanitised name: letters, digits, the space, and & . ' - */
  predicate NameChar(c: char) {
    IsAlnum(c) || c == ' ' || c == '&' || c == '.' || c == '\'' || c == '-'
  }

  lemma NameCharSpace(c: char)
    requires NameChar(c)
    ensures IsKotlinSpace(c) <==> c == ' '
  {
  }

  /**
   * `replace(Regex("[^\\p{L}\\p{N}\\s&.'-]"), "")`: one character is kept
   * exactly when it is in the class, and `FilterAppend` extends that to
   * any text, piece by piece, in order.
   */
  function Filter(s: string): (r: string)
    ensures |r| <= |s|
    ensures forall k :: 0 <= k < |r| ==> KeptInName(r[k])
    ensures (forall k :: 0 <= k < |s| ==> KeptInName(s[k])) ==> r == s
    ensures |s| == 1 ==> r == if KeptInName(s[0]) then s else []
  {
    if s == [] then []
    else
      var r := (if KeptInName(s[0]) then [s[0]] else []) + Filter(s[1..]);
      assert s == [s[0]] + s[1..];
      r
  }

  /** Filtering works character by character: the kept characters of each piece, in order. */
  lemma {:induction false} FilterAppend(a: string, b: string)
    ensures Filter(a + b) == Filter(a) + Filter(b)
  {
    if a == [] {
      assert a + b == b;
    } else {
      assert (a + b)[1..] == a[1..] + b;
      FilterAppend(a[1..], b);
    }
  }

  /**
   * `replace(Regex("\\s+"), " ")`: each run of whitespace becomes one
   * space; a single other character stays, and `CollapseAppend` puts the
   * pieces back together in order.
   */
  function Collapse(s: string): (r: string)
    ensures |r| <= |s|
    ensures s != [] && (forall k :: 0 <= k < |s| ==> IsRegexSpace(s[k])) ==> r == " "
    ensures |s| == 1 && !IsRegexSpace(s[0]) ==> r == s
    ensures forall k :: 0 <= k < |r| ==> r[k] == ' ' || (r[k] in s && !IsRegexSpace(r[k]))
    ensures forall k :: 0 <= k < |r| - 1 ==> !(r[k] == ' ' && r[k + 1] == ' ')
    ensures r != [] && r[0] == ' ' ==> IsRegexSpace(s[0])
    decreases |s|
  {
    if s == [] then []
    else if IsRegexSpace(s[0]) then
      var j := SkipSpaces(s, 0);
      var rest := Collapse(s[j..]);
      assert rest != [] ==> rest[0] != ' ';
      [' '] + rest
    else
      var rest := Collapse(s[1..]);
      assert forall k :: 0 <= k < |rest| && rest[k] in s[1..] ==> rest[k] in s;
      [s[0]] + rest
  }

  /**
   * Collapsing two pieces that do not split a whitespace run is collapsing
   * each of them.
   */
  lemma {:induction false} CollapseAppend(a: string, b: string)
    requires a == [] || b == [] || !IsRegexSpace(a[|a| - 1]) || !IsRegexSpace(b[0])
    ensures Collapse(a + b) == Collapse(a) + Collapse(b)
    decreases |a|
  {
    if a == [] {
      assert a + b == b;
    } else if b == [] {
      assert a + b == a;
    } else if !IsRegexSpace(a[0]) {
      CollapseAppend(a[1..], b);
      CollapseLeadingChar(a, b);
    } else if SkipSpaces(a, 0) < |a| {
      CollapseAppend(a[SkipSpaces(a, 0)..], b);
      CollapseLeadingRun(a, b);
    } else {
      CollapseAllSpaces(a, b);
    }
  }

  /** A leading non-space stays in front. */
  lemma CollapseLeadingChar(a: string, b: string)
    requires a != [] && !IsRegexSpace(a[0])
    requires Collapse(a[1..] + b) == Collapse(a[1..]) + Collapse(b)
    ensures Collapse(a + b) == Collapse(a) + Collapse(b)
  {
    RunInsidePrefix(a, b, 1);
    CollapseCharHead(a + b);
    CollapseCharHead(a);
    AppendAssoc([a[0]], Collapse(a[1..]), Collapse(b));
  }

  /** A leading non-space is kept. */
  lemma CollapseCharHead(s: string)
    requires s != [] && !IsRegexSpace(s[0])
    ensures Collapse(s) == [s[0]] + Collapse(s[1..])
  {
  }

  /** A leading whitespace run that ends inside `a` ends at the same place in `a + b`. */
  lemma CollapseLeadingRun(a: string, b: string)
    requires a != [] && IsRegexSpace(a[0]) && SkipSpaces(a, 0) < |a|
    requires Collapse(a[SkipSpaces(a, 0)..] + b) == Collapse(a[SkipSpaces(a, 0)..]) + Collapse(b)
    ensures Collapse(a + b) == Collapse(a) + Collapse(b)
  {
    var ja := SkipSpaces(a, 0);
    SpacesEndInside(a, b);
    RunInsidePrefix(a, b, ja);
    CollapseSpaceHead(a + b);
    CollapseSpaceHead(a);
    AppendAssoc([' '], Collapse(a[ja..]), Collapse(b));
  }

  lemma RunInsidePrefix(a: string, b: string, ja: nat)
    requires a != [] && ja <= |a|
    ensures (a + b)[0] == a[0] && (a + b)[ja..] == a[ja..] + b
  {
  }

  lemma AppendAssoc(x: string, y: string, z: string)
    ensures x + (y + z) == (x + y) + z
  {
  }

  /** A leading whitespace run collapses to one space. */
  lemma CollapseSpaceHead(s: string)
    requires s != [] && IsRegexSpace(s[0])
    ensures Collapse(s) == [' '] + Collapse(s[SkipSpaces(s, 0)..])
  {
  }

  lemma SpacesEndInside(a: string, b: string)
    requires SkipSpaces(a, 0) < |a|
    ensures SkipSpaces(a + b, 0) == SkipSpaces(a, 0)
  {
    var ja := SkipSpaces(a, 0);
    assert (a + b)[ja] == a[ja];
    assert forall k :: 0 <= k < ja ==> (a + b)[k] == a[k];
  }

  /** An all-whitespace `a` followed by a non-space collapses to one space in front of `b`'s collapse. */
  lemma CollapseAllSpaces(a: string, b: string)
    requires a != [] && b != [] && SkipSpaces(a, 0) == |a| && !IsRegexSpace(b[0])
    ensures Collapse(a + b) == Collapse(a) + Collapse(b)
  {
    assert (a + b)[|a|] == b[0];
    assert SkipSpaces(a + b, 0) == |a|;
    assert (a + b)[|a|..] == b;
    assert a[|a|..] == [];
  }

  /** A text whose only whitespace is single spaces collapses to itself. */
  lemma {:induction false} CollapseOfCollapsed(s: string)
    requires forall k :: 0 <= k < |s| ==> (IsRegexSpace(s[k]) ==> s[k] == ' ')
    requires forall k :: 0 <= k < |s| - 1 ==> !(s[k] == ' ' && s[k + 1] == ' ')
    ensures Collapse(s) == s
  {
    if s != [] {
      CollapseOfCollapsed(s[1..]);
      if IsRegexSpace(s[0]) {
        assert SkipSpaces(s, 0) == 1;
      }
      assert s == [s[0]] + s[1..];
    }
  }

  /** `take(n)`. */
  function Take(s: string, n: nat): (r: string)
    ensures |r| <= n && |r| <= |s| && r == s[..|r|]
    ensures |s| <= n ==> r == s
  {
    if |s| <= n then s else s[..n]
  }

  predicate NameChars(s: string) {
    forall k :: 0 <= k < |s| ==> NameChar(s[k])
  }

  /** No two spaces in a row. */
  predicate SingleSpaced(s: string) {
    forall k :: 0 <= k < |s| - 1 ==> !(s[k] == ' ' && s[k + 1] == ' ')
  }

  /** Filtering then collapsing leaves only name characters, single-spaced. */
  lemma CollapsedFilterIsClean(merchant: string)
    ensures NameChars(Collapse(Filter(merchant))) && SingleSpaced(Collapse(Filter(merchant)))
  {
    var f := Filter(merchant);
    var c := Collapse(f);
    forall k | 0 <= k < |c| ensures NameChar(c[k]) {
      if c[k] != ' ' {
        var i :| 0 <= i < |f| && f[i] == c[k];
        assert KeptInName(f[i]);
      }
    }
  }

  /** A piece of a clean name is clean. */
  lemma CleanSlice(s: string, i: nat, j: nat)
    requires NameChars(s) && SingleSpaced(s) && i <= j <= |s|
    ensures NameChars(s[i..j]) && SingleSpaced(s[i..j])
  {
    assert forall k :: 0 <= k < j - i ==> s[i..j][k] == s[i + k];
  }

  /** For name characters, Kotlin's whitespace is just the space. */
  lemma NameCharsSpaces(s: string)
    requires NameChars(s)
    ensures forall k :: 0 <= k < |s| ==> (IsKotlinSpace(s[k]) <==> s[k] == ' ')
    ensures forall k :: 0 <= k < |s| ==> (IsRegexSpace(s[k]) <==> s[k] == ' ')
  {
    forall k | 0 <= k < |s| ensures IsKotlinSpace(s[k]) <==> s[k] == ' ' {
      NameCharSpace(s[k]);
    }
  }

  /** Trimming a clean name leaves it clean. */
  lemma TrimIsClean(c: string)
    requires NameChars(c) && SingleSpaced(c)
    ensures NameChars(Trim(c)) && SingleSpaced(Trim(c))
  {
    var i, j :| 0 <= i <= j <= |c| && Trim(c) == c[i..j];
    CleanSlice(c, i, j);
  }

  /** `sanitizeMerchantName`: filter, collapse whitespace, trim, and cut to 50 characters. */
  function Sanitize(merchant: string): (r: string)
    ensures |r| <= 50
    ensures NameChars(r) && SingleSpaced(r)
    ensures r == [] || !IsKotlinSpace(r[0])
  {
    CollapsedFilterIsClean(merchant);
    TrimIsClean(Collapse(Filter(merchant)));
    var t := Trim(Collapse(Filter(merchant)));
    CleanSlice(t, 0, |Take(t, 50)|);
    Take(t, 50)
  }

  /** A sanitised name has no two whitespace characters in a row either. */
  lemma SanitizedSpacing(merchant: string)
    ensures var r := Sanitize(merchant);
      forall k :: 0 <= k < |r| - 1 ==> !(IsKotlinSpace(r[k]) && IsKotlinSpace(r[k + 1]))
  {
    NameCharsSpaces(Sanitize(merchant));
  }

  /** A clean name passes the filter and the whitespace collapse unchanged. */
  lemma CleanNameIsKept(s: string)
    requires NameChars(s) && SingleSpaced(s)
    ensures Collapse(Filter(s)) == s
  {
    assert forall k :: 0 <= k < |s| ==> KeptInName(s[k]);
    NameCharsSpaces(s);
    CollapseOfCollapsed(s);
  }

  /** A clean name trims to itself, less one trailing space if it ends in one. */
  lemma TrimCleanName(s: string)
    requires NameChars(s) && SingleSpaced(s) && (s == [] || s[0] != ' ')
    ensures Trim(s) == if s != [] && s[|s| - 1] == ' ' then s[..|s| - 1] else s
  {
    NameCharsSpaces(s);
    if s != [] && s[|s| - 1] == ' ' {
      var cut := s[..|s| - 1];
      assert |s| >= 2 && s[|s| - 2] != ' ';
      assert TrimStart(s) == s;
      assert TrimEnd(cut) == cut;
      assert TrimEnd(s) == TrimEnd(cut);
    } else {
      TrimOfTrimmed(s);
    }
  }

  /** A clean name of at most 50 characters only loses a trailing space to sanitising. */
  lemma SanitizeCleanName(s: string)
    requires NameChars(s) && SingleSpaced(s) && (s == [] || s[0] != ' ') && |s| <= 50
    ensures Sanitize(s) == if s != [] && s[|s| - 1] == ' ' then s[..|s| - 1] else s
  {
    CleanNameIsKept(s);
    TrimCleanName(s);
  }

  /**
   * Sanitising a sanitised name changes it at most by dropping one
   * trailing space, and that space can only be there when the 50-character
   * cut fell right after a space inside a longer name.
   */
  lemma SanitizeTwice(merchant: string)
    ensures var once := Sanitize(merchant);
      Sanitize(once) == (if once != [] && once[|once| - 1] == ' ' then once[..|once| - 1] else once)
    ensures var once := Sanitize(merchant);
      once != [] && once[|once| - 1] == ' ' ==> |Trim(Collapse(Filter(merchant)))| > 50
  {
    var once := Sanitize(merchant);
    NameCharsSpaces(once);
    SanitizeCleanName(once);
    ShortNameEndsClean(merchant);
  }

  /** When the trimmed name fits in 50 characters, the sanitised name does not end in a space. */
  lemma ShortNameEndsClean(merchant: string)
    ensures |Trim(Collapse(Filter(merchant)))| <= 50 ==>
      var once := Sanitize(merchant);
      once == [] || once[|once| - 1] != ' '
  {
    var full := Trim(Collapse(Filter(merchant)));
    if |full| <= 50 {
      assert Sanitize(merchant) == full;
    }
  }

  // ---------------------------------------------------------------- classifier

  /** `isTransactionMessage` of this copy: only "A/c", "A/C" and "account" count as account mentions. */
  function IsTransactionMessage(sender: string, body: string): (b: bool)
    ensures b <==>
      (Occurs(body, "A/c") || Occurs(body, "A/C") || Occurs(body, "account"))
      && (Occurs(body, "debited") || Occurs(body, "credited"))
      && !(Occurs(body, "OTP") || Occurs(body, "verification")
           || (|body| < 100 && NoLineTerminator(body) && HasBareCodeFrom(body, 0)))
  {
    var hasAccount := Contains(body, "A/c") || Contains(body, "A/C") || Contains(body, "account");
    var hasTransactionType := Contains(body, "debited") || Contains(body, "credited");
    hasAccount && hasTransactionType && !OtpLike(body)
  }

  // ---------------------------------------------------------------- account and type

  const AccountKeywords: seq<string> := ["A/c", "A/C", "account", "card", "a/c no"]

  /** `(?:A/c|A/C|account|card|a/c no)\s*(?:no\.?|number)?\s*[Xx*]*([0-9]{4})` at `i`. */
  function AccountMatchAt(s: string, i: nat): (r: Option<Span>)
    ensures r.Some? ==> |Slice(s, r.value)| == 4 && AllDigits(Slice(s, r.value))
  {
    AccountAt(s, i, AccountKeywords)
  }

  /**
   * The account suffix: the four digits the leftmost account mention
   * captures (after its keyword, number word, spaces and masks), or "****".
   */
  function AccountOf(body: string): (r: string)
    ensures r == "****" <==> Find(body, AccountMatchAt, 0).None?
    ensures Find(body, AccountMatchAt, 0).Some? ==>
      r == Slice(body, Find(body, AccountMatchAt, 0).value.group)
    ensures r == "****" || (|r| == 4 && AllDigits(r))
  {
    match Find(body, AccountMatchAt, 0)
    case None => "****"
    case Some(m) =>
      assert AccountMatchAt(body, m.at) == Some(m.group);
      assert IsDigit(Slice(body, m.group)[0]);
      Slice(body, m.group)
  }

  /** Where the leftmost account mention starts, or 0 when there is none. */
  function AccountIndex(body: string): nat {
    match Find(body, AccountMatchAt, 0)
    case None => 0
    case Some(m) => m.at
  }

  /** The type cascade of this copy's `parseTransaction`. */
  function TypeOf(body: string): Kind {
    var accountIndex := AccountIndex(body);
    var debitedIndex := IndexOf(body, "debited", 0);
    var creditedIndex := IndexOf(body, "credited", 0);
    if 0 <= debitedIndex <= accountIndex + 50 then Debit
    else if 0 <= creditedIndex <= accountIndex + 50 then Credit
    else if Contains(body, "spent") then Debit
    else if Contains(body, "received") then Credit
    else Unknown
  }

  /** The first occurrence of `word` lies at most 50 after the account mention (or after index 0). */
  ghost predicate NearAccount(body: string, word: string) {
    exists k: nat :: FirstAt(body, word, k) && k <= AccountIndex(body) + 50
  }

  /**
   * The precedence of this copy's type decision: with no account mention
   * the window is the first 51 positions, and the only fallbacks are
   * "spent" and "received".
   */
  lemma TypePrecedence(body: string)
    ensures Find(body, AccountMatchAt, 0).None? ==>
      (NearAccount(body, "debited") <==> exists k: nat :: FirstAt(body, "debited", k) && k <= 50)
    ensures NearAccount(body, "debited") ==> TypeOf(body) == Debit
    ensures !NearAccount(body, "debited") && NearAccount(body, "credited") ==> TypeOf(body) == Credit
    ensures !NearAccount(body, "debited") && !NearAccount(body, "credited") && Occurs(body, "spent")
      ==> TypeOf(body) == Debit
    ensures !NearAccount(body, "debited") && !NearAccount(body, "credited") && !Occurs(body, "spent")
      && Occurs(body, "received")
      ==> TypeOf(body) == Credit
    ensures !NearAccount(body, "debited") && !NearAccount(body, "credited") && !Occurs(body, "spent")
      && !Occurs(body, "received")
      ==> TypeOf(body) == Unknown
  {
    NearIsIndex(body, "debited");
    NearIsIndex(body, "credited");
  }

  /** `NearAccount` is the range test the cascade makes with `indexOf`. */
  lemma NearIsIndex(body: string, word: string)
    ensures NearAccount(body, word) <==> 0 <= IndexOf(body, word, 0) <= AccountIndex(body) + 50
  {
    var i := IndexOf(body, word, 0);
    if i >= 0 {
      IndexOfIsFirst(body, word, i);
    }
    if NearAccount(body, word) {
      var k: nat :| FirstAt(body, word, k) && k <= AccountIndex(body) + 50;
      IndexOfIsFirst(body, word, k);
    }
  }

  // ---------------------------------------------------------------- merchant

  predicate IsToAtChar(c: char) {
    IsAlnum(c) || IsRegexSpace(c) || c == '&' || c == '.' || c == '\'' || c == '-'
  }

  /** `(?:\s+on|\s+via|\.|,|\s+for)` at `g`. */
  predicate ToAtStop(s: string, g: nat) {
    SpacesThen(s, g, "on") || SpacesThen(s, g, "via")
    || (g < |s| && (s[g] == '.' || s[g] == ',')) || SpacesThen(s, g, "for")
  }

  /**
   * `\s+([A-Za-z0-9][A-Za-z0-9\s&.'-]{2,40}?)(?:\s+on|\s+via|\.|,|\s+for)`
   * after "to" or "at" ending at `e`: the shortest capture that a
   * terminator follows.
   */
  function ToAtRest(s: string, e: nat): (r: Option<Span>)
    ensures r.Some? ==>
      SpanIn(s, r.value) && e < r.value.start == SkipSpaces(s, e)
      && r.value.start + 3 <= r.value.end <= r.value.start + 41
      && IsAlnum(s[r.value.start]) && ToAtStop(s, r.value.end)
      && ClassBetween(s, r.value.start, r.value.end, IsToAtChar)
      && forall h :: r.value.start + 3 <= h < r.value.end ==> !ToAtStop(s, h)
    ensures r.None? && e < SkipSpaces(s, e) < |s| && IsAlnum(s[SkipSpaces(s, e)]) ==>
      var q := SkipSpaces(s, e);
      NoStopBeyond(s, q, q + 2, 41, IsToAtChar, ToAtStop)
  {
    var q := SkipSpaces(s, e);
    if q == e || q >= |s| || !IsAlnum(s[q]) then None
    else
      LazyRunEnd(s, q, 3, 41, IsToAtChar, ToAtStop);
      var top := Min(RunEnd(s, q + 1, IsToAtChar), q + 41);
      match ShortestEnd(s, q + 3, top, ToAtStop)
      case None => None
      case Some(g) => Some(Span(q, g))
  }

  /** `(?:to|at)\s+([A-Za-z0-9][A-Za-z0-9\s&.'-]{2,40}?)(?:\s+on|\s+via|\.|,|\s+for)` at `i`. */
  function ToAtAt(s: string, i: nat): Option<Span> {
    FirstOf(s, Tails(s, i, ["to", "at"]), ToAtRest)
  }

  /** `\s+([A-Za-z0-9@.-]+)` after "VPA", "UPI" or "UPI ID" ending at `e`. */
  function HandleRest(s: string, e: nat): Option<Span> {
    if SkipSpaces(s, e) == e then None else HandleAt(s, e)
  }

  /** `(?:VPA|UPI|UPI ID)\s+([A-Za-z0-9@.-]+)` at `i`. */
  function VpaAt(s: string, i: nat): Option<Span> {
    FirstOf(s, Tails(s, i, ["VPA", "UPI", "UPI ID"]), HandleRest)
  }

  /** The merchant patterns of this copy, in the order they are tried. */
  const MerchantPatterns: seq<(string, nat) -> Option<Span>> := [TowardsAt, ToAtAt, VpaAt]

  /**
   * `extractMerchant` of this copy: the sanitised capture of the first
   * pattern that matches anywhere in the body, or "Unknown" when none does.
   */
  function MerchantOf(body: string): (r: string)
    ensures (forall q :: 0 <= q < |MerchantPatterns| ==> !Matches(body, MerchantPatterns, q)) ==> r == "Unknown"
    ensures forall q: nat :: FirstMatch(body, MerchantPatterns, q) ==>
      r == Sanitize(Slice(body, Find(body, MerchantPatterns[q], 0).value.group))
    ensures FirstMatching(body, MerchantPatterns, 0).Some? ==>
      |r| <= 50 && NameChars(r) && SingleSpaced(r) && (r == [] || !IsKotlinSpace(r[0]))
  {
    FirstMatchingIsFirstMatch(body, MerchantPatterns);
    match FirstMatching(body, MerchantPatterns, 0)
    case None => "Unknown"
    case Some(q) => Sanitize(Slice(body, Find(body, MerchantPatterns[q], 0).value.group))
  }

  // ---------------------------------------------------------------- parse

  /** `parseTransaction(sender, body)` of this copy, stamped with `now`. */
  function Parse(sender: string, body: string, now: int): (r: Option<Transaction>)
    ensures r.None? <==> AmountOf(body).None?
    ensures r.Some? ==>
      r.value.amount == AmountOf(body).value && r.value.timestamp == now
      && r.value.kind == TypeOf(body) && r.value.account == AccountOf(body)
      && r.value.merchant == MerchantOf(body) && r.value.balance == BalanceOf(body)
      && r.value.bank == BankFromSender(sender)
  {
    match AmountOf(body)
    case None => None
    case Some(amount) =>
      Some(Transaction(TypeOf(body), amount, BankFromSender(sender), AccountOf(body),
                       MerchantOf(body), BalanceOf(body), now))
  }

  // ---------------------------------------------------------------- handling

  /** The notification a cap check raises, as events. */
  function CapEvents(store: FlutterStore, category: string, periodOf: int -> Period, now: int): seq<Event> {
    match CapAlertFor(store, category, periodOf, now)
    case None => []
    case Some(a) => [CapNotice(a)]
  }

  /** The ledger after `handleSmsNotification` for a notification from `sender` reading `body`. */
  function SmsLedger(ledger: seq<Entry>, memory: map<string, string>, sender: string, body: string, now: int)
    : seq<Entry>
  {
    if !IsTransactionMessage(sender, body) then ledger
    else
      match Parse(sender, body, now)
      case None => ledger
      case Some(t) => Saved(ledger, t, CategoryFor(memory, t))
  }

  /** The categorisation request made when no category is remembered for the merchant. */
  function PopupEvents(memory: map<string, string>, t: Transaction): seq<Event> {
    if SavedCategory(memory, t.merchant).None? then [CategorizationRequested(PopupExtras(t))] else []
  }

  /** The events of `sendTransactionToFlutter(t, category)`: the report, then the cap check. */
  function SentEvents(store: FlutterStore, periodOf: int -> Period, t: Transaction, category: string, now: int)
    : seq<Event>
  {
    [TransactionReported(t, category)] + CapEvents(store, category, periodOf, now)
  }

  /** The events of handling a parsed transaction `t`, in order. */
  function ReportEvents(memory: map<string, string>, store: FlutterStore, periodOf: int -> Period,
                        t: Transaction, now: int): seq<Event>
  {
    PopupEvents(memory, t) + SentEvents(store, periodOf, t, CategoryFor(memory, t), now)
  }

  /** A remembered category means no popup: the report, then that category's cap check. */
  lemma ReportWithSavedCategory(memory: map<string, string>, store: FlutterStore, periodOf: int -> Period,
                                t: Transaction, now: int, category: string)
    requires SavedCategory(memory, t.merchant) == Some(category)
    ensures CategoryFor(memory, t) == category
    ensures ReportEvents(memory, store, periodOf, t, now)
      == [TransactionReported(t, category)] + CapEvents(store, category, periodOf, now)
  {
    assert CategoryFor(memory, t) == category;
  }

  /** Without a remembered category: the popup, the "Uncategorized" report, then that cap check. */
  lemma ReportWithoutSavedCategory(memory: map<string, string>, store: FlutterStore, periodOf: int -> Period,
                                   t: Transaction, now: int)
    requires SavedCategory(memory, t.merchant).None?
    ensures CategoryFor(memory, t) == "Uncategorized"
    ensures ReportEvents(memory, store, periodOf, t, now)
      == [CategorizationRequested(PopupExtras(t)), TransactionReported(t, "Uncategorized")]
         + CapEvents(store, "Uncategorized", periodOf, now)
  {
    assert CategoryFor(memory, t) == "Uncategorized";
  }

  /** The events of `handleSmsNotification`, in order. */
  function SmsEvents(memory: map<string, string>, store: FlutterStore, periodOf: int -> Period,
                     sender: string, body: string, now: int): seq<Event>
  {
    if !IsTransactionMessage(sender, body) then []
    else
      match Parse(sender, body, now)
      case None => []
      case Some(t) => ReportEvents(memory, store, periodOf, t, now)
  }

  /**
   * This copy has no repeat check: the same notification delivered twice
   * is stored twice (unless it is income or is not a transaction).
   */
  lemma RepeatsAreStoredTwice(ledger: seq<Entry>, memory: map<string, string>, sender: string, body: string, now: int)
    requires IsTransactionMessage(sender, body) && Parse(sender, body, now).Some?
    requires Parse(sender, body, now).value.kind != Credit
    ensures |SmsLedger(SmsLedger(ledger, memory, sender, body, now), memory, sender, body, now)| == |ledger| + 2
  {
  }

  /** A message that is not a transaction, or has no amount, changes nothing and reports nothing. */
  lemma IgnoredMessages(ledger: seq<Entry>, memory: map<string, string>, store: FlutterStore,
                        periodOf: int -> Period, sender: string, body: string, now: int)
    requires !IsTransactionMessage(sender, body) || AmountOf(body).None?
    ensures SmsLedger(ledger, memory, sender, body, now) == ledger
    ensures SmsEvents(memory, store, periodOf, sender, body, now) == []
  {
  }

  class NotificationListener {
    const prefs: Prefs
    const sink: EventSink
    /** The Flutter-side preference store, read by the cap check. */
    const flutter: FlutterStore
    /** The calendar: the month and year of an instant. */
    const periodOf: int -> Period

    constructor(prefs: Prefs, sink: EventSink, flutter: FlutterStore, periodOf: int -> Period)
      ensures this.prefs == prefs && this.sink == sink
      ensures this.flutter == flutter && this.periodOf == periodOf
    {
      this.prefs := prefs;
      this.sink := sink;
      this.flutter := flutter;
      this.periodOf := periodOf;
    }

    /** `checkCategoryCapAndNotify(category)` at instant `now`. */
    method CheckCategoryCapAndNotify(category: string, now: int)
      modifies sink
      ensures sink.events == old(sink.events) + CapEvents(flutter, category, periodOf, now)
    {
      if flutter.categoryCaps.None? {
        return;
      }
      var categoryCaps := flutter.categoryCaps.value;
      if category !in categoryCaps {
        return;
      }
      var capConfig := categoryCaps[category];
      if capConfig.None? || capConfig.value.kind.None? || capConfig.value.value.None? {
        return;
      }
      if flutter.monthlyIncome.None? {
        return;
      }
      var capAmount := CapAmount(capConfig.value.kind.value, capConfig.value.value.value,
                                 flutter.monthlyIncome.value);
      var currentMonthSpending := GetCurrentMonthSpending(flutter, category, periodOf, now);
      var percentageUsed := PercentUsed(currentMonthSpending, capAmount);
      var level := BandOf(percentageUsed);
      if level.Some? {
        sink.Emit(CapNotice(Alert(category, currentMonthSpending, capAmount, percentageUsed, level.value)));
      }
    }

    /** `sendTransactionToFlutter`: store, report, then check the category's cap. */
    method SendTransactionToFlutter(t: Transaction, category: string, now: int)
      modifies prefs, sink
      ensures prefs.transactions == Saved(old(prefs.transactions), t, category)
      ensures prefs.merchantCategories == old(prefs.merchantCategories)
      ensures sink.events == old(sink.events) + SentEvents(flutter, periodOf, t, category, now)
    {
      prefs.SaveTransactionLocally(t, category);
      sink.Emit(TransactionReported(t, category));
      CheckCategoryCapAndNotify(category, now);
    }

    /** `showCategorizationPopup`: asks for the category picker with the transaction's extras. */
    method ShowCategorizationPopup(t: Transaction)
      modifies sink
      ensures sink.events == old(sink.events) + [CategorizationRequested(PopupExtras(t))]
    {
      sink.Emit(CategorizationRequested(PopupExtras(t)));
    }

    /** The part of `handleSmsNotification` after a transaction `t` has been parsed. */
    method HandleTransaction(t: Transaction, now: int)
      modifies prefs, sink
      ensures prefs.transactions
        == Saved(old(prefs.transactions), t, CategoryFor(old(prefs.merchantCategories), t))
      ensures prefs.merchantCategories == old(prefs.merchantCategories)
      ensures sink.events
        == old(sink.events) + ReportEvents(old(prefs.merchantCategories), flutter, periodOf, t, now)
    {
      var savedCategory := SavedCategory(prefs.merchantCategories, t.merchant);
      if savedCategory.None? {
        ShowCategorizationPopup(t);
      }
      SendTransactionToFlutter(t, savedCategory.GetOr("Uncategorized"), now);
    }

    /** `handleSmsNotification` for a notification from `sender` reading `body`, at instant `now`. */
    method HandleSmsNotification(sender: string, body: string, now: int)
      modifies prefs, sink
      ensures prefs.transactions
        == SmsLedger(old(prefs.transactions), old(prefs.merchantCategories), sender, body, now)
      ensures prefs.merchantCategories == old(prefs.merchantCategories)
      ensures sink.events
        == old(sink.events) + SmsEvents(old(prefs.merchantCategories), flutter, periodOf, sender, body, now)
    {
      if IsTransactionMessage(sender, body) {
        var transaction := Parse(sender, body, now);
        if transaction.Some? {
          HandleTransaction(transaction.value, now);
        }
      }
    }
  }
}
