/**
 * `NotificationParser`: the SMS path's copy of the transaction engine.
 *
 * It recognises a transaction message, pulls out its fields, and hands
 * the result to the ledger: a repeat of a recent entry is dropped, a
 * remembered merchant is categorised at once, any other one is reported
 * as "Uncategorized" and the category picker is requested.
 */
module Parser {
  import opened Options
  import opened Chars
  import opened Decimal
  import opened Patterns
  import opened Banks
  import opened Ledger

  // ---------------------------------------------------------------- classifier

  /** `isTransactionMessage`: an account mention, a debit or credit word, and nothing OTP-like. */
  function IsTransactionMessage(sender: string, body: string): (b: bool)
    ensures b <==>
      (Occurs(body, "A/c") || Occurs(body, "A/C") || Occurs(body, "account")
       || Occurs(body, "Acct") || Occurs(body, "card"))
      && (Occurs(body, "debited") || Occurs(body, "credited"))
      && !(Occurs(body, "OTP") || Occurs(body, "verification")
           || (|body| < 100 && NoLineTerminator(body) && HasBareCodeFrom(body, 0)))
  {
    var hasAccount := Contains(body, "A/c") || Contains(body, "A/C") || Contains(body, "account")
      || Contains(body, "Acct") || Contains(body, "card");
    var hasTransactionType := Contains(body, "debited") || Contains(body, "credited");
    hasAccount && hasTransactionType && !OtpLike(body)
  }

  /** A body mentioning "OTP" or "verification" is never a transaction. */
  lemma OtpWordsRejected(sender: string, body: string)
    requires Occurs(body, "OTP") || Occurs(body, "verification")
    ensures !IsTransactionMessage(sender, body)
  {
  }

  // ---------------------------------------------------------------- account and type

  const AccountKeywords: seq<string> := ["A/c", "A/C", "Acct", "account", "card", "a/c no"]

  /** `(?:A/c|A/C|Acct|account|card|a/c no)\s*(?:no\.?|number)?\s*[Xx*]*([0-9]{4})` at `i`. */
  function AccountMatchAt(s: string, i: nat): (r: Option<Span>)
    ensures r.Some? ==> |Slice(s, r.value)| == 4 && AllDigits(Slice(s, r.value))
  {
    AccountAt(s, i, AccountKeywords)
  }

  /**
   * The account suffix: the four digits the leftmost account mention
   * captures (after its keyword, number word, spaces and masks), or "****".
   */
  function AccountOf(body: string): (r: string)
    ensures r == "****" <==> Find(body, AccountMatchAt, 0).None?
    ensures Find(body, AccountMatchAt, 0).Some? ==>
      r == Slice(body, Find(body, AccountMatchAt, 0).value.group)
    ensures r == "****" || (|r| == 4 && AllDigits(r))
  {
    match Find(body, AccountMatchAt, 0)
    case None => "****"
    case Some(m) =>
      assert AccountMatchAt(body, m.at) == Some(m.group);
      assert IsDigit(Slice(body, m.group)[0]);
      Slice(body, m.group)
  }

  /** Where the leftmost account mention starts, or -1. */
  function AccountIndex(body: string): int {
    match Find(body, AccountMatchAt, 0)
    case None => -1
    case Some(m) => m.at
  }

  /** The type cascade of `parseTransaction`. */
  function TypeOf(body: string): Kind {
    var accountIndex := AccountIndex(body);
    var debitedIndex := IndexOf(body, "debited", 0);
    var creditedIndex := IndexOf(body, "credited", 0);
    if debitedIndex >= 0 && (accountIndex < 0 || debitedIndex <= accountIndex + 50) then Debit
    else if creditedIndex >= 0 && (accountIndex < 0 || creditedIndex <= accountIndex + 50) then Credit
    else if Contains(body, "spent") || Contains(body, "paid") || Contains(body, "withdrawn") then Debit
    else if Contains(body, "received") || Contains(body, "deposited") then Credit
    else Unknown
  }

  /** The first occurrence of `word` lies at most 50 after the account mention, or there is no such mention. */
  ghost predicate NearAccount(body: string, word: string) {
    exists k: nat :: FirstAt(body, word, k) && (AccountIndex(body) < 0 || k <= AccountIndex(body) + 50)
  }

  /** The five-step precedence of the type decision. */
  lemma TypePrecedence(body: string)
    ensures NearAccount(body, "debited") ==> TypeOf(body) == Debit
    ensures !NearAccount(body, "debited") && NearAccount(body, "credited") ==> TypeOf(body) == Credit
    ensures !NearAccount(body, "debited") && !NearAccount(body, "credited")
      && (Occurs(body, "spent") || Occurs(body, "paid") || Occurs(body, "withdrawn"))
      ==> TypeOf(body) == Debit
    ensures !NearAccount(body, "debited") && !NearAccount(body, "credited")
      && !(Occurs(body, "spent") || Occurs(body, "paid") || Occurs(body, "withdrawn"))
      && (Occurs(body, "received") || Occurs(body, "deposited"))
      ==> TypeOf(body) == Credit
    ensures !NearAccount(body, "debited") && !NearAccount(body, "credited")
      && !(Occurs(body, "spent") || Occurs(body, "paid") || Occurs(body, "withdrawn"))
      && !(Occurs(body, "received") || Occurs(body, "deposited"))
      ==> TypeOf(body) == Unknown
  {
    NearIsIndex(body, "debited");
    NearIsIndex(body, "credited");
  }

  /** `NearAccount` is the test the cascade makes with `indexOf`. */
  lemma NearIsIndex(body: string, word: string)
    ensures NearAccount(body, word) <==>
      var i := IndexOf(body, word, 0);
      i >= 0 && (AccountIndex(body) < 0 || i <= AccountIndex(body) + 50)
  {
    var i := IndexOf(body, word, 0);
    if i >= 0 {
      IndexOfIsFirst(body, word, i);
    }
    if NearAccount(body, word) {
      var k: nat :| FirstAt(body, word, k) && (AccountIndex(body) < 0 || k <= AccountIndex(body) + 50);
      IndexOfIsFirst(body, word, k);
    }
  }

  // ---------------------------------------------------------------- merchant

  predicate IsToAtChar(c: char) {
    IsAsciiLetter(c) || IsRegexSpace(c) || c == '&' || c == '.' || c == '\'' || c == '-'
  }

  /** `(?:\s+on|\s+via|\.|,)` at `g`. */
  predicate ToAtStop(s: string, g: nat) {
    SpacesThen(s, g, "on") || SpacesThen(s, g, "via") || (g < |s| && (s[g] == '.' || s[g] == ','))
  }

  /**
   * `\s+([A-Z][A-Za-z\s&.'-]{3,40})(?:\s+on|\s+via|\.|,)` after "to" or "at"
   * ending at `e`: right after the spaces, a letter and 3 to 40 characters
   * of the class, as many as still leave a terminator after them.
   */
  function ToAtRest(s: string, e: nat): (r: Option<Span>)
    ensures r.Some? ==>
      SpanIn(s, r.value) && e < r.value.start == SkipSpaces(s, e)
      && r.value.start + 4 <= r.value.end <= r.value.start + 41
      && IsAsciiLetter(s[r.value.start]) && ToAtStop(s, r.value.end)
      && ClassBetween(s, r.value.start, r.value.end, IsToAtChar)
      && NoStopBeyond(s, r.value.start, r.value.end, 41, IsToAtChar, ToAtStop)
    ensures r.None? && e < SkipSpaces(s, e) < |s| && IsAsciiLetter(s[SkipSpaces(s, e)]) ==>
      var q := SkipSpaces(s, e);
      NoStopBeyond(s, q, q + 3, 41, IsToAtChar, ToAtStop)
  {
    var q := SkipSpaces(s, e);
    if q == e || q >= |s| || !IsAsciiLetter(s[q]) then None
    else
      GreedyRunEnd(s, q, 4, 41, IsToAtChar, ToAtStop);
      var top := Min(RunEnd(s, q + 1, IsToAtChar), q + 41);
      match LongestEnd(s, q + 4, top, ToAtStop)
      case None => None
      case Some(g) => Some(Span(q, g))
  }

  /** `(?:to|at)\s+([A-Z][A-Za-z\s&.'-]{3,40})(?:\s+on|\s+via|\.|,)` at `i`. */
  function ToAtAt(s: string, i: nat): Option<Span> {
    FirstOf(s, Tails(s, i, ["to", "at"]), ToAtRest)
  }

  predicate IsNameChar(c: char) { IsAsciiLetter(c) || IsRegexSpace(c) }

  predicate CreditedStop(s: string, g: nat) { SpacesThen(s, g, "credited") }

  /**
   * `;\s*([A-Z][A-Za-z\s]{2,30})\s+credited` at `i`: after ";" and the
   * spaces, a letter and 2 to 30 letters or spaces, as many as still leave
   * `\s+credited` after them.
   */
  function CreditedToAt(s: string, i: nat): (r: Option<Span>)
    ensures r.Some? ==>
      i < |s| && s[i] == ';' && SpanIn(s, r.value) && r.value.start == SkipSpaces(s, i + 1)
      && r.value.start + 3 <= r.value.end <= r.value.start + 31
      && IsAsciiLetter(s[r.value.start]) && CreditedStop(s, r.value.end)
      && ClassBetween(s, r.value.start, r.value.end, IsNameChar)
      && NoStopBeyond(s, r.value.start, r.value.end, 31, IsNameChar, CreditedStop)
    ensures r.None? && i < |s| && s[i] == ';' ==>
      var q := SkipSpaces(s, i + 1);
      q < |s| && IsAsciiLetter(s[q]) ==> NoStopBeyond(s, q, q + 2, 31, IsNameChar, CreditedStop)
  {
    if i >= |s| || s[i] != ';' then None
    else
      var q := SkipSpaces(s, i + 1);
      if q >= |s| || !IsAsciiLetter(s[q]) then None
      else
        GreedyRunEnd(s, q, 3, 31, IsNameChar, CreditedStop);
        var top := Min(RunEnd(s, q + 1, IsNameChar), q + 31);
        match LongestEnd(s, q + 3, top, CreditedStop)
        case None => None
        case Some(g) => Some(Span(q, g))
  }

  /** `(?:\s|;|\.)` at `g`. */
  predicate PayeeStop(s: string, g: nat) {
    g < |s| && (IsRegexSpace(s[g]) || s[g] == ';' || s[g] == '.')
  }

  /**
   * `\s+([A-Z][A-Za-z\s]{2,30})(?:\s|;|\.)` after "to" or "for" ending at
   * `e`: right after the spaces, a letter and 2 to 30 letters or spaces, as
   * many as still leave whitespace, ";" or "." after them.
   */
  function PayeeRest(s: string, e: nat): (r: Option<Span>)
    ensures r.Some? ==>
      SpanIn(s, r.value) && e < r.value.start == SkipSpaces(s, e)
      && r.value.start + 3 <= r.value.end <= r.value.start + 31
      && IsAsciiLetter(s[r.value.start]) && PayeeStop(s, r.value.end)
      && ClassBetween(s, r.value.start, r.value.end, IsNameChar)
      && NoStopBeyond(s, r.value.start, r.value.end, 31, IsNameChar, PayeeStop)
    ensures r.None? && e < SkipSpaces(s, e) < |s| && IsAsciiLetter(s[SkipSpaces(s, e)]) ==>
      var q := SkipSpaces(s, e);
      NoStopBeyond(s, q, q + 2, 31, IsNameChar, PayeeStop)
  {
    var q := SkipSpaces(s, e);
    if q == e || q >= |s| || !IsAsciiLetter(s[q]) then None
    else
      GreedyRunEnd(s, q, 3, 31, IsNameChar, PayeeStop);
      var top := Min(RunEnd(s, q + 1, IsNameChar), q + 31);
      match LongestEnd(s, q + 3, top, PayeeStop)
      case None => None
      case Some(g) => Some(Span(q, g))
  }

  /** `\s+(?:to|for)` after "debited" or "paid" ending at `e`. */
  function ToOrFor(s: string, e: nat): seq<nat> {
    var q := SkipSpaces(s, e);
    if q > e then Tails(s, q, ["to", "for"]) else []
  }

  /** `(?:debited|paid)\s+(?:to|for)\s+([A-Z][A-Za-z\s]{2,30})(?:\s|;|\.)` at `i`. */
  function DebitedToAt(s: string, i: nat): Option<Span> {
    FirstOf(s, FlatMap(Tails(s, i, ["debited", "paid"]), e => ToOrFor(s, e)), PayeeRest)
  }

  /** `\s*[:;]?` after "VPA", "UPI" or "UPI ID" ending at `e`. */
  function SeparatorRest(s: string, e: nat): seq<nat> {
    var w := SkipSpaces(s, e);
    (if w < |s| && (s[w] == ':' || s[w] == ';') then [w + 1] else []) + [w]
  }

  /** `(?:VPA|UPI|UPI ID)\s*[:;]?\s*([A-Za-z0-9@.-]+)` at `i`. */
  function VpaAt(s: string, i: nat): Option<Span> {
    FirstOf(s, FlatMap(Tails(s, i, ["VPA", "UPI", "UPI ID"]), e => SeparatorRest(s, e)), HandleAt)
  }

  /** The merchant patterns of this copy, in the order they are tried. */
  const MerchantPatterns: seq<(string, nat) -> Option<Span>> :=
    [TowardsAt, ToAtAt, CreditedToAt, DebitedToAt, VpaAt]

  /**
   * `extractMerchant`: the trimmed capture of the first pattern that
   * matches anywhere in the body, or "Unknown" when none does.
   */
  function MerchantOf(body: string): (r: string)
    ensures (forall q :: 0 <= q < |MerchantPatterns| ==> !Matches(body, MerchantPatterns, q)) ==> r == "Unknown"
    ensures forall q: nat :: FirstMatch(body, MerchantPatterns, q) ==>
      r == Trim(Slice(body, Find(body, MerchantPatterns[q], 0).value.group))
    ensures FirstMatching(body, MerchantPatterns, 0).Some? ==>
      r == [] || (!IsKotlinSpace(r[0]) && !IsKotlinSpace(r[|r| - 1]))
  {
    FirstMatchingIsFirstMatch(body, MerchantPatterns);
    match FirstMatching(body, MerchantPatterns, 0)
    case None => "Unknown"
    case Some(q) => Trim(Slice(body, Find(body, MerchantPatterns[q], 0).value.group))
  }

  // ---------------------------------------------------------------- parse

  /** `parseTransaction(sender, body)`, with `now` the clock reading it stamps the result with. */
  function Parse(sender: string, body: string, now: int): (r: Option<Transaction>)
    ensures r.None? <==> AmountOf(body).None?
    ensures r.Some? ==>
      r.value.amount == AmountOf(body).value && r.value.timestamp == now
      && r.value.kind == TypeOf(body) && r.value.account == AccountOf(body)
      && r.value.merchant == MerchantOf(body) && r.value.balance == BalanceOf(body)
      && r.value.bank == BankFromSender(sender)
  {
    match AmountOf(body)
    case None => None
    case Some(amount) =>
      Some(Transaction(TypeOf(body), amount, BankFromSender(sender), AccountOf(body),
                       MerchantOf(body), BalanceOf(body), now))
  }

  /** A parsed transaction has a valid amount and an account suffix of four digits or "****". */
  lemma ParsedFields(sender: string, body: string, now: int)
    ensures Parse(sender, body, now).Some? ==>
      var t := Parse(sender, body, now).value;
      ',' !in t.amount && IsAmountText(t.amount) && 0 < Hundredths(t.amount) < AmountLimit
      && (t.account == "****" || (|t.account| == 4 && AllDigits(t.account)))
  {
    AmountShape(body);
  }

  // ---------------------------------------------------------------- handling

  /** The ledger after `handleTransaction(t)`. */
  ghost function HandledLedger(ledger: seq<Entry>, memory: map<string, string>, t: Transaction): seq<Entry> {
    if Duplicate(ledger, t) then ledger else Saved(ledger, t, CategoryFor(memory, t))
  }

  /** The events `handleTransaction(t)` produces, in order. */
  ghost function HandledEvents(ledger: seq<Entry>, memory: map<string, string>, t: Transaction): seq<Event> {
    if Duplicate(ledger, t) then []
    else
      match SavedCategory(memory, t.merchant)
      case Some(c) => [TransactionReported(t, c)]
      case None => [CategorizationRequested(PopupExtras(t)), TransactionReported(t, "Uncategorized")]
  }

  /**
   * A repeat is dropped without a trace; anything else is reported once,
   * with the remembered category or "Uncategorized", and stored (with that
   * category) unless it is income.
   */
  lemma HandledSpec(ledger: seq<Entry>, memory: map<string, string>, t: Transaction)
    ensures Duplicate(ledger, t) ==>
      HandledLedger(ledger, memory, t) == ledger && HandledEvents(ledger, memory, t) == []
    ensures !Duplicate(ledger, t) ==>
      var es := HandledEvents(ledger, memory, t);
      es != [] && es[|es| - 1] == TransactionReported(t, CategoryFor(memory, t))
      && (CategorizationRequested(PopupExtras(t)) in es <==> SavedCategory(memory, t.merchant).None?)
    ensures !Duplicate(ledger, t) && t.kind != Credit ==>
      var r := HandledLedger(ledger, memory, t);
      |r| == |ledger| + 1 && r[..|ledger|] == ledger
      && r[|ledger|] == EntryOf(t, CategoryFor(memory, t))
    ensures t.kind == Credit ==> HandledLedger(ledger, memory, t) == ledger
  {
  }

  /** Handling the same transaction again leaves the ledger as the first handling left it. */
  lemma HandledLedgerIdempotent(ledger: seq<Entry>, memory: map<string, string>, t: Transaction)
    ensures HandledLedger(HandledLedger(ledger, memory, t), memory, t) == HandledLedger(ledger, memory, t)
  {
    var once := HandledLedger(ledger, memory, t);
    if !Duplicate(ledger, t) && t.kind != Credit {
      assert SameWithinWindow(once[|once| - 1], t);
    }
  }

  /** Handling never stores income. */
  lemma HandledKeepsNoCredit(ledger: seq<Entry>, memory: map<string, string>, t: Transaction)
    requires NoCredit(ledger)
    ensures NoCredit(HandledLedger(ledger, memory, t))
  {
  }

  class NotificationParser {
    const prefs: Prefs
    const sink: EventSink

    constructor(prefs: Prefs, sink: EventSink)
      ensures this.prefs == prefs && this.sink == sink
    {
      this.prefs := prefs;
      this.sink := sink;
    }

    /** `isDuplicateTransaction`: scans the ledger for an entry that repeats `t`. */
    method IsDuplicateTransaction(t: Transaction) returns (dup: bool)
      ensures dup <==> Duplicate(prefs.transactions, t)
    {
      var ledger := prefs.transactions;
      var i := 0;
      while i < |ledger|
        invariant 0 <= i <= |ledger|
        invariant forall k :: 0 <= k < i ==> !SameWithinWindow(ledger[k], t)
      {
        var e := ledger[i];
        var timeDiff := Abs(t.timestamp - e.timestamp);
        if timeDiff < 10000 && e.amount == t.amount && e.merchant == t.merchant {
          assert SameWithinWindow(ledger[i], t);
          return true;
        }
        i := i + 1;
      }
      return false;
    }

    /** `sendToFlutter`: store the transaction, then report it. */
    method SendToFlutter(t: Transaction, category: string)
      modifies prefs, sink
      ensures prefs.transactions == Saved(old(prefs.transactions), t, category)
      ensures prefs.merchantCategories == old(prefs.merchantCategories)
      ensures sink.events == old(sink.events) + [TransactionReported(t, category)]
    {
      prefs.SaveTransactionLocally(t, category);
      sink.Emit(TransactionReported(t, category));
    }

    /** `showCategorizationPopup`: asks for the category picker with the transaction's extras. */
    method ShowCategorizationPopup(t: Transaction)
      modifies sink
      ensures sink.events == old(sink.events) + [CategorizationRequested(PopupExtras(t))]
    {
      sink.Emit(CategorizationRequested(PopupExtras(t)));
    }

    /** `handleTransaction`. */
    method HandleTransaction(t: Transaction)
      modifies prefs, sink
      ensures prefs.transactions
        == HandledLedger(old(prefs.transactions), old(prefs.merchantCategories), t)
      ensures prefs.merchantCategories == old(prefs.merchantCategories)
      ensures sink.events
        == old(sink.events) + HandledEvents(old(prefs.transactions), old(prefs.merchantCategories), t)
    {
      var dup := IsDuplicateTransaction(t);
      if dup {
        return;
      }
      var savedCategory := SavedCategory(prefs.merchantCategories, t.merchant);
      if savedCategory.Some? {
        SendToFlutter(t, savedCategory.value);
      } else {
        ShowCategorizationPopup(t);
        SendToFlutter(t, "Uncategorized");
      }
    }
  }
}
