/**
 * A worked message: "Rs.500.00 debited from A/c XX1234 towards Swiggy."
 * is a debit of 500.00 from the account ending 1234 at Swiggy, in both
 * copies of the engine.
 */
module Scenarios {
  import opened Options
  import opened Chars
  import opened Decimal
  import opened Patterns
  import opened Ledger
  import Parser
  import Listener

  /** The message "Rs.500.00 debited from A/c XX1234 towards Swiggy.", cut where the patterns look. */
  const Body: string := "Rs." + "500.00" + " debited from " + "A/c" + " XX1234 " + "towards" + " Swiggy."

  /** A literal occurs where it is spliced in. */
  lemma LitAtJoin(a: string, lit: string, b: string)
    ensures LitAt(a + lit + b, |a|, lit)
  {
    assert forall k :: 0 <= k < |lit| ==> (a + lit + b)[|a| + k] == lit[k];
  }

  /** A literal occurs where the text holds exactly its characters. */
  lemma LitAtSlice(s: string, i: nat, lit: string)
    requires i + |lit| <= |s| && s[i..i + |lit|] == lit
    ensures LitAt(s, i, lit)
  {
    assert forall k :: 0 <= k < |lit| ==> lit[k] == s[i + k];
  }

  /** A literal whose first character differs, in any case, does not occur. */
  lemma NotLitAt(s: string, i: nat, lit: string)
    requires i < |s| && |lit| > 0 && Lower(s[i]) != Lower(lit[0])
    ensures !LitAt(s, i, lit)
  {
  }

  lemma BodyTails()
    ensures |Tails(Body, 0, CurrencyTokens)| > 0 && Tails(Body, 0, CurrencyTokens)[0] == 3
  {
    NotLitAt(Body, 0, "INR");
    LitAtJoin([], "Rs.", "500.00" + " debited from " + "A/c" + " XX1234 " + "towards" + " Swiggy.");
    assert [] + "Rs." + ("500.00" + " debited from " + "A/c" + " XX1234 " + "towards" + " Swiggy.") == Body;
    assert CurrencyTokens[1..][0] == "Rs.";
    assert Tails(Body, 0, CurrencyTokens) == Tails(Body, 0, CurrencyTokens[1..]);
  }

  lemma BodyNumber()
    ensures NumberAfterSpaces(Body, 3) == Some(Span(3, 9))
  {
    assert |Body| == 49;
    assert SkipSpaces(Body, 3) == 3;
    assert RunEnd(Body, 6, IsNumberChar) == 6;
    assert RunEnd(Body, 5, IsNumberChar) == 6;
    assert RunEnd(Body, 4, IsNumberChar) == 6;
    assert RunEnd(Body, 3, IsNumberChar) == 6;
    assert DecimalsEnd(Body, 6) == 9;
  }

  lemma CommaFreeFiveHundred()
    ensures StripCommas("500.00") == "500.00"
  {
    StripCommasOfCommaFree("500.00");
  }

  lemma ValueFiveHundred()
    ensures IsPlausibleAmount("500.00")
  {
    var r := "500.00";
    assert r[..3] == "500" && r[4..] == "00" && r[4] == '0' && r[3] == '.';
    assert !AllDigits(r);
    assert "500"[..2] == "50" && "50"[..1] == "5" && "5"[..0] == [] && "00"[..1] == "0" && "0"[..0] == [];
    assert DigitsValue("5") == 5;
    assert DigitsValue("50") == 50;
    assert DigitsValue("500") == 500;
    assert DigitsValue("0") == 0;
    assert DigitsValue("00") == 0;
    assert Hundredths(r) == 50000;
  }

  lemma BodyCurrency()
    ensures CurrencyAmountAt(Body, 0) == Some(Span(3, 9))
  {
    BodyTails();
    BodyNumber();
  }

  lemma BodyFind()
    ensures Find(Body, CurrencyAmountAt, 0) == Some(Found(0, Span(3, 9)))
  {
    BodyCurrency();
  }

  lemma BodySlice()
    ensures Slice(Body, Span(3, 9)) == "500.00"
  {
    assert |Body| == 49;
  }

  /** The currency pattern matches at the very start and captures "500.00". */
  lemma BodyAmount()
    ensures AmountOf(Body) == Some("500.00")
  {
    BodyFind();
    BodySlice();
    CommaFreeFiveHundred();
    ValueFiveHundred();
    assert AmountPatterns[0] == CurrencyAmountAt;
    assert FamilyAmount(Body, 0) == Some("500.00");
  }

  // ---------------------------------------------------------------- account

  /** No account lead-in starts where no keyword's first letter is. */
  lemma NoLeadIn(s: string, i: nat, keywords: seq<string>)
    requires i < |s|
    requires forall t :: 0 <= t < |keywords| ==> |keywords[t]| > 0 && Lower(keywords[t][0]) != Lower(s[i])
    ensures AccountAt(s, i, keywords).None?
  {
  }

  /** A match with none before it is what `Find` finds. */
  lemma FindAt(s: string, m: (string, nat) -> Option<Span>, at: nat, g: Span)
    requires at <= |s| && m(s, at) == Some(g)
    requires forall k :: 0 <= k < at ==> m(s, k).None?
    ensures Find(s, m, 0) == Some(Found(at, g))
  {
  }

  /** Every account keyword of both copies starts with "a" or "c", in some case. */
  lemma KeywordLetters()
    ensures forall t :: 0 <= t < |Parser.AccountKeywords| ==>
      |Parser.AccountKeywords[t]| > 0 && Lower(Parser.AccountKeywords[t][0]) in "ac"
    ensures forall t :: 0 <= t < |Listener.AccountKeywords| ==>
      |Listener.AccountKeywords[t]| > 0 && Lower(Listener.AccountKeywords[t][0]) in "ac"
  {
  }

  /** Up to "A/c" the message has no "a" and no "c". */
  lemma NoAccountLetterBefore()
    ensures forall k :: 0 <= k < 23 ==> Lower(Body[k]) !in "ac"
  {
  }

  /** "A/c" is the first keyword tried, and it occurs at 23. */
  lemma BodyKeywordTail(keywords: seq<string>)
    requires |keywords| > 0 && keywords[0] == "A/c"
    ensures |Tails(Body, 23, keywords)| > 0 && Tails(Body, 23, keywords)[0] == 26
  {
    assert |Body| == 49;
    assert Body[23..26] == "A/c";
    LitAtSlice(Body, 23, "A/c");
  }

  /** No number word follows "A/c ", so only the empty one leads on, from 27. */
  lemma BodyNumberWord()
    ensures |NumberWordRest(Body, 26)| > 0 && NumberWordRest(Body, 26)[0] == 27
  {
    assert |Body| == 49;
    assert RunEnd(Body, 27, IsRegexSpace) == 27;
    assert SkipSpaces(Body, 26) == 27;
    NotLitAt(Body, 27, "no.");
    NotLitAt(Body, 27, "no");
    NotLitAt(Body, 27, "number");
    assert NumberWords[1..] == ["no", "number", ""];
    assert NumberWords[1..][1..] == ["number", ""];
    assert NumberWords[1..][1..][1..] == [""];
    assert Tails(Body, 27, NumberWords[1..][1..]) == Tails(Body, 27, [""]);
    assert Tails(Body, 27, NumberWords[1..]) == Tails(Body, 27, [""]);
    assert Tails(Body, 27, NumberWords) == Tails(Body, 27, [""]);
  }

  /** After 27 come the masks "XX" and then the digits "1234". */
  lemma BodySuffix()
    ensures SuffixAfter(Body, 27) == Some(Span(29, 33))
  {
    assert |Body| == 49;
    assert SkipSpaces(Body, 27) == 27;
    assert RunEnd(Body, 29, IsMask) == 29;
    assert RunEnd(Body, 27, IsMask) == 29;
    assert Body[29..33] == "1234";
  }

  /** The account pattern, with "A/c" as its first keyword, captures "1234" at 23. */
  lemma BodyAccountAt(keywords: seq<string>)
    requires |keywords| > 0 && keywords[0] == "A/c"
    ensures AccountAt(Body, 23, keywords) == Some(Span(29, 33))
  {
    BodyKeywordTail(keywords);
    BodyNumberWord();
    BodySuffix();
    var f := (e: nat) => NumberWordRest(Body, e);
    var xs := Tails(Body, 23, keywords);
    assert FlatMap(xs, f)[0] == 27;
  }

  /** No account mention starts before 23, in either copy. */
  lemma NoAccountBefore()
    ensures forall k :: 0 <= k < 23 ==> Parser.AccountMatchAt(Body, k).None?
    ensures forall k :: 0 <= k < 23 ==> Listener.AccountMatchAt(Body, k).None?
  {
    KeywordLetters();
    NoAccountLetterBefore();
    assert |Body| == 49;
    forall k | 0 <= k < 23
      ensures Parser.AccountMatchAt(Body, k).None? && Listener.AccountMatchAt(Body, k).None?
    {
      NoLeadIn(Body, k, Parser.AccountKeywords);
      NoLeadIn(Body, k, Listener.AccountKeywords);
    }
  }

  /** The leftmost account mention of the message is "A/c XX1234", at 23, in both copies. */
  lemma BodyAccountFind()
    ensures Find(Body, Parser.AccountMatchAt, 0) == Some(Found(23, Span(29, 33)))
    ensures Find(Body, Listener.AccountMatchAt, 0) == Some(Found(23, Span(29, 33)))
  {
    NoAccountBefore();
    BodyAccountAt(Parser.AccountKeywords);
    BodyAccountAt(Listener.AccountKeywords);
    assert Parser.AccountMatchAt(Body, 23) == Some(Span(29, 33));
    assert Listener.AccountMatchAt(Body, 23) == Some(Span(29, 33));
    assert |Body| == 49;
    FindAt(Body, Parser.AccountMatchAt, 23, Span(29, 33));
    FindAt(Body, Listener.AccountMatchAt, 23, Span(29, 33));
  }

  lemma BodyDigits()
    ensures Slice(Body, Span(29, 33)) == "1234"
  {
    assert |Body| == 49;
  }

  /** The account suffix of the message is "1234", in both copies. */
  lemma BodyAccount()
    ensures Parser.AccountOf(Body) == "1234"
    ensures Listener.AccountOf(Body) == "1234"
  {
    BodyAccountFind();
    BodyDigits();
  }

  // ---------------------------------------------------------------- type

  /** "debited" first occurs at 10. */
  lemma BodyDebited()
    ensures IndexOf(Body, "debited", 0) == 10
  {
    var a := "Rs." + "500.00" + " ";
    var b := " from " + "A/c" + " XX1234 " + "towards" + " Swiggy.";
    LitAtJoin(a, "debited", b);
    assert a + "debited" + b == Body;
    assert forall k :: 0 <= k < 10 ==> Lower(Body[k]) != 'd';
    forall j: nat | j < 10 ensures !LitAt(Body, j, "debited") {
      NotLitAt(Body, j, "debited");
    }
    IndexOfIsFirst(Body, "debited", 10);
  }

  /** "debited" comes within 50 characters of the account mention: a debit, in both copies. */
  lemma BodyKind()
    ensures Parser.TypeOf(Body) == Debit
    ensures Listener.TypeOf(Body) == Debit
  {
    BodyDebited();
    BodyAccountFind();
  }

  // ---------------------------------------------------------------- merchant

  /** A literal whose second character differs, in any case, does not occur. */
  lemma NotLitAtSecond(s: string, i: nat, lit: string)
    requires i + 1 < |s| && |lit| > 1 && Lower(s[i + 1]) != Lower(lit[1])
    ensures !LitAt(s, i, lit)
  {
  }

  /** "towards" first occurs at 34: the "t" of "debited" is followed by "e". */
  lemma NoTowardsBefore()
    ensures forall k :: 0 <= k < 34 ==> TowardsAt(Body, k).None?
  {
    assert |Body| == 49;
    assert forall k :: 0 <= k < 34 && k != 14 ==> Lower(Body[k]) != 't';
    assert Body[15] == 'e';
    forall k | 0 <= k < 34 ensures TowardsAt(Body, k).None? {
      if k == 14 {
        NotLitAtSecond(Body, k, "towards");
      } else {
        NotLitAt(Body, k, "towards");
      }
    }
  }

  /** `towards\s+(.+?)\.` at 34 captures "Swiggy", up to the final ".". */
  lemma BodyTowardsAt()
    ensures TowardsAt(Body, 34) == Some(Span(42, 48))
  {
    var a := "Rs." + "500.00" + " debited from " + "A/c" + " XX1234 ";
    LitAtJoin(a, "towards", " Swiggy.");
    assert a + "towards" + " Swiggy." == Body;
    assert |Body| == 49;
    assert RunEnd(Body, 42, IsRegexSpace) == 42;
    assert SkipSpaces(Body, 41) == 42;
    assert DotFrom(Body, 48) == Some(48);
    assert DotFrom(Body, 47) == Some(48);
    assert DotFrom(Body, 46) == Some(48);
    assert DotFrom(Body, 45) == Some(48);
    assert DotFrom(Body, 44) == Some(48);
    assert DotFrom(Body, 43) == Some(48);
    assert LazyToDot(Body, 42) == Some(Span(42, 48));
  }

  /** The "towards" pattern matches, first of both copies' patterns, at 34. */
  lemma BodyTowardsFind()
    ensures Find(Body, TowardsAt, 0) == Some(Found(34, Span(42, 48)))
  {
    NoTowardsBefore();
    BodyTowardsAt();
    assert |Body| == 49;
    FindAt(Body, TowardsAt, 34, Span(42, 48));
  }

  /** It captures "Swiggy". */
  lemma BodySwiggy()
    ensures Slice(Body, Span(42, 48)) == "Swiggy"
  {
    assert |Body| == 49;
  }

  /** "Swiggy" is already trimmed. */
  lemma SwiggyIsTrimmed()
    ensures Trim("Swiggy") == "Swiggy"
  {
    TrimOfTrimmed("Swiggy");
  }

  /** "Swiggy" is already a clean name. */
  lemma SwiggyIsClean()
    ensures Listener.Sanitize("Swiggy") == "Swiggy"
  {
    var s := "Swiggy";
    assert forall k :: 0 <= k < |s| ==> IsAsciiLetter(s[k]);
    assert Listener.NameChars(s) && Listener.SingleSpaced(s);
    Listener.SanitizeCleanName(s);
  }

  /** When "towards" matches, the SMS copy's merchant is its trimmed capture. */
  lemma ParserTowardsFirst(body: string, m: Found)
    requires Find(body, TowardsAt, 0) == Some(m)
    ensures Parser.MerchantOf(body) == Trim(Slice(body, m.group))
  {
    assert Parser.MerchantPatterns[0] == TowardsAt;
    assert FirstMatch(body, Parser.MerchantPatterns, 0);
  }

  /** When "towards" matches, the notification copy's merchant is its sanitised capture. */
  lemma ListenerTowardsFirst(body: string, m: Found)
    requires Find(body, TowardsAt, 0) == Some(m)
    ensures Listener.MerchantOf(body) == Listener.Sanitize(Slice(body, m.group))
  {
    assert Listener.MerchantPatterns[0] == TowardsAt;
    assert FirstMatch(body, Listener.MerchantPatterns, 0);
  }

  /** The SMS copy trims the capture of the "towards" pattern: "Swiggy". */
  lemma BodyParserMerchant()
    ensures Parser.MerchantOf(Body) == "Swiggy"
  {
    BodyTowardsFind();
    BodySwiggy();
    SwiggyIsTrimmed();
    ParserTowardsFirst(Body, Found(34, Span(42, 48)));
  }

  /** The notification copy sanitises the capture of the "towards" pattern: "Swiggy". */
  lemma BodyListenerMerchant()
    ensures Listener.MerchantOf(Body) == "Swiggy"
  {
    BodyTowardsFind();
    BodySwiggy();
    SwiggyIsClean();
    ListenerTowardsFirst(Body, Found(34, Span(42, 48)));
  }

  /** The merchant of the message is "Swiggy", in both copies. */
  lemma BodyMerchant()
    ensures Parser.MerchantOf(Body) == "Swiggy"
    ensures Listener.MerchantOf(Body) == "Swiggy"
  {
    BodyParserMerchant();
    BodyListenerMerchant();
  }

  // ---------------------------------------------------------------- the whole message

  /**
   * Both copies read the message as a debit of "500.00" from the account
   * ending "1234" at "Swiggy", whoever sent it and whenever.
   */
  lemma BodyParsed(sender: string, now: int)
    ensures Parser.Parse(sender, Body, now).Some?
    ensures var t := Parser.Parse(sender, Body, now).value;
      t.kind == Debit && t.amount == "500.00" && t.account == "1234" && t.merchant == "Swiggy"
      && t.timestamp == now
    ensures Listener.Parse(sender, Body, now).Some?
    ensures var t := Listener.Parse(sender, Body, now).value;
      t.kind == Debit && t.amount == "500.00" && t.account == "1234" && t.merchant == "Swiggy"
      && t.timestamp == now
  {
    BodyAmount();
    BodyAccount();
    BodyKind();
    BodyMerchant();
  }
}
