# Expense tracker transaction engine, in Dafny

This project models the Android side of an expense tracker. The app reads bank
SMS messages and SMS notifications, turns each one into a transaction, stores
it, and reports it to the Flutter UI. It asks the user for a category when the
merchant has none yet, and warns when a category's monthly cap is near or
exceeded.

The engine exists in two copies, and both are modelled:

- `NotificationListener`, the notification path (module `Listener`). It has
  its own classifier, account markers, type window and merchant patterns. It
  passes the merchant name through `sanitizeMerchantName`. It has no repeat
  check, and it runs a category-cap check after every report.
- `NotificationParser`, the SMS path (module `Parser`). `SmsTransactionHelper`
  drives it (module `SmsHelper`). It skips a transaction that repeats one
  stored within 10 seconds.

Code the two copies share word for word is modelled once:

| module | what it holds |
|---|---|
| `Patterns` | amount extraction, balance extraction, the "towards" capture, the OTP test |
| `Banks` | bank names from the sender id |
| `Ledger` | the stored transaction ledger, the merchant-to-category memory, the events sent to Flutter |
| `Caps` | the cap check |
| `CategorySelection` | the `CategorySelectionActivity` picker: it remembers the category, back-patches the stored entry, and reports the pick |
| `Flows` | properties that span the copies and the picker |
| `Scenarios` | one worked message read by both copies |

Each fixed regular expression becomes a hand-written scanner. `Patterns.Find`
gives the leftmost match, as `Regex.find` does. Ordered alternatives are tried
as the regex engine tries them, and lazy and greedy bounded repetitions are
stated exactly. Preference stores are objects whose fields the methods update
(`Ledger.Prefs`). The Flutter event sink is an object that records what it was
sent (`Ledger.EventSink`). The clock is a parameter `now`, and the calendar is
a function `periodOf` from an instant to its month and year.

Throughout, names are compared ignoring ASCII case, and amounts are measured
in hundredths (1/100 of a currency unit).

## Model

| member | source | states |
|---|---|---|
| Chars.IndexOf | NotificationListener.kt:210-211 | `indexOf(lit, ignoreCase = true)` returns -1 or a position where the literal occurs, and the literal occurs at no earlier position |
| Chars.Contains | NotificationListener.kt:167-173 | `contains(lit, ignoreCase = true)` holds exactly when the literal occurs somewhere, ignoring ASCII case |
| Chars.IndexOfIsFirst | NotificationListener.kt:210-211 | the index found is k exactly when k is the first position of the literal |
| Chars.Trim | NotificationListener.kt:152 | `trim()` gives a slice of the input with no whitespace (Kotlin `isWhitespace`) at either end |
| Chars.TrimStartDropsSpaces | NotificationListener.kt:152 | everything the leading trim drops is whitespace |
| Chars.TrimEndDropsSpaces | NotificationListener.kt:152 | everything the trailing trim drops is whitespace |
| Chars.TrimOfTrimmed | NotificationListener.kt:152 | a string with no whitespace at either end is its own trim |
| Chars.LowerStrAt | NotificationListener.kt:152 | `lowercase()` lowers each character in place and keeps the length |
| Chars.LowerStrIdempotent | NotificationListener.kt:152 | lowering twice is lowering once |
| Decimal.StripCommas | NotificationListener.kt:256 | `replace(",", "")` leaves exactly the non-comma characters, and no comma |
| Decimal.StripCommasAppend | NotificationListener.kt:256 | removing commas distributes over concatenation |
| Decimal.NatToString | NotificationListener.kt:372 | `Long.toString()` of a non-negative value is a digit string, with no leading zero, that reads back as the value |
| Decimal.IntToStringInjective | NotificationListener.kt:372 | distinct timestamps give distinct entry ids |
| Patterns.Find | NotificationListener.kt:253-254 | `Regex.find` returns the leftmost position where the pattern matches; when it returns nothing, the pattern matches nowhere |
| Patterns.FirstOf | NotificationListener.kt:204 | an ordered alternative yields what the first choice, in order, from which the rest of the pattern matches yields, every earlier choice failing; it fails only when every choice fails |
| Patterns.TailsMember | NotificationListener.kt:204 | a position follows an alternative of literals exactly when one of the literals occurs there and ends at it |
| Patterns.NumberSpan | NotificationListener.kt:247-249 | the capture `([0-9,]+(?:\.[0-9]{1,2})?)` starts where it is tried, is number text (digits and commas, then optionally "." and one or two digits), and no longer slice from there is; with no capture, no slice from there is number text |
| Patterns.ExtractAmount | NotificationListener.kt:244-265 | the loop over the three pattern families returns the amount `AmountOf` defines |
| Patterns.AmountFromIsFirstFamily | NotificationListener.kt:252-263 | the amount is what the first family that yields one yields, and there is none exactly when no family yields one |
| Patterns.AmountShape | android/app/src/main/kotlin/com/example/expense_tracker/NotificationParser.kt:331-350 | an extracted amount has no comma, is decimal text with at most two decimals, and lies strictly between 0 and 10,000,000 |
| Patterns.StrippedNumberText | NotificationListener.kt:256-257 | an amount capture with its commas removed is empty or a text `toDoubleOrNull` reads |
| Patterns.FamilyCaptureParses | NotificationListener.kt:254-257 | for every family, the capture of its leftmost match, without commas, is empty or a readable number |
| Patterns.BalanceOf | NotificationListener.kt:289-295 | `extractBalance` gives "N/A" when no balance pattern matches anywhere, else the comma-free text of the leftmost match's capture, which is the longest number text where it starts |
| Patterns.AccountAt | NotificationListener.kt:204 | the account capture is what the four digits after the first lead-in (a keyword, spaces, an optional number word) and its run of masks give; no match when no lead-in is followed by four digits |
| Patterns.SuffixAfter | NotificationListener.kt:204 | `\s*[Xx*]*([0-9]{4})` captures four digits right after the spaces and a run of masks, and fails when no run of masks is followed by four digits |
| Patterns.TowardsAt | NotificationListener.kt:269-272 | `towards\s+(.+?)\.` matches only after "towards"; the capture starts after at least one space, has at least one character and no line break, ends at the first "." after its first character, and no later start within the spaces has a match |
| Patterns.WordsFromIsBareCode | NotificationListener.kt:178 | the word scanner finds a whole word of 4 to 6 digits exactly when one exists |
| Patterns.OtpLike | NotificationListener.kt:176-178 | the OTP test holds exactly when "OTP" or "verification" occurs, or the body is shorter than 100 characters, is one line, and holds a whole word of 4 to 6 digits |
| Patterns.LongestEnd | android/app/src/main/kotlin/com/example/expense_tracker/NotificationParser.kt:364 | a greedy bounded repetition ends at the largest end from which its terminator matches |
| Patterns.ShortestEnd | NotificationListener.kt:275 | a lazy bounded repetition ends at the smallest end from which its terminator matches |
| Patterns.HandleAt | NotificationListener.kt:281 | a payment handle starts right after the spaces and is the whole run of letters, digits, "@", "." and "-" there, at least one character long; with none, the first character after the spaces is not a handle character |
| Patterns.FirstMatching | NotificationListener.kt:267-287 | the merchant comes from the first pattern, in order, that matches anywhere; no pattern before it matches |
| Patterns.FirstMatchingIsFirstMatch | NotificationListener.kt:267-287 | the scan over the merchant patterns finds pattern q exactly when q is the first pattern that matches somewhere, and finds nothing exactly when no pattern matches |
| Banks.BankFromNoRow | NotificationListener.kt:297-316 | a sender that contains none of the bank tokens is its own bank name |
| Banks.BankFromFirstRow | NotificationListener.kt:297-316 | the first token in table order that the sender contains names the bank |
| Banks.BankFromSenderSpec | android/app/src/main/kotlin/com/example/expense_tracker/NotificationParser.kt:407-427 | `determineBankFromSender` gives the sender itself when no token matches, else the name of the first matching row |
| Banks.HdfcSender | NotificationListener.kt:299 | a sender id such as "VM-HDFCBK" is HDFC Bank |
| Caps.GetCurrentMonthSpending | NotificationListener.kt:426-457 | the loop returns `MonthSpending`: the running sum of DEBIT amounts of the category in the current month, or 0 once a record throws |
| Caps.SpendOfStaysFailed | NotificationListener.kt:430-456 | once a record throws, the whole scan returns 0 |
| Caps.SpendOfIsSumOfCounted | NotificationListener.kt:438-451 | with no throwing record, the total is the sum of the amounts of matching records (same category, DEBIT, same month and year) |
| Caps.MonthSpendingSpec | NotificationListener.kt:426-457 | a missing store gives 0; otherwise the result is the sum of the matching amounts, or 0 when some record is malformed |
| Caps.CapAmount | NotificationListener.kt:407-411 | a "percentage" cap is `income * value / 100`; any other cap is the value itself |
| Caps.PercentUsed | NotificationListener.kt:414 | a non-zero cap gives `spend / cap * 100`; a zero cap gives +Infinity for positive spending and NaN for zero spending |
| Caps.BandOf | NotificationListener.kt:416-420 | "warning" exactly on [80, 100), "exceeded" exactly from 100 on or at +Infinity, and nothing for NaN |
| Caps.CapAlertFor | NotificationListener.kt:391-424 | with no cap config, no income, or the category or its value missing, no alert; otherwise an alert exactly when the percentage of `CapAmount` used falls in a band, carrying the category, the month's spending, that cap, that percentage and that band |
| Caps.CapAlertBands | NotificationListener.kt:407-420 | for a configured positive cap: a "warning" alert exactly when 80 % of the cap ≤ spend < cap, an "exceeded" alert exactly when spend ≥ cap, and no alert below 80 % |
| Caps.PositiveCapBands | NotificationListener.kt:414-420 | for a positive cap: warning exactly when 80 % of the cap ≤ spend < cap, exceeded exactly when spend ≥ cap, nothing below 80 % |
| Caps.ZeroCapBands | NotificationListener.kt:414-420 | for a zero cap, any positive spending is exceeded and no spending raises nothing |
| Caps.FixedCapScenario | NotificationListener.kt:407-420 | a fixed cap of 1000 warns at 850 (85 %) and is exceeded at 1050 |
| Caps.PercentageCapScenario | NotificationListener.kt:407-408 | a 10 % cap on an income of 50000 is 5000 |
| Ledger.SavedSpec | NotificationListener.kt:359-389 | `saveTransactionLocally` skips CREDIT; anything else appends one entry with the transaction's fields, the timestamp text as id and the category, and keeps the earlier entries |
| Ledger.SavedKeepsNoCredit | NotificationListener.kt:360-363 | a ledger with no income keeps having none |
| Ledger.EntryIdsFollowTimestamps | NotificationListener.kt:372 | two stored entries share an id only when their timestamps are equal |
| Ledger.Prefs.SaveTransactionLocally | android/app/src/main/kotlin/com/example/expense_tracker/NotificationParser.kt:204-233 | the ledger becomes `Saved(old ledger, t, category)` and the merchant memory is unchanged |
| Ledger.EventSink.Emit | NotificationListener.kt:351 | the event is appended to what the sink has received |
| Ledger.BackPatchedLength | android/app/src/main/kotlin/com/example/expense_tracker/CategorySelectionActivity.kt:299-319 | back-patching keeps the number of entries |
| Ledger.BackPatchedWithoutId | android/app/src/main/kotlin/com/example/expense_tracker/CategorySelectionActivity.kt:306-312 | with no entry carrying the id, the ledger stays as it was |
| Ledger.BackPatchedFirst | android/app/src/main/kotlin/com/example/expense_tracker/CategorySelectionActivity.kt:306-314 | only the category of the first entry with the id changes |
| Ledger.RememberThenRecall | android/app/src/main/kotlin/com/example/expense_tracker/CategorySelectionActivity.kt:347-364 | after a save, a lookup by any spelling with the same trimmed, lowered key gives the saved category, and every other lookup is unchanged |
| Ledger.RememberKeepsOthers | android/app/src/main/kotlin/com/example/expense_tracker/CategorySelectionActivity.kt:354-357 | a save keeps every other key and its value |
| Ledger.RememberLastWins | android/app/src/main/kotlin/com/example/expense_tracker/CategorySelectionActivity.kt:357 | the last save for a merchant wins; repeating a save changes nothing |
| Ledger.KeyIdempotent | NotificationListener.kt:152 | normalising a key again gives the same key |
| Parser.IsTransactionMessage | android/app/src/main/kotlin/com/example/expense_tracker/NotificationParser.kt:17-32 | a transaction message has an account marker (A/c, A/C, account, Acct, card), "debited" or "credited", and nothing OTP-like |
| Parser.OtpWordsRejected | android/app/src/main/kotlin/com/example/expense_tracker/NotificationParser.kt:27-31 | a body that mentions "OTP" or "verification" is never a transaction |
| Parser.AccountOf | android/app/src/main/kotlin/com/example/expense_tracker/NotificationParser.kt:40-46 | the account is "****" exactly when no account pattern matches anywhere, else the four digits the leftmost match captures |
| Parser.TypePrecedence | android/app/src/main/kotlin/com/example/expense_tracker/NotificationParser.kt:48-81 | "debited" within 50 of the account mention gives DEBIT; else "credited" there gives CREDIT; else spent/paid/withdrawn gives DEBIT; else received/deposited gives CREDIT; else UNKNOWN |
| Parser.NearIsIndex | android/app/src/main/kotlin/com/example/expense_tracker/NotificationParser.kt:48-57 | the window test on `indexOf` results is the same as the first occurrence lying at most 50 after the account mention |
| Parser.ToAtRest | android/app/src/main/kotlin/com/example/expense_tracker/NotificationParser.kt:364-369 | `\s+([A-Z][A-Za-z\s&.'-]{3,40})` then a terminator: the capture starts right after the spaces with a letter, holds 4 to 41 characters of letters, whitespace and & . ' -, is followed by a terminator, and is the longest such; no match when no end in range is followed by a terminator |
| Parser.CreditedToAt | android/app/src/main/kotlin/com/example/expense_tracker/NotificationParser.kt:372-377 | `;\s*([A-Z][A-Za-z\s]{2,30})\s+credited`: after ";" and the spaces, a capture of 3 to 31 letters or whitespace that starts with a letter and is followed by whitespace and "credited", the longest such; no match when no end in range is |
| Parser.PayeeRest | android/app/src/main/kotlin/com/example/expense_tracker/NotificationParser.kt:380-385 | the payee after "debited/paid to/for" starts right after the spaces, is a letter then 2 to 30 letters or whitespace, is followed by whitespace, ";" or ".", and is the longest such; no match when no end in range is |
| Parser.MerchantOf | android/app/src/main/kotlin/com/example/expense_tracker/NotificationParser.kt:352-397 | "Unknown" when none of the five merchant patterns matches; otherwise the trimmed capture of the leftmost match of the first pattern, in order, that matches somewhere |
| Parser.Parse | android/app/src/main/kotlin/com/example/expense_tracker/NotificationParser.kt:34-117 | a message parses exactly when it has an amount; the transaction carries that amount, the type, account, merchant, balance and bank, and the time of reading |
| Parser.ParsedFields | android/app/src/main/kotlin/com/example/expense_tracker/NotificationParser.kt:86-110 | a parsed transaction has a plausible amount and an account of four digits or "****" |
| Parser.HandledSpec | android/app/src/main/kotlin/com/example/expense_tracker/NotificationParser.kt:120-143 | a repeat sends and stores nothing; otherwise a remembered category is used with no popup, and an unknown merchant gets a popup and is filed as "Uncategorized" |
| Parser.HandledLedgerIdempotent | android/app/src/main/kotlin/com/example/expense_tracker/NotificationParser.kt:122-125 | handling the same transaction twice stores it once |
| Parser.HandledKeepsNoCredit | android/app/src/main/kotlin/com/example/expense_tracker/NotificationParser.kt:204-208 | handling never stores income |
| Parser.NotificationParser.IsDuplicateTransaction | android/app/src/main/kotlin/com/example/expense_tracker/NotificationParser.kt:145-163 | the scan answers true exactly when some stored entry has the same amount and merchant within 10 seconds |
| Parser.NotificationParser.SendToFlutter | android/app/src/main/kotlin/com/example/expense_tracker/NotificationParser.kt:182-202 | the transaction is stored, and then reported with its category |
| Parser.NotificationParser.ShowCategorizationPopup | android/app/src/main/kotlin/com/example/expense_tracker/NotificationParser.kt:235-267 | the picker is requested with the transaction's id, amount, merchant, type, bank, account, balance and timestamp |
| Parser.NotificationParser.HandleTransaction | android/app/src/main/kotlin/com/example/expense_tracker/NotificationParser.kt:120-143 | the ledger and the events become `HandledLedger` and `HandledEvents` of the old state; the memory is unchanged |
| SmsHelper.SmsTransactionHelper.ProcessSms | SmsTransactionHelper.kt:11-37 | a non-transaction or an unparsable message changes nothing; a parsed one is handled by the SMS copy; the memory is never changed |
| Listener.Filter | NotificationListener.kt:106 | the filter leaves only letters, digits, whitespace and & . ' -; one character is kept exactly when it is of those, and `FilterAppend` filters piece by piece in order |
| Listener.FilterAppend | NotificationListener.kt:106 | filtering a concatenation is filtering each part, in order |
| Listener.Collapse | NotificationListener.kt:107 | each run of whitespace becomes one space: an all-whitespace text becomes " ", a single other character stays, the result has no two spaces in a row and no other whitespace, and every other character comes from the input |
| Listener.CollapseAppend | NotificationListener.kt:107 | collapsing two pieces that do not split a whitespace run is collapsing each piece, in order |
| Listener.CollapseOfCollapsed | NotificationListener.kt:107 | a text that is already single-spaced collapses to itself |
| Listener.Take | NotificationListener.kt:109 | `take(50)` is the longest prefix of at most 50 characters |
| Listener.Sanitize | NotificationListener.kt:97-110 | a sanitised name has at most 50 characters, only name characters, single spaces, and no leading whitespace |
| Listener.SanitizeCleanName | NotificationListener.kt:97-110 | a clean name of at most 50 characters is kept, except for one trailing space |
| Listener.SanitizeTwice | NotificationListener.kt:97-110 | sanitising twice differs from sanitising once by at most one trailing space, and only when the 50-character cut fell just after a space |
| Listener.IsTransactionMessage | NotificationListener.kt:165-189 | a transaction message has "A/c", "A/C" or "account", has "debited" or "credited", and nothing OTP-like |
| Listener.AccountOf | NotificationListener.kt:204-206 | "****" exactly when no account pattern matches anywhere, else the four digits the leftmost match captures |
| Listener.TypePrecedence | NotificationListener.kt:209-219 | the same precedence with a window from index 0 when there is no account mention, and only "spent" and "received" as fallbacks |
| Listener.NearIsIndex | NotificationListener.kt:209-215 | the window test on `indexOf` results is the first occurrence lying at most 50 after the account mention |
| Listener.ToAtRest | NotificationListener.kt:275-278 | `\s+([A-Za-z0-9][A-Za-z0-9\s&.'-]{2,40}?)` then a terminator: the capture starts right after the spaces, holds 3 to 41 characters of its class, and is the shortest that a terminator follows; no match when no end in range is followed by one |
| Listener.MerchantOf | NotificationListener.kt:267-287 | "Unknown" when no merchant pattern matches; otherwise the sanitised capture of the leftmost match of the first pattern, in order, that matches somewhere |
| Listener.Parse | NotificationListener.kt:201-242 | a message parses exactly when it has an amount; the transaction carries that amount, this copy's type, account and merchant, the shared balance and bank, and the time of reading |
| Listener.ReportWithSavedCategory | NotificationListener.kt:70-73 | a remembered category means no popup: the report with that category, then its cap check |
| Listener.ReportWithoutSavedCategory | NotificationListener.kt:74-78 | an unknown merchant gets the popup, then an "Uncategorized" report, then that cap check |
| Listener.RepeatsAreStoredTwice | NotificationListener.kt:47-87 | this copy has no repeat check: the same debit notification handled twice adds two entries |
| Listener.IgnoredMessages | NotificationListener.kt:66-68 | a non-transaction or amount-less message stores and reports nothing |
| Listener.NotificationListener.CheckCategoryCapAndNotify | NotificationListener.kt:391-424 | the events gain exactly the cap notice `CapAlertFor` gives, if any |
| Listener.NotificationListener.SendTransactionToFlutter | NotificationListener.kt:334-357 | store, report with the category, then the cap check of that category |
| Listener.NotificationListener.ShowCategorizationPopup | NotificationListener.kt:516-533 | the picker is requested with the transaction's extras |
| Listener.NotificationListener.HandleTransaction | NotificationListener.kt:70-79 | the ledger gains the transaction under its remembered category or "Uncategorized", and the events are `ReportEvents` of the old memory |
| Listener.NotificationListener.HandleSmsNotification | NotificationListener.kt:47-87 | the ledger and the events become `SmsLedger` and `SmsEvents` of the old state; the memory is unchanged |
| CategorySelection.ParseAmount | android/app/src/main/kotlin/com/example/expense_tracker/CategorySelectionActivity.kt:44-51 | the amount extra reads as a number exactly when it is amount text, and exactly, in hundredths |
| CategorySelection.CategorySelectionActivity.constructor | android/app/src/main/kotlin/com/example/expense_tracker/CategorySelectionActivity.kt:44-51 | each field comes from its extra, or its default ("", 0.0, "Unknown", "DEBIT", the current time) |
| CategorySelection.CategorySelectionActivity.UpdateTransactionCategory | android/app/src/main/kotlin/com/example/expense_tracker/CategorySelectionActivity.kt:299-319 | the loop gives `BackPatched`: the first entry with the id gets the category |
| CategorySelection.CategorySelectionActivity.SaveMerchantCategory | android/app/src/main/kotlin/com/example/expense_tracker/CategorySelectionActivity.kt:347-364 | the memory maps the merchant's trimmed, lowered name to the category |
| CategorySelection.CategorySelectionActivity.SelectCategory | android/app/src/main/kotlin/com/example/expense_tracker/CategorySelectionActivity.kt:320-345 | remember, back-patch, then report the categorised transaction |
| CategorySelection.CategorySelectionActivity.Dismiss | android/app/src/main/kotlin/com/example/expense_tracker/CategorySelectionActivity.kt:366-369 | the back key (and a tap on the background) picks "Others" |
| CategorySelection.PickPatchesReport | android/app/src/main/kotlin/com/example/expense_tracker/CategorySelectionActivity.kt:306-314 | a debit report filed as "Uncategorized" and then picked ends up as one entry with the picked category, when no earlier entry shares its id |
| CategorySelection.PickPatchesEarlierTwin | android/app/src/main/kotlin/com/example/expense_tracker/CategorySelectionActivity.kt:306-314 | when an earlier entry shares the timestamp, the pick patches that earlier entry and the new report stays "Uncategorized" |
| Scenarios.BodyAmount | NotificationListener.kt:244-265 | "Rs.500.00 debited from A/c XX1234 towards Swiggy." has the amount "500.00", from the currency family at the start |
| Scenarios.BodyAccount | android/app/src/main/kotlin/com/example/expense_tracker/NotificationParser.kt:40-46 | its account suffix is "1234" in both copies: the leftmost account mention is "A/c XX1234" |
| Scenarios.BodyKind | android/app/src/main/kotlin/com/example/expense_tracker/NotificationParser.kt:48-81 | it is a DEBIT in both copies: "debited" comes first at 10, within 50 of the account mention at 23 |
| Scenarios.BodyMerchant | android/app/src/main/kotlin/com/example/expense_tracker/NotificationParser.kt:352-397 | its merchant is "Swiggy" in both copies, from the "towards" pattern |
| Scenarios.BodyParsed | android/app/src/main/kotlin/com/example/expense_tracker/NotificationParser.kt:34-117 | both copies parse it as a DEBIT of "500.00" from the account ending "1234" at "Swiggy", stamped with the time of reading |
| Flows.ClassifiersDiffer | NotificationListener.kt:165-189 | the notification classifier is the SMS classifier restricted to messages with "A/c", "A/C" or "account" |
| Flows.PopupAmountIsExact | android/app/src/main/kotlin/com/example/expense_tracker/CategorySelectionActivity.kt:44-51 | both copies read the same amount, and the picker reads it back exactly, strictly between 0 and 10,000,000 |
| Flows.PickIsRecalledBySms | android/app/src/main/kotlin/com/example/expense_tracker/NotificationParser.kt:120-143 | after a pick, the next new transaction with the same merchant key is reported and stored by the SMS copy with that category, with no popup |
| Flows.PickIsRecalledByListener | NotificationListener.kt:70-79 | the same for the notification copy, whose report is followed by that category's cap check |

## Left out

- The UI, alarms and notifications are left out: Android views, notification channels, `PendingIntent`s, the buttons' layout, colours and icons. `showCategorizationNotification` and `sendCapWarningNotification` are left out too; the model records the request they serve as an event.
- `onNotificationPosted`, `extractMessagesFromNotification`, `MainActivity`, `SmsReciever`, `CategoryReceiver` and `TestSMSReceiver` are not part of this model: they are Android wiring around the engine.
- Logging is left out.
- `cleanUTF8String` is the identity here. It re-encodes the text through UTF-8, which changes nothing in the model's strings.
- JSON is modelled as typed values. The ledger is a sequence of entries, the memory is a map, and the Flutter store is a datatype whose optional parts stand for missing keys and malformed texts. A JSON exception is the `None` of those parts.
- `MainActivity.eventSink` is taken as always attached, and an exception inside a send is not modelled.
- Clocks and calendars are parameters: `System.currentTimeMillis()` is `now`, and `Calendar` is the function `periodOf`.
- The cap percentage uses exact reals, not rounded `Double`s. Only the Infinity and NaN of a zero divisor are written out. A negative cap or income is not treated specially.
- `\p{L}` and `\p{N}` are read as ASCII letters and digits. So the model's name filter drops non-ASCII letters, which the source keeps. `ignoreCase` and `lowercase()` fold ASCII only.
- Lengths are counted in characters, not in UTF-16 code units. This shows in the `< 100` test and in `take(50)`.
- `Ledger.Abs` does not model the `Long` overflow of `abs` for timestamps far apart.
- Concurrency is left out. There is no concurrent access to the preference store, nor concurrent delivery of notifications.
- CategorySelection.ParseAmount: `toDoubleOrNull` is modelled only on the texts the parsers can produce (a digit string with zero, one or two decimals). Other texts read as absent.
- CategorySelection.CategorySelectionActivity.SelectCategory: the event carries the amount as a number; its `Double.toString` form is not modelled.
- Caps.MonthSpending: `getCurrentMonthSpending` reads "flutter.saved_transactions", which is a different store from the "transactions" ledger this engine writes. So the model keeps the two apart, and a report does not raise the spending its own cap check sees.
- CategorySelection.CategorySelectionActivity.Dismiss models both the background tap and `onBackPressed`. Both call `selectCategory("Others")`.
- Ledger.Prefs.SaveTransactionLocally models the `saveTransactionLocally` of both copies. The two are the same code.
- Listener.NotificationListener.HandleTransaction is the part of `handleSmsNotification` after parsing. Its single send call has the category the remembered value gives, or "Uncategorized", which is what the source's two branches do.
- The screen's category list (`CategorySelection.Categories`) is a constant. There is no property to state about it.
- Listener.NotificationListener.HandleSmsNotification takes the sender and the body as given. The source picks them from the notification's extras first, as `title.ifEmpty { subText }` and `bigText.ifEmpty { text }` (NotificationListener.kt:59-60); reading the extras is not part of this model.
- `\b` in the OTP pattern uses ASCII word characters (letters, digits and `_`, `Chars.IsWordChar`), where java.util.regex also counts non-ASCII letters and digits.
