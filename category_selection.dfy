/**
 * `CategorySelectionActivity`: the category picker opened from the
 * categorisation popup.
 *
 * It reads the transaction from the intent's extras. Picking a category
 * (a button, the background, or the back key) remembers the merchant's
 * category, writes it into the stored entry with the transaction's id,
 * and reports the categorised transaction.
 */
module CategorySelection {
  import opened Options
  import opened Decimal
  import opened Ledger

  /** The categories the picker offers, in display order. */
  const Categories: seq<string> := [
    "Food", "Groceries", "Shopping", "Clothes", "Laundry",
    "Transport", "Entertainment", "Bills", "Health", "Others"
  ]

  /**
   * `toDoubleOrNull` on the amount texts the parsers produce: a plain or
   * one- or two-decimal number, read exactly.
   */
  function ParseAmount(s: string): (r: Option<real>)
    ensures r.Some? <==> IsAmountText(s)
    ensures r.Some? ==> r.value * 100.0 == Hundredths(s) as real && r.value >= 0.0
  {
    if IsAmountText(s) then Some(Hundredths(s) as real / 100.0) else None
  }

  class CategorySelectionActivity {
    const prefs: Prefs
    const sink: EventSink
    var transactionId: string
    var amount: real
    var merchant: string
    var kind: string
    var bank: string
    var account: string
    var balance: string
    var timestamp: int

    /** `onCreate`: the transaction's fields from the extras, each with its default; `now` is the clock. */
    constructor(prefs: Prefs, sink: EventSink, extras: Extras, now: int)
      ensures this.prefs == prefs && this.sink == sink
      ensures transactionId == extras.transactionId.GetOr("")
      ensures amount == (if extras.amount.Some? then ParseAmount(extras.amount.value).GetOr(0.0) else 0.0)
      ensures merchant == extras.merchant.GetOr("Unknown")
      ensures kind == extras.kind.GetOr("DEBIT")
      ensures bank == extras.bank.GetOr("") && account == extras.account.GetOr("")
      ensures balance == extras.balance.GetOr("")
      ensures timestamp == extras.timestamp.GetOr(now)
    {
      this.prefs := prefs;
      this.sink := sink;
      transactionId := extras.transactionId.GetOr("");
      amount := if extras.amount.Some? then ParseAmount(extras.amount.value).GetOr(0.0) else 0.0;
      merchant := extras.merchant.GetOr("Unknown");
      kind := extras.kind.GetOr("DEBIT");
      bank := extras.bank.GetOr("");
      account := extras.account.GetOr("");
      balance := extras.balance.GetOr("");
      timestamp := extras.timestamp.GetOr(now);
    }

    /** `updateTransactionCategory`: the first stored entry with the id gets the category. */
    method UpdateTransactionCategory(id: string, category: string)
      modifies prefs
      ensures prefs.transactions == BackPatched(old(prefs.transactions), id, category)
      ensures prefs.merchantCategories == old(prefs.merchantCategories)
    {
      var transactions := prefs.transactions;
      var i := 0;
      while i < |transactions|
        invariant 0 <= i <= |transactions|
        invariant forall j :: 0 <= j < i ==> transactions[j].id != id
        invariant prefs.transactions == transactions
      {
        if transactions[i].id == id {
          assert FirstWithId(transactions, id, i);
          BackPatchedFirst(transactions, id, category, i);
          prefs.transactions := transactions[i := transactions[i].(category := category)];
          return;
        }
        i := i + 1;
      }
      BackPatchedWithoutId(transactions, id, category);
    }

    /** `saveMerchantCategory`: remembers the category under the merchant's normalised key. */
    method SaveMerchantCategory(merchant: string, category: string)
      modifies prefs
      ensures prefs.merchantCategories == Remember(old(prefs.merchantCategories), merchant, category)
      ensures prefs.transactions == old(prefs.transactions)
    {
      prefs.merchantCategories := prefs.merchantCategories[Key(merchant) := category];
    }

    /** `selectCategory`: remember, patch the stored entry, and report the categorised transaction. */
    method SelectCategory(category: string)
      modifies prefs, sink
      ensures prefs.merchantCategories == Remember(old(prefs.merchantCategories), merchant, category)
      ensures prefs.transactions == BackPatched(old(prefs.transactions), transactionId, category)
      ensures sink.events == old(sink.events)
        + [CategoryAssigned(transactionId, kind, amount, merchant, account, bank, balance, timestamp, category)]
    {
      SaveMerchantCategory(merchant, category);
      UpdateTransactionCategory(transactionId, category);
      sink.Emit(CategoryAssigned(transactionId, kind, amount, merchant, account, bank, balance, timestamp, category));
    }

    /** A tap on the background or the back key: the transaction is filed under "Others". */
    method Dismiss()
      modifies prefs, sink
      ensures prefs.merchantCategories == Remember(old(prefs.merchantCategories), merchant, "Others")
      ensures prefs.transactions == BackPatched(old(prefs.transactions), transactionId, "Others")
      ensures sink.events == old(sink.events)
        + [CategoryAssigned(transactionId, kind, amount, merchant, account, bank, balance, timestamp, "Others")]
    {
      SelectCategory("Others");
    }
  }

  /**
   * A report filed as "Uncategorized" and then picked as `category` ends up
   * as one entry with that category, provided no earlier entry carries the
   * same id (the same millisecond timestamp). Income, which is never
   * stored, leaves the ledger as it was.
   */
  lemma PickPatchesReport(ledger: seq<Entry>, t: Transaction, category: string)
    requires forall j :: 0 <= j < |ledger| ==> ledger[j].id != IntToString(t.timestamp)
    ensures t.kind != Credit ==>
      BackPatched(Saved(ledger, t, "Uncategorized"), IntToString(t.timestamp), category)
      == ledger + [EntryOf(t, category)]
    ensures t.kind == Credit ==>
      BackPatched(Saved(ledger, t, "Uncategorized"), IntToString(t.timestamp), category) == ledger
  {
    var id := IntToString(t.timestamp);
    var saved := Saved(ledger, t, "Uncategorized");
    if t.kind != Credit {
      assert FirstWithId(saved, id, |ledger|);
      BackPatchedFirst(saved, id, category, |ledger|);
      assert saved[|ledger| := saved[|ledger|].(category := category)] == ledger + [EntryOf(t, category)];
    } else {
      BackPatchedWithoutId(saved, id, category);
    }
  }

  /**
   * When an earlier entry shares the timestamp, the pick patches that
   * earlier entry, and the new report keeps "Uncategorized".
   */
  lemma PickPatchesEarlierTwin(ledger: seq<Entry>, t: Transaction, category: string, k: nat)
    requires t.kind != Credit && category != "Uncategorized"
    requires FirstWithId(ledger, IntToString(t.timestamp), k)
    ensures var r := BackPatched(Saved(ledger, t, "Uncategorized"), IntToString(t.timestamp), category);
      |r| == |ledger| + 1 && r[k].category == category && r[|ledger|].category == "Uncategorized"
  {
    var id := IntToString(t.timestamp);
    var saved := Saved(ledger, t, "Uncategorized");
    assert FirstWithId(saved, id, k);
    BackPatchedFirst(saved, id, category, k);
  }
}
