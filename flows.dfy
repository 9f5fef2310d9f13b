/**
 * Properties that span the two copies of the engine and the category
 * picker: how their classifiers relate, what the picker reads back from
 * a popup, and how a pick changes later reports.
 */
module Flows {
  import opened Options
  import opened Chars
  import opened Decimal
  import opened Patterns
  import opened Caps
  import opened Ledger
  import Parser
  import Listener
  import CategorySelection

  /**
   * The notification copy accepts exactly those messages the SMS copy
   * accepts that mention "A/c", "A/C" or "account": a message whose only
   * account mention is "Acct" or "card" passes the SMS path alone.
   */
  lemma ClassifiersDiffer(sender: string, body: string)
    ensures Listener.IsTransactionMessage(sender, body) <==>
      Parser.IsTransactionMessage(sender, body)
      && (Occurs(body, "A/c") || Occurs(body, "A/C") || Occurs(body, "account"))
  {
  }

  /**
   * Both copies read the same amount from a message, and the picker opened
   * for either one reads that amount back exactly, in hundredths.
   */
  lemma PopupAmountIsExact(sender: string, body: string, now: int)
    requires AmountOf(body).Some?
    ensures Parser.Parse(sender, body, now).value.amount == Listener.Parse(sender, body, now).value.amount
    ensures var a := PopupExtras(Listener.Parse(sender, body, now).value).amount.value;
      CategorySelection.ParseAmount(a).Some?
      && CategorySelection.ParseAmount(a).value * 100.0 == Hundredths(AmountOf(body).value) as real
      && 0.0 < CategorySelection.ParseAmount(a).value < 10000000.0
  {
    AmountShape(body);
  }

  /**
   * Once a category has been picked for a merchant, the next transaction
   * whose merchant has the same key is reported with it and stored with it
   * by the SMS copy, without another popup (unless it repeats a stored one).
   */
  lemma PickIsRecalledBySms(ledger: seq<Entry>, memory: map<string, string>, merchant: string,
                            category: string, t: Transaction)
    requires Key(t.merchant) == Key(merchant) && !Duplicate(ledger, t)
    ensures Parser.HandledEvents(ledger, Remember(memory, merchant, category), t)
      == [TransactionReported(t, category)]
    ensures Parser.HandledLedger(ledger, Remember(memory, merchant, category), t) == Saved(ledger, t, category)
  {
    RememberThenRecall(memory, merchant, t.merchant, category);
  }

  /** The same for the notification copy, whose report is followed by the cap check of that category. */
  lemma PickIsRecalledByListener(memory: map<string, string>, store: FlutterStore, periodOf: int -> Period,
                                 merchant: string, category: string, t: Transaction, now: int)
    requires Key(t.merchant) == Key(merchant)
    ensures Listener.ReportEvents(Remember(memory, merchant, category), store, periodOf, t, now)
      == [TransactionReported(t, category)] + Listener.CapEvents(store, category, periodOf, now)
    ensures CategoryFor(Remember(memory, merchant, category), t) == category
  {
    var m := Remember(memory, merchant, category);
    assert Key(t.merchant) in m && m[Key(t.merchant)] == category;
    Listener.ReportWithSavedCategory(m, store, periodOf, t, now, category);
  }
}
