/**
 * The records both notification paths produce, the "expense_tracker"
 * preference store they write (the transaction ledger and the
 * merchant-to-category memory), and the events sent to the Flutter side.
 *
 * The store's JSON texts are typed values here: the ledger is a sequence
 * of entries and the memory a map from normalised merchant names to
 * categories.
 */
module Ledger {
  import opened Options
  import opened Chars
  import opened Decimal
  import opened Caps

  datatype Kind = Debit | Credit | Unknown

  /** The type string stored and sent: "DEBIT", "CREDIT" or "UNKNOWN". */
  function KindName(k: Kind): string {
    match k
    case Debit => "DEBIT"
    case Credit => "CREDIT"
    case Unknown => "UNKNOWN"
  }

  /** A parsed transaction (`NotificationListener.Transaction`); `timestamp` is in ms. */
  datatype Transaction = Transaction(
    kind: Kind, amount: string, bank: string, account: string,
    merchant: string, balance: string, timestamp: int)

  /** One object of the "transactions" JSON array. */
  datatype Entry = Entry(
    id: string, kind: Kind, amount: string, bank: string, account: string,
    merchant: string, balance: string, timestamp: int, category: string)

  /** The extras of the intent that opens the category picker; absent ones are `None`. */
  datatype Extras = Extras(
    transactionId: Option<string>, amount: Option<string>, merchant: Option<string>,
    kind: Option<string>, bank: Option<string>, account: Option<string>,
    balance: Option<string>, timestamp: Option<int>)

  datatype Event =
      /** The map `sendToFlutter` passes to the event sink. */
    | TransactionReported(transaction: Transaction, category: string)
      /** The category picker is asked for, directly or through a notification. */
    | CategorizationRequested(extras: Extras)
      /** The map `selectCategory` passes to the event sink (with "isCategorized" true). */
    | CategoryAssigned(
        id: string, kind: string, amount: real, merchant: string, account: string,
        bank: string, balance: string, timestamp: int, category: string)
      /** A cap notification of the listener. */
    | CapNotice(alert: Alert)

  /** The entry `saveTransactionLocally` builds: its id is the timestamp's decimal text. */
  function EntryOf(t: Transaction, category: string): Entry {
    Entry(IntToString(t.timestamp), t.kind, t.amount, t.bank, t.account,
          t.merchant, t.balance, t.timestamp, category)
  }

  /** The extras both paths put on the picker intent. */
  function PopupExtras(t: Transaction): Extras {
    Extras(Some(IntToString(t.timestamp)), Some(t.amount), Some(t.merchant),
           Some(KindName(t.kind)), Some(t.bank), Some(t.account), Some(t.balance),
           Some(t.timestamp))
  }

  // ---------------------------------------------------------------- saving

  /** The ledger after `saveTransactionLocally(t, category)`. */
  function Saved(ledger: seq<Entry>, t: Transaction, category: string): seq<Entry> {
    if t.kind == Credit then ledger else ledger + [EntryOf(t, category)]
  }

  /**
   * Income is never stored; anything else adds exactly one entry at the
   * end, with the transaction's fields, the timestamp text as its id and
   * the given category, and leaves the earlier entries as they were.
   */
  lemma SavedSpec(ledger: seq<Entry>, t: Transaction, category: string)
    ensures t.kind == Credit ==> Saved(ledger, t, category) == ledger
    ensures t.kind != Credit ==>
      var r := Saved(ledger, t, category);
      |r| == |ledger| + 1 && r[..|ledger|] == ledger
      && r[|ledger|].id == IntToString(t.timestamp) && r[|ledger|].category == category
      && r[|ledger|].kind == t.kind && r[|ledger|].amount == t.amount
      && r[|ledger|].merchant == t.merchant && r[|ledger|].timestamp == t.timestamp
  {
  }

  predicate NoCredit(ledger: seq<Entry>) {
    forall k :: 0 <= k < |ledger| ==> ledger[k].kind != Credit
  }

  /** A ledger that holds no income keeps holding none. */
  lemma SavedKeepsNoCredit(ledger: seq<Entry>, t: Transaction, category: string)
    requires NoCredit(ledger)
    ensures NoCredit(Saved(ledger, t, category))
  {
  }

  /** Two saved transactions share an id only when they share a timestamp. */
  lemma EntryIdsFollowTimestamps(t: Transaction, u: Transaction, c: string, d: string)
    requires EntryOf(t, c).id == EntryOf(u, d).id
    ensures t.timestamp == u.timestamp
  {
    IntToStringInjective(t.timestamp, u.timestamp);
  }

  // ---------------------------------------------------------------- duplicates

  function Abs(x: int): nat { if x < 0 then -x else x }

  /** A stored entry repeats `t`: within 10 s of it, with equal amount and merchant texts. */
  predicate SameWithinWindow(e: Entry, t: Transaction) {
    Abs(t.timestamp - e.timestamp) < 10000 && e.amount == t.amount && e.merchant == t.merchant
  }

  ghost predicate Duplicate(ledger: seq<Entry>, t: Transaction) {
    exists k :: 0 <= k < |ledger| && SameWithinWindow(ledger[k], t)
  }

  // ---------------------------------------------------------------- back-patch

  /** The ledger after the category of the first entry with id `id` is set to `category`. */
  function BackPatched(ledger: seq<Entry>, id: string, category: string): seq<Entry> {
    if ledger == [] then []
    else if ledger[0].id == id then [ledger[0].(category := category)] + ledger[1..]
    else [ledger[0]] + BackPatched(ledger[1..], id, category)
  }

  /** `k` is the first position whose entry has id `id`. */
  predicate FirstWithId(ledger: seq<Entry>, id: string, k: int) {
    0 <= k < |ledger| && ledger[k].id == id && forall j :: 0 <= j < k ==> ledger[j].id != id
  }

  /** Back-patching keeps the number of entries. */
  lemma {:induction false} BackPatchedLength(ledger: seq<Entry>, id: string, category: string)
    ensures |BackPatched(ledger, id, category)| == |ledger|
  {
    if ledger != [] {
      BackPatchedLength(ledger[1..], id, category);
    }
  }

  /** Without an entry carrying the id, the ledger stays as it was. */
  lemma {:induction false} BackPatchedWithoutId(ledger: seq<Entry>, id: string, category: string)
    requires forall j :: 0 <= j < |ledger| ==> ledger[j].id != id
    ensures BackPatched(ledger, id, category) == ledger
  {
    if ledger != [] {
      BackPatchedWithoutId(ledger[1..], id, category);
      assert ledger == [ledger[0]] + ledger[1..];
    }
  }

  /** Only the category of the first entry with the id changes. */
  lemma {:induction false} BackPatchedFirst(ledger: seq<Entry>, id: string, category: string, k: nat)
    requires FirstWithId(ledger, id, k)
    ensures BackPatched(ledger, id, category) == ledger[k := ledger[k].(category := category)]
  {
    var rest := ledger[1..];
    if k == 0 {
      assert ledger[0 := ledger[0].(category := category)] == [ledger[0].(category := category)] + rest;
    } else {
      assert FirstWithId(rest, id, k - 1);
      BackPatchedFirst(rest, id, category, k - 1);
      assert ledger[k := ledger[k].(category := category)]
        == [ledger[0]] + rest[k - 1 := rest[k - 1].(category := category)];
    }
  }

  // ---------------------------------------------------------------- merchant memory

  /** The key a merchant is remembered under: `merchant.trim().lowercase()`. */
  function Key(merchant: string): string {
    LowerStr(Trim(merchant))
  }

  /** `getSavedCategory` / `getSavedCategoryForMerchant`. */
  function SavedCategory(memory: map<string, string>, merchant: string): Option<string> {
    if Key(merchant) in memory then Some(memory[Key(merchant)]) else None
  }

  /** The memory after `saveMerchantCategory(merchant, category)`. */
  function Remember(memory: map<string, string>, merchant: string, category: string): map<string, string> {
    memory[Key(merchant) := category]
  }

  /**
   * A merchant remembered under some category is then looked up with that
   * category, under any spelling with the same key, and every other key
   * keeps its value.
   */
  lemma RememberThenRecall(memory: map<string, string>, merchant: string, other: string, category: string)
    ensures Key(other) == Key(merchant) ==>
      SavedCategory(Remember(memory, merchant, category), other) == Some(category)
    ensures Key(other) != Key(merchant) ==>
      SavedCategory(Remember(memory, merchant, category), other) == SavedCategory(memory, other)
  {
  }

  /** Saving keeps every other key and its value. */
  lemma RememberKeepsOthers(memory: map<string, string>, merchant: string, category: string)
    ensures forall k :: k != Key(merchant) ==>
      (k in Remember(memory, merchant, category) <==> k in memory)
    ensures forall k :: k != Key(merchant) && k in memory ==>
      Remember(memory, merchant, category)[k] == memory[k]
  {
  }

  /** The last save for a merchant wins, and repeating a save changes nothing. */
  lemma RememberLastWins(memory: map<string, string>, merchant: string, c1: string, c2: string)
    ensures Remember(Remember(memory, merchant, c1), merchant, c2) == Remember(memory, merchant, c2)
    ensures Remember(Remember(memory, merchant, c1), merchant, c1) == Remember(memory, merchant, c1)
  {
  }

  /** Normalising a key again gives the same key. */
  lemma KeyIdempotent(merchant: string)
    ensures Key(Key(merchant)) == Key(merchant)
  {
    var t := Trim(merchant);
    var l := LowerStr(t);
    LowerStrAt(t);
    if l != [] {
      LowerKeepsSpace(t[0]);
      LowerKeepsSpace(t[|t| - 1]);
    }
    TrimOfTrimmed(l);
    LowerStrIdempotent(t);
  }

  /** The category a transaction is reported with: the remembered one, else "Uncategorized". */
  function CategoryFor(memory: map<string, string>, t: Transaction): string {
    SavedCategory(memory, t.merchant).GetOr("Uncategorized")
  }

  // ---------------------------------------------------------------- stores

  /** The "expense_tracker" preference store. */
  class Prefs {
    var transactions: seq<Entry>
    var merchantCategories: map<string, string>

    constructor(transactions: seq<Entry>, merchantCategories: map<string, string>)
      ensures this.transactions == transactions
      ensures this.merchantCategories == merchantCategories
    {
      this.transactions := transactions;
      this.merchantCategories := merchantCategories;
    }

    /**
     * `saveTransactionLocally`, the same code in both notification paths:
     * CREDIT is skipped, anything else is appended and the array rewritten.
     */
    method SaveTransactionLocally(t: Transaction, category: string)
      modifies this
      ensures transactions == Saved(old(transactions), t, category)
      ensures merchantCategories == old(merchantCategories)
    {
      if t.kind == Credit {
        return;
      }
      transactions := transactions + [EntryOf(t, category)];
    }
  }

  /** `MainActivity.eventSink`: everything handed to it, in order. */
  class EventSink {
    var events: seq<Event>

    constructor()
      ensures events == []
    {
      events := [];
    }

    method Emit(e: Event)
      modifies this
      ensures events == old(events) + [e]
    {
      events := events + [e];
    }
  }
}
