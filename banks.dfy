/**
 * The display name of the bank or payment app behind an SMS sender id.
 * Both notification paths use the same ordered table.
 */
module Banks {
  import opened Chars

  /** The sender tokens looked for, in order, and the name each stands for. */
  const BankTable: seq<(string, string)> := [
    ("HDFC", "HDFC Bank"),
    ("ICICI", "ICICI Bank"),
    ("SBI", "State Bank of India"),
    ("AXIS", "Axis Bank"),
    ("KOTAK", "Kotak Bank"),
    ("YES", "Yes Bank"),
    ("INDUS", "IndusInd Bank"),
    ("PAYTM", "Paytm"),
    ("PHONEPE", "PhonePe"),
    ("GPAY", "Google Pay"),
    ("AMAZON", "Amazon Pay"),
    ("PNB", "Punjab National Bank"),
    ("CANARA", "Canara Bank"),
    ("BOB", "Bank of Baroda"),
    ("UNION", "Union Bank")
  ]

  /** The name of the first table entry from `k` on whose token the sender contains. */
  function BankFrom(sender: string, k: nat): (r: string)
    decreases |BankTable| - k
  {
    if k >= |BankTable| then sender
    else if Contains(sender, BankTable[k].0) then BankTable[k].1
    else BankFrom(sender, k + 1)
  }

  /** `determineBankFromSender`. */
  function BankFromSender(sender: string): string {
    BankFrom(sender, 0)
  }

  /** A sender matching no row from `k` on is its own bank name. */
  lemma {:induction false} BankFromNoRow(sender: string, k: nat)
    requires k <= |BankTable|
    requires forall j :: k <= j < |BankTable| ==> !Occurs(sender, BankTable[j].0)
    ensures BankFrom(sender, k) == sender
    decreases |BankTable| - k
  {
    if k < |BankTable| {
      BankFromNoRow(sender, k + 1);
    }
  }

  /** The first row from `k` on whose token occurs in the sender (ignoring case) names the bank. */
  lemma {:induction false} BankFromFirstRow(sender: string, k: nat, j: nat)
    requires k <= j < |BankTable| && Occurs(sender, BankTable[j].0)
    requires forall i :: k <= i < j ==> !Occurs(sender, BankTable[i].0)
    ensures BankFrom(sender, k) == BankTable[j].1
    decreases j - k
  {
    if k < j {
      assert !Occurs(sender, BankTable[k].0);
      BankFromFirstRow(sender, k + 1, j);
    }
  }

  /**
   * `determineBankFromSender`: the first row whose token occurs in the
   * sender names the bank; a sender matching no row is its own bank name.
   */
  lemma BankFromSenderSpec(sender: string)
    ensures (forall j :: 0 <= j < |BankTable| ==> !Occurs(sender, BankTable[j].0))
      ==> BankFromSender(sender) == sender
    ensures forall j :: 0 <= j < |BankTable| ==>
      (Occurs(sender, BankTable[j].0) && forall i :: 0 <= i < j ==> !Occurs(sender, BankTable[i].0))
      ==> BankFromSender(sender) == BankTable[j].1
  {
    if forall j :: 0 <= j < |BankTable| ==> !Occurs(sender, BankTable[j].0) {
      BankFromNoRow(sender, 0);
    }
    forall j | 0 <= j < |BankTable| &&
      Occurs(sender, BankTable[j].0) && forall i :: 0 <= i < j ==> !Occurs(sender, BankTable[i].0)
      ensures BankFromSender(sender) == BankTable[j].1
    {
      BankFromFirstRow(sender, 0, j);
    }
  }

  /** Scenario: a sender id such as "VM-HDFCBK" is attributed to HDFC Bank. */
  lemma HdfcSender()
    ensures BankFromSender("VM-HDFCBK") == "HDFC Bank"
  {
    assert LitAt("VM-HDFCBK", 3, "HDFC");
  }
}
