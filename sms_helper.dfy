/**
 * `SmsTransactionHelper`: the SMS entry point, which classifies, parses
 * and hands each message to the `NotificationParser` copy of the engine.
 */
module SmsHelper {
  import opened Ledger
  import opened Parser

  class SmsTransactionHelper {
    const prefs: Prefs
    const sink: EventSink

    constructor(prefs: Prefs, sink: EventSink)
      ensures this.prefs == prefs && this.sink == sink
    {
      this.prefs := prefs;
      this.sink := sink;
    }

    /**
     * `processSms(sender, body)` at instant `now`: a message that is not a
     * transaction, or has no amount, leaves the store and the sink alone;
     * a parsed one is handled (repeat check, store, report).
     */
    method ProcessSms(sender: string, body: string, now: int)
      modifies prefs, sink
      ensures prefs.merchantCategories == old(prefs.merchantCategories)
      ensures !IsTransactionMessage(sender, body) || Parse(sender, body, now).None? ==>
        prefs.transactions == old(prefs.transactions) && sink.events == old(sink.events)
      ensures IsTransactionMessage(sender, body) && Parse(sender, body, now).Some? ==>
        var t := Parse(sender, body, now).value;
        prefs.transactions == HandledLedger(old(prefs.transactions), old(prefs.merchantCategories), t)
        && sink.events
          == old(sink.events) + HandledEvents(old(prefs.transactions), old(prefs.merchantCategories), t)
    {
      var parser := new NotificationParser(prefs, sink);
      var isTransaction := IsTransactionMessage(sender, body);
      if isTransaction {
        var transaction := Parse(sender, body, now);
        if transaction.Some? {
          parser.HandleTransaction(transaction.value);
        }
      }
    }
  }
}
