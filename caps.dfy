/**
 * Monthly spending per category and the category-cap alert decision of
 * the notification listener.
 *
 * Both read the preference store that the Flutter side keeps
 * ("FlutterSharedPreferences"): the category caps, the user's monthly
 * income and the saved transactions. That store is a value here. A key
 * that is absent, JSON that does not parse, or a field that is missing or
 * has the wrong type is `None`; the listener's `try`/`catch` turns each of
 * those into "no alert" or a spending of 0.
 */
module Caps {
  import opened Options

  /** One cap entry of "flutter.category_caps": its "type" and "value". */
  datatype CapConfig = CapConfig(kind: Option<string>, value: Option<real>)

  /**
   * One element of "flutter.saved_transactions", as the fields read from it:
   * "category", "type", "timestamp" and "amount". An element that is not a
   * JSON object fails on its first read, exactly like one without a
   * "category", so it is written as a record whose `category` is `None`.
   */
  datatype RawRecord = RawRecord(
    category: Option<string>, kind: Option<string>, timestamp: Option<int>, amount: Option<real>)

  /**
   * The Flutter-side store. `categoryCaps` maps each category to its cap
   * entry (`None` when it is not a JSON object); `monthlyIncome` is
   * "monthly_income" of "flutter.user_data".
   */
  datatype FlutterStore = FlutterStore(
    categoryCaps: Option<map<string, Option<CapConfig>>>,
    monthlyIncome: Option<real>,
    savedTransactions: Option<seq<RawRecord>>)

  /** The calendar month and year of an instant, in the device's time zone. */
  datatype Period = Period(month: int, year: int)

  // ---------------------------------------------------------------- spending

  /**
   * The contribution of one record to the spending of `category` in
   * period `p`, reading its fields in the order the loop does and only as
   * far as it does; `None` when one of those reads throws.
   */
  function RecordSpend(r: RawRecord, category: string, periodOf: int -> Period, p: Period): Option<real> {
    match r.category
    case None => None
    case Some(c) =>
      if c != category then Some(0.0)
      else
        match r.kind
        case None => None
        case Some(k) =>
          if k != "DEBIT" then Some(0.0)
          else
            match r.timestamp
            case None => None
            case Some(ts) =>
              if periodOf(ts) != p then Some(0.0)
              else r.amount
  }

  /** The running total over `rs`, or `None` once a record throws. */
  function SpendOf(rs: seq<RawRecord>, category: string, periodOf: int -> Period, p: Period): Option<real> {
    if rs == [] then Some(0.0)
    else
      match SpendOf(rs[..|rs| - 1], category, periodOf, p)
      case None => None
      case Some(total) =>
        match RecordSpend(rs[|rs| - 1], category, periodOf, p)
        case None => None
        case Some(x) => Some(total + x)
  }

  /** What `getCurrentMonthSpending(category)` returns when the current instant is `now`. */
  function MonthSpending(store: FlutterStore, category: string, periodOf: int -> Period, now: int): real {
    match store.savedTransactions
    case None => 0.0
    case Some(rs) => SpendOf(rs, category, periodOf, periodOf(now)).GetOr(0.0)
  }

  /** Once a prefix throws, so does the whole scan. */
  lemma {:induction false} SpendOfStaysFailed(rs: seq<RawRecord>, i: nat, category: string, periodOf: int -> Period, p: Period)
    requires i <= |rs| && SpendOf(rs[..i], category, periodOf, p).None?
    ensures SpendOf(rs, category, periodOf, p).None?
    decreases |rs| - i
  {
    if i < |rs| {
      assert rs[..i + 1][..i] == rs[..i];
      SpendOfStaysFailed(rs, i + 1, category, periodOf, p);
    } else {
      assert rs[..i] == rs;
    }
  }

  /** `getCurrentMonthSpending`: the loop over the saved transactions. */
  method GetCurrentMonthSpending(store: FlutterStore, category: string, periodOf: int -> Period, now: int)
    returns (total: real)
    ensures total == MonthSpending(store, category, periodOf, now)
  {
    if store.savedTransactions.None? {
      return 0.0;
    }
    var rs := store.savedTransactions.value;
    var current := periodOf(now);
    total := 0.0;
    var i := 0;
    while i < |rs|
      invariant 0 <= i <= |rs|
      invariant SpendOf(rs[..i], category, periodOf, current) == Some(total)
    {
      var r := rs[i];
      assert rs[..i + 1][..i] == rs[..i];
      if r.category.None? {
        SpendOfStaysFailed(rs, i + 1, category, periodOf, current);
        return 0.0;
      }
      if r.category.value == category {
        if r.kind.None? {
          SpendOfStaysFailed(rs, i + 1, category, periodOf, current);
          return 0.0;
        }
        if r.kind.value == "DEBIT" {
          if r.timestamp.None? {
            SpendOfStaysFailed(rs, i + 1, category, periodOf, current);
            return 0.0;
          }
          if periodOf(r.timestamp.value) == current {
            if r.amount.None? {
              SpendOfStaysFailed(rs, i + 1, category, periodOf, current);
              return 0.0;
            }
            total := total + r.amount.value;
          }
        }
      }
      i := i + 1;
    }
    assert rs[..i] == rs;
  }

  /** A record counts toward the total: same category, type DEBIT, same month and year. */
  predicate Counts(r: RawRecord, category: string, periodOf: int -> Period, p: Period) {
    r.category == Some(category) && r.kind == Some("DEBIT") && r.timestamp.Some?
    && periodOf(r.timestamp.value) == p
  }

  /** The amounts of the records that count, in order (a reference that never throws). */
  function CountedAmounts(rs: seq<RawRecord>, category: string, periodOf: int -> Period, p: Period): seq<real> {
    if rs == [] then []
    else
      CountedAmounts(rs[..|rs| - 1], category, periodOf, p)
      + (var r := rs[|rs| - 1]; if Counts(r, category, periodOf, p) then [r.amount.GetOr(0.0)] else [])
  }

  function Sum(xs: seq<real>): real {
    if xs == [] then 0.0 else Sum(xs[..|xs| - 1]) + xs[|xs| - 1]
  }

  lemma SumAppend(xs: seq<real>, ys: seq<real>)
    ensures Sum(xs + ys) == Sum(xs) + Sum(ys)
    decreases |ys|
  {
    if ys == [] {
      assert xs + ys == xs;
    } else {
      assert (xs + ys)[..|xs + ys| - 1] == xs + ys[..|ys| - 1];
      assert (xs + ys)[|xs + ys| - 1] == ys[|ys| - 1];
      SumAppend(xs, ys[..|ys| - 1]);
      calc {
        Sum(xs + ys);
        Sum(xs + ys[..|ys| - 1]) + ys[|ys| - 1];
        Sum(xs) + Sum(ys[..|ys| - 1]) + ys[|ys| - 1];
      }
    }
  }

  /**
   * When no read throws, the scan yields the sum of the amounts of the
   * records that count; when one does, it yields nothing.
   */
  lemma {:induction false} SpendOfIsSumOfCounted(rs: seq<RawRecord>, category: string, periodOf: int -> Period, p: Period)
    ensures (forall k :: 0 <= k < |rs| ==> RecordSpend(rs[k], category, periodOf, p).Some?) ==>
      SpendOf(rs, category, periodOf, p) == Some(Sum(CountedAmounts(rs, category, periodOf, p)))
    ensures (exists k :: 0 <= k < |rs| && RecordSpend(rs[k], category, periodOf, p).None?) ==>
      SpendOf(rs, category, periodOf, p).None?
  {
    if rs != [] {
      var init := rs[..|rs| - 1];
      var r := rs[|rs| - 1];
      SpendOfIsSumOfCounted(init, category, periodOf, p);
      var tail := if Counts(r, category, periodOf, p) then [r.amount.GetOr(0.0)] else [];
      SumAppend(CountedAmounts(init, category, periodOf, p), tail);
      assert forall k :: 0 <= k < |init| ==> init[k] == rs[k];
      if exists k :: 0 <= k < |rs| && RecordSpend(rs[k], category, periodOf, p).None? {
        var k :| 0 <= k < |rs| && RecordSpend(rs[k], category, periodOf, p).None?;
        if k < |init| {
          assert RecordSpend(init[k], category, periodOf, p).None?;
        }
      }
    }
  }

  /**
   * The spending of the current month: the sum of the DEBIT amounts of the
   * category in the month and year of `now` when the whole store reads
   * without error, and 0 otherwise.
   */
  lemma MonthSpendingSpec(store: FlutterStore, category: string, periodOf: int -> Period, now: int)
    ensures store.savedTransactions.None? ==> MonthSpending(store, category, periodOf, now) == 0.0
    ensures store.savedTransactions.Some? ==>
      var rs := store.savedTransactions.value;
      var p := periodOf(now);
      ((forall k :: 0 <= k < |rs| ==> RecordSpend(rs[k], category, periodOf, p).Some?) ==>
        MonthSpending(store, category, periodOf, now) == Sum(CountedAmounts(rs, category, periodOf, p)))
      && ((exists k :: 0 <= k < |rs| && RecordSpend(rs[k], category, periodOf, p).None?) ==>
        MonthSpending(store, category, periodOf, now) == 0.0)
  {
    if store.savedTransactions.Some? {
      SpendOfIsSumOfCounted(store.savedTransactions.value, category, periodOf, periodOf(now));
    }
  }

  // ---------------------------------------------------------------- cap alerts

  /** A Double percentage: a finite value, or what dividing by a zero cap gives. */
  datatype Percent = Finite(value: real) | PlusInfinity | MinusInfinity | NotANumber

  datatype Level = Warning | Exceeded

  /** The alert `sendCapWarningNotification` is asked to show. */
  datatype Alert = Alert(category: string, spend: real, cap: real, percent: Percent, level: Level)

  /** The cap in money: a share of the monthly income for "percentage" caps, else the value itself. */
  function CapAmount(capType: string, capValue: real, income: real): (r: real)
    ensures capType == "percentage" ==> r * 100.0 == income * capValue
    ensures capType != "percentage" ==> r == capValue
  {
    if capType == "percentage" then income * capValue / 100.0 else capValue
  }

  /** `currentMonthSpending / capAmount * 100` in Double arithmetic, without rounding. */
  function PercentUsed(spend: real, cap: real): (r: Percent)
    ensures cap != 0.0 ==> r.Finite? && r.value * cap == spend * 100.0
    ensures cap == 0.0 ==> (r == PlusInfinity <==> spend > 0.0) && (r == NotANumber <==> spend == 0.0)
  {
    if cap != 0.0 then Finite(spend / cap * 100.0)
    else if spend > 0.0 then PlusInfinity
    else if spend < 0.0 then MinusInfinity
    else NotANumber
  }

  /** "warning" on [80, 100), "exceeded" from 100 on; NaN and minus infinity compare false. */
  function BandOf(p: Percent): (r: Option<Level>)
    ensures r == Some(Warning) <==> p.Finite? && 80.0 <= p.value < 100.0
    ensures r == Some(Exceeded) <==> (p.Finite? && p.value >= 100.0) || p == PlusInfinity
  {
    match p
    case Finite(x) =>
      if x >= 80.0 && x < 100.0 then Some(Warning)
      else if x >= 100.0 then Some(Exceeded)
      else None
    case PlusInfinity => Some(Exceeded)
    case _ => None
  }

  /** The category has a cap entry with a type and a value, and the monthly income reads. */
  predicate Configured(store: FlutterStore, category: string) {
    store.categoryCaps.Some? && category in store.categoryCaps.value
    && store.categoryCaps.value[category].Some?
    && store.categoryCaps.value[category].value.kind.Some?
    && store.categoryCaps.value[category].value.value.Some?
    && store.monthlyIncome.Some?
  }

  /** The cap in money of a configured category. */
  function ConfiguredCap(store: FlutterStore, category: string): real
    requires Configured(store, category)
  {
    var cfg := store.categoryCaps.value[category].value;
    CapAmount(cfg.kind.value, cfg.value.value, store.monthlyIncome.value)
  }

  /**
   * `checkCategoryCapAndNotify(category)`: the alert it raises, if any. An
   * unconfigured category raises none; a configured one raises exactly the
   * alert the band of this month's spending against its cap calls for.
   */
  function CapAlertFor(store: FlutterStore, category: string, periodOf: int -> Period, now: int): (r: Option<Alert>)
    ensures !Configured(store, category) ==> r.None?
    ensures Configured(store, category) ==>
      var cap := ConfiguredCap(store, category);
      var spend := MonthSpending(store, category, periodOf, now);
      (r.Some? <==> BandOf(PercentUsed(spend, cap)).Some?)
      && (r.Some? ==>
            r.value.category == category && r.value.spend == spend && r.value.cap == cap
            && r.value.percent == PercentUsed(spend, cap)
            && Some(r.value.level) == BandOf(PercentUsed(spend, cap)))
  {
    match store.categoryCaps
    case None => None
    case Some(caps) =>
      if category !in caps then None
      else
        match caps[category]
        case None => None
        case Some(cfg) =>
          if cfg.kind.None? || cfg.value.None? || store.monthlyIncome.None? then None
          else
            var cap := CapAmount(cfg.kind.value, cfg.value.value, store.monthlyIncome.value);
            var spend := MonthSpending(store, category, periodOf, now);
            var pct := PercentUsed(spend, cap);
            match BandOf(pct)
            case None => None
            case Some(level) => Some(Alert(category, spend, cap, pct, level))
  }

  /**
   * Against a positive cap, the alert is a warning from 80 % of the cap up
   * to the cap, "exceeded" from the cap on, and absent below 80 %.
   */
  lemma CapAlertBands(store: FlutterStore, category: string, periodOf: int -> Period, now: int)
    requires Configured(store, category) && ConfiguredCap(store, category) > 0.0
    ensures var cap := ConfiguredCap(store, category);
      var spend := MonthSpending(store, category, periodOf, now);
      var r := CapAlertFor(store, category, periodOf, now);
      (r.Some? && r.value.level == Warning <==> 0.8 * cap <= spend < cap)
      && (r.Some? && r.value.level == Exceeded <==> spend >= cap)
      && (r.None? <==> spend < 0.8 * cap)
  {
    PositiveCapBands(MonthSpending(store, category, periodOf, now), ConfiguredCap(store, category));
  }

  /**
   * For a positive cap the bands are shares of the cap itself: a warning
   * from 80 % of it up to the cap, "exceeded" at the cap and above.
   */
  lemma PositiveCapBands(spend: real, cap: real)
    requires cap > 0.0
    ensures BandOf(PercentUsed(spend, cap)) == Some(Warning) <==> 0.8 * cap <= spend < cap
    ensures BandOf(PercentUsed(spend, cap)) == Some(Exceeded) <==> spend >= cap
    ensures BandOf(PercentUsed(spend, cap)).None? <==> spend < 0.8 * cap
  {
    PercentThresholds(PercentUsed(spend, cap).value, spend, cap);
  }

  /** A percentage `x` of a positive cap passes 80 and 100 exactly when the spending passes those shares. */
  lemma PercentThresholds(x: real, spend: real, cap: real)
    requires cap > 0.0 && x * cap == spend * 100.0
    ensures 80.0 <= x <==> 0.8 * cap <= spend
    ensures x < 100.0 <==> spend < cap
  {
    ScaleOrder(80.0, x, cap, 80.0 * cap, spend * 100.0);
    ScaleOrder(x, 100.0, cap, spend * 100.0, 100.0 * cap);
  }

  /** Multiplying by a positive factor `c` keeps the order: `xc` and `yc` are the products. */
  lemma ScaleOrder(x: real, y: real, c: real, xc: real, yc: real)
    requires c > 0.0 && xc == x * c && yc == y * c
    ensures x <= y <==> xc <= yc
    ensures x < y <==> xc < yc
  {
    var d := y - x;
    assert yc - xc == d * c;
    MulSign(d, c);
  }

  /** The sign of a product with a positive factor is the sign of the other factor. */
  lemma MulSign(d: real, c: real)
    requires c > 0.0
    ensures d > 0.0 ==> d * c > 0.0
    ensures d == 0.0 ==> d * c == 0.0
    ensures d < 0.0 ==> d * c < 0.0
  {
  }

  /** A zero cap: any spending exceeds it, no spending raises nothing (0/0 is NaN). */
  lemma ZeroCapBands(spend: real)
    ensures BandOf(PercentUsed(spend, 0.0)) == Some(Exceeded) <==> spend > 0.0
    ensures BandOf(PercentUsed(spend, 0.0)).None? <==> spend <= 0.0
  {
  }

  /** Scenario: a fixed cap of 1000 warns at a spending of 850 and is exceeded at 1050. */
  lemma FixedCapScenario()
    ensures CapAmount("fixed", 1000.0, 40000.0) == 1000.0
    ensures PercentUsed(850.0, 1000.0) == Finite(85.0)
    ensures BandOf(PercentUsed(850.0, 1000.0)) == Some(Warning)
    ensures BandOf(PercentUsed(1050.0, 1000.0)) == Some(Exceeded)
  {
  }

  /** Scenario: a 10 % cap on an income of 50000 is 5000. */
  lemma PercentageCapScenario()
    ensures CapAmount("percentage", 10.0, 50000.0) == 5000.0
  {
  }
}
