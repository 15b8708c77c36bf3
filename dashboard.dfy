/** The figures of the daily summary screen: today's entries, today's sales
    and expenses, the estimated profit, the per-payment-method breakdown,
    the low-stock alerts and the headline number. All of it is computed from
    the ledger, the catalog and the current time, with nothing stored. */
module Dashboard {
  import opened Base
  import opened Types
  import opened MockDb

  /** Milliseconds in a day. */
  const DayMs: int := 86400000

  /** The UTC calendar day of a timestamp, as a day number since the epoch.
      Two timestamps have the same `toISOString()` date part exactly when
      they have the same day number. */
  function UtcDay(ts: int): (d: int)
    ensures DayMs * d <= ts < DayMs * (d + 1)
  {
    ts / DayMs
  }

  /** Day numbers are unique: a timestamp lies in exactly one day. */
  lemma UtcDayUnique(ts: int, d: int)
    requires DayMs * d <= ts < DayMs * (d + 1)
    ensures UtcDay(ts) == d
  {
  }

  function OnDay(day: int): Transaction -> bool
  {
    (t: Transaction) => UtcDay(t.timestamp) == day
  }

  /** `todayTxs`: the entries dated on the same UTC day as `now`, in ledger
      order. */
  function TodayTxs(ts: seq<Transaction>, now: int): (r: seq<Transaction>)
    ensures forall i :: 0 <= i < |r| ==> r[i] in ts && UtcDay(r[i].timestamp) == UtcDay(now)
    ensures forall i :: 0 <= i < |ts| && UtcDay(ts[i].timestamp) == UtcDay(now) ==> ts[i] in r
  {
    Filter(ts, OnDay(UtcDay(now)))
  }

  /** `salesToday`: the sum of today's sale amounts. */
  function SalesToday(ts: seq<Transaction>, now: int): (r: real)
    ensures (forall i :: 0 <= i < |ts| ==> ts[i].amount >= 0.0) ==> r >= 0.0
  {
    SalesTotal(TodayTxs(ts, now))
  }

  /** `expensesToday`: the sum of today's expense amounts. */
  function ExpensesToday(ts: seq<Transaction>, now: int): (r: real)
    ensures (forall i :: 0 <= i < |ts| ==> ts[i].amount >= 0.0) ==> r >= 0.0
  {
    ExpenseTotal(TodayTxs(ts, now))
  }

  /** A new entry counts towards today's sales exactly when it is a sale
      dated today, and then by its amount; today's expenses likewise. */
  lemma RecordAddsToToday(ts: seq<Transaction>, tx: Transaction, now: int)
    ensures SalesToday([tx] + ts, now)
         == SalesToday(ts, now) + (if tx.txType == Sale && UtcDay(tx.timestamp) == UtcDay(now) then tx.amount else 0.0)
    ensures ExpensesToday([tx] + ts, now)
         == ExpensesToday(ts, now) + (if tx.txType == Expense && UtcDay(tx.timestamp) == UtcDay(now) then tx.amount else 0.0)
  {
    var day := OnDay(UtcDay(now));
    assert ([tx] + ts)[1..] == ts;
    FilterAppend([tx], ts, day);
    var head := Filter([tx], day);
    FilterAppend(head, Filter(ts, day), IsSale);
    FilterAppend(head, Filter(ts, day), IsExpense);
    AmountSumAppend(Filter(head, IsSale), Filter(Filter(ts, day), IsSale));
    AmountSumAppend(Filter(head, IsExpense), Filter(Filter(ts, day), IsExpense));
  }

  // --------------------------------------------------------- Estimated profit

  /** The entries the profit fold looks at: sales with a (non-empty) item id. */
  predicate IsLinkedSale(t: Transaction)
  {
    t.txType == Sale && Present(t.itemId)
  }

  /** What one entry adds to the estimated profit: the margin times
      `quantity || 1` when its item is in the catalog, a fifth of its amount
      when the item is gone, and nothing when it is not a linked sale. */
  function LineProfit(ps: seq<Product>, t: Transaction): real
  {
    if !IsLinkedSale(t) then 0.0
    else match Find(ps, ProductIdIs(t.itemId.value))
      case None => t.amount * 0.2
      case Some(p) => (p.sellPrice - p.buyPrice) * QuantityOrOne(t.quantity)
  }

  function ProfitSum(ps: seq<Product>, ts: seq<Transaction>): real
  {
    if ts == [] then 0.0 else LineProfit(ps, ts[0]) + ProfitSum(ps, ts[1..])
  }

  /** `estimatedProfit`: the profit fold over today's linked sales. */
  function EstimatedProfit(ps: seq<Product>, ts: seq<Transaction>, now: int): real
  {
    ProfitSum(ps, Filter(TodayTxs(ts, now), IsLinkedSale))
  }

  lemma {:induction false} ProfitSumAppend(ps: seq<Product>, a: seq<Transaction>, b: seq<Transaction>)
    ensures ProfitSum(ps, a + b) == ProfitSum(ps, a) + ProfitSum(ps, b)
  {
    if a == [] {
      assert a + b == b;
    } else {
      assert (a + b)[0] == a[0];
      assert (a + b)[1..] == a[1..] + b;
      ProfitSumAppend(ps, a[1..], b);
    }
  }

  /** Filtering out the entries that are not linked sales does not change the
      sum, because they contribute nothing anyway. */
  lemma {:induction false} LinkedFilterRedundant(ps: seq<Product>, ts: seq<Transaction>)
    ensures ProfitSum(ps, Filter(ts, IsLinkedSale)) == ProfitSum(ps, ts)
  {
    if ts != [] {
      var head: seq<Transaction> := if IsLinkedSale(ts[0]) then [ts[0]] else [];
      ProfitSumAppend(ps, head, Filter(ts[1..], IsLinkedSale));
      LinkedFilterRedundant(ps, ts[1..]);
    }
  }

  /** The estimated profit is the sum, over today's entries, of the
      per-entry contributions; the two loads of ledger add up. */
  lemma EstimatedProfitAdditive(ps: seq<Product>, a: seq<Transaction>, b: seq<Transaction>, now: int)
    ensures EstimatedProfit(ps, a + b, now) == EstimatedProfit(ps, a, now) + EstimatedProfit(ps, b, now)
  {
    var day := OnDay(UtcDay(now));
    FilterAppend(a, b, day);
    FilterAppend(Filter(a, day), Filter(b, day), IsLinkedSale);
    ProfitSumAppend(ps, Filter(Filter(a, day), IsLinkedSale), Filter(Filter(b, day), IsLinkedSale));
  }

  /** A single entry adds its own share if it is dated today and nothing
      otherwise. */
  lemma EstimatedProfitOfOne(ps: seq<Product>, t: Transaction, now: int)
    ensures EstimatedProfit(ps, [t], now)
         == if UtcDay(t.timestamp) == UtcDay(now) then LineProfit(ps, t) else 0.0
  {
    var day := OnDay(UtcDay(now));
    assert [t] + [] == [t];
    FilterCons(t, [], day);
    var today := TodayTxs([t], now);
    if UtcDay(t.timestamp) == UtcDay(now) {
      assert today == [t];
      FilterCons(t, [], IsLinkedSale);
      if IsLinkedSale(t) {
        assert Filter(today, IsLinkedSale) == [t];
        assert [t][1..] == [];
        assert ProfitSum(ps, [t]) == LineProfit(ps, t) + ProfitSum(ps, []);
      } else {
        assert Filter(today, IsLinkedSale) == [];
      }
    } else {
      assert today == [];
    }
  }

  /** An entry's share: nothing unless it is a sale with an item id; then
      the margin of the first catalog product with that id times
      `quantity || 1`, or a fifth of the amount when no product has it.
      Expenses therefore never lower the estimate. */
  lemma LineProfitCases(ps: seq<Product>, t: Transaction)
    ensures !IsLinkedSale(t) ==> LineProfit(ps, t) == 0.0
    ensures IsLinkedSale(t) && FirstWithId(ps, t.itemId.value).None? ==> LineProfit(ps, t) == t.amount * 0.2
    ensures IsLinkedSale(t) && FirstWithId(ps, t.itemId.value).Some? ==>
      var p := ps[FirstWithId(ps, t.itemId.value).value];
      LineProfit(ps, t) == (p.sellPrice - p.buyPrice) * QuantityOrOne(t.quantity)
  {
  }

  /** Recording an expense never changes the estimated profit. */
  lemma ExpenseLeavesProfit(ps: seq<Product>, ts: seq<Transaction>, e: Transaction, now: int)
    requires e.txType == Expense
    ensures EstimatedProfit(ps, [e] + ts, now) == EstimatedProfit(ps, ts, now)
  {
    EstimatedProfitAdditive(ps, [e], ts, now);
    EstimatedProfitOfOne(ps, e, now);
  }

  /** One entry's share is not negative when its product, if found, is sold
      at or above cost, and its amount and quantity are not negative. */
  lemma LineProfitNonNegative(ps: seq<Product>, t: Transaction)
    requires forall p :: p in ps ==> p.sellPrice >= p.buyPrice
    requires t.amount >= 0.0
    requires t.quantity.Some? ==> t.quantity.value >= 0.0
    ensures LineProfit(ps, t) >= 0.0
  {
    if IsLinkedSale(t) {
      var f := Find(ps, ProductIdIs(t.itemId.value));
      if f.Some? {
        var margin := f.value.sellPrice - f.value.buyPrice;
        var q := QuantityOrOne(t.quantity);
        assert margin >= 0.0 && q > 0.0;
        assert margin * q >= 0.0;
      }
    }
  }

  /** When every product is sold at or above cost and no entry has a
      negative amount or quantity, the estimate is not negative. */
  lemma {:induction false} ProfitSumNonNegative(ps: seq<Product>, ts: seq<Transaction>)
    requires forall p :: p in ps ==> p.sellPrice >= p.buyPrice
    requires forall i :: 0 <= i < |ts| ==> ts[i].amount >= 0.0
    requires forall i :: 0 <= i < |ts| && ts[i].quantity.Some? ==> ts[i].quantity.value >= 0.0
    ensures ProfitSum(ps, ts) >= 0.0
  {
    if ts != [] {
      LineProfitNonNegative(ps, ts[0]);
      ProfitSumNonNegative(ps, ts[1..]);
    }
  }

  // --------------------------------------------------------------- Breakdown

  function SaleVia(m: PaymentMethod): Transaction -> bool
  {
    (t: Transaction) => t.payMethod == m && t.txType == Sale
  }

  /** `breakdown[m]`: today's sales taken through payment method `m`. */
  function MethodTotal(today: seq<Transaction>, m: PaymentMethod): (r: real)
    ensures (forall i :: 0 <= i < |today| ==> today[i].amount >= 0.0) ==> r >= 0.0
  {
    AmountSum(Filter(today, SaleVia(m)))
  }

  /** The three payment methods are all there are, so the breakdown
      accounts for every sale. */
  lemma {:induction false} BreakdownSumsToSales(today: seq<Transaction>)
    ensures MethodTotal(today, Cash) + MethodTotal(today, MtnMomo) + MethodTotal(today, AirtelMoney)
         == SalesTotal(today)
  {
    if today != [] {
      FilteredSumStep(today, SaleVia(Cash));
      FilteredSumStep(today, SaleVia(MtnMomo));
      FilteredSumStep(today, SaleVia(AirtelMoney));
      FilteredSumStep(today, IsSale);
      BreakdownSumsToSales(today[1..]);
    }
  }

  // -------------------------------------------------------------- Low stock

  function IsLow(p: Product): bool
  {
    p.stockCount <= p.minStock
  }

  /** `lowStock`: the products at or below their minimum, in catalog order. */
  function LowStock(ps: seq<Product>): (r: seq<Product>)
    ensures forall i :: 0 <= i < |r| ==> r[i] in ps && r[i].stockCount <= r[i].minStock
    ensures forall i :: 0 <= i < |ps| && ps[i].stockCount <= ps[i].minStock ==> ps[i] in r
  {
    Filter(ps, IsLow)
  }

  /** The alert list: the first five low-stock products. */
  function Alerts(ps: seq<Product>): (r: seq<Product>)
    ensures |r| <= 5 && |r| == (if |LowStock(ps)| < 5 then |LowStock(ps)| else 5)
    ensures forall i :: 0 <= i < |r| ==> r[i] == LowStock(ps)[i]
  {
    Take(LowStock(ps), 5)
  }

  /** The latest-logs list: the first eight of today's entries. */
  function RecentLogs(ts: seq<Transaction>, now: int): (r: seq<Transaction>)
    ensures |r| <= 8 && |r| == (if |TodayTxs(ts, now)| < 8 then |TodayTxs(ts, now)| else 8)
    ensures forall i :: 0 <= i < |r| ==> r[i] == TodayTxs(ts, now)[i]
  {
    Take(TodayTxs(ts, now), 8)
  }

  // --------------------------------------------------------------- The view

  /** What the screen shows. Sales and expense totals, the profit and the
      alerts, with the "Items Low" count, are shown to management only. */
  datatype Summary = Summary(
    headline: real,
    management: Option<(real, real)>,
    breakdown: (real, real, real),
    lowCount: Option<nat>,
    alerts: Option<seq<Product>>,
    logs: seq<Transaction>)

  function View(user: User, ts: seq<Transaction>, ps: seq<Product>, now: int): (v: Summary)
    ensures IsManagement(user.role) <==> v.management.Some?
    ensures IsManagement(user.role) <==> v.alerts.Some?
    ensures v.headline == if user.role == Owner || user.role == Manager
                          then EstimatedProfit(ps, ts, now) else SalesToday(ts, now)
    ensures v.management == if IsManagement(user.role)
                            then Some((SalesToday(ts, now), ExpensesToday(ts, now))) else None
    ensures v.breakdown == (MethodTotal(TodayTxs(ts, now), Cash), MethodTotal(TodayTxs(ts, now), MtnMomo),
                            MethodTotal(TodayTxs(ts, now), AirtelMoney))
    ensures v.breakdown.0 + v.breakdown.1 + v.breakdown.2 == SalesToday(ts, now)
    ensures v.alerts == if IsManagement(user.role) then Some(Alerts(ps)) else None
    ensures v.logs == RecentLogs(ts, now)
    ensures |v.logs| <= 8
    ensures v.alerts.Some? ==> |v.alerts.value| <= 5
    ensures v.lowCount == if IsManagement(user.role) then Some(|LowStock(ps)|) else None
    ensures v.alerts.Some? ==> |v.alerts.value| == if v.lowCount.value < 5 then v.lowCount.value else 5
  {
    var today := TodayTxs(ts, now);
    var isManagement := IsManagement(user.role);
    BreakdownSumsToSales(today);
    Summary(
      if isManagement then EstimatedProfit(ps, ts, now) else SalesToday(ts, now),
      if isManagement then Some((SalesToday(ts, now), ExpensesToday(ts, now))) else None,
      (MethodTotal(today, Cash), MethodTotal(today, MtnMomo), MethodTotal(today, AirtelMoney)),
      if isManagement then Some(|LowStock(ps)|) else None,
      if isManagement then Some(Alerts(ps)) else None,
      RecentLogs(ts, now))
  }

  /** Two cash sales of K100 and K50 and a K30 expense, none linked to a
      product, all today: sales are 150, expenses 30, and the estimated
      profit is 0 because unlinked sales are skipped. If the two sales name
      an item that is no longer in the catalog, each counts a fifth of its
      amount and the estimate is 30. */
  lemma DailySummaryExample(now: int)
    ensures var s1 := Transaction("a", "B", Sale, 100.0, None, Cash, None, Some("Sale"), now, None, "u");
            var s2 := Transaction("b", "B", Sale, 50.0, None, Cash, None, Some("Sale"), now, None, "u");
            var e := Transaction("c", "B", Expense, 30.0, None, Cash, None, Some("Expense"), now, None, "u");
            var ts := [s1, s2, e];
            SalesToday(ts, now) == 150.0 && ExpensesToday(ts, now) == 30.0
            && EstimatedProfit([], ts, now) == 0.0
            && EstimatedProfit([], [s1.(itemId := Some("x")), s2.(itemId := Some("x")), e], now) == 30.0
  {
    var s1 := Transaction("a", "B", Sale, 100.0, None, Cash, None, Some("Sale"), now, None, "u");
    var s2 := Transaction("b", "B", Sale, 50.0, None, Cash, None, Some("Sale"), now, None, "u");
    var e := Transaction("c", "B", Expense, 30.0, None, Cash, None, Some("Expense"), now, None, "u");
    var l1, l2 := s1.(itemId := Some("x")), s2.(itemId := Some("x"));
    assert [s1, s2, e] == [s1] + ([s2] + ([e] + []));
    assert [l1, l2, e] == [l1] + ([l2] + ([e] + []));
    Totals(s1, s2, e, now);
    Estimate(s1, s2, e, now, 0.0);
    Estimate(l1, l2, e, now, 30.0);
  }

  lemma Totals(s1: Transaction, s2: Transaction, e: Transaction, now: int)
    requires s1.txType == Sale && s2.txType == Sale && e.txType == Expense
    requires s1.timestamp == now && s2.timestamp == now && e.timestamp == now
    ensures SalesToday([s1] + ([s2] + ([e] + [])), now) == s1.amount + s2.amount
    ensures ExpensesToday([s1] + ([s2] + ([e] + [])), now) == e.amount
  {
    var c := [e] + [];
    var b := [s2] + c;
    assert SalesToday([], now) == 0.0 && ExpensesToday([], now) == 0.0;
    RecordAddsToToday([], e, now);
    assert SalesToday(c, now) == 0.0 && ExpensesToday(c, now) == e.amount;
    RecordAddsToToday(c, s2, now);
    assert SalesToday(b, now) == s2.amount && ExpensesToday(b, now) == e.amount;
    RecordAddsToToday(b, s1, now);
  }

  lemma Estimate(s1: Transaction, s2: Transaction, e: Transaction, now: int, total: real)
    requires e.txType == Expense
    requires s1.timestamp == now && s2.timestamp == now && e.timestamp == now
    requires LineProfit([], s1) + LineProfit([], s2) == total
    ensures EstimatedProfit([], [s1] + ([s2] + ([e] + [])), now) == total
  {
    var c := [e] + [];
    var b := [s2] + c;
    EstimatedProfitOfOne([], s1, now);
    EstimatedProfitOfOne([], s2, now);
    EstimatedProfitOfOne([], e, now);
    EstimatedProfitAdditive([], [e], [], now);
    var pc := EstimatedProfit([], c, now);
    assert pc == 0.0 by {
      assert EstimatedProfit([], [], now) == 0.0;
    }
    EstimatedProfitAdditive([], [s2], c, now);
    var pb := EstimatedProfit([], b, now);
    assert pb == LineProfit([], s2);
    EstimatedProfitAdditive([], [s1], b, now);
  }
}
