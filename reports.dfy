/** The progress report: totals over the last thirty days, the three most
    sold items by number of sales, the profit as sales minus expenses, and
    the value of the stock at cost. */
module Reports {
  import opened Base
  import opened Types
  import opened MockDb

  /** `30 * 24 * 60 * 60 * 1000` milliseconds. */
  const ThirtyDaysMs: int := 30 * 24 * 60 * 60 * 1000

  function InWindow(now: int): Transaction -> bool
  {
    (t: Transaction) => t.timestamp > now - ThirtyDaysMs
  }

  /** `last30Days`: the entries strictly newer than thirty days before `now`,
      in ledger order. */
  function Last30Days(ts: seq<Transaction>, now: int): (r: seq<Transaction>)
    ensures forall i :: 0 <= i < |r| ==> r[i] in ts && r[i].timestamp > now - 2592000000
    ensures forall i :: 0 <= i < |ts| && ts[i].timestamp > now - 2592000000 ==> ts[i] in r
  {
    Filter(ts, InWindow(now))
  }

  // ------------------------------------------------------------ Popularity

  /** A sale that the popularity count sees: one with a non-empty item name. */
  predicate CountsAs(t: Transaction, name: string)
  {
    t.txType == Sale && Present(t.itemName) && t.itemName.value == name
  }

  /** Reference count: how many sales in `w` carry item name `name`. */
  function CountOf(w: seq<Transaction>, name: string): (n: nat)
    ensures n <= |w|
  {
    if w == [] then 0
    else CountOf(w[..|w| - 1], name) + (if CountsAs(w[|w| - 1], name) then 1 else 0)
  }

  /** The `productCounts` object: a count per key, and the keys in the order
      they were first written. */
  datatype Counter = Counter(counts: map<string, nat>, order: seq<string>)

  predicate Distinct(s: seq<string>)
  {
    forall i, j :: 0 <= i < j < |s| ==> s[i] != s[j]
  }

  /** One step of the `forEach`: a sale with a non-empty item name bumps that
      name's count, creating the key at the end when it is new. */
  function CountStep(c: Counter, t: Transaction): (r: Counter)
    ensures !(t.txType == Sale && Present(t.itemName)) ==> r == c
    ensures t.txType == Sale && Present(t.itemName) ==>
      && t.itemName.value in r.counts && r.counts[t.itemName.value] >= 1
      && r.counts.Keys == c.counts.Keys + {t.itemName.value}
      && (forall k :: k in c.counts && k != t.itemName.value ==> r.counts[k] == c.counts[k])
      && |c.order| <= |r.order| && r.order[..|c.order|] == c.order
  {
    if t.txType == Sale && Present(t.itemName) then
      var name := t.itemName.value;
      Counter(c.counts[name := (if name in c.counts then c.counts[name] else 0) + 1],
              if name in c.counts then c.order else c.order + [name])
    else c
  }

  /** The counter after the whole `forEach` over `w`. */
  function Tally(w: seq<Transaction>): Counter
  {
    if w == [] then Counter(map[], []) else CountStep(Tally(w[..|w| - 1]), w[|w| - 1])
  }

  /** The tally holds exactly the names some sale carries, each with its
      number of sales, and lists each key once. */
  lemma {:induction false} TallyCounts(w: seq<Transaction>)
    ensures Distinct(Tally(w).order)
    ensures forall k :: k in Tally(w).counts <==> k in Tally(w).order
    ensures forall k :: k in Tally(w).counts <==> CountOf(w, k) > 0
    ensures forall k :: k in Tally(w).counts ==> Tally(w).counts[k] == CountOf(w, k)
  {
    if w != [] {
      TallyCounts(w[..|w| - 1]);
    }
  }

  /** The `forEach` loop of the report, written as the loop it is. */
  method CountProducts(w: seq<Transaction>) returns (c: Counter)
    ensures c == Tally(w)
    ensures forall k :: k in c.counts <==> CountOf(w, k) > 0
    ensures forall k :: k in c.counts ==> c.counts[k] == CountOf(w, k)
  {
    var counts: map<string, nat> := map[];
    var order: seq<string> := [];
    for i := 0 to |w|
      invariant Counter(counts, order) == Tally(w[..i])
    {
      assert w[..i + 1][..i] == w[..i];
      var t := w[i];
      if t.txType == Sale && Present(t.itemName) {
        var name := t.itemName.value;
        if name !in counts {
          order := order + [name];
        }
        counts := counts[name := (if name in counts then counts[name] else 0) + 1];
      }
    }
    assert w[..|w|] == w;
    c := Counter(counts, order);
    TallyCounts(w);
  }

  /** A key and its count, as `Object.entries` gives them. */
  datatype Entry = Entry(name: string, count: nat)

  /** `Object.entries(productCounts)`, in key order. */
  function Entries(c: Counter): (r: seq<Entry>)
    ensures |r| == |c.order|
    ensures forall i :: 0 <= i < |r| ==> r[i].name == c.order[i]
  {
    seq(|c.order|, i requires 0 <= i < |c.order| =>
      Entry(c.order[i], if c.order[i] in c.counts then c.counts[c.order[i]] else 0))
  }

  predicate SortedByCount(s: seq<Entry>)
  {
    forall i, j :: 0 <= i < j < |s| ==> s[i].count >= s[j].count
  }

  /** Places `e` before the first entry whose count does not exceed its own,
      so that `e` stays ahead of the entries it ties with. */
  function Insert(e: Entry, s: seq<Entry>): (r: seq<Entry>)
    ensures |r| == |s| + 1
  {
    if s == [] then [e]
    else if s[0].count <= e.count then [e] + s
    else [s[0]] + Insert(e, s[1..])
  }

  lemma {:induction false} InsertPermutes(e: Entry, s: seq<Entry>)
    ensures multiset(Insert(e, s)) == multiset(s) + multiset{e}
  {
    if s != [] && s[0].count > e.count {
      var rest := Insert(e, s[1..]);
      assert Insert(e, s) == [s[0]] + rest;
      InsertPermutes(e, s[1..]);
      assert s == [s[0]] + s[1..];
      calc {
        multiset(Insert(e, s));
        multiset([s[0]]) + multiset(rest);
        multiset([s[0]]) + multiset(s[1..]) + multiset{e};
        multiset(s) + multiset{e};
      }
    }
  }

  /** Inserting an entry under a bound keeps every count under it. */
  lemma {:induction false} InsertBounded(e: Entry, s: seq<Entry>, b: nat)
    requires e.count <= b
    requires forall i :: 0 <= i < |s| ==> s[i].count <= b
    ensures forall i :: 0 <= i < |Insert(e, s)| ==> Insert(e, s)[i].count <= b
  {
    if s != [] && s[0].count > e.count {
      InsertBounded(e, s[1..], b);
      assert Insert(e, s) == [s[0]] + Insert(e, s[1..]);
    }
  }

  lemma {:induction false} InsertSorted(e: Entry, s: seq<Entry>)
    requires SortedByCount(s)
    ensures SortedByCount(Insert(e, s))
  {
    if s != [] && s[0].count > e.count {
      var rest := Insert(e, s[1..]);
      InsertSorted(e, s[1..]);
      InsertBounded(e, s[1..], s[0].count);
      var r := Insert(e, s);
      assert r == [s[0]] + rest;
      forall i, j | 0 <= i < j < |r| ensures r[i].count >= r[j].count {
        if i > 0 {
          assert r[i] == rest[i - 1] && r[j] == rest[j - 1];
        } else {
          assert r[j] == rest[j - 1];
        }
      }
    }
  }

  /** `sort((a, b) => b[1] - a[1])`: a stable sort by decreasing count. */
  function SortByCount(s: seq<Entry>): (r: seq<Entry>)
    ensures SortedByCount(r)
    ensures multiset(r) == multiset(s)
    ensures |r| == |s|
  {
    if s == [] then []
    else
      var rest := SortByCount(s[1..]);
      InsertSorted(s[0], rest);
      InsertPermutes(s[0], rest);
      assert s == [s[0]] + s[1..];
      Insert(s[0], rest)
  }

  function CountIs(n: nat): Entry -> bool
  {
    (e: Entry) => e.count == n
  }

  lemma {:induction false} InsertStable(e: Entry, s: seq<Entry>, n: nat)
    ensures Filter(Insert(e, s), CountIs(n)) == Filter([e] + s, CountIs(n))
  {
    if s != [] && s[0].count > e.count {
      assert Insert(e, s) == [s[0]] + Insert(e, s[1..]);
      InsertStable(e, s[1..], n);
      FilterCons(s[0], Insert(e, s[1..]), CountIs(n));
      FilterCons(e, s[1..], CountIs(n));
      FilterCons(e, s, CountIs(n));
      FilterCons(s[0], s[1..], CountIs(n));
      assert [s[0]] + s[1..] == s;
    }
  }

  /** Stability: the entries that share a count keep their relative order. */
  lemma {:induction false} SortStable(s: seq<Entry>, n: nat)
    ensures Filter(SortByCount(s), CountIs(n)) == Filter(s, CountIs(n))
  {
    if s != [] {
      var x, t, f := s[0], s[1..], CountIs(n);
      var rest := SortByCount(t);
      calc {
        Filter(SortByCount(s), f);
        Filter(Insert(x, rest), f);
        { InsertStable(x, rest, n); }
        Filter([x] + rest, f);
        { FilterCons(x, rest, f); }
        if f(x) then [x] + Filter(rest, f) else Filter(rest, f);
        { SortStable(t, n); }
        if f(x) then [x] + Filter(t, f) else Filter(t, f);
        { FilterCons(x, t, f); }
        Filter([x] + t, f);
        { assert [x] + t == s; }
        Filter(s, f);
      }
    }
  }

  /** `popular`: the first three entries of the sorted tally. */
  function Popular(w: seq<Transaction>): seq<Entry>
  {
    Take(SortByCount(Entries(Tally(w))), 3)
  }

  /** At most three entries, by non-increasing count; each is a real key
      with its exact number of sales (so at least one); and no name left
      out of the three was sold more often than any name in it. */
  lemma PopularTopThree(w: seq<Transaction>)
    ensures |Popular(w)| <= 3
    ensures SortedByCount(Popular(w))
    ensures forall i :: 0 <= i < |Popular(w)| ==>
      Popular(w)[i].name in Tally(w).counts && Popular(w)[i].count == CountOf(w, Popular(w)[i].name)
      && Popular(w)[i].count >= 1
    ensures forall i, k :: 0 <= i < |Popular(w)| && 3 <= k < |SortByCount(Entries(Tally(w)))| ==>
      SortByCount(Entries(Tally(w)))[k].count <= Popular(w)[i].count
  {
    var es := Entries(Tally(w));
    var sorted := SortByCount(es);
    var pop := Popular(w);
    TallyCounts(w);
    forall i | 0 <= i < |pop|
      ensures pop[i].name in Tally(w).counts && pop[i].count == CountOf(w, pop[i].name) && pop[i].count >= 1
    {
      assert pop[i] == sorted[i];
      assert sorted[i] in multiset(es);
      var j :| 0 <= j < |es| && es[j] == sorted[i];
    }
  }

  // --------------------------------------------------------------- Totals

  /** The figures the report computes. */
  datatype Stats = Stats(sales: real, expenses: real, popular: seq<Entry>, profit: real)

  /** The `stats` computation: window sums, the popularity tally and the
      profit as sales minus expenses. */
  method ComputeStats(ts: seq<Transaction>, now: int) returns (st: Stats)
    ensures st.sales == SalesTotal(Last30Days(ts, now))
    ensures st.expenses == ExpenseTotal(Last30Days(ts, now))
    ensures st.profit == st.sales - st.expenses
    ensures st.popular == Popular(Last30Days(ts, now))
  {
    var last30Days := Last30Days(ts, now);
    var sales := SalesTotal(last30Days);
    var expenses := ExpenseTotal(last30Days);
    var productCounts := CountProducts(last30Days);
    var popular := Take(SortByCount(Entries(productCounts)), 3);
    st := Stats(sales, expenses, popular, sales - expenses);
  }

  /** The report's profit is every window sale's amount counted positively
      and every window expense's amount negatively. */
  function SignedSum(w: seq<Transaction>): real
  {
    if w == [] then 0.0
    else (if w[0].txType == Sale then w[0].amount else -w[0].amount) + SignedSum(w[1..])
  }

  lemma {:induction false} ProfitIsSignedSum(w: seq<Transaction>)
    ensures SalesTotal(w) - ExpenseTotal(w) == SignedSum(w)
  {
    if w != [] {
      FilteredSumStep(w, IsSale);
      FilteredSumStep(w, IsExpense);
      ProfitIsSignedSum(w[1..]);
    }
  }

  // ------------------------------------------------------- Inventory value

  /** `products.reduce((s, p) => s + p.buyPrice * p.stockCount, 0)`. */
  function InventoryValue(ps: seq<Product>): real
  {
    if ps == [] then 0.0 else ps[0].buyPrice * ps[0].stockCount + InventoryValue(ps[1..])
  }

  /** Replacing one product changes the value by the difference of the two
      products' own values. */
  lemma {:induction false} InventoryValueUpdate(ps: seq<Product>, i: nat, p: Product)
    requires i < |ps|
    ensures InventoryValue(ps[i := p])
         == InventoryValue(ps) - ps[i].buyPrice * ps[i].stockCount + p.buyPrice * p.stockCount
  {
    if i > 0 {
      assert ps[i := p][1..] == ps[1..][i - 1 := p];
      InventoryValueUpdate(ps[1..], i - 1, p);
    } else {
      assert ps[i := p][1..] == ps[1..];
    }
  }

  /** Recording a sale lowers the stock value by the cost of what was sold
      when its product is in the catalog, and leaves it alone otherwise. */
  lemma SaleLowersInventoryValue(ps: seq<Product>, tx: Transaction)
    ensures SaleTarget(ps, tx).None? ==> InventoryValue(ApplySale(ps, tx)) == InventoryValue(ps)
    ensures SaleTarget(ps, tx).Some? ==>
      InventoryValue(ApplySale(ps, tx))
      == InventoryValue(ps) - ps[SaleTarget(ps, tx).value].buyPrice * QuantityOrOne(tx.quantity)
  {
    match SaleTarget(ps, tx)
    case None =>
    case Some(i) =>
      var p := ps[i];
      var q := QuantityOrOne(tx.quantity);
      InventoryValueUpdate(ps, i, p.(stockCount := p.stockCount - q));
      assert p.buyPrice * (p.stockCount - q) == p.buyPrice * p.stockCount - p.buyPrice * q;
  }

  /** The window is open at its old end: an entry exactly thirty days old
      is outside, one a millisecond younger is inside. */
  lemma WindowBoundary(t: Transaction, now: int)
    ensures Last30Days([t.(timestamp := now - ThirtyDaysMs)], now) == []
    ensures Last30Days([t.(timestamp := now - ThirtyDaysMs + 1)], now) == [t.(timestamp := now - ThirtyDaysMs + 1)]
  {
    FilterCons(t.(timestamp := now - ThirtyDaysMs), [], InWindow(now));
    FilterCons(t.(timestamp := now - ThirtyDaysMs + 1), [], InWindow(now));
    assert [t.(timestamp := now - ThirtyDaysMs)] + [] == [t.(timestamp := now - ThirtyDaysMs)];
    assert [t.(timestamp := now - ThirtyDaysMs + 1)] + [] == [t.(timestamp := now - ThirtyDaysMs + 1)];
  }

  /** K100 and K50 in sales and a K30 expense inside the window give a
      report profit of K120. */
  lemma ReportProfitExample(now: int)
    ensures var s1 := Transaction("a", "B", Sale, 100.0, None, Cash, None, Some("Bread"), now, None, "u");
            var s2 := Transaction("b", "B", Sale, 50.0, None, Cash, None, Some("Milk"), now, None, "u");
            var e := Transaction("c", "B", Expense, 30.0, None, Cash, None, Some("Expense"), now, None, "u");
            var w := Last30Days([s1, s2, e], now);
            SalesTotal(w) - ExpenseTotal(w) == 120.0
  {
    var s1 := Transaction("a", "B", Sale, 100.0, None, Cash, None, Some("Bread"), now, None, "u");
    var s2 := Transaction("b", "B", Sale, 50.0, None, Cash, None, Some("Milk"), now, None, "u");
    var e := Transaction("c", "B", Expense, 30.0, None, Cash, None, Some("Expense"), now, None, "u");
    var ts := [s1, s2, e];
    FilterKeepsAll(ts, InWindow(now));
    ProfitIsSignedSum(ts);
    assert ts[1..] == [s2, e] && ts[1..][1..] == [e] && [e][1..] == [];
    assert SignedSum([e]) == -30.0;
    assert SignedSum([s2, e]) == 50.0 + SignedSum([e]);
    assert SignedSum(ts) == 100.0 + SignedSum([s2, e]);
  }

  /** Milk sold once, then Bread twice: Bread ranks first with 2, then Milk
      with 1; the expense is not counted. */
  lemma PopularExample(now: int)
    ensures var m := Transaction("a", "B", Sale, 10.0, None, Cash, None, Some("Milk"), now, None, "u");
            var b := Transaction("b", "B", Sale, 5.0, None, Cash, None, Some("Bread"), now, None, "u");
            var e := Transaction("c", "B", Expense, 30.0, None, Cash, None, Some("Milk"), now, None, "u");
            Popular([m, b, e, b]) == [Entry("Bread", 2), Entry("Milk", 1)]
  {
    var m := Transaction("a", "B", Sale, 10.0, None, Cash, None, Some("Milk"), now, None, "u");
    var b := Transaction("b", "B", Sale, 5.0, None, Cash, None, Some("Bread"), now, None, "u");
    var e := Transaction("c", "B", Expense, 30.0, None, Cash, None, Some("Milk"), now, None, "u");
    TallyExample(m, b, e);
    var es := Entries(Counter(map["Milk" := 1, "Bread" := 2], ["Milk", "Bread"]));
    assert es == [Entry("Milk", 1), Entry("Bread", 2)];
    SortExample(Entry("Milk", 1), Entry("Bread", 2));
  }

  lemma TallyExample(m: Transaction, b: Transaction, e: Transaction)
    requires m.txType == Sale && m.itemName == Some("Milk")
    requires b.txType == Sale && b.itemName == Some("Bread")
    requires e.txType == Expense
    ensures Tally([m, b, e, b]) == Counter(map["Milk" := 1, "Bread" := 2], ["Milk", "Bread"])
  {
    var w := [m, b, e, b];
    assert w[..3] == [m, b, e] && w[..3][..2] == [m, b] && [m, b][..1] == [m] && [m][..0] == [];
    assert Tally([]) == Counter(map[], []);
    var c1 := Tally([m]);
    assert c1 == CountStep(Tally([]), m);
    assert c1 == Counter(map["Milk" := 1], ["Milk"]);
    var c2 := Tally([m, b]);
    assert c2 == CountStep(c1, b);
    assert c2 == Counter(map["Milk" := 1, "Bread" := 1], ["Milk", "Bread"]);
    assert Tally([m, b, e]) == c2;
  }

  lemma SortExample(x: Entry, y: Entry)
    requires x.count < y.count
    ensures SortByCount([x, y]) == [y, x]
  {
    assert [x, y][1..] == [y] && [y][1..] == [];
    assert SortByCount([y]) == Insert(y, []);
  }
}
