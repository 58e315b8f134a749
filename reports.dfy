/** The reports screen: the sales and expenses dated within a range of
    days, the range's revenue, profit, refunds, expenses and net profit, its
    revenue per platform, and its five best-selling product names. */
module Reports {
  import opened Types
  import opened Seqs
  import Ledger
  import Tallies
  import Sorting

  // ---------------------------------------------------------------
  // The range

  /** Milliseconds in a day; dates are milliseconds of local time. */
  const MsPerDay: int := 86400000

  /** `setHours(0, 0, 0, 0)` on the start day. */
  function RangeStart(startDay: int): int { startDay * MsPerDay }

  /** `setHours(23, 59, 59, 999)` on the end day. */
  function RangeEnd(endDay: int): int { endDay * MsPerDay + MsPerDay - 1 }

  /** `d >= start && d <= end`: both ends included. */
  predicate InRange(d: int, startDay: int, endDay: int) {
    RangeStart(startDay) <= d <= RangeEnd(endDay)
  }

  /** A date is in range exactly when its day is one of the range's days. */
  lemma {:induction false} InRangeByDay(d: int, startDay: int, endDay: int)
    ensures InRange(d, startDay, endDay) <==> startDay <= d / MsPerDay <= endDay
  {
    var day := d / MsPerDay;
    assert day * MsPerDay <= d < day * MsPerDay + MsPerDay;
    if startDay <= day { assert startDay * MsPerDay <= day * MsPerDay; }
    if day <= endDay { assert day * MsPerDay <= endDay * MsPerDay; }
    if day < startDay { assert day * MsPerDay + MsPerDay <= startDay * MsPerDay; }
    if endDay < day { assert endDay * MsPerDay + MsPerDay <= day * MsPerDay; }
  }

  function SaleInRange(startDay: int, endDay: int): Sale -> bool {
    (s: Sale) => InRange(s.date, startDay, endDay)
  }

  function ExpenseInRange(startDay: int, endDay: int): Expense -> bool {
    (e: Expense) => InRange(e.date, startDay, endDay)
  }

  /** `rangeSales`: the sales dated in the range, in their order. */
  function RangeSales(sales: seq<Sale>, startDay: int, endDay: int): (r: seq<Sale>)
    ensures forall s :: s in r <==> s in sales && InRange(s.date, startDay, endDay)
  {
    Filter(sales, SaleInRange(startDay, endDay))
  }

  /** `rangeExpenses`: the expenses dated in the range, in their order. */
  function RangeExpenses(expenses: seq<Expense>, startDay: int, endDay: int): (r: seq<Expense>)
    ensures forall e :: e in r <==> e in expenses && InRange(e.date, startDay, endDay)
  {
    Filter(expenses, ExpenseInRange(startDay, endDay))
  }

  // ---------------------------------------------------------------
  // The range's figures

  datatype RangeMetrics = RangeMetrics(revenue: real, profit: real, refunds: real, totalExpenses: real, netProfit: real)

  function RefundedSales(sales: seq<Sale>): (r: seq<Sale>)
    ensures forall s :: s in r <==> s in sales && s.status == Refunded
  {
    Filter(sales, Ledger.IsRefunded)
  }

  /** The range's revenue and profit over its Completed sales, its refunds
      over its Refunded sales, and its expenses. */
  function RangeSummary(sales: seq<Sale>, expenses: seq<Expense>, startDay: int, endDay: int): (m: RangeMetrics)
    ensures m.netProfit == m.profit - m.totalExpenses
    ensures m.totalExpenses == SumR(RangeExpenses(expenses, startDay, endDay), Ledger.ExpenseAmount)
  {
    var inRange := RangeSales(sales, startDay, endDay);
    var active := Ledger.CompletedSales(inRange);
    var refunded := RefundedSales(inRange);
    var revenue := SumR(active, Ledger.SaleRevenue);
    var profit := SumR(active, Ledger.SaleProfit);
    var refunds := SumR(refunded, Ledger.SaleRevenue);
    var totalExpenses := SumR(RangeExpenses(expenses, startDay, endDay), Ledger.ExpenseAmount);
    RangeMetrics(revenue, profit, refunds, totalExpenses, profit - totalExpenses)
  }

  /** A sale's Completed revenue and profit, Refunded revenue and an expense's
      amount, each counted only inside the range. */
  function RevenueIn(startDay: int, endDay: int): Sale -> real {
    (s: Sale) => if InRange(s.date, startDay, endDay) then Ledger.CompletedRevenue(s) else 0.0
  }
  function ProfitIn(startDay: int, endDay: int): Sale -> real {
    (s: Sale) => if InRange(s.date, startDay, endDay) then Ledger.CompletedProfit(s) else 0.0
  }
  function RefundsIn(startDay: int, endDay: int): Sale -> real {
    (s: Sale) => if InRange(s.date, startDay, endDay) then Ledger.RefundedRevenue(s) else 0.0
  }
  function ExpensesIn(startDay: int, endDay: int): Expense -> real {
    (e: Expense) => if InRange(e.date, startDay, endDay) then e.amount else 0.0
  }

  /** Each figure is the sum over all records of that record's share inside
      the range: Completed sales only for revenue and profit, Refunded only
      for refunds. */
  lemma {:induction false} RangeSums(sales: seq<Sale>, expenses: seq<Expense>, startDay: int, endDay: int)
    ensures var m := RangeSummary(sales, expenses, startDay, endDay);
      && m.revenue == SumR(sales, RevenueIn(startDay, endDay))
      && m.profit == SumR(sales, ProfitIn(startDay, endDay))
      && m.refunds == SumR(sales, RefundsIn(startDay, endDay))
      && m.totalExpenses == SumR(expenses, ExpensesIn(startDay, endDay))
      && m.netProfit == SumR(sales, ProfitIn(startDay, endDay)) - SumR(expenses, ExpensesIn(startDay, endDay))
  {
    var inRange := RangeSales(sales, startDay, endDay);
    Ledger.CompletedSalesSums(inRange);
    FilterSumR(sales, SaleInRange(startDay, endDay), Ledger.CompletedRevenue, RevenueIn(startDay, endDay));
    FilterSumR(sales, SaleInRange(startDay, endDay), Ledger.CompletedProfit, ProfitIn(startDay, endDay));
    RefundedSalesSum(inRange);
    FilterSumR(sales, SaleInRange(startDay, endDay), Ledger.RefundedRevenue, RefundsIn(startDay, endDay));
    FilterSumR(expenses, ExpenseInRange(startDay, endDay), Ledger.ExpenseAmount, ExpensesIn(startDay, endDay));
  }

  lemma {:induction false} RefundedSalesSum(sales: seq<Sale>)
    ensures SumR(RefundedSales(sales), Ledger.SaleRevenue) == SumR(sales, Ledger.RefundedRevenue)
  {
    FilterSumR(sales, Ledger.IsRefunded, Ledger.SaleRevenue, Ledger.RefundedRevenue);
  }

  /** A range that holds every record reports what the dashboard metrics do. */
  lemma {:induction false} FullRangeIsMetrics(products: seq<Product>, sales: seq<Sale>, expenses: seq<Expense>, startDay: int, endDay: int)
    requires forall i :: 0 <= i < |sales| ==> InRange(sales[i].date, startDay, endDay)
    requires forall i :: 0 <= i < |expenses| ==> InRange(expenses[i].date, startDay, endDay)
    ensures var m, all := RangeSummary(sales, expenses, startDay, endDay), Ledger.Metrics(products, sales, expenses);
      && m.revenue == all.totalSales
      && m.profit == all.totalProfit
      && m.refunds == all.totalRefunds
      && m.totalExpenses == all.totalExpenses
      && m.netProfit == all.netProfit
  {
    FilterAll(sales, SaleInRange(startDay, endDay));
    FilterAll(expenses, ExpenseInRange(startDay, endDay));
    Ledger.CompletedSalesSums(sales);
    RefundedSalesSum(sales);
  }

  // ---------------------------------------------------------------
  // Figures per product name

  datatype NameStats = NameStats(name: string, qty: int, revenue: real)

  function NameKey(e: NameStats): string { e.name }
  function NameRevenue(e: NameStats): real { e.revenue }
  function SaleName(s: Sale): string { s.productName }

  /** A sale's quantity and revenue counted toward one product name. */
  function QtyNamed(name: string): Sale -> int {
    (s: Sale) => if s.productName == name then s.quantity else 0
  }
  function RevenueNamed(name: string): Sale -> real {
    (s: Sale) => if s.productName == name then s.revenue else 0.0
  }

  /** `productTally[s.productName]`, created at zero if missing, then grown
      by the sale's quantity and revenue. */
  function NameStep(tally: seq<NameStats>, s: Sale): seq<NameStats> {
    var j := IndexOf(tally, NameKey, s.productName);
    if j == -1 then tally + [NameStats(s.productName, s.quantity, s.revenue)]
    else tally[j := tally[j].(qty := tally[j].qty + s.quantity, revenue := tally[j].revenue + s.revenue)]
  }

  function NameTallied(sales: seq<Sale>): seq<NameStats> {
    if |sales| == 0 then []
    else NameStep(NameTallied(sales[..|sales| - 1]), sales[|sales| - 1])
  }

  ghost predicate NamesCovered(sales: seq<Sale>, tally: seq<NameStats>) {
    forall k :: 0 <= k < |sales| ==> HasKey(tally, NameKey, sales[k].productName)
  }

  ghost predicate NamesSeen(sales: seq<Sale>, tally: seq<NameStats>) {
    forall j :: 0 <= j < |tally| ==> HasKey(sales, SaleName, tally[j].name)
  }

  ghost predicate NamesSum(sales: seq<Sale>, tally: seq<NameStats>) {
    forall j :: 0 <= j < |tally| ==>
      tally[j].qty == SumI(sales, QtyNamed(tally[j].name)) && tally[j].revenue == SumR(sales, RevenueNamed(tally[j].name))
  }

  /** One entry per product name the sales carry and no other, each with
      the quantity and revenue of the sales under that name. */
  ghost predicate NameFacts(sales: seq<Sale>, tally: seq<NameStats>) {
    UniqueKeys(tally, NameKey) && NamesCovered(sales, tally) && NamesSeen(sales, tally) && NamesSum(sales, tally)
  }

  /** `productTally`: group the sales by product name, not by product id. */
  method NameTally(sales: seq<Sale>) returns (tally: seq<NameStats>)
    ensures tally == NameTallied(sales)
    ensures NameFacts(sales, tally)
  {
    tally := [];
    for i := 0 to |sales|
      invariant tally == NameTallied(sales[..i])
    {
      var s := sales[i];
      var j := IndexOf(tally, NameKey, s.productName);
      if j == -1 {
        tally := tally + [NameStats(s.productName, s.quantity, s.revenue)];
      } else {
        tally := tally[j := tally[j].(qty := tally[j].qty + s.quantity, revenue := tally[j].revenue + s.revenue)];
      }
      assert sales[..i + 1][..i] == sales[..i];
    }
    assert sales[..|sales|] == sales;
    NameTalliedFacts(sales);
  }

  lemma {:induction false} NameTalliedFacts(sales: seq<Sale>)
    ensures NameFacts(sales, NameTallied(sales))
  {
    if |sales| > 0 {
      var n := |sales| - 1;
      NameTalliedFacts(sales[..n]);
      assert sales == sales[..n] + [sales[n]];
      var t := NameTallied(sales[..n]);
      NameStepUnique(t, sales[n]);
      NameStepCovers(sales[..n], sales[n], t);
      NameStepSeen(sales[..n], sales[n], t);
      NameStepSums(sales[..n], sales[n], t);
    }
  }

  lemma {:induction false} NameStepUnique(tally: seq<NameStats>, s: Sale)
    requires UniqueKeys(tally, NameKey)
    ensures UniqueKeys(NameStep(tally, s), NameKey)
  {
    var t := NameStep(tally, s);
    if IndexOf(tally, NameKey, s.productName) == -1 {
      AppendKeepsUnique(tally, NameStats(s.productName, s.quantity, s.revenue), NameKey);
    } else {
      forall k | 0 <= k < |t| ensures NameKey(t[k]) == NameKey(tally[k]) {
      }
      SameKeysUnique(tally, t, NameKey);
    }
  }

  lemma {:induction false} NameStepCovers(sales: seq<Sale>, s: Sale, tally: seq<NameStats>)
    requires NamesCovered(sales, tally)
    ensures NamesCovered(sales + [s], NameStep(tally, s))
  {
    var ss, t := sales + [s], NameStep(tally, s);
    var j := IndexOf(tally, NameKey, s.productName);
    forall k | 0 <= k < |ss| ensures HasKey(t, NameKey, ss[k].productName) {
      if k < |sales| {
        assert ss[k] == sales[k];
        var m :| 0 <= m < |tally| && NameKey(tally[m]) == sales[k].productName;
        assert NameKey(t[m]) == sales[k].productName;
      } else if j == -1 {
        assert NameKey(t[|tally|]) == s.productName;
      } else {
        assert NameKey(t[j]) == s.productName;
      }
    }
  }

  lemma {:induction false} NameStepSeen(sales: seq<Sale>, s: Sale, tally: seq<NameStats>)
    requires NamesSeen(sales, tally)
    ensures NamesSeen(sales + [s], NameStep(tally, s))
  {
    var ss, t := sales + [s], NameStep(tally, s);
    forall j | 0 <= j < |t| ensures HasKey(ss, SaleName, t[j].name) {
      if j < |tally| {
        assert t[j].name == tally[j].name;
        var m :| 0 <= m < |sales| && SaleName(sales[m]) == tally[j].name;
        assert ss[m] == sales[m];
      } else {
        assert SaleName(ss[|sales|]) == t[j].name;
      }
    }
  }

  lemma {:induction false} NameStepSums(sales: seq<Sale>, s: Sale, tally: seq<NameStats>)
    requires UniqueKeys(tally, NameKey)
    requires NamesCovered(sales, tally)
    requires NamesSum(sales, tally)
    ensures NamesSum(sales + [s], NameStep(tally, s))
  {
    var ss, t := sales + [s], NameStep(tally, s);
    var j0 := IndexOf(tally, NameKey, s.productName);
    forall j | 0 <= j < |t| ensures
      t[j].qty == SumI(ss, QtyNamed(t[j].name)) && t[j].revenue == SumR(ss, RevenueNamed(t[j].name))
    {
      var name := t[j].name;
      SumIConcat(sales, [s], QtyNamed(name));
      SumRConcat(sales, [s], RevenueNamed(name));
      assert SumI([s], QtyNamed(name)) == QtyNamed(name)(s);
      assert SumR([s], RevenueNamed(name)) == RevenueNamed(name)(s);
      if j0 == -1 && j == |tally| {
        NewNameHasNoSales(sales, name, tally);
      } else if j == j0 {
        assert name == s.productName;
      } else {
        assert t[j] == tally[j];
        assert j0 != -1 ==> NameKey(tally[j0]) != NameKey(tally[j]);
      }
    }
  }

  /** A name the tally lacks has no quantity and no revenue among the sales. */
  lemma {:induction false} NewNameHasNoSales(sales: seq<Sale>, name: string, tally: seq<NameStats>)
    requires NamesCovered(sales, tally)
    requires !HasKey(tally, NameKey, name)
    ensures SumI(sales, QtyNamed(name)) == 0 && SumR(sales, RevenueNamed(name)) == 0.0
  {
    forall k | 0 <= k < |sales| ensures QtyNamed(name)(sales[k]) == 0 && RevenueNamed(name)(sales[k]) == 0.0 {
      assert HasKey(tally, NameKey, sales[k].productName);
    }
    SumIZero(sales, QtyNamed(name));
    SumRZero(sales, RevenueNamed(name));
  }

  // ---------------------------------------------------------------
  // The report

  const TopCount: nat := 5

  /** The figures `metrics` computes for a range: the summary, the platform
      tally of the Completed sales in range, and the five product names with
      the most revenue among them, best first. */
  method RangeReport(sales: seq<Sale>, expenses: seq<Expense>, startDay: int, endDay: int)
    returns (summary: RangeMetrics, platformData: seq<Tallies.PlatformShare>, topProducts: seq<NameStats>)
    ensures summary == RangeSummary(sales, expenses, startDay, endDay)
    ensures var active := Ledger.CompletedSales(RangeSales(sales, startDay, endDay));
      && platformData == Tallies.Tallied(active)
      && SumR(platformData, Tallies.ShareValue) == summary.revenue
      && |topProducts| == (if |NameTallied(active)| <= TopCount then |NameTallied(active)| else TopCount)
      && Sorting.SortedDesc(topProducts, NameRevenue)
      && UniqueKeys(topProducts, NameKey)
      && (forall e :: e in topProducts ==>
            e.qty == SumI(active, QtyNamed(e.name)) && e.revenue == SumR(active, RevenueNamed(e.name)))
      && (forall e, o :: e in topProducts && o in multiset(NameTallied(active)) - multiset(topProducts) ==>
            o.revenue <= e.revenue)
  {
    summary := RangeSummary(sales, expenses, startDay, endDay);
    var active := Ledger.CompletedSales(RangeSales(sales, startDay, endDay));
    platformData := Tallies.PlatformTally(active);
    var tally := NameTally(active);
    var sorted := Sorting.SortDesc(tally, NameRevenue);
    topProducts := Sorting.Take(sorted, TopCount);
    assert |sorted| == |tally| by {
      assert |multiset(sorted)| == |multiset(tally)|;
    }
    Sorting.TakeSortedIsTop(sorted, TopCount, NameRevenue);
    TopFacts(active, tally, sorted, topProducts);
  }

  /** The first entries of the sorted tally keep its order, its distinct
      names and its figures. */
  lemma {:induction false} TopFacts(active: seq<Sale>, tally: seq<NameStats>, sorted: seq<NameStats>, top: seq<NameStats>)
    requires NameFacts(active, tally)
    requires multiset(sorted) == multiset(tally) && Sorting.SortedDesc(sorted, NameRevenue)
    requires top <= sorted
    ensures Sorting.SortedDesc(top, NameRevenue)
    ensures UniqueKeys(top, NameKey)
    ensures forall e :: e in top ==>
      e.qty == SumI(active, QtyNamed(e.name)) && e.revenue == SumR(active, RevenueNamed(e.name))
  {
    Sorting.PermutationKeepsUnique(tally, sorted, NameKey);
    forall i, j | 0 <= i < j < |top| ensures NameRevenue(top[i]) >= NameRevenue(top[j]) && NameKey(top[i]) != NameKey(top[j]) {
      assert top[i] == sorted[i] && top[j] == sorted[j];
    }
    forall e | e in top ensures
      e.qty == SumI(active, QtyNamed(e.name)) && e.revenue == SumR(active, RevenueNamed(e.name))
    {
      var i :| 0 <= i < |top| && top[i] == e;
      assert e == sorted[i];
      assert e in multiset(tally);
      var m :| 0 <= m < |tally| && tally[m] == e;
    }
  }
}
