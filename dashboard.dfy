/** The dashboard's projections of the store: the two stock alert lists, the
    revenue per platform, the total of refund delivery losses, the table of
    product performance, and the cap on how many recommendations it shows. */
module Dashboard {
  import opened Types
  import opened Seqs
  import Ledger
  import Tallies
  import Sorting

  // ---------------------------------------------------------------
  // Stock alerts

  /** `p.stock < settings.lowStockThreshold && p.stock > 0`. */
  function LowStock(threshold: int): Product -> bool {
    (p: Product) => p.stock < threshold && p.stock > 0
  }

  predicate OutOfStock(p: Product) { p.stock <= 0 }

  /** The products running low: some stock left, below the threshold. */
  function LowStockItems(products: seq<Product>, threshold: int): (r: seq<Product>)
    ensures forall p :: p in r <==> p in products && 0 < p.stock < threshold
  {
    Filter(products, LowStock(threshold))
  }

  /** The products with nothing (or less than nothing) left. */
  function OutOfStockItems(products: seq<Product>): (r: seq<Product>)
    ensures forall p :: p in r <==> p in products && p.stock <= 0
  {
    Filter(products, OutOfStock)
  }

  /** No product is in both lists, so together they never hold more entries
      than there are products. */
  lemma {:induction false} StockAlertsDisjoint(products: seq<Product>, threshold: int)
    ensures forall p :: p in LowStockItems(products, threshold) ==> p !in OutOfStockItems(products)
    ensures |LowStockItems(products, threshold)| + |OutOfStockItems(products)| <= |products|
  {
    if |products| > 0 {
      StockAlertsDisjoint(products[1..], threshold);
    }
  }

  // ---------------------------------------------------------------
  // Revenue per platform

  /** `platformData`: the platform tally over the Completed sales. Every
      entry is a platform some Completed sale was made on, every Completed
      sale's platform has one entry, and the values add up to the metrics'
      `totalSales`. */
  method PlatformData(sales: seq<Sale>) returns (data: seq<Tallies.PlatformShare>)
    ensures data == Tallies.Tallied(Ledger.CompletedSales(sales))
    ensures UniqueKeys(data, Tallies.ShareName)
    ensures forall k :: 0 <= k < |sales| && sales[k].status == Completed ==>
      HasKey(data, Tallies.ShareName, sales[k].platform)
    ensures forall j :: 0 <= j < |data| ==>
      HasKey(Ledger.CompletedSales(sales), Tallies.SalePlatform, data[j].name)
    ensures forall j :: 0 <= j < |data| ==>
      data[j].value == SumR(Ledger.CompletedSales(sales), Tallies.RevenueOn(data[j].name))
    ensures SumR(data, Tallies.ShareValue) == SumR(sales, Ledger.CompletedRevenue)
  {
    var active := Ledger.CompletedSales(sales);
    data := Tallies.PlatformTally(active);
    Ledger.CompletedSalesSums(sales);
    forall k | 0 <= k < |sales| && sales[k].status == Completed
      ensures HasKey(data, Tallies.ShareName, sales[k].platform)
    {
      assert sales[k] in active;
      var m :| 0 <= m < |active| && active[m] == sales[k];
    }
  }

  /** The dashboard's platform revenue is the metrics' total sales. */
  lemma {:induction false} PlatformDataIsTotalSales(products: seq<Product>, sales: seq<Sale>, expenses: seq<Expense>)
    ensures SumR(Tallies.Tallied(Ledger.CompletedSales(sales)), Tallies.ShareValue)
      == Ledger.Metrics(products, sales, expenses).totalSales
  {
    Tallies.TalliedFacts(Ledger.CompletedSales(sales));
    Ledger.CompletedSalesSums(sales);
  }

  // ---------------------------------------------------------------
  // Delivery losses

  predicate IsRefundLoss(e: Expense) { e.category == RefundLoss }

  function LossAmount(e: Expense): real { if e.category == RefundLoss then e.amount else 0.0 }

  /** The sum of the Refund Loss expenses; with no negative amount it is at
      most the total of all expenses. */
  function TotalDeliveryLosses(expenses: seq<Expense>): (r: real)
    ensures r == SumR(expenses, LossAmount)
    ensures (forall i :: 0 <= i < |expenses| ==> expenses[i].amount >= 0.0) ==>
      r <= SumR(expenses, Ledger.ExpenseAmount)
  {
    Seqs.FilterSumR(expenses, IsRefundLoss, Ledger.ExpenseAmount, LossAmount);
    if forall i :: 0 <= i < |expenses| ==> expenses[i].amount >= 0.0 then
      Seqs.SumRMonotone(expenses, LossAmount, Ledger.ExpenseAmount);
      SumR(Filter(expenses, IsRefundLoss), Ledger.ExpenseAmount)
    else
      SumR(Filter(expenses, IsRefundLoss), Ledger.ExpenseAmount)
  }

  /** The expense a refund records when it loses the delivery raises the
      losses by the delivery charge; any other new expense leaves them. */
  lemma {:induction false} DeliveryLossOfRefund(expenses: seq<Expense>, e: Expense, s: Sale, now: int, id: string)
    ensures TotalDeliveryLosses([Ledger.RefundLossExpense(id, s, now)] + expenses)
      == TotalDeliveryLosses(expenses) + s.deliveryCharge
    ensures e.category != RefundLoss ==> TotalDeliveryLosses([e] + expenses) == TotalDeliveryLosses(expenses)
  {
    assert ([Ledger.RefundLossExpense(id, s, now)] + expenses)[1..] == expenses;
    assert ([e] + expenses)[1..] == expenses;
  }

  // ---------------------------------------------------------------
  // Product performance

  datatype ProductStats = ProductStats(id: string, name: string, qty: int, revenue: real, profit: real)

  function StatsKey(e: ProductStats): string { e.id }
  function StatsRevenue(e: ProductStats): real { e.revenue }

  /** The entry a product starts from. */
  function FreshStats(p: Product): ProductStats { ProductStats(p.id, p.name, 0, 0.0, 0.0) }

  /** A sale's quantity, revenue and profit counted toward one product. */
  function QtyOf(id: string): Sale -> int {
    (s: Sale) => if s.productId == id then s.quantity else 0
  }
  function RevenueOf(id: string): Sale -> real {
    (s: Sale) => if s.productId == id then s.revenue else 0.0
  }
  function ProfitOf(id: string): Sale -> real {
    (s: Sale) => if s.productId == id then s.profit else 0.0
  }

  /** `performance[p.id] = {...}` for one product: a new key goes at the end,
      a repeated key is overwritten where it stands. */
  function SeedStep(perf: seq<ProductStats>, p: Product): seq<ProductStats> {
    var j := IndexOf(perf, StatsKey, p.id);
    if j == -1 then perf + [FreshStats(p)] else perf[j := FreshStats(p)]
  }

  function Seeded(products: seq<Product>): seq<ProductStats> {
    if |products| == 0 then []
    else SeedStep(Seeded(products[..|products| - 1]), products[|products| - 1])
  }

  /** One zeroed entry per product id and no other. */
  ghost predicate SeedFacts(products: seq<Product>, perf: seq<ProductStats>) {
    && UniqueKeys(perf, StatsKey)
    && (forall k :: 0 <= k < |products| ==> HasKey(perf, StatsKey, products[k].id))
    && (forall j :: 0 <= j < |perf| ==> HasKey(products, ProductKey, perf[j].id))
    && (forall j :: 0 <= j < |perf| ==> perf[j].qty == 0 && perf[j].revenue == 0.0 && perf[j].profit == 0.0)
  }

  /** The first `forEach`: an entry at zero for each product. */
  method SeedPerformance(products: seq<Product>) returns (perf: seq<ProductStats>)
    ensures perf == Seeded(products)
    ensures SeedFacts(products, perf)
  {
    perf := [];
    for i := 0 to |products|
      invariant perf == Seeded(products[..i])
    {
      var p := products[i];
      var j := IndexOf(perf, StatsKey, p.id);
      if j == -1 {
        perf := perf + [FreshStats(p)];
      } else {
        perf := perf[j := FreshStats(p)];
      }
      assert products[..i + 1][..i] == products[..i];
    }
    assert products[..|products|] == products;
    SeededFacts(products);
  }

  lemma {:induction false} SeededFacts(products: seq<Product>)
    ensures SeedFacts(products, Seeded(products))
  {
    if |products| > 0 {
      var n := |products| - 1;
      SeededFacts(products[..n]);
      assert products == products[..n] + [products[n]];
      SeedStepFacts(products[..n], products[n], Seeded(products[..n]));
    }
  }

  lemma {:induction false} SeedStepFacts(products: seq<Product>, p: Product, perf: seq<ProductStats>)
    requires SeedFacts(products, perf)
    ensures SeedFacts(products + [p], SeedStep(perf, p))
  {
    SeedStepUnique(perf, p);
    SeedStepCovers(products, p, perf);
    SeedStepKnown(products, p, perf);
  }

  lemma {:induction false} SeedStepUnique(perf: seq<ProductStats>, p: Product)
    requires UniqueKeys(perf, StatsKey)
    ensures UniqueKeys(SeedStep(perf, p), StatsKey)
  {
    var t := SeedStep(perf, p);
    if IndexOf(perf, StatsKey, p.id) == -1 {
      AppendKeepsUnique(perf, FreshStats(p), StatsKey);
    } else {
      forall k | 0 <= k < |t| ensures StatsKey(t[k]) == StatsKey(perf[k]) {
      }
      SameKeysUnique(perf, t, StatsKey);
    }
  }

  lemma {:induction false} SeedStepCovers(products: seq<Product>, p: Product, perf: seq<ProductStats>)
    requires forall k :: 0 <= k < |products| ==> HasKey(perf, StatsKey, products[k].id)
    ensures var ps, t := products + [p], SeedStep(perf, p);
      forall k :: 0 <= k < |ps| ==> HasKey(t, StatsKey, ps[k].id)
  {
    var ps, t := products + [p], SeedStep(perf, p);
    var j0 := IndexOf(perf, StatsKey, p.id);
    forall k | 0 <= k < |ps| ensures HasKey(t, StatsKey, ps[k].id) {
      if k < |products| {
        var m :| 0 <= m < |perf| && StatsKey(perf[m]) == products[k].id;
        assert StatsKey(t[m]) == ps[k].id;
      } else if j0 == -1 {
        assert StatsKey(t[|perf|]) == p.id;
      } else {
        assert StatsKey(t[j0]) == p.id;
      }
    }
  }

  lemma {:induction false} SeedStepKnown(products: seq<Product>, p: Product, perf: seq<ProductStats>)
    requires forall j :: 0 <= j < |perf| ==> HasKey(products, ProductKey, perf[j].id)
    requires forall j :: 0 <= j < |perf| ==> perf[j].qty == 0 && perf[j].revenue == 0.0 && perf[j].profit == 0.0
    ensures var ps, t := products + [p], SeedStep(perf, p);
      && (forall j :: 0 <= j < |t| ==> HasKey(ps, ProductKey, t[j].id))
      && (forall j :: 0 <= j < |t| ==> t[j].qty == 0 && t[j].revenue == 0.0 && t[j].profit == 0.0)
  {
    var ps, t := products + [p], SeedStep(perf, p);
    forall j | 0 <= j < |t| ensures HasKey(ps, ProductKey, t[j].id) {
      if j < |perf| && t[j] == perf[j] {
        var m :| 0 <= m < |products| && ProductKey(products[m]) == perf[j].id;
        assert ps[m] == products[m];
      } else {
        assert ProductKey(ps[|products|]) == t[j].id;
      }
    }
  }

  /** With distinct product ids each product gets its own entry, in order. */
  lemma {:induction false} SeededDistinct(products: seq<Product>)
    requires UniqueKeys(products, ProductKey)
    ensures |Seeded(products)| == |products|
    ensures forall i :: 0 <= i < |products| ==> Seeded(products)[i] == FreshStats(products[i])
  {
    if |products| > 0 {
      var n := |products| - 1;
      var front := products[..n];
      assert UniqueKeys(front, ProductKey) by {
        forall i, j | 0 <= i < j < |front| ensures ProductKey(front[i]) != ProductKey(front[j]) {
          assert front[i] == products[i] && front[j] == products[j];
        }
      }
      SeededDistinct(front);
      var perf := Seeded(front);
      forall m | 0 <= m < |perf| ensures StatsKey(perf[m]) != products[n].id {
        assert perf[m] == FreshStats(products[m]);
      }
      assert IndexOf(perf, StatsKey, products[n].id) == -1;
    }
  }

  /** `performance[s.productId].qty += s.quantity` and so on, for a sale
      whose product has an entry; a sale of an unknown product is skipped. */
  function AccumulateStep(perf: seq<ProductStats>, s: Sale): seq<ProductStats> {
    var j := IndexOf(perf, StatsKey, s.productId);
    if j == -1 then perf
    else perf[j := perf[j].(qty := perf[j].qty + s.quantity,
                            revenue := perf[j].revenue + s.revenue,
                            profit := perf[j].profit + s.profit)]
  }

  function Accumulated(perf: seq<ProductStats>, sales: seq<Sale>): seq<ProductStats> {
    if |sales| == 0 then perf
    else AccumulateStep(Accumulated(perf, sales[..|sales| - 1]), sales[|sales| - 1])
  }

  /** r keeps perf's entries, names and order. */
  ghost predicate SameEntries(perf: seq<ProductStats>, r: seq<ProductStats>) {
    |r| == |perf| && forall j :: 0 <= j < |perf| ==> r[j].id == perf[j].id && r[j].name == perf[j].name
  }

  /** Each entry of r is its entry in perf plus its product's sales. */
  ghost predicate AddsSales(perf: seq<ProductStats>, sales: seq<Sale>, r: seq<ProductStats>)
    requires |r| == |perf|
  {
    forall j :: 0 <= j < |perf| ==>
      && r[j].qty == perf[j].qty + SumI(sales, QtyOf(perf[j].id))
      && r[j].revenue == perf[j].revenue + SumR(sales, RevenueOf(perf[j].id))
      && r[j].profit == perf[j].profit + SumR(sales, ProfitOf(perf[j].id))
  }

  /** The second `forEach`, over the sales it is given. */
  method AccumulatePerformance(perf: seq<ProductStats>, sales: seq<Sale>) returns (r: seq<ProductStats>)
    ensures r == Accumulated(perf, sales)
    ensures SameEntries(perf, r)
    ensures UniqueKeys(perf, StatsKey) ==> AddsSales(perf, sales, r)
  {
    r := perf;
    for i := 0 to |sales|
      invariant r == Accumulated(perf, sales[..i])
    {
      var s := sales[i];
      var j := IndexOf(r, StatsKey, s.productId);
      if j != -1 {
        r := r[j := r[j].(qty := r[j].qty + s.quantity, revenue := r[j].revenue + s.revenue, profit := r[j].profit + s.profit)];
      }
      assert sales[..i + 1][..i] == sales[..i];
    }
    assert sales[..|sales|] == sales;
    AccumulatedEntries(perf, sales);
    if UniqueKeys(perf, StatsKey) {
      AccumulatedSums(perf, sales);
    }
  }

  lemma {:induction false} AccumulatedEntries(perf: seq<ProductStats>, sales: seq<Sale>)
    ensures SameEntries(perf, Accumulated(perf, sales))
  {
    if |sales| > 0 {
      var n := |sales| - 1;
      AccumulatedEntries(perf, sales[..n]);
    }
  }

  lemma {:induction false} AccumulatedSums(perf: seq<ProductStats>, sales: seq<Sale>)
    requires UniqueKeys(perf, StatsKey)
    ensures SameEntries(perf, Accumulated(perf, sales))
    ensures AddsSales(perf, sales, Accumulated(perf, sales))
  {
    AccumulatedEntries(perf, sales);
    if |sales| > 0 {
      var n := |sales| - 1;
      AccumulatedSums(perf, sales[..n]);
      assert sales == sales[..n] + [sales[n]];
      AccumulateStepSums(perf, sales[..n], sales[n], Accumulated(perf, sales[..n]));
    }
  }

  /** One more sale adds its figures to its product's entry and to no other. */
  lemma {:induction false} AccumulateStepSums(perf: seq<ProductStats>, sales: seq<Sale>, s: Sale, r: seq<ProductStats>)
    requires UniqueKeys(perf, StatsKey)
    requires SameEntries(perf, r) && AddsSales(perf, sales, r)
    ensures SameEntries(perf, AccumulateStep(r, s))
    ensures AddsSales(perf, sales + [s], AccumulateStep(r, s))
  {
    var t := AccumulateStep(r, s);
    var j0 := IndexOf(r, StatsKey, s.productId);
    forall j | 0 <= j < |perf| ensures
      && t[j].qty == perf[j].qty + SumI(sales + [s], QtyOf(perf[j].id))
      && t[j].revenue == perf[j].revenue + SumR(sales + [s], RevenueOf(perf[j].id))
      && t[j].profit == perf[j].profit + SumR(sales + [s], ProfitOf(perf[j].id))
    {
      var id := perf[j].id;
      SumIConcat(sales, [s], QtyOf(id));
      SumRConcat(sales, [s], RevenueOf(id));
      SumRConcat(sales, [s], ProfitOf(id));
      assert SumI([s], QtyOf(id)) == QtyOf(id)(s);
      assert SumR([s], RevenueOf(id)) == RevenueOf(id)(s);
      assert SumR([s], ProfitOf(id)) == ProfitOf(id)(s);
      if j != j0 {
        assert t[j] == r[j];
        assert j0 != -1 ==> StatsKey(perf[j0]) != StatsKey(perf[j]);
      }
    }
  }

  /** A sale of a product with no entry changes nothing. */
  lemma {:induction false} AccumulateIgnoresUnknown(perf: seq<ProductStats>, sales: seq<Sale>, s: Sale)
    requires !HasKey(perf, StatsKey, s.productId)
    ensures Accumulated(perf, sales + [s]) == Accumulated(perf, sales)
  {
    AccumulatedEntries(perf, sales);
    var r := Accumulated(perf, sales);
    assert (sales + [s])[..|sales|] == sales;
    forall m | 0 <= m < |r| ensures StatsKey(r[m]) != s.productId {
      assert StatsKey(perf[m]) != s.productId;
    }
  }

  /** `productPerformance`: one entry per product with its Completed sales'
      quantity, revenue and profit, sales of deleted products ignored, in
      descending order of revenue. */
  method ProductPerformance(products: seq<Product>, sales: seq<Sale>) returns (r: seq<ProductStats>)
    ensures Sorting.SortedDesc(r, StatsRevenue)
    ensures multiset(r) == multiset(Accumulated(Seeded(products), Ledger.CompletedSales(sales)))
    ensures UniqueKeys(r, StatsKey)
    ensures forall k :: 0 <= k < |products| ==> HasKey(r, StatsKey, products[k].id)
    ensures forall e :: e in r ==> HasKey(products, ProductKey, e.id)
    ensures forall e :: e in r ==> var active := Ledger.CompletedSales(sales);
      && e.qty == SumI(active, QtyOf(e.id))
      && e.revenue == SumR(active, RevenueOf(e.id))
      && e.profit == SumR(active, ProfitOf(e.id))
    ensures UniqueKeys(products, ProductKey) ==> |r| == |products|
  {
    var active := Ledger.CompletedSales(sales);
    var seeded := SeedPerformance(products);
    var acc := AccumulatePerformance(seeded, active);
    r := Sorting.SortDesc(acc, StatsRevenue);
    assert |r| == |acc| by {
      assert |multiset(r)| == |multiset(acc)|;
    }
    PerformanceTransfer(products, active, seeded, acc, r);
    if UniqueKeys(products, ProductKey) {
      SeededDistinct(products);
    }
  }

  /** The facts about the accumulated entries hold of their reordering. */
  lemma {:induction false} PerformanceTransfer(products: seq<Product>, active: seq<Sale>, seeded: seq<ProductStats>,
                            acc: seq<ProductStats>, r: seq<ProductStats>)
    requires SeedFacts(products, seeded)
    requires SameEntries(seeded, acc) && AddsSales(seeded, active, acc)
    requires multiset(r) == multiset(acc)
    ensures UniqueKeys(r, StatsKey)
    ensures forall k :: 0 <= k < |products| ==> HasKey(r, StatsKey, products[k].id)
    ensures forall e :: e in r ==> HasKey(products, ProductKey, e.id)
    ensures forall e :: e in r ==>
      && e.qty == SumI(active, QtyOf(e.id))
      && e.revenue == SumR(active, RevenueOf(e.id))
      && e.profit == SumR(active, ProfitOf(e.id))
  {
    PerformanceKeys(products, seeded, acc, r);
    forall e | e in r ensures
      && HasKey(products, ProductKey, e.id)
      && e.qty == SumI(active, QtyOf(e.id))
      && e.revenue == SumR(active, RevenueOf(e.id))
      && e.profit == SumR(active, ProfitOf(e.id))
    {
      assert e in multiset(acc);
      var m :| 0 <= m < |acc| && acc[m] == e;
      assert e.id == seeded[m].id;
    }
  }

  /** The reordering keeps one entry per product id. */
  lemma {:induction false} PerformanceKeys(products: seq<Product>, seeded: seq<ProductStats>, acc: seq<ProductStats>, r: seq<ProductStats>)
    requires UniqueKeys(seeded, StatsKey)
    requires forall k :: 0 <= k < |products| ==> HasKey(seeded, StatsKey, products[k].id)
    requires SameEntries(seeded, acc)
    requires multiset(r) == multiset(acc)
    ensures UniqueKeys(r, StatsKey)
    ensures forall k :: 0 <= k < |products| ==> HasKey(r, StatsKey, products[k].id)
  {
    forall k | 0 <= k < |acc| ensures StatsKey(acc[k]) == StatsKey(seeded[k]) {
    }
    SameKeysUnique(seeded, acc, StatsKey);
    Sorting.PermutationKeepsUnique(acc, r, StatsKey);
    forall k | 0 <= k < |products| ensures HasKey(r, StatsKey, products[k].id) {
      var m :| 0 <= m < |seeded| && StatsKey(seeded[m]) == products[k].id;
      assert acc[m] in multiset(r);
      var q :| 0 <= q < |r| && r[q] == acc[m];
      assert StatsKey(r[q]) == products[k].id;
    }
  }

  // ---------------------------------------------------------------
  // Recommendations

  /** A suggestion card: its heading and its text. */
  datatype Suggestion = Suggestion(title: string, desc: string)

  const RecommendationCap: nat := 4

  /** `suggestions.slice(0, 4)`: the first four suggestions in the order they
      were made, or all of them when there are fewer. */
  function Recommendations(suggestions: seq<Suggestion>): (r: seq<Suggestion>)
    ensures r <= suggestions
    ensures |r| == if |suggestions| <= RecommendationCap then |suggestions| else RecommendationCap
  {
    Sorting.Take(suggestions, RecommendationCap)
  }
}
