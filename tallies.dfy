/** The per-platform revenue tally both the dashboard and the reports build:
    a dictionary from platform name to summed revenue, filled by one pass
    over the sales they are given. The dictionary is a sequence of entries
    in the order their names first appear. */
module Tallies {
  import opened Types
  import opened Seqs
  import Ledger

  datatype PlatformShare = PlatformShare(name: string, value: real)

  function ShareName(e: PlatformShare): string { e.name }
  function ShareValue(e: PlatformShare): real { e.value }
  function SalePlatform(s: Sale): string { s.platform }

  /** A sale's revenue counted toward one platform. */
  function RevenueOn(name: string): Sale -> real {
    (s: Sale) => if s.platform == name then s.revenue else 0.0
  }

  /** One sale's step: add its revenue to its platform's entry, or open the
      entry at the end. */
  function TallyStep(tally: seq<PlatformShare>, s: Sale): seq<PlatformShare> {
    var j := IndexOf(tally, ShareName, s.platform);
    if j == -1 then tally + [PlatformShare(s.platform, s.revenue)]
    else tally[j := tally[j].(value := tally[j].value + s.revenue)]
  }

  /** The tally of a sequence of sales, one step per sale from the first. */
  function Tallied(sales: seq<Sale>): seq<PlatformShare> {
    if |sales| == 0 then []
    else TallyStep(Tallied(sales[..|sales| - 1]), sales[|sales| - 1])
  }

  /** Every platform a sale names has an entry. */
  ghost predicate Covers(sales: seq<Sale>, tally: seq<PlatformShare>) {
    forall k :: 0 <= k < |sales| ==> HasKey(tally, ShareName, sales[k].platform)
  }

  /** Every entry names a platform some sale was made on. */
  ghost predicate OnlySeen(sales: seq<Sale>, tally: seq<PlatformShare>) {
    forall j :: 0 <= j < |tally| ==> HasKey(sales, SalePlatform, tally[j].name)
  }

  /** Every entry holds the revenue of its platform's sales. */
  ghost predicate EntriesSum(sales: seq<Sale>, tally: seq<PlatformShare>) {
    forall j :: 0 <= j < |tally| ==> tally[j].value == SumR(sales, RevenueOn(tally[j].name))
  }

  /** What a tally of these sales promises. */
  ghost predicate TallyFacts(sales: seq<Sale>, tally: seq<PlatformShare>) {
    && UniqueKeys(tally, ShareName)
    && Covers(sales, tally)
    && OnlySeen(sales, tally)
    && EntriesSum(sales, tally)
    && SumR(tally, ShareValue) == SumR(sales, Ledger.SaleRevenue)
  }

  /** `tally[s.platform] = (tally[s.platform] || 0) + s.revenue` for each sale:
      one entry per platform the sales name and no other, each holding the
      revenue of that platform's sales, all together the revenue of all. */
  method PlatformTally(sales: seq<Sale>) returns (tally: seq<PlatformShare>)
    ensures tally == Tallied(sales)
    ensures UniqueKeys(tally, ShareName)
    ensures forall k :: 0 <= k < |sales| ==> HasKey(tally, ShareName, sales[k].platform)
    ensures forall j :: 0 <= j < |tally| ==> HasKey(sales, SalePlatform, tally[j].name)
    ensures forall j :: 0 <= j < |tally| ==> tally[j].value == SumR(sales, RevenueOn(tally[j].name))
    ensures SumR(tally, ShareValue) == SumR(sales, Ledger.SaleRevenue)
  {
    tally := [];
    for i := 0 to |sales|
      invariant tally == Tallied(sales[..i])
    {
      var s := sales[i];
      var j := IndexOf(tally, ShareName, s.platform);
      if j == -1 {
        tally := tally + [PlatformShare(s.platform, s.revenue)];
      } else {
        tally := tally[j := tally[j].(value := tally[j].value + s.revenue)];
      }
      assert sales[..i + 1][..i] == sales[..i];
    }
    assert sales[..|sales|] == sales;
    TalliedFacts(sales);
  }

  /** The fold meets the promise, by induction on the number of sales. */
  lemma {:induction false} TalliedFacts(sales: seq<Sale>)
    ensures TallyFacts(sales, Tallied(sales))
  {
    if |sales| > 0 {
      var n := |sales| - 1;
      TalliedFacts(sales[..n]);
      assert sales == sales[..n] + [sales[n]];
      StepFacts(sales[..n], sales[n], Tallied(sales[..n]));
    }
  }

  /** One more sale keeps the promise. */
  lemma {:induction false} StepFacts(sales: seq<Sale>, s: Sale, tally: seq<PlatformShare>)
    requires TallyFacts(sales, tally)
    ensures TallyFacts(sales + [s], TallyStep(tally, s))
  {
    StepUnique(tally, s);
    StepCovers(sales, s, tally);
    StepSeen(sales, s, tally);
    StepEntries(sales, s, tally);
    StepTotal(sales, s, tally);
  }

  lemma {:induction false} StepUnique(tally: seq<PlatformShare>, s: Sale)
    requires UniqueKeys(tally, ShareName)
    ensures UniqueKeys(TallyStep(tally, s), ShareName)
  {
    var j := IndexOf(tally, ShareName, s.platform);
    if j == -1 {
      AppendKeepsUnique(tally, PlatformShare(s.platform, s.revenue), ShareName);
    } else {
      var t := TallyStep(tally, s);
      forall k | 0 <= k < |t| ensures ShareName(t[k]) == ShareName(tally[k]) {
      }
      SameKeysUnique(tally, t, ShareName);
    }
  }

  /** Every platform seen, this one included, still has its entry. */
  lemma {:induction false} StepCovers(sales: seq<Sale>, s: Sale, tally: seq<PlatformShare>)
    requires Covers(sales, tally)
    ensures Covers(sales + [s], TallyStep(tally, s))
  {
    var ss, t := sales + [s], TallyStep(tally, s);
    var j := IndexOf(tally, ShareName, s.platform);
    forall k | 0 <= k < |ss| ensures HasKey(t, ShareName, ss[k].platform) {
      if k < |sales| {
        assert ss[k] == sales[k];
        var m :| 0 <= m < |tally| && ShareName(tally[m]) == sales[k].platform;
        assert ShareName(t[m]) == sales[k].platform;
      } else if j == -1 {
        assert ShareName(t[|tally|]) == s.platform;
      } else {
        assert ShareName(t[j]) == s.platform;
      }
    }
  }

  /** No entry names a platform no sale was made on. */
  lemma {:induction false} StepSeen(sales: seq<Sale>, s: Sale, tally: seq<PlatformShare>)
    requires OnlySeen(sales, tally)
    ensures OnlySeen(sales + [s], TallyStep(tally, s))
  {
    var ss, t := sales + [s], TallyStep(tally, s);
    forall j | 0 <= j < |t| ensures HasKey(ss, SalePlatform, t[j].name) {
      if j < |tally| {
        assert t[j].name == tally[j].name;
        var m :| 0 <= m < |sales| && SalePlatform(sales[m]) == tally[j].name;
        assert ss[m] == sales[m];
      } else {
        assert SalePlatform(ss[|sales|]) == t[j].name;
      }
    }
  }

  /** Each entry holds its platform's revenue over one more sale. */
  lemma {:induction false} StepEntries(sales: seq<Sale>, s: Sale, tally: seq<PlatformShare>)
    requires UniqueKeys(tally, ShareName)
    requires Covers(sales, tally)
    requires EntriesSum(sales, tally)
    ensures EntriesSum(sales + [s], TallyStep(tally, s))
  {
    var ss, t := sales + [s], TallyStep(tally, s);
    var j0 := IndexOf(tally, ShareName, s.platform);
    forall j | 0 <= j < |t| ensures t[j].value == SumR(ss, RevenueOn(t[j].name)) {
      SumRConcat(sales, [s], RevenueOn(t[j].name));
      assert SumR([s], RevenueOn(t[j].name)) == RevenueOn(t[j].name)(s);
      if j0 == -1 && j == |tally| {
        NewPlatformHasNoRevenue(sales, s.platform, tally);
      } else if j == j0 {
        assert t[j].name == s.platform;
      } else {
        assert t[j] == tally[j];
        assert j0 != -1 ==> ShareName(tally[j0]) != ShareName(tally[j]);
      }
    }
  }

  /** A platform the tally lacks has no revenue among the sales. */
  lemma {:induction false} NewPlatformHasNoRevenue(sales: seq<Sale>, name: string, tally: seq<PlatformShare>)
    requires Covers(sales, tally)
    requires !HasKey(tally, ShareName, name)
    ensures SumR(sales, RevenueOn(name)) == 0.0
  {
    forall k | 0 <= k < |sales| ensures RevenueOn(name)(sales[k]) == 0.0 {
      assert HasKey(tally, ShareName, sales[k].platform);
    }
    SumRZero(sales, RevenueOn(name));
  }

  /** The values together grow by the sale's revenue. */
  lemma {:induction false} StepTotal(sales: seq<Sale>, s: Sale, tally: seq<PlatformShare>)
    requires SumR(tally, ShareValue) == SumR(sales, Ledger.SaleRevenue)
    ensures SumR(TallyStep(tally, s), ShareValue) == SumR(sales + [s], Ledger.SaleRevenue)
  {
    SumRConcat(sales, [s], Ledger.SaleRevenue);
    assert SumR([s], Ledger.SaleRevenue) == s.revenue;
    var j := IndexOf(tally, ShareName, s.platform);
    if j == -1 {
      var e := PlatformShare(s.platform, s.revenue);
      SumRConcat(tally, [e], ShareValue);
      assert SumR([e], ShareValue) == s.revenue;
    } else {
      SumRUpdate(tally, j, tally[j].(value := tally[j].value + s.revenue), ShareValue);
    }
  }
}
