/** `stock_filter.py`: screens stocks that carry their own daily and
    monthly candles with three rules on the latest records and keeps the
    ones that pass all three. */
module StockFilter {
  import opened Base
  import opened Candles

  /** A stock with the candles it is screened on, oldest first. */
  datatype StockData = StockData(name: string, code: string, daily: seq<DailyBar>, monthly: seq<MonthlyBar>)

  // ---------------------------------------------------------------------
  // Condition 1: the latest candle is tail-upward

  /** `check_condition_1`: the latest candle rises, has a nonzero range,
      and `(open - low) / (high - low) >= 0.3`. */
  predicate Condition1(daily: seq<DailyBar>)
  {
    daily != [] &&
    var latest := Last(daily);
    latest.open < latest.close && latest.high != latest.low &&
    RatioAtLeast(latest.open - latest.low, latest.high - latest.low, 3, 10)
  }

  lemma Condition1Cases(daily: seq<DailyBar>)
    ensures daily == [] ==> !Condition1(daily)
    ensures daily != [] ==>
      var b := Last(daily);
      (Condition1(daily) <==>
         b.open < b.close && b.high != b.low &&
         (b.open - b.low) as real / (b.high - b.low) as real >= 0.3)
  {
    if daily != [] {
      var b := Last(daily);
      if b.high != b.low {
        RatioAtLeastIsExact(b.open - b.low, b.high - b.low, 3, 10);
        assert (3 as real) / (10 as real) == 0.3;
      }
    }
  }

  /** Only the latest candle matters: candles before it never change the
      verdict. */
  lemma Condition1OnlyLatest(earlier: seq<DailyBar>, latest: DailyBar)
    ensures Condition1(earlier + [latest]) == Condition1([latest])
  {
  }

  // ---------------------------------------------------------------------
  // Condition 2: two closes of the latest twenty near their minimum

  function RecentCloses(daily: seq<DailyBar>): (closes: seq<int>)
    requires |daily| >= 20
    ensures |closes| == 20
    ensures forall i :: 0 <= i < 20 ==> closes[i] == daily[|daily| - 20 + i].close
  {
    var w := daily[|daily| - 20..];
    assert forall i :: 0 <= i < 20 ==> w[i] == daily[|daily| - 20 + i];
    DailyCloses(w)
  }

  /** `check_condition_2`: at least twenty candles, and at least two of
      the latest twenty closes within 2% either side of their minimum. */
  predicate Condition2(daily: seq<DailyBar>)
  {
    |daily| >= 20 && CountWhere(RecentCloses(daily), InBandOf(MinOf(RecentCloses(daily)))) >= 2
  }

  lemma Condition2Witnessed(daily: seq<DailyBar>)
    ensures Condition2(daily) <==>
      |daily| >= 20 &&
      var closes := RecentCloses(daily);
      exists i, j :: 0 <= i < j < 20 && InBand(MinOf(closes), closes[i]) && InBand(MinOf(closes), closes[j])
  {
    if |daily| >= 20 {
      var closes := RecentCloses(daily);
      CountWhereAtLeastTwo(closes, InBandOf(MinOf(closes)));
    }
  }

  /** A non-negative minimum lies in its own band, so one more close in
      the band suffices. */
  lemma MinimumInOwnBand(m: int)
    ensures InBand(m, m) <==> m >= 0
  {
  }

  // ---------------------------------------------------------------------
  // Condition 3: the latest three months average above the latest six

  function RecentMonthCloses(monthly: seq<MonthlyBar>): (closes: seq<int>)
    requires |monthly| >= 6
    ensures |closes| == 6
    ensures forall i :: 0 <= i < 6 ==> closes[i] == monthly[|monthly| - 6 + i].close
  {
    var w := monthly[|monthly| - 6..];
    assert forall i :: 0 <= i < 6 ==> w[i] == monthly[|monthly| - 6 + i];
    MonthlyCloses(w)
  }

  /** `check_condition_3`: at least six months, and the mean of the latest
      three closes strictly above the mean of the latest six. */
  predicate Condition3(monthly: seq<MonthlyBar>)
  {
    |monthly| >= 6 && MeanLess(RecentMonthCloses(monthly), RecentMonthCloses(monthly)[3..])
  }

  lemma Condition3Cases(monthly: seq<MonthlyBar>)
    ensures |monthly| < 6 ==> !Condition3(monthly)
    ensures |monthly| >= 6 ==>
      var c := RecentMonthCloses(monthly);
      && (Condition3(monthly) <==> Sum(c[3..]) as real / 3.0 > Sum(c) as real / 6.0)
      && (Condition3(monthly) <==> Sum(c[..3]) < Sum(c[3..]))
  {
    if |monthly| >= 6 {
      var c := RecentMonthCloses(monthly);
      MeanLessIsExact(c, c[3..]);
      assert c == c[..3] + c[3..];
      WholeMeanBelowHalf(c, c[3..], c[..3]);
    }
  }

  // ---------------------------------------------------------------------
  // The filtering loop

  /** The record kept for a stock that passes all three conditions; the
      price is its latest daily close. */
  function PickFor(s: StockData): Option<Pick>
  {
    if Condition1(s.daily) && Condition2(s.daily) && Condition3(s.monthly)
    then Some(Pick(s.name, s.code, Last(s.daily).close))
    else None
  }

  /** `filter_stocks`. */
  method FilterStocks(stocks: seq<StockData>) returns (picks: seq<Pick>)
    ensures picks == Keep(stocks, PickFor)
  {
    picks := [];
    for i := 0 to |stocks|
      invariant picks == Keep(stocks[..i], PickFor)
    {
      var stock := stocks[i];
      KeepPrefixStep(stocks, i, PickFor);
      var condition1 := Condition1(stock.daily);
      var condition2 := Condition2(stock.daily);
      var condition3 := Condition3(stock.monthly);
      if condition1 && condition2 && condition3 {
        picks := picks + [Pick(stock.name, stock.code, stock.daily[|stock.daily| - 1].close)];
      }
    }
    assert stocks[..|stocks|] == stocks;
  }

  /** The result of `filter_stocks`, element by element: the k-th record
      copies the name and code of the k-th passing stock, in input order,
      with its latest close; a stock is kept exactly when it passes all
      three conditions. */
  lemma FilterStocksCharacterised(stocks: seq<StockData>)
    ensures var idx := KeptIndices(stocks, PickFor); var picks := Keep(stocks, PickFor);
      && |idx| == |picks|
      && Increasing(idx)
      && (forall k :: 0 <= k < |idx| ==>
            0 <= idx[k] < |stocks| &&
            Condition1(stocks[idx[k]].daily) && Condition2(stocks[idx[k]].daily) &&
            Condition3(stocks[idx[k]].monthly) &&
            picks[k] == Pick(stocks[idx[k]].name, stocks[idx[k]].code, Last(stocks[idx[k]].daily).close))
      && (forall i :: 0 <= i < |stocks| ==>
            (i in idx <==> Condition1(stocks[i].daily) && Condition2(stocks[i].daily) &&
                           Condition3(stocks[i].monthly)))
  {
    KeepCharacterised(stocks, PickFor);
    var idx := KeptIndices(stocks, PickFor);
    forall i | 0 <= i < |stocks| && i in idx ensures PickFor(stocks[i]).Some? {
      var k :| 0 <= k < |idx| && idx[k] == i;
    }
  }
}
