/** `test_condition_filter.py`: an offline rehearsal of the advanced
    screen on generated candles. The random draws (and the per-process
    `hash` of a code) are inputs; the generators' loops, the unguarded
    checks and the selection loop are modelled as written. */
module TestConditionFilter {
  import opened Base
  import opened Candles

  const TestStocks: seq<StockRef> := [
    StockRef("삼성전자", "005930"), StockRef("SK하이닉스", "000660"),
    StockRef("NAVER", "035420"), StockRef("카카오", "035720"),
    StockRef("LG에너지솔루션", "373220"), StockRef("현대차", "005380"),
    StockRef("기아", "000270"), StockRef("POSCO홀딩스", "005490"),
    StockRef("LG화학", "051910"), StockRef("삼성바이오로직스", "207940")]

  // ---------------------------------------------------------------------
  // The checks, over the whole list

  /** `check_tail_upward`: no length guard and no window; at least three
      tail-upward candles anywhere in the list. */
  predicate TailUpwardAll(daily: seq<DailyBar>)
  {
    CountWhere(daily, TailUp) >= 3
  }

  method CheckTailUpward(daily: seq<DailyBar>) returns (ok: bool)
    ensures ok == TailUpwardAll(daily)
    ensures ok ==> |daily| >= 3
  {
    var count := CountQualifying(daily, TailUp);
    ok := count >= 3;
  }

  lemma TailUpwardAllWitnessed(daily: seq<DailyBar>)
    ensures TailUpwardAll(daily) <==>
      exists i, j, k :: 0 <= i < j < k < |daily| && TailUp(daily[i]) && TailUp(daily[j]) && TailUp(daily[k])
  {
    CountWhereAtLeastThree(daily, TailUp);
  }

  /** `check_bottom_twice`: at least two lows of the whole list within 2%
      above its minimum; `min` raises on an empty list, hence the
      precondition. */
  predicate BottomTwiceAll(daily: seq<DailyBar>)
    requires |daily| > 0
  {
    CountWhere(Lows(daily), NearBottomOf(MinOf(Lows(daily)))) >= 2
  }

  method CheckBottomTwice(daily: seq<DailyBar>) returns (ok: bool)
    requires |daily| > 0
    ensures ok == BottomTwiceAll(daily)
  {
    var lows := Lows(daily);
    var minLow := MinOf(lows);
    var count := CountQualifying(lows, NearBottomOf(minLow));
    ok := count >= 2;
  }

  lemma BottomTwiceAllWitnessed(daily: seq<DailyBar>)
    requires |daily| > 0
    ensures BottomTwiceAll(daily) <==>
      exists i, j :: 0 <= i < j < |daily| &&
        NearBottom(MinOf(Lows(daily)), daily[i].low) && NearBottom(MinOf(Lows(daily)), daily[j].low)
  {
    var lows := Lows(daily);
    CountWhereAtLeastTwo(lows, NearBottomOf(MinOf(lows)));
  }

  // ---------------------------------------------------------------------
  // Generated daily candles

  /** The random draws of one generated day (only the volume is drawn on
      a pattern day). */
  datatype DailyDraw = DailyDraw(change: int, up: int, down: int, move: int, volume: int)

  /** The ranges of `random.randint` in the daily generator. */
  predicate DailyDrawFits(d: DailyDraw)
  {
    -500 <= d.change <= 500 && 200 <= d.up <= 800 && 200 <= d.down <= 600 &&
    -300 <= d.move <= 300 && 1000000 <= d.volume <= 5000000
  }

  /** Day `i` on base price `base`: every fifth day, from day 0, is the
      fixed long-tailed rising candle; the others are drawn around the
      base. Day `i` is dated 2024-12-(20 - i). */
  function DayBar(base: int, i: int, d: DailyDraw): DailyBar
  {
    if i % 5 == 0 then
      DailyBar(20241220 - i, base + 1000, base + 1800, base - 200, base + 1500, d.volume)
    else
      var open := base + d.change;
      DailyBar(20241220 - i, open, open + d.up, open - d.down, open + d.move, d.volume)
  }

  /** The days `i` to 19 of `generate_daily_data_with_conditions`, each
      day's base being the previous day's close. */
  function DailyFrom(base: int, i: nat, draws: seq<DailyDraw>): (r: seq<DailyBar>)
    ensures |draws| >= 20 && i <= 20 ==> |r| == 20 - i
    decreases 20 - i
  {
    if i >= 20 || i >= |draws| then []
    else
      var bar := DayBar(base, i, draws[i]);
      [bar] + DailyFrom(bar.close, i + 1, draws)
  }

  /** One day of the generator loop: the fixed long-tailed pattern every
      fifth day, otherwise the drawn moves around the base. */
  method GenerateDay(basePrice: int, i: int, d: DailyDraw) returns (item: DailyBar)
    ensures item == DayBar(basePrice, i, d)
    ensures item.date == 20241220 - i && item.volume == d.volume
    ensures i % 5 == 0 ==> TailUp(item) && item.close == basePrice + 1500
  {
    var openPrice, highPrice, lowPrice, closePrice;
    if i % 5 == 0 {
      openPrice := basePrice + 1000;
      highPrice := openPrice + 800;
      lowPrice := openPrice - 1200;
      closePrice := openPrice + 500;
    } else {
      openPrice := basePrice + d.change;
      highPrice := openPrice + d.up;
      lowPrice := openPrice - d.down;
      closePrice := openPrice + d.move;
    }
    item := DailyBar(20241220 - i, openPrice, highPrice, lowPrice, closePrice, d.volume);
  }

  /** The generated days from day `i` are day `i` followed by the days from
      `i + 1` on its close, and appending day `i` to the days before it
      keeps the whole series. */
  lemma DailyFromStep(daily: seq<DailyBar>, base: int, basePrice: int, i: nat, draws: seq<DailyDraw>)
    requires i < 20 <= |draws|
    requires daily + DailyFrom(basePrice, i, draws) == DailyFrom(base, 0, draws)
    ensures var item := DayBar(basePrice, i, draws[i]);
      (daily + [item]) + DailyFrom(item.close, i + 1, draws) == DailyFrom(base, 0, draws)
  {
    var item := DayBar(basePrice, i, draws[i]);
    assert DailyFrom(basePrice, i, draws) == [item] + DailyFrom(item.close, i + 1, draws);
    assert daily + ([item] + DailyFrom(item.close, i + 1, draws)) ==
           (daily + [item]) + DailyFrom(item.close, i + 1, draws);
  }

  /** `generate_daily_data_with_conditions` for the base price `base`. */
  method GenerateDailyData(base: int, draws: seq<DailyDraw>) returns (daily: seq<DailyBar>)
    requires |draws| >= 20
    ensures daily == DailyFrom(base, 0, draws)
    ensures |daily| == 20
  {
    daily := [];
    var basePrice := base;
    for i := 0 to 20
      invariant |daily| == i
      invariant daily + DailyFrom(basePrice, i, draws) == DailyFrom(base, 0, draws)
    {
      var item := GenerateDay(basePrice, i, draws[i]);
      DailyFromStep(daily, base, basePrice, i, draws);
      daily := daily + [item];
      basePrice := item.close;
    }
  }

  /** Day `j + k` of a generation started at day `j` is dated
      2024-12-(20 - j - k), and it is tail-upward on every fifth day. */
  lemma {:induction false} DailyFromAt(base: int, j: nat, draws: seq<DailyDraw>, k: nat)
    requires j <= 20 <= |draws| && k < 20 - j
    ensures DailyFrom(base, j, draws)[k].date == 20241220 - (j + k)
    ensures (j + k) % 5 == 0 ==> TailUp(DailyFrom(base, j, draws)[k])
    decreases k
  {
    if k > 0 {
      var bar := DayBar(base, j, draws[j]);
      DailyFromAt(bar.close, j + 1, draws, k - 1);
    }
  }

  /** The shape of every generated daily series, whatever the draws:
      twenty days dated 2024-12-20 down to 2024-12-01, the pattern days
      0, 5, 10 and 15 tail-upward, so `check_tail_upward` always holds. */
  lemma GeneratedDailyShape(base: int, draws: seq<DailyDraw>)
    requires |draws| >= 20
    ensures var d := DailyFrom(base, 0, draws);
      && |d| == 20
      && (forall i :: 0 <= i < 20 ==> d[i].date == 20241220 - i)
      && TailUp(d[0]) && TailUp(d[5]) && TailUp(d[10]) && TailUp(d[15])
      && TailUpwardAll(d)
  {
    var d := DailyFrom(base, 0, draws);
    forall i | 0 <= i < 20 ensures d[i].date == 20241220 - i {
      DailyFromAt(base, 0, draws, i);
    }
    DailyFromAt(base, 0, draws, 0);
    DailyFromAt(base, 0, draws, 5);
    DailyFromAt(base, 0, draws, 10);
    DailyFromAt(base, 0, draws, 15);
    CountWhereFromThree(d, TailUp, 0, 5, 10);
  }

  /** The record the code prices a pick with, `daily_data[-1]`, is the
      earliest-dated generated day (2024-12-01), older than every other. */
  lemma PriceRecordIsEarliest(base: int, draws: seq<DailyDraw>)
    requires |draws| >= 20
    ensures var d := DailyFrom(base, 0, draws);
      |d| == 20 && Last(d).date == 20241201 &&
      forall i :: 0 <= i < 19 ==> Last(d).date < d[i].date
  {
    GeneratedDailyShape(base, draws);
  }

  /** The latest-dated candle of a series (the first of several with the
      same date). */
  function LatestBar(daily: seq<DailyBar>): (b: DailyBar)
    requires |daily| > 0
    ensures b in daily
    ensures forall i :: 0 <= i < |daily| ==> daily[i].date <= b.date
  {
    if |daily| == 1 then daily[0]
    else
      var rest := LatestBar(daily[..|daily| - 1]);
      assert forall i :: 0 <= i < |daily| - 1 ==> daily[..|daily| - 1][i] == daily[i];
      if daily[|daily| - 1].date > rest.date then daily[|daily| - 1] else rest
  }

  /** On generated data the latest candle is the first one, so the latest
      close is `daily_data[0]['close']`, not `daily_data[-1]['close']`. */
  lemma GeneratedLatestIsFirst(base: int, draws: seq<DailyDraw>)
    requires |draws| >= 20
    ensures var d := DailyFrom(base, 0, draws);
      |d| == 20 && LatestBar(d) == d[0] && LatestBar(d) != Last(d)
  {
    GeneratedDailyShape(base, draws);
    var d := DailyFrom(base, 0, draws);
    var b := LatestBar(d);
    var i :| 0 <= i < |d| && d[i] == b;
    assert d[0].date <= b.date;
  }

  // ---------------------------------------------------------------------
  // Generated monthly candles

  /** The ranges of `random.randint` in the monthly generator: months 0
      to 2 draw from [2000, 5000], months 3 to 5 from [-3000, 1000]. */
  predicate MonthDrawsFit(draws: seq<int>)
  {
    |draws| == 6 &&
    (forall i :: 0 <= i < 3 ==> 2000 <= draws[i] <= 5000) &&
    (forall i :: 3 <= i < 6 ==> -3000 <= draws[i] <= 1000)
  }

  /** The base price before month `n` of `generate_monthly_data` as
      written: each month's close becomes the next month's base. */
  function ChainedBase(base: int, n: nat, draws: seq<int>): int
    requires n <= |draws|
  {
    if n == 0 then base else ChainedBase(base, n - 1, draws) + draws[n - 1]
  }

  /** Months 0 to `n - 1` of `generate_monthly_data` as written: month
      `k` is dated 2024-(12 - k) and closes at its base plus its draw. */
  function MonthlyChained(base: int, n: nat, draws: seq<int>): (r: seq<MonthlyBar>)
    requires n <= |draws|
    ensures |r| == n
    ensures forall k :: 0 <= k < n ==> r[k] == MonthlyBar(202412 - k, ChainedBase(base, k + 1, draws))
  {
    if n == 0 then []
    else MonthlyChained(base, n - 1, draws) + [MonthlyBar(202412 - (n - 1), ChainedBase(base, n, draws))]
  }

  /** `generate_monthly_data` for the base price `base`. */
  method GenerateMonthlyData(base: int, draws: seq<int>) returns (monthly: seq<MonthlyBar>)
    requires |draws| >= 6
    ensures monthly == MonthlyChained(base, 6, draws)
  {
    monthly := [];
    var basePrice := base;
    for i := 0 to 6
      invariant monthly == MonthlyChained(base, i, draws)
      invariant basePrice == ChainedBase(base, i, draws)
    {
      var closePrice := basePrice + draws[i];
      monthly := monthly + [MonthlyBar(202412 - i, closePrice)];
      basePrice := closePrice;
    }
  }

  /** As written, the generated months are a downtrend exactly when the
      weighted draws `d1 + 2 d2 + 3 d3 + 2 d4 + d5` are positive: the
      months after the first three start from the third month's close. */
  lemma ChainedDowntrendCondition(base: int, draws: seq<int>)
    requires |draws| >= 6
    ensures IsDowntrend(MonthlyChained(base, 6, draws)) <==>
            draws[1] + 2 * draws[2] + 3 * draws[3] + 2 * draws[4] + draws[5] > 0
  {
    var m := MonthlyChained(base, 6, draws);
    IsDowntrendCases(m);
    assert m[..6] == m;
    var c := MonthlyCloses(m);
    assert ChainedBase(base, 1, draws) == base + draws[0];
    assert ChainedBase(base, 2, draws) == ChainedBase(base, 1, draws) + draws[1];
    assert ChainedBase(base, 3, draws) == ChainedBase(base, 2, draws) + draws[2];
    assert ChainedBase(base, 4, draws) == ChainedBase(base, 3, draws) + draws[3];
    assert ChainedBase(base, 5, draws) == ChainedBase(base, 4, draws) + draws[4];
    assert ChainedBase(base, 6, draws) == ChainedBase(base, 5, draws) + draws[5];
    SumOfThree(c[..3]);
    SumOfThree(c[3..]);
  }

  /** The generator promises an uptrend (three-month mean above the
      six-month mean), but in-range draws produce a downtrend: draws
      2000, 2000, 2000, 0, 0, 0 give closes base + 2000, + 4000, + 6000,
      + 6000, + 6000, + 6000. */
  lemma ChainedGeneratorCanDowntrend(base: int)
    ensures MonthDrawsFit([2000, 2000, 2000, 0, 0, 0])
    ensures IsDowntrend(MonthlyChained(base, 6, [2000, 2000, 2000, 0, 0, 0]))
  {
    ChainedDowntrendCondition(base, [2000, 2000, 2000, 0, 0, 0]);
  }

  /** Months 0 to `n - 1` as the generator's comment intends: every close
      is drawn around the same base price. */
  function MonthlyFromBase(base: int, n: nat, draws: seq<int>): (r: seq<MonthlyBar>)
    requires n <= |draws|
    ensures |r| == n
    ensures forall k :: 0 <= k < n ==> r[k] == MonthlyBar(202412 - k, base + draws[k])
  {
    if n == 0 then []
    else MonthlyFromBase(base, n - 1, draws) + [MonthlyBar(202412 - (n - 1), base + draws[n - 1])]
  }

  /** With the base kept fixed, in-range draws always give the intended
      uptrend: the latest three closes average strictly above the six,
      so the series is never a downtrend. */
  lemma FixedBaseNeverDowntrend(base: int, draws: seq<int>)
    requires MonthDrawsFit(draws)
    ensures var c := MonthlyCloses(MonthlyFromBase(base, 6, draws));
      Sum(c[3..]) < Sum(c[..3])
    ensures !IsDowntrend(MonthlyFromBase(base, 6, draws))
  {
    var m := MonthlyFromBase(base, 6, draws);
    IsDowntrendCases(m);
    assert m[..6] == m;
    var c := MonthlyCloses(m);
    SumOfThree(c[..3]);
    SumOfThree(c[3..]);
  }

  // ---------------------------------------------------------------------
  // The selection loop

  /** The draws behind one stock: the base price `50000 + hash(code) %
      50000` shared by both generators, and the random values. */
  datatype Draws = Draws(base: int, daily: seq<DailyDraw>, monthly: seq<int>)

  predicate DrawsFit(d: Draws)
  {
    50000 <= d.base < 100000 && |d.daily| == 20 &&
    (forall i :: 0 <= i < 20 ==> DailyDrawFits(d.daily[i])) && MonthDrawsFit(d.monthly)
  }

  /** Draws that `random.randint` can produce. */
  type FitDraws = d: Draws | DrawsFit(d)
    witness Draws(50000, seq(20, _ => DailyDraw(0, 200, 200, 0, 1000000)), [2000, 2000, 2000, 0, 0, 0])

  /** The record `generate_test_data` keeps for a stock: tail-upward,
      bottom twice and not a downtrend, priced with `daily_data[-1]`. */
  function PickFor(drawsOf: string -> FitDraws): StockRef -> Option<Pick>
  {
    (s: StockRef) =>
      var d := drawsOf(s.code);
      var daily := DailyFrom(d.base, 0, d.daily);
      if TailUpwardAll(daily) && BottomTwiceAll(daily) && !IsDowntrend(MonthlyChained(d.base, 6, d.monthly))
      then Some(Pick(s.name, s.code, Last(daily).close))
      else None
  }

  /** `generate_test_data`, with `drawsOf(code)` the draws for a code. */
  method GenerateTestData(drawsOf: string -> FitDraws) returns (picks: seq<Pick>)
    ensures picks == Keep(TestStocks, PickFor(drawsOf))
  {
    picks := ScreenGeneratedStocks(TestStocks, drawsOf);
  }

  /** The loop of `generate_test_data` over a stock list. */
  method ScreenGeneratedStocks(stocks: seq<StockRef>, drawsOf: string -> FitDraws) returns (picks: seq<Pick>)
    ensures picks == Keep(stocks, PickFor(drawsOf))
  {
    picks := [];
    for i := 0 to |stocks|
      invariant picks == Keep(stocks[..i], PickFor(drawsOf))
    {
      var stock := stocks[i];
      KeepPrefixStep(stocks, i, PickFor(drawsOf));
      var pick := ScreenGenerated(stock, drawsOf(stock.code), drawsOf);
      if pick.Some? {
        picks := picks + [pick.value];
      }
    }
    assert stocks[..|stocks|] == stocks;
  }

  /** One iteration of `generate_test_data`: generate both series, then
      the three checks in order. */
  method ScreenGenerated(stock: StockRef, d: Draws, ghost drawsOf: string -> FitDraws) returns (pick: Option<Pick>)
    requires d == drawsOf(stock.code)
    ensures pick == PickFor(drawsOf)(stock)
  {
    var dailyData := GenerateDailyData(d.base, d.daily);
    var monthlyData := GenerateMonthlyData(d.base, d.monthly);
    var tail := CheckTailUpward(dailyData);
    if !tail {
      return None;
    }
    var bottom := CheckBottomTwice(dailyData);
    if !bottom {
      return None;
    }
    if IsDowntrend(monthlyData) {
      return None;
    }
    return Some(Pick(stock.name, stock.code, dailyData[|dailyData| - 1].close));
  }

  /** On generated data the tail-upward check never rejects: a stock is
      kept exactly when its lows touch the bottom twice and its chained
      months are not a downtrend. */
  lemma SelectionOnGeneratedData(drawsOf: string -> FitDraws, s: StockRef)
    ensures var d := drawsOf(s.code); var daily := DailyFrom(d.base, 0, d.daily);
      PickFor(drawsOf)(s) ==
        if BottomTwiceAll(daily) && !IsDowntrend(MonthlyChained(d.base, 6, d.monthly))
        then Some(Pick(s.name, s.code, Last(daily).close)) else None
  {
    GeneratedDailyShape(drawsOf(s.code).base, drawsOf(s.code).daily);
  }

  /** The selection as intended: months drawn around a fixed base and the
      price taken from the latest candle. */
  function IntendedPickFor(drawsOf: string -> FitDraws): StockRef -> Option<Pick>
  {
    (s: StockRef) =>
      var d := drawsOf(s.code);
      var daily := DailyFrom(d.base, 0, d.daily);
      if TailUpwardAll(daily) && BottomTwiceAll(daily) && !IsDowntrend(MonthlyFromBase(d.base, 6, d.monthly))
      then Some(Pick(s.name, s.code, LatestBar(daily).close))
      else None
  }

  /** With the intended generators only the bottom-twice check can reject
      a stock, and the price is the close of 2024-12-20, the latest day. */
  lemma IntendedSelection(drawsOf: string -> FitDraws, s: StockRef)
    ensures var d := drawsOf(s.code); var daily := DailyFrom(d.base, 0, d.daily);
      && IntendedPickFor(drawsOf)(s) ==
           (if BottomTwiceAll(daily) then Some(Pick(s.name, s.code, daily[0].close)) else None)
      && daily[0].date == 20241220
  {
    var d := drawsOf(s.code);
    GeneratedDailyShape(d.base, d.daily);
    GeneratedLatestIsFirst(d.base, d.daily);
    FixedBaseNeverDowntrend(d.base, d.monthly);
  }
}
