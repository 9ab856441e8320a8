/** Candle records and the screening thresholds shared by every screener,
    stated exactly on integers: the 30% lower-tail rule, the 2%
    near-bottom band, the 50% decline rule and mean comparison. Each one
    is proved equal to the real-number comparison the code writes with
    floats. */
module Candles {
  import opened Base

  /** One daily candle; `date` is the YYYYMMDD key the code parses. */
  datatype DailyBar = DailyBar(date: int, open: int, high: int, low: int, close: int, volume: int)

  /** One monthly candle; `date` is the YYYYMM key. */
  datatype MonthlyBar = MonthlyBar(date: int, close: int)

  /** A `{name, code}` entry of a stock list or condition result. */
  datatype StockRef = StockRef(name: string, code: string)

  /** A `{name, code, price}` record of a screening result. */
  datatype Pick = Pick(name: string, code: string, price: int)

  function DailyDate(b: DailyBar): int { b.date }

  function MonthDate(b: MonthlyBar): int { b.date }

  function Lows(bars: seq<DailyBar>): (r: seq<int>)
    ensures |r| == |bars|
    ensures forall i :: 0 <= i < |bars| ==> r[i] == bars[i].low
  {
    if bars == [] then [] else Lows(bars[..|bars| - 1]) + [bars[|bars| - 1].low]
  }

  /** One field of every record, in order (`[x[field] for x in bars]`). */
  function Field<B>(bars: seq<B>, field: B -> int): (r: seq<int>)
    ensures |r| == |bars|
    ensures forall i :: 0 <= i < |bars| ==> r[i] == field(bars[i])
  {
    if bars == [] then [] else Field(bars[..|bars| - 1], field) + [field(bars[|bars| - 1])]
  }

  function DailyClose(b: DailyBar): int { b.close }
  function MonthlyClose(b: MonthlyBar): int { b.close }

  function DailyCloses(bars: seq<DailyBar>): seq<int> { Field(bars, DailyClose) }
  function MonthlyCloses(bars: seq<MonthlyBar>): seq<int> { Field(bars, MonthlyClose) }

  // ---------------------------------------------------------------------
  // The tail-upward candle

  /** A rising candle (open below close) with a nonzero range whose lower
      tail `open - low` is at least 30% of the range `high - low`. */
  predicate TailUp(b: DailyBar)
  {
    b.open < b.close && b.high != b.low && 10 * (b.open - b.low) >= 3 * (b.high - b.low)
  }

  /** The integer test is exactly the code's `tail >= total * 0.3`. */
  lemma TailUpIsExact(b: DailyBar)
    ensures TailUp(b) <==>
            b.open < b.close && b.high != b.low &&
            (b.open - b.low) as real >= (b.high - b.low) as real * 0.3
  {
  }

  // ---------------------------------------------------------------------
  // Near the bottom: `low <= min_low * 1.02`

  predicate NearBottom(minLow: int, low: int)
  {
    50 * low <= 51 * minLow
  }

  function NearBottomOf(minLow: int): int -> bool
  {
    (low: int) => NearBottom(minLow, low)
  }

  lemma NearBottomIsExact(minLow: int, low: int)
    ensures NearBottom(minLow, low) <==> low as real <= minLow as real * 1.02
  {
  }

  /** A non-negative minimum is within its own 2% band (a negative one is
      not: `m * 1.02 < m` then). */
  lemma MinimumIsNearBottom(m: int)
    ensures NearBottom(m, m) <==> m >= 0
  {
  }

  /** The two-sided band `min * 0.98 <= price <= min * 1.02`. */
  predicate InBand(minPrice: int, price: int)
  {
    49 * minPrice <= 50 * price && 50 * price <= 51 * minPrice
  }

  function InBandOf(minPrice: int): int -> bool
  {
    (price: int) => InBand(minPrice, price)
  }

  lemma InBandIsExact(minPrice: int, price: int)
    ensures InBand(minPrice, price) <==>
            minPrice as real * 0.98 <= price as real <= minPrice as real * 1.02
  {
  }

  // ---------------------------------------------------------------------
  // Ratios written with a real division

  /** `num / den >= p / q` for a nonzero `den` and a positive `q`, without
      dividing: the comparison flips when `den` is negative. */
  predicate RatioAtLeast(num: int, den: int, p: int, q: int)
  {
    if den > 0 then q * num >= p * den else q * num <= p * den
  }

  lemma {:induction false} RatioAtLeastIsExact(num: int, den: int, p: int, q: int)
    requires den != 0 && q > 0
    ensures RatioAtLeast(num, den, p, q) <==>
            num as real / den as real >= p as real / q as real
  {
    var x := num as real / den as real;
    var y := p as real / q as real;
    assert num as real == x * den as real;
    assert p as real == y * q as real;
    if den > 0 {
      assert q * num >= p * den <==> (q as real) * (den as real) * x >= (q as real) * (den as real) * y by {
        assert (q * num) as real == (q as real) * (den as real) * x;
        assert (p * den) as real == (q as real) * (den as real) * y;
      }
      ScaleByPositive(x, y, q as real * den as real);
    } else {
      assert q * num <= p * den <==> (q as real) * (-den as real) * x >= (q as real) * (-den as real) * y by {
        assert (q * num) as real == (q as real) * (den as real) * x;
        assert (p * den) as real == (q as real) * (den as real) * y;
      }
      ScaleByPositive(x, y, q as real * -den as real);
    }
  }

  lemma ScaleByPositive(x: real, y: real, c: real)
    requires c > 0.0
    ensures c * x >= c * y <==> x >= y
  {
    if x >= y {
      assert c * x - c * y == c * (x - y);
    } else {
      assert c * y - c * x == c * (y - x);
    }
  }

  // ---------------------------------------------------------------------
  // Means

  /** `mean(a) < mean(b)` for non-empty `a` and `b`, without dividing. */
  predicate MeanLess(a: seq<int>, b: seq<int>)
  {
    Sum(a) * |b| < Sum(b) * |a|
  }

  lemma {:induction false} MeanLessIsExact(a: seq<int>, b: seq<int>)
    requires |a| > 0 && |b| > 0
    ensures MeanLess(a, b) <==> Sum(a) as real / |a| as real < Sum(b) as real / |b| as real
  {
    CrossMultiply(Sum(a), |a|, Sum(b), |b|);
  }

  /** `sa/na < sb/nb` over the reals exactly when `sa*nb < sb*na`, for
      positive counts. */
  lemma CrossMultiply(sa: int, na: int, sb: int, nb: int)
    requires na > 0 && nb > 0
    ensures sa * nb < sb * na <==> sa as real / na as real < sb as real / nb as real
  {
    var ma := sa as real / na as real;
    var mb := sb as real / nb as real;
    var c := na as real * nb as real;
    assert sa as real == ma * na as real;
    assert sb as real == mb * nb as real;
    assert (sa * nb) as real == c * ma;
    assert (sb * na) as real == c * mb;
    ScaleByPositive(ma, mb, c);
  }

  /** Over six closes, the 3-entry mean of one half is below the 6-entry
      mean exactly when that half sums to less than the other half. */
  lemma {:induction false} HalfMeanBelowWhole(c: seq<int>, half: seq<int>, other: seq<int>)
    requires |half| == 3 && |other| == 3
    requires c == half + other || c == other + half
    ensures MeanLess(half, c) <==> Sum(half) < Sum(other)
  {
    SumAppend(half, other);
    SumAppend(other, half);
  }

  /** The converse comparison: the 6-entry mean is below the 3-entry mean
      of one half exactly when the other half sums to less. */
  lemma {:induction false} WholeMeanBelowHalf(c: seq<int>, half: seq<int>, other: seq<int>)
    requires |half| == 3 && |other| == 3
    requires c == half + other || c == other + half
    ensures MeanLess(c, half) <==> Sum(other) < Sum(half)
  {
    SumAppend(half, other);
    SumAppend(other, half);
  }

  // ---------------------------------------------------------------------
  // The downtrend test on the first six months (written in the advanced
  // filter, where it is never applied, and in the test screener)

  predicate IsDowntrend(monthly: seq<MonthlyBar>)
  {
    |monthly| >= 6 && MeanLess(MonthlyCloses(monthly[..3]), MonthlyCloses(monthly[..6]))
  }

  /** `is_downtrend` is false below six months and otherwise holds exactly
      when the first three closes average below the first six, that is,
      when they sum to less than closes four to six. */
  lemma IsDowntrendCases(monthly: seq<MonthlyBar>)
    ensures |monthly| < 6 ==> !IsDowntrend(monthly)
    ensures |monthly| >= 6 ==>
      var c := MonthlyCloses(monthly[..6]);
      && (IsDowntrend(monthly) <==> Sum(c[..3]) as real / 3.0 < Sum(c) as real / 6.0)
      && (IsDowntrend(monthly) <==> Sum(c[..3]) < Sum(c[3..]))
  {
    if |monthly| >= 6 {
      var c := MonthlyCloses(monthly[..6]);
      assert MonthlyCloses(monthly[..3]) == c[..3];
      MeanLessIsExact(c[..3], c);
      assert c == c[..3] + c[3..];
      HalfMeanBelowWhole(c, c[..3], c[3..]);
    }
  }

  /** The codes of a stock list. */
  function Codes(stocks: seq<StockRef>): (r: set<string>)
    ensures forall k :: 0 <= k < |stocks| ==> stocks[k].code in r
  {
    if stocks == [] then {} else Codes(stocks[..|stocks| - 1]) + {stocks[|stocks| - 1].code}
  }

  lemma CodesPrefixStep(stocks: seq<StockRef>, i: int)
    requires 0 <= i < |stocks|
    ensures Codes(stocks[..i + 1]) == Codes(stocks[..i]) + {stocks[i].code}
  {
    assert stocks[..i + 1][..i] == stocks[..i];
  }
}
