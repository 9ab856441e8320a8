/** `server/kiwoom_condition_filter.py`: screens a fixed list of twenty
    KOSPI stocks with three rules over date-sorted daily and monthly
    candles and wraps the outcome in a result envelope. */
module ConditionFilter {
  import opened Base
  import opened Sorting
  import opened Candles
  import opened Broker

  const KospiTop: seq<StockRef> := [
    StockRef("삼성전자", "005930"), StockRef("SK하이닉스", "000660"),
    StockRef("NAVER", "035420"), StockRef("카카오", "035720"),
    StockRef("LG에너지솔루션", "373220"), StockRef("현대차", "005380"),
    StockRef("기아", "000270"), StockRef("POSCO홀딩스", "005490"),
    StockRef("LG화학", "051910"), StockRef("삼성바이오로직스", "207940"),
    StockRef("현대모비스", "012330"), StockRef("KB금융", "105560"),
    StockRef("신한지주", "055550"), StockRef("하나금융지주", "086790"),
    StockRef("LG전자", "066570"), StockRef("삼성SDI", "006400"),
    StockRef("포스코퓨처엠", "003670"), StockRef("아모레퍼시픽", "090430"),
    StockRef("LG생활건강", "051900"), StockRef("셀트리온", "068270")]

  const ConditionName := "꼬리우상향_바닥2회_상승장"
  const LoginFailed := "키움증권 로그인 실패"
  const SearchFailed := "조건검색 실행 실패"
  const ErrorPrefix := "조건검색 오류: "
  /** `str()` of the ZeroDivisionError a zero six-month high raises. */
  const FloatDivisionByZero := "float division by zero"

  // ---------------------------------------------------------------------
  // Stored series

  /** What `process_daily_data` stores: the first twenty received daily
      candles, sorted by date (ties keep their received order). */
  function PrepareDaily(raw: seq<DailyBar>): (r: seq<DailyBar>)
    ensures |r| == Min(|raw|, 20)
    ensures SortedBy(r, DailyDate)
    ensures multiset(r) == multiset(Take(raw, 20))
  {
    SortByCorrect(Take(raw, 20), DailyDate);
    SortBy(Take(raw, 20), DailyDate)
  }

  /** What `process_monthly_data` stores: the first six received monthly
      candles, sorted by month. */
  function PrepareMonthly(raw: seq<MonthlyBar>): (r: seq<MonthlyBar>)
    ensures |r| == Min(|raw|, 6)
    ensures SortedBy(r, MonthDate)
    ensures multiset(r) == multiset(Take(raw, 6))
  {
    SortByCorrect(Take(raw, 6), MonthDate);
    SortBy(Take(raw, 6), MonthDate)
  }

  function PreparedDaily(feed: map<string, seq<DailyBar>>): map<string, seq<DailyBar>>
  {
    map c | c in feed :: PrepareDaily(feed[c])
  }

  function PreparedMonthly(feed: map<string, seq<MonthlyBar>>): map<string, seq<MonthlyBar>>
  {
    map c | c in feed :: PrepareMonthly(feed[c])
  }

  /** The checks re-sort their input; on a stored series that is a no-op. */
  lemma StoredSeriesNeedNoResort(raw: seq<DailyBar>, rawMonths: seq<MonthlyBar>)
    ensures SortBy(PrepareDaily(raw), DailyDate) == PrepareDaily(raw)
    ensures SortBy(PrepareMonthly(rawMonths), MonthDate) == PrepareMonthly(rawMonths)
  {
    SortBySortedIsIdentity(PrepareDaily(raw), DailyDate);
    SortBySortedIsIdentity(PrepareMonthly(rawMonths), MonthDate);
  }

  // ---------------------------------------------------------------------
  // Rule 1: at least three tail-upward candles among the latest twenty

  /** The latest (at most) twenty candles by date. */
  function RecentDays(daily: seq<DailyBar>): (w: seq<DailyBar>)
    ensures |w| == Min(|daily|, 20)
  {
    TakeLast(SortBy(daily, DailyDate), 20)
  }

  predicate Condition1(daily: seq<DailyBar>)
  {
    var w := RecentDays(daily);
    |w| >= 3 && CountWhere(w, TailUp) >= 3
  }

  method CheckCondition1(daily: seq<DailyBar>) returns (ok: bool)
    ensures ok == Condition1(daily)
    ensures |daily| < 3 ==> !ok
  {
    var sorted := SortBy(daily, DailyDate);
    var n := Min(|sorted|, 20);
    if n < 3 {
      return false;
    }
    var count := CountQualifying(sorted[|sorted| - n..], TailUp);
    ok := count >= 3;
  }

  /** Rule 1 holds exactly when three distinct candles of the window are
      tail-upward. */
  lemma Condition1Witnessed(daily: seq<DailyBar>)
    ensures var w := RecentDays(daily);
      Condition1(daily) <==>
      exists i, j, k :: 0 <= i < j < k < |w| && TailUp(w[i]) && TailUp(w[j]) && TailUp(w[k])
  {
    CountWhereAtLeastThree(RecentDays(daily), TailUp);
  }

  // ---------------------------------------------------------------------
  // Rule 2: the bottom is touched twice among the latest twenty

  function RecentLows(daily: seq<DailyBar>): (lows: seq<int>)
    ensures |lows| == Min(|daily|, 20)
  {
    Lows(RecentDays(daily))
  }

  predicate Condition2(daily: seq<DailyBar>)
  {
    var lows := RecentLows(daily);
    |lows| >= 2 && CountWhere(lows, NearBottomOf(MinOf(lows))) >= 2
  }

  method CheckCondition2(daily: seq<DailyBar>) returns (ok: bool)
    ensures ok == Condition2(daily)
    ensures |daily| < 2 ==> !ok
  {
    var sorted := SortBy(daily, DailyDate);
    var n := Min(|sorted|, 20);
    if n < 2 {
      return false;
    }
    var lows := Lows(sorted[|sorted| - n..]);
    var minLow := MinOf(lows);
    var count := CountQualifying(lows, NearBottomOf(minLow));
    ok := count >= 2;
  }

  /** Rule 2 holds exactly when two distinct lows of the window lie within
      2% above the window's minimum. With non-negative prices the minimum
      itself is one of them, so one more such low suffices. */
  lemma Condition2Witnessed(daily: seq<DailyBar>)
    ensures var lows := RecentLows(daily);
      Condition2(daily) <==>
      |lows| >= 2 &&
      exists i, j :: 0 <= i < j < |lows| &&
        NearBottom(MinOf(lows), lows[i]) && NearBottom(MinOf(lows), lows[j])
  {
    var lows := RecentLows(daily);
    if |lows| >= 2 {
      CountWhereAtLeastTwo(lows, NearBottomOf(MinOf(lows)));
    }
  }

  lemma MinimumAlwaysCounted(daily: seq<DailyBar>)
    requires |daily| >= 1
    requires MinOf(RecentLows(daily)) >= 0
    ensures CountWhere(RecentLows(daily), NearBottomOf(MinOf(RecentLows(daily)))) >= 1
  {
    var lows := RecentLows(daily);
    var m := MinOf(lows);
    var i :| 0 <= i < |lows| && lows[i] == m;
    assert NearBottomOf(m)(lows[i]);
    CountWherePositive(lows, NearBottomOf(m));
  }

  // ---------------------------------------------------------------------
  // Rule 3: a downtrend over the latest six months

  function RecentMonths(monthly: seq<MonthlyBar>): (w: seq<MonthlyBar>)
    ensures |w| == Min(|monthly|, 6)
  {
    TakeLast(SortBy(monthly, MonthDate), 6)
  }

  /** `check_condition_3`: `None` when it raises (a six-month high of 0
      divides by zero), otherwise whether the stock is in a downtrend. It
      is false for fewer than six months and after a decline of at least
      50% from the six-month high; otherwise it compares the mean of the
      latest three closes with the mean of all six. */
  function Condition3(monthly: seq<MonthlyBar>): Option<bool>
  {
    var w := RecentMonths(monthly);
    if |w| < 6 then Some(false)
    else
      var closes := MonthlyCloses(w);
      var high := MaxOf(closes);
      var current := closes[5];
      if high == 0 then None
      else if RatioAtLeast(high - current, high, 1, 2) then Some(false)
      else Some(MeanLess(closes[3..], closes))
  }

  lemma Condition3Cases(monthly: seq<MonthlyBar>)
    ensures |monthly| < 6 ==> Condition3(monthly) == Some(false)
    ensures |monthly| >= 6 ==>
      var closes := MonthlyCloses(RecentMonths(monthly));
      var high := MaxOf(closes);
      var current := closes[5];
      && (Condition3(monthly) == None <==> high == 0)
      && (high != 0 && (high - current) as real / high as real >= 0.5 ==> Condition3(monthly) == Some(false))
      && (high != 0 && (high - current) as real / high as real < 0.5 ==>
            Condition3(monthly) == Some(Sum(closes[3..]) < Sum(closes[..3])))
  {
    if |monthly| >= 6 {
      var closes := MonthlyCloses(RecentMonths(monthly));
      var high := MaxOf(closes);
      if high != 0 {
        RatioAtLeastIsExact(high - closes[5], high, 1, 2);
        assert (1 as real) / (2 as real) == 0.5;
        assert closes == closes[..3] + closes[3..];
        HalfMeanBelowWhole(closes, closes[3..], closes[..3]);
      }
    }
  }

  /** Whether the latest of six months has fallen at least half from the
      six-month high (a zero high divides by zero and is not a decline). */
  predicate SteepDecline(monthly: seq<MonthlyBar>)
  {
    var closes := MonthlyCloses(RecentMonths(monthly));
    |closes| >= 6 && MaxOf(closes) != 0 &&
    (MaxOf(closes) - closes[5]) as real / MaxOf(closes) as real >= 0.5
  }

  /** As written, a steep decline makes rule 3 report "no downtrend", so a
      stock passing rules 1 and 2 is kept however far it has fallen. */
  lemma SteepDeclineIsKept(daily: map<string, seq<DailyBar>>, monthly: map<string, seq<MonthlyBar>>, s: StockRef)
    requires s.code in daily && s.code in monthly
    requires Condition1(daily[s.code]) && Condition2(daily[s.code])
    requires SteepDecline(monthly[s.code])
    ensures PickFor(daily, monthly)(s) == Some(Pick(s.name, s.code, Last(daily[s.code]).close))
  {
    StrictRuleExcludesSteepDecline(monthly[s.code]);
  }

  /** Rule 3 as the stricter downtrend filter is meant to work: a steep
      decline counts as a downtrend, and every other case is unchanged. */
  function Condition3Strict(monthly: seq<MonthlyBar>): (r: Option<bool>)
    ensures SteepDecline(monthly) ==> r == Some(true)
    ensures !SteepDecline(monthly) ==> r == Condition3(monthly)
  {
    if SteepDecline(monthly) then Some(true) else Condition3(monthly)
  }

  /** A steep decline passes rule 3 as written but is a downtrend under
      the strict rule, so the strict rule never keeps it, whatever the
      daily candles say; otherwise the strict rule keeps what rule 3
      keeps. */
  lemma StrictRuleExcludesSteepDecline(monthly: seq<MonthlyBar>)
    ensures SteepDecline(monthly) ==> Condition3(monthly) == Some(false) && Condition3Strict(monthly) == Some(true)
    ensures Condition3Strict(monthly) == Some(false) <==>
      Condition3(monthly) == Some(false) && !SteepDecline(monthly)
  {
    Condition3Cases(monthly);
  }

  // ---------------------------------------------------------------------
  // The screening loop

  /** The record kept for a stock whose stored series pass rules 1 and 2
      and fail rule 3; the price is the close of its latest stored day. */
  function PickFor(daily: map<string, seq<DailyBar>>, monthly: map<string, seq<MonthlyBar>>): StockRef -> Option<Pick>
  {
    (s: StockRef) =>
      if s.code in daily && s.code in monthly && Condition1(daily[s.code]) && Condition2(daily[s.code])
         && Condition3(monthly[s.code]) == Some(false)
      then Some(Pick(s.name, s.code, Last(daily[s.code]).close))
      else None
  }

  /** Whether screening stock `s` raises in rule 3. */
  predicate RaisesFor(daily: map<string, seq<DailyBar>>, monthly: map<string, seq<MonthlyBar>>, s: StockRef)
  {
    s.code in daily && s.code in monthly && Condition1(daily[s.code]) && Condition2(daily[s.code])
    && Condition3(monthly[s.code]) == None
  }

  /** `RaisesFor` as a test on stocks. */
  function Raises(daily: map<string, seq<DailyBar>>, monthly: map<string, seq<MonthlyBar>>): StockRef -> bool
  {
    s => RaisesFor(daily, monthly, s)
  }

  /** The state of a screening run after some prefix of the stock list. */
  datatype Scan = Scan(
    daily: map<string, seq<DailyBar>>,
    monthly: map<string, seq<MonthlyBar>>,
    current: Option<string>,
    picks: seq<Pick>,
    raised: bool)

  /** The first half of an iteration: select the stock and store whatever
      its two requests deliver. */
  function Store(p: Scan, s: StockRef, dailyFeed: map<string, seq<DailyBar>>,
                 monthlyFeed: map<string, seq<MonthlyBar>>): Scan
  {
    var d := if s.code in dailyFeed then p.daily[s.code := PrepareDaily(dailyFeed[s.code])] else p.daily;
    var m := if s.code in monthlyFeed then p.monthly[s.code := PrepareMonthly(monthlyFeed[s.code])] else p.monthly;
    Scan(d, m, Some(s.code), p.picks, false)
  }

  /** The second half: skip the stock without both series, then apply the
      three rules in order; the stored series are left as they are. */
  function Judge(q: Scan, s: StockRef): (r: Scan)
    ensures r.daily == q.daily && r.monthly == q.monthly && r.current == q.current
  {
    if s.code !in q.daily || s.code !in q.monthly then q
    else if !Condition1(q.daily[s.code]) || !Condition2(q.daily[s.code]) then q
    else match Condition3(q.monthly[s.code])
      case None => q.(raised := true)
      case Some(true) => q
      case Some(false) => q.(picks := q.picks + [Pick(s.name, s.code, Last(q.daily[s.code]).close)])
  }

  function ScanOne(p: Scan, s: StockRef, dailyFeed: map<string, seq<DailyBar>>,
                   monthlyFeed: map<string, seq<MonthlyBar>>): Scan
  {
    Judge(Store(p, s, dailyFeed, monthlyFeed), s)
  }

  /** Judging a stock raises exactly as `RaisesFor` says and otherwise
      appends what `PickFor` selects. */
  lemma JudgeVerdict(q: Scan, s: StockRef)
    requires !q.raised
    ensures Judge(q, s).raised == RaisesFor(q.daily, q.monthly, s)
    ensures !Judge(q, s).raised ==>
      Judge(q, s).picks == q.picks + (match PickFor(q.daily, q.monthly)(s) case Some(u) => [u] case None => [])
  {
  }

  /** The verdict on a stock depends only on its own stored series. */
  lemma SameSeriesSameVerdict(d1: map<string, seq<DailyBar>>, m1: map<string, seq<MonthlyBar>>,
                              d2: map<string, seq<DailyBar>>, m2: map<string, seq<MonthlyBar>>, s: StockRef)
    requires (s.code in d1 <==> s.code in d2) && (s.code in d1 ==> d1[s.code] == d2[s.code])
    requires (s.code in m1 <==> s.code in m2) && (s.code in m1 ==> m1[s.code] == m2[s.code])
    ensures RaisesFor(d1, m1, s) == RaisesFor(d2, m2, s)
    ensures PickFor(d1, m1)(s) == PickFor(d2, m2)(s)
  {
  }

  /** `run_condition_search` over `stocks`, starting from the stored
      series `d0`/`m0`; a raise stops the run. */
  function ScanStocks(stocks: seq<StockRef>, dailyFeed: map<string, seq<DailyBar>>,
                      monthlyFeed: map<string, seq<MonthlyBar>>,
                      d0: map<string, seq<DailyBar>>, m0: map<string, seq<MonthlyBar>>,
                      current0: Option<string>): Scan
  {
    if stocks == [] then Scan(d0, m0, current0, [], false)
    else
      var p := ScanStocks(stocks[..|stocks| - 1], dailyFeed, monthlyFeed, d0, m0, current0);
      if p.raised then p else ScanOne(p, stocks[|stocks| - 1], dailyFeed, monthlyFeed)
  }

  /** A raise ends the run: the later stocks change nothing. */
  lemma {:induction false} ScanStaysRaised(stocks: seq<StockRef>, n: nat, dailyFeed: map<string, seq<DailyBar>>,
                                           monthlyFeed: map<string, seq<MonthlyBar>>,
                                           d0: map<string, seq<DailyBar>>, m0: map<string, seq<MonthlyBar>>,
                                           current0: Option<string>)
    requires n <= |stocks|
    requires ScanStocks(stocks[..n], dailyFeed, monthlyFeed, d0, m0, current0).raised
    ensures ScanStocks(stocks, dailyFeed, monthlyFeed, d0, m0, current0) ==
            ScanStocks(stocks[..n], dailyFeed, monthlyFeed, d0, m0, current0)
    decreases |stocks|
  {
    if n < |stocks| {
      var init := stocks[..|stocks| - 1];
      assert init[..n] == stocks[..n];
      ScanStaysRaised(init, n, dailyFeed, monthlyFeed, d0, m0, current0);
    } else {
      assert stocks[..n] == stocks;
    }
  }

  /** One iteration keeps the stored series refreshed, raises exactly when
      the stock raises on its effective series, and otherwise appends what
      `PickFor` selects for it. */
  lemma {:induction false} ScanOneStep(p: Scan, s: StockRef, dailyFeed: map<string, seq<DailyBar>>,
                                       monthlyFeed: map<string, seq<MonthlyBar>>,
                                       d0: map<string, seq<DailyBar>>, m0: map<string, seq<MonthlyBar>>,
                                       seen: set<string>)
    requires Refreshed(p.daily, d0, PreparedDaily(dailyFeed), seen)
    requires Refreshed(p.monthly, m0, PreparedMonthly(monthlyFeed), seen)
    ensures var sc := ScanOne(p, s, dailyFeed, monthlyFeed);
      var ed := Effective(d0, PreparedDaily(dailyFeed));
      var em := Effective(m0, PreparedMonthly(monthlyFeed));
      && Refreshed(sc.daily, d0, PreparedDaily(dailyFeed), seen + {s.code})
      && Refreshed(sc.monthly, m0, PreparedMonthly(monthlyFeed), seen + {s.code})
      && (sc.raised <==> RaisesFor(ed, em, s))
      && (!sc.raised ==> sc.picks == p.picks + (match PickFor(ed, em)(s) case Some(u) => [u] case None => []))
  {
    var pd := PreparedDaily(dailyFeed);
    var pm := PreparedMonthly(monthlyFeed);
    var q := Store(p, s, dailyFeed, monthlyFeed);
    StoreRefreshes(p, s, dailyFeed, monthlyFeed, d0, m0, seen);
    RefreshedAtSeen(q.daily, d0, pd, seen + {s.code}, s.code);
    RefreshedAtSeen(q.monthly, m0, pm, seen + {s.code}, s.code);
    JudgeVerdict(q, s);
    SameSeriesSameVerdict(q.daily, q.monthly, Effective(d0, pd), Effective(m0, pm), s);
  }

  /** Storing a stock's series refreshes its code. */
  lemma StoreRefreshes(p: Scan, s: StockRef, dailyFeed: map<string, seq<DailyBar>>,
                       monthlyFeed: map<string, seq<MonthlyBar>>,
                       d0: map<string, seq<DailyBar>>, m0: map<string, seq<MonthlyBar>>,
                       seen: set<string>)
    requires Refreshed(p.daily, d0, PreparedDaily(dailyFeed), seen)
    requires Refreshed(p.monthly, m0, PreparedMonthly(monthlyFeed), seen)
    ensures var q := Store(p, s, dailyFeed, monthlyFeed);
      && Refreshed(q.daily, d0, PreparedDaily(dailyFeed), seen + {s.code})
      && Refreshed(q.monthly, m0, PreparedMonthly(monthlyFeed), seen + {s.code})
  {
    var pd := PreparedDaily(dailyFeed);
    var pm := PreparedMonthly(monthlyFeed);
    var q := Store(p, s, dailyFeed, monthlyFeed);
    assert s.code in pd ==> pd[s.code] == PrepareDaily(dailyFeed[s.code]);
    assert s.code in pm ==> pm[s.code] == PrepareMonthly(monthlyFeed[s.code]);
    assert q.daily == if s.code in pd then p.daily[s.code := pd[s.code]] else p.daily;
    assert q.monthly == if s.code in pm then p.monthly[s.code := pm[s.code]] else p.monthly;
    RefreshedStep(p.daily, d0, pd, seen, s.code);
    RefreshedStep(p.monthly, m0, pm, seen, s.code);
  }

  /** The whole run: it raises exactly when some stock raises on its
      effective series, and otherwise its picks are the in-order selection
      of `PickFor` over the stock list. */
  lemma {:induction false} ScanInvariant(stocks: seq<StockRef>, dailyFeed: map<string, seq<DailyBar>>,
                                         monthlyFeed: map<string, seq<MonthlyBar>>,
                                         d0: map<string, seq<DailyBar>>, m0: map<string, seq<MonthlyBar>>,
                                         current0: Option<string>)
    ensures var sc := ScanStocks(stocks, dailyFeed, monthlyFeed, d0, m0, current0);
      var ed := Effective(d0, PreparedDaily(dailyFeed));
      var em := Effective(m0, PreparedMonthly(monthlyFeed));
      && (sc.raised <==> AnyWhere(stocks, Raises(ed, em)))
      && (!sc.raised ==>
            && sc.picks == Keep(stocks, PickFor(ed, em))
            && Refreshed(sc.daily, d0, PreparedDaily(dailyFeed), Codes(stocks))
            && Refreshed(sc.monthly, m0, PreparedMonthly(monthlyFeed), Codes(stocks)))
    decreases |stocks|
  {
    var ed := Effective(d0, PreparedDaily(dailyFeed));
    var em := Effective(m0, PreparedMonthly(monthlyFeed));
    if stocks != [] {
      var init := stocks[..|stocks| - 1];
      var s := stocks[|stocks| - 1];
      ScanInvariant(init, dailyFeed, monthlyFeed, d0, m0, current0);
      AnyWhereSnoc(stocks, Raises(ed, em));
      var p := ScanStocks(init, dailyFeed, monthlyFeed, d0, m0, current0);
      if !p.raised {
        ScanOneStep(p, s, dailyFeed, monthlyFeed, d0, m0, Codes(init));
      }
    } else {
      assert Refreshed(d0, d0, PreparedDaily(dailyFeed), {});
      assert Refreshed(m0, m0, PreparedMonthly(monthlyFeed), {});
    }
  }

  // ---------------------------------------------------------------------
  // The broker-facing object

  /** The outcome of `run_condition_search`. */
  datatype Run = NotLoggedIn | Raised(message: string) | Completed(picks: seq<Pick>)

  /** Whether `login` leaves `login_completed` set (the connect event with
      error code 0 sets it too, even when `login` then returns False). */
  predicate LoginCompletes(h: Handshake)
  {
    h.probe.Answers? &&
    (h.probe.state == 1 || h.connectEvent == Some(0) ||
     (h.commConnect.None? && h.connectPolls == Reached))
  }

  class KiwoomConditionFilter {
    var dailyData: map<string, seq<DailyBar>>
    var monthlyData: map<string, seq<MonthlyBar>>
    var loginCompleted: bool
    var currentStock: Option<string>
    var stockList: seq<StockRef>

    constructor ()
      ensures dailyData == map[] && monthlyData == map[]
      ensures !loginCompleted && currentStock == None && stockList == KospiTop
    {
      dailyData := map[];
      monthlyData := map[];
      loginCompleted := false;
      currentStock := None;
      stockList := KospiTop;
    }

    /** `on_event_connect`: error code 0 means logged in. */
    method OnEventConnect(errCode: int)
      modifies this
      ensures loginCompleted == (old(loginCompleted) || errCode == 0)
      ensures dailyData == old(dailyData) && monthlyData == old(monthlyData)
      ensures currentStock == old(currentStock) && stockList == old(stockList)
    {
      if errCode == 0 {
        loginCompleted := true;
      }
    }

    /** `login`: already connected, or `CommConnect` followed by polling. */
    method Login(h: Handshake) returns (a: Attempt)
      modifies this
      ensures h.probe.Throws? ==> a == Threw(h.probe.message) && loginCompleted == old(loginCompleted)
      ensures h.probe.Answers? ==>
        a == Returned(h.probe.state == 1 || (h.commConnect.None? && h.connectPolls == Reached))
      ensures h.probe.Answers? ==> loginCompleted == (old(loginCompleted) || LoginCompletes(h))
      ensures dailyData == old(dailyData) && monthlyData == old(monthlyData)
      ensures currentStock == old(currentStock) && stockList == old(stockList)
    {
      match h.probe {
        case Throws(message) =>
          return Threw(message);
        case Answers(state) =>
          if state == 1 {
            loginCompleted := true;
            return Returned(true);
          }
          if h.connectEvent.Some? {
            OnEventConnect(h.connectEvent.value);
          }
          if h.commConnect.Some? {
            return Returned(false);
          }
          if h.connectPolls == Reached {
            loginCompleted := true;
            return Returned(true);
          }
          return Returned(false);
      }
    }

    /** `process_daily_data`: copy at most twenty received rows, sort them
      by date and store them under the selected stock. */
    method ProcessDailyData(raw: seq<DailyBar>)
      requires currentStock.Some?
      modifies this
      ensures dailyData == old(dailyData)[old(currentStock).value := PrepareDaily(raw)]
      ensures monthlyData == old(monthlyData) && loginCompleted == old(loginCompleted)
      ensures currentStock == old(currentStock) && stockList == old(stockList)
    {
      var rows: seq<DailyBar> := [];
      var n := Min(|raw|, 20);
      for i := 0 to n
        invariant rows == raw[..i]
      {
        rows := rows + [raw[i]];
      }
      assert rows == Take(raw, 20);
      rows := SortBy(rows, DailyDate);
      dailyData := dailyData[currentStock.value := rows];
    }

    /** `process_monthly_data`: the same for at most six monthly rows. */
    method ProcessMonthlyData(raw: seq<MonthlyBar>)
      requires currentStock.Some?
      modifies this
      ensures monthlyData == old(monthlyData)[old(currentStock).value := PrepareMonthly(raw)]
      ensures dailyData == old(dailyData) && loginCompleted == old(loginCompleted)
      ensures currentStock == old(currentStock) && stockList == old(stockList)
    {
      var rows: seq<MonthlyBar> := [];
      var n := Min(|raw|, 6);
      for i := 0 to n
        invariant rows == raw[..i]
      {
        rows := rows + [raw[i]];
      }
      assert rows == Take(raw, 6);
      rows := SortBy(rows, MonthDate);
      monthlyData := monthlyData[currentStock.value := rows];
    }

    /** The checks of one iteration of `run_condition_search` on the stored
      series: skip a stock without both series, then rules 1, 2 and 3. */
    method ScreenStock(stock: StockRef, ghost picks: seq<Pick>) returns (pick: Option<Pick>, raised: bool)
      ensures Judge(Scan(dailyData, monthlyData, currentStock, picks, false), stock) ==
              Scan(dailyData, monthlyData, currentStock,
                   picks + (match pick case Some(u) => [u] case None => []), raised)
    {
      if stock.code !in dailyData || stock.code !in monthlyData {
        return None, false;
      }
      var daily := dailyData[stock.code];
      var monthly := monthlyData[stock.code];
      var ok1 := CheckCondition1(daily);
      if !ok1 {
        return None, false;
      }
      var ok2 := CheckCondition2(daily);
      if !ok2 {
        return None, false;
      }
      match Condition3(monthly) {
        case None =>
          return None, true;
        case Some(downtrend) =>
          if downtrend {
            return None, false;
          }
      }
      return Some(Pick(stock.name, stock.code, daily[|daily| - 1].close)), false;
    }

    /** `run_condition_search`. A stock's daily (monthly) request is
      answered with the rows of `dailyFeed` (`monthlyFeed`); a code
      missing from a feed stands for a rejected request, which stores
      nothing. */
    method RunConditionSearch(dailyFeed: map<string, seq<DailyBar>>, monthlyFeed: map<string, seq<MonthlyBar>>)
      returns (r: Run)
      modifies this
      ensures !old(loginCompleted) ==>
        (r == NotLoggedIn && dailyData == old(dailyData) &&
         monthlyData == old(monthlyData) && currentStock == old(currentStock))
      ensures old(loginCompleted) ==>
        var sc := ScanStocks(old(stockList), dailyFeed, monthlyFeed, old(dailyData), old(monthlyData), old(currentStock));
        && dailyData == sc.daily && monthlyData == sc.monthly && currentStock == sc.current
        && r == (if sc.raised then Raised(FloatDivisionByZero) else Completed(sc.picks))
      ensures loginCompleted == old(loginCompleted) && stockList == old(stockList)
    {
      if !loginCompleted {
        return NotLoggedIn;
      }
      ghost var d0, m0, c0 := dailyData, monthlyData, currentStock;
      var picks: seq<Pick> := [];
      for i := 0 to |stockList|
        invariant loginCompleted && stockList == old(stockList)
        invariant ScanStocks(stockList[..i], dailyFeed, monthlyFeed, d0, m0, c0) ==
                  Scan(dailyData, monthlyData, currentStock, picks, false)
      {
        var stock := stockList[i];
        ghost var before := ScanStocks(stockList[..i], dailyFeed, monthlyFeed, d0, m0, c0);
        ghost var after := ScanStocks(stockList[..i + 1], dailyFeed, monthlyFeed, d0, m0, c0);
        assert after == ScanOne(before, stock, dailyFeed, monthlyFeed) by {
          assert stockList[..i + 1][..i] == stockList[..i];
        }
        currentStock := Some(stock.code);
        if stock.code in dailyFeed {
          ProcessDailyData(dailyFeed[stock.code]);
        }
        if stock.code in monthlyFeed {
          ProcessMonthlyData(monthlyFeed[stock.code]);
        }
        assert Scan(dailyData, monthlyData, currentStock, picks, false) ==
               Store(before, stock, dailyFeed, monthlyFeed);
        var pick, raised := ScreenStock(stock, picks);
        assert after == Scan(dailyData, monthlyData, currentStock,
                             picks + (match pick case Some(u) => [u] case None => []), raised);
        if raised {
          ScanStaysRaised(stockList, i + 1, dailyFeed, monthlyFeed, d0, m0, c0);
          assert ScanStocks(stockList, dailyFeed, monthlyFeed, d0, m0, c0) == after;
          return Raised(FloatDivisionByZero);
        }
        if pick.Some? {
          picks := picks + [pick.value];
        }
      }
      assert stockList[..|stockList|] == stockList;
      return Completed(picks);
    }
  }

  /** `run_condition_search_api`: a fresh object, `login`, the run, and the
      envelope; an escaping exception becomes an error envelope. */
  method RunConditionSearchApi(h: Handshake, dailyFeed: map<string, seq<DailyBar>>,
                               monthlyFeed: map<string, seq<MonthlyBar>>)
    returns (e: Envelope<Pick>)
    ensures CountMatches(e)
    ensures h.probe.Throws? ==> e == Failure(ErrorPrefix + h.probe.message)
    ensures h.probe.Answers? && !LoginCompletes(h) ==> e == Failure(LoginFailed)
    ensures LoginCompletes(h) ==>
      var ed := PreparedDaily(dailyFeed);
      var em := PreparedMonthly(monthlyFeed);
      if AnyWhere(KospiTop, Raises(ed, em))
      then e == Failure(ErrorPrefix + FloatDivisionByZero)
      else e == SuccessOf(ConditionName, Keep(KospiTop, PickFor(ed, em)))
  {
    var f := new KiwoomConditionFilter();
    var a := f.Login(h);
    if a.Threw? {
      return Failure(ErrorPrefix + a.message);
    }
    if !f.loginCompleted {
      return Failure(LoginFailed);
    }
    var run := f.RunConditionSearch(dailyFeed, monthlyFeed);
    ScanInvariant(KospiTop, dailyFeed, monthlyFeed, map[], map[], None);
    EffectiveOverNothing(PreparedDaily(dailyFeed));
    EffectiveOverNothing(PreparedMonthly(monthlyFeed));
    match run {
      case NotLoggedIn =>
        e := Failure(SearchFailed);
        assert false;
      case Raised(message) =>
        return Failure(ErrorPrefix + message);
      case Completed(picks) =>
        return SuccessOf(ConditionName, picks);
    }
  }

}
