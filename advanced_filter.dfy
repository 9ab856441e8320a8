/** `server/kiwoom_advanced_filter.py`: takes the codes of an existing
    condition search, keeps those whose twenty stored daily candles show
    at least three tail-upward candles and a bottom touched twice, wraps
    the outcome in a result envelope and prints it between two marker
    lines. */
module AdvancedFilter {
  import opened Base
  import opened Text
  import opened Candles
  import opened Broker

  const ConditionName := "꼬리우상향_바닥2회"
  const ConnectFailed := "키움증권 연결 실패"
  const LoginFailed := "키움증권 로그인 실패"
  const FilterFailed := "고급 필터링 실행 실패"
  const ErrorPrefix := "고급 필터링 오류: "
  const StartMarker := "JSON_RESULT_START"
  const EndMarker := "JSON_RESULT_END"

  // ---------------------------------------------------------------------
  // Stored series

  /** What `process_daily_data` stores: the first twenty received daily
      candles in reverse of the received order. */
  function PrepareDaily(raw: seq<DailyBar>): (r: seq<DailyBar>)
    ensures |r| == Min(|raw|, 20)
    ensures forall i :: 0 <= i < |r| ==> r[i] == raw[|r| - 1 - i]
    ensures multiset(r) == multiset(Take(raw, 20))
  {
    ReverseIsPermutation(Take(raw, 20));
    Reverse(Take(raw, 20))
  }

  /** What `process_monthly_data` stores: the first six received monthly
      candles in reverse of the received order. */
  function PrepareMonthly(raw: seq<MonthlyBar>): (r: seq<MonthlyBar>)
    ensures |r| == Min(|raw|, 6)
    ensures forall i :: 0 <= i < |r| ==> r[i] == raw[|r| - 1 - i]
    ensures multiset(r) == multiset(Take(raw, 6))
  {
    ReverseIsPermutation(Take(raw, 6));
    Reverse(Take(raw, 6))
  }

  // ---------------------------------------------------------------------
  // Condition 1: at least three tail-upward candles among the first twenty

  predicate TailUpward(daily: seq<DailyBar>)
  {
    |daily| >= 20 && CountWhere(daily[..20], TailUp) >= 3
  }

  method CheckTailUpward(daily: seq<DailyBar>) returns (ok: bool)
    ensures ok == TailUpward(daily)
    ensures |daily| < 20 ==> !ok
  {
    if |daily| < 20 {
      return false;
    }
    var count := CountQualifying(daily[..20], TailUp);
    ok := count >= 3;
  }

  lemma TailUpwardWitnessed(daily: seq<DailyBar>)
    ensures TailUpward(daily) <==>
      |daily| >= 20 &&
      exists i, j, k :: 0 <= i < j < k < 20 && TailUp(daily[i]) && TailUp(daily[j]) && TailUp(daily[k])
  {
    if |daily| >= 20 {
      var w := daily[..20];
      CountWhereAtLeastThree(w, TailUp);
      assert forall i :: 0 <= i < 20 ==> w[i] == daily[i];
    }
  }

  /** Only the candles counted matter, not their order: on the stored
      (reversed) series of a twenty-candle delivery the verdict is the
      one on the delivery itself. */
  lemma TailUpwardIgnoresOrder(raw: seq<DailyBar>)
    requires |raw| == 20
    ensures TailUpward(PrepareDaily(raw)) <==> CountWhere(raw, TailUp) >= 3
  {
    assert Take(raw, 20) == raw;
    assert PrepareDaily(raw)[..20] == PrepareDaily(raw);
    CountWhereReverse(raw, TailUp);
  }

  // ---------------------------------------------------------------------
  // Condition 2: the bottom touched twice among the first twenty

  function FirstLows(daily: seq<DailyBar>): (lows: seq<int>)
    requires |daily| >= 20
    ensures |lows| == 20
    ensures forall i :: 0 <= i < 20 ==> lows[i] == daily[i].low
  {
    Lows(daily[..20])
  }

  predicate BottomTwice(daily: seq<DailyBar>)
  {
    |daily| >= 20 && CountWhere(FirstLows(daily), NearBottomOf(MinOf(FirstLows(daily)))) >= 2
  }

  method CheckBottomTwice(daily: seq<DailyBar>) returns (ok: bool)
    ensures ok == BottomTwice(daily)
    ensures |daily| < 20 ==> !ok
  {
    if |daily| < 20 {
      return false;
    }
    var lows := Lows(daily[..20]);
    var minLow := MinOf(lows);
    var count := CountQualifying(lows, NearBottomOf(minLow));
    ok := count >= 2;
  }

  lemma BottomTwiceWitnessed(daily: seq<DailyBar>)
    ensures BottomTwice(daily) <==>
      |daily| >= 20 &&
      exists i, j :: 0 <= i < j < 20 &&
        NearBottom(MinOf(FirstLows(daily)), daily[i].low) && NearBottom(MinOf(FirstLows(daily)), daily[j].low)
  {
    if |daily| >= 20 {
      var lows := FirstLows(daily);
      CountWhereAtLeastTwo(lows, NearBottomOf(MinOf(lows)));
    }
  }

  // ---------------------------------------------------------------------
  // The screening loop

  /** How the broker answers one daily-candle request: the request is
      rejected (or raises), or it is answered and the handler either
      reads the rows or raises while reading them and stores nothing. */
  datatype TrReply = Rejected | Answered(rows: Option<seq<DailyBar>>)

  function ReplyFor(feed: map<string, TrReply>, code: string): TrReply
  {
    if code in feed then feed[code] else Rejected
  }

  /** The series the handler stores for each code whose rows it reads. */
  function Delivered(feed: map<string, TrReply>): map<string, seq<DailyBar>>
  {
    map c | c in feed && feed[c].Answered? && feed[c].rows.Some? :: PrepareDaily(feed[c].rows.value)
  }

  /** The record kept for a stock whose request was answered and whose
      stored series passes conditions 1 and 2; the price is the close of
      the last stored element. */
  function PickFor(feed: map<string, TrReply>, daily: map<string, seq<DailyBar>>): StockRef -> Option<Pick>
  {
    (s: StockRef) =>
      if ReplyFor(feed, s.code).Answered? && s.code in daily &&
         TailUpward(daily[s.code]) && BottomTwice(daily[s.code])
      then Some(Pick(s.name, s.code, Last(daily[s.code]).close))
      else None
  }

  /** Whether `get_condition_result` succeeds: loading and listing work,
      the list is truthy and `SendCondition` returns a non-empty list. */
  predicate ConditionFetched(load: Option<string>, names: ConditionNames, send: SendOutcome)
  {
    load.None? && Truthy(names) && send.SentCodes? && send.codes != []
  }

  class KiwoomAdvancedFilter {
    var dailyData: map<string, seq<DailyBar>>
    var monthlyData: map<string, seq<MonthlyBar>>
    var loginCompleted: bool
    var currentStock: Option<string>
    var conditionResult: seq<StockRef>

    constructor ()
      ensures dailyData == map[] && monthlyData == map[]
      ensures !loginCompleted && currentStock == None && conditionResult == []
    {
      dailyData := map[];
      monthlyData := map[];
      loginCompleted := false;
      currentStock := None;
      conditionResult := [];
    }

    /** `on_event_connect`: error code 0 means logged in. */
    method OnEventConnect(errCode: int)
      modifies this
      ensures loginCompleted == (old(loginCompleted) || errCode == 0)
      ensures dailyData == old(dailyData) && monthlyData == old(monthlyData)
      ensures currentStock == old(currentStock) && conditionResult == old(conditionResult)
    {
      if errCode == 0 {
        loginCompleted := true;
      }
    }

    /** `connect`: already connected, or `CommConnect` followed by up to
      ten state probes; the first probe is outside the `try`. */
    method Connect(h: Handshake) returns (a: Attempt)
      modifies this
      ensures h.probe.Throws? ==> a == Threw(h.probe.message) && loginCompleted == old(loginCompleted)
      ensures h.probe.Answers? ==> a == Returned(Connects(h))
      ensures h.probe.Answers? ==>
        loginCompleted == (old(loginCompleted) || Connects(h) || h.connectEvent == Some(0))
      ensures dailyData == old(dailyData) && monthlyData == old(monthlyData)
      ensures currentStock == old(currentStock) && conditionResult == old(conditionResult)
    {
      match h.probe {
        case Throws(message) =>
          return Threw(message);
        case Answers(state) =>
          if state == 1 {
            loginCompleted := true;
            return Returned(true);
          }
          if h.connectEvent.Some? {
            OnEventConnect(h.connectEvent.value);
          }
          if h.commConnect.Some? {
            return Returned(false);
          }
          if h.connectPolls == Reached {
            loginCompleted := true;
            return Returned(true);
          }
          return Returned(false);
      }
    }

    /** `login`: refuses before a connection, then up to fifteen probes;
      an exception while probing is caught. */
    method Login(loginPolls: Polls) returns (ok: bool)
      ensures ok == (loginCompleted && loginPolls == Reached)
    {
      if !loginCompleted {
        return false;
      }
      ok := loginPolls == Reached;
    }

    /** `get_condition_result`: loads the conditions, runs one search and
      appends a `{code, name}` entry for each returned code that is not
      whitespace only. `load` is the exception of `GetConditionLoad`, if
      any. */
    method GetConditionResult(load: Option<string>, names: ConditionNames, send: SendOutcome,
                              nameOf: string -> string) returns (ok: bool)
      modifies this
      ensures ok == ConditionFetched(load, names, send)
      ensures conditionResult ==
        (if ok then old(conditionResult) + CodeEntries(send.codes, nameOf) else old(conditionResult))
      ensures dailyData == old(dailyData) && monthlyData == old(monthlyData)
      ensures loginCompleted == old(loginCompleted) && currentStock == old(currentStock)
    {
      if load.Some? || names.NamesRaised? {
        return false;
      }
      if !Truthy(names) {
        return false;
      }
      match send {
        case SentCodes(codes) =>
          if codes == [] {
            return false;
          }
          var entries := CollectCodes(codes, nameOf);
          conditionResult := conditionResult + entries;
          return true;
        case SentStatus(_) =>
          return false;
        case SendRaised(_) =>
          return false;
      }
    }

    /** `process_daily_data`: copy at most twenty received rows, reverse
      them and store them under the selected stock. */
    method ProcessDailyData(raw: seq<DailyBar>)
      requires currentStock.Some?
      modifies this
      ensures dailyData == old(dailyData)[old(currentStock).value := PrepareDaily(raw)]
      ensures monthlyData == old(monthlyData) && loginCompleted == old(loginCompleted)
      ensures currentStock == old(currentStock) && conditionResult == old(conditionResult)
    {
      var rows: seq<DailyBar> := [];
      var n := Min(|raw|, 20);
      for i := 0 to n
        invariant rows == raw[..i]
      {
        rows := rows + [raw[i]];
      }
      assert rows == Take(raw, 20);
      rows := Reverse(rows);
      dailyData := dailyData[currentStock.value := rows];
    }

    /** `process_monthly_data`: the same for at most six monthly rows. */
    method ProcessMonthlyData(raw: seq<MonthlyBar>)
      requires currentStock.Some?
      modifies this
      ensures monthlyData == old(monthlyData)[old(currentStock).value := PrepareMonthly(raw)]
      ensures dailyData == old(dailyData) && loginCompleted == old(loginCompleted)
      ensures currentStock == old(currentStock) && conditionResult == old(conditionResult)
    {
      var rows: seq<MonthlyBar> := [];
      var n := Min(|raw|, 6);
      for i := 0 to n
        invariant rows == raw[..i]
      {
        rows := rows + [raw[i]];
      }
      assert rows == Take(raw, 6);
      rows := Reverse(rows);
      monthlyData := monthlyData[currentStock.value := rows];
    }

    /** `get_daily_data` together with the handler it triggers: True
      unless the request is rejected; the rows are stored only when the
      handler reads them. */
    method GetDailyData(reply: TrReply) returns (ok: bool)
      requires currentStock.Some?
      modifies this
      ensures ok == reply.Answered?
      ensures dailyData ==
        (if reply.Answered? && reply.rows.Some?
         then old(dailyData)[old(currentStock).value := PrepareDaily(reply.rows.value)]
         else old(dailyData))
      ensures monthlyData == old(monthlyData) && loginCompleted == old(loginCompleted)
      ensures currentStock == old(currentStock) && conditionResult == old(conditionResult)
    {
      match reply {
        case Rejected =>
          return false;
        case Answered(rows) =>
          if rows.Some? {
            ProcessDailyData(rows.value);
          }
          return true;
      }
    }

    /** The checks of one iteration of `run_advanced_filter` on the stored
      series: conditions 1 and 2, then the record with the last stored
      close. */
    method ScreenStock(stock: StockRef) returns (pick: Option<Pick>)
      requires stock.code in dailyData
      ensures pick == (if TailUpward(dailyData[stock.code]) && BottomTwice(dailyData[stock.code])
                       then Some(Pick(stock.name, stock.code, Last(dailyData[stock.code]).close))
                       else None)
    {
      var daily := dailyData[stock.code];
      var ok1 := CheckTailUpward(daily);
      if !ok1 {
        return None;
      }
      var ok2 := CheckBottomTwice(daily);
      if !ok2 {
        return None;
      }
      return Some(Pick(stock.name, stock.code, daily[|daily| - 1].close));
    }

    /** One iteration of `run_advanced_filter`: select the stock, request
      its daily candles, and screen what is stored for it. */
    method VisitStock(stock: StockRef, feed: map<string, TrReply>,
                      ghost d0: map<string, seq<DailyBar>>, ghost seen: set<string>)
      returns (pick: Option<Pick>)
      requires Refreshed(dailyData, d0, Delivered(feed), seen)
      modifies this
      ensures Refreshed(dailyData, d0, Delivered(feed), seen + {stock.code})
      ensures pick == PickFor(feed, Effective(d0, Delivered(feed)))(stock)
      ensures currentStock == Some(stock.code)
      ensures monthlyData == old(monthlyData) && loginCompleted == old(loginCompleted)
      ensures conditionResult == old(conditionResult)
    {
      ghost var delivered := Delivered(feed);
      ghost var stored := dailyData;
      currentStock := Some(stock.code);
      var got := GetDailyData(ReplyFor(feed, stock.code));
      assert dailyData == if stock.code in delivered then stored[stock.code := delivered[stock.code]] else stored;
      RefreshedStep(stored, d0, delivered, seen, stock.code);
      RefreshedAtSeen(dailyData, d0, delivered, seen + {stock.code}, stock.code);
      if !got || stock.code !in dailyData {
        return None;
      }
      pick := ScreenStock(stock);
    }

    /** The loop of `run_advanced_filter` over the condition result. */
    method ScreenAll(feed: map<string, TrReply>) returns (picks: seq<Pick>)
      modifies this
      ensures picks == Keep(conditionResult, PickFor(feed, Effective(old(dailyData), Delivered(feed))))
      ensures Refreshed(dailyData, old(dailyData), Delivered(feed), Codes(conditionResult))
      ensures currentStock == (if conditionResult == [] then old(currentStock)
                               else Some(Last(conditionResult).code))
      ensures monthlyData == old(monthlyData) && loginCompleted == old(loginCompleted)
      ensures conditionResult == old(conditionResult)
    {
      ghost var d0 := dailyData;
      ghost var eff := Effective(d0, Delivered(feed));
      picks := [];
      assert Refreshed(dailyData, d0, Delivered(feed), {});
      for i := 0 to |conditionResult|
        invariant conditionResult == old(conditionResult)
        invariant monthlyData == old(monthlyData) && loginCompleted == old(loginCompleted)
        invariant Refreshed(dailyData, d0, Delivered(feed), Codes(conditionResult[..i]))
        invariant picks == Keep(conditionResult[..i], PickFor(feed, eff))
        invariant currentStock == (if i == 0 then old(currentStock) else Some(conditionResult[i - 1].code))
      {
        var stock := conditionResult[i];
        CodesPrefixStep(conditionResult, i);
        KeepPrefixStep(conditionResult, i, PickFor(feed, eff));
        var pick := VisitStock(stock, feed, d0, Codes(conditionResult[..i]));
        if pick.Some? {
          picks := picks + [pick.value];
        }
      }
      assert conditionResult[..|conditionResult|] == conditionResult;
    }

    /** `run_advanced_filter`. The condition search is answered by
      `load`/`names`/`send`; each stock's daily request by `feed` (a code
      missing from it is rejected). The result is the in-order selection
      of `PickFor` over the condition result on the effective series, and
      the stored series end refreshed for every code of it. */
    method RunAdvancedFilter(load: Option<string>, names: ConditionNames, send: SendOutcome,
                             nameOf: string -> string, feed: map<string, TrReply>)
      returns (r: Option<seq<Pick>>)
      modifies this
      ensures !old(loginCompleted) || !ConditionFetched(load, names, send) ==>
        r == None && dailyData == old(dailyData) && currentStock == old(currentStock) &&
        conditionResult == old(conditionResult)
      ensures old(loginCompleted) && ConditionFetched(load, names, send) ==>
        && conditionResult == old(conditionResult) + CodeEntries(send.codes, nameOf)
        && r == Some(Keep(conditionResult, PickFor(feed, Effective(old(dailyData), Delivered(feed)))))
        && Refreshed(dailyData, old(dailyData), Delivered(feed), Codes(conditionResult))
        && currentStock == (if conditionResult == [] then old(currentStock)
                            else Some(Last(conditionResult).code))
      ensures monthlyData == old(monthlyData) && loginCompleted == old(loginCompleted)
    {
      if !loginCompleted {
        return None;
      }
      var fetched := GetConditionResult(load, names, send, nameOf);
      if !fetched {
        return None;
      }
      var picks := ScreenAll(feed);
      return Some(picks);
    }
  }

  /** `run_advanced_filter_api`: a fresh object, `connect`, `login`, the
      run and the envelope; an escaping exception becomes an error
      envelope. */
  method RunAdvancedFilterApi(h: Handshake, load: Option<string>, names: ConditionNames, send: SendOutcome,
                              nameOf: string -> string, feed: map<string, TrReply>)
    returns (e: Envelope<Pick>)
    ensures CountMatches(e)
    ensures h.probe.Throws? ==> e == Failure(ErrorPrefix + h.probe.message)
    ensures h.probe.Answers? && !Connects(h) ==> e == Failure(ConnectFailed)
    ensures Connects(h) && h.loginPolls != Reached ==> e == Failure(LoginFailed)
    ensures Connects(h) && h.loginPolls == Reached && !ConditionFetched(load, names, send) ==>
      e == Failure(FilterFailed)
    ensures Connects(h) && h.loginPolls == Reached && ConditionFetched(load, names, send) ==>
      e == SuccessOf(ConditionName, Keep(CodeEntries(send.codes, nameOf), PickFor(feed, Delivered(feed))))
  {
    var f := new KiwoomAdvancedFilter();
    var a := f.Connect(h);
    if a.Threw? {
      return Failure(ErrorPrefix + a.message);
    }
    if !a.ok {
      return Failure(ConnectFailed);
    }
    var ok := f.Login(h.loginPolls);
    if !ok {
      return Failure(LoginFailed);
    }
    var picks := f.RunAdvancedFilter(load, names, send, nameOf, feed);
    if picks.None? {
      return Failure(FilterFailed);
    }
    EffectiveOverNothing(Delivered(feed));
    assert [] + CodeEntries(send.codes, nameOf) == CodeEntries(send.codes, nameOf);
    return SuccessOf(ConditionName, picks.value);
  }

  // ---------------------------------------------------------------------
  // Output framing

  /** What the script prints for a serialised envelope `payload`: the
      start marker line, the payload, the end marker line. */
  function MainOutput(payload: string): string
  {
    StartMarker + "\n" + payload + "\n" + EndMarker + "\n"
  }

  /** The printed lines are the start marker, the payload's own lines and
      the end marker (then the empty text after the final newline). */
  lemma MainOutputLines(payload: string)
    ensures Split(MainOutput(payload), '\n') ==
            [StartMarker] + Split(payload, '\n') + [EndMarker, ""]
  {
    assert '\n' !in StartMarker && '\n' !in EndMarker;
    assert MainOutput(payload) == StartMarker + ['\n'] + payload + ['\n'] + EndMarker + ['\n'];
    SplitFramed(StartMarker, payload, EndMarker, '\n');
  }

  /** The payload is exactly what lies strictly between the marker lines. */
  lemma MainOutputFramesPayload(payload: string)
    ensures var lines := Split(MainOutput(payload), '\n');
      |lines| >= 4 && lines[0] == StartMarker && lines[|lines| - 2] == EndMarker &&
      Join(lines[1..|lines| - 2], '\n') == payload
  {
    MainOutputLines(payload);
    var lines := Split(MainOutput(payload), '\n');
    assert lines[1..|lines| - 2] == Split(payload, '\n');
    JoinSplit(payload, '\n');
  }
}
