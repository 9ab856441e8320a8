# Kiwoom condition screening — a Dafny model

This project models the screening core of a small Kiwoom OpenAPI stock
picker. It covers:

- **The KOSPI condition filter** (`server/kiwoom_condition_filter.py`).
  It walks a fixed list of twenty large caps and stores up to twenty daily
  and six monthly candles per stock, sorted by date. It keeps the stocks
  that pass three rules:
  - at least three tail-upward candles;
  - the bottom touched twice within 2%;
  - no downtrend, where a decline of 50% from the six-month high counts
    as no downtrend.
- **The advanced filter** (`server/kiwoom_advanced_filter.py`). It takes the
  codes of a condition search and requests their daily candles. It stores
  them reversed and keeps the stocks with three tail-upward candles and a
  double bottom among the first twenty. It prints the envelope between two
  marker lines.
- **The offline screener** (`stock_filter.py`). It looks at:
  - the latest candle's tail ratio;
  - two of the latest twenty closes within 2% of their minimum;
  - a three-month mean above the six-month mean.
- **The two condition-search clients** (`kiwoom_condition_search.py`,
  `server/kiwoom_condition_api.py`). Each connects, waits for login and
  lists the saved condition formulas. It then runs one formula and collects
  `{code, name}` entries, either from the immediate reply or from the
  `OnReceiveTrCondition` event. The web client wraps this in a result
  envelope, shares one instance per process, and turns escaping exceptions
  into error envelopes.
- **The test rehearsal** (`test_condition_filter.py`). It generates daily
  and monthly candles and runs the advanced screen on them.
- **The Express server** (`server/real-kiwoom-server.js`). It drives a
  connection flag from the child process's stdout and close events. Its
  login route starts that process once. Its condition-result route is
  guarded by the flag, and it has a status route.

The layout:

- Broker calls are values, in the module `Broker`:
  - `Handshake` is the answers to the connection probes;
  - `ConditionNames` is the condition list;
  - `SendOutcome` is the reply of `SendCondition`;
  - `nameOf` maps a code to its master name;
  - per-code maps stand for the candle replies.
- Objects whose fields the code updates are classes. Their methods state
  the whole new state.
- Each method is proved against a specification function. The properties
  the code promises are lemmas about those functions.
- Shared pieces:
  - `Base`: lists, sums, counting, order-preserving selection, and the
    map refresh used by the screening loops;
  - `Sorting`: Python's stable sort;
  - `Text`: `split`, `join`, `strip`, `includes`;
  - `Candles`: the candle records and exact integer forms of the float
    thresholds.

## Model

| member | source | states |
|---|---|---|
| Sorting.SortByCorrect | server/kiwoom_condition_filter.py:191 | sorting by a key gives a key-sorted permutation of the input |
| Sorting.SortByStable | server/kiwoom_condition_filter.py:191 | the sort is stable: records with equal dates keep their received order |
| Sorting.SortBySortedIsIdentity | server/kiwoom_condition_filter.py:220 | sorting an already sorted series changes nothing |
| Text.JoinSplit | kiwoom_condition_search.py:53 | joining the `;` pieces of a string with `;` gives the string back |
| Text.SplitJoin | kiwoom_condition_search.py:53 | splitting a join of separator-free pieces gives the pieces back |
| Text.SplitPiecesAvoidSeparator | kiwoom_condition_search.py:187 | no piece of a split contains the separator |
| Text.SplitConcat | kiwoom_condition_search.py:192 | splitting `a + sep + b` splits `a` and `b` and concatenates the pieces |
| Text.StripIsTrimmedSlice | kiwoom_condition_search.py:55 | the stripped text is a contiguous slice of the input that starts and ends with a non-whitespace character |
| Text.StripNonEmpty | kiwoom_condition_search.py:190 | a stripped text is empty exactly when the text is whitespace only |
| Text.ContainsAt | server/real-kiwoom-server.js:35 | `includes` holds exactly when the part occurs at some position |
| Candles.TailUpIsExact | server/kiwoom_condition_filter.py:231-244 | the integer tail test equals `open < close`, a nonzero range and `tail >= range * 0.3` over the reals |
| Candles.NearBottomIsExact | server/kiwoom_condition_filter.py:264-268 | the integer bottom test equals `low <= min_low * 1.02` over the reals |
| Candles.MinimumIsNearBottom | server/kiwoom_advanced_filter.py:300-306 | the minimum is within its own 2% band exactly when it is non-negative |
| Candles.InBandIsExact | stock_filter.py:158-162 | the integer band test equals `min * 0.98 <= price <= min * 1.02` |
| Candles.RatioAtLeastIsExact | stock_filter.py:136-141 | the sign-aware cross-multiplication equals the real division `num / den >= p / q` |
| Candles.MeanLessIsExact | server/kiwoom_advanced_filter.py:318-324 | the integer mean comparison equals comparing the real means |
| Candles.HalfMeanBelowWhole | server/kiwoom_advanced_filter.py:318-324 | over six closes, one half's mean is below the whole mean exactly when that half sums to less than the other |
| Candles.WholeMeanBelowHalf | stock_filter.py:176-183 | the whole mean is below one half's mean exactly when the other half sums to less |
| Candles.IsDowntrendCases | server/kiwoom_advanced_filter.py:312-324 | `is_downtrend` is false below six months; otherwise it holds exactly when the first three closes average below the first six, that is, sum to less than closes four to six |
| Broker.ConditionListOf | kiwoom_condition_search.py:176-202 | a non-empty list is returned as is; a non-empty string gives one text item per `;` piece, empty pieces kept; anything falsy or of another type gives `[]` |
| Broker.ConditionListTruthy | server/kiwoom_condition_api.py:117-126 | for list, string and raising answers, the returned list is non-empty exactly when the answer is truthy |
| Broker.ConditionTextRoundTrip | server/kiwoom_condition_api.py:120-122 | the returned names rebuild the received string when joined with `;` |
| Broker.ConditionNameOf | kiwoom_condition_search.py:294-297 | the name is the second field of the first element when that is a tuple of at least two fields, and `""` otherwise |
| Broker.ParseIndexNameRoundTrip | kiwoom_condition_search.py:192 | `index ^ name` with no further `^` parses back to its two halves |
| Broker.ParseIndexNameSound | kiwoom_condition_search.py:191-195 | a piece that parses is exactly `index ^ name` with one `^` |
| Broker.CatalogueCharacterised | kiwoom_condition_search.py:186-196 | the printed catalogue has one line per non-blank piece, in order; a parsed line is `index ^ name`; an unparsable piece is reported and tolerated |
| Broker.LoadedConditionList | server/kiwoom_condition_api.py:109-128 | a `GetConditionLoad` exception gives `[]`; a non-empty list comes from a truthy answer; a truthy list or string answer always gives a non-empty list |
| Broker.CodeEntriesCharacterised | server/kiwoom_advanced_filter.py:133-140 | the entries are, in order, exactly the codes that are not whitespace only, each with its master name and kept unstripped |
| Broker.CollectCodes | kiwoom_condition_search.py:231-239 | the append loop over received codes builds exactly those entries |
| Broker.SearchResultCharacterised | server/kiwoom_condition_api.py:138-163 | a raising request, or a status other than 0 or 1, or a wait in vain gives `[]`; otherwise the entries are the received non-blank codes, in order, named |
| Broker.DeliveryPathsAgree | kiwoom_condition_search.py:227-261 | a code string gives the same entries whether it is returned at once or delivered by the event |
| Broker.EmptyCodeStringYieldsNothing | kiwoom_condition_search.py:52 | an empty code string makes no entry |
| Broker.SuccessOf | server/kiwoom_condition_api.py:189-194 | a success envelope carries the condition name and result, with `count == len(result)` |
| ConditionFilter.PrepareDaily | server/kiwoom_condition_filter.py:163-192 | the stored daily series is the first twenty received rows, sorted by date, as a permutation of them |
| ConditionFilter.PrepareMonthly | server/kiwoom_condition_filter.py:194-215 | the stored monthly series is the first six received rows, sorted by month, as a permutation of them |
| ConditionFilter.StoredSeriesNeedNoResort | server/kiwoom_condition_filter.py:220 | re-sorting inside the checks leaves a stored series unchanged |
| ConditionFilter.RecentDays | server/kiwoom_condition_filter.py:220-229 | the window is the latest `min(n, 20)` candles by date |
| ConditionFilter.CheckCondition1 | server/kiwoom_condition_filter.py:217-247 | the counting loop decides rule 1, and it fails below three candles |
| ConditionFilter.Condition1Witnessed | server/kiwoom_condition_filter.py:217-247 | rule 1 holds exactly when three distinct candles of the window are tail-upward |
| ConditionFilter.RecentLows | server/kiwoom_condition_filter.py:252-260 | the lows are those of the latest `min(n, 20)` candles |
| ConditionFilter.CheckCondition2 | server/kiwoom_condition_filter.py:249-271 | the counting loop decides rule 2, and it fails below two candles |
| ConditionFilter.Condition2Witnessed | server/kiwoom_condition_filter.py:249-271 | rule 2 holds exactly when two distinct lows of the window lie within 2% above its minimum |
| ConditionFilter.MinimumAlwaysCounted | server/kiwoom_condition_filter.py:261-268 | with a non-negative minimum, the minimum itself is always counted |
| ConditionFilter.RecentMonths | server/kiwoom_condition_filter.py:276-282 | the window is the latest `min(n, 6)` months by date |
| ConditionFilter.Condition3Cases | server/kiwoom_condition_filter.py:273-301 | rule 3 breaks down into cases: false below six months; it raises exactly when the six-month high is 0; false after a decline of 50% or more; otherwise a downtrend exactly when the latest three closes sum to less than the three before |
| ConditionFilter.SteepDeclineIsKept | server/kiwoom_condition_filter.py:283-290 | as written, a stock that passes rules 1 and 2 and whose latest month is at least 50% below its six-month high is kept |
| ConditionFilter.Condition3Strict | server/kiwoom_condition_filter.py:273-301 | the stricter rule 3: a decline of at least 50% counts as a downtrend, and every other case gives what rule 3 gives |
| ConditionFilter.StrictRuleExcludesSteepDecline | server/kiwoom_condition_filter.py:283-290 | a steep decline passes rule 3 as written but never passes the strict rule; otherwise the two rules keep the same stocks |
| ConditionFilter.Judge | server/kiwoom_condition_filter.py:350-370 | judging a stock never changes the stored series or the selected code |
| ConditionFilter.JudgeVerdict | server/kiwoom_condition_filter.py:350-377 | a stock raises exactly when it passes rules 1 and 2 and rule 3 raises; otherwise the record the selection function gives is appended |
| ConditionFilter.SameSeriesSameVerdict | server/kiwoom_condition_filter.py:350-377 | the verdict on a stock depends only on its own stored series |
| ConditionFilter.ScanStaysRaised | server/kiwoom_condition_filter.py:333-378 | once a stock raises, the later stocks change nothing |
| ConditionFilter.ScanOneStep | server/kiwoom_condition_filter.py:333-377 | one iteration refreshes the stock's stored series from what its requests deliver, and raises or appends exactly as the selection says |
| ConditionFilter.ScanInvariant | server/kiwoom_condition_filter.py:323-378 | the run raises exactly when some stock raises; otherwise the picks are the in-order selection over the stock list, and every listed stock's series is refreshed |
| ConditionFilter.KiwoomConditionFilter.constructor | server/kiwoom_condition_filter.py:30-70 | a fresh filter has empty series, is not logged in, and has the twenty-stock list |
| ConditionFilter.KiwoomConditionFilter.OnEventConnect | server/kiwoom_condition_filter.py:72-80 | error code 0 sets `login_completed`; any other code leaves it |
| ConditionFilter.KiwoomConditionFilter.Login | server/kiwoom_condition_filter.py:96-125 | a raising first probe escapes; otherwise True exactly when already connected or a later probe answers 1; the flag also reflects the connect event |
| ConditionFilter.KiwoomConditionFilter.ProcessDailyData | server/kiwoom_condition_filter.py:163-192 | the selected stock's daily series becomes the prepared rows; nothing else changes |
| ConditionFilter.KiwoomConditionFilter.ProcessMonthlyData | server/kiwoom_condition_filter.py:194-215 | the selected stock's monthly series becomes the prepared rows; nothing else changes |
| ConditionFilter.KiwoomConditionFilter.ScreenStock | server/kiwoom_condition_filter.py:350-377 | the checks of one iteration compute exactly the judgement of the stock |
| ConditionFilter.KiwoomConditionFilter.RunConditionSearch | server/kiwoom_condition_filter.py:323-378 | without login it returns None and changes nothing; otherwise the stored series, the selected code and the outcome are those of the scan over the stock list |
| ConditionFilter.RunConditionSearchApi | server/kiwoom_condition_filter.py:400-439 | an escaping probe exception gives the prefixed error; a failed login gives the login error; a raising rule 3 gives the division error; otherwise success with the in-order selection over the delivered series, and `count == len(result)` |
| AdvancedFilter.PrepareDaily | server/kiwoom_advanced_filter.py:204-234 | the stored daily series is the first twenty received rows in reverse order, as a permutation of them |
| AdvancedFilter.PrepareMonthly | server/kiwoom_advanced_filter.py:239-261 | the stored monthly series is the first six received rows in reverse order |
| AdvancedFilter.CheckTailUpward | server/kiwoom_advanced_filter.py:266-291 | the counting loop over the first twenty decides condition 1; it fails below twenty candles |
| AdvancedFilter.TailUpwardWitnessed | server/kiwoom_advanced_filter.py:266-291 | condition 1 holds exactly when three distinct candles among the first twenty are tail-upward |
| AdvancedFilter.TailUpwardIgnoresOrder | server/kiwoom_advanced_filter.py:233 | for a twenty-row delivery, the reversal before storing does not change condition 1 |
| AdvancedFilter.FirstLows | server/kiwoom_advanced_filter.py:299 | the lows are those of the first twenty stored candles |
| AdvancedFilter.CheckBottomTwice | server/kiwoom_advanced_filter.py:293-310 | the counting loop decides condition 2; it fails below twenty candles |
| AdvancedFilter.BottomTwiceWitnessed | server/kiwoom_advanced_filter.py:293-310 | condition 2 holds exactly when two distinct lows among the first twenty lie within 2% above their minimum |
| AdvancedFilter.KiwoomAdvancedFilter.constructor | server/kiwoom_advanced_filter.py:17-33 | a fresh filter has empty series and result, no selected stock, and is not logged in |
| AdvancedFilter.KiwoomAdvancedFilter.OnEventConnect | server/kiwoom_advanced_filter.py:35-43 | error code 0 sets `login_completed`; any other code leaves it |
| AdvancedFilter.KiwoomAdvancedFilter.Connect | server/kiwoom_advanced_filter.py:59-87 | a raising first probe escapes; otherwise True exactly when already connected, or when `CommConnect` returns and a later probe answers 1 |
| AdvancedFilter.KiwoomAdvancedFilter.Login | server/kiwoom_advanced_filter.py:89-108 | True exactly when connected and a probe answers 1 within the limit |
| AdvancedFilter.KiwoomAdvancedFilter.GetConditionResult | server/kiwoom_advanced_filter.py:110-152 | succeeds exactly when loading works, the list is truthy and a non-empty code list comes back; then it appends the entries of the codes that are not blank |
| AdvancedFilter.KiwoomAdvancedFilter.ProcessDailyData | server/kiwoom_advanced_filter.py:204-237 | the selected stock's daily series becomes the prepared rows; nothing else changes |
| AdvancedFilter.KiwoomAdvancedFilter.ProcessMonthlyData | server/kiwoom_advanced_filter.py:239-264 | the selected stock's monthly series becomes the prepared rows; nothing else changes |
| AdvancedFilter.KiwoomAdvancedFilter.GetDailyData | server/kiwoom_advanced_filter.py:154-177 | True unless the request is rejected; the rows are stored only when the handler reads them |
| AdvancedFilter.KiwoomAdvancedFilter.ScreenStock | server/kiwoom_advanced_filter.py:361-379 | a stock is kept, priced with its last stored close, exactly when both conditions hold |
| AdvancedFilter.KiwoomAdvancedFilter.VisitStock | server/kiwoom_advanced_filter.py:345-379 | one iteration refreshes the stock's stored series and yields the selection on the effective series |
| AdvancedFilter.KiwoomAdvancedFilter.ScreenAll | server/kiwoom_advanced_filter.py:343-381 | the picks are the in-order selection over the condition result; every code of it is refreshed; the selected stock is the last one visited |
| AdvancedFilter.KiwoomAdvancedFilter.RunAdvancedFilter | server/kiwoom_advanced_filter.py:326-381 | None without login or condition result; otherwise the condition entries are appended and the picks are the in-order selection over them |
| AdvancedFilter.RunAdvancedFilterApi | server/kiwoom_advanced_filter.py:407-451 | every outcome is covered: the prefixed error for an escaping probe exception, then the connect, login and filter errors, otherwise success with the selection over the condition entries; `count == len(result)` |
| AdvancedFilter.MainOutputLines | server/kiwoom_advanced_filter.py:453-460 | the printed lines are the start marker, the payload's lines and the end marker |
| AdvancedFilter.MainOutputFramesPayload | server/kiwoom_advanced_filter.py:453-460 | the payload is exactly what lies between the two marker lines |
| StockFilter.Condition1Cases | stock_filter.py:117-141 | condition 1 is false on no candles; otherwise it holds exactly when the latest candle rises with a nonzero range and `(open - low) / (high - low) >= 0.3` |
| StockFilter.Condition1OnlyLatest | stock_filter.py:126 | candles before the latest never change condition 1 |
| StockFilter.RecentCloses | stock_filter.py:151-152 | the closes are those of the latest twenty candles |
| StockFilter.Condition2Witnessed | stock_filter.py:143-164 | condition 2 holds exactly when there are twenty candles and two distinct latest closes lie within 2% either side of their minimum |
| StockFilter.MinimumInOwnBand | stock_filter.py:155-162 | the minimum lies in its own band exactly when it is non-negative |
| StockFilter.RecentMonthCloses | stock_filter.py:174-177 | the closes are those of the latest six months |
| StockFilter.Condition3Cases | stock_filter.py:166-183 | condition 3 is false below six months; otherwise it holds exactly when the latest three months' mean is above the six-month mean, that is, when they sum to more than the three before |
| StockFilter.FilterStocks | stock_filter.py:230-262 | the loop returns the in-order selection of the stocks that pass all three conditions |
| StockFilter.FilterStocksCharacterised | stock_filter.py:230-262 | a stock is kept exactly when it passes all three conditions; the records keep input order and carry the latest close |
| ConditionSearch.KiwoomConditionSearch.constructor | kiwoom_condition_search.py:9-15 | a fresh client is neither connected nor logged in and holds no result |
| ConditionSearch.KiwoomConditionSearch.OnEventConnect | kiwoom_condition_search.py:28-36 | `connected` becomes `err_code == 0` |
| ConditionSearch.KiwoomConditionSearch.OnReceiveTrCondition | kiwoom_condition_search.py:46-64 | it appends one entry per non-blank `;` piece, in order, and always marks the search as received, even for an empty string |
| ConditionSearch.KiwoomConditionSearch.Connect | kiwoom_condition_search.py:74-108 | the exceptions of the first probe and of the polling loop escape; a raising `CommConnect` gives False; otherwise True exactly when a probe answers 1 |
| ConditionSearch.KiwoomConditionSearch.Login | kiwoom_condition_search.py:110-148 | False at once when not connected; otherwise True exactly when a probe answers 1; an exception is caught |
| ConditionSearch.KiwoomConditionSearch.GetConditionList | kiwoom_condition_search.py:150-205 | `[]` before login; otherwise the loaded list, with the catalogue it prints |
| ConditionSearch.KiwoomConditionSearch.SearchCondition | kiwoom_condition_search.py:207-272 | `[]` before login with nothing changed; otherwise the result is reset, and the returned and stored result is the search result |
| ConditionSearch.KiwoomConditionSearch.Run | kiwoom_condition_search.py:274-309 | escaping exceptions propagate; a failed connect or login gives False; otherwise True, searching with the first tuple's name exactly when the list is non-empty |
| ConditionApi.RunEnvelope | server/kiwoom_condition_api.py:165-194 | distinct failures for connect, login and an empty list; success carries the first tuple's name and the search result, with `count == len(result)` |
| ConditionApi.RunEnvelopeCases | server/kiwoom_condition_api.py:168-194 | each failure message matches exactly its own cause, and a run that gets past all three succeeds |
| ConditionApi.KiwoomConditionApi.constructor | server/kiwoom_condition_api.py:19-25 | a fresh client is neither connected nor logged in and holds no result |
| ConditionApi.KiwoomConditionApi.OnEventConnect | server/kiwoom_condition_api.py:33-38 | `connected` becomes `err_code == 0` |
| ConditionApi.KiwoomConditionApi.OnReceiveTrCondition | server/kiwoom_condition_api.py:44-55 | it appends one entry per non-blank `;` piece, in order, then marks the search as received |
| ConditionApi.KiwoomConditionApi.Connect | server/kiwoom_condition_api.py:61-83 | only the first probe's exception escapes; otherwise True exactly when a probe answers 1 |
| ConditionApi.KiwoomConditionApi.Login | server/kiwoom_condition_api.py:85-102 | False at once when not connected; otherwise True exactly when a probe answers 1 |
| ConditionApi.KiwoomConditionApi.GetConditionList | server/kiwoom_condition_api.py:104-128 | `[]` before login; otherwise the loaded list |
| ConditionApi.KiwoomConditionApi.SearchCondition | server/kiwoom_condition_api.py:130-163 | `[]` before login with nothing changed; otherwise reset, and the result is the search result |
| ConditionApi.KiwoomConditionApi.RunConditionSearch | server/kiwoom_condition_api.py:165-194 | the probe exception escapes; otherwise the envelope is the run envelope; the flags and result are updated accordingly |
| ConditionApi.Registry.constructor | server/kiwoom_condition_api.py:198 | the slot starts empty |
| ConditionApi.Registry.GetKiwoomApi | server/kiwoom_condition_api.py:201-206 | the first call creates the instance, later calls return the same one, and at most one is ever created |
| ConditionApi.RunConditionSearchApi | server/kiwoom_condition_api.py:209-215 | an exception becomes `{success: False, error: str(e)}`; otherwise the run envelope, whatever earlier runs left behind |
| TestConditionFilter.CheckTailUpward | test_condition_filter.py:115-137 | the loop counts tail-upward candles over the whole list, with no length guard |
| TestConditionFilter.TailUpwardAllWitnessed | test_condition_filter.py:115-137 | the check holds exactly when three distinct candles are tail-upward |
| TestConditionFilter.CheckBottomTwice | test_condition_filter.py:139-153 | the loop counts lows within 2% above the minimum over the whole list |
| TestConditionFilter.BottomTwiceAllWitnessed | test_condition_filter.py:139-153 | the check holds exactly when two distinct lows lie within 2% above the minimum |
| TestConditionFilter.DailyFrom | test_condition_filter.py:63-89 | the generated days from day `i` number `20 - i` |
| TestConditionFilter.GenerateDailyData | test_condition_filter.py:57-91 | the generator loop produces the twenty chained days |
| TestConditionFilter.GenerateDay | test_condition_filter.py:65-77 | one day of the loop is dated 2024-12-(20 - i) and carries the drawn volume; every fifth day is the tail-upward pattern candle closing 1500 above the base |
| TestConditionFilter.DailyFromAt | test_condition_filter.py:65-79 | each generated day is dated 2024-12-(20 - i), and every fifth day is tail-upward |
| TestConditionFilter.GeneratedDailyShape | test_condition_filter.py:57-91 | whatever the draws, the days are dated 2024-12-20 down to 2024-12-01, and days 0, 5, 10 and 15 are tail-upward, so the tail check always holds |
| TestConditionFilter.PriceRecordIsEarliest | test_condition_filter.py:52 | the record used for the price, `daily_data[-1]`, is the earliest-dated day |
| TestConditionFilter.LatestBar | test_condition_filter.py:52 | the latest candle is in the series and no candle is dated later |
| TestConditionFilter.GeneratedLatestIsFirst | test_condition_filter.py:52 | on generated data the latest candle is the first one, not the last |
| TestConditionFilter.MonthlyChained | test_condition_filter.py:99-111 | month `k` is dated 2024-(12 - k) and closes at the chained base plus its draw |
| TestConditionFilter.GenerateMonthlyData | test_condition_filter.py:93-113 | the generator loop produces the six chained months |
| TestConditionFilter.ChainedDowntrendCondition | test_condition_filter.py:93-113 | as written, the months are a downtrend exactly when `d1 + 2 d2 + 3 d3 + 2 d4 + d5 > 0` |
| TestConditionFilter.ChainedGeneratorCanDowntrend | test_condition_filter.py:98-103 | in-range draws give a downtrend, against the promised uptrend |
| TestConditionFilter.MonthlyFromBase | test_condition_filter.py:98-103 | every month closes around the same base price, as the comment intends |
| TestConditionFilter.FixedBaseNeverDowntrend | test_condition_filter.py:98-103 | with a fixed base, every in-range draw gives the promised uptrend and never a downtrend |
| TestConditionFilter.GenerateTestData | test_condition_filter.py:5-55 | the loop returns the in-order selection over the ten test stocks |
| TestConditionFilter.ScreenGeneratedStocks | test_condition_filter.py:23-53 | the loop over a stock list returns, in order, the record of every stock that the generated-data screen keeps |
| TestConditionFilter.ScreenGenerated | test_condition_filter.py:23-53 | one iteration generates both series and applies the three checks in order |
| TestConditionFilter.SelectionOnGeneratedData | test_condition_filter.py:32-53 | on generated data the tail check never rejects; a stock is kept exactly when it has a double bottom and its months are not a downtrend |
| TestConditionFilter.IntendedSelection | test_condition_filter.py:42-53 | with the intended generators only the bottom check can reject, and the price is the close of 2024-12-20 |
| RealKiwoomServer.AfterChunk | server/real-kiwoom-server.js:35-44 | the failure text clears the flag; the success text alone sets it; a chunk with both ends false; a chunk with neither leaves it |
| RealKiwoomServer.LastMentionDecides | server/real-kiwoom-server.js:25-45 | over a run of chunks, the last one that mentions the login decides the flag |
| RealKiwoomServer.SilentChunksKeep | server/real-kiwoom-server.js:25-45 | chunks that never mention the login leave the flag |
| RealKiwoomServer.Server.constructor | server/real-kiwoom-server.js:14-16 | the server starts disconnected, with no login attempted and no process |
| RealKiwoomServer.Server.OnStdout | server/real-kiwoom-server.js:25-45 | the flag becomes its value after the chunk; nothing else changes |
| RealKiwoomServer.Server.OnClose | server/real-kiwoom-server.js:51-54 | a close event clears the flag |
| RealKiwoomServer.Server.Login | server/real-kiwoom-server.js:58-81 | the child process starts on the first request only; `loginAttempted` stays set; the answer always reports success |
| RealKiwoomServer.Server.ConditionResult | server/real-kiwoom-server.js:92-128 | 503 exactly when not connected, otherwise the fixed two-row sample |
| RealKiwoomServer.Server.GetStatus | server/real-kiwoom-server.js:139-146 | the status reports the current flags |

## Left out

- Prices are integers. The condition filter reads them with `float()`.
  Every threshold is stated exactly on integers and proved equal to the
  real-number comparison, but float rounding is not modelled.
- Dates are integer keys (`YYYYMMDD`, `YYYYMM`). Sorting by the key equals
  sorting by `strptime` for well-formed dates. A malformed date raising
  `ValueError` is not modelled.
- Broker calls are inputs:
  - `GetCommData`, `GetRepeatCnt`, `CommRqData` and the TR events are
    per-code replies;
  - `GetConnectState` polling and `time.sleep` are `Polls` outcomes;
  - `QEventLoop` waits are the handler running during the request;
  - the fifteen-second wait for `OnReceiveTrCondition` is an optional
    event.
- ConditionFilter.KiwoomConditionFilter.RunConditionSearch: a raising
  `SetInputValue` or `CommRqData` is not modelled
  (`server/kiwoom_condition_filter.py:132-137` and `:150-155` run outside
  any `try`). Neither is a blank or malformed `GetCommData` field that
  makes `int()` or `float()` raise in the candle handlers (`:173-177`,
  `:204`). Each would end the run with that exception. A feed holds
  either rows or nothing, so the contract covers only runs where every
  request and every conversion succeeds.
- ConditionFilter.RunConditionSearchApi: for the same two paths, the
  source turns the escaping exception into `{"success": False, "error":
  "조건검색 오류: …"}` (`:435-439`). The contract promises success or the
  division error for every logged-in run, because those error envelopes
  are not modelled.
- `GetMasterCodeName` is a total function `nameOf`. The case where it
  raises is not modelled.
- The advanced filter's candle event handler for a message with no
  selected stock (`current_stock` is None) is not modelled: every request
  in the run is made after a stock is selected.
- Unused paths in the advanced filter:
  - it never calls `get_monthly_data` or `is_downtrend`;
  - the monthly handler is modelled (`ProcessMonthlyData`);
  - the downtrend test is `Candles.IsDowntrend`, shared with the
    rehearsal;
  - its run makes no monthly requests, so none are modelled.
- Handlers that only log are not modelled:
  - `on_receive_condition_ver`;
  - `on_receive_real_condition`;
  - the handler-registration `try` of the stand-alone client.
- File, git and console output are not modelled:
  - `save_filtered_stocks`, `save_to_json`, `auto_git_commit_push`;
  - logging and `print`.
  Two printed outputs are exceptions: the advanced filter's marker
  framing and the stand-alone client's condition catalogue.
- JSON serialisation is abstract: the framed payload is any string.
- The constructors' `QApplication` and `Kiwoom()` creation, and their
  exceptions, are not modelled.
- `stock_filter.py`'s `create_sample_data` and `main` are not modelled.
  They use random sample generation and file output.
- Randomness and the per-process `hash(code)` are inputs (`Draws`), held to
  the ranges `random.randint` draws from.
- Parts of the Express server are not modelled:
  - spawning and killing the child process, stderr logging, the
    `setTimeout` log and the `SIGINT` handler;
  - the routes' `catch` branches. `express.json()` always supplies a body
    object, so destructuring cannot raise.
  - how real stdout is cut into chunks (chunks are given events);
  - the session id (`'session_' + Date.now()`) is kept as the clock value;
  - the status timestamp is an input.
- The login credentials are not modelled. They are passed but never used
  by the code.

## Findings

| source | as written | input that shows it | evidently intended | confidence | as-written member | corrected member |
|---|---|---|---|---|---|---|
| test_condition_filter.py:93-113 | each month's close becomes the next month's base price, so the months drift | monthly draws 2000, 2000, 2000, 0, 0, 0 (all in range) give closes base + 2000, 4000, 6000, 6000, 6000, 6000: the first three average below the six, a downtrend | every month drawn around the same base, so the first three months average above the six (the comment at line 98 promises an uptrend) | not executed | TestConditionFilter.ChainedGeneratorCanDowntrend | TestConditionFilter.FixedBaseNeverDowntrend |
| test_condition_filter.py:52 | the price is `daily_data[-1]['close']`, commented as the latest close | any generated series: `daily_data[-1]` is dated 2024-12-01, the earliest of the twenty days | the close of the latest-dated candle, `daily_data[0]`, dated 2024-12-20 | not executed | TestConditionFilter.PriceRecordIsEarliest | TestConditionFilter.IntendedSelection |
| server/kiwoom_condition_filter.py:288-290 | a decline of at least 50% from the six-month high returns False ("no downtrend"), and the loop at lines 366-368 skips only a True result, so the stock is kept | monthly closes 100, 100, 100, 100, 100, 40: a 60% decline, kept, although its three-month mean 80 is below its six-month mean 90, so without the decline test it would have been excluded | such a stock excluded as a downtrend: the docstring at line 274 calls this change a stronger downtrend filter, and the warning at line 289 logs it as filtered out | not executed; medium, the comment at line 287 says False on purpose | ConditionFilter.SteepDeclineIsKept | ConditionFilter.StrictRuleExcludesSteepDecline |
