# SentinelTrade scoring engine in Dafny

SentinelTrade is a dashboard that scores Indonesian stock-exchange tickers for
quiet institutional accumulation ("stealth buying"). This project models and
verifies its engine:

- **Bar-history source** (`getMarketData`, `getMockData`). Live provider rows
  are filtered, converted to bars and sorted newest first. Volumes are
  converted to lots of 100 shares. The synthetic store stands in when mock
  mode is on or when the provider fails.
- **Synthetic history generator** (`generateMockHistory`, `MOCK_DATA_STORE`).
- **Per-ticker analyser** (`analyzeTicker`). From a newest-first history it
  computes:
  - the 20-bar trailing volume average;
  - the volume-spike flow class;
  - RVOL, the 5-bar OBV trend and the price-compression tier;
  - a point-allocation score clamped to 0..100, and the stealth flag.
- **Batch scanner** (`scanIndex`). It analyses tickers in batches of five and
  ranks the results by score.
- **Legacy market endpoint** (`GET /api/market/data`). It resolves the API
  token and scores a fixed five-ticker watchlist with the older "silent
  accumulation" rule. It then ranks the picks by daily change, tallies their
  flows and condenses them into a 0..100 market sentiment. It also reports
  whether the exchange is open.
- **Fundamental catalog** (`FundamentalService`). It joins the company roster,
  the financial ratios and the sector summaries. The "anti-gorengan" quality
  gate then selects tickers worth scanning.
- **Reference-data transformation** (`scripts/transform-data.mjs`). From the
  raw exchange dumps it builds the three tables the catalog reads.

## Modules

| file | models |
|---|---|
| `Common.dfy` | The JavaScript idioms the engine uses. `Option`; `Math.min`/`max` clamping; `x \|\| fallback`; `String.includes`/`replace`/`split`; `Array.find`; the filter-push pattern `Collect`; sums. |
| `Sorting.dfy` | `Array.prototype.sort` as the call sites use it. Every comparator is either `(a, b) => key(b) - key(a)` or a `localeCompare` on a code. Both sorts return a sorted permutation. |
| `Bars.dfy` | The daily bar, the 20-bar trailing average, change and change percent, and the flow classification shared by both scorers. |
| `MockData.dfy` | The generator, with its random draws passed in, and the store. |
| `MarketService.dfy` | Normalisation of provider rows, mock fallback, and `getMarketData`. |
| `Analyzer.dfy` | `analyzeTicker`. A specification function `Analyze`/`Item` sits beside the method `AnalyzeTicker`, which follows the source step by step. |
| `Scanner.dfy` | `scanIndex` with its batch loop. |
| `MarketRoute.dfy` | The legacy endpoint. |
| `FundamentalService.dfy` | The join, the group tags and the quality filter. |
| `TransformData.dfy` | The script body without its file reads and writes. |

Environment and outside inputs are parameters:

- the `USE_MOCK_DATA` flag;
- the two `EODHD_*` variables and the outcome of `new URL(...)`;
- what each provider call returns (`Fetch` for Yahoo Finance, `fetch` for
  EODHD);
- the draws of `Math.random()`, as a sequence in [0, 1);
- the current Jakarta weekday and hour;
- the current day, with dates as day numbers;
- the JSON tables.

Prices and volumes are exact `real`s.

Points of the code worth knowing:

- Market sentiment moves by ±10/±5 per pick for the day's change and ±5 for
  the flow (`route.ts:161-172`).
- The market counts as open on weekdays from 09:00 to 15:59
  (`route.ts:181-183`).
- Neither scorer guards its divisions. Two of them only feed a tier, and
  the model follows JavaScript there: a zero divisor gives an infinity of
  the numerator's sign, or `NaN` for `0 / 0`, which compares false
  (`Common.JsDiv`):
  - the latest close in the compression tier (`market-service.ts:118-121`);
  - the trailing average volume in the legacy volume factor (`route.ts:93-96`).

  The other divisions reach the reported fields as non-finite numbers:
  - the trailing average volume in RVOL (`market-service.ts:104,166`);
  - the previous close in the change percent (`market-service.ts:85`,
    `route.ts:87`).

  These are preconditions of `Analyzer.Analyze` and
  `MarketRoute.LegacyAnalyze` (`Analyzable`, `LegacyAnalyzable`). The
  callers drop a ticker whose history breaks them.
- The endpoint does not merge fundamental data into its watchlist. Its
  comment says "Inflow first", but it sorts by change percent only
  (`route.ts:151-152`).

The generator reassigns `currentPrice` the bar's own open
(`mock-data.ts:17,43`), so every generated bar opens at the base price. The
model keeps this as written, and `GenerateMockHistory` states it.

## Model

| member | source | states |
|---|---|---|
| Common.Clamp | src/app/api/market/data/route.ts:114 | `Math.min(hi, Math.max(lo, x))` lies in [lo, hi]. It is `x` inside the range and the nearer bound outside it. |
| Common.OrElse | src/lib/market-service.ts:45-49 | `v \|\| fallback` on a numeric field is the value when present and non-zero, else the fallback. |
| Common.OrDefault | src/lib/fundamental-service.ts:90-91 | `s \|\| fallback` on a string is the string when present and non-empty, else the fallback. |
| Common.RemoveFirst | src/app/api/market/data/route.ts:132 | `replace(p, "")` leaves a string without `p` unchanged. Otherwise it removes exactly `\|p\|` characters. |
| Common.RemoveFirstSplits | src/app/api/market/data/route.ts:132 | When `p` occurs, putting it back at the returned index restores the original string: only the occurrence is removed. |
| Common.BeforeFirst | src/lib/market-service.ts:155 | `split(".")[0]` is a prefix of the ticker and contains no `.`. It stops at the first `.` when there is one. |
| Common.FindFirst | src/lib/fundamental-service.ts:68-69 | `find` yields nothing exactly when no element satisfies the predicate. Otherwise it yields the first that does. |
| Common.Collect | src/lib/market-service.ts:189-198 | Pushing the present results of a job gives at most one item per input. |
| Common.CollectSound | src/lib/market-service.ts:193-194 | Every pushed item is the job's result on some input. |
| Common.CollectComplete | src/lib/market-service.ts:193-194 | Every input whose job yields an item has that item pushed. |
| Common.CollectTotal | src/lib/market-service.ts:193-194 | When every job yields an item, nothing is lost. |
| Common.CollectStep | src/lib/market-service.ts:189-198 | Processing one more input appends its item, if any. |
| Common.CollectAppend | src/lib/market-service.ts:203-208 | Collecting batch by batch equals collecting over the whole list. |
| Common.SumOfAppend | src/app/api/market/data/route.ts:161-170 | A running sum over a concatenation is the sum of the parts. |
| Common.SumOfPermutation | src/app/api/market/data/route.ts:152-172 | A sum does not depend on the order of the items. |
| Common.SumOfRemove | src/app/api/market/data/route.ts:161-170 | Taking one item out of a list takes exactly its term out of the running sum. |
| Common.MultisetRemove | src/app/api/market/data/route.ts:152-172 | Taking one item out of a list removes one copy of it from the list's multiset. |
| Common.CollectSlices | src/lib/market-service.ts:203-205 | Collecting up to a later index appends what the slice in between yields. |
| Common.SumOfBetween | src/app/api/market/data/route.ts:161-170 | Per-item bounds give bounds on the sum. |
| Common.JsDivCompare | src/lib/market-service.ts:118-121 | Against a non-negative divisor, zero included, comparing the JavaScript quotient with a threshold compares the numerator with the scaled divisor. For a zero divisor the quotient is an infinity or `NaN`. |
| Sorting.InsertDesc | src/lib/market-service.ts:211 | Insertion adds exactly the new element. |
| Sorting.InsertDescKeepsSorted | src/lib/market-service.ts:211 | Insertion keeps a list sorted by non-increasing key. |
| Sorting.SortDesc | src/lib/market-service.ts:211 | Sorting with `(a, b) => key(b) - key(a)` returns a permutation of the input with non-increasing keys. |
| Sorting.LexLeTotal | scripts/transform-data.mjs:32 | The code order used for `localeCompare` is total. |
| Sorting.LexLeTransitive | scripts/transform-data.mjs:32 | The code order is transitive. |
| Sorting.LexLeAntisymmetric | scripts/transform-data.mjs:32 | The code order is antisymmetric. |
| Sorting.InsertByName | scripts/transform-data.mjs:32 | Insertion adds exactly the new element. |
| Sorting.InsertByNameKeepsSorted | scripts/transform-data.mjs:32 | Insertion keeps a list sorted by ascending code. |
| Sorting.SortByName | scripts/transform-data.mjs:32 | Sorting with `a.code.localeCompare(b.code)` returns a permutation of the input in ascending code order. |
| Bars.SumVolume | src/lib/market-service.ts:81 | The volume sum of non-negative volumes is non-negative. |
| Bars.SumVolumeBetween | src/lib/market-service.ts:81 | The volume sum lies between count·min and count·max. |
| Bars.AvgVolumeBetween | src/lib/market-service.ts:80-81 | The trailing average lies between the least and greatest volume of bars 1..20, whatever the latest bar holds. |
| Bars.ChangePercent | src/lib/market-service.ts:84-85 | For a positive previous close, the percent change is positive exactly on a rise and negative exactly on a fall. |
| Bars.ClassifyFlow | src/lib/market-service.ts:87-97 | Inflow iff a volume spike over 2.5× the average on a green candle. Outflow iff a spike on a red candle. Neutral iff no spike or a flat candle. |
| MockData.MockChange | src/lib/mock-data.ts:16 | The random change is at most half the volatility either way. |
| MockData.MockBaseVolume | src/lib/mock-data.ts:23 | The base volume is an integer in [50000, 150000). |
| MockData.MockVolume | src/lib/mock-data.ts:23-31 | The volume is multiplied by 2.5 exactly on one of the five newest days of an accumulation profile whose change is under 1%. |
| MockData.MockBarWellFormed | src/lib/mock-data.ts:16-31 | A generated bar opens at the current price and closes at price·(1+change). High and low bracket open and close, low is non-negative, and volume lies in [50000, 375000). |
| MockData.CandleBrackets | src/lib/mock-data.ts:19-20 | Scaling the larger of open and close up, and the smaller down, by under 1% brackets the candle. |
| MockData.MockHistory | src/lib/mock-data.ts:11 | The generated history has 30 bars. |
| MockData.ProfileHistory | src/lib/mock-data.ts:50-57 | An entry generated from a profile holds 30 bars. |
| MockData.GenerateEntry | src/lib/mock-data.ts:50-57 | One store entry is the generator run on its key's base price, volatility and accumulation flag. |
| MockData.MockStoreShaped | src/lib/mock-data.ts:49-58 | The store's keys are exactly the profile keys, including the default key, and every entry holds 30 bars. |
| MockData.MockStoreEntries | src/lib/mock-data.ts:49-58 | Each of the eight keys holds the history generated from that key's own profile, with the draws of its slot in written order. |
| MockData.GenerateMockHistory | src/lib/mock-data.ts:6-46 | The loop builds the specified history: 30 bars, bar `i` dated `i` days back, and every bar opening at the base price. |
| MockData.BuildMockStore | src/lib/mock-data.ts:49-58 | Building the store yields `MockStore`: each key's history is generated from its own profile, with its own 120 draws. The store has exactly the profile keys, the default key among them, and every entry holds 30 bars. |
| MockData.MockTickersMatchProfiles | src/lib/mock-data.ts:3 | Every exported ticker with `.JK` appended is a store key, and every store key is some exported ticker with `.JK` appended. |
| MockData.MockTickersCount | src/lib/mock-data.ts:3 | There are as many exported tickers as store keys. |
| MarketService.RoundHalfUp | src/lib/market-service.ts:50 | `Math.round` gives the integer within half a unit, with halves rounded up. |
| MarketService.ToBar | src/lib/market-service.ts:43-51 | A kept row keeps its date and close. Open, high, low and adjusted close are the row's own when present and non-zero, and fall back to the close otherwise. The volume becomes lots. |
| MarketService.KeptBars | src/lib/market-service.ts:41-51 | A bar is produced from a row exactly when the row has a close and a non-null volume. |
| MarketService.NormalizeQuotes | src/lib/market-service.ts:41-52 | The normalised rows are a permutation of the kept bars, newest first, and no more than the input rows. |
| MarketService.NormalizedBarsAreLots | src/lib/market-service.ts:42-50 | Every normalised bar comes from a kept row: its close is the row's, and its volume is the row's shares over 100, rounded. |
| MarketService.GetMockData | src/lib/market-service.ts:62-67 | The ticker's own entry comes first, then its base code with `.JK`, then the default entry, and otherwise nothing. |
| MarketService.MockDataIsLongEnough | src/lib/market-service.ts:62-67 | On a store of the generated shape, every ticker gets 30 bars. The 21-bar guard therefore never skips mock data. |
| MarketService.GetMarketData | src/lib/market-service.ts:16-60 | The source is Mock exactly when mock mode is on, the provider throws, or it returns nothing. Mock data comes from the store; live data is the normalised rows. |
| MarketService.MarketDataShape | src/lib/market-service.ts:16-60 | Mock data has 30 bars. Live data is newest first and no longer than the provider's rows. |
| Analyzer.RoundTo2 | src/lib/market-service.ts:166 | `parseFloat(x.toFixed(2))` is within 0.005 of `x`. |
| Analyzer.RoundCents | src/lib/market-service.ts:166 | Rounding to cents moves a non-negative value by at most half a cent. |
| Analyzer.UpVolume | src/lib/market-service.ts:107-114 | The up-day volume over non-negative volumes is non-negative. |
| Analyzer.DownVolume | src/lib/market-service.ts:107-114 | The down-day volume over non-negative volumes is non-negative. |
| Analyzer.ObvUsesFourPairs | src/lib/market-service.ts:109-114 | The OBV pass adds the volume of each of the four newest bars that closed above (or below) the next-older one. A flat day counts on neither side. |
| Analyzer.TrendOf | src/lib/market-service.ts:115 | Up iff up-volume exceeds 1.5× down-volume. For non-negative volumes, Down iff the mirror image holds. |
| Analyzer.CompressionScore | src/lib/market-service.ts:117-121 | The tier is 0, 50 or 100: 100 iff the JavaScript quotient of the range by the close is below 1.5%, and 0 iff it is not below 3%. |
| Analyzer.CompressionAgainstClose | src/lib/market-service.ts:117-121 | For a non-negative close, 100 iff the range is under 1.5% of the close and 0 iff it is at least 3%. A zero close scores 100 exactly for an inverted candle (high below low), and 0 otherwise. |
| Analyzer.Breakdown | src/lib/market-service.ts:124-147 | Core points are in {0,10,40,50,80}, OBV and compression points in {0,15}, and the penalty in {0,10,30,40}. The raw score lies in [−40, 110]. Absorption gives 80 core points. Without absorption, the core points reach 40 iff RVOL exceeds 1.2 without an outflow, and include the 10 iff the change is positive. OBV points iff the trend is Up; compression points iff the tier exceeds 80; the 30 penalty iff the change is below −2%; the 10 penalty iff RVOL exceeds 5. |
| Analyzer.CorePoints | src/lib/market-service.ts:129-137 | 80 under absorption. Otherwise at least 40 iff RVOL exceeds 1.2 without an outflow, and 10 or 50 iff the change is positive. |
| Analyzer.Penalty | src/lib/market-service.ts:145-147 | At least 30 iff the change is below −2%, and 10 or 40 iff RVOL exceeds 5. |
| Analyzer.Analyze | src/lib/market-service.ts:73-74 | The result is null exactly when the history has fewer than 21 bars. Otherwise it is the scored item. |
| Analyzer.Item | src/lib/market-service.ts:76-177 | The score is an integer in [0,100] equal to the clamped breakdown, and the item is stealth iff the score reaches 75. The flow is Inflow/Outflow by the spike rule. Absorption iff a spike on a move under 1.5%, which gives 80 core points. The reported RVOL is within 0.005 of the exact ratio. |
| Analyzer.ItemFields | src/lib/market-service.ts:154-177 | The item reports the latest close and volume, the trailing average, the change and change percent, and the mock flag. The symbol is the ticker's prefix up to the first `.`: it contains no `.`, and when it is shorter than the ticker the next character is the `.`. Compression points iff the tier is 100; OBV points iff the trend is Up. |
| Analyzer.AbsorptionScoresHigh | src/lib/market-service.ts:129-152 | Core absorption always yields an item scoring at least 70. With RVOL at most 5 it scores at least 80 and is stealth. |
| Analyzer.BonusesNeverLowerScore | src/lib/market-service.ts:139-150 | Adding OBV or compression points never lowers the clamped score. |
| Analyzer.ObvVolumes | src/lib/market-service.ts:107-114 | The `forEach` accumulation equals the up- and down-volume specifications. |
| Analyzer.ScorePoints | src/lib/market-service.ts:124-147 | The step-by-step point allocation equals the breakdown specification. |
| Analyzer.AnalyzeTicker | src/lib/market-service.ts:73-178 | The imperative analyser returns exactly `Analyze`. |
| Scanner.ScanJob | src/lib/market-service.ts:192-194 | A ticker yields an item exactly when its data has at least 21 bars the analyser can divide by. The item is tagged mock iff the data came from the store, and reports the data's trailing average. |
| Scanner.ScanResultsAreTheJobs | src/lib/market-service.ts:189-208 | Every scanned item is the analysis of a scanned ticker, and every ticker that yields an item is represented. |
| Scanner.ScanResultsScored | src/lib/market-service.ts:152 | Every scanned item scores within [0,100] and is stealth iff it scores at least 75. |
| Scanner.MockScanCoversAll | src/lib/market-service.ts:74 | In mock mode, on a generated store the analyser can divide on, every ticker yields exactly one item. |
| Scanner.RankByQuality | src/lib/market-service.ts:211 | The final sort returns the same items with non-increasing score. |
| Scanner.ScanTicker | src/lib/market-service.ts:190-197 | One ticker's fetch and analysis equal its job. |
| Scanner.ScanStep | src/lib/market-service.ts:190-198 | One ticker of a batch appends its item, if any. |
| Scanner.ProcessBatch | src/lib/market-service.ts:189-200 | A batch pushes the items of its tickers in order. |
| Scanner.AddBatch | src/lib/market-service.ts:203-204 | Handing the next `slice(i, i + 5)` to a round keeps the batches consecutive, in order, and full except possibly the last. |
| Scanner.ScanRound | src/lib/market-service.ts:203-205 | One round appends the batch's items to those of the earlier rounds, so the results so far are those of the tickers up to the batch's end. |
| Scanner.ScanRounds | src/lib/market-service.ts:185-207 | The batch loop collects exactly the items of all tickers, in ticker order. Its batches partition the tickers in order, and every batch but the last holds five. |
| Scanner.ScanIndex | src/lib/market-service.ts:184-212 | The result is a permutation of all the tickers' items, sorted by non-increasing score. The batches partition the tickers in order, and every batch but the last holds five. |
| MarketRoute.GetApiToken | src/app/api/market/data/route.ts:6-21 | A set token variable wins. Otherwise a set URL-style variable gives its parsed `api_token` when it parses, and its raw value when it does not. Without `api_token=` in it, or with neither variable set, the token is "demo". The endpoint's token check fails exactly when a URL-style variable parses but has no non-empty `api_token`. |
| MarketRoute.VolumeFactor | src/app/api/market/data/route.ts:93-96 | For a finite ratio the factor is +30 above 2.5, +15 above 1.5, −10 below 0.5, and 0 otherwise. An infinite ratio counts by its sign; `NaN` earns 0. |
| MarketRoute.VolumeFactorScaled | src/app/api/market/data/route.ts:93-96 | For a non-negative average, zero included, the tiers compare the latest volume with 2.5, 1.5 and 0.5 times the average. |
| MarketRoute.SilenceFactor | src/app/api/market/data/route.ts:100-103 | The silence factor is +20 under 0.5%, +10 under 1.5%, −10 above 3%, and 0 otherwise. |
| MarketRoute.LegacyRawScore | src/app/api/market/data/route.ts:90-111 | The unclamped legacy score lies in [30, 120]. |
| MarketRoute.LegacyScore | src/app/api/market/data/route.ts:113-114 | The clamped score lies in [30, 100]. It is 100 iff the raw score reaches 100, and otherwise the raw score. |
| MarketRoute.LegacyAnalyze | src/app/api/market/data/route.ts:64-147 | A pick's symbol is the ticker without `.JK`. It reports the latest close and volume, the trailing average, the change and the change percent. Its score is `LegacyScore` of the history, in [30,100]. It is stealth iff the score exceeds 75 on a move under 1.5%. The flow follows the spike rule. |
| MarketRoute.QuietSpikeIsStealth | src/app/api/market/data/route.ts:93-116 | A volume spike on a move under 0.5% scores 100 and is stealth. |
| MarketRoute.StealthNeedsVolume | src/app/api/market/data/route.ts:93-116 | A stealth pick never trades below half its average volume. |
| MarketRoute.ScoreTicker | src/app/api/market/data/route.ts:64-147 | The imperative per-ticker computation equals `LegacyAnalyze`. |
| MarketRoute.LegacyOutcome | src/app/api/market/data/route.ts:53-58 | A ticker contributes a pick exactly when the fetch returned at least 21 rows the rule can divide by. |
| MarketRoute.RankByChange | src/app/api/market/data/route.ts:152 | The watchlist keeps the same picks, with non-increasing change percent. |
| MarketRoute.CountFlow | src/app/api/market/data/route.ts:155-156 | A flow count lies between 0 and the number of picks. |
| MarketRoute.CountsPartition | src/app/api/market/data/route.ts:155-157 | The Inflow, Outflow and Neutral counts add up to the number of picks. |
| MarketRoute.Tally | src/app/api/market/data/route.ts:155-157 | Accumulation and distribution count the Inflow and Outflow picks. The neutral count, computed by subtraction, equals the number of Neutral picks and is non-negative. |
| MarketRoute.PriceTier | src/app/api/market/data/route.ts:163-166 | The change tier is positive iff the pick rose and negative iff it fell. It is ±10 iff the move exceeds 1%. |
| MarketRoute.FlowTier | src/app/api/market/data/route.ts:168-169 | The flow tier is +5 iff Inflow, −5 iff Outflow, and 0 iff Neutral. |
| MarketRoute.SentimentDelta | src/app/api/market/data/route.ts:162-170 | One pick moves the sentiment by at most 15 either way. |
| MarketRoute.Sentiment | src/app/api/market/data/route.ts:161-172 | The sentiment lies in [0,100]. It is 50 with no picks. |
| MarketRoute.SentimentWithinReach | src/app/api/market/data/route.ts:161-172 | The sentiment stays within 15 points per pick of 50. |
| MarketRoute.SummaryIgnoresOrder | src/app/api/market/data/route.ts:152-172 | Sentiment and flow tally depend only on which picks there are, so sorting does not change them. |
| MarketRoute.AccumulateSentiment | src/app/api/market/data/route.ts:161-172 | The `forEach` loop and the final clamp compute `Sentiment`. |
| MarketRoute.IsMarketOpen | src/app/api/market/data/route.ts:176-183 | The market is open iff it is neither Sunday nor Saturday and the hour lies in 9..15. |
| MarketRoute.FetchAndScore | src/app/api/market/data/route.ts:52-148 | One watchlist ticker appends its pick, if any. |
| MarketRoute.Get | src/app/api/market/data/route.ts:43-198 | The response is the token error exactly when no token resolves. Otherwise it holds: the picks of the watchlist sorted by non-increasing change percent; the flow tally and sentiment of those picks, which are independent of the sort; and the open flag for the given weekday and hour. |
| FundamentalService.ConglomerateOf | src/lib/fundamental-service.ts:77-84 | Each group tag is given exactly to the codes on its list. The lists do not overlap. Codes on none of them are untagged. |
| FundamentalService.FindByCode | src/lib/fundamental-service.ts:68-69 | `find` by code yields nothing iff no record has the code. Otherwise it yields the first record with it. |
| FundamentalService.JoinCompany | src/lib/fundamental-service.ts:67-96 | A roster company is dropped exactly when no ratio record has its code. Otherwise its profile has symbol `code.JK`, its name, the first ratio record's market cap, DER and ROE, and its group tag. Sector and sub-sector come from the first summary, with "Others" when none exists or the field is empty. |
| FundamentalService.GetJoinedData | src/lib/fundamental-service.ts:65-98 | The join is no longer than the roster. `getAllData` (lines 131-133) returns it. |
| FundamentalService.JoinedAreTheRatioCompanies | src/lib/fundamental-service.ts:67-97 | Each profile comes from a roster company with a ratio record, with symbol `code.JK`. Each such company has its profile in the join. |
| FundamentalService.FullRatiosKeepRoster | src/lib/fundamental-service.ts:67-97 | When every roster company has a ratio record, the join has one profile per company. |
| FundamentalService.PassesQualityGate | src/lib/fundamental-service.ts:104-126 | A company passes iff all of these hold: its market cap reaches the floor; its DER is below the ceiling; its ROE is above the floor; a non-empty group allowlist names its tag; and, in blue-chip mode, its cap reaches 50 trillion. |
| FundamentalService.KeepPassing | src/lib/fundamental-service.ts:104 | The filter keeps exactly the passing companies. |
| FundamentalService.Symbols | src/lib/fundamental-service.ts:128 | The map takes each profile's symbol, in order. |
| FundamentalService.GetTickers | src/lib/fundamental-service.ts:100-129 | Every returned ticker is the symbol of a joined company that passes the gate, and every passing company's symbol is returned. There are no more tickers than joined profiles. |
| FundamentalService.TickersMeetThresholds | src/lib/fundamental-service.ts:106-123 | Every returned ticker meets the cap floor, the DER ceiling and the ROE floor, plus the 50-trillion floor in blue-chip mode. |
| FundamentalService.KeepPassingIsSubsequence | src/lib/fundamental-service.ts:104 | The filter only deletes elements and preserves the order. |
| FundamentalService.KeepPassingMonotone | src/lib/fundamental-service.ts:104 | A gate passing fewer companies keeps a subsequence. |
| FundamentalService.SymbolsKeepSubsequence | src/lib/fundamental-service.ts:128 | Mapping to symbols preserves subsequences. |
| FundamentalService.TickersFollowCatalogOrder | src/lib/fundamental-service.ts:100-129 | The tickers are an order-preserving subsequence of the joined symbols. |
| FundamentalService.TighterFilterShrinks | src/lib/fundamental-service.ts:104-128 | Tightening any threshold or adding blue-chip mode can only remove tickers, never add or reorder them. |
| FundamentalService.KeepPassingCongruent | src/lib/fundamental-service.ts:104 | Gates that agree on every company keep the same list. |
| FundamentalService.UnusedFieldsIgnored | src/lib/fundamental-service.ts:33-44 | `sectors`, `minPER` and `maxPER` never change the result. |
| FundamentalService.GetMetrics | src/lib/fundamental-service.ts:135-144 | The total is the size of the join, which is at most the roster size. The passed count is the number of tickers under the default filter and never exceeds the total. |
| TransformData.Projections | scripts/transform-data.mjs:29-31 | Each record is projected to its code and name, in order. |
| TransformData.AllCompanies | scripts/transform-data.mjs:29-32 | The roster has one projected entry per record (a permutation of the projections), in ascending code order. |
| TransformData.SummaryRows | scripts/transform-data.mjs:39-42 | Each record's summary keeps its code. Its sector and sub-sector fall back to "Others" exactly when absent or empty. |
| TransformData.Summaries | scripts/transform-data.mjs:39-43 | The summaries are a permutation of the summary rows, in ascending code order. |
| TransformData.SummariesNeverBlank | scripts/transform-data.mjs:41-42 | No written summary has an empty sector or sub-sector, so the catalog's own "Others" fallback never fires on them. |
| TransformData.FinMapOf | scripts/transform-data.mjs:52-55 | The map's keys are exactly the codes of the financial records. |
| TransformData.FinMapLastWins | scripts/transform-data.mjs:52-55 | A duplicated code maps to its last record. |
| TransformData.BuildFinMap | scripts/transform-data.mjs:52-55 | The `forEach` that fills the map builds `FinMapOf`. |
| TransformData.MarketCapOf | scripts/transform-data.mjs:68-73 | The market cap is 0 unless equity and price-to-book are both present and non-zero. Otherwise it is the floor of equity·PBV·10^9. |
| TransformData.MarketCapNonNegative | scripts/transform-data.mjs:68-73 | Non-negative equity and price-to-book give a non-negative market cap. |
| TransformData.RatioOf | scripts/transform-data.mjs:78-84 | The pushed entry has the company's code and the computed market cap. DER, ROE and PER default to 0 when absent or zero. |
| TransformData.BuildRatios | scripts/transform-data.mjs:58-86 | The loop pushes one entry per roster record whose code has financial data, in roster order. |
| TransformData.RatioRowsAreTheFinancedCompanies | scripts/transform-data.mjs:57-86 | An entry exists for a code iff a roster record has the code and the code has financial data. Each entry is built from that code's last record. |
| TransformData.FinancialRatios | scripts/transform-data.mjs:89 | The written ratios are a permutation of the pushed entries, largest market cap first. |
| TransformData.Transform | scripts/transform-data.mjs:28-89 | The script body produces the roster, the summaries and the sorted ratios as specified. |
| TransformData.FinancedCompanyHasRatio | scripts/transform-data.mjs:57-86 | A roster entry whose code has financial data has a ratio entry. |
| TransformData.RatioCodesAreFinanced | scripts/transform-data.mjs:57-86 | Every ratio entry's code has financial data. |
| TransformData.JoinKeepsFinancedCompanies | src/lib/fundamental-service.ts:67-71 | On the tables the script writes, the catalog's join keeps a roster company exactly when its code has financial data. |

## Left out

- Network I/O is left out. This covers `yahooFinance.historical`, the EODHD `fetch` with its `Array.isArray` check, and `NextResponse`. Each is an oracle parameter returning what the call returned.
- The JSON file reads and writes of the transformation script and the JSON imports of the catalog are left out. Their contents are parameters.
- Console logging is left out.
- Concurrency is not modelled. `Promise.all` over a batch in `scanIndex` and over the watchlist in `GET` is processed in input order. The push order, and so the final order among equal sort keys, depends on completion order. The contracts state only the multiset and the sort order.
- The random broker summary of the legacy endpoint is left out: `top3Percentage`, `retailPercentage`, the shuffled `topBuyers`, and with them `avgTxValue` (`route.ts:118-129,141-146`).
- The `lastUpdated` timestamp is left out.
- The clock, the Jakarta time-zone conversion and ISO date strings are not modelled. The weekday and hour are inputs, and dates are day numbers.
- Floating-point arithmetic is not modelled. Reals are exact and there is no binary rounding. Infinities and `NaN` appear only as the results of the two tier divisions above. A divisor of `-0`, which would flip the infinity's sign, is not modelled; the trailing average is a sum starting at `+0` and cannot be `-0`.
- Analyzer.RoundTo2: stated as within 0.005 of the exact value, not as the digit-exact result of `toFixed(2)` on a binary double.
- Scanner.ScanJob: a history whose trailing average volume or previous close is zero yields no item. The source returns an item whose `rvol` (zero average) or `changePercent` (zero previous close) is Infinity or NaN.
- MarketRoute.LegacyOutcome: a history whose previous close is zero yields no pick. The source pushes one whose `changePercent` is Infinity or NaN. A zero trailing average is handled as the source does.
- Scanner.ScanIndex: states a permutation sorted by score, not the order among equal scores.
- MarketRoute.Get: states a permutation sorted by change percent, not the order among equal changes.
- Both scanners' `try`/`catch` around a ticker are not modelled. `getMarketData` catches its own provider errors, and the modelled analysis cannot throw.
- `localeCompare` is modelled as code-point order, without locale collation.
- The in-place `sort` of `financialRatios` is modelled as a sorted copy.
- The exported `MOCK_TICKERS` list is a constant, covered only by `MockTickersMatchProfiles`.
