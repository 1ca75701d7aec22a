/** The legacy market endpoint (`GET /api/market/data`): it resolves an API
    token, scores a fixed watchlist of five tickers with the original
    "silent accumulation" rule, orders the picks by daily change, tallies
    their flows into a smart-money summary and condenses them into a 0..100
    market sentiment. The environment, the HTTP fetch and the clock are
    parameters: `envToken`/`envApi` are the two environment variables,
    `parsed` is what `new URL` makes of the second, `fetch` gives the rows
    the data provider returns for a ticker and token, and `day`/`hour` the
    current Jakarta weekday (0 is Sunday) and hour. */
module MarketRoute {
  import opened Common
  import opened Sorting
  import opened Bars

  /** The watchlist the endpoint scores. */
  const Tickers: seq<string> := ["BBCA.JK", "BMRI.JK", "BBRI.JK", "TLKM.JK", "ADRO.JK"]

  /** Token used when no credential is configured. */
  const DemoToken: string := "demo"

  /** Marker of a URL-style credential. */
  const TokenParam: string := "api_token="

  /** What `new URL(apiString)` does: it throws, or it yields the value of the
      `api_token` query parameter (`None` for `null` when there is none). */
  datatype UrlParse = Invalid | Valid(apiToken: Option<string>)

  /** `getApiToken`: the token variable if set, else the `api_token` parameter
      of a URL-style second variable (the raw value when it is not a URL),
      else the demo token. The endpoint fails only when a URL-style variable
      parses but carries no usable token. */
  function GetApiToken(envToken: Option<string>, envApi: Option<string>, parsed: UrlParse): (r: Option<string>)
    ensures Truthy(envToken) ==> r == envToken
    ensures !Truthy(envToken) && !Truthy(envApi) ==> r == Some(DemoToken)
    ensures !Truthy(envToken) && Truthy(envApi) && Contains(envApi.value, TokenParam) && parsed.Valid? ==>
      r == parsed.apiToken
    ensures !Truthy(envToken) && Truthy(envApi) && Contains(envApi.value, TokenParam) && parsed.Invalid? ==>
      r == envApi
    ensures !Truthy(envToken) && Truthy(envApi) && !Contains(envApi.value, TokenParam) ==> r == Some(DemoToken)
    ensures !Truthy(r) <==>
      !Truthy(envToken) && Truthy(envApi) && Contains(envApi.value, TokenParam) && parsed.Valid? && !Truthy(parsed.apiToken)
    ensures r == envToken || r == envApi || (parsed.Valid? && r == parsed.apiToken) || r == Some(DemoToken)
  {
    if Truthy(envToken) then envToken
    else if Truthy(envApi) && Contains(envApi.value, TokenParam) then
      match parsed
      case Valid(apiToken) => apiToken
      case Invalid => envApi
    else Some(DemoToken)
  }

  /** One pick of the endpoint. */
  datatype LegacyItem = LegacyItem(
    symbol: string, price: real, change: real, changePercent: real, volume: real, avgVolume: real,
    flow: Flow, accumulationQuality: int, isStealth: bool)

  /** The legacy rule reports the change percent, a division by the
      previous close that the source does not check for zero. Its other
      division, by the trailing average volume, feeds only the score and is
      modelled with JavaScript's infinities and `NaN`. */
  predicate LegacyAnalyzable(history: seq<Bar>)
  {
    |history| < MinHistory || history[1].close != 0.0
  }

  /** Volume factor of the score by volume ratio (latest over trailing
      average); an infinite ratio counts as large or small by its sign, and
      `NaN` (no volume against no average) earns nothing. */
  function VolumeFactor(volRatio: JsNumber): (p: int)
    ensures volRatio.Finite? ==> (p == 30 <==> volRatio.v > 2.5)
    ensures volRatio.Finite? ==> (p == 15 <==> 1.5 < volRatio.v <= 2.5)
    ensures volRatio.Finite? ==> (p == -10 <==> volRatio.v < 0.5)
    ensures volRatio.Finite? ==> (p == 0 <==> 0.5 <= volRatio.v <= 1.5)
    ensures volRatio == PosInfinity ==> p == 30
    ensures volRatio == NegInfinity ==> p == -10
    ensures volRatio == NaN ==> p == 0
  {
    if JsGreater(volRatio, 2.5) then 30
    else if JsGreater(volRatio, 1.5) then 15
    else if JsLess(volRatio, 0.5) then -10
    else 0
  }

  /** Against a non-negative average, zero included, the volume factor
      compares the latest volume with multiples of the average. */
  lemma VolumeFactorScaled(volume: real, avgVolume: real)
    requires avgVolume >= 0.0
    ensures VolumeFactor(JsDiv(volume, avgVolume)) == 30 <==> volume > 2.5 * avgVolume
    ensures VolumeFactor(JsDiv(volume, avgVolume)) == 15 <==> 1.5 * avgVolume < volume <= 2.5 * avgVolume
    ensures VolumeFactor(JsDiv(volume, avgVolume)) == -10 <==> volume < 0.5 * avgVolume
    ensures VolumeFactor(JsDiv(volume, avgVolume)) == 0 <==> 0.5 * avgVolume <= volume <= 1.5 * avgVolume
  {
    JsDivCompare(volume, avgVolume, 2.5);
    JsDivCompare(volume, avgVolume, 1.5);
    JsDivCompare(volume, avgVolume, 0.5);
  }

  /** Silence factor of the score by absolute percent change: quiet days earn, loud days lose. */
  function SilenceFactor(absChange: real): (p: int)
    ensures p == 20 <==> absChange < 0.5
    ensures p == 10 <==> 0.5 <= absChange < 1.5
    ensures p == -10 <==> absChange > 3.0
    ensures p == 0 <==> 1.5 <= absChange <= 3.0
  {
    if absChange < 0.5 then 20 else if absChange < 1.5 then 10 else if absChange > 3.0 then -10 else 0
  }

  /** The unclamped score: base 50, the two factors, 10 for a rise and 10 for
      above-average volume without a drop of 1% or more. */
  function LegacyRawScore(history: seq<Bar>): (s: int)
    requires |history| >= MinHistory && LegacyAnalyzable(history)
    ensures 30 <= s <= 120
  {
    var avgVolume := AvgVolume20(history);
    var latest := history[0];
    var changePercent := ChangePercent(history);
    50 + VolumeFactor(JsDiv(latest.volume, avgVolume)) + SilenceFactor(Abs(changePercent))
       + (if changePercent > 0.0 then 10 else 0)
       + (if latest.volume > avgVolume && changePercent > -1.0 then 10 else 0)
  }

  /** The score clamped to 0..100; only the upper bound can bind. */
  function LegacyScore(history: seq<Bar>): (s: int)
    requires |history| >= MinHistory && LegacyAnalyzable(history)
    ensures 30 <= s <= 100
    ensures s == 100 <==> LegacyRawScore(history) >= 100
    ensures s < 100 ==> s == LegacyRawScore(history)
  {
    Clamp(LegacyRawScore(history), 0, 100)
  }

  /** The pick the endpoint builds for a ticker with a long enough history. */
  function LegacyAnalyze(ticker: string, history: seq<Bar>): (it: LegacyItem)
    requires |history| >= MinHistory && LegacyAnalyzable(history)
    ensures it.symbol == RemoveFirst(ticker, ".JK")
    ensures it.price == history[0].close && it.avgVolume == AvgVolume20(history)
    ensures it.change == Change(history) && it.changePercent == ChangePercent(history)
    ensures it.volume == history[0].volume
    ensures it.accumulationQuality == LegacyScore(history)
    ensures 30 <= it.accumulationQuality <= 100
    ensures it.isStealth <==> it.accumulationQuality > 75 && Abs(it.changePercent) < 1.5
    ensures it.flow == Inflow <==> history[0].volume > 2.5 * it.avgVolume && history[0].close > history[0].open
    ensures it.flow == Outflow <==> history[0].volume > 2.5 * it.avgVolume && history[0].close < history[0].open
  {
    var latest := history[0];
    var avgVolume := AvgVolume20(history);
    var changePercent := ChangePercent(history);
    var score := LegacyScore(history);
    LegacyItem(RemoveFirst(ticker, ".JK"), latest.close, Change(history), changePercent, latest.volume, avgVolume,
               ClassifyFlow(latest, avgVolume), score, score > 75 && Abs(changePercent) < 1.5)
  }

  /** A volume spike on a quiet day (under 0.5% either way) scores the
      maximum and is a stealth pick. */
  lemma QuietSpikeIsStealth(ticker: string, history: seq<Bar>)
    requires |history| >= MinHistory && LegacyAnalyzable(history) && AvgVolume20(history) >= 0.0
    requires history[0].volume > 2.5 * AvgVolume20(history) && Abs(ChangePercent(history)) < 0.5
    ensures LegacyAnalyze(ticker, history).accumulationQuality == 100
    ensures LegacyAnalyze(ticker, history).isStealth
  {
    VolumeFactorScaled(history[0].volume, AvgVolume20(history));
  }

  /** A stealth pick never trades below half its average volume: with the
      -10 volume factor, the remaining factors cannot lift the score past 75
      on a quiet day, since the volume bonus then cannot apply. */
  lemma StealthNeedsVolume(ticker: string, history: seq<Bar>)
    requires |history| >= MinHistory && LegacyAnalyzable(history) && AvgVolume20(history) >= 0.0
    requires LegacyAnalyze(ticker, history).isStealth
    ensures history[0].volume >= 0.5 * AvgVolume20(history)
  {
    VolumeFactorScaled(history[0].volume, AvgVolume20(history));
  }

  /** The per-ticker computation as the source writes it: the score is
      accumulated factor by factor. */
  method ScoreTicker(ticker: string, history: seq<Bar>) returns (it: LegacyItem)
    requires |history| >= MinHistory && LegacyAnalyzable(history)
    ensures it == LegacyAnalyze(ticker, history)
  {
    var latest := history[0];
    var prev := history[1];
    var avgVolume := AvgVolume20(history);

    var isVolumeSpike := latest.volume > 2.5 * avgVolume;
    var isBullish := latest.close > latest.open;
    var isInflow := isVolumeSpike && isBullish;
    var isBearish := latest.close < latest.open;
    var isOutflow := isVolumeSpike && isBearish;
    var flow := Neutral;
    if isInflow {
      flow := Inflow;
    }
    if isOutflow {
      flow := Outflow;
    }

    var change := latest.close - prev.close;
    var changePercent := (change / prev.close) * 100.0;

    var accumulationScore := 50;
    var volRatio := JsDiv(latest.volume, avgVolume);
    if JsGreater(volRatio, 2.5) {
      accumulationScore := accumulationScore + 30;
    } else if JsGreater(volRatio, 1.5) {
      accumulationScore := accumulationScore + 15;
    } else if JsLess(volRatio, 0.5) {
      accumulationScore := accumulationScore - 10;
    }
    assert accumulationScore == 50 + VolumeFactor(volRatio);
    var absChange := Abs(changePercent);
    if absChange < 0.5 {
      accumulationScore := accumulationScore + 20;
    } else if absChange < 1.5 {
      accumulationScore := accumulationScore + 10;
    } else if absChange > 3.0 {
      accumulationScore := accumulationScore - 10;
    }
    assert accumulationScore == 50 + VolumeFactor(volRatio) + SilenceFactor(absChange);
    if changePercent > 0.0 {
      accumulationScore := accumulationScore + 10;
    }
    if latest.volume > avgVolume && changePercent > -1.0 {
      accumulationScore := accumulationScore + 10;
    }
    assert accumulationScore == LegacyRawScore(history);
    accumulationScore := Clamp(accumulationScore, 0, 100);
    var isStealth := accumulationScore > 75 && absChange < 1.5;

    assert changePercent == ChangePercent(history);
    assert flow == ClassifyFlow(latest, avgVolume);
    it := LegacyItem(RemoveFirst(ticker, ".JK"), latest.close, change, changePercent, latest.volume, avgVolume,
                     flow, accumulationScore, isStealth);
  }

  /** What one ticker contributes: nothing when the fetch failed or returned
      fewer than 21 rows (or rows the rule cannot divide by), else its pick. */
  function LegacyOutcome(ticker: string, history: Option<seq<Bar>>): (r: Option<LegacyItem>)
    ensures r.Some? <==> history.Some? && |history.value| >= MinHistory && LegacyAnalyzable(history.value)
  {
    if history.None? || |history.value| < MinHistory || !LegacyAnalyzable(history.value) then None
    else Some(LegacyAnalyze(ticker, history.value))
  }

  /** `LegacyOutcome` as a function of the ticker alone. */
  function LegacyJob(token: string, fetch: (string, string) -> Option<seq<Bar>>): string -> Option<LegacyItem>
  {
    t => LegacyOutcome(t, fetch(t, token))
  }

  /** The picks of the watchlist, in watchlist order. */
  function LegacyResults(token: string, fetch: (string, string) -> Option<seq<Bar>>): seq<LegacyItem>
  {
    Collect(Tickers, LegacyJob(token, fetch))
  }

  /** Sort key of `(a, b) => b.changePercent - a.changePercent`. */
  function ChangeKey(item: LegacyItem): real
  {
    item.changePercent
  }

  /** The watchlist, biggest gain first. */
  function RankByChange(items: seq<LegacyItem>): (r: seq<LegacyItem>)
    ensures multiset(r) == multiset(items)
    ensures forall i, j :: 0 <= i < j < |r| ==> r[i].changePercent >= r[j].changePercent
  {
    var sorted := SortDesc(items, ChangeKey);
    assert forall i, j :: 0 <= i < j < |sorted| ==> ChangeKey(sorted[i]) >= ChangeKey(sorted[j]);
    sorted
  }

  datatype FlowCounts = FlowCounts(accumulation: int, distribution: int, neutral: int)

  /** 1 for a pick with flow `f`, else 0. */
  function FlowIs(f: Flow): LegacyItem -> int
  {
    (item: LegacyItem) => if item.flow == f then 1 else 0
  }

  /** `results.filter(r => r.flow === f).length`. */
  function CountFlow(items: seq<LegacyItem>, f: Flow): (n: int)
    ensures 0 <= n <= |items|
  {
    SumOfBetween(items, FlowIs(f), 0, 1);
    SumOf(items, FlowIs(f))
  }

  /** Every pick has exactly one of the three flows. */
  lemma {:induction false} CountsPartition(items: seq<LegacyItem>)
    ensures CountFlow(items, Inflow) + CountFlow(items, Outflow) + CountFlow(items, Neutral) == |items|
  {
    if items != [] {
      CountsPartition(items[..|items| - 1]);
    }
  }

  /** The smart-money summary: Inflow picks count as accumulation, Outflow
      picks as distribution, and the rest, computed by subtraction, are
      exactly the Neutral picks. */
  function Tally(items: seq<LegacyItem>): (c: FlowCounts)
    ensures c.accumulation == CountFlow(items, Inflow)
    ensures c.distribution == CountFlow(items, Outflow)
    ensures c.neutral == CountFlow(items, Neutral) && c.neutral >= 0
    ensures c.accumulation + c.distribution + c.neutral == |items|
  {
    var accumulationCount := CountFlow(items, Inflow);
    var distributionCount := CountFlow(items, Outflow);
    CountsPartition(items);
    FlowCounts(accumulationCount, distributionCount, |items| - accumulationCount - distributionCount)
  }

  /** Sentiment points for the day's change: 10 above 1%, 5 for any other
      rise, and the mirror image for falls. */
  function PriceTier(changePercent: real): (p: int)
    ensures p > 0 <==> changePercent > 0.0
    ensures p < 0 <==> changePercent < 0.0
    ensures (p == 10 || p == -10) <==> Abs(changePercent) > 1.0
    ensures p == 5 || p == -5 || p == 10 || p == -10 || p == 0
  {
    if changePercent > 1.0 then 10
    else if changePercent > 0.0 then 5
    else if changePercent < -1.0 then -10
    else if changePercent < 0.0 then -5
    else 0
  }

  /** Sentiment points for the flow: 5 for Inflow, -5 for Outflow. */
  function FlowTier(flow: Flow): (p: int)
    ensures p == 5 <==> flow == Inflow
    ensures p == -5 <==> flow == Outflow
    ensures p == 0 <==> flow == Neutral
  {
    match flow
    case Inflow => 5
    case Outflow => -5
    case Neutral => 0
  }

  /** A pick's contribution to the sentiment. */
  function SentimentDelta(item: LegacyItem): (d: int)
    ensures -15 <= d <= 15
  {
    PriceTier(item.changePercent) + FlowTier(item.flow)
  }

  /** The market sentiment: 50 plus every pick's contribution, kept in 0..100. */
  function Sentiment(items: seq<LegacyItem>): (s: int)
    ensures 0 <= s <= 100
    ensures items == [] ==> s == 50
  {
    Clamp(50 + SumOf(items, SentimentDelta), 0, 100)
  }

  /** Each pick moves the sentiment by at most 15 points. */
  lemma SentimentWithinReach(items: seq<LegacyItem>)
    ensures 50 - 15 * |items| <= Sentiment(items) <= 50 + 15 * |items|
  {
    SumOfBetween(items, SentimentDelta, -15, 15);
  }

  /** The sentiment and the flow tally depend only on which picks there are,
      not on their order: sorting the watchlist does not change them. */
  lemma SummaryIgnoresOrder(a: seq<LegacyItem>, b: seq<LegacyItem>)
    requires multiset(a) == multiset(b)
    ensures Sentiment(a) == Sentiment(b)
    ensures Tally(a) == Tally(b)
  {
    SumOfPermutation(a, b, SentimentDelta);
    SumOfPermutation(a, b, FlowIs(Inflow));
    SumOfPermutation(a, b, FlowIs(Outflow));
    SumOfPermutation(a, b, FlowIs(Neutral));
    assert |a| == |multiset(a)| == |b|;
  }

  /** The sentiment loop as the source writes it. */
  method AccumulateSentiment(results: seq<LegacyItem>) returns (sentiment: int)
    ensures sentiment == Sentiment(results)
  {
    sentiment := 50;
    var i := 0;
    while i < |results|
      invariant 0 <= i <= |results|
      invariant sentiment == 50 + SumOf(results[..i], SentimentDelta)
    {
      var r := results[i];
      if r.changePercent > 1.0 {
        sentiment := sentiment + 10;
      } else if r.changePercent > 0.0 {
        sentiment := sentiment + 5;
      } else if r.changePercent < -1.0 {
        sentiment := sentiment - 10;
      } else if r.changePercent < 0.0 {
        sentiment := sentiment - 5;
      }
      if r.flow == Inflow {
        sentiment := sentiment + 5;
      }
      if r.flow == Outflow {
        sentiment := sentiment - 5;
      }
      assert results[..i + 1][..i] == results[..i];
      i := i + 1;
    }
    assert results[..i] == results;
    sentiment := Clamp(sentiment, 0, 100);
  }

  /** Trading hours in Jakarta time: Monday to Friday, 09:00 to 15:59. */
  function IsMarketOpen(day: int, hour: int): (open: bool)
    requires 0 <= day <= 6 && 0 <= hour <= 23
    ensures open ==> 1 <= day <= 5
    ensures open <==> day != 0 && day != 6 && 9 <= hour < 16
  {
    var isWeekend := day == 0 || day == 6;
    var isWorkHours := hour >= 9 && hour < 16;
    !isWeekend && isWorkHours
  }

  datatype MarketData = MarketData(watchlist: seq<LegacyItem>, marketSentiment: int, smartMoneyFlow: FlowCounts, isMarketOpen: bool)

  /** The endpoint's two outcomes: the 500 "API Token missing" error, or the data. */
  datatype GetResponse = TokenMissing | Ok(data: MarketData)

  /** One ticker of the watchlist: its pick, if any, is appended. */
  method FetchAndScore(k: nat, token: string, fetch: (string, string) -> Option<seq<Bar>>, results: seq<LegacyItem>)
    returns (results': seq<LegacyItem>)
    requires k < |Tickers|
    requires results == Collect(Tickers[..k], LegacyJob(token, fetch))
    ensures results' == Collect(Tickers[..k + 1], LegacyJob(token, fetch))
  {
    var ticker := Tickers[k];
    var history := fetch(ticker, token);
    CollectStep(Tickers, k, LegacyJob(token, fetch));
    results' := results;
    if history.Some? && |history.value| >= MinHistory && LegacyAnalyzable(history.value) {
      var item := ScoreTicker(ticker, history.value);
      results' := results' + [item];
    }
  }

  /** `GET`: the error when no token resolves, else the ranked watchlist, its
      flow tally, the sentiment and whether the market is open. */
  method Get(envToken: Option<string>, envApi: Option<string>, parsed: UrlParse,
             fetch: (string, string) -> Option<seq<Bar>>, day: int, hour: int)
    returns (resp: GetResponse)
    requires 0 <= day <= 6 && 0 <= hour <= 23
    ensures resp.TokenMissing? <==> !Truthy(GetApiToken(envToken, envApi, parsed))
    ensures resp.Ok? ==>
      var picks := LegacyResults(GetApiToken(envToken, envApi, parsed).value, fetch);
      && multiset(resp.data.watchlist) == multiset(picks)
      && (forall i, j :: 0 <= i < j < |resp.data.watchlist| ==>
            resp.data.watchlist[i].changePercent >= resp.data.watchlist[j].changePercent)
      && resp.data.smartMoneyFlow == Tally(picks)
      && resp.data.marketSentiment == Sentiment(picks)
      && resp.data.isMarketOpen == IsMarketOpen(day, hour)
  {
    var token := GetApiToken(envToken, envApi, parsed);
    if !Truthy(token) {
      return TokenMissing;
    }
    var results: seq<LegacyItem> := [];
    var k := 0;
    while k < |Tickers|
      invariant 0 <= k <= |Tickers|
      invariant results == Collect(Tickers[..k], LegacyJob(token.value, fetch))
    {
      results := FetchAndScore(k, token.value, fetch, results);
      k := k + 1;
    }
    assert Tickers[..k] == Tickers;
    ghost var picks := results;

    results := RankByChange(results);
    SummaryIgnoresOrder(results, picks);

    var counts := Tally(results);
    var sentiment := AccumulateSentiment(results);
    var isMarketOpen := IsMarketOpen(day, hour);
    resp := Ok(MarketData(results, sentiment, counts, isMarketOpen));
  }
}
