/** The current per-ticker analyser (`analyzeTicker`): from a most-recent-first
    history it derives the trailing volume average, the flow, the relative
    volume, a five-bar on-balance-volume trend and a price-compression tier,
    and turns them into a 0..100 accumulation-quality score by a fixed point
    allocation. `Analyze` is the specification; `AnalyzeTicker` computes the
    same item the way the source does, step by step. */
module Analyzer {
  import opened Common
  import opened Bars

  datatype ObvTrend = Up | Down | Flat

  datatype VolumeFlowAnalysis = VolumeFlowAnalysis(rvol: real, priceCompressionScore: int, obvTrend: ObvTrend, isAbsorption: bool)

  /** The score's separately attributable contributions. */
  datatype StealthBreakdown = StealthBreakdown(coreSignalPoints: int, obvPoints: int, compressionPoints: int, penalty: int)

  /** What the analyser returns for one ticker (the fields it actually builds). */
  datatype ScanItem = ScanItem(
    symbol: string, price: real, change: real, changePercent: real, volume: real, avgVolume: real,
    flow: Flow, accumulationQuality: int, isStealth: bool, isMock: bool,
    volumeFlowAnalysis: VolumeFlowAnalysis, stealthBreakdown: StealthBreakdown)

  /** Scores at or above this are stealth accumulation. */
  const StealthThreshold: int := 75

  /** Bars the on-balance-volume trend looks at. */
  const ObvWindow: nat := 5

  /** The divisions whose quotients the analyser reports are by non-zero
      values: the trailing average volume (RVOL) and the previous close (the
      change percent). The source does not check them. Its third division,
      by the latest close, feeds only the compression tier and is modelled
      with JavaScript's infinities and `NaN`. */
  predicate Analyzable(history: seq<Bar>)
  {
    |history| < MinHistory || (AvgVolume20(history) != 0.0 && history[1].close != 0.0)
  }

  /** RVOL: mean volume of the three latest bars over the trailing average. */
  function RelativeVolume(history: seq<Bar>): real
    requires |history| >= MinHistory && AvgVolume20(history) != 0.0
  {
    ((history[0].volume + history[1].volume + history[2].volume) / 3.0) / AvgVolume20(history)
  }

  /** `parseFloat(x.toFixed(2))` on an exact value: the nearest multiple of
      0.01, ties away from zero. */
  function RoundTo2(x: real): (r: real)
    ensures Abs(r - x) <= 0.005
  {
    if x < 0.0 then -RoundCents(-x) else RoundCents(x)
  }

  function RoundCents(y: real): (r: real)
    ensures y - 0.005 < r <= y + 0.005
  {
    var n := (y * 100.0 + 0.5).Floor;
    assert y * 100.0 + 0.5 - 1.0 < n as real <= y * 100.0 + 0.5;
    n as real / 100.0
  }

  /** Volume a day adds to the up side against the next-older day. */
  function UpStep(day: Bar, prevDay: Bar): real
  {
    if day.close > prevDay.close then day.volume else 0.0
  }

  /** Volume a day adds to the down side against the next-older day. */
  function DownStep(day: Bar, prevDay: Bar): real
  {
    if day.close > prevDay.close then 0.0 else if day.close < prevDay.close then day.volume else 0.0
  }

  /** Up volume over the adjacent pairs of a window. */
  function UpVolume(window: seq<Bar>): (r: real)
    ensures (forall i :: 0 <= i < |window| ==> window[i].volume >= 0.0) ==> r >= 0.0
  {
    if |window| < 2 then 0.0
    else UpVolume(window[..|window| - 1]) + UpStep(window[|window| - 2], window[|window| - 1])
  }

  /** Down volume over the adjacent pairs of a window. */
  function DownVolume(window: seq<Bar>): (r: real)
    ensures (forall i :: 0 <= i < |window| ==> window[i].volume >= 0.0) ==> r >= 0.0
  {
    if |window| < 2 then 0.0
    else DownVolume(window[..|window| - 1]) + DownStep(window[|window| - 2], window[|window| - 1])
  }

  /** The trend compares exactly the four adjacent pairs among bars 0..4,
      and a flat day counts on neither side. */
  lemma {:induction false} ObvUsesFourPairs(history: seq<Bar>)
    requires |history| >= ObvWindow
    ensures UpVolume(history[..ObvWindow]) ==
      UpStep(history[0], history[1]) + UpStep(history[1], history[2]) + UpStep(history[2], history[3]) + UpStep(history[3], history[4])
    ensures DownVolume(history[..ObvWindow]) ==
      DownStep(history[0], history[1]) + DownStep(history[1], history[2]) + DownStep(history[2], history[3]) + DownStep(history[3], history[4])
    ensures forall i :: 0 <= i < ObvWindow - 1 && history[i].close == history[i + 1].close ==>
      UpStep(history[i], history[i + 1]) == 0.0 && DownStep(history[i], history[i + 1]) == 0.0
  {
    var w, w4, w3, w2 := history[..ObvWindow], history[..4], history[..3], history[..2];
    assert w[..4] == w4 && w4[..3] == w3 && w3[..2] == w2 && w2[..1] == history[..1];
    assert UpVolume(w2) == UpStep(history[0], history[1]);
    assert UpVolume(w3) == UpVolume(w2) + UpStep(history[1], history[2]);
    assert UpVolume(w4) == UpVolume(w3) + UpStep(history[2], history[3]);
    assert UpVolume(w) == UpVolume(w4) + UpStep(history[3], history[4]);
    assert DownVolume(w2) == DownStep(history[0], history[1]);
    assert DownVolume(w3) == DownVolume(w2) + DownStep(history[1], history[2]);
    assert DownVolume(w4) == DownVolume(w3) + DownStep(history[2], history[3]);
    assert DownVolume(w) == DownVolume(w4) + DownStep(history[3], history[4]);
  }

  /** `Up` when up volume beats 1.5 times down volume, else `Down` when down
      volume beats 1.5 times up volume. */
  function TrendOf(upVol: real, downVol: real): (t: ObvTrend)
    ensures t == Up <==> upVol > downVol * 1.5
    ensures 0.0 <= upVol && 0.0 <= downVol ==> (t == Down <==> downVol > upVol * 1.5)
  {
    if upVol > downVol * 1.5 then Up else if downVol > upVol * 1.5 then Down else Flat
  }

  /** The latest bar's range relative to its close, as JavaScript divides. */
  function DailyRange(latest: Bar): JsNumber
  {
    JsDiv(latest.high - latest.low, latest.close)
  }

  /** Price compression of the latest bar: 100 under a 1.5% range, 50 under
      3%, else 0. */
  function CompressionScore(latest: Bar): (s: int)
    ensures s == 0 || s == 50 || s == 100
    ensures s == 100 <==> JsLess(DailyRange(latest), 0.015)
    ensures s == 0 <==> !JsLess(DailyRange(latest), 0.03)
  {
    var dailyRange := DailyRange(latest);
    if JsLess(dailyRange, 0.015) then 100 else if JsLess(dailyRange, 0.03) then 50 else 0
  }

  /** For a non-negative close the tiers compare the range with the scaled
      close. A zero close therefore scores 100 only for an inverted candle
      (high below low) and 0 otherwise, where the quotient is an infinity or
      `NaN`. */
  lemma CompressionAgainstClose(latest: Bar)
    requires latest.close >= 0.0
    ensures CompressionScore(latest) == 100 <==> latest.high - latest.low < 0.015 * latest.close
    ensures CompressionScore(latest) == 0 <==> latest.high - latest.low >= 0.03 * latest.close
    ensures latest.close == 0.0 ==> (CompressionScore(latest) == 100 <==> latest.high < latest.low)
  {
    JsDivCompare(latest.high - latest.low, latest.close, 0.015);
    JsDivCompare(latest.high - latest.low, latest.close, 0.03);
  }

  /** The point allocation: 80 flat for core absorption, else 40 for
      RVOL > 1.2 without outflow plus 10 for a rise; 15 for an upward OBV
      trend; 15 for compression above 80; minus 30 for a drop below -2% and
      10 for RVOL above 5. */
  function Breakdown(isAbsorption: bool, rvol: real, flow: Flow, changePercent: real, trend: ObvTrend, compression: int): (b: StealthBreakdown)
    ensures b.coreSignalPoints in {0, 10, 40, 50, 80}
    ensures b.obvPoints in {0, 15} && b.compressionPoints in {0, 15} && b.penalty in {0, 10, 30, 40}
    ensures -40 <= RawScore(b) <= 110
    ensures isAbsorption ==> b.coreSignalPoints == 80
    ensures !isAbsorption ==> (b.coreSignalPoints >= 40 <==> rvol > 1.2 && flow != Outflow)
    ensures !isAbsorption ==> (b.coreSignalPoints in {10, 50} <==> changePercent > 0.0)
    ensures b.obvPoints == 15 <==> trend == Up
    ensures b.compressionPoints == 15 <==> compression > 80
    ensures b.penalty >= 30 <==> changePercent < -2.0
    ensures b.penalty in {10, 40} <==> rvol > 5.0
  {
    StealthBreakdown(CorePoints(isAbsorption, rvol, flow, changePercent), ObvPoints(trend),
                     CompressionPoints(compression), Penalty(changePercent, rvol))
  }

  /** Core signal points: 80 for absorption, else 40 for RVOL above 1.2
      without an outflow plus 10 for a rise. */
  function CorePoints(isAbsorption: bool, rvol: real, flow: Flow, changePercent: real): (p: int)
    ensures p in {0, 10, 40, 50, 80}
    ensures isAbsorption ==> p == 80
    ensures !isAbsorption ==> (p >= 40 <==> rvol > 1.2 && flow != Outflow)
    ensures !isAbsorption ==> (p in {10, 50} <==> changePercent > 0.0)
  {
    if isAbsorption then 80
    else (if rvol > 1.2 && flow != Outflow then 40 else 0) + (if changePercent > 0.0 then 10 else 0)
  }

  function ObvPoints(trend: ObvTrend): int
  {
    if trend == Up then 15 else 0
  }

  function CompressionPoints(compression: int): int
  {
    if compression > 80 then 15 else 0
  }

  /** 30 for a drop below -2%, plus 10 for RVOL above 5. */
  function Penalty(changePercent: real, rvol: real): (p: int)
    ensures p in {0, 10, 30, 40}
    ensures p >= 30 <==> changePercent < -2.0
    ensures p in {10, 40} <==> rvol > 5.0
  {
    (if changePercent < -2.0 then 30 else 0) + (if rvol > 5.0 then 10 else 0)
  }

  /** The unclamped score. */
  function RawScore(b: StealthBreakdown): int
  {
    b.coreSignalPoints + b.obvPoints + b.compressionPoints - b.penalty
  }

  /** Core absorption: a volume spike with an absolute change under 1.5%. */
  predicate IsCoreAbsorption(history: seq<Bar>)
    requires |history| >= MinHistory && history[1].close != 0.0
  {
    IsVolumeSpike(history[0], AvgVolume20(history)) && Abs(ChangePercent(history)) < 1.5
  }

  /** The specification of `analyzeTicker`: no item for a history shorter
      than 21 bars, the scored item otherwise. */
  function Analyze(ticker: string, history: seq<Bar>, isMock: bool): (r: Option<ScanItem>)
    requires Analyzable(history)
    ensures r.None? <==> |history| < MinHistory
    ensures r.Some? ==> r.value == Item(ticker, history, isMock)
  {
    if |history| < MinHistory then None else Some(Item(ticker, history, isMock))
  }

  /** The item built from a long enough history. */
  function Item(ticker: string, history: seq<Bar>, isMock: bool): (it: ScanItem)
    requires |history| >= MinHistory && Analyzable(history)
    ensures 0 <= it.accumulationQuality <= 100
    ensures it.accumulationQuality == Clamp(RawScore(it.stealthBreakdown), 0, 100)
    ensures it.isStealth <==> it.accumulationQuality >= StealthThreshold
    ensures it.flow == Inflow <==> history[0].volume > 2.5 * AvgVolume20(history) && history[0].close > history[0].open
    ensures it.flow == Outflow <==> history[0].volume > 2.5 * AvgVolume20(history) && history[0].close < history[0].open
    ensures it.volumeFlowAnalysis.isAbsorption <==> IsCoreAbsorption(history)
    ensures it.volumeFlowAnalysis.isAbsorption ==> it.stealthBreakdown.coreSignalPoints == 80
    ensures Abs(it.volumeFlowAnalysis.rvol - RelativeVolume(history)) <= 0.005
  {
    var latest := history[0];
    var avgVolume := AvgVolume20(history);
    var changePercent := ChangePercent(history);
    var flow := ClassifyFlow(latest, avgVolume);
    var rvol := RelativeVolume(history);
    var window := history[..ObvWindow];
    var trend := TrendOf(UpVolume(window), DownVolume(window));
    var compression := CompressionScore(latest);
    var isCoreAbsorption := IsCoreAbsorption(history);
    var breakdown := Breakdown(isCoreAbsorption, rvol, flow, changePercent, trend, compression);
    var finalScore := Clamp(RawScore(breakdown), 0, 100);
    ScanItem(BeforeFirst(ticker, '.'), latest.close, Change(history), changePercent, latest.volume, avgVolume,
             flow, finalScore, finalScore >= StealthThreshold, isMock,
             VolumeFlowAnalysis(RoundTo2(rvol), compression, trend, isCoreAbsorption), breakdown)
  }

  /** The item reports the latest bar, the trailing average, the day's
      change, the mock flag and the ticker's base code; its compression and
      OBV contributions follow the reported tiers. */
  lemma ItemFields(ticker: string, history: seq<Bar>, isMock: bool)
    requires |history| >= MinHistory && Analyzable(history)
    ensures var it := Item(ticker, history, isMock);
      && it.price == history[0].close && it.volume == history[0].volume
      && it.avgVolume == AvgVolume20(history) && it.changePercent == ChangePercent(history)
      && it.isMock == isMock
      && it.symbol <= ticker && '.' !in it.symbol
      && (|it.symbol| < |ticker| ==> ticker[|it.symbol|] == '.')
      && it.change == Change(history)
      && it.volumeFlowAnalysis.priceCompressionScore in {0, 50, 100}
      && (it.stealthBreakdown.compressionPoints == 15 <==> it.volumeFlowAnalysis.priceCompressionScore == 100)
      && (it.stealthBreakdown.obvPoints == 15 <==> it.volumeFlowAnalysis.obvTrend == Up)
  {
  }

  /** Core absorption dominates the score: it sets the base to 80 and rules
      out the drop penalty, so the score is at least 70; without the climax
      penalty (RVOL at most 5) it is at least 80 and the item is stealth. */
  lemma AbsorptionScoresHigh(ticker: string, history: seq<Bar>, isMock: bool)
    requires Analyzable(history) && |history| >= MinHistory
    requires IsCoreAbsorption(history)
    ensures Analyze(ticker, history, isMock).Some?
    ensures Analyze(ticker, history, isMock).value.accumulationQuality >= 70
    ensures RelativeVolume(history) <= 5.0 ==>
      Analyze(ticker, history, isMock).value.accumulationQuality >= 80 && Analyze(ticker, history, isMock).value.isStealth
  {
    var b := Analyze(ticker, history, isMock).value.stealthBreakdown;
    assert b.coreSignalPoints == 80;
    assert ChangePercent(history) >= -2.0;
    assert b.penalty <= 10;
  }

  /** Raising only the OBV or compression contribution never lowers the
      score: the bonuses stack additively under the clamp. */
  lemma BonusesNeverLowerScore(b: StealthBreakdown, b': StealthBreakdown)
    requires b'.coreSignalPoints == b.coreSignalPoints && b'.penalty == b.penalty
    requires b.obvPoints <= b'.obvPoints && b.compressionPoints <= b'.compressionPoints
    ensures Clamp(RawScore(b), 0, 100) <= Clamp(RawScore(b'), 0, 100)
  {
  }

  /** The on-balance-volume pass over the five latest bars: each bar but the
      last is compared with the next-older one. */
  method ObvVolumes(arr: seq<Bar>) returns (upVol: real, downVol: real)
    ensures upVol == UpVolume(arr) && downVol == DownVolume(arr)
  {
    upVol, downVol := 0.0, 0.0;
    if |arr| == 0 {
      return;
    }
    var i := 0;
    while i < |arr| - 1
      invariant 0 <= i <= |arr| - 1
      invariant upVol == UpVolume(arr[..i + 1])
      invariant downVol == DownVolume(arr[..i + 1])
    {
      var day, prevDay := arr[i], arr[i + 1];
      if day.close > prevDay.close {
        upVol := upVol + day.volume;
      } else if day.close < prevDay.close {
        downVol := downVol + day.volume;
      }
      assert arr[..i + 2][..i + 1] == arr[..i + 1];
      i := i + 1;
    }
    assert arr[..i + 1] == arr;
  }

  /** The point allocation as the source accumulates it. */
  method ScorePoints(isCoreAbsorption: bool, rvol: real, flow: Flow, changePercent: real, obvTrend: ObvTrend, priceCompressionScore: int)
    returns (b: StealthBreakdown)
    ensures b == Breakdown(isCoreAbsorption, rvol, flow, changePercent, obvTrend, priceCompressionScore)
  {
    var baseScore, obvPoints, compressionPoints, penalty := 0, 0, 0, 0;
    if isCoreAbsorption {
      baseScore := 80;
    } else {
      if rvol > 1.2 && flow != Outflow {
        baseScore := baseScore + 40;
      }
      if changePercent > 0.0 {
        baseScore := baseScore + 10;
      }
    }
    assert baseScore == CorePoints(isCoreAbsorption, rvol, flow, changePercent);
    if obvTrend == Up {
      obvPoints := obvPoints + 15;
    }
    if priceCompressionScore > 80 {
      compressionPoints := compressionPoints + 15;
    }
    if changePercent < -2.0 {
      penalty := penalty + 30;
    }
    if rvol > 5.0 {
      penalty := penalty + 10;
    }
    assert penalty == Penalty(changePercent, rvol);
    b := StealthBreakdown(baseScore, obvPoints, compressionPoints, penalty);
  }

  /** `analyzeTicker`, computed as the source does it. */
  method AnalyzeTicker(ticker: string, history: seq<Bar>, isMock: bool) returns (r: Option<ScanItem>)
    requires Analyzable(history)
    ensures r == Analyze(ticker, history, isMock)
  {
    if |history| < MinHistory {
      return None;
    }
    var latest := history[0];
    var prev := history[1];

    var avgVolume := AvgVolume20(history);
    var change := latest.close - prev.close;
    var changePercent := (change / prev.close) * 100.0;
    var absChange := Abs(changePercent);
    var isVolumeSpike := latest.volume > 2.5 * avgVolume;

    var isBullish := latest.close > latest.open;
    var isBearish := latest.close < latest.open;
    var flow := Neutral;
    if isVolumeSpike && isBullish {
      flow := Inflow;
    }
    if isVolumeSpike && isBearish {
      flow := Outflow;
    }

    var avgRecentVol := (history[0].volume + history[1].volume + history[2].volume) / 3.0;
    var rvol := avgRecentVol / avgVolume;

    var upVol, downVol := ObvVolumes(history[..ObvWindow]);
    var obvTrend := if upVol > downVol * 1.5 then Up else if downVol > upVol * 1.5 then Down else Flat;

    var dailyRange := JsDiv(latest.high - latest.low, latest.close);
    var priceCompressionScore := 0;
    if JsLess(dailyRange, 0.015) {
      priceCompressionScore := 100;
    } else if JsLess(dailyRange, 0.03) {
      priceCompressionScore := 50;
    }

    var isCoreAbsorption := latest.volume > 2.5 * avgVolume && absChange < 1.5;
    var breakdown := ScorePoints(isCoreAbsorption, rvol, flow, changePercent, obvTrend, priceCompressionScore);

    var finalScore := breakdown.coreSignalPoints + breakdown.obvPoints + breakdown.compressionPoints - breakdown.penalty;
    finalScore := Clamp(finalScore, 0, 100);
    var isStealth := finalScore >= 75;

    assert changePercent == ChangePercent(history);
    assert flow == ClassifyFlow(latest, avgVolume);
    assert priceCompressionScore == CompressionScore(latest);
    assert rvol == RelativeVolume(history);
    assert isCoreAbsorption == IsCoreAbsorption(history);
    assert obvTrend == TrendOf(UpVolume(history[..ObvWindow]), DownVolume(history[..ObvWindow]));
    assert change == Change(history);
    assert finalScore == Clamp(RawScore(breakdown), 0, 100);
    ItemFromParts(ticker, history, isMock, change, changePercent, flow, rvol, obvTrend, priceCompressionScore,
                  isCoreAbsorption, breakdown);
    r := Some(ScanItem(BeforeFirst(ticker, '.'), latest.close, change, changePercent, latest.volume, avgVolume,
                       flow, finalScore, isStealth, isMock,
                       VolumeFlowAnalysis(RoundTo2(rvol), priceCompressionScore, obvTrend, isCoreAbsorption),
                       breakdown));
  }

  /** The item assembled from separately computed parts is `Item`. */
  lemma ItemFromParts(ticker: string, history: seq<Bar>, isMock: bool, change: real, changePercent: real, flow: Flow,
                      rvol: real, trend: ObvTrend, compression: int, isAbsorption: bool, breakdown: StealthBreakdown)
    requires |history| >= MinHistory && Analyzable(history)
    requires change == Change(history) && changePercent == ChangePercent(history)
    requires flow == ClassifyFlow(history[0], AvgVolume20(history)) && rvol == RelativeVolume(history)
    requires trend == TrendOf(UpVolume(history[..ObvWindow]), DownVolume(history[..ObvWindow]))
    requires compression == CompressionScore(history[0]) && isAbsorption == IsCoreAbsorption(history)
    requires breakdown == Breakdown(isAbsorption, rvol, flow, changePercent, trend, compression)
    ensures var score := Clamp(RawScore(breakdown), 0, 100);
      Item(ticker, history, isMock)
      == ScanItem(BeforeFirst(ticker, '.'), history[0].close, change, changePercent, history[0].volume,
                  AvgVolume20(history), flow, score, score >= StealthThreshold, isMock,
                  VolumeFlowAnalysis(RoundTo2(rvol), compression, trend, isAbsorption), breakdown)
  {
  }
}
