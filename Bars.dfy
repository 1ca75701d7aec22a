/** The daily bar and the signals both scorers compute from a
    most-recent-first history: the 20-bar trailing volume average that leaves
    out the latest bar, the day-over-day change and the volume-spike flow
    classification. */
module Bars {
  import opened Common

  /** One daily OHLCV bar. `date` is a day number (a later day is larger);
      `volume` is in lots. */
  datatype Bar = Bar(date: int, open: real, high: real, low: real, close: real, adjustedClose: real, volume: real)

  datatype Flow = Inflow | Outflow | Neutral

  /** Fewest bars either scorer analyses. */
  const MinHistory: nat := 21

  /** Length of the trailing volume window. */
  const TrailingWindow: nat := 20

  /** A volume above this multiple of the trailing average is a spike. */
  const SpikeFactor: real := 2.5

  /** Sum of the volumes, as the source's `reduce((acc, d) => acc + d.volume, 0)`. */
  function SumVolume(bars: seq<Bar>): (r: real)
    ensures (forall i :: 0 <= i < |bars| ==> bars[i].volume >= 0.0) ==> r >= 0.0
  {
    if bars == [] then 0.0 else bars[0].volume + SumVolume(bars[1..])
  }

  lemma {:induction false} SumVolumeBetween(bars: seq<Bar>, lo: real, hi: real)
    requires forall i :: 0 <= i < |bars| ==> lo <= bars[i].volume <= hi
    ensures |bars| as real * lo <= SumVolume(bars) <= |bars| as real * hi
  {
    if bars == [] {
      ScaleZero(lo);
      ScaleZero(hi);
    } else {
      var rest := bars[1..];
      assert forall i :: 0 <= i < |rest| ==> rest[i] == bars[i + 1];
      SumVolumeBetween(rest, lo, hi);
      var v, sum := bars[0].volume, SumVolume(rest);
      assert SumVolume(bars) == v + sum;
      var nLo, nHi := |rest| as real * lo, |rest| as real * hi;
      assert nLo <= sum <= nHi && lo <= v <= hi;
      ScaleStep(bars, lo);
      ScaleStep(bars, hi);
      assert |bars| as real * lo == nLo + lo && |bars| as real * hi == nHi + hi;
    }
  }

  lemma ScaleZero(x: real)
    ensures 0 as real * x == 0.0
  {
  }

  /** `|bars|·x = |bars[1..]|·x + x`, kept apart so the induction stays linear. */
  lemma ScaleStep(bars: seq<Bar>, x: real)
    requires bars != []
    ensures |bars| as real * x == |bars[1..]| as real * x + x
  {
    var n := |bars[1..]| as real;
    assert |bars| as real == n + 1.0;
  }

  /** Mean volume of bars 1..20: the latest bar (index 0) is left out. */
  function AvgVolume20(history: seq<Bar>): real
    requires |history| >= MinHistory
  {
    SumVolume(history[1..MinHistory]) / TrailingWindow as real
  }

  /** The trailing average lies between the smallest and the largest volume
      of bars 1..20, whatever the latest bar holds. */
  lemma AvgVolumeBetween(history: seq<Bar>, lo: real, hi: real)
    requires |history| >= MinHistory
    requires forall i :: 1 <= i < MinHistory ==> lo <= history[i].volume <= hi
    ensures lo <= AvgVolume20(history) <= hi
  {
    var w := history[1..MinHistory];
    forall i | 0 <= i < |w| ensures lo <= w[i].volume <= hi {
      assert w[i] == history[i + 1];
    }
    SumVolumeBetween(w, lo, hi);
  }

  /** `latest.close - prev.close`. */
  function Change(history: seq<Bar>): real
    requires |history| >= 2
  {
    history[0].close - history[1].close
  }

  /** `(change / prev.close) * 100`. */
  function ChangePercent(history: seq<Bar>): (r: real)
    requires |history| >= 2 && history[1].close != 0.0
    ensures history[1].close > 0.0 ==> (r > 0.0 <==> history[0].close > history[1].close)
    ensures history[1].close > 0.0 ==> (r < 0.0 <==> history[0].close < history[1].close)
  {
    var change := Change(history);
    var prevClose := history[1].close;
    assert prevClose > 0.0 ==> (change / prevClose > 0.0 <==> change > 0.0);
    assert prevClose > 0.0 ==> (change / prevClose < 0.0 <==> change < 0.0);
    (change / prevClose) * 100.0
  }

  /** `latest.volume > 2.5 * avgVolume`. */
  predicate IsVolumeSpike(latest: Bar, avgVolume: real)
  {
    latest.volume > SpikeFactor * avgVolume
  }

  /** Flow of the latest bar: a spike on a green candle is Inflow, a spike on a
      red candle is Outflow, anything else Neutral. The source assigns Inflow
      and then Outflow, so Outflow would win a tie; the two never overlap. */
  function ClassifyFlow(latest: Bar, avgVolume: real): (f: Flow)
    ensures f == Inflow <==> latest.volume > 2.5 * avgVolume && latest.close > latest.open
    ensures f == Outflow <==> latest.volume > 2.5 * avgVolume && latest.close < latest.open
    ensures f == Neutral <==> latest.volume <= 2.5 * avgVolume || latest.close == latest.open
  {
    var isVolumeSpike := IsVolumeSpike(latest, avgVolume);
    var isInflow := isVolumeSpike && latest.close > latest.open;
    var isOutflow := isVolumeSpike && latest.close < latest.open;
    if isOutflow then Outflow else if isInflow then Inflow else Neutral
  }
}
