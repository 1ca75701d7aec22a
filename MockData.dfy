/** The synthetic history generator and the store of generated histories
    used when live data is off or unavailable. `Math.random()` is replaced by
    an injected sequence of draws in [0, 1), consumed four per bar in the
    order the generator asks for them (change, high, low, volume); the
    clock is replaced by the day number `today`. */
module MockData {
  import opened Common
  import opened Bars

  /** Bars per generated history. */
  const HistoryDays: nat := 30

  /** Random draws consumed per generated bar. */
  const DrawsPerBar: nat := 4

  /** Random draws consumed per generated history. */
  const DrawsPerHistory: nat := 120

  /** Days (counted back from the latest) on which accumulation spikes are simulated. */
  const AccumulationDays: nat := 5

  const MockTickers: seq<string> := ["BBCA", "BMRI", "BBRI", "TLKM", "ADRO", "GOTO", "UNVR", "ASII"]

  /** Ticker of the entry used when a ticker has none of its own. */
  const DefaultMockKey: string := "BBCA.JK"

  datatype MockProfile = MockProfile(basePrice: real, volatility: real, isAccumulation: bool)

  /** The parameters each store entry is generated with. */
  const MockProfiles: map<string, MockProfile> := map[
    "BBCA.JK" := MockProfile(7550.0, 0.01, true),
    "BMRI.JK" := MockProfile(6500.0, 0.015, false),
    "BBRI.JK" := MockProfile(5650.0, 0.02, false),
    "TLKM.JK" := MockProfile(3200.0, 0.01, true),
    "ADRO.JK" := MockProfile(2350.0, 0.03, false),
    "GOTO.JK" := MockProfile(68.0, 0.05, true),
    "UNVR.JK" := MockProfile(2900.0, 0.01, false),
    "ASII.JK" := MockProfile(5100.0, 0.015, true)
  ]

  predicate UnitDraws(rand: seq<real>)
  {
    forall i :: 0 <= i < |rand| ==> 0.0 <= rand[i] < 1.0
  }

  /** `(Math.random() - 0.5) * volatility`. */
  function MockChange(volatility: real, draw: real): (c: real)
    ensures 0.0 <= draw < 1.0 && 0.0 <= volatility ==> Abs(c) <= volatility / 2.0
  {
    var d := draw - 0.5;
    assert 0.0 <= draw < 1.0 && 0.0 <= volatility ==> -volatility / 2.0 <= d * volatility <= volatility / 2.0 by {
      if 0.0 <= draw < 1.0 && 0.0 <= volatility {
        assert -0.5 <= d <= 0.5;
        if d >= 0.0 {
          assert d * volatility <= 0.5 * volatility;
          assert 0.0 <= d * volatility;
        } else {
          assert -d * volatility <= 0.5 * volatility;
          assert d * volatility <= 0.0;
        }
      }
    }
    d * volatility
  }

  /** `Math.floor(Math.random() * 100000) + 50000`. */
  function MockBaseVolume(draw: real): (v: int)
    ensures 0.0 <= draw < 1.0 ==> 50000 <= v < 150000
  {
    (draw * 100000.0).Floor + 50000
  }

  /** The day's volume: the base volume, times 2.5 on the five latest days of
      an accumulating series when the price barely moved. */
  function MockVolume(isAccumulation: bool, day: int, change: real, draw: real): (v: real)
    ensures isAccumulation && day < AccumulationDays && Abs(change) < 0.01 ==> v == MockBaseVolume(draw) as real * 2.5
    ensures !(isAccumulation && day < AccumulationDays && Abs(change) < 0.01) ==> v == MockBaseVolume(draw) as real
  {
    var volume := MockBaseVolume(draw) as real;
    if isAccumulation && day < AccumulationDays then
      if Abs(change) < 0.01 then volume * 2.5 else volume
    else volume
  }

  /** The bar generated on loop iteration `day` from price `price`. */
  function MockBar(price: real, volatility: real, isAccumulation: bool, date: int, day: int,
                   drawChange: real, drawHigh: real, drawLow: real, drawVolume: real): Bar
  {
    var change := MockChange(volatility, drawChange);
    var open := price;
    var close := price * (1.0 + change);
    var high := Max(open, close) * (1.0 + drawHigh * 0.01);
    var low := Min(open, close) * (1.0 - drawLow * 0.01);
    Bar(date, open, high, low, close, close, MockVolume(isAccumulation, day, change, drawVolume))
  }

  /** For a positive price, a volatility of at most 2 and draws in [0, 1),
      the generated candle is well formed: close moves by at most half the
      volatility, high and low bracket open and close, and low stays
      non-negative. */
  lemma MockBarWellFormed(price: real, volatility: real, isAccumulation: bool, date: int, day: int,
                          drawChange: real, drawHigh: real, drawLow: real, drawVolume: real)
    requires 0.0 < price && 0.0 <= volatility <= 2.0
    requires 0.0 <= drawChange < 1.0 && 0.0 <= drawHigh < 1.0 && 0.0 <= drawLow < 1.0 && 0.0 <= drawVolume < 1.0
    ensures var b := MockBar(price, volatility, isAccumulation, date, day, drawChange, drawHigh, drawLow, drawVolume);
      && b.open == price
      && b.close == price * (1.0 + MockChange(volatility, drawChange))
      && Abs(MockChange(volatility, drawChange)) <= volatility / 2.0
      && Max(b.open, b.close) <= b.high
      && 0.0 <= b.low <= Min(b.open, b.close)
      && 50000.0 <= b.volume < 375000.0
  {
    var change := MockChange(volatility, drawChange);
    assert 0.0 <= 1.0 + change;
    MulNonneg(price, 1.0 + change);
    CandleBrackets(price, price * (1.0 + change), drawHigh, drawLow);
    var v := MockBaseVolume(drawVolume);
    assert 50000 <= v < 150000;
  }

  /** Scaling the larger of open and close up, and the smaller down, by at
      most one percent brackets the candle. */
  lemma CandleBrackets(open: real, close: real, drawHigh: real, drawLow: real)
    requires 0.0 < open && 0.0 <= close
    requires 0.0 <= drawHigh < 1.0 && 0.0 <= drawLow < 1.0
    ensures Max(open, close) <= Max(open, close) * (1.0 + drawHigh * 0.01)
    ensures 0.0 <= Min(open, close) * (1.0 - drawLow * 0.01) <= Min(open, close)
  {
    var hi := Max(open, close);
    var lo := Min(open, close);
    MulNonneg(hi, drawHigh * 0.01);
    MulNonneg(lo, drawLow * 0.01);
    MulNonneg(lo, 1.0 - drawLow * 0.01);
    assert hi * (1.0 + drawHigh * 0.01) == hi + hi * (drawHigh * 0.01);
    assert lo * (1.0 - drawLow * 0.01) == lo - lo * (drawLow * 0.01);
  }

  lemma MulNonneg(a: real, b: real)
    requires 0.0 <= a && 0.0 <= b
    ensures 0.0 <= a * b
  {
  }

  /** The generator's result, bar by bar: bar `i` is dated `today - i` and
      opens at the base price. */
  function MockHistory(basePrice: real, volatility: real, isAccumulation: bool, today: int, rand: seq<real>): (h: seq<Bar>)
    requires |rand| >= DrawsPerHistory
    ensures |h| == HistoryDays
  {
    seq(HistoryDays, i requires 0 <= i < HistoryDays =>
      MockBar(basePrice, volatility, isAccumulation, today - i, i,
              rand[DrawsPerBar * i], rand[DrawsPerBar * i + 1], rand[DrawsPerBar * i + 2], rand[DrawsPerBar * i + 3]))
  }

  /** `generateMockHistory`: 30 bars, newest first. The loop carries
      `currentPrice` from bar to bar, but reassigns it the bar's open, which is
      `currentPrice` itself, so every bar opens at the base price. */
  method GenerateMockHistory(basePrice: real, volatility: real, isAccumulation: bool, today: int, rand: seq<real>)
    returns (history: seq<Bar>)
    requires |rand| >= DrawsPerHistory
    ensures history == MockHistory(basePrice, volatility, isAccumulation, today, rand)
    ensures |history| == HistoryDays
    ensures forall i :: 0 <= i < |history| ==> history[i].open == basePrice && history[i].date == today - i
  {
    history := [];
    var currentPrice := basePrice;
    var i := 0;
    while i < HistoryDays
      invariant 0 <= i <= HistoryDays
      invariant |history| == i
      invariant currentPrice == basePrice
      invariant forall k :: 0 <= k < i ==> history[k] == MockHistory(basePrice, volatility, isAccumulation, today, rand)[k]
    {
      var date := today - i;
      var change := MockChange(volatility, rand[DrawsPerBar * i]);
      var open := currentPrice;
      var close := currentPrice * (1.0 + change);
      var high := Max(open, close) * (1.0 + rand[DrawsPerBar * i + 1] * 0.01);
      var low := Min(open, close) * (1.0 - rand[DrawsPerBar * i + 2] * 0.01);
      var volume := MockBaseVolume(rand[DrawsPerBar * i + 3]) as real;
      if isAccumulation && i < AccumulationDays {
        if Abs(change) < 0.01 {
          volume := volume * 2.5;
        }
      }
      var bar := Bar(date, open, high, low, close, close, volume);
      assert bar == MockBar(basePrice, volatility, isAccumulation, today - i, i, rand[DrawsPerBar * i],
                            rand[DrawsPerBar * i + 1], rand[DrawsPerBar * i + 2], rand[DrawsPerBar * i + 3]);
      history := history + [bar];
      currentPrice := open;
      i := i + 1;
    }
  }

  /** Every key of the store holds a full 30-bar history, and the default key is present. */
  predicate MockStoreShape(store: map<string, seq<Bar>>)
  {
    && DefaultMockKey in store
    && forall k :: k in store ==> |store[k]| == HistoryDays
  }

  /** The history generated for `key` from its profile, with the draws of
      the `slot`-th entry. */
  function ProfileHistory(key: string, slot: nat, today: int, rand: seq<real>): (h: seq<Bar>)
    requires key in MockProfiles && |rand| >= (slot + 1) * DrawsPerHistory
    ensures |h| == HistoryDays
  {
    var p := MockProfiles[key];
    MockHistory(p.basePrice, p.volatility, p.isAccumulation, today, rand[slot * DrawsPerHistory..(slot + 1) * DrawsPerHistory])
  }

  /** One entry of the store: the generator run on the key's profile. */
  method GenerateEntry(key: string, slot: nat, today: int, rand: seq<real>) returns (h: seq<Bar>)
    requires key in MockProfiles && |rand| >= (slot + 1) * DrawsPerHistory
    ensures h == ProfileHistory(key, slot, today, rand)
  {
    var p := MockProfiles[key];
    h := GenerateMockHistory(p.basePrice, p.volatility, p.isAccumulation, today,
                             rand[slot * DrawsPerHistory..(slot + 1) * DrawsPerHistory]);
  }

  /** The store the generator fills: each profile's history from the draws
      of its slot, slots in the order the entries are written (the order of
      `MockTickers`). */
  function MockStore(today: int, rand: seq<real>): map<string, seq<Bar>>
    requires |rand| >= |MockTickers| * DrawsPerHistory
  {
    map[
      "BBCA.JK" := ProfileHistory("BBCA.JK", 0, today, rand),
      "BMRI.JK" := ProfileHistory("BMRI.JK", 1, today, rand),
      "BBRI.JK" := ProfileHistory("BBRI.JK", 2, today, rand),
      "TLKM.JK" := ProfileHistory("TLKM.JK", 3, today, rand),
      "ADRO.JK" := ProfileHistory("ADRO.JK", 4, today, rand),
      "GOTO.JK" := ProfileHistory("GOTO.JK", 5, today, rand),
      "UNVR.JK" := ProfileHistory("UNVR.JK", 6, today, rand),
      "ASII.JK" := ProfileHistory("ASII.JK", 7, today, rand)
    ]
  }

  /** Every store entry holds 30 bars, under exactly the profile keys. */
  lemma MockStoreShaped(today: int, rand: seq<real>)
    requires |rand| >= |MockTickers| * DrawsPerHistory
    ensures MockStoreShape(MockStore(today, rand))
    ensures MockStore(today, rand).Keys == MockProfiles.Keys
  {
  }

  /** Each key's entry is generated from that key's own profile and slot. */
  lemma MockStoreEntries(today: int, rand: seq<real>)
    requires |rand| >= |MockTickers| * DrawsPerHistory
    ensures "BBCA.JK" in MockStore(today, rand) && MockStore(today, rand)["BBCA.JK"] == ProfileHistory("BBCA.JK", 0, today, rand)
    ensures "BMRI.JK" in MockStore(today, rand) && MockStore(today, rand)["BMRI.JK"] == ProfileHistory("BMRI.JK", 1, today, rand)
    ensures "BBRI.JK" in MockStore(today, rand) && MockStore(today, rand)["BBRI.JK"] == ProfileHistory("BBRI.JK", 2, today, rand)
    ensures "TLKM.JK" in MockStore(today, rand) && MockStore(today, rand)["TLKM.JK"] == ProfileHistory("TLKM.JK", 3, today, rand)
    ensures "ADRO.JK" in MockStore(today, rand) && MockStore(today, rand)["ADRO.JK"] == ProfileHistory("ADRO.JK", 4, today, rand)
    ensures "GOTO.JK" in MockStore(today, rand) && MockStore(today, rand)["GOTO.JK"] == ProfileHistory("GOTO.JK", 5, today, rand)
    ensures "UNVR.JK" in MockStore(today, rand) && MockStore(today, rand)["UNVR.JK"] == ProfileHistory("UNVR.JK", 6, today, rand)
    ensures "ASII.JK" in MockStore(today, rand) && MockStore(today, rand)["ASII.JK"] == ProfileHistory("ASII.JK", 7, today, rand)
  {
  }

  /** `MOCK_DATA_STORE`: one generated history per profile, each from its own
      120 draws. */
  method BuildMockStore(today: int, rand: seq<real>) returns (store: map<string, seq<Bar>>)
    requires |rand| >= |MockTickers| * DrawsPerHistory
    ensures store == MockStore(today, rand)
    ensures MockStoreShape(store)
    ensures store.Keys == MockProfiles.Keys
  {
    var bbca := GenerateEntry("BBCA.JK", 0, today, rand);
    var bmri := GenerateEntry("BMRI.JK", 1, today, rand);
    var bbri := GenerateEntry("BBRI.JK", 2, today, rand);
    var tlkm := GenerateEntry("TLKM.JK", 3, today, rand);
    var adro := GenerateEntry("ADRO.JK", 4, today, rand);
    var goto := GenerateEntry("GOTO.JK", 5, today, rand);
    var unvr := GenerateEntry("UNVR.JK", 6, today, rand);
    var asii := GenerateEntry("ASII.JK", 7, today, rand);
    store := map[
      "BBCA.JK" := bbca, "BMRI.JK" := bmri, "BBRI.JK" := bbri, "TLKM.JK" := tlkm,
      "ADRO.JK" := adro, "GOTO.JK" := goto, "UNVR.JK" := unvr, "ASII.JK" := asii
    ];
    MockStoreShaped(today, rand);
  }

  /** The profile keys, written out. */
  lemma MockProfileKeys()
    ensures MockProfiles.Keys == {"BBCA.JK", "BMRI.JK", "BBRI.JK", "TLKM.JK", "ADRO.JK", "GOTO.JK", "UNVR.JK", "ASII.JK"}
    ensures MockTickers[0] + ".JK" == "BBCA.JK" && MockTickers[1] + ".JK" == "BMRI.JK"
    ensures MockTickers[2] + ".JK" == "BBRI.JK" && MockTickers[3] + ".JK" == "TLKM.JK"
    ensures MockTickers[4] + ".JK" == "ADRO.JK" && MockTickers[5] + ".JK" == "GOTO.JK"
    ensures MockTickers[6] + ".JK" == "UNVR.JK" && MockTickers[7] + ".JK" == "ASII.JK"
  {
  }

  /** The exported ticker list names exactly the store's keys without the
      exchange suffix: every ticker names a key, and every key is named. */
  lemma MockTickersMatchProfiles()
    ensures forall i :: 0 <= i < |MockTickers| ==> MockTickers[i] + ".JK" in MockProfiles
    ensures forall k :: k in MockProfiles ==> exists i :: 0 <= i < |MockTickers| && MockTickers[i] + ".JK" == k
  {
    MockProfileKeys();
    forall k | k in MockProfiles
      ensures exists i :: 0 <= i < |MockTickers| && MockTickers[i] + ".JK" == k
    {
      if k == "BBCA.JK" { assert MockTickers[0] + ".JK" == k; }
      else if k == "BMRI.JK" { assert MockTickers[1] + ".JK" == k; }
      else if k == "BBRI.JK" { assert MockTickers[2] + ".JK" == k; }
      else if k == "TLKM.JK" { assert MockTickers[3] + ".JK" == k; }
      else if k == "ADRO.JK" { assert MockTickers[4] + ".JK" == k; }
      else if k == "GOTO.JK" { assert MockTickers[5] + ".JK" == k; }
      else if k == "UNVR.JK" { assert MockTickers[6] + ".JK" == k; }
      else { assert MockTickers[7] + ".JK" == k; }
    }
  }

  /** There are as many exported tickers as store keys: the eight keys are distinct. */
  lemma MockTickersCount()
    ensures |MockTickers| == |MockProfiles|
  {
    MockProfileKeys();
  }
}
