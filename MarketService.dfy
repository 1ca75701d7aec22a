/** Bar-history source of the current engine: the live provider's quotes are
    normalised into bars (rows without a close dropped, volume converted to
    lots, newest first), and the synthetic store stands in when mock mode is
    on or the provider fails or returns nothing. The provider call itself is
    an oracle result passed in as a `Fetch`. */
module MarketService {
  import opened Common
  import opened Sorting
  import opened Bars
  import opened MockData

  datatype Source = Api | Mock

  /** One row as the provider returns it; `date` is a day number. */
  datatype RawQuote = RawQuote(date: int, open: RawValue, high: RawValue, low: RawValue,
                               close: RawValue, adjClose: RawValue, volume: RawValue)

  /** What the provider call produced: it threw, or it returned a possibly
      missing (`null`) list of rows. */
  datatype Fetch = Threw | Returned(result: Option<seq<RawQuote>>)

  datatype MarketServiceResponse = MarketServiceResponse(data: seq<Bar>, source: Source)

  /** Shares per lot. */
  const LotSize: real := 100.0

  /** `Math.round`: the nearest integer, halves rounded up. */
  function RoundHalfUp(x: real): (r: int)
    ensures r as real - 0.5 <= x < r as real + 0.5
  {
    (x + 0.5).Floor
  }

  /** `Math.round((quote.volume || 0) / 100)`: shares to whole lots. */
  function ToLots(volume: RawValue): real
  {
    RoundHalfUp(OrElse(volume, 0.0) / LotSize) as real
  }

  /** The filter: a row is kept when its close is present and its volume is not `null`. */
  predicate KeepQuote(q: RawQuote)
  {
    q.close.Num? && !q.volume.Null?
  }

  /** The mapping of a kept row: missing prices fall back to the close. */
  function ToBar(q: RawQuote): (b: Bar)
    requires q.close.Num?
    ensures b.date == q.date && b.close == q.close.n
    ensures b.open == OrElse(q.open, q.close.n) && b.high == OrElse(q.high, q.close.n)
    ensures b.low == OrElse(q.low, q.close.n) && b.adjustedClose == OrElse(q.adjClose, q.close.n)
    ensures b.volume == ToLots(q.volume)
  {
    var close := q.close.n;
    Bar(q.date, OrElse(q.open, close), OrElse(q.high, close), OrElse(q.low, close), close,
        OrElse(q.adjClose, close), ToLots(q.volume))
  }

  /** Filter then map, in provider order. */
  function KeptBars(quotes: seq<RawQuote>): (r: seq<Bar>)
    ensures |r| <= |quotes|
    ensures forall b :: b in r ==> exists q :: q in quotes && KeepQuote(q) && b == ToBar(q)
    ensures forall q :: q in quotes && KeepQuote(q) ==> ToBar(q) in r
  {
    if quotes == [] then []
    else
      var rest := KeptBars(quotes[1..]);
      assert forall q :: q in quotes[1..] ==> q in quotes;
      assert quotes == [quotes[0]] + quotes[1..];
      if KeepQuote(quotes[0]) then [ToBar(quotes[0])] + rest else rest
  }

  /** The sort key of the live rows: `new Date(b.date) - new Date(a.date)`
      puts the latest date first. */
  function DateKey(b: Bar): real
  {
    b.date as real
  }

  /** The normalisation pipeline of the live path. */
  function NormalizeQuotes(quotes: seq<RawQuote>): (r: seq<Bar>)
    ensures multiset(r) == multiset(KeptBars(quotes))
    ensures |r| <= |quotes|
    ensures forall i, j :: 0 <= i < j < |r| ==> r[i].date >= r[j].date
  {
    var sorted := SortDesc(KeptBars(quotes), DateKey);
    assert forall i, j :: 0 <= i < j < |sorted| ==> DateKey(sorted[i]) >= DateKey(sorted[j]);
    sorted
  }

  /** The normalised bar of a kept row has the rounded lot volume and the
      row's own close. */
  lemma NormalizedBarsAreLots(quotes: seq<RawQuote>, b: Bar)
    requires b in NormalizeQuotes(quotes)
    ensures exists q :: (q in quotes && q.close.Num? && !q.volume.Null?
      && b.close == q.close.n
      && b.volume - 0.5 <= OrElse(q.volume, 0.0) / 100.0 < b.volume + 0.5)
  {
    assert b in multiset(NormalizeQuotes(quotes));
    assert b in multiset(KeptBars(quotes));
    assert b in KeptBars(quotes);
    var q :| q in quotes && KeepQuote(q) && b == ToBar(q);
    var r := RoundHalfUp(OrElse(q.volume, 0.0) / LotSize);
    assert b.volume == r as real;
  }

  /** `ticker.replace(".JK", "").replace(".US", "")`. */
  function BaseTicker(ticker: string): string
  {
    RemoveFirst(RemoveFirst(ticker, ".JK"), ".US")
  }

  /** `getMockData`: the ticker's own entry, else the entry of its base code
      with the `.JK` suffix, else the default entry, else nothing. */
  function GetMockData(ticker: string, store: map<string, seq<Bar>>): (r: seq<Bar>)
    ensures ticker in store ==> r == store[ticker]
    ensures ticker !in store && BaseTicker(ticker) + ".JK" in store ==> r == store[BaseTicker(ticker) + ".JK"]
    ensures ticker !in store && BaseTicker(ticker) + ".JK" !in store ==>
      r == (if DefaultMockKey in store then store[DefaultMockKey] else [])
    ensures r == [] || r in store.Values
  {
    var baseTicker := BaseTicker(ticker);
    if ticker in store then store[ticker]
    else if baseTicker + ".JK" in store then store[baseTicker + ".JK"]
    else if DefaultMockKey in store then store[DefaultMockKey]
    else []
  }

  /** On a store of the generated shape, every ticker, known or not, gets a
      full 30-bar history, so the analyser never skips mock data for being
      too short. */
  lemma MockDataIsLongEnough(ticker: string, store: map<string, seq<Bar>>)
    requires MockStoreShape(store)
    ensures |GetMockData(ticker, store)| == HistoryDays
    ensures |GetMockData(ticker, store)| >= MinHistory
  {
  }

  /** `getMarketData`: mock data when mock mode is on, when the provider
      throws, or when it returns nothing; otherwise the normalised rows. */
  function GetMarketData(ticker: string, useMock: bool, fetched: Fetch, store: map<string, seq<Bar>>): (r: MarketServiceResponse)
    ensures r.source == Mock <==> useMock || fetched.Threw? || fetched.result.None? || fetched.result.value == []
    ensures r.source == Mock ==> r.data == GetMockData(ticker, store)
    ensures r.source == Api ==> r.data == NormalizeQuotes(fetched.result.value)
  {
    if useMock then MarketServiceResponse(GetMockData(ticker, store), Mock)
    else match fetched
      case Threw => MarketServiceResponse(GetMockData(ticker, store), Mock)
      case Returned(result) =>
        if result.None? || result.value == [] then MarketServiceResponse(GetMockData(ticker, store), Mock)
        else MarketServiceResponse(NormalizeQuotes(result.value), Api)
  }

  /** Live data always comes back newest first, one bar per kept row at most;
      mock data on a well-formed store always has 30 bars. */
  lemma MarketDataShape(ticker: string, useMock: bool, fetched: Fetch, store: map<string, seq<Bar>>)
    requires MockStoreShape(store)
    ensures var r := GetMarketData(ticker, useMock, fetched, store);
      && (r.source == Mock ==> |r.data| == HistoryDays)
      && (r.source == Api ==>
            |r.data| <= |fetched.result.value| &&
            forall i, j :: 0 <= i < j < |r.data| ==> r.data[i].date >= r.data[j].date)
  {
    MockDataIsLongEnough(ticker, store);
  }
}
