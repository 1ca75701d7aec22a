/** The batch scanner (`scanIndex`): tickers are fetched and analysed in
    batches of five, the items of the tickers that produced one are
    collected, and the result is ordered by accumulation quality, best first.
    The provider is the oracle `provider`, giving what the live call returns
    for each ticker; the batches' concurrent completion order is not modelled
    (each batch is processed in ticker order). */
module Scanner {
  import opened Common
  import opened Sorting
  import opened Bars
  import opened MockData
  import opened MarketService
  import opened Analyzer

  /** Tickers fetched concurrently per batch. */
  const BatchSize: nat := 5

  /** What one ticker contributes to the scan: the analysis of its market
      data, tagged as mock when the data came from the store. A history
      whose analysis would divide by zero contributes nothing. */
  function ScanJob(ticker: string, useMock: bool, provider: string -> Fetch, store: map<string, seq<Bar>>): (r: Option<ScanItem>)
    ensures var resp := GetMarketData(ticker, useMock, provider(ticker), store);
      && (r.Some? <==> |resp.data| >= MinHistory && Analyzable(resp.data))
      && (r.Some? ==> r.value.isMock == (resp.source == Mock) && r.value.avgVolume == AvgVolume20(resp.data))
  {
    var resp := GetMarketData(ticker, useMock, provider(ticker), store);
    if Analyzable(resp.data) then Analyze(ticker, resp.data, resp.source == Mock) else None
  }

  /** `ScanJob` as a function of the ticker alone. */
  function Job(useMock: bool, provider: string -> Fetch, store: map<string, seq<Bar>>): string -> Option<ScanItem>
  {
    t => ScanJob(t, useMock, provider, store)
  }

  /** The items of the tickers, in ticker order, before sorting. */
  function ScanResults(tickers: seq<string>, useMock: bool, provider: string -> Fetch, store: map<string, seq<Bar>>): seq<ScanItem>
  {
    Collect(tickers, Job(useMock, provider, store))
  }

  /** Each item of the scan is the analysis of one of the scanned tickers,
      and every ticker that yields an item is represented. */
  lemma ScanResultsAreTheJobs(tickers: seq<string>, useMock: bool, provider: string -> Fetch, store: map<string, seq<Bar>>)
    ensures forall item :: item in ScanResults(tickers, useMock, provider, store) ==>
      exists k :: 0 <= k < |tickers| && ScanJob(tickers[k], useMock, provider, store) == Some(item)
    ensures forall k :: 0 <= k < |tickers| && ScanJob(tickers[k], useMock, provider, store).Some? ==>
      ScanJob(tickers[k], useMock, provider, store).value in ScanResults(tickers, useMock, provider, store)
  {
    var job := Job(useMock, provider, store);
    CollectSound(tickers, job);
    CollectComplete(tickers, job);
  }

  /** Every item of the scan has a score in 0..100, and it is stealth
      exactly when the score reaches 75. */
  lemma ScanResultsScored(tickers: seq<string>, useMock: bool, provider: string -> Fetch, store: map<string, seq<Bar>>)
    ensures forall item :: item in ScanResults(tickers, useMock, provider, store) ==>
      0 <= item.accumulationQuality <= 100 && (item.isStealth <==> item.accumulationQuality >= StealthThreshold)
  {
    ScanResultsAreTheJobs(tickers, useMock, provider, store);
  }

  /** In mock mode, on a well-formed store whose histories can all be
      analysed, every ticker yields exactly one item. */
  lemma MockScanCoversAll(tickers: seq<string>, provider: string -> Fetch, store: map<string, seq<Bar>>)
    requires MockStoreShape(store)
    requires forall key :: key in store ==> Analyzable(store[key])
    ensures |ScanResults(tickers, true, provider, store)| == |tickers|
  {
    forall k | 0 <= k < |tickers|
      ensures ScanJob(tickers[k], true, provider, store).Some?
    {
      MockDataIsLongEnough(tickers[k], store);
      assert GetMockData(tickers[k], store) in store.Values;
    }
    CollectTotal(tickers, Job(true, provider, store));
  }

  /** The sort key of `(a, b) => b.accumulationQuality - a.accumulationQuality`. */
  function QualityKey(item: ScanItem): real
  {
    item.accumulationQuality as real
  }

  /** The final sort: the same items, highest score first. */
  function RankByQuality(items: seq<ScanItem>): (r: seq<ScanItem>)
    ensures multiset(r) == multiset(items)
    ensures forall i, j :: 0 <= i < j < |r| ==> r[i].accumulationQuality >= r[j].accumulationQuality
  {
    var sorted := SortDesc(items, QualityKey);
    assert forall i, j :: 0 <= i < j < |sorted| ==> QualityKey(sorted[i]) >= QualityKey(sorted[j]);
    sorted
  }

  /** Concatenation of the batches. */
  function Flatten(batches: seq<seq<string>>): (r: seq<string>)
  {
    if batches == [] then [] else Flatten(batches[..|batches| - 1]) + batches[|batches| - 1]
  }

  /** `batches` cut `prefix` into consecutive slices of `BatchSize`
      tickers, the last one possibly shorter; while `more` tickers follow,
      every slice is full. */
  ghost predicate Batched(batches: seq<seq<string>>, prefix: seq<string>, more: bool)
  {
    && Flatten(batches) == prefix
    && (forall b :: 0 <= b < |batches| ==> 1 <= |batches[b]| <= BatchSize)
    && (forall b :: 0 <= b < |batches| - 1 ==> |batches[b]| == BatchSize)
    && (more ==> forall b :: 0 <= b < |batches| ==> |batches[b]| == BatchSize)
  }

  /** Handing the next slice `tickers[i..end]` to a round keeps the batching. */
  lemma AddBatch(batches: seq<seq<string>>, tickers: seq<string>, i: nat, end: nat)
    requires i < end <= |tickers| && end - i <= BatchSize
    requires end < |tickers| ==> end - i == BatchSize
    requires Batched(batches, tickers[..i], true)
    ensures Batched(batches + [tickers[i..end]], tickers[..end], end < |tickers|)
  {
    var bs := batches + [tickers[i..end]];
    assert bs[..|batches|] == batches;
    assert tickers[..end] == tickers[..i] + tickers[i..end];
  }

  /** The per-ticker step of a batch: fetch, analyse, keep the item if any. */
  method ScanTicker(ticker: string, useMock: bool, provider: string -> Fetch, store: map<string, seq<Bar>>)
    returns (r: Option<ScanItem>)
    ensures r == Job(useMock, provider, store)(ticker)
  {
    var resp := GetMarketData(ticker, useMock, provider(ticker), store);
    r := None;
    if Analyzable(resp.data) {
      r := AnalyzeTicker(ticker, resp.data, resp.source == Mock);
    }
  }

  /** `processBatch`: the items of the batch's tickers, in batch order. */
  method ProcessBatch(batch: seq<string>, useMock: bool, provider: string -> Fetch, store: map<string, seq<Bar>>)
    returns (items: seq<ScanItem>)
    ensures items == Collect(batch, Job(useMock, provider, store))
  {
    items := [];
    var j := 0;
    while j < |batch|
      invariant 0 <= j <= |batch|
      invariant items == Collect(batch[..j], Job(useMock, provider, store))
    {
      items := ScanStep(batch, j, items, useMock, provider, store);
      j := j + 1;
    }
    assert batch[..j] == batch;
  }

  /** One ticker of a batch: its item, if any, is appended. */
  method ScanStep(batch: seq<string>, j: nat, items: seq<ScanItem>, useMock: bool, provider: string -> Fetch, store: map<string, seq<Bar>>)
    returns (items': seq<ScanItem>)
    requires j < |batch|
    requires items == Collect(batch[..j], Job(useMock, provider, store))
    ensures items' == Collect(batch[..j + 1], Job(useMock, provider, store))
  {
    var analysis := ScanTicker(batch[j], useMock, provider, store);
    CollectStep(batch, j, Job(useMock, provider, store));
    items' := items;
    if analysis.Some? {
      items' := items' + [analysis.value];
    }
  }

  /** One concurrent round: the batch `tickers[i..end]` is processed and its
      items are appended to those of the earlier rounds. */
  method ScanRound(tickers: seq<string>, i: nat, end: nat, collected: seq<ScanItem>, useMock: bool,
                   provider: string -> Fetch, store: map<string, seq<Bar>>)
    returns (collected': seq<ScanItem>)
    requires i <= end <= |tickers|
    requires collected == Collect(tickers[..i], Job(useMock, provider, store))
    ensures collected' == Collect(tickers[..end], Job(useMock, provider, store))
  {
    var items := ProcessBatch(tickers[i..end], useMock, provider, store);
    collected' := collected + items;
    CollectSlices(tickers, i, end, Job(useMock, provider, store));
  }

  /** The rounds of `scanIndex`: consecutive batches of `BatchSize` tickers
      (the last one possibly shorter), their items gathered in ticker order.
      The ghost `batches` records the slices handed to each concurrent round. */
  method ScanRounds(tickers: seq<string>, useMock: bool, provider: string -> Fetch, store: map<string, seq<Bar>>)
    returns (collected: seq<ScanItem>, ghost batches: seq<seq<string>>)
    ensures collected == ScanResults(tickers, useMock, provider, store)
    ensures Flatten(batches) == tickers
    ensures forall b :: 0 <= b < |batches| ==> 1 <= |batches[b]| <= BatchSize
    ensures forall b :: 0 <= b < |batches| - 1 ==> |batches[b]| == BatchSize
  {
    collected := [];
    batches := [];
    var i := 0;
    while i < |tickers|
      invariant 0 <= i <= |tickers|
      invariant collected == Collect(tickers[..i], Job(useMock, provider, store))
      invariant Batched(batches, tickers[..i], i < |tickers|)
      decreases |tickers| - i
    {
      var end := if i + BatchSize <= |tickers| then i + BatchSize else |tickers|;
      collected := ScanRound(tickers, i, end, collected, useMock, provider, store);
      AddBatch(batches, tickers, i, end);
      batches := batches + [tickers[i..end]];
      i := end;
    }
    assert tickers[..i] == tickers;
  }

  /** `scanIndex`: every item of the scan, ranked by accumulation quality. */
  method ScanIndex(tickers: seq<string>, useMock: bool, provider: string -> Fetch, store: map<string, seq<Bar>>)
    returns (results: seq<ScanItem>, ghost batches: seq<seq<string>>)
    ensures multiset(results) == multiset(ScanResults(tickers, useMock, provider, store))
    ensures forall i, j :: 0 <= i < j < |results| ==> results[i].accumulationQuality >= results[j].accumulationQuality
    ensures Flatten(batches) == tickers
    ensures forall b :: 0 <= b < |batches| ==> 1 <= |batches[b]| <= BatchSize
    ensures forall b :: 0 <= b < |batches| - 1 ==> |batches[b]| == BatchSize
  {
    var collected;
    collected, batches := ScanRounds(tickers, useMock, provider, store);
    results := RankByQuality(collected);
  }
}
