/** The reference-data transformation script: from the exchange's complete
    company list and its financial records it derives the three tables the
    fundamental catalog reads: the roster and the sector summaries, both
    sorted by code, and the financial ratios of the roster companies that
    have a financial record, with a computed market cap, largest first. The
    JSON file reads and writes are left out; the parsed records are the
    inputs and the three tables the outputs. */
module TransformData {
  import opened Common
  import opened Sorting
  import opened FundamentalService

  /** A record of the complete company list. */
  datatype CompanyRecord = CompanyRecord(kodeEmiten: string, namaEmiten: string, sektor: Option<string>, subSektor: Option<string>)

  /** A financial record; `equity` is in billions of rupiah. */
  datatype FinancialRecord = FinancialRecord(code: string, equity: RawValue, priceBV: RawValue, deRatio: RawValue, roe: RawValue, per: RawValue)

  /** Rupiah per billion. */
  const Billion: real := 1_000_000_000.0

  /** The `{KodeEmiten, NamaEmiten}` projection of each record, in input order. */
  function Projections(data: seq<CompanyRecord>): (r: seq<RawCompany>)
    ensures |r| == |data|
    ensures forall k :: 0 <= k < |data| ==> r[k] == RawCompany(data[k].kodeEmiten, data[k].namaEmiten)
  {
    if data == [] then [] else [RawCompany(data[0].kodeEmiten, data[0].namaEmiten)] + Projections(data[1..])
  }

  function CompanyKey(c: RawCompany): string { c.kodeEmiten }

  /** `allCompanies`: one projected entry per record, ascending by code. */
  function AllCompanies(data: seq<CompanyRecord>): (r: seq<RawCompany>)
    ensures multiset(r) == multiset(Projections(data))
    ensures |r| == |data|
    ensures forall i, j :: 0 <= i < j < |r| ==> LexLe(r[i].kodeEmiten, r[j].kodeEmiten)
  {
    var sorted := SortByName(Projections(data), CompanyKey);
    assert forall i, j :: 0 <= i < j < |sorted| ==> LexLe(CompanyKey(sorted[i]), CompanyKey(sorted[j]));
    sorted
  }

  /** The summary of each record, sector fields defaulting to "Others" when
      absent or empty, in input order. */
  function SummaryRows(data: seq<CompanyRecord>): (r: seq<RawSummary>)
    ensures |r| == |data|
    ensures forall k :: 0 <= k < |data| ==>
      r[k].kodeEmiten == data[k].kodeEmiten &&
      (Truthy(data[k].sektor) ==> r[k].sektor == data[k].sektor.value) &&
      (!Truthy(data[k].sektor) ==> r[k].sektor == "Others") &&
      (Truthy(data[k].subSektor) ==> r[k].subSektor == data[k].subSektor.value) &&
      (!Truthy(data[k].subSektor) ==> r[k].subSektor == "Others")
  {
    if data == [] then []
    else [RawSummary(data[0].kodeEmiten, OrDefault(data[0].sektor, "Others"), OrDefault(data[0].subSektor, "Others"))]
         + SummaryRows(data[1..])
  }

  function SummaryKey(s: RawSummary): string { s.kodeEmiten }

  /** `summaries`: one entry per record, ascending by code. */
  function Summaries(data: seq<CompanyRecord>): (r: seq<RawSummary>)
    ensures multiset(r) == multiset(SummaryRows(data))
    ensures |r| == |data|
    ensures forall i, j :: 0 <= i < j < |r| ==> LexLe(r[i].kodeEmiten, r[j].kodeEmiten)
  {
    var sorted := SortByName(SummaryRows(data), SummaryKey);
    assert forall i, j :: 0 <= i < j < |sorted| ==> LexLe(SummaryKey(sorted[i]), SummaryKey(sorted[j]));
    sorted
  }

  /** No summary has an empty sector or sub-sector, so the catalog's own
      "Others" fallback never fires for a summary this script wrote. */
  lemma SummariesNeverBlank(data: seq<CompanyRecord>)
    ensures forall s :: s in Summaries(data) ==> s.sektor != "" && s.subSektor != ""
  {
    var rows := SummaryRows(data);
    forall s | s in Summaries(data) ensures s.sektor != "" && s.subSektor != "" {
      assert s in multiset(rows);
      var k :| 0 <= k < |rows| && rows[k] == s;
    }
  }

  /** The `finMap` filled by `forEach` + `set`: each code maps to the record
      set last. */
  function FinMapOf(financials: seq<FinancialRecord>): (m: map<string, FinancialRecord>)
    ensures forall c :: c in m <==> exists k :: 0 <= k < |financials| && financials[k].code == c
  {
    if financials == [] then map[]
    else
      var init := financials[..|financials| - 1];
      var last := financials[|financials| - 1];
      var m := FinMapOf(init)[last.code := last];
      assert forall k :: 0 <= k < |init| ==> init[k] == financials[k];
      m
  }

  /** Duplicate codes resolve to the last record with that code. */
  lemma {:induction false} FinMapLastWins(financials: seq<FinancialRecord>, k: nat)
    requires k < |financials|
    requires forall j :: k < j < |financials| ==> financials[j].code != financials[k].code
    ensures FinMapOf(financials)[financials[k].code] == financials[k]
  {
    var n := |financials| - 1;
    if k < n {
      var init := financials[..n];
      FinMapLastWins(init, k);
    }
  }

  /** The `forEach` that fills the map. */
  method BuildFinMap(financials: seq<FinancialRecord>) returns (finMap: map<string, FinancialRecord>)
    ensures finMap == FinMapOf(financials)
  {
    finMap := map[];
    var i := 0;
    while i < |financials|
      invariant 0 <= i <= |financials|
      invariant finMap == FinMapOf(financials[..i])
    {
      var item := financials[i];
      finMap := finMap[item.code := item];
      assert financials[..i + 1][..i] == financials[..i];
      i := i + 1;
    }
    assert financials[..i] == financials;
  }

  /** `Math.floor(marketCap)`: equity times price-to-book, in rupiah, when
      both are present and non-zero; 0 otherwise. */
  function MarketCapOf(fin: FinancialRecord): (cap: int)
    ensures !(fin.equity.Num? && fin.equity.n != 0.0 && fin.priceBV.Num? && fin.priceBV.n != 0.0) ==> cap == 0
    ensures fin.equity.Num? && fin.equity.n != 0.0 && fin.priceBV.Num? && fin.priceBV.n != 0.0 ==>
      cap as real <= fin.equity.n * fin.priceBV.n * Billion < cap as real + 1.0
  {
    var marketCap := if fin.equity.Num? && fin.equity.n != 0.0 && fin.priceBV.Num? && fin.priceBV.n != 0.0
      then fin.equity.n * fin.priceBV.n * Billion else 0.0;
    marketCap.Floor
  }

  /** A non-negative equity and price-to-book give a non-negative market cap. */
  lemma MarketCapNonNegative(fin: FinancialRecord)
    requires fin.equity.Num? ==> fin.equity.n >= 0.0
    requires fin.priceBV.Num? ==> fin.priceBV.n >= 0.0
    ensures MarketCapOf(fin) >= 0
  {
    if fin.equity.Num? && fin.priceBV.Num? {
      var e, p := fin.equity.n, fin.priceBV.n;
      assert e * p >= 0.0;
      assert e * p * Billion >= 0.0;
    }
  }

  /** The pushed entry: ratios default to 0 when absent or zero. */
  function RatioOf(code: string, fin: FinancialRecord): (r: RawFinancialRatio)
    ensures r.kodeEmiten == code && r.marketCap == MarketCapOf(fin) as real
    ensures r.der == OrElse(fin.deRatio, 0.0) && r.roe == OrElse(fin.roe, 0.0) && r.per == OrElse(fin.per, 0.0)
  {
    RawFinancialRatio(code, OrElse(fin.deRatio, 0.0), OrElse(fin.roe, 0.0), OrElse(fin.per, 0.0), MarketCapOf(fin) as real)
  }

  /** What one roster record contributes: an entry when its code has a record. */
  function RatioJob(finMap: map<string, FinancialRecord>): CompanyRecord -> Option<RawFinancialRatio>
  {
    (c: CompanyRecord) => if c.kodeEmiten in finMap then Some(RatioOf(c.kodeEmiten, finMap[c.kodeEmiten])) else None
  }

  /** The entries in roster order, before sorting. */
  function RatioRows(companies: seq<CompanyRecord>, finMap: map<string, FinancialRecord>): seq<RawFinancialRatio>
  {
    Collect(companies, RatioJob(finMap))
  }

  /** The `forEach` over the roster that pushes an entry per record with
      financial data. */
  method BuildRatios(companies: seq<CompanyRecord>, finMap: map<string, FinancialRecord>)
    returns (financialRatios: seq<RawFinancialRatio>)
    ensures financialRatios == RatioRows(companies, finMap)
  {
    financialRatios := [];
    var i := 0;
    while i < |companies|
      invariant 0 <= i <= |companies|
      invariant financialRatios == Collect(companies[..i], RatioJob(finMap))
    {
      var code := companies[i].kodeEmiten;
      CollectStep(companies, i, RatioJob(finMap));
      if code in finMap {
        var fin := finMap[code];
        financialRatios := financialRatios + [RatioOf(code, fin)];
      }
      i := i + 1;
    }
    assert companies[..i] == companies;
  }

  /** There is an entry with a code exactly when some roster record has the
      code and the code has a financial record; each such entry is built
      from the code's last financial record. */
  lemma RatioRowsAreTheFinancedCompanies(companies: seq<CompanyRecord>, financials: seq<FinancialRecord>)
    ensures forall r :: r in RatioRows(companies, FinMapOf(financials)) ==>
      r.kodeEmiten in FinMapOf(financials) && r == RatioOf(r.kodeEmiten, FinMapOf(financials)[r.kodeEmiten]) &&
      exists k :: 0 <= k < |companies| && companies[k].kodeEmiten == r.kodeEmiten
    ensures forall k :: 0 <= k < |companies| && companies[k].kodeEmiten in FinMapOf(financials) ==>
      RatioOf(companies[k].kodeEmiten, FinMapOf(financials)[companies[k].kodeEmiten]) in RatioRows(companies, FinMapOf(financials))
  {
    var job := RatioJob(FinMapOf(financials));
    CollectSound(companies, job);
    CollectComplete(companies, job);
  }

  function MarketCapKey(r: RawFinancialRatio): real { r.marketCap }

  /** `financialRatios` after the sort: largest market cap first. */
  function FinancialRatios(companies: seq<CompanyRecord>, financials: seq<FinancialRecord>): (r: seq<RawFinancialRatio>)
    ensures multiset(r) == multiset(RatioRows(companies, FinMapOf(financials)))
    ensures forall i, j :: 0 <= i < j < |r| ==> r[i].marketCap >= r[j].marketCap
  {
    var sorted := SortDesc(RatioRows(companies, FinMapOf(financials)), MarketCapKey);
    assert forall i, j :: 0 <= i < j < |sorted| ==> MarketCapKey(sorted[i]) >= MarketCapKey(sorted[j]);
    sorted
  }

  /** The script body without its file reads and writes. */
  method Transform(companiesData: seq<CompanyRecord>, financialsData: seq<FinancialRecord>)
    returns (allCompanies: seq<RawCompany>, summaries: seq<RawSummary>, financialRatios: seq<RawFinancialRatio>)
    ensures allCompanies == AllCompanies(companiesData)
    ensures summaries == Summaries(companiesData)
    ensures financialRatios == FinancialRatios(companiesData, financialsData)
  {
    allCompanies := AllCompanies(companiesData);
    summaries := Summaries(companiesData);
    var finMap := BuildFinMap(financialsData);
    financialRatios := BuildRatios(companiesData, finMap);
    financialRatios := SortDesc(financialRatios, MarketCapKey);
  }

  /** The catalog the script writes. */
  function TransformedCatalog(companiesData: seq<CompanyRecord>, financialsData: seq<FinancialRecord>): Catalog
  {
    Catalog(AllCompanies(companiesData), FinancialRatios(companiesData, financialsData), Summaries(companiesData))
  }

  /** A roster entry whose code has a financial record has a ratio entry. */
  lemma FinancedCompanyHasRatio(companiesData: seq<CompanyRecord>, financialsData: seq<FinancialRecord>, comp: RawCompany)
    requires comp in AllCompanies(companiesData) && comp.kodeEmiten in FinMapOf(financialsData)
    ensures exists j :: (0 <= j < |FinancialRatios(companiesData, financialsData)| &&
                         FinancialRatios(companiesData, financialsData)[j].kodeEmiten == comp.kodeEmiten)
  {
    var finMap := FinMapOf(financialsData);
    var ratios := FinancialRatios(companiesData, financialsData);
    assert comp in multiset(Projections(companiesData));
    var i :| 0 <= i < |companiesData| && Projections(companiesData)[i] == comp;
    RatioRowsAreTheFinancedCompanies(companiesData, financialsData);
    var row := RatioOf(comp.kodeEmiten, finMap[comp.kodeEmiten]);
    assert row in RatioRows(companiesData, finMap);
    assert row in multiset(ratios);
    var j :| 0 <= j < |ratios| && ratios[j] == row;
  }

  /** Every ratio entry's code has a financial record. */
  lemma RatioCodesAreFinanced(companiesData: seq<CompanyRecord>, financialsData: seq<FinancialRecord>)
    ensures forall r :: r in FinancialRatios(companiesData, financialsData) ==> r.kodeEmiten in FinMapOf(financialsData)
  {
    var rows := RatioRows(companiesData, FinMapOf(financialsData));
    RatioRowsAreTheFinancedCompanies(companiesData, financialsData);
    forall r | r in FinancialRatios(companiesData, financialsData) ensures r.kodeEmiten in FinMapOf(financialsData) {
      assert r in multiset(rows);
    }
  }

  /** On the tables the script writes, the catalog's join keeps a roster
      company exactly when its code has a financial record. */
  lemma JoinKeepsFinancedCompanies(companiesData: seq<CompanyRecord>, financialsData: seq<FinancialRecord>, k: nat)
    requires k < |AllCompanies(companiesData)|
    ensures var catalog := TransformedCatalog(companiesData, financialsData);
      JoinCompany(catalog.companies[k], catalog).Some? <==> catalog.companies[k].kodeEmiten in FinMapOf(financialsData)
  {
    var comp := AllCompanies(companiesData)[k];
    if comp.kodeEmiten in FinMapOf(financialsData) {
      FinancedCompanyHasRatio(companiesData, financialsData, comp);
    } else {
      RatioCodesAreFinanced(companiesData, financialsData);
    }
  }
}
