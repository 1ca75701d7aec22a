/** The fundamental catalog and its "anti-gorengan" quality gate. The three
    reference tables (the company roster, the financial ratios and the
    sector summaries, each keyed by the exchange code `KodeEmiten`) are
    joined into company profiles; a quality filter of size, solvency,
    profitability and optional group and blue-chip gates then selects the
    tickers worth scanning. The tables are a parameter: the source imports
    them as JSON files. */
module FundamentalService {
  import opened Common

  datatype RawCompany = RawCompany(kodeEmiten: string, namaEmiten: string)

  datatype RawFinancialRatio = RawFinancialRatio(kodeEmiten: string, der: real, roe: real, per: real, marketCap: real)

  datatype RawSummary = RawSummary(kodeEmiten: string, sektor: string, subSektor: string)

  /** The three tables the service reads. */
  datatype Catalog = Catalog(companies: seq<RawCompany>, ratios: seq<RawFinancialRatio>, summaries: seq<RawSummary>)

  /** The business groups a company can be tagged with. */
  datatype Conglomerate = Astra | Salim | Bumn | Bakrie | Goto

  datatype CompanyProfile = CompanyProfile(
    symbol: string, name: string, sector: string, subSector: string,
    marketCap: real, der: real, roe: real, conglomerate: Option<Conglomerate>)

  /** `QualityFilterParams`. `maxPER`, `minPER` and `sectors` are part of the
      interface but no gate reads them. */
  datatype QualityFilter = QualityFilter(
    minMarketCapT: real, maxDER: real, minROE: real,
    maxPER: Option<real>, minPER: Option<real>,
    sectors: Option<seq<string>>, conglomerates: Option<seq<string>>, onlyBluechips: bool)

  /** One trillion rupiah. */
  const T: real := 1_000_000_000_000.0

  /** `DEFAULT_QUALITY_FILTER`: at least 2 trillion in market cap, debt to
      equity below 2, positive return on equity. */
  const DefaultQualityFilter: QualityFilter := QualityFilter(2.0, 2.0, 0.0, Some(100.0), Some(0.0), None, None, false)

  const AstraCodes: seq<string> := ["ASII", "UNTR", "ASLC"]
  const SalimCodes: seq<string> := ["INDF", "ICBP"]
  const BumnCodes: seq<string> := ["BBRI", "BMRI", "BBNI", "TLKM", "PGAS", "PTBA", "ANTM", "TINS"]
  const BakrieCodes: seq<string> := ["BUMI", "DEWA", "ENRG"]
  const GotoCodes: seq<string> := ["GOTO", "ARTO"]

  /** The tag's name as a filter lists it. */
  function TagName(c: Conglomerate): string
  {
    match c
    case Astra => "Astra"
    case Salim => "Salim"
    case Bumn => "BUMN"
    case Bakrie => "Bakrie"
    case Goto => "Goto"
  }

  /** The group tag of a code: a fixed lookup over five disjoint code lists;
      a code on none of them is untagged. */
  function ConglomerateOf(code: string): (r: Option<Conglomerate>)
    ensures r == Some(Astra) <==> code in AstraCodes
    ensures r == Some(Salim) <==> code in SalimCodes
    ensures r == Some(Bumn) <==> code in BumnCodes
    ensures r == Some(Bakrie) <==> code in BakrieCodes
    ensures r == Some(Goto) <==> code in GotoCodes
    ensures r.None? <==> code !in AstraCodes + SalimCodes + BumnCodes + BakrieCodes + GotoCodes
  {
    if code in AstraCodes then Some(Astra)
    else if code in SalimCodes then Some(Salim)
    else if code in BumnCodes then Some(Bumn)
    else if code in BakrieCodes then Some(Bakrie)
    else if code in GotoCodes then Some(Goto)
    else None
  }

  /** `table.find(r => r.KodeEmiten === code)`: the first record with that code. */
  function FindByCode<R>(table: seq<R>, codeOf: R -> string, code: string): (r: Option<R>)
    ensures r.None? <==> forall k :: 0 <= k < |table| ==> codeOf(table[k]) != code
    ensures r.Some? ==> exists k :: (0 <= k < |table| && table[k] == r.value && codeOf(table[k]) == code &&
                                     forall j :: 0 <= j < k ==> codeOf(table[j]) != code)
  {
    match FindFirst(table, (x: R) => codeOf(x) == code)
    case None => None
    case Some(k) => Some(table[k])
  }

  function RatioCode(r: RawFinancialRatio): string { r.kodeEmiten }

  function SummaryCode(s: RawSummary): string { s.kodeEmiten }

  /** The profile of one roster company: nothing when no ratio record has its
      code; otherwise its `.JK` symbol, the first ratio record's figures,
      the first summary's sector and sub-sector ("Others" when there is no
      summary or the field is empty) and its group tag. */
  function JoinCompany(comp: RawCompany, catalog: Catalog): (r: Option<CompanyProfile>)
    ensures r.None? <==> forall k :: 0 <= k < |catalog.ratios| ==> catalog.ratios[k].kodeEmiten != comp.kodeEmiten
    ensures r.Some? ==>
      var ratio := FindByCode(catalog.ratios, RatioCode, comp.kodeEmiten).value;
      && r.value.symbol == comp.kodeEmiten + ".JK"
      && r.value.name == comp.namaEmiten
      && ratio.kodeEmiten == comp.kodeEmiten
      && r.value.marketCap == ratio.marketCap && r.value.der == ratio.der && r.value.roe == ratio.roe
      && r.value.conglomerate == ConglomerateOf(comp.kodeEmiten)
    ensures r.Some? && FindByCode(catalog.summaries, SummaryCode, comp.kodeEmiten).None? ==>
      r.value.sector == "Others" && r.value.subSector == "Others"
    ensures r.Some? && FindByCode(catalog.summaries, SummaryCode, comp.kodeEmiten).Some? ==>
      var summary := FindByCode(catalog.summaries, SummaryCode, comp.kodeEmiten).value;
      && (summary.sektor != "" ==> r.value.sector == summary.sektor)
      && (summary.sektor == "" ==> r.value.sector == "Others")
      && (summary.subSektor != "" ==> r.value.subSector == summary.subSektor)
      && (summary.subSektor == "" ==> r.value.subSector == "Others")
  {
    var ratio := FindByCode(catalog.ratios, RatioCode, comp.kodeEmiten);
    var summary := FindByCode(catalog.summaries, SummaryCode, comp.kodeEmiten);
    if ratio.None? then None
    else
      var sector := OrDefault(if summary.Some? then Some(summary.value.sektor) else None, "Others");
      var subSector := OrDefault(if summary.Some? then Some(summary.value.subSektor) else None, "Others");
      Some(CompanyProfile(comp.kodeEmiten + ".JK", comp.namaEmiten, sector, subSector,
                          ratio.value.marketCap, ratio.value.der, ratio.value.roe, ConglomerateOf(comp.kodeEmiten)))
  }

  /** `JoinCompany` as a function of the roster entry alone. */
  function JoinJob(catalog: Catalog): RawCompany -> Option<CompanyProfile>
  {
    c => JoinCompany(c, catalog)
  }

  /** `getJoinedData` (and `getAllData`, which returns it): the profiles of
      the roster companies that have a ratio record, in roster order. */
  function GetJoinedData(catalog: Catalog): (r: seq<CompanyProfile>)
    ensures |r| <= |catalog.companies|
  {
    Collect(catalog.companies, JoinJob(catalog))
  }

  /** The join keeps exactly the roster companies with a ratio record: each
      profile comes from one of them, and each of them has its profile. */
  lemma JoinedAreTheRatioCompanies(catalog: Catalog)
    ensures forall p :: p in GetJoinedData(catalog) ==>
      exists k :: 0 <= k < |catalog.companies| && JoinCompany(catalog.companies[k], catalog) == Some(p)
        && p.symbol == catalog.companies[k].kodeEmiten + ".JK"
        && exists j :: 0 <= j < |catalog.ratios| && catalog.ratios[j].kodeEmiten == catalog.companies[k].kodeEmiten
    ensures forall k, j ::
      (0 <= k < |catalog.companies| && 0 <= j < |catalog.ratios| &&
       catalog.ratios[j].kodeEmiten == catalog.companies[k].kodeEmiten) ==>
        JoinCompany(catalog.companies[k], catalog).Some? &&
        JoinCompany(catalog.companies[k], catalog).value in GetJoinedData(catalog)
  {
    CollectSound(catalog.companies, JoinJob(catalog));
    CollectComplete(catalog.companies, JoinJob(catalog));
  }

  /** When every roster company has a ratio record, nothing is dropped. */
  lemma FullRatiosKeepRoster(catalog: Catalog)
    requires forall k :: 0 <= k < |catalog.companies| ==>
      exists j :: 0 <= j < |catalog.ratios| && catalog.ratios[j].kodeEmiten == catalog.companies[k].kodeEmiten
    ensures |GetJoinedData(catalog)| == |catalog.companies|
  {
    CollectTotal(catalog.companies, JoinJob(catalog));
  }

  /** The group gate: with a non-empty allowlist, only tagged companies whose
      tag it names pass. */
  predicate ConglomerateGate(c: CompanyProfile, f: QualityFilter)
  {
    f.conglomerates.Some? && |f.conglomerates.value| > 0 ==>
      c.conglomerate.Some? && TagName(c.conglomerate.value) in f.conglomerates.value
  }

  /** The filter callback, gate by gate: size, leverage, profitability, the
      group allowlist and the blue-chip size floor of 50 trillion. */
  function PassesQualityGate(c: CompanyProfile, f: QualityFilter): (ok: bool)
    ensures ok <==>
      && c.marketCap >= f.minMarketCapT * T
      && c.der < f.maxDER
      && c.roe > f.minROE
      && ConglomerateGate(c, f)
      && (f.onlyBluechips ==> c.marketCap >= 50.0 * T)
  {
    if c.marketCap < f.minMarketCapT * T then false
    else if c.der >= f.maxDER then false
    else if c.roe <= f.minROE then false
    else if f.conglomerates.Some? && |f.conglomerates.value| > 0 &&
      (c.conglomerate.None? || TagName(c.conglomerate.value) !in f.conglomerates.value) then false
    else if f.onlyBluechips && c.marketCap < 50.0 * T then false
    else true
  }

  /** `data.filter(...)` with the quality gate, in order. */
  function KeepPassing(s: seq<CompanyProfile>, f: QualityFilter): (r: seq<CompanyProfile>)
    ensures |r| <= |s|
    ensures forall c :: c in r <==> c in s && PassesQualityGate(c, f)
  {
    if s == [] then []
    else
      assert forall c :: c in s <==> c == s[0] || c in s[1..];
      (if PassesQualityGate(s[0], f) then [s[0]] else []) + KeepPassing(s[1..], f)
  }

  /** `.map(c => c.symbol)`. */
  function Symbols(s: seq<CompanyProfile>): (r: seq<string>)
    ensures |r| == |s|
    ensures forall k :: 0 <= k < |s| ==> r[k] == s[k].symbol
  {
    if s == [] then [] else [s[0].symbol] + Symbols(s[1..])
  }

  /** `getTickers(filter)`: the symbols of the joined profiles that pass. */
  function GetTickers(catalog: Catalog, f: QualityFilter): (r: seq<string>)
    ensures |r| <= |GetJoinedData(catalog)|
    ensures forall k :: 0 <= k < |r| ==>
      exists c :: c in GetJoinedData(catalog) && PassesQualityGate(c, f) && c.symbol == r[k]
    ensures forall c :: c in GetJoinedData(catalog) && PassesQualityGate(c, f) ==> c.symbol in r
  {
    var kept := KeepPassing(GetJoinedData(catalog), f);
    assert forall k :: 0 <= k < |kept| ==> kept[k] in kept;
    assert forall c :: c in kept ==> exists k :: 0 <= k < |kept| && kept[k] == c;
    Symbols(kept)
  }

  /** Every ticker returned meets the three numeric thresholds. */
  lemma TickersMeetThresholds(catalog: Catalog, f: QualityFilter, symbol: string)
    requires symbol in GetTickers(catalog, f)
    ensures exists c :: (c in GetJoinedData(catalog) && c.symbol == symbol &&
                         c.marketCap >= f.minMarketCapT * T && c.der < f.maxDER && c.roe > f.minROE &&
                         (f.onlyBluechips ==> c.marketCap >= 50.0 * T))
  {
    var r := GetTickers(catalog, f);
    var k :| 0 <= k < |r| && r[k] == symbol;
  }

  /** Filtering deletes elements and keeps the order of the rest. */
  lemma {:induction false} KeepPassingIsSubsequence(s: seq<CompanyProfile>, f: QualityFilter)
    ensures IsSubsequence(KeepPassing(s, f), s)
  {
    if s != [] {
      KeepPassingIsSubsequence(s[1..], f);
      var rest := KeepPassing(s[1..], f);
      if PassesQualityGate(s[0], f) {
        assert ([s[0]] + rest)[1..] == rest;
      } else {
        assert KeepPassing(s, f) == rest;
      }
    }
  }

  /** Deleting is at least as strict under a gate that passes fewer companies. */
  lemma {:induction false} KeepPassingMonotone(s: seq<CompanyProfile>, strict: QualityFilter, loose: QualityFilter)
    requires forall c :: c in s && PassesQualityGate(c, strict) ==> PassesQualityGate(c, loose)
    ensures IsSubsequence(KeepPassing(s, strict), KeepPassing(s, loose))
  {
    if s != [] {
      KeepPassingMonotone(s[1..], strict, loose);
      var a := KeepPassing(s[1..], strict);
      var b := KeepPassing(s[1..], loose);
      if PassesQualityGate(s[0], strict) {
        assert ([s[0]] + a)[1..] == a && ([s[0]] + b)[1..] == b;
      } else if PassesQualityGate(s[0], loose) {
        assert KeepPassing(s, strict) == a;
        assert ([s[0]] + b)[1..] == b;
      } else {
        assert KeepPassing(s, strict) == a && KeepPassing(s, loose) == b;
      }
    }
  }

  /** Mapping to symbols keeps a subsequence a subsequence. */
  lemma {:induction false} SymbolsKeepSubsequence(a: seq<CompanyProfile>, b: seq<CompanyProfile>)
    requires IsSubsequence(a, b)
    ensures IsSubsequence(Symbols(a), Symbols(b))
    decreases |b|
  {
    if a != [] {
      if a[0] == b[0] && IsSubsequence(a[1..], b[1..]) {
        SymbolsKeepSubsequence(a[1..], b[1..]);
        assert Symbols(a)[1..] == Symbols(a[1..]) && Symbols(b)[1..] == Symbols(b[1..]);
      } else {
        SymbolsKeepSubsequence(a, b[1..]);
        assert Symbols(b)[1..] == Symbols(b[1..]);
      }
    }
  }

  /** The tickers appear in the order of the joined profiles. */
  lemma TickersFollowCatalogOrder(catalog: Catalog, f: QualityFilter)
    ensures IsSubsequence(GetTickers(catalog, f), Symbols(GetJoinedData(catalog)))
  {
    KeepPassingIsSubsequence(GetJoinedData(catalog), f);
    SymbolsKeepSubsequence(KeepPassing(GetJoinedData(catalog), f), GetJoinedData(catalog));
  }

  /** `strict` raises every floor, lowers the leverage ceiling, keeps the
      group allowlist and keeps the blue-chip gate if `loose` has it. */
  predicate Tighter(strict: QualityFilter, loose: QualityFilter)
  {
    && strict.minMarketCapT >= loose.minMarketCapT
    && strict.maxDER <= loose.maxDER
    && strict.minROE >= loose.minROE
    && strict.conglomerates == loose.conglomerates
    && (loose.onlyBluechips ==> strict.onlyBluechips)
  }

  /** Tightening the filter can only remove tickers, never add or reorder them. */
  lemma TighterFilterShrinks(catalog: Catalog, strict: QualityFilter, loose: QualityFilter)
    requires Tighter(strict, loose)
    ensures IsSubsequence(GetTickers(catalog, strict), GetTickers(catalog, loose))
  {
    var joined := GetJoinedData(catalog);
    KeepPassingMonotone(joined, strict, loose);
    SymbolsKeepSubsequence(KeepPassing(joined, strict), KeepPassing(joined, loose));
  }

  /** Equal gates keep equal lists. */
  lemma {:induction false} KeepPassingCongruent(s: seq<CompanyProfile>, f: QualityFilter, g: QualityFilter)
    requires forall c :: c in s ==> PassesQualityGate(c, f) == PassesQualityGate(c, g)
    ensures KeepPassing(s, f) == KeepPassing(s, g)
  {
    if s != [] {
      assert forall c :: c in s[1..] ==> c in s;
      KeepPassingCongruent(s[1..], f, g);
    }
  }

  /** `sectors`, `minPER` and `maxPER` do not influence the result. */
  lemma UnusedFieldsIgnored(catalog: Catalog, f: QualityFilter, g: QualityFilter)
    requires f.minMarketCapT == g.minMarketCapT && f.maxDER == g.maxDER && f.minROE == g.minROE
    requires f.conglomerates == g.conglomerates && f.onlyBluechips == g.onlyBluechips
    ensures GetTickers(catalog, f) == GetTickers(catalog, g)
  {
    KeepPassingCongruent(GetJoinedData(catalog), f, g);
  }

  datatype Metrics = Metrics(total: int, passed: int)

  /** `getMetrics`: the size of the catalog and how many pass the default filter. */
  function GetMetrics(catalog: Catalog): (m: Metrics)
    ensures m.total == |GetJoinedData(catalog)| <= |catalog.companies|
    ensures m.passed == |GetTickers(catalog, DefaultQualityFilter)|
    ensures 0 <= m.passed <= m.total
  {
    Metrics(|GetJoinedData(catalog)|, |GetTickers(catalog, DefaultQualityFilter)|)
  }
}
