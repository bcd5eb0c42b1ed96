/// The older, self-contained retrieve-and-format pipeline (`build_context`
/// in app.py): keywords are the whitespace tokens longer than two
/// characters, stripped of punctuation; each section runs its lookups over
/// every keyword when a word of its family occurs in the query; the top
/// five companies are added on a top word; a statistics block stands in
/// when nothing else was found.
module LegacyApp {
  import opened Wrappers
  import opened Seqs
  import opened Text
  import opened GraphQueries
  import Formatting
  import Retriever

  /// The characters `build_context` strips from both ends of a token.
  const StripChars: set<char> := {'?', ',', '.', '\'', '"'}

  const InvestorWords: seq<string> := ["investor", "invested", "portfolio", "fund", "vc", "capital"]
  const SectorWords: seq<string> := ["sector", "industry", "fintech", "edtech", "ecommerce", "e-commerce", "saas"]
  const CityWords: seq<string> := ["bangalore", "mumbai", "delhi", "gurgaon", "pune", "chennai", "hyderabad", "city", "located"]
  const TopWords: seq<string> := ["top", "best", "highest", "largest", "biggest"]

  /// Some word of `family` is a substring of the lower-cased query.
  predicate Mentions(query: string, family: seq<string>) {
    Retriever.AnyIn(family, Lower(query))
  }

  /// `[w.strip("?,.'\"") for w in query.split() if len(w) > 2]`: the length
  /// test is on the token before stripping.
  function Keywords(query: string): (r: seq<string>)
    ensures |r| <= |Words(query)|
  {
    Map(Filter(Words(query), (w: string) => |w| > 2), (w: string) => Strip(w, StripChars))
  }

  /// The length the company search and the portfolio lookup demand.
  predicate IsLong(kw: string) { |kw| > 3 }

  // ---------------------------------------------------------------------
  // The lookups, as the graph answers them
  // ---------------------------------------------------------------------

  /// One query the pipeline sends to the graph, with its LIMIT.
  datatype Call =
    | SearchCall(term: string, limit: nat)
    | DetailsCall(name: string)
    | PortfolioCall(term: string, limit: nat)
    | SectorCall(term: string, limit: nat)
    | CityCall(term: string, limit: nat)
    | TopCall(limit: nat)
    | StatsCall

  /// The legacy `search_companies`: up to ten companies whose name contains
  /// the term. The query has no ORDER BY; the rows are taken in graph order.
  function LegacySearch(g: Graph, term: string): (r: seq<SearchRow>)
    ensures |r| <= 10
    ensures forall row :: row in r ==> Matches(row.company, term) && exists c :: c in g.companies && row == SearchRowOf(c)
    ensures |r| < 10 ==> forall c :: c in g.companies && Matches(c.name, term) ==> SearchRowOf(c) in r
  {
    var hits := NameHits(g, Lower(term));
    var r := Take(hits, 10);
    assert forall row :: row in r ==> row in hits by {
      assert r == hits[..|r|];
    }
    r
  }

  /// The companies whose details are looked up for one keyword: the first
  /// three search rows.
  function Searched(g: Graph, kw: string): (r: seq<SearchRow>)
    ensures |r| <= 3
  {
    Take(LegacySearch(g, kw), 3)
  }

  // ---------------------------------------------------------------------
  // The blocks
  // ---------------------------------------------------------------------

  /// A company block: sector, valuation, cities and the first five investors.
  function CompanyText(d: Details): string {
    "Company: " + d.company
    + "\n  Sector: " + Formatting.ShowOptStr(d.sector)
    + "\n  Valuation: $" + Formatting.ShowOptVal(d.valuation)
    + "B\n  Locations: " + Join(d.locations, ", ")
    + "\n  Investors: " + Join(Take(d.investors, 5), ", ")
  }

  /// `f"{company} (${valuation}B)"`
  function PriceTag(company: string, valuation: Option<Val>): string {
    company + " ($" + Formatting.ShowOptVal(valuation) + "B)"
  }

  function PortfolioItem(row: PortfolioRow): string { PriceTag(row.company, row.valuation) }

  /// An investor block: the investor named by the first row, and the first
  /// five companies of the portfolio.
  function PortfolioText(rows: seq<PortfolioRow>): string
    requires rows != []
  {
    "Investor: " + rows[0].investor + "\n  Portfolio: " + Join(Map(Take(rows, 5), PortfolioItem), ", ")
  }

  function SectorItem(row: SectorRow): string { PriceTag(row.company, row.valuation) }

  function SectorText(kw: string, rows: seq<SectorRow>): string {
    "Sector '" + kw + "' companies: " + Join(Map(Take(rows, 5), SectorItem), ", ")
  }

  function CityItem(row: CompanyRow): string {
    row.company + " (" + Formatting.ShowOptStr(row.sector) + ")"
  }

  function CityText(kw: string, rows: seq<CompanyRow>): string {
    "Companies in " + kw + ": " + Join(Map(Take(rows, 5), CityItem), ", ")
  }

  function TopItem(row: CompanyRow): string {
    row.company + " ($" + Formatting.ShowOptVal(row.valuation) + "B - " + Formatting.ShowOptStr(row.sector) + ")"
  }

  function TopText(rows: seq<CompanyRow>): string {
    "Top Unicorns by Valuation: " + Join(Map(rows, TopItem), ", ")
  }

  function TopFiveItem(row: CompanyRow): string { PriceTag(row.company, row.valuation) }

  /// `stats.get(key, 'N/A')` on the statistics row, or on `{}` when the
  /// query found no row.
  function StatText(stats: Option<Stats>, n: Stats -> nat): string {
    if stats.Some? then NatToString(n(stats.value)) else "N/A"
  }

  /// The fallback block. The legacy statistics query counts the company,
  /// investor, sector and location nodes and has no relationship count; it
  /// finds a row in exactly the graphs `GraphStats` finds one in, and the
  /// three counts shown are the same.
  function StatsText(stats: Option<Stats>, top: seq<CompanyRow>): string {
    "Indian Unicorn Startups Database:\n  Total Companies: " + StatText(stats, (s: Stats) => s.companies)
    + "\n  Total Investors: " + StatText(stats, (s: Stats) => s.investors)
    + "\n  Sectors: " + StatText(stats, (s: Stats) => s.sectors)
    + "\n  Top 5 by Valuation: " + Join(Map(top, TopFiveItem), ", ")
  }

  // ---------------------------------------------------------------------
  // The sections, over the answers their lookups got
  // ---------------------------------------------------------------------

  /// The company block of one search row, if it has details.
  function HitPiece(details: Option<Details>): (r: seq<string>)
    ensures |r| <= 1
  {
    if details.Some? then [CompanyText(details.value)] else []
  }

  /// The company blocks of one keyword's hits: one per hit with details.
  function HitTexts(g: Graph, rows: seq<SearchRow>): (r: seq<string>)
    ensures |r| <= |rows|
  {
    if rows == [] then []
    else
      var n := |rows| - 1;
      HitTexts(g, rows[..n]) + HitPiece(CompanyDetails(g, rows[n].company))
  }

  function HitCalls(rows: seq<SearchRow>): seq<Call> {
    if rows == [] then []
    else
      var n := |rows| - 1;
      HitCalls(rows[..n]) + [DetailsCall(rows[n].company)]
  }

  /// What one keyword adds to the company section, and the queries it sends.
  function CompanyPiece(g: Graph, kw: string): seq<string> {
    if IsLong(kw) then HitTexts(g, Searched(g, kw)) else []
  }

  function CompanyPieceCalls(g: Graph, kw: string): seq<Call> {
    if IsLong(kw) then [SearchCall(kw, 10)] + HitCalls(Searched(g, kw)) else []
  }

  function CompanyTexts(g: Graph, kws: seq<string>): seq<string> {
    if kws == [] then []
    else
      var n := |kws| - 1;
      CompanyTexts(g, kws[..n]) + CompanyPiece(g, kws[n])
  }

  function CompanyCalls(g: Graph, kws: seq<string>): seq<Call> {
    if kws == [] then []
    else
      var n := |kws| - 1;
      CompanyCalls(g, kws[..n]) + CompanyPieceCalls(g, kws[n])
  }

  function InvestorPiece(kw: string, rows: seq<PortfolioRow>): seq<string> {
    if IsLong(kw) && rows != [] then [PortfolioText(rows)] else []
  }

  function InvestorPieceCalls(kw: string): seq<Call> {
    if IsLong(kw) then [PortfolioCall(kw, 20)] else []
  }

  /// The legacy `get_investor_portfolio` is the portfolio query with LIMIT 20.
  function InvestorTexts(g: Graph, kws: seq<string>): seq<string> {
    if kws == [] then []
    else
      var n := |kws| - 1;
      InvestorTexts(g, kws[..n]) + InvestorPiece(kws[n], InvestorPortfolio(g, kws[n], 20))
  }

  function InvestorCalls(kws: seq<string>): seq<Call> {
    if kws == [] then []
    else
      var n := |kws| - 1;
      InvestorCalls(kws[..n]) + InvestorPieceCalls(kws[n])
  }

  function SectorPiece(kw: string, rows: seq<SectorRow>): seq<string> {
    if rows != [] then [SectorText(kw, rows)] else []
  }

  /// The legacy `get_sector_companies` is the sector query with LIMIT 15.
  function SectorTexts(g: Graph, kws: seq<string>): seq<string> {
    if kws == [] then []
    else
      var n := |kws| - 1;
      SectorTexts(g, kws[..n]) + SectorPiece(kws[n], SectorCompanies(g, kws[n], 15))
  }

  function SectorCalls(kws: seq<string>): seq<Call> {
    if kws == [] then []
    else
      var n := |kws| - 1;
      SectorCalls(kws[..n]) + [SectorCall(kws[n], 15)]
  }

  function CityPiece(kw: string, rows: seq<CompanyRow>): seq<string> {
    if rows != [] then [CityText(kw, rows)] else []
  }

  /// The legacy `get_city_companies` is the city query with LIMIT 15.
  function CityTexts(g: Graph, kws: seq<string>): seq<string> {
    if kws == [] then []
    else
      var n := |kws| - 1;
      CityTexts(g, kws[..n]) + CityPiece(kws[n], CityCompanies(g, kws[n], 15))
  }

  function CityCalls(kws: seq<string>): seq<Call> {
    if kws == [] then []
    else
      var n := |kws| - 1;
      CityCalls(kws[..n]) + [CityCall(kws[n], 15)]
  }

  // ---------------------------------------------------------------------
  // The whole context
  // ---------------------------------------------------------------------

  /// The blocks of `context_parts`, grouped by the section that appended
  /// them, in the order the sections run.
  datatype Sections = Sections(
    companies: seq<string>,
    investors: seq<string>,
    sectors: seq<string>,
    cities: seq<string>,
    top: seq<string>,
    fallback: seq<string>)

  function Found(s: Sections): seq<string> {
    s.companies + s.investors + s.sectors + s.cities + s.top
  }

  function Parts(s: Sections): seq<string> {
    Found(s) + s.fallback
  }

  /// Which keyword families the lower-cased query mentions.
  datatype Families = Families(investor: bool, sector: bool, city: bool, top: bool)

  function FamiliesOf(query: string): Families {
    Families(Mentions(query, InvestorWords), Mentions(query, SectorWords), Mentions(query, CityWords), Mentions(query, TopWords))
  }

  /// The sections for keywords `kws` and families `f`; `top` is what the
  /// top-companies query answers and `stats` what the statistics query
  /// answers.
  function SectionsFor(g: Graph, kws: seq<string>, f: Families, top: seq<CompanyRow>, stats: Option<Stats>): Sections {
    var companies := CompanyTexts(g, kws);
    var investors := if f.investor then InvestorTexts(g, kws) else [];
    var sectors := if f.sector then SectorTexts(g, kws) else [];
    var cities := if f.city then CityTexts(g, kws) else [];
    var best := if f.top then [TopText(top)] else [];
    var found := companies + investors + sectors + cities + best;
    Sections(companies, investors, sectors, cities, best, Fallback(found, stats, top))
  }

  /// The statistics block, when nothing was found.
  function Fallback(found: seq<string>, stats: Option<Stats>, top: seq<CompanyRow>): seq<string> {
    if found == [] then [StatsText(stats, top)] else []
  }

  function FallbackCalls(found: seq<string>): seq<Call> {
    if found == [] then [StatsCall, TopCall(5)] else []
  }

  /// The queries of the sections that look things up.
  function FoundCalls(g: Graph, kws: seq<string>, f: Families): seq<Call> {
    CompanyCalls(g, kws)
    + (if f.investor then InvestorCalls(kws) else [])
    + (if f.sector then SectorCalls(kws) else [])
    + (if f.city then CityCalls(kws) else [])
    + (if f.top then [TopCall(5)] else [])
  }

  function CallsFor(g: Graph, kws: seq<string>, f: Families, top: seq<CompanyRow>, stats: Option<Stats>): seq<Call> {
    FoundCalls(g, kws, f) + FallbackCalls(Found(SectionsFor(g, kws, f, top, stats)))
  }

  function LegacySections(g: Graph, query: string): Sections {
    SectionsFor(g, Keywords(query), FamiliesOf(query), TopCompanies(g, 5), GraphStats(g))
  }

  /// The queries `build_context` sends, in order.
  function LegacyCalls(g: Graph, query: string): seq<Call> {
    CallsFor(g, Keywords(query), FamiliesOf(query), TopCompanies(g, 5), GraphStats(g))
  }

  function LegacyContext(g: Graph, query: string): string {
    Join(Parts(LegacySections(g, query)), "\n\n")
  }

  // ---------------------------------------------------------------------
  // The pipeline, step by step
  // ---------------------------------------------------------------------

  lemma HitStep(g: Graph, rows: seq<SearchRow>, j: nat)
    requires j < |rows|
    ensures HitTexts(g, rows[..j + 1]) == HitTexts(g, rows[..j]) + HitPiece(CompanyDetails(g, rows[j].company))
    ensures HitCalls(rows[..j + 1]) == HitCalls(rows[..j]) + [DetailsCall(rows[j].company)]
  {
    assert rows[..j + 1][..j] == rows[..j];
  }

  /// `for comp in companies[:3]: details = get_company_details(...)`
  method LookUpHits(g: Graph, rows: seq<SearchRow>) returns (texts: seq<string>, calls: seq<Call>)
    ensures texts == HitTexts(g, rows) && calls == HitCalls(rows)
  {
    texts, calls := [], [];
    for j := 0 to |rows|
      invariant texts == HitTexts(g, rows[..j]) && calls == HitCalls(rows[..j])
    {
      var details := CompanyDetails(g, rows[j].company);
      var piece := if details.Some? then [CompanyText(details.value)] else [];
      HitStep(g, rows, j);
      texts, calls := texts + piece, calls + [DetailsCall(rows[j].company)];
    }
    assert rows[..|rows|] == rows;
  }

  lemma CompanyStep(g: Graph, kws: seq<string>, i: nat)
    requires i < |kws|
    ensures CompanyTexts(g, kws[..i + 1]) == CompanyTexts(g, kws[..i]) + CompanyPiece(g, kws[i])
    ensures CompanyCalls(g, kws[..i + 1]) == CompanyCalls(g, kws[..i]) + CompanyPieceCalls(g, kws[i])
  {
    assert kws[..i + 1][..i] == kws[..i];
  }

  /// One keyword of the company section: search it when it is longer than
  /// three characters and look up the details of the first three hits.
  method LookUpKeyword(g: Graph, kw: string) returns (texts: seq<string>, calls: seq<Call>)
    ensures texts == CompanyPiece(g, kw) && calls == CompanyPieceCalls(g, kw)
  {
    texts, calls := [], [];
    if |kw| > 3 {
      var companies := LegacySearch(g, kw);
      var names;
      texts, names := LookUpHits(g, Take(companies, 3));
      calls := [SearchCall(kw, 10)] + names;
    }
  }

  /// The company section: every keyword in turn.
  method LookUpCompanies(g: Graph, kws: seq<string>) returns (parts: seq<string>, calls: seq<Call>)
    ensures parts == CompanyTexts(g, kws) && calls == CompanyCalls(g, kws)
  {
    parts, calls := [], [];
    for i := 0 to |kws|
      invariant parts == CompanyTexts(g, kws[..i]) && calls == CompanyCalls(g, kws[..i])
    {
      var texts, issued := LookUpKeyword(g, kws[i]);
      CompanyStep(g, kws, i);
      parts, calls := parts + texts, calls + issued;
    }
    assert kws[..|kws|] == kws;
  }

  lemma InvestorStep(g: Graph, kws: seq<string>, i: nat)
    requires i < |kws|
    ensures InvestorTexts(g, kws[..i + 1]) == InvestorTexts(g, kws[..i]) + InvestorPiece(kws[i], InvestorPortfolio(g, kws[i], 20))
    ensures InvestorCalls(kws[..i + 1]) == InvestorCalls(kws[..i]) + InvestorPieceCalls(kws[i])
  {
    assert kws[..i + 1][..i] == kws[..i];
  }

  method LookUpPortfolio(g: Graph, kw: string) returns (texts: seq<string>, calls: seq<Call>)
    ensures texts == InvestorPiece(kw, InvestorPortfolio(g, kw, 20)) && calls == InvestorPieceCalls(kw)
  {
    texts, calls := [], [];
    if |kw| > 3 {
      var portfolio := InvestorPortfolio(g, kw, 20);
      calls := [PortfolioCall(kw, 20)];
      if portfolio != [] {
        texts := [PortfolioText(portfolio)];
      }
    }
  }

  /// The investor section: the portfolio of every keyword longer than
  /// three characters.
  method LookUpPortfolios(g: Graph, kws: seq<string>) returns (parts: seq<string>, calls: seq<Call>)
    ensures parts == InvestorTexts(g, kws) && calls == InvestorCalls(kws)
  {
    parts, calls := [], [];
    for i := 0 to |kws|
      invariant parts == InvestorTexts(g, kws[..i]) && calls == InvestorCalls(kws[..i])
    {
      var texts, issued := LookUpPortfolio(g, kws[i]);
      InvestorStep(g, kws, i);
      parts, calls := parts + texts, calls + issued;
    }
    assert kws[..|kws|] == kws;
  }

  lemma SectorStep(g: Graph, kws: seq<string>, i: nat)
    requires i < |kws|
    ensures SectorTexts(g, kws[..i + 1]) == SectorTexts(g, kws[..i]) + SectorPiece(kws[i], SectorCompanies(g, kws[i], 15))
    ensures SectorCalls(kws[..i + 1]) == SectorCalls(kws[..i]) + [SectorCall(kws[i], 15)]
  {
    assert kws[..i + 1][..i] == kws[..i];
  }

  method LookUpSector(g: Graph, kw: string) returns (texts: seq<string>)
    ensures texts == SectorPiece(kw, SectorCompanies(g, kw, 15))
  {
    var rows := SectorCompanies(g, kw, 15);
    texts := if rows != [] then [SectorText(kw, rows)] else [];
  }

  /// The sector section: the sector companies of every keyword.
  method LookUpSectors(g: Graph, kws: seq<string>) returns (parts: seq<string>, calls: seq<Call>)
    ensures parts == SectorTexts(g, kws) && calls == SectorCalls(kws)
  {
    parts, calls := [], [];
    for i := 0 to |kws|
      invariant parts == SectorTexts(g, kws[..i]) && calls == SectorCalls(kws[..i])
    {
      var texts := LookUpSector(g, kws[i]);
      SectorStep(g, kws, i);
      parts, calls := parts + texts, calls + [SectorCall(kws[i], 15)];
    }
    assert kws[..|kws|] == kws;
  }

  lemma CityStep(g: Graph, kws: seq<string>, i: nat)
    requires i < |kws|
    ensures CityTexts(g, kws[..i + 1]) == CityTexts(g, kws[..i]) + CityPiece(kws[i], CityCompanies(g, kws[i], 15))
    ensures CityCalls(kws[..i + 1]) == CityCalls(kws[..i]) + [CityCall(kws[i], 15)]
  {
    assert kws[..i + 1][..i] == kws[..i];
  }

  method LookUpCity(g: Graph, kw: string) returns (texts: seq<string>)
    ensures texts == CityPiece(kw, CityCompanies(g, kw, 15))
  {
    var rows := CityCompanies(g, kw, 15);
    texts := if rows != [] then [CityText(kw, rows)] else [];
  }

  /// The location section: the city companies of every keyword.
  method LookUpCities(g: Graph, kws: seq<string>) returns (parts: seq<string>, calls: seq<Call>)
    ensures parts == CityTexts(g, kws) && calls == CityCalls(kws)
  {
    parts, calls := [], [];
    for i := 0 to |kws|
      invariant parts == CityTexts(g, kws[..i]) && calls == CityCalls(kws[..i])
    {
      var texts := LookUpCity(g, kws[i]);
      CityStep(g, kws, i);
      parts, calls := parts + texts, calls + [CityCall(kws[i], 15)];
    }
    assert kws[..|kws|] == kws;
  }

  /// The sections that look things up, in the order `build_context` runs
  /// them.
  method Collect(g: Graph, kws: seq<string>, f: Families) returns (parts: seq<string>, calls: seq<Call>)
    ensures parts == Found(SectionsFor(g, kws, f, TopCompanies(g, 5), GraphStats(g)))
    ensures calls == FoundCalls(g, kws, f)
  {
    parts, calls := LookUpCompanies(g, kws);
    var texts: seq<string>, issued: seq<Call> := [], [];
    if f.investor {
      texts, issued := LookUpPortfolios(g, kws);
    }
    parts, calls := parts + texts, calls + issued;
    texts, issued := [], [];
    if f.sector {
      texts, issued := LookUpSectors(g, kws);
    }
    parts, calls := parts + texts, calls + issued;
    texts, issued := [], [];
    if f.city {
      texts, issued := LookUpCities(g, kws);
    }
    parts, calls := parts + texts, calls + issued;
    texts, issued := [], [];
    if f.top {
      var top := TopCompanies(g, 5);
      texts, issued := [TopText(top)], [TopCall(5)];
    }
    parts, calls := parts + texts, calls + issued;
  }

  /// `if not context_parts:` the statistics and the top five companies.
  method LookUpFallback(g: Graph, found: seq<string>) returns (parts: seq<string>, calls: seq<Call>)
    ensures parts == Fallback(found, GraphStats(g), TopCompanies(g, 5)) && calls == FallbackCalls(found)
  {
    parts, calls := [], [];
    if found == [] {
      var stats := GraphStats(g);
      var top := TopCompanies(g, 5);
      parts := [StatsText(stats, top)];
      calls := [StatsCall, TopCall(5)];
    }
  }

  /// The sections, then the statistics block if they found nothing, joined
  /// by blank lines.
  method Assemble(g: Graph, kws: seq<string>, f: Families) returns (context: string, calls: seq<Call>)
    ensures context == Join(Parts(SectionsFor(g, kws, f, TopCompanies(g, 5), GraphStats(g))), "\n\n")
    ensures calls == CallsFor(g, kws, f, TopCompanies(g, 5), GraphStats(g))
  {
    var found, fallback, extra;
    found, calls := Collect(g, kws, f);
    fallback, extra := LookUpFallback(g, found);
    context := Join(found + fallback, "\n\n");
    calls := calls + extra;
  }

  /// `build_context` of app.py, returning the queries it sent alongside
  /// the context.
  method BuildLegacyContext(g: Graph, query: string) returns (context: string, calls: seq<Call>)
    ensures context == LegacyContext(g, query)
    ensures calls == LegacyCalls(g, query)
  {
    var keywords := Keywords(query);
    var families := FamiliesOf(query);
    context, calls := Assemble(g, keywords, families);
  }

  // ---------------------------------------------------------------------
  // What the pipeline promises
  // ---------------------------------------------------------------------

  /// The keywords are the whitespace tokens longer than two characters,
  /// stripped of punctuation at both ends.
  lemma KeywordsAreStrippedTokens(query: string)
    ensures forall k :: k in Keywords(query) <==> exists w :: w in Words(query) && |w| > 2 && k == Strip(w, StripChars)
    ensures forall k :: k in Keywords(query) ==> IsStripped(k, StripChars)
  {
    var long := Filter(Words(query), (w: string) => |w| > 2);
    forall k | k in Keywords(query)
      ensures IsStripped(k, StripChars)
    {
      var w :| w in long && k == Strip(w, StripChars);
    }
  }

  /// The length test comes before the stripping: the quoted token `'ab'`
  /// passes it and leaves the two-character keyword `ab`.
  lemma QuotedIsOneWord()
    ensures Words("'ab'") == ["'ab'"]
  {
    var w := "'ab'";
    assert WordLen(w[3..]) == 1;
    assert WordLen(w[2..]) == 2;
    assert WordLen(w[1..]) == 3;
    assert WordLen(w) == 4;
    assert w[..4] == w && w[4..] == "";
  }

  lemma QuotedStrips()
    ensures Strip("'ab'", StripChars) == "ab"
  {
    var w := "'ab'";
    assert w[0] in StripChars && w[1..] == "ab'";
    assert "ab'"[0] == 'a' && 'a' !in StripChars;
    assert TrimLeft("ab'", StripChars) == "ab'";
    assert TrimLeft(w, StripChars) == "ab'";
    assert "ab'"[2] in StripChars && "ab'"[..2] == "ab";
    assert TrimRight("ab", StripChars) == "ab";
  }

  lemma ShortKeywordAfterStrip()
    ensures Keywords("'ab'") == ["ab"]
  {
    QuotedIsOneWord();
    QuotedStrips();
    var long := Filter(["'ab'"], (x: string) => |x| > 2);
    assert long == ["'ab'"] by {
      assert "'ab'" in long;
      assert long[0] in long;
    }
  }



  /// Only the first five rows of a lookup, and the first five investors of
  /// a company, are shown.
  lemma PortfolioShowsFirstFive(rows: seq<PortfolioRow>)
    requires rows != []
    ensures PortfolioText(rows) == PortfolioText(Take(rows, 5))
  {
    assert Take(Take(rows, 5), 5) == Take(rows, 5);
  }

  lemma SectorShowsFirstFive(kw: string, rows: seq<SectorRow>)
    ensures SectorText(kw, rows) == SectorText(kw, Take(rows, 5))
  {
    assert Take(Take(rows, 5), 5) == Take(rows, 5);
  }

  lemma CityShowsFirstFive(kw: string, rows: seq<CompanyRow>)
    ensures CityText(kw, rows) == CityText(kw, Take(rows, 5))
  {
    assert Take(Take(rows, 5), 5) == Take(rows, 5);
  }

  lemma CompanyShowsFirstFiveInvestors(d: Details)
    ensures CompanyText(d) == CompanyText(d.(investors := Take(d.investors, 5)))
  {
    assert Take(Take(d.investors, 5), 5) == Take(d.investors, 5);
  }

  // ---------------------------------------------------------------------
  // The queries sent
  // ---------------------------------------------------------------------

  /// The details of every search row are fetched, and nothing else.
  lemma {:induction false} DetailsCallsFor(rows: seq<SearchRow>, c: Call)
    ensures c in HitCalls(rows) <==> c.DetailsCall? && exists row :: row in rows && c.name == row.company
  {
    if rows != [] {
      var n := |rows| - 1;
      DetailsCallsFor(rows[..n], c);
      assert forall row :: row in rows <==> row in rows[..n] || row == rows[n] by {
        assert rows == rows[..n] + [rows[n]];
      }
    }
  }

  /// The details of `name` are fetched for keyword `kw`: the keyword is
  /// long enough to be searched and one of its first three hits is `name`.
  predicate Fetched(g: Graph, kw: string, name: string) {
    IsLong(kw) && exists row :: row in Searched(g, kw) && name == row.company
  }

  /// The company section searches every keyword longer than three
  /// characters, ten rows at most, and looks up the details of the first
  /// three companies each search returns.
  lemma {:induction false} CompanyCallsFor(g: Graph, kws: seq<string>, c: Call)
    ensures c in CompanyCalls(g, kws) <==>
      || (c.SearchCall? && c.term in kws && IsLong(c.term) && c.limit == 10)
      || (c.DetailsCall? && exists kw :: kw in kws && Fetched(g, kw, c.name))
  {
    if kws != [] {
      var n := |kws| - 1;
      var kw := kws[n];
      CompanyCallsFor(g, kws[..n], c);
      DetailsCallsFor(Searched(g, kw), c);
      if c.SearchCall? {
        InInitOrLast(kws, c.term);
      } else if c.DetailsCall? {
        if exists k :: k in kws && Fetched(g, k, c.name) {
          var k :| k in kws && Fetched(g, k, c.name);
          InInitOrLast(kws, k);
        }
        if exists k :: k in kws[..n] && Fetched(g, k, c.name) {
          var k :| k in kws[..n] && Fetched(g, k, c.name);
          InInitOrLast(kws, k);
        }
        InInitOrLast(kws, kw);
      }
    }
  }

  /// A portfolio is fetched, twenty rows at most, for every keyword longer
  /// than three characters.
  lemma {:induction false} InvestorCallsFor(kws: seq<string>, c: Call)
    ensures c in InvestorCalls(kws) <==> c.PortfolioCall? && c.term in kws && IsLong(c.term) && c.limit == 20
  {
    if kws != [] {
      var n := |kws| - 1;
      InvestorCallsFor(kws[..n], c);
      if c.PortfolioCall? || c.SectorCall? || c.CityCall? {
        InInitOrLast(kws, c.term);
      }
    }
  }

  /// A sector lookup, fifteen rows at most, is sent for every keyword.
  lemma {:induction false} SectorCallsFor(kws: seq<string>, c: Call)
    ensures c in SectorCalls(kws) <==> c.SectorCall? && c.term in kws && c.limit == 15
  {
    if kws != [] {
      var n := |kws| - 1;
      SectorCallsFor(kws[..n], c);
      if c.PortfolioCall? || c.SectorCall? || c.CityCall? {
        InInitOrLast(kws, c.term);
      }
    }
  }

  /// A city lookup, fifteen rows at most, is sent for every keyword.
  lemma {:induction false} CityCallsFor(kws: seq<string>, c: Call)
    ensures c in CityCalls(kws) <==> c.CityCall? && c.term in kws && c.limit == 15
  {
    if kws != [] {
      var n := |kws| - 1;
      CityCallsFor(kws[..n], c);
      if c.PortfolioCall? || c.SectorCall? || c.CityCall? {
        InInitOrLast(kws, c.term);
      }
    }
  }

  /// Every query of the pipeline, and the condition under which it is
  /// sent; `found` is what the sections found.
  lemma CallsForEach(g: Graph, kws: seq<string>, f: Families, found: seq<string>, c: Call)
    ensures c in FoundCalls(g, kws, f) + FallbackCalls(found) <==>
      || c in CompanyCalls(g, kws)
      || (f.investor && c in InvestorCalls(kws))
      || (f.sector && c in SectorCalls(kws))
      || (f.city && c in CityCalls(kws))
      || ((f.top || found == []) && c == TopCall(5))
      || (found == [] && c == StatsCall)
  {
  }

  /// A name is searched exactly when it is a keyword longer than three
  /// characters, whatever families the query mentions.
  lemma SearchesLongKeywords(g: Graph, query: string, t: string, limit: nat)
    ensures SearchCall(t, limit) in LegacyCalls(g, query) <==> t in Keywords(query) && IsLong(t) && limit == 10
  {
    var c := SearchCall(t, limit);
    var kws := Keywords(query);
    CallsForEach(g, kws, FamiliesOf(query), Found(LegacySections(g, query)), c);
    CompanyCallsFor(g, kws, c);
    InvestorCallsFor(kws, c);
    SectorCallsFor(kws, c);
    CityCallsFor(kws, c);
  }

  /// The details of a company are fetched exactly when it is among the
  /// first three hits of a searched keyword.
  lemma DetailsOfHits(g: Graph, query: string, name: string)
    ensures DetailsCall(name) in LegacyCalls(g, query) <==> exists kw :: kw in Keywords(query) && Fetched(g, kw, name)
  {
    var c := DetailsCall(name);
    var kws := Keywords(query);
    CallsForEach(g, kws, FamiliesOf(query), Found(LegacySections(g, query)), c);
    CompanyCallsFor(g, kws, c);
    InvestorCallsFor(kws, c);
    SectorCallsFor(kws, c);
    CityCallsFor(kws, c);
  }

  /// A portfolio is looked up exactly when the query mentions an investor
  /// word, for each keyword longer than three characters.
  lemma PortfoliosGated(g: Graph, query: string, t: string, limit: nat)
    ensures PortfolioCall(t, limit) in LegacyCalls(g, query) <==>
      Mentions(query, InvestorWords) && t in Keywords(query) && IsLong(t) && limit == 20
  {
    var c := PortfolioCall(t, limit);
    var kws := Keywords(query);
    CallsForEach(g, kws, FamiliesOf(query), Found(LegacySections(g, query)), c);
    CompanyCallsFor(g, kws, c);
    InvestorCallsFor(kws, c);
    SectorCallsFor(kws, c);
    CityCallsFor(kws, c);
  }

  /// A sector is looked up exactly when the query mentions a sector word,
  /// for every keyword, short ones included.
  lemma SectorsGated(g: Graph, query: string, t: string, limit: nat)
    ensures SectorCall(t, limit) in LegacyCalls(g, query) <==>
      Mentions(query, SectorWords) && t in Keywords(query) && limit == 15
  {
    var c := SectorCall(t, limit);
    var kws := Keywords(query);
    CallsForEach(g, kws, FamiliesOf(query), Found(LegacySections(g, query)), c);
    CompanyCallsFor(g, kws, c);
    InvestorCallsFor(kws, c);
    SectorCallsFor(kws, c);
    CityCallsFor(kws, c);
  }

  /// A city is looked up exactly when the query mentions a city word, for
  /// every keyword.
  lemma CitiesGated(g: Graph, query: string, t: string, limit: nat)
    ensures CityCall(t, limit) in LegacyCalls(g, query) <==>
      Mentions(query, CityWords) && t in Keywords(query) && limit == 15
  {
    var c := CityCall(t, limit);
    var kws := Keywords(query);
    CallsForEach(g, kws, FamiliesOf(query), Found(LegacySections(g, query)), c);
    CompanyCallsFor(g, kws, c);
    InvestorCallsFor(kws, c);
    SectorCallsFor(kws, c);
    CityCallsFor(kws, c);
  }

  /// The statistics are read exactly when no section found anything.
  lemma StatsGated(g: Graph, query: string)
    ensures StatsCall in LegacyCalls(g, query) <==> Found(LegacySections(g, query)) == []
  {
    var kws := Keywords(query);
    CallsForEach(g, kws, FamiliesOf(query), Found(LegacySections(g, query)), StatsCall);
    CompanyCallsFor(g, kws, StatsCall);
    InvestorCallsFor(kws, StatsCall);
    SectorCallsFor(kws, StatsCall);
    CityCallsFor(kws, StatsCall);
  }

  // ---------------------------------------------------------------------
  // The blocks found
  // ---------------------------------------------------------------------

  /// `t` is the block of company `name`, whose details exist.
  predicate Shows(g: Graph, name: string, t: string) {
    CompanyDetails(g, name).Some? && t == CompanyText(CompanyDetails(g, name).value)
  }

  /// `t` is the block of one of the first three hits of keyword `kw`,
  /// which is long enough to be searched.
  predicate ShownFor(g: Graph, kw: string, t: string) {
    IsLong(kw) && exists row :: row in Searched(g, kw) && Shows(g, row.company, t)
  }

  lemma {:induction false} HitBlocks(g: Graph, rows: seq<SearchRow>, t: string)
    ensures t in HitTexts(g, rows) <==> exists row :: row in rows && Shows(g, row.company, t)
  {
    if rows != [] {
      var n := |rows| - 1;
      HitBlocks(g, rows[..n], t);
      if exists row :: row in rows && Shows(g, row.company, t) {
        var row :| row in rows && Shows(g, row.company, t);
        InInitOrLast(rows, row);
      }
      InInitOrLast(rows, rows[n]);
    }
  }

  lemma CompanyPieceBlocks(g: Graph, kw: string, t: string)
    ensures t in CompanyPiece(g, kw) <==> ShownFor(g, kw, t)
  {
    HitBlocks(g, Searched(g, kw), t);
  }

  /// The company blocks are the details of the first three search rows of
  /// the keywords longer than three characters, and nothing else.
  lemma {:induction false} CompanyBlocks(g: Graph, kws: seq<string>, t: string)
    ensures t in CompanyTexts(g, kws) <==> exists kw :: kw in kws && ShownFor(g, kw, t)
  {
    if kws != [] {
      var n := |kws| - 1;
      var kw := kws[n];
      CompanyBlocks(g, kws[..n], t);
      CompanyPieceBlocks(g, kw, t);
      if exists k :: k in kws && ShownFor(g, k, t) {
        var k :| k in kws && ShownFor(g, k, t);
        InInitOrLast(kws, k);
      }
      InInitOrLast(kws, kw);
    }
  }

  /// At most three company blocks per keyword.
  lemma {:induction false} CompanyBlocksBounded(g: Graph, kws: seq<string>)
    ensures |CompanyTexts(g, kws)| <= 3 * |kws|
  {
    if kws != [] {
      CompanyBlocksBounded(g, kws[..|kws| - 1]);
    }
  }

  /// `t` is the block of the portfolio of investor keyword `kw`.
  predicate InvestorShown(g: Graph, kw: string, t: string) {
    IsLong(kw) && InvestorPortfolio(g, kw, 20) != [] && t == PortfolioText(InvestorPortfolio(g, kw, 20))
  }

  lemma InvestorPieceBlocks(g: Graph, kw: string, t: string)
    ensures t in InvestorPiece(kw, InvestorPortfolio(g, kw, 20)) <==> InvestorShown(g, kw, t)
  {
  }

  /// One investor block per keyword longer than three characters whose
  /// portfolio is not empty.
  lemma {:induction false} InvestorBlocks(g: Graph, kws: seq<string>, t: string)
    ensures t in InvestorTexts(g, kws) <==> exists kw :: kw in kws && InvestorShown(g, kw, t)
  {
    if kws != [] {
      var n := |kws| - 1;
      InvestorBlocks(g, kws[..n], t);
      InvestorPieceBlocks(g, kws[n], t);
      if exists kw :: kw in kws && InvestorShown(g, kw, t) {
        var kw :| kw in kws && InvestorShown(g, kw, t);
        InInitOrLast(kws, kw);
      }
      InInitOrLast(kws, kws[n]);
    }
  }

  /// `t` is the block of the companies of sector keyword `kw`.
  predicate SectorShown(g: Graph, kw: string, t: string) {
    SectorCompanies(g, kw, 15) != [] && t == SectorText(kw, SectorCompanies(g, kw, 15))
  }

  lemma SectorPieceBlocks(g: Graph, kw: string, t: string)
    ensures t in SectorPiece(kw, SectorCompanies(g, kw, 15)) <==> SectorShown(g, kw, t)
  {
  }

  /// One sector block per keyword whose sector lookup found companies.
  lemma {:induction false} SectorBlocks(g: Graph, kws: seq<string>, t: string)
    ensures t in SectorTexts(g, kws) <==> exists kw :: kw in kws && SectorShown(g, kw, t)
  {
    if kws != [] {
      var n := |kws| - 1;
      SectorBlocks(g, kws[..n], t);
      SectorPieceBlocks(g, kws[n], t);
      if exists kw :: kw in kws && SectorShown(g, kw, t) {
        var kw :| kw in kws && SectorShown(g, kw, t);
        InInitOrLast(kws, kw);
      }
      InInitOrLast(kws, kws[n]);
    }
  }

  /// `t` is the block of the companies of city keyword `kw`.
  predicate CityShown(g: Graph, kw: string, t: string) {
    CityCompanies(g, kw, 15) != [] && t == CityText(kw, CityCompanies(g, kw, 15))
  }

  lemma CityPieceBlocks(g: Graph, kw: string, t: string)
    ensures t in CityPiece(kw, CityCompanies(g, kw, 15)) <==> CityShown(g, kw, t)
  {
  }

  /// One city block per keyword whose city lookup found companies.
  lemma {:induction false} CityBlocks(g: Graph, kws: seq<string>, t: string)
    ensures t in CityTexts(g, kws) <==> exists kw :: kw in kws && CityShown(g, kw, t)
  {
    if kws != [] {
      var n := |kws| - 1;
      CityBlocks(g, kws[..n], t);
      CityPieceBlocks(g, kws[n], t);
      if exists kw :: kw in kws && CityShown(g, kw, t) {
        var kw :| kw in kws && CityShown(g, kw, t);
        InInitOrLast(kws, kw);
      }
      InInitOrLast(kws, kws[n]);
    }
  }

  // ---------------------------------------------------------------------
  // The context
  // ---------------------------------------------------------------------

  /// The statistics block stands in exactly when nothing was found, and
  /// then it is the only block.
  lemma FallbackOnlyWhenNothingFound(g: Graph, kws: seq<string>, f: Families, top: seq<CompanyRow>, stats: Option<Stats>)
    ensures var s := SectionsFor(g, kws, f, top, stats);
      && (s.fallback != [] <==> Found(s) == [])
      && (Found(s) == [] ==> Parts(s) == [StatsText(stats, top)])
  {
    var s := SectionsFor(g, kws, f, top, stats);
    assert Found(s) == s.companies + s.investors + s.sectors + s.cities + s.top;
  }

  /// A query with a top word always ends with the top-companies block, so
  /// the statistics block never appears for it.
  lemma TopBlockEndsContext(g: Graph, kws: seq<string>, f: Families, top: seq<CompanyRow>, stats: Option<Stats>)
    requires f.top
    ensures var s := SectionsFor(g, kws, f, top, stats);
      && s.fallback == []
      && Parts(s) != [] && Parts(s)[|Parts(s)| - 1] == TopText(top)
  {
    var s := SectionsFor(g, kws, f, top, stats);
    assert Found(s) == s.companies + s.investors + s.sectors + s.cities + s.top;
  }

  /// No block of a section is empty.
  lemma {:induction false} CompanyTextsSolid(g: Graph, kws: seq<string>)
    ensures forall t :: t in CompanyTexts(g, kws) ==> t != ""
  {
    if kws != [] {
      var n := |kws| - 1;
      CompanyTextsSolid(g, kws[..n]);
      forall t | t in CompanyPiece(g, kws[n])
        ensures t != ""
      {
        CompanyPieceBlocks(g, kws[n], t);
      }
    }
  }

  lemma InvestorPieceSolid(kw: string, rows: seq<PortfolioRow>)
    ensures forall t :: t in InvestorPiece(kw, rows) ==> t != ""
  {
  }

  lemma {:induction false} InvestorTextsSolid(g: Graph, kws: seq<string>)
    ensures forall t :: t in InvestorTexts(g, kws) ==> t != ""
  {
    if kws != [] {
      var n := |kws| - 1;
      InvestorTextsSolid(g, kws[..n]);
      InvestorPieceSolid(kws[n], InvestorPortfolio(g, kws[n], 20));
    }
  }

  lemma SectorPieceSolid(kw: string, rows: seq<SectorRow>)
    ensures forall t :: t in SectorPiece(kw, rows) ==> t != ""
  {
  }

  lemma {:induction false} SectorTextsSolid(g: Graph, kws: seq<string>)
    ensures forall t :: t in SectorTexts(g, kws) ==> t != ""
  {
    if kws != [] {
      var n := |kws| - 1;
      SectorTextsSolid(g, kws[..n]);
      SectorPieceSolid(kws[n], SectorCompanies(g, kws[n], 15));
    }
  }

  lemma CityPieceSolid(kw: string, rows: seq<CompanyRow>)
    ensures forall t :: t in CityPiece(kw, rows) ==> t != ""
  {
  }

  lemma {:induction false} CityTextsSolid(g: Graph, kws: seq<string>)
    ensures forall t :: t in CityTexts(g, kws) ==> t != ""
  {
    if kws != [] {
      var n := |kws| - 1;
      CityTextsSolid(g, kws[..n]);
      CityPieceSolid(kws[n], CityCompanies(g, kws[n], 15));
    }
  }

  /// Sections whose blocks are each non-empty give non-empty parts.
  lemma SolidParts(s: Sections)
    requires forall t :: t in s.companies ==> t != ""
    requires forall t :: t in s.investors ==> t != ""
    requires forall t :: t in s.sectors ==> t != ""
    requires forall t :: t in s.cities ==> t != ""
    requires forall t :: t in s.top ==> t != ""
    requires forall t :: t in s.fallback ==> t != ""
    ensures forall t :: t in Parts(s) ==> t != ""
  {
  }

  lemma FallbackSolid(found: seq<string>, stats: Option<Stats>, top: seq<CompanyRow>)
    ensures forall t :: t in Fallback(found, stats, top) ==> t != ""
  {
  }

  lemma TopSolid(top: seq<CompanyRow>)
    ensures TopText(top) != ""
  {
  }

  /// No block is empty.
  lemma PartsSolid(g: Graph, kws: seq<string>, f: Families, top: seq<CompanyRow>, stats: Option<Stats>)
    ensures forall t :: t in Parts(SectionsFor(g, kws, f, top, stats)) ==> t != ""
  {
    CompanyTextsSolid(g, kws);
    InvestorTextsSolid(g, kws);
    SectorTextsSolid(g, kws);
    CityTextsSolid(g, kws);
    var companies := CompanyTexts(g, kws);
    var investors := if f.investor then InvestorTexts(g, kws) else [];
    var sectors := if f.sector then SectorTexts(g, kws) else [];
    var cities := if f.city then CityTexts(g, kws) else [];
    var best := if f.top then [TopText(top)] else [];
    TopSolid(top);
    FallbackSolid(companies + investors + sectors + cities + best, stats, top);
    SolidParts(SectionsFor(g, kws, f, top, stats));
  }

  /// Joining sections whose blocks are non-empty, at least one of them,
  /// gives a non-empty string.
  lemma JoinSolidParts(s: Sections)
    requires Parts(s) != [] && forall t :: t in Parts(s) ==> t != ""
    ensures Join(Parts(s), "\n\n") != ""
  {
    var parts := Parts(s);
    assert forall i :: 0 <= i < |parts| ==> parts[i] in parts;
    JoinOfSolid(parts, "\n\n");
  }

  /// The context is never empty: either some section found something or
  /// the statistics block is there.
  lemma ContextNonEmpty(g: Graph, kws: seq<string>, f: Families, top: seq<CompanyRow>, stats: Option<Stats>)
    ensures Join(Parts(SectionsFor(g, kws, f, top, stats)), "\n\n") != ""
  {
    PartsSolid(g, kws, f, top, stats);
    FallbackOnlyWhenNothingFound(g, kws, f, top, stats);
    JoinSolidParts(SectionsFor(g, kws, f, top, stats));
  }

  lemma LegacyContextNonEmpty(g: Graph, query: string)
    ensures LegacyContext(g, query) != ""
  {
    ContextNonEmpty(g, Keywords(query), FamiliesOf(query), TopCompanies(g, 5), GraphStats(g));
  }
}
