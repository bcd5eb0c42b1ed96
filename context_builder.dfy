/// The context builder: one retrieval plan per query intent, each a
/// sequence of graph lookups whose results are formatted into context
/// blocks, and the fallback to the general plan when a plan finds nothing.
module ContextBuilder {
  import opened Wrappers
  import opened Seqs
  import opened Text
  import opened GraphQueries
  import opened Formatting
  import opened Retriever

  // ---------------------------------------------------------------------
  // What a plan gathers
  // ---------------------------------------------------------------------

  /// One query a plan sends to the graph, with its argument and row limit.
  datatype Lookup =
    | DetailsLookup(name: string)
    | PortfolioLookup(name: string, limit: nat)
    | CoInvestorsLookup(name: string, limit: nat)
    | SectorLookup(name: string, limit: nat)
    | CityLookup(name: string, limit: nat)
    | TopCompaniesLookup(limit: nat)
    | TopInvestorsLookup(limit: nat)
    | SectorStatsLookup
    | LocationStatsLookup
    | GraphStatsLookup

  /// The context blocks, their source tags and the entity count a plan
  /// returns, together with the lookups it issued, in order.
  datatype Plan = Plan(parts: seq<string>, sources: seq<string>, count: nat, lookups: seq<Lookup>)

  const Nothing := Plan([], [], 0, [])

  /// `a` followed by `b`: blocks, tags and lookups appended, counts added.
  function Then(a: Plan, b: Plan): Plan {
    Plan(a.parts + b.parts, a.sources + b.sources, a.count + b.count, a.lookups + b.lookups)
  }

  lemma NothingThen(p: Plan)
    ensures Then(Nothing, p) == p
  {
    assert Nothing.parts + p.parts == p.parts;
    assert Nothing.sources + p.sources == p.sources;
    assert Nothing.lookups + p.lookups == p.lookups;
  }

  lemma ThenAssoc(a: Plan, b: Plan, c: Plan)
    ensures Then(Then(a, b), c) == Then(a, Then(b, c))
  {
    assert a.parts + b.parts + c.parts == a.parts + (b.parts + c.parts);
    assert a.sources + b.sources + c.sources == a.sources + (b.sources + c.sources);
    assert a.lookups + b.lookups + c.lookups == a.lookups + (b.lookups + c.lookups);
  }

  lemma ThenNothing(p: Plan)
    ensures Then(p, Plan([], [], 0, [])) == p
  {
    assert p.parts + [] == p.parts;
    assert p.sources + [] == p.sources;
    assert p.lookups + [] == p.lookups;
  }

  /// `RetrievalResult`, without the elapsed time.
  datatype RetrievalResult = RetrievalResult(context: string, entitiesFound: nat, sources: seq<string>)

  // ---------------------------------------------------------------------
  // The blocks, given what their lookup returned
  // ---------------------------------------------------------------------

  /// A company's details block, tagged with the stored company name.
  function DetailsBlock(item: string, d: Option<Details>): Plan {
    if d.Some? then Plan([FormatCompanyDetails(d.value)], ["company:" + d.value.company], 1, [DetailsLookup(item)])
    else Plan([], [], 0, [DetailsLookup(item)])
  }

  /// An investor's portfolio block; the count grows by its row count.
  function PortfolioBlock(item: string, limit: nat, p: seq<PortfolioRow>): Plan {
    if p != [] then Plan([FormatInvestorPortfolio(p)], ["investor:" + item], |p|, [PortfolioLookup(item, limit)])
    else Plan([], [], 0, [PortfolioLookup(item, limit)])
  }

  /// The investor plan's iteration: a portfolio of ten and, only when it is
  /// non-empty, a co-investor lookup whose block carries no source tag.
  function InvestorBlock(item: string, p: seq<PortfolioRow>, co: seq<CoInvestorRow>): Plan {
    if p == [] then Plan([], [], 0, [PortfolioLookup(item, 10)])
    else
      Plan([FormatInvestorPortfolio(p)] + (if co != [] then [FormatCoInvestors(item, co)] else []),
           ["investor:" + item], |p|, [PortfolioLookup(item, 10), CoInvestorsLookup(item, 5)])
  }

  function SectorBlock(item: string, limit: nat, counted: bool, rows: seq<SectorRow>): Plan {
    if rows != [] then
      Plan([FormatSectorCompanies(item, rows)], ["sector:" + item], if counted then |rows| else 0, [SectorLookup(item, limit)])
    else Plan([], [], 0, [SectorLookup(item, limit)])
  }

  function CityBlock(item: string, limit: nat, rows: seq<CompanyRow>): Plan {
    if rows != [] then Plan([FormatCityCompanies(item, rows)], ["city:" + item], |rows|, [CityLookup(item, limit)])
    else Plan([], [], 0, [CityLookup(item, limit)])
  }

  function TopCompaniesBlock(limit: nat, rows: seq<CompanyRow>): Plan {
    if rows != [] then Plan([FormatTopCompanies(rows)], ["top_companies"], |rows|, [TopCompaniesLookup(limit)])
    else Plan([], [], 0, [TopCompaniesLookup(limit)])
  }

  function TopInvestorsBlock(limit: nat, rows: seq<InvestorRow>): Plan {
    if rows != [] then Plan([FormatTopInvestors(rows)], ["top_investors"], |rows|, [TopInvestorsLookup(limit)])
    else Plan([], [], 0, [TopInvestorsLookup(limit)])
  }

  function SectorStatsBlock(counted: bool, stats: seq<SectorStat>): Plan {
    if stats != [] then
      Plan([FormatSectorStats(stats)], ["sector_stats"], if counted then |stats| else 0, [SectorStatsLookup])
    else Plan([], [], 0, [SectorStatsLookup])
  }

  /// Location statistics are cut to ten rows before formatting and never
  /// counted.
  function LocationStatsBlock(stats: seq<LocationStat>): Plan {
    if stats != [] then Plan([FormatLocationStats(Take(stats, 10))], ["location_stats"], 0, [LocationStatsLookup])
    else Plan([], [], 0, [LocationStatsLookup])
  }

  function GraphStatsBlock(counted: bool, stats: Option<Stats>): Plan {
    if stats.Some? then Plan([FormatGraphStats(stats.value)], ["graph_stats"], if counted then 1 else 0, [GraphStatsLookup])
    else Plan([], [], 0, [GraphStatsLookup])
  }

  // ---------------------------------------------------------------------
  // The per-entity loops, one per kind of lookup
  //
  // Each loop is a run over the items and the answers their lookups got;
  // the answers are the graph queries applied to each item in turn.
  // ---------------------------------------------------------------------

  function DetailsRun(names: seq<string>, answers: seq<Option<Details>>): Plan
    requires |answers| == |names|
  {
    if names == [] then Nothing
    else
      var n := |names| - 1;
      Then(DetailsRun(names[..n], answers[..n]), DetailsBlock(names[n], answers[n]))
  }

  function CompanyAnswers(g: Graph, names: seq<string>): (r: seq<Option<Details>>)
    ensures |r| == |names|
  {
    seq(|names|, i requires 0 <= i < |names| => CompanyDetails(g, names[i]))
  }

  /// `for name in names: details = get_company_details(name) ...`
  function CompanyLoop(g: Graph, names: seq<string>): Plan {
    DetailsRun(names, CompanyAnswers(g, names))
  }

  function PortfolioRun(limit: nat, investors: seq<string>, answers: seq<seq<PortfolioRow>>): Plan
    requires |answers| == |investors|
  {
    if investors == [] then Nothing
    else
      var n := |investors| - 1;
      Then(PortfolioRun(limit, investors[..n], answers[..n]), PortfolioBlock(investors[n], limit, answers[n]))
  }

  function PortfolioAnswers(g: Graph, limit: nat, investors: seq<string>): (r: seq<seq<PortfolioRow>>)
    ensures |r| == |investors|
  {
    seq(|investors|, i requires 0 <= i < |investors| => InvestorPortfolio(g, investors[i], limit))
  }

  /// `for investor in investors: portfolio = get_investor_portfolio(investor, limit) ...`
  function PortfolioLoop(g: Graph, limit: nat, investors: seq<string>): Plan {
    PortfolioRun(limit, investors, PortfolioAnswers(g, limit, investors))
  }

  /// What the investor plan's iteration learns: the portfolio of ten and,
  /// only when it found rows, the co-investors of five.
  function InvestorAnswer(g: Graph, investor: string): (seq<PortfolioRow>, seq<CoInvestorRow>) {
    var p := InvestorPortfolio(g, investor, 10);
    (p, if p == [] then [] else CoInvestors(g, investor, 5))
  }

  function InvestorRun(investors: seq<string>, answers: seq<(seq<PortfolioRow>, seq<CoInvestorRow>)>): Plan
    requires |answers| == |investors|
  {
    if investors == [] then Nothing
    else
      var n := |investors| - 1;
      Then(InvestorRun(investors[..n], answers[..n]), InvestorBlock(investors[n], answers[n].0, answers[n].1))
  }

  function InvestorAnswers(g: Graph, investors: seq<string>): (r: seq<(seq<PortfolioRow>, seq<CoInvestorRow>)>)
    ensures |r| == |investors|
  {
    seq(|investors|, i requires 0 <= i < |investors| => InvestorAnswer(g, investors[i]))
  }

  function InvestorLoop(g: Graph, investors: seq<string>): Plan {
    InvestorRun(investors, InvestorAnswers(g, investors))
  }

  function SectorRun(limit: nat, counted: bool, sectors: seq<string>, answers: seq<seq<SectorRow>>): Plan
    requires |answers| == |sectors|
  {
    if sectors == [] then Nothing
    else
      var n := |sectors| - 1;
      Then(SectorRun(limit, counted, sectors[..n], answers[..n]), SectorBlock(sectors[n], limit, counted, answers[n]))
  }

  function SectorAnswers(g: Graph, limit: nat, sectors: seq<string>): (r: seq<seq<SectorRow>>)
    ensures |r| == |sectors|
  {
    seq(|sectors|, i requires 0 <= i < |sectors| => SectorCompanies(g, sectors[i], limit))
  }

  /// `for sector in sectors: companies = get_sector_companies(sector, limit) ...`
  function SectorLoop(g: Graph, limit: nat, counted: bool, sectors: seq<string>): Plan {
    SectorRun(limit, counted, sectors, SectorAnswers(g, limit, sectors))
  }

  function CityRun(limit: nat, cities: seq<string>, answers: seq<seq<CompanyRow>>): Plan
    requires |answers| == |cities|
  {
    if cities == [] then Nothing
    else
      var n := |cities| - 1;
      Then(CityRun(limit, cities[..n], answers[..n]), CityBlock(cities[n], limit, answers[n]))
  }

  function CityAnswers(g: Graph, limit: nat, cities: seq<string>): (r: seq<seq<CompanyRow>>)
    ensures |r| == |cities|
  {
    seq(|cities|, i requires 0 <= i < |cities| => CityCompanies(g, cities[i], limit))
  }

  /// `for location in locations: companies = get_city_companies(location, limit) ...`
  function CityLoop(g: Graph, limit: nat, cities: seq<string>): Plan {
    CityRun(limit, cities, CityAnswers(g, limit, cities))
  }

  // ---------------------------------------------------------------------
  // The plans
  // ---------------------------------------------------------------------

  /// `_build_company_context`: the first three companies, then every
  /// investor's top five holdings.
  function CompanyPlan(g: Graph, e: ExtractedEntities): Plan {
    Then(CompanyLoop(g, Take(e.companies, 3)), PortfolioLoop(g, 5, e.investors))
  }

  /// `_build_investor_context`: the first three investors; the top ten
  /// investors only when no investor was named.
  function InvestorPlan(g: Graph, e: ExtractedEntities): Plan {
    Then(InvestorLoop(g, Take(e.investors, 3)),
         if e.investors == [] then TopInvestorsBlock(10, TopInvestors(g, 10)) else Nothing)
  }

  /// `_build_sector_context`
  function SectorPlan(g: Graph, e: ExtractedEntities): Plan {
    Then(SectorLoop(g, 10, true, Take(e.sectors, 3)), SectorStatsBlock(false, SectorStats(g)))
  }

  /// `_build_location_context`
  function LocationPlan(g: Graph, e: ExtractedEntities): Plan {
    Then(CityLoop(g, 10, Take(e.locations, 3)), LocationStatsBlock(LocationStats(g)))
  }

  /// `_build_comparison_context`
  function ComparisonPlan(g: Graph, e: ExtractedEntities): Plan {
    Then(Then(CompanyLoop(g, Take(e.companies, 5)), SectorLoop(g, 5, true, Take(e.sectors, 3))),
         CityLoop(g, 5, Take(e.locations, 3)))
  }

  /// `_build_top_ranking_context`: the sector lists it adds are not counted.
  function TopRankingPlan(g: Graph, e: ExtractedEntities): Plan {
    Then(Then(TopCompaniesBlock(10, TopCompanies(g, 10)), TopInvestorsBlock(10, TopInvestors(g, 10))),
         SectorLoop(g, 5, false, Take(e.sectors, 2)))
  }

  /// `_build_aggregation_context`
  function AggregationPlan(g: Graph): Plan {
    Then(Then(GraphStatsBlock(true, GraphStats(g)), SectorStatsBlock(true, SectorStats(g))),
         LocationStatsBlock(LocationStats(g)))
  }

  /// `_build_general_context`
  function GeneralPlan(g: Graph): Plan {
    Then(GraphStatsBlock(false, GraphStats(g)), TopCompaniesBlock(5, TopCompanies(g, 5)))
  }

  /// The plan `build_context` dispatches to for the query's intent.
  function PlanFor(g: Graph, e: ExtractedEntities): Plan {
    match QueryIntent(e)
    case ComparisonIntent => ComparisonPlan(g, e)
    case TopRanking => TopRankingPlan(g, e)
    case AggregationIntent => AggregationPlan(g)
    case InvestorInfo => InvestorPlan(g, e)
    case SectorInfo => SectorPlan(g, e)
    case LocationInfo => LocationPlan(g, e)
    case CompanyInfo => CompanyPlan(g, e)
    case General => GeneralPlan(g)
  }

  /// The intent's plan, or the general plan when it produced no block.
  function Chosen(g: Graph, e: ExtractedEntities): Plan {
    var p := PlanFor(g, e);
    if p.parts == [] then GeneralPlan(g) else p
  }

  /// `build_context`: the chosen plan's blocks joined by blank lines.
  function Retrieve(g: Graph, query: string): RetrievalResult {
    var p := Chosen(g, Extract(query));
    RetrievalResult(Join(p.parts, "\n\n"), p.count, p.sources)
  }

  // ---------------------------------------------------------------------
  // Appending a block to the running lists
  // ---------------------------------------------------------------------

  method AddDetails(item: string, d: Option<Details>, acc: Plan) returns (next: Plan)
    ensures next == Then(acc, DetailsBlock(item, d))
  {
    ThenNothing(acc);
    next := acc.(lookups := acc.lookups + [DetailsLookup(item)]);
    if d.Some? {
      next := next.(parts := next.parts + [FormatCompanyDetails(d.value)], sources := next.sources + ["company:" + d.value.company],
                    count := next.count + 1);
    }
  }

  method AddPortfolio(item: string, limit: nat, portfolio: seq<PortfolioRow>, acc: Plan) returns (next: Plan)
    ensures next == Then(acc, PortfolioBlock(item, limit, portfolio))
  {
    ThenNothing(acc);
    next := acc.(lookups := acc.lookups + [PortfolioLookup(item, limit)]);
    if portfolio != [] {
      next := next.(parts := next.parts + [FormatInvestorPortfolio(portfolio)], sources := next.sources + ["investor:" + item],
                    count := next.count + |portfolio|);
    }
  }

  method AddInvestor(item: string, portfolio: seq<PortfolioRow>, co: seq<CoInvestorRow>, acc: Plan) returns (next: Plan)
    ensures next == Then(acc, InvestorBlock(item, portfolio, co))
  {
    ThenNothing(acc);
    next := acc.(lookups := acc.lookups + [PortfolioLookup(item, 10)]);
    if portfolio != [] {
      next := next.(parts := next.parts + [FormatInvestorPortfolio(portfolio)], sources := next.sources + ["investor:" + item],
                    count := next.count + |portfolio|, lookups := next.lookups + [CoInvestorsLookup(item, 5)]);
      assert acc.lookups + [PortfolioLookup(item, 10)] + [CoInvestorsLookup(item, 5)]
          == acc.lookups + [PortfolioLookup(item, 10), CoInvestorsLookup(item, 5)];
      if co != [] {
        assert acc.parts + [FormatInvestorPortfolio(portfolio)] + [FormatCoInvestors(item, co)]
            == acc.parts + ([FormatInvestorPortfolio(portfolio)] + [FormatCoInvestors(item, co)]);
        next := next.(parts := next.parts + [FormatCoInvestors(item, co)]);
      } else {
        assert [FormatInvestorPortfolio(portfolio)] + [] == [FormatInvestorPortfolio(portfolio)];
      }
    }
  }

  method AddSector(item: string, limit: nat, counted: bool, rows: seq<SectorRow>, acc: Plan) returns (next: Plan)
    ensures next == Then(acc, SectorBlock(item, limit, counted, rows))
  {
    ThenNothing(acc);
    next := acc.(lookups := acc.lookups + [SectorLookup(item, limit)]);
    if rows != [] {
      next := next.(parts := next.parts + [FormatSectorCompanies(item, rows)], sources := next.sources + ["sector:" + item]);
      if counted {
        next := next.(count := next.count + |rows|);
      }
    }
  }

  method AddCity(item: string, limit: nat, rows: seq<CompanyRow>, acc: Plan) returns (next: Plan)
    ensures next == Then(acc, CityBlock(item, limit, rows))
  {
    ThenNothing(acc);
    next := acc.(lookups := acc.lookups + [CityLookup(item, limit)]);
    if rows != [] {
      next := next.(parts := next.parts + [FormatCityCompanies(item, rows)], sources := next.sources + ["city:" + item],
                    count := next.count + |rows|);
    }
  }

  method AddTopCompanies(limit: nat, rows: seq<CompanyRow>, acc: Plan) returns (next: Plan)
    ensures next == Then(acc, TopCompaniesBlock(limit, rows))
  {
    ThenNothing(acc);
    next := acc.(lookups := acc.lookups + [TopCompaniesLookup(limit)]);
    if rows != [] {
      next := next.(parts := next.parts + [FormatTopCompanies(rows)], sources := next.sources + ["top_companies"],
                    count := next.count + |rows|);
    }
  }

  method AddTopInvestors(limit: nat, rows: seq<InvestorRow>, acc: Plan) returns (next: Plan)
    ensures next == Then(acc, TopInvestorsBlock(limit, rows))
  {
    ThenNothing(acc);
    next := acc.(lookups := acc.lookups + [TopInvestorsLookup(limit)]);
    if rows != [] {
      next := next.(parts := next.parts + [FormatTopInvestors(rows)], sources := next.sources + ["top_investors"],
                    count := next.count + |rows|);
    }
  }

  method AddSectorStats(counted: bool, stats: seq<SectorStat>, acc: Plan) returns (next: Plan)
    ensures next == Then(acc, SectorStatsBlock(counted, stats))
  {
    ThenNothing(acc);
    next := acc.(lookups := acc.lookups + [SectorStatsLookup]);
    if stats != [] {
      next := next.(parts := next.parts + [FormatSectorStats(stats)], sources := next.sources + ["sector_stats"]);
      if counted {
        next := next.(count := next.count + |stats|);
      }
    }
  }

  method AddLocationStats(stats: seq<LocationStat>, acc: Plan) returns (next: Plan)
    ensures next == Then(acc, LocationStatsBlock(stats))
  {
    ThenNothing(acc);
    next := acc.(lookups := acc.lookups + [LocationStatsLookup]);
    if stats != [] {
      next := next.(parts := next.parts + [FormatLocationStats(Take(stats, 10))], sources := next.sources + ["location_stats"]);
    }
  }

  method AddGraphStats(counted: bool, stats: Option<Stats>, acc: Plan) returns (next: Plan)
    ensures next == Then(acc, GraphStatsBlock(counted, stats))
  {
    ThenNothing(acc);
    next := acc.(lookups := acc.lookups + [GraphStatsLookup]);
    if stats.Some? {
      next := next.(parts := next.parts + [FormatGraphStats(stats.value)], sources := next.sources + ["graph_stats"]);
      if counted {
        next := next.(count := next.count + 1);
      }
    }
  }

  // ---------------------------------------------------------------------
  // The imperative loops and plans
  // ---------------------------------------------------------------------

  // One more item of a run is one more block after the run so far.

  lemma DetailsRunStep(names: seq<string>, answers: seq<Option<Details>>, i: nat)
    requires |answers| == |names| && i < |names|
    ensures DetailsRun(names[..i + 1], answers[..i + 1]) == Then(DetailsRun(names[..i], answers[..i]), DetailsBlock(names[i], answers[i]))
  {
    assert names[..i + 1][..i] == names[..i] && answers[..i + 1][..i] == answers[..i];
  }

  lemma PortfolioRunStep(limit: nat, investors: seq<string>, answers: seq<seq<PortfolioRow>>, i: nat)
    requires |answers| == |investors| && i < |investors|
    ensures PortfolioRun(limit, investors[..i + 1], answers[..i + 1])
         == Then(PortfolioRun(limit, investors[..i], answers[..i]), PortfolioBlock(investors[i], limit, answers[i]))
  {
    assert investors[..i + 1][..i] == investors[..i] && answers[..i + 1][..i] == answers[..i];
  }

  lemma InvestorRunStep(investors: seq<string>, answers: seq<(seq<PortfolioRow>, seq<CoInvestorRow>)>, i: nat)
    requires |answers| == |investors| && i < |investors|
    ensures InvestorRun(investors[..i + 1], answers[..i + 1])
         == Then(InvestorRun(investors[..i], answers[..i]), InvestorBlock(investors[i], answers[i].0, answers[i].1))
  {
    assert investors[..i + 1][..i] == investors[..i] && answers[..i + 1][..i] == answers[..i];
  }

  lemma SectorRunStep(limit: nat, counted: bool, sectors: seq<string>, answers: seq<seq<SectorRow>>, i: nat)
    requires |answers| == |sectors| && i < |sectors|
    ensures SectorRun(limit, counted, sectors[..i + 1], answers[..i + 1])
         == Then(SectorRun(limit, counted, sectors[..i], answers[..i]), SectorBlock(sectors[i], limit, counted, answers[i]))
  {
    assert sectors[..i + 1][..i] == sectors[..i] && answers[..i + 1][..i] == answers[..i];
  }

  lemma CityRunStep(limit: nat, cities: seq<string>, answers: seq<seq<CompanyRow>>, i: nat)
    requires |answers| == |cities| && i < |cities|
    ensures CityRun(limit, cities[..i + 1], answers[..i + 1])
         == Then(CityRun(limit, cities[..i], answers[..i]), CityBlock(cities[i], limit, answers[i]))
  {
    assert cities[..i + 1][..i] == cities[..i] && answers[..i + 1][..i] == answers[..i];
  }

  method LookUpCompanies(g: Graph, names: seq<string>, acc: Plan) returns (next: Plan)
    ensures next == Then(acc, CompanyLoop(g, names))
  {
    ghost var answers := CompanyAnswers(g, names);
    ThenNothing(acc);
    next := acc;
    for i := 0 to |names|
      invariant next == Then(acc, DetailsRun(names[..i], answers[..i]))
    {
      DetailsRunStep(names, answers, i);
      var details := CompanyDetails(g, names[i]);
      assert details == answers[i];
      ThenAssoc(acc, DetailsRun(names[..i], answers[..i]), DetailsBlock(names[i], details));
      next := AddDetails(names[i], details, next);
    }
    assert names[..|names|] == names && answers[..|names|] == answers;
  }

  method LookUpPortfolios(g: Graph, limit: nat, investors: seq<string>, acc: Plan) returns (next: Plan)
    ensures next == Then(acc, PortfolioLoop(g, limit, investors))
  {
    ghost var answers := PortfolioAnswers(g, limit, investors);
    ThenNothing(acc);
    next := acc;
    for i := 0 to |investors|
      invariant next == Then(acc, PortfolioRun(limit, investors[..i], answers[..i]))
    {
      PortfolioRunStep(limit, investors, answers, i);
      var portfolio := InvestorPortfolio(g, investors[i], limit);
      assert portfolio == answers[i];
      ThenAssoc(acc, PortfolioRun(limit, investors[..i], answers[..i]), PortfolioBlock(investors[i], limit, portfolio));
      next := AddPortfolio(investors[i], limit, portfolio, next);
    }
    assert investors[..|investors|] == investors && answers[..|investors|] == answers;
  }

  /// One iteration of the investor plan's loop.
  method VisitInvestor(g: Graph, investor: string, acc: Plan) returns (next: Plan)
    ensures next == Then(acc, InvestorBlock(investor, InvestorAnswer(g, investor).0, InvestorAnswer(g, investor).1))
  {
    var portfolio := InvestorPortfolio(g, investor, 10);
    var co: seq<CoInvestorRow> := [];
    if portfolio != [] {
      co := CoInvestors(g, investor, 5);
    }
    next := AddInvestor(investor, portfolio, co, acc);
  }

  method LookUpInvestors(g: Graph, investors: seq<string>, acc: Plan) returns (next: Plan)
    ensures next == Then(acc, InvestorLoop(g, investors))
  {
    ghost var answers := InvestorAnswers(g, investors);
    ThenNothing(acc);
    next := acc;
    for i := 0 to |investors|
      invariant next == Then(acc, InvestorRun(investors[..i], answers[..i]))
    {
      InvestorRunStep(investors, answers, i);
      assert answers[i] == InvestorAnswer(g, investors[i]);
      ThenAssoc(acc, InvestorRun(investors[..i], answers[..i]), InvestorBlock(investors[i], answers[i].0, answers[i].1));
      next := VisitInvestor(g, investors[i], next);
    }
    assert investors[..|investors|] == investors && answers[..|investors|] == answers;
  }

  method LookUpSectors(g: Graph, limit: nat, counted: bool, sectors: seq<string>, acc: Plan) returns (next: Plan)
    ensures next == Then(acc, SectorLoop(g, limit, counted, sectors))
  {
    ghost var answers := SectorAnswers(g, limit, sectors);
    ThenNothing(acc);
    next := acc;
    for i := 0 to |sectors|
      invariant next == Then(acc, SectorRun(limit, counted, sectors[..i], answers[..i]))
    {
      SectorRunStep(limit, counted, sectors, answers, i);
      var rows := SectorCompanies(g, sectors[i], limit);
      assert rows == answers[i];
      ThenAssoc(acc, SectorRun(limit, counted, sectors[..i], answers[..i]), SectorBlock(sectors[i], limit, counted, rows));
      next := AddSector(sectors[i], limit, counted, rows, next);
    }
    assert sectors[..|sectors|] == sectors && answers[..|sectors|] == answers;
  }

  method LookUpCities(g: Graph, limit: nat, cities: seq<string>, acc: Plan) returns (next: Plan)
    ensures next == Then(acc, CityLoop(g, limit, cities))
  {
    ghost var answers := CityAnswers(g, limit, cities);
    ThenNothing(acc);
    next := acc;
    for i := 0 to |cities|
      invariant next == Then(acc, CityRun(limit, cities[..i], answers[..i]))
    {
      CityRunStep(limit, cities, answers, i);
      var rows := CityCompanies(g, cities[i], limit);
      assert rows == answers[i];
      ThenAssoc(acc, CityRun(limit, cities[..i], answers[..i]), CityBlock(cities[i], limit, rows));
      next := AddCity(cities[i], limit, rows, next);
    }
    assert cities[..|cities|] == cities && answers[..|cities|] == answers;
  }

  method BuildCompanyContext(g: Graph, e: ExtractedEntities) returns (p: Plan)
    ensures p == CompanyPlan(g, e)
  {
    p := LookUpCompanies(g, Take(e.companies, 3), Nothing);
    NothingThen(CompanyLoop(g, Take(e.companies, 3)));
    p := LookUpPortfolios(g, 5, e.investors, p);
  }

  method BuildInvestorContext(g: Graph, e: ExtractedEntities) returns (p: Plan)
    ensures p == InvestorPlan(g, e)
  {
    p := LookUpInvestors(g, Take(e.investors, 3), Nothing);
    NothingThen(InvestorLoop(g, Take(e.investors, 3)));
    p := AddTopInvestorsUnlessNamed(g, e, p);
  }

  /// The investor plan's closing `if not entities.investors` block.
  method AddTopInvestorsUnlessNamed(g: Graph, e: ExtractedEntities, acc: Plan) returns (next: Plan)
    ensures next == Then(acc, if e.investors == [] then TopInvestorsBlock(10, TopInvestors(g, 10)) else Nothing)
  {
    if e.investors == [] {
      var top := TopInvestors(g, 10);
      next := AddTopInvestors(10, top, acc);
    } else {
      ThenNothing(acc);
      next := acc;
    }
  }

  method BuildSectorContext(g: Graph, e: ExtractedEntities) returns (p: Plan)
    ensures p == SectorPlan(g, e)
  {
    p := LookUpSectors(g, 10, true, Take(e.sectors, 3), Nothing);
    NothingThen(SectorLoop(g, 10, true, Take(e.sectors, 3)));
    var stats := SectorStats(g);
    p := AddSectorStats(false, stats, p);
  }

  method BuildLocationContext(g: Graph, e: ExtractedEntities) returns (p: Plan)
    ensures p == LocationPlan(g, e)
  {
    p := LookUpCities(g, 10, Take(e.locations, 3), Nothing);
    NothingThen(CityLoop(g, 10, Take(e.locations, 3)));
    var stats := LocationStats(g);
    p := AddLocationStats(stats, p);
  }

  method BuildComparisonContext(g: Graph, e: ExtractedEntities) returns (p: Plan)
    ensures p == ComparisonPlan(g, e)
  {
    p := LookUpCompanies(g, Take(e.companies, 5), Nothing);
    NothingThen(CompanyLoop(g, Take(e.companies, 5)));
    p := LookUpSectors(g, 5, true, Take(e.sectors, 3), p);
    p := LookUpCities(g, 5, Take(e.locations, 3), p);
  }

  method BuildTopRankingContext(g: Graph, e: ExtractedEntities) returns (p: Plan)
    ensures p == TopRankingPlan(g, e)
  {
    var companies := TopCompanies(g, 10);
    p := AddTopCompanies(10, companies, Nothing);
    NothingThen(TopCompaniesBlock(10, companies));
    var investors := TopInvestors(g, 10);
    p := AddTopInvestors(10, investors, p);
    p := LookUpSectors(g, 5, false, Take(e.sectors, 2), p);
  }

  method BuildAggregationContext(g: Graph) returns (p: Plan)
    ensures p == AggregationPlan(g)
  {
    var stats := GraphStats(g);
    p := AddGraphStats(true, stats, Nothing);
    NothingThen(GraphStatsBlock(true, stats));
    var sectorStats := SectorStats(g);
    p := AddSectorStats(true, sectorStats, p);
    var locationStats := LocationStats(g);
    p := AddLocationStats(locationStats, p);
  }

  method BuildGeneralContext(g: Graph) returns (p: Plan)
    ensures p == GeneralPlan(g)
  {
    var stats := GraphStats(g);
    p := AddGraphStats(false, stats, Nothing);
    NothingThen(GraphStatsBlock(false, stats));
    var top := TopCompanies(g, 5);
    p := AddTopCompanies(5, top, p);
  }

  /// `build_context`: extract, dispatch on the intent, fall back to the
  /// general plan when the intent's plan produced no block, and join.
  method BuildContext(g: Graph, query: string) returns (r: RetrievalResult)
    ensures r == Retrieve(g, query)
  {
    var e := ExtractEntities(query);
    var p := BuildIntentContext(g, e);
    if p.parts == [] {
      p := BuildGeneralContext(g);
    }
    r := RetrievalResult(Join(p.parts, "\n\n"), p.count, p.sources);
  }

  /// The dispatch on the query's intent.
  method BuildIntentContext(g: Graph, e: ExtractedEntities) returns (p: Plan)
    ensures p == PlanFor(g, e)
  {
    match QueryIntent(e) {
      case ComparisonIntent => p := BuildComparisonContext(g, e);
      case TopRanking => p := BuildTopRankingContext(g, e);
      case AggregationIntent => p := BuildAggregationContext(g);
      case InvestorInfo => p := BuildInvestorContext(g, e);
      case SectorInfo => p := BuildSectorContext(g, e);
      case LocationInfo => p := BuildLocationContext(g, e);
      case CompanyInfo => p := BuildCompanyContext(g, e);
      case General => p := BuildGeneralContext(g);
    }
  }

  // ---------------------------------------------------------------------
  // Each block, whatever its lookup returned: the lookups it records and
  // non-empty text
  // ---------------------------------------------------------------------

  /// Every block a plan returns is non-empty text.
  predicate Solid(p: Plan) {
    forall i :: 0 <= i < |p.parts| ==> p.parts[i] != ""
  }

  lemma BlockNonEmpty(header: string, lines: seq<string>)
    requires header != ""
    ensures Block(header, lines) != ""
  {
    var all := [header] + lines;
    assert all[0] == header;
    if |all| > 1 {
      assert Block(header, lines) == header + "\n" + Join(all[1..], "\n");
    }
  }

  lemma DetailsBlockFacts(item: string, d: Option<Details>)
    ensures DetailsBlock(item, d).lookups == [DetailsLookup(item)]
    ensures Solid(DetailsBlock(item, d))
  {
    if d.Some? {
      BlockNonEmpty("**Company: " + d.value.company + "**", CompanyDetailsLines(d.value));
    }
  }

  lemma PortfolioBlockFacts(item: string, limit: nat, p: seq<PortfolioRow>)
    ensures PortfolioBlock(item, limit, p).lookups == [PortfolioLookup(item, limit)]
    ensures Solid(PortfolioBlock(item, limit, p))
  {
  }

  lemma InvestorBlockFacts(item: string, p: seq<PortfolioRow>, co: seq<CoInvestorRow>)
    ensures InvestorBlock(item, p, co).lookups == InvestorStep(item, p)
    ensures Solid(InvestorBlock(item, p, co))
  {
    InvestorBlockSolid(item, p, co);
  }

  lemma InvestorBlockSolid(item: string, p: seq<PortfolioRow>, co: seq<CoInvestorRow>)
    ensures Solid(InvestorBlock(item, p, co))
  {
    if p != [] {
      var first := FormatInvestorPortfolio(p);
      assert first != "";
      if co != [] {
        var second := FormatCoInvestors(item, co);
        BlockNonEmpty("**Co-investors of " + item + ":**", Map(co, CoInvestorLine));
        assert InvestorBlock(item, p, co).parts == [first, second];
      } else {
        assert InvestorBlock(item, p, co).parts == [first];
      }
    }
  }

  lemma TopInvestorsBlockLookup(rows: seq<InvestorRow>)
    ensures TopInvestorsBlock(10, rows).lookups == [TopInvestorsLookup(10)]
  {
  }

  lemma SectorBlockFacts(item: string, limit: nat, counted: bool, rows: seq<SectorRow>)
    ensures SectorBlock(item, limit, counted, rows).lookups == [SectorLookup(item, limit)]
    ensures Solid(SectorBlock(item, limit, counted, rows))
  {
  }

  lemma CityBlockFacts(item: string, limit: nat, rows: seq<CompanyRow>)
    ensures CityBlock(item, limit, rows).lookups == [CityLookup(item, limit)]
    ensures Solid(CityBlock(item, limit, rows))
  {
  }

  lemma TopCompaniesBlockSolid(limit: nat, rows: seq<CompanyRow>)
    ensures Solid(TopCompaniesBlock(limit, rows))
  {
    BlockNonEmpty(TopCompaniesHeader, TopCompanyLines(rows));
  }

  lemma TopInvestorsBlockSolid(limit: nat, rows: seq<InvestorRow>)
    ensures Solid(TopInvestorsBlock(limit, rows))
  {
    BlockNonEmpty(TopInvestorsHeader, TopInvestorLines(rows));
  }

  lemma SectorStatsBlockSolid(counted: bool, stats: seq<SectorStat>)
    ensures Solid(SectorStatsBlock(counted, stats))
  {
    BlockNonEmpty(SectorStatsHeader, Map(Take(stats, 8), SectorStatLine));
  }

  lemma LocationStatsBlockSolid(stats: seq<LocationStat>)
    ensures Solid(LocationStatsBlock(stats))
  {
    BlockNonEmpty(LocationStatsHeader, Map(Take(Take(stats, 10), 8), LocationStatLine));
  }

  lemma GraphStatsBlockSolid(counted: bool, stats: Option<Stats>)
    ensures Solid(GraphStatsBlock(counted, stats))
  {
    if stats.Some? {
      BlockNonEmpty(GraphStatsHeader, GraphStatsLines(stats.value));
    }
  }

  /// The two top-ten blocks that open the top-ranking plan.
  lemma TopBlocksLookups(companies: seq<CompanyRow>, investors: seq<InvestorRow>)
    ensures Then(TopCompaniesBlock(10, companies), TopInvestorsBlock(10, investors)).lookups
         == [TopCompaniesLookup(10), TopInvestorsLookup(10)]
  {
    var a, b := TopCompaniesBlock(10, companies), TopInvestorsBlock(10, investors);
    assert a.lookups == [TopCompaniesLookup(10)];
    assert b.lookups == [TopInvestorsLookup(10)];
    assert Then(a, b).lookups == a.lookups + b.lookups;
  }

  // ---------------------------------------------------------------------
  // What each loop looks up, and that its blocks are non-empty
  // ---------------------------------------------------------------------

  lemma ThenSolid(a: Plan, b: Plan)
    requires Solid(a) && Solid(b)
    ensures Solid(Then(a, b))
  {
    var r := Then(a, b);
    forall i | 0 <= i < |r.parts|
      ensures r.parts[i] != ""
    {
      if i >= |a.parts| {
        assert r.parts[i] == b.parts[i - |a.parts|];
      }
    }
  }

  /// `ls` looks up the details of each of `names`, in order.
  predicate LooksUpDetails(ls: seq<Lookup>, names: seq<string>) {
    |ls| == |names| && forall i :: 0 <= i < |ls| ==> ls[i] == DetailsLookup(names[i])
  }

  /// `ls` looks up the portfolio of each of `investors`, in order.
  predicate LooksUpPortfolios(ls: seq<Lookup>, investors: seq<string>, limit: nat) {
    |ls| == |investors| && forall i :: 0 <= i < |ls| ==> ls[i] == PortfolioLookup(investors[i], limit)
  }

  /// `ls` looks up the companies of each of `sectors`, in order.
  predicate LooksUpSectors(ls: seq<Lookup>, sectors: seq<string>, limit: nat) {
    |ls| == |sectors| && forall i :: 0 <= i < |ls| ==> ls[i] == SectorLookup(sectors[i], limit)
  }

  /// `ls` looks up the companies of each of `cities`, in order.
  predicate LooksUpCities(ls: seq<Lookup>, cities: seq<string>, limit: nat) {
    |ls| == |cities| && forall i :: 0 <= i < |ls| ==> ls[i] == CityLookup(cities[i], limit)
  }

  // Looking up one more item after the others keeps the lookups in order.

  lemma DetailsLookupsAppend(ls: seq<Lookup>, xs: seq<string>)
    requires xs != [] && LooksUpDetails(ls, xs[..|xs| - 1])
    ensures LooksUpDetails(ls + [DetailsLookup(xs[|xs| - 1])], xs)
  {
    var n := |xs| - 1;
    var r := ls + [DetailsLookup(xs[n])];
    forall i | 0 <= i < |r|
      ensures r[i] == DetailsLookup(xs[i])
    {
      if i < n {
        assert r[i] == ls[i] && xs[..n][i] == xs[i];
      }
    }
  }

  lemma PortfolioLookupsAppend(ls: seq<Lookup>, xs: seq<string>, limit: nat)
    requires xs != [] && LooksUpPortfolios(ls, xs[..|xs| - 1], limit)
    ensures LooksUpPortfolios(ls + [PortfolioLookup(xs[|xs| - 1], limit)], xs, limit)
  {
    var n := |xs| - 1;
    var r := ls + [PortfolioLookup(xs[n], limit)];
    forall i | 0 <= i < |r|
      ensures r[i] == PortfolioLookup(xs[i], limit)
    {
      if i < n {
        assert r[i] == ls[i] && xs[..n][i] == xs[i];
      }
    }
  }

  lemma SectorLookupsAppend(ls: seq<Lookup>, xs: seq<string>, limit: nat)
    requires xs != [] && LooksUpSectors(ls, xs[..|xs| - 1], limit)
    ensures LooksUpSectors(ls + [SectorLookup(xs[|xs| - 1], limit)], xs, limit)
  {
    var n := |xs| - 1;
    var r := ls + [SectorLookup(xs[n], limit)];
    forall i | 0 <= i < |r|
      ensures r[i] == SectorLookup(xs[i], limit)
    {
      if i < n {
        assert r[i] == ls[i] && xs[..n][i] == xs[i];
      }
    }
  }

  lemma CityLookupsAppend(ls: seq<Lookup>, xs: seq<string>, limit: nat)
    requires xs != [] && LooksUpCities(ls, xs[..|xs| - 1], limit)
    ensures LooksUpCities(ls + [CityLookup(xs[|xs| - 1], limit)], xs, limit)
  {
    var n := |xs| - 1;
    var r := ls + [CityLookup(xs[n], limit)];
    forall i | 0 <= i < |r|
      ensures r[i] == CityLookup(xs[i], limit)
    {
      if i < n {
        assert r[i] == ls[i] && xs[..n][i] == xs[i];
      }
    }
  }

  /// The company loop looks up each name once, in order.
  lemma {:induction false} DetailsRunLookups(names: seq<string>, answers: seq<Option<Details>>)
    requires |answers| == |names|
    ensures LooksUpDetails(DetailsRun(names, answers).lookups, names)
  {
    if names != [] {
      var n := |names| - 1;
      var run := DetailsRun(names[..n], answers[..n]);
      var block := DetailsBlock(names[n], answers[n]);
      DetailsRunLookups(names[..n], answers[..n]);
      assert block.lookups == [DetailsLookup(names[n])];
      assert DetailsRun(names, answers) == Then(run, block);
      DetailsLookupsAppend(run.lookups, names);
    }
  }

  /// Every block the company loop adds is non-empty.
  lemma {:induction false} DetailsRunSolid(names: seq<string>, answers: seq<Option<Details>>)
    requires |answers| == |names|
    ensures Solid(DetailsRun(names, answers))
  {
    if names != [] {
      var n := |names| - 1;
      var run := DetailsRun(names[..n], answers[..n]);
      var block := DetailsBlock(names[n], answers[n]);
      DetailsRunSolid(names[..n], answers[..n]);
      DetailsBlockFacts(names[n], answers[n]);
      ThenSolid(run, block);
      assert DetailsRun(names, answers) == Then(run, block);
    }
  }

  lemma {:induction false} PortfolioRunLookups(limit: nat, investors: seq<string>, answers: seq<seq<PortfolioRow>>)
    requires |answers| == |investors|
    ensures LooksUpPortfolios(PortfolioRun(limit, investors, answers).lookups, investors, limit)
  {
    if investors != [] {
      var n := |investors| - 1;
      var run := PortfolioRun(limit, investors[..n], answers[..n]);
      var block := PortfolioBlock(investors[n], limit, answers[n]);
      PortfolioRunLookups(limit, investors[..n], answers[..n]);
      assert block.lookups == [PortfolioLookup(investors[n], limit)];
      assert PortfolioRun(limit, investors, answers) == Then(run, block);
      PortfolioLookupsAppend(run.lookups, investors, limit);
    }
  }

  lemma {:induction false} PortfolioRunSolid(limit: nat, investors: seq<string>, answers: seq<seq<PortfolioRow>>)
    requires |answers| == |investors|
    ensures Solid(PortfolioRun(limit, investors, answers))
  {
    if investors != [] {
      var n := |investors| - 1;
      var run := PortfolioRun(limit, investors[..n], answers[..n]);
      var block := PortfolioBlock(investors[n], limit, answers[n]);
      PortfolioRunSolid(limit, investors[..n], answers[..n]);
      PortfolioBlockFacts(investors[n], limit, answers[n]);
      ThenSolid(run, block);
      assert PortfolioRun(limit, investors, answers) == Then(run, block);
    }
  }

  lemma {:induction false} SectorRunLookups(limit: nat, counted: bool, sectors: seq<string>, answers: seq<seq<SectorRow>>)
    requires |answers| == |sectors|
    ensures LooksUpSectors(SectorRun(limit, counted, sectors, answers).lookups, sectors, limit)
  {
    if sectors != [] {
      var n := |sectors| - 1;
      var run := SectorRun(limit, counted, sectors[..n], answers[..n]);
      var block := SectorBlock(sectors[n], limit, counted, answers[n]);
      SectorRunLookups(limit, counted, sectors[..n], answers[..n]);
      assert block.lookups == [SectorLookup(sectors[n], limit)];
      assert SectorRun(limit, counted, sectors, answers) == Then(run, block);
      SectorLookupsAppend(run.lookups, sectors, limit);
    }
  }

  lemma {:induction false} SectorRunSolid(limit: nat, counted: bool, sectors: seq<string>, answers: seq<seq<SectorRow>>)
    requires |answers| == |sectors|
    ensures Solid(SectorRun(limit, counted, sectors, answers))
  {
    if sectors != [] {
      var n := |sectors| - 1;
      var run := SectorRun(limit, counted, sectors[..n], answers[..n]);
      var block := SectorBlock(sectors[n], limit, counted, answers[n]);
      SectorRunSolid(limit, counted, sectors[..n], answers[..n]);
      SectorBlockFacts(sectors[n], limit, counted, answers[n]);
      ThenSolid(run, block);
      assert SectorRun(limit, counted, sectors, answers) == Then(run, block);
    }
  }

  lemma {:induction false} CityRunLookups(limit: nat, cities: seq<string>, answers: seq<seq<CompanyRow>>)
    requires |answers| == |cities|
    ensures LooksUpCities(CityRun(limit, cities, answers).lookups, cities, limit)
  {
    if cities != [] {
      var n := |cities| - 1;
      var run := CityRun(limit, cities[..n], answers[..n]);
      var block := CityBlock(cities[n], limit, answers[n]);
      CityRunLookups(limit, cities[..n], answers[..n]);
      assert block.lookups == [CityLookup(cities[n], limit)];
      assert CityRun(limit, cities, answers) == Then(run, block);
      CityLookupsAppend(run.lookups, cities, limit);
    }
  }

  lemma {:induction false} CityRunSolid(limit: nat, cities: seq<string>, answers: seq<seq<CompanyRow>>)
    requires |answers| == |cities|
    ensures Solid(CityRun(limit, cities, answers))
  {
    if cities != [] {
      var n := |cities| - 1;
      var run := CityRun(limit, cities[..n], answers[..n]);
      var block := CityBlock(cities[n], limit, answers[n]);
      CityRunSolid(limit, cities[..n], answers[..n]);
      CityBlockFacts(cities[n], limit, answers[n]);
      ThenSolid(run, block);
      assert CityRun(limit, cities, answers) == Then(run, block);
    }
  }

  /// The lookups one investor costs: the portfolio of ten and, when it
  /// found rows, the co-investors of five.
  function InvestorStep(x: string, portfolio: seq<PortfolioRow>): seq<Lookup> {
    if portfolio == [] then [PortfolioLookup(x, 10)] else [PortfolioLookup(x, 10), CoInvestorsLookup(x, 5)]
  }

  /// `ls` holds only portfolio lookups of ten and co-investor lookups of
  /// five, each for one of `xs`.
  predicate OnlyInvestorLookups(ls: seq<Lookup>, xs: seq<string>) {
    forall i :: 0 <= i < |ls| ==>
      ((ls[i].PortfolioLookup? && ls[i].limit == 10) || (ls[i].CoInvestorsLookup? && ls[i].limit == 5))
      && ls[i].name in xs
  }

  /// Every co-investor lookup in `ls` comes right after the portfolio
  /// lookup of the same investor, and that portfolio found rows.
  predicate CoInvestorsAfterFound(ls: seq<Lookup>, xs: seq<string>, answers: seq<(seq<PortfolioRow>, seq<CoInvestorRow>)>)
    requires |answers| == |xs|
  {
    forall i :: 0 <= i < |ls| && ls[i].CoInvestorsLookup? ==>
      0 < i && ls[i - 1] == PortfolioLookup(ls[i].name, 10)
      && exists j :: 0 <= j < |xs| && xs[j] == ls[i].name && answers[j].0 != []
  }

  /// Every one of `xs` has its portfolio of ten looked up in `ls`.
  predicate LooksUpEveryPortfolio(ls: seq<Lookup>, xs: seq<string>) {
    forall j :: 0 <= j < |xs| ==> PortfolioLookup(xs[j], 10) in ls
  }

  lemma OnlyInvestorLookupsAppend(before: seq<Lookup>, init: seq<string>, x: string, portfolio: seq<PortfolioRow>)
    requires OnlyInvestorLookups(before, init)
    ensures OnlyInvestorLookups(before + InvestorStep(x, portfolio), init + [x])
  {
    var ls, xs := before + InvestorStep(x, portfolio), init + [x];
    forall i | 0 <= i < |ls|
      ensures ls[i].name in xs
    {
      if i < |before| {
        assert ls[i] == before[i];
        assert before[i].name in init;
      } else {
        assert ls[i].name == x && xs[|init|] == x;
      }
    }
  }

  lemma CoInvestorsAfterFoundAppend(before: seq<Lookup>, init: seq<string>, ainit: seq<(seq<PortfolioRow>, seq<CoInvestorRow>)>,
                                    x: string, a: (seq<PortfolioRow>, seq<CoInvestorRow>))
    requires |ainit| == |init| && CoInvestorsAfterFound(before, init, ainit)
    ensures CoInvestorsAfterFound(before + InvestorStep(x, a.0), init + [x], ainit + [a])
  {
    var ls, xs, answers := before + InvestorStep(x, a.0), init + [x], ainit + [a];
    forall i | 0 <= i < |ls| && ls[i].CoInvestorsLookup?
      ensures 0 < i && ls[i - 1] == PortfolioLookup(ls[i].name, 10)
      ensures exists j :: 0 <= j < |xs| && xs[j] == ls[i].name && answers[j].0 != []
    {
      if i < |before| {
        assert ls[i] == before[i] && ls[i - 1] == before[i - 1];
        var j :| 0 <= j < |init| && init[j] == before[i].name && ainit[j].0 != [];
        assert xs[j] == init[j] && answers[j] == ainit[j];
      } else {
        assert i == |before| + 1 && a.0 != [];
        assert xs[|init|] == x && answers[|init|] == a;
      }
    }
  }

  lemma LooksUpEveryPortfolioAppend(before: seq<Lookup>, init: seq<string>, x: string, portfolio: seq<PortfolioRow>)
    requires LooksUpEveryPortfolio(before, init)
    ensures LooksUpEveryPortfolio(before + InvestorStep(x, portfolio), init + [x])
  {
    var ls, xs := before + InvestorStep(x, portfolio), init + [x];
    assert ls[|before|] == PortfolioLookup(x, 10);
    forall j | 0 <= j < |xs|
      ensures PortfolioLookup(xs[j], 10) in ls
    {
      if j < |init| {
        assert xs[j] == init[j];
        var k :| 0 <= k < |before| && before[k] == PortfolioLookup(init[j], 10);
        assert ls[k] == before[k];
      }
    }
  }

  /// The lookups of the investor loop, one step per investor.
  function InvestorTrace(xs: seq<string>, answers: seq<(seq<PortfolioRow>, seq<CoInvestorRow>)>): seq<Lookup>
    requires |answers| == |xs|
  {
    if xs == [] then []
    else
      var n := |xs| - 1;
      InvestorTrace(xs[..n], answers[..n]) + InvestorStep(xs[n], answers[n].0)
  }

  lemma {:induction false} InvestorRunTrace(xs: seq<string>, answers: seq<(seq<PortfolioRow>, seq<CoInvestorRow>)>)
    requires |answers| == |xs|
    ensures InvestorRun(xs, answers).lookups == InvestorTrace(xs, answers)
  {
    if xs != [] {
      var n := |xs| - 1;
      InvestorRunTrace(xs[..n], answers[..n]);
      InvestorBlockFacts(xs[n], answers[n].0, answers[n].1);
    }
  }

  /// The investor loop issues a portfolio lookup of ten per investor and a
  /// co-investor lookup of five right after each portfolio that found rows.
  lemma {:induction false} InvestorTraceFacts(xs: seq<string>, answers: seq<(seq<PortfolioRow>, seq<CoInvestorRow>)>)
    requires |answers| == |xs|
    ensures OnlyInvestorLookups(InvestorTrace(xs, answers), xs)
    ensures CoInvestorsAfterFound(InvestorTrace(xs, answers), xs, answers)
    ensures LooksUpEveryPortfolio(InvestorTrace(xs, answers), xs)
  {
    if xs != [] {
      var n := |xs| - 1;
      var init, ainit, x, a := xs[..n], answers[..n], xs[n], answers[n];
      InvestorTraceFacts(init, ainit);
      var before := InvestorTrace(init, ainit);
      assert xs == init + [x] && answers == ainit + [a];
      OnlyInvestorLookupsAppend(before, init, x, a.0);
      CoInvestorsAfterFoundAppend(before, init, ainit, x, a);
      LooksUpEveryPortfolioAppend(before, init, x, a.0);
    }
  }

  lemma {:induction false} InvestorRunSolid(xs: seq<string>, answers: seq<(seq<PortfolioRow>, seq<CoInvestorRow>)>)
    requires |answers| == |xs|
    ensures Solid(InvestorRun(xs, answers))
  {
    if xs != [] {
      var n := |xs| - 1;
      InvestorRunSolid(xs[..n], answers[..n]);
      InvestorBlockSolid(xs[n], answers[n].0, answers[n].1);
      ThenSolid(InvestorRun(xs[..n], answers[..n]), InvestorBlock(xs[n], answers[n].0, answers[n].1));
    }
  }

  // ---------------------------------------------------------------------
  // Which lookups each plan issues
  // ---------------------------------------------------------------------

  /// `_build_company_context` looks up the first three companies and then
  /// every named investor's portfolio of five, in that order.
  lemma CompanyPlanLookups(g: Graph, e: ExtractedEntities)
    ensures var companies := Take(e.companies, 3); var ls := CompanyPlan(g, e).lookups;
      && |companies| <= |ls|
      && LooksUpDetails(ls[..|companies|], companies)
      && LooksUpPortfolios(ls[|companies|..], e.investors, 5)
  {
    var companies := Take(e.companies, 3);
    var x, y := CompanyLoop(g, companies), PortfolioLoop(g, 5, e.investors);
    DetailsRunLookups(companies, CompanyAnswers(g, companies));
    PortfolioRunLookups(5, e.investors, PortfolioAnswers(g, 5, e.investors));
    var ls := CompanyPlan(g, e).lookups;
    assert ls == x.lookups + y.lookups;
    assert ls[..|companies|] == x.lookups && ls[|companies|..] == y.lookups;
  }

  /// `_build_comparison_context` looks up the first five companies, the
  /// first three sectors and the first three locations, five rows each.
  lemma ComparisonPlanLookups(g: Graph, e: ExtractedEntities)
    ensures var companies, sectors, cities := Take(e.companies, 5), Take(e.sectors, 3), Take(e.locations, 3);
      var a, b := |companies|, |companies| + |sectors|; var ls := ComparisonPlan(g, e).lookups;
      && b <= |ls|
      && LooksUpDetails(ls[..a], companies)
      && LooksUpSectors(ls[a..b], sectors, 5)
      && LooksUpCities(ls[b..], cities, 5)
  {
    var companies, sectors, cities := Take(e.companies, 5), Take(e.sectors, 3), Take(e.locations, 3);
    var x, y, z := CompanyLoop(g, companies), SectorLoop(g, 5, true, sectors), CityLoop(g, 5, cities);
    DetailsRunLookups(companies, CompanyAnswers(g, companies));
    SectorRunLookups(5, true, sectors, SectorAnswers(g, 5, sectors));
    CityRunLookups(5, cities, CityAnswers(g, 5, cities));
    var ls := ComparisonPlan(g, e).lookups;
    var a, b := |x.lookups|, |x.lookups| + |y.lookups|;
    assert ls == x.lookups + y.lookups + z.lookups;
    assert ls[..a] == x.lookups && ls[a..b] == y.lookups && ls[b..] == z.lookups;
  }

  /// `_build_sector_context`: the first three sectors, ten rows each, then
  /// the sector statistics.
  lemma SectorPlanLookups(g: Graph, e: ExtractedEntities)
    ensures var sectors := Take(e.sectors, 3); var ls := SectorPlan(g, e).lookups;
      && |ls| == |sectors| + 1
      && LooksUpSectors(ls[..|sectors|], sectors, 10)
      && ls[|sectors|] == SectorStatsLookup
  {
    var sectors := Take(e.sectors, 3);
    SectorRunLookups(10, true, sectors, SectorAnswers(g, 10, sectors));
    var x := SectorLoop(g, 10, true, sectors);
    var ls := SectorPlan(g, e).lookups;
    assert ls == x.lookups + [SectorStatsLookup];
    assert ls[..|sectors|] == x.lookups;
  }

  /// `_build_location_context`: the first three locations, ten rows each,
  /// then the location statistics.
  lemma LocationPlanLookups(g: Graph, e: ExtractedEntities)
    ensures var cities := Take(e.locations, 3); var ls := LocationPlan(g, e).lookups;
      && |ls| == |cities| + 1
      && LooksUpCities(ls[..|cities|], cities, 10)
      && ls[|cities|] == LocationStatsLookup
  {
    var cities := Take(e.locations, 3);
    CityRunLookups(10, cities, CityAnswers(g, 10, cities));
    var x := CityLoop(g, 10, cities);
    var ls := LocationPlan(g, e).lookups;
    assert ls == x.lookups + [LocationStatsLookup];
    assert ls[..|cities|] == x.lookups;
  }

  /// `_build_top_ranking_context`: the top ten companies and investors,
  /// then the first two sectors, five rows each.
  lemma TopRankingPlanLookups(g: Graph, e: ExtractedEntities)
    ensures var sectors := Take(e.sectors, 2); var ls := TopRankingPlan(g, e).lookups;
      && 2 <= |ls|
      && ls[..2] == [TopCompaniesLookup(10), TopInvestorsLookup(10)]
      && LooksUpSectors(ls[2..], sectors, 5)
  {
    var sectors := Take(e.sectors, 2);
    SectorRunLookups(5, false, sectors, SectorAnswers(g, 5, sectors));
    TopBlocksLookups(TopCompanies(g, 10), TopInvestors(g, 10));
    var x := SectorLoop(g, 5, false, sectors);
    var ls := TopRankingPlan(g, e).lookups;
    assert ls == [TopCompaniesLookup(10), TopInvestorsLookup(10)] + x.lookups;
    assert ls[2..] == x.lookups;
  }

  /// `_build_investor_context` asks for the top investors, and nothing
  /// else, exactly when no investor was named; otherwise it looks at the
  /// first three named investors only, asks for each one's portfolio, and
  /// asks for co-investors only right after a portfolio that found rows.
  lemma InvestorPlanLookups(g: Graph, e: ExtractedEntities)
    ensures var named := Take(e.investors, 3); var ls := InvestorPlan(g, e).lookups;
      && (e.investors == [] ==> ls == [TopInvestorsLookup(10)])
      && (e.investors != [] ==>
            && OnlyInvestorLookups(ls, named)
            && CoInvestorsAfterFound(ls, named, InvestorAnswers(g, named))
            && LooksUpEveryPortfolio(ls, named))
  {
    var named := Take(e.investors, 3);
    InvestorRunTrace(named, InvestorAnswers(g, named));
    InvestorTraceFacts(named, InvestorAnswers(g, named));
    TopInvestorsBlockLookup(TopInvestors(g, 10));
    if e.investors == [] {
      assert named == [];
    }
  }

  // ---------------------------------------------------------------------
  // The fallback and the assembled context
  // ---------------------------------------------------------------------

  /// Every plan returns only non-empty blocks, whatever its lookups found.
  lemma PlanSolid(g: Graph, e: ExtractedEntities)
    ensures Solid(PlanFor(g, e)) && Solid(GeneralPlan(g))
  {
    GeneralPlanSolid(g);
    match QueryIntent(e)
    case ComparisonIntent => ComparisonPlanSolid(g, e);
    case TopRanking => TopRankingPlanSolid(g, e);
    case AggregationIntent => AggregationPlanSolid(g);
    case InvestorInfo => InvestorPlanSolid(g, e);
    case SectorInfo => SectorPlanSolid(g, e);
    case LocationInfo => LocationPlanSolid(g, e);
    case CompanyInfo => CompanyPlanSolid(g, e);
    case General =>
  }

  lemma GeneralPlanSolid(g: Graph)
    ensures Solid(GeneralPlan(g))
  {
    GraphStatsBlockSolid(false, GraphStats(g));
    TopCompaniesBlockSolid(5, TopCompanies(g, 5));
    ThenSolid(GraphStatsBlock(false, GraphStats(g)), TopCompaniesBlock(5, TopCompanies(g, 5)));
  }

  lemma ComparisonPlanSolid(g: Graph, e: ExtractedEntities)
    ensures Solid(ComparisonPlan(g, e))
  {
    var companies, sectors, cities := Take(e.companies, 5), Take(e.sectors, 3), Take(e.locations, 3);
    var x, y, z := CompanyLoop(g, companies), SectorLoop(g, 5, true, sectors), CityLoop(g, 5, cities);
    DetailsRunSolid(companies, CompanyAnswers(g, companies));
    SectorRunSolid(5, true, sectors, SectorAnswers(g, 5, sectors));
    CityRunSolid(5, cities, CityAnswers(g, 5, cities));
    ThenSolid(x, y);
    ThenSolid(Then(x, y), z);
  }

  lemma TopRankingPlanSolid(g: Graph, e: ExtractedEntities)
    ensures Solid(TopRankingPlan(g, e))
  {
    var sectors := Take(e.sectors, 2);
    var x, y := TopCompaniesBlock(10, TopCompanies(g, 10)), TopInvestorsBlock(10, TopInvestors(g, 10));
    var z := SectorLoop(g, 5, false, sectors);
    TopCompaniesBlockSolid(10, TopCompanies(g, 10));
    TopInvestorsBlockSolid(10, TopInvestors(g, 10));
    SectorRunSolid(5, false, sectors, SectorAnswers(g, 5, sectors));
    ThenSolid(x, y);
    ThenSolid(Then(x, y), z);
  }

  lemma AggregationPlanSolid(g: Graph)
    ensures Solid(AggregationPlan(g))
  {
    var x, y, z := GraphStatsBlock(true, GraphStats(g)), SectorStatsBlock(true, SectorStats(g)), LocationStatsBlock(LocationStats(g));
    GraphStatsBlockSolid(true, GraphStats(g));
    SectorStatsBlockSolid(true, SectorStats(g));
    LocationStatsBlockSolid(LocationStats(g));
    ThenSolid(x, y);
    ThenSolid(Then(x, y), z);
  }

  lemma InvestorPlanSolid(g: Graph, e: ExtractedEntities)
    ensures Solid(InvestorPlan(g, e))
  {
    var named := Take(e.investors, 3);
    var top := TopInvestorsBlock(10, TopInvestors(g, 10));
    InvestorRunSolid(named, InvestorAnswers(g, named));
    TopInvestorsBlockSolid(10, TopInvestors(g, 10));
    ThenSolid(InvestorLoop(g, named), if e.investors == [] then top else Nothing);
  }

  lemma SectorPlanSolid(g: Graph, e: ExtractedEntities)
    ensures Solid(SectorPlan(g, e))
  {
    var sectors := Take(e.sectors, 3);
    SectorRunSolid(10, true, sectors, SectorAnswers(g, 10, sectors));
    SectorStatsBlockSolid(false, SectorStats(g));
    ThenSolid(SectorLoop(g, 10, true, sectors), SectorStatsBlock(false, SectorStats(g)));
  }

  lemma LocationPlanSolid(g: Graph, e: ExtractedEntities)
    ensures Solid(LocationPlan(g, e))
  {
    var cities := Take(e.locations, 3);
    CityRunSolid(10, cities, CityAnswers(g, 10, cities));
    LocationStatsBlockSolid(LocationStats(g));
    ThenSolid(CityLoop(g, 10, cities), LocationStatsBlock(LocationStats(g)));
  }

  lemma CompanyPlanSolid(g: Graph, e: ExtractedEntities)
    ensures Solid(CompanyPlan(g, e))
  {
    var companies := Take(e.companies, 3);
    DetailsRunSolid(companies, CompanyAnswers(g, companies));
    PortfolioRunSolid(5, e.investors, PortfolioAnswers(g, 5, e.investors));
    ThenSolid(CompanyLoop(g, companies), PortfolioLoop(g, 5, e.investors));
  }

  /// `build_context` answers from the intent's plan when that plan found
  /// anything and from the general plan otherwise; its context is empty
  /// only when the graph yields neither statistics nor a valued company.
  lemma EmptyContextOnlyForBareGraph(g: Graph, query: string)
    ensures var e := Extract(query);
      Retrieve(g, query).sources == (if PlanFor(g, e).parts != [] then PlanFor(g, e) else GeneralPlan(g)).sources
    ensures Retrieve(g, query).context == "" ==>
      GraphStats(g).None? && forall c :: c in g.companies ==> c.valuation.None?
  {
    var e := Extract(query);
    if Retrieve(g, query).context == "" {
      EmptyJoinOnlyForBareGraph(g, e);
    }
  }

  lemma EmptyJoinOnlyForBareGraph(g: Graph, e: ExtractedEntities)
    requires Join(Chosen(g, e).parts, "\n\n") == ""
    ensures GraphStats(g).None? && forall c :: c in g.companies ==> c.valuation.None?
  {
    var p := Chosen(g, e);
    PlanSolid(g, e);
    JoinOfSolid(p.parts, "\n\n");
    assert p.parts == [];
    assert p == GeneralPlan(g);
    BareGeneralPlan(g);
  }

  /// The general plan finds nothing only on a graph without statistics and
  /// without a valued company.
  lemma BareGeneralPlan(g: Graph)
    requires GeneralPlan(g).parts == []
    ensures GraphStats(g).None? && forall c :: c in g.companies ==> c.valuation.None?
  {
    BareStats(g);
    BareValuations(g);
  }

  lemma BareStats(g: Graph)
    requires GeneralPlan(g).parts == []
    ensures GraphStats(g).None?
  {
    var stats, top := GraphStats(g), TopCompanies(g, 5);
    var a, b := GraphStatsBlock(false, stats), TopCompaniesBlock(5, top);
    assert GeneralPlan(g) == Then(a, b);
    NoStatsBlock(stats);
  }

  lemma BareValuations(g: Graph)
    requires GeneralPlan(g).parts == []
    ensures forall c :: c in g.companies ==> c.valuation.None?
  {
    var stats, top := GraphStats(g), TopCompanies(g, 5);
    var a, b := GraphStatsBlock(false, stats), TopCompaniesBlock(5, top);
    assert GeneralPlan(g) == Then(a, b);
    NoTopBlock(top);
    NoTopNoValuation(g, top);
  }

  lemma NoStatsBlock(stats: Option<Stats>)
    requires GraphStatsBlock(false, stats).parts == []
    ensures stats.None?
  {
  }

  lemma NoTopBlock(top: seq<CompanyRow>)
    requires TopCompaniesBlock(5, top).parts == []
    ensures top == []
  {
  }

  lemma NoTopNoValuation(g: Graph, top: seq<CompanyRow>)
    requires top == TopCompanies(g, 5) && top == []
    ensures forall c :: c in g.companies ==> c.valuation.None?
  {
    forall c | c in g.companies
      ensures c.valuation.None?
    {
      assert c.valuation.Some? ==> CompanyRowOf(c) in top;
    }
  }

  /// The general plan counts the companies of its top-five block and
  /// nothing else.
  lemma GeneralPlanCount(g: Graph)
    ensures GeneralPlan(g).count == |TopCompanies(g, 5)|
    ensures GeneralPlan(g).count == 0 <==> forall c :: c in g.companies ==> c.valuation.None?
  {
    var top := TopCompanies(g, 5);
    if top != [] {
      assert top[0] in top;
    }
  }
}
