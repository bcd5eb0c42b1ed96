/// The read-only query layer of the unicorn knowledge graph (`GraphQueries`
/// in src/database/queries.py). Every Cypher query becomes a function over an
/// in-memory graph value: match by case-insensitive containment, drop nulls
/// where the query does, order descending and keep `limit` rows.
module GraphQueries {
  import opened Wrappers
  import opened Seqs
  import opened Text
  import opened Ranking

  /// A valuation in tenths of a billion US dollars.
  type Val = nat

  /// A `Company` node together with the relationships it takes part in:
  /// `OPERATES_IN` its sector, `SPECIALIZES_IN` its subsector, `LOCATED_IN`
  /// its cities and the investors with an `INVESTED_IN` edge to it. The
  /// graph builder creates the `SPECIALIZES_IN` edge only for a company that
  /// has a sector, so a subsector without a sector does not occur in a built
  /// graph; `RelationshipCount` counts that edge under the same condition.
  datatype Company = Company(
    name: string,
    valuation: Option<Val>,
    entryValuation: Option<Val>,
    entryDate: Option<string>,
    rank: Option<int>,
    sector: Option<string>,
    subsector: Option<string>,
    cities: seq<string>,
    investors: seq<string>)

  datatype Graph = Graph(companies: seq<Company>)

  /// The uniqueness constraints the graph builder creates: one node per
  /// company name, and `MERGE` never duplicates an edge.
  predicate Valid(g: Graph) {
    && (forall i, j :: 0 <= i < j < |g.companies| ==> g.companies[i].name != g.companies[j].name)
    && (forall c :: c in g.companies ==> NoDups(c.cities) && NoDups(c.investors))
  }

  /// `toLower(field) CONTAINS toLower(term)`.
  predicate Matches(field: string, term: string) {
    Contains(Lower(field), Lower(term))
  }

  /// The same test against a term that is already lower-cased; the queries
  /// lower-case their parameter once and use this.
  predicate Hit(field: string, t: string) {
    Contains(Lower(field), t)
  }

  /// Neo4j's `ORDER BY v DESC` on a nullable value: null sorts above every
  /// number, so rows without a valuation come first.
  function ValKey(v: Option<Val>): Key {
    match v
    case None => Key(1, 0, 0)
    case Some(x) => Key(0, x, 0)
  }

  /// `a` may precede `b` in a descending valuation order.
  predicate ValGe(a: Option<Val>, b: Option<Val>) {
    a.None? || (b.Some? && a.value >= b.value)
  }

  /// Rows sorted on a valuation key come out in descending valuation order.
  lemma SortedByValuation<T>(r: seq<T>, key: T -> Key, val: T -> Option<Val>)
    requires SortedDesc(r, key)
    requires forall x :: key(x) == ValKey(val(x))
    ensures forall i, j :: 0 <= i < j < |r| ==> ValGe(val(r[i]), val(r[j]))
  {
    forall i, j | 0 <= i < j < |r|
      ensures ValGe(val(r[i]), val(r[j]))
    {
      assert KeyGe(key(r[i]), key(r[j]));
    }
  }

  /// Whatever `ORDER BY v DESC LIMIT n` cut off from a row set is worth no
  /// more than anything it kept, nulls counting as the largest value.
  lemma TopByValuationMaximal<T>(rows: seq<T>, key: T -> Key, val: T -> Option<Val>, limit: nat, y: T)
    requires forall x :: key(x) == ValKey(val(x))
    requires y in rows && y !in TopBy(rows, key, limit)
    ensures forall x :: x in TopBy(rows, key, limit) ==> ValGe(val(x), val(y))
  {
    var r := TopBy(rows, key, limit);
    assert multiset(r)[y] == 0 < multiset(rows)[y];
    TopByMaximal(rows, key, limit, y);
    forall x | x in r
      ensures ValGe(val(x), val(y))
    {
      assert KeyGe(key(x), key(y));
    }
  }

  /// Sum of the non-null valuations (Cypher's `sum` skips nulls).
  function TotalValuation(cs: seq<Company>): (r: Val)
    ensures (forall c :: c in cs ==> c.valuation.None?) ==> r == 0
  {
    if cs == [] then 0
    else
      var init := cs[..|cs| - 1];
      assert cs == init + [cs[|cs| - 1]];
      TotalValuation(init) + match cs[|cs| - 1].valuation { case None => 0 case Some(v) => v }
  }

  // ---------------------------------------------------------------------
  // Company queries
  // ---------------------------------------------------------------------

  datatype SearchRow = SearchRow(company: string, valuation: Option<Val>, sector: Option<string>, locations: seq<string>)

  function SearchRowOf(c: Company): SearchRow {
    SearchRow(c.name, c.valuation, c.sector, Distinct(c.cities))
  }

  function SearchKey(row: SearchRow): Key { ValKey(row.valuation) }

  function NameHits(g: Graph, t: string): (rows: seq<SearchRow>)
    ensures forall row :: row in rows <==> exists c :: c in g.companies && Hit(c.name, t) && row == SearchRowOf(c)
  {
    var hits := Filter(g.companies, (c: Company) => Hit(c.name, t));
    MapMembers(hits, SearchRowOf);
    Map(hits, SearchRowOf)
  }

  /// `search_companies`: companies whose name contains the term.
  function SearchCompanies(g: Graph, term: string, limit: nat): (r: seq<SearchRow>)
    ensures |r| <= limit
    ensures forall row :: row in r ==> Matches(row.company, term) && exists c :: c in g.companies && row == SearchRowOf(c)
    ensures forall i, j :: 0 <= i < j < |r| ==> ValGe(r[i].valuation, r[j].valuation)
    ensures |r| < limit ==> forall c :: c in g.companies && Matches(c.name, term) ==> SearchRowOf(c) in r
  {
    var r := TopBy(NameHits(g, Lower(term)), SearchKey, limit);
    SortedByValuation(r, SearchKey, (row: SearchRow) => row.valuation);
    r
  }

  /// A matching company left out of `search_companies` is worth no more
  /// than any company it returned.
  lemma SearchCompaniesMaximal(g: Graph, term: string, limit: nat, c: Company)
    requires c in g.companies && Matches(c.name, term)
    requires SearchRowOf(c) !in SearchCompanies(g, term, limit)
    ensures forall row :: row in SearchCompanies(g, term, limit) ==> ValGe(row.valuation, c.valuation)
  {
    var rows := NameHits(g, Lower(term));
    assert SearchCompanies(g, term, limit) == TopBy(rows, SearchKey, limit);
    TopByValuationMaximal(rows, SearchKey, (row: SearchRow) => row.valuation, limit, SearchRowOf(c));
  }

  /// `get_company_details` returns the whole record, relationships included.
  datatype Details = Details(
    company: string,
    valuation: Option<Val>,
    entryValuation: Option<Val>,
    entryDate: Option<string>,
    rank: Option<int>,
    sector: Option<string>,
    subsector: Option<string>,
    locations: seq<string>,
    investors: seq<string>)

  function DetailsOf(c: Company): Details {
    Details(c.name, c.valuation, c.entryValuation, c.entryDate, c.rank, c.sector, c.subsector,
            Distinct(c.cities), Distinct(c.investors))
  }

  /// Index of the first company whose name contains the lower-cased `t`.
  function FirstHit(cs: seq<Company>, t: string): (r: Option<nat>)
    ensures r.Some? ==> r.value < |cs| && Hit(cs[r.value].name, t)
    ensures forall j :: 0 <= j < |cs| && (r.None? || j < r.value) ==> !Hit(cs[j].name, t)
  {
    if cs == [] then None
    else if Hit(cs[0].name, t) then Some(0)
    else
      match FirstHit(cs[1..], t)
      case None => None
      case Some(k) => Some(k + 1)
  }

  /// Company `i` is the first one, in graph order, that the term matches.
  predicate IsFirstMatch(g: Graph, term: string, i: int) {
    && 0 <= i < |g.companies|
    && Matches(g.companies[i].name, term)
    && forall j :: 0 <= j < i ==> !Matches(g.companies[j].name, term)
  }

  /// The company a name lookup settles on: the first match, if any.
  function Target(g: Graph, name: string): (r: Option<nat>)
    ensures r.Some? ==> IsFirstMatch(g, name, r.value)
    ensures r.None? ==> forall c :: c in g.companies ==> !Matches(c.name, name)
  {
    FirstHit(g.companies, Lower(name))
  }

  /// `get_company_details`: the first matching company, or None.
  function CompanyDetails(g: Graph, name: string): (r: Option<Details>)
    ensures r.None? <==> forall c :: c in g.companies ==> !Matches(c.name, name)
    ensures r.Some? ==> exists i :: IsFirstMatch(g, name, i) && r.value == DetailsOf(g.companies[i])
  {
    match Target(g, name)
    case None => None
    case Some(i) => Some(DetailsOf(g.companies[i]))
  }

  datatype CompanyRow = CompanyRow(company: string, valuation: Option<Val>, sector: Option<string>)

  function CompanyRowOf(c: Company): CompanyRow {
    CompanyRow(c.name, c.valuation, c.sector)
  }

  function CompanyKey(row: CompanyRow): Key { ValKey(row.valuation) }

  function ValuedRows(g: Graph): (rows: seq<CompanyRow>)
    ensures forall row :: row in rows <==> exists c :: c in g.companies && c.valuation.Some? && row == CompanyRowOf(c)
  {
    var valued := Filter(g.companies, (c: Company) => c.valuation.Some?);
    MapMembers(valued, CompanyRowOf);
    Map(valued, CompanyRowOf)
  }

  /// `get_top_companies`: the most valuable companies, nulls excluded.
  function TopCompanies(g: Graph, limit: nat): (r: seq<CompanyRow>)
    ensures |r| <= limit
    ensures forall row :: row in r ==> row.valuation.Some? && exists c :: c in g.companies && row == CompanyRowOf(c)
    ensures forall i, j :: 0 <= i < j < |r| ==> ValGe(r[i].valuation, r[j].valuation)
    ensures |r| < limit ==> forall c :: c in g.companies && c.valuation.Some? ==> CompanyRowOf(c) in r
  {
    var r := TopBy(ValuedRows(g), CompanyKey, limit);
    SortedByValuation(r, CompanyKey, (row: CompanyRow) => row.valuation);
    r
  }

  /// A valued company left out of `get_top_companies` is worth no more than
  /// any company it returned.
  lemma TopCompaniesMaximal(g: Graph, limit: nat, c: Company)
    requires c in g.companies && c.valuation.Some?
    requires CompanyRowOf(c) !in TopCompanies(g, limit)
    ensures forall row :: row in TopCompanies(g, limit) ==> row.valuation.value >= c.valuation.value
  {
    var y := CompanyRowOf(c);
    var rows := ValuedRows(g);
    var r := TopCompanies(g, limit);
    assert r == TopBy(rows, CompanyKey, limit);
    assert y in rows;
    assert multiset(r)[y] == 0 < multiset(rows)[y];
    TopByMaximal(rows, CompanyKey, limit, y);
    forall row | row in r
      ensures row.valuation.value >= c.valuation.value
    {
      assert KeyGe(CompanyKey(row), CompanyKey(y));
    }
  }

  // ---------------------------------------------------------------------
  // Investor queries
  // ---------------------------------------------------------------------

  datatype PortfolioRow = PortfolioRow(investor: string, company: string, valuation: Option<Val>, sector: Option<string>)

  /// `row` is the `(i)-[:INVESTED_IN]->(c)` match of one of `c`'s investors.
  predicate PortfolioRowFor(row: PortfolioRow, c: Company) {
    row.investor in c.investors && row == PortfolioRow(row.investor, c.name, c.valuation, c.sector)
  }

  function PortfolioRowsOf(c: Company, invs: seq<string>, t: string): (r: seq<PortfolioRow>)
    ensures forall row :: row in r <==> row.investor in invs && Hit(row.investor, t) && row == PortfolioRow(row.investor, c.name, c.valuation, c.sector)
  {
    if invs == [] then []
    else
      var init := invs[..|invs| - 1];
      var i := invs[|invs| - 1];
      assert invs == init + [i];
      PortfolioRowsOf(c, init, t) + if Hit(i, t) then [PortfolioRow(i, c.name, c.valuation, c.sector)] else []
  }

  function PortfolioRows(cs: seq<Company>, t: string): (r: seq<PortfolioRow>)
    ensures forall row :: row in r <==> Hit(row.investor, t) && exists c :: c in cs && PortfolioRowFor(row, c)
  {
    if cs == [] then []
    else
      var init := cs[..|cs| - 1];
      var c := cs[|cs| - 1];
      assert cs == init + [c];
      assert forall x :: x in cs <==> x in init || x == c;
      var r := PortfolioRows(init, t) + PortfolioRowsOf(c, c.investors, t);
      assert forall row :: row in PortfolioRowsOf(c, c.investors, t) ==> PortfolioRowFor(row, c);
      r
  }

  function PortfolioKey(row: PortfolioRow): Key { ValKey(row.valuation) }

  /// `get_investor_portfolio`: one row per (matching investor, company).
  function InvestorPortfolio(g: Graph, name: string, limit: nat): (r: seq<PortfolioRow>)
    ensures |r| <= limit
    ensures forall row :: row in r ==> Matches(row.investor, name) && exists c :: c in g.companies && PortfolioRowFor(row, c)
    ensures forall i, j :: 0 <= i < j < |r| ==> ValGe(r[i].valuation, r[j].valuation)
    ensures |r| < limit ==> forall c, i :: c in g.companies && i in c.investors && Matches(i, name) ==> PortfolioRow(i, c.name, c.valuation, c.sector) in r
  {
    var r := TopBy(PortfolioRows(g.companies, Lower(name)), PortfolioKey, limit);
    SortedByValuation(r, PortfolioKey, (row: PortfolioRow) => row.valuation);
    r
  }

  /// A holding of a matching investor left out of `get_investor_portfolio`
  /// is worth no more than any holding it returned.
  lemma InvestorPortfolioMaximal(g: Graph, name: string, limit: nat, c: Company, i: string)
    requires c in g.companies && i in c.investors && Matches(i, name)
    requires PortfolioRow(i, c.name, c.valuation, c.sector) !in InvestorPortfolio(g, name, limit)
    ensures forall row :: row in InvestorPortfolio(g, name, limit) ==> ValGe(row.valuation, c.valuation)
  {
    var rows := PortfolioRows(g.companies, Lower(name));
    var y := PortfolioRow(i, c.name, c.valuation, c.sector);
    assert PortfolioRowFor(y, c);
    assert InvestorPortfolio(g, name, limit) == TopBy(rows, PortfolioKey, limit);
    TopByValuationMaximal(rows, PortfolioKey, (row: PortfolioRow) => row.valuation, limit, y);
  }

  /// Every investor name, once, in order of first appearance.
  function InvestorNames(cs: seq<Company>): (r: seq<string>)
    ensures NoDups(r)
    ensures forall n :: n in r <==> exists c :: c in cs && n in c.investors
  {
    var f := (c: Company) => c.investors;
    FlatMapMembers(cs, f);
    Distinct(FlatMap(cs, f))
  }

  /// The companies investor `n` invested in.
  function PortfolioOf(cs: seq<Company>, n: string): (r: seq<Company>)
    ensures forall c :: c in r <==> c in cs && n in c.investors
  {
    Filter(cs, (c: Company) => n in c.investors)
  }

  datatype InvestorRow = InvestorRow(investor: string, investments: nat, portfolioValue: Val)

  /// `count(c)` and `sum(c.currentValuation)` grouped by investor.
  function InvestorRowOf(cs: seq<Company>, n: string): InvestorRow {
    var p := PortfolioOf(cs, n);
    InvestorRow(n, |p|, TotalValuation(p))
  }

  function InvestmentsKey(row: InvestorRow): Key { Key(row.investments, 0, 0) }

  /// One grouped row per investor.
  function InvestorRows(cs: seq<Company>): (rows: seq<InvestorRow>)
    ensures forall i, j :: 0 <= i < j < |rows| ==> rows[i].investor != rows[j].investor
    ensures forall row :: row in rows ==> row == InvestorRowOf(cs, row.investor) && row.investments >= 1
    ensures forall c, n :: c in cs && n in c.investors ==> InvestorRowOf(cs, n) in rows
  {
    var names := InvestorNames(cs);
    var rowOf := n => InvestorRowOf(cs, n);
    var rows := Map(names, rowOf);
    MapMembers(names, rowOf);
    forall row | row in rows
      ensures row == InvestorRowOf(cs, row.investor) && row.investments >= 1
    {
      var n :| n in names && row == InvestorRowOf(cs, n);
      var c :| c in cs && n in c.investors;
      assert c in PortfolioOf(cs, n);
    }
    forall c, n | c in cs && n in c.investors
      ensures InvestorRowOf(cs, n) in rows
    {
      assert n in names;
    }
    rows
  }

  /// `get_top_investors`: the investors with the most investments.
  function TopInvestors(g: Graph, limit: nat): (r: seq<InvestorRow>)
    ensures |r| <= limit
    ensures forall row :: row in r ==> row == InvestorRowOf(g.companies, row.investor) && row.investments >= 1
    ensures forall i, j :: 0 <= i < j < |r| ==> r[i].investments >= r[j].investments
    ensures forall i, j :: 0 <= i < j < |r| ==> r[i].investor != r[j].investor
    ensures |r| < limit ==> forall c, n :: c in g.companies && n in c.investors ==> InvestorRowOf(g.companies, n) in r
  {
    var rows := InvestorRows(g.companies);
    var r := TopBy(rows, InvestmentsKey, limit);
    SubMultisetDistinctBy(r, rows, (row: InvestorRow) => row.investor);
    SortedMajor(r, InvestmentsKey);
    r
  }

  /// An investor left out of `get_top_investors` has made no more
  /// investments than any investor it returned.
  lemma TopInvestorsMaximal(g: Graph, limit: nat, c: Company, n: string)
    requires c in g.companies && n in c.investors
    requires InvestorRowOf(g.companies, n) !in TopInvestors(g, limit)
    ensures forall row :: row in TopInvestors(g, limit) ==> row.investments >= InvestorRowOf(g.companies, n).investments
  {
    var rows := InvestorRows(g.companies);
    assert TopInvestors(g, limit) == TopBy(rows, InvestmentsKey, limit);
    TopByMajorMaximal(rows, InvestmentsKey, limit, InvestorRowOf(g.companies, n));
  }


  /// One `(i1)-[:INVESTED_IN]->(c)<-[:INVESTED_IN]-(i2)` match: `via` is the
  /// searched investor `i1`, `coInvestor` is `i2`.
  datatype CoPair = CoPair(via: string, coInvestor: string, company: string)

  function PairsWith(c: Company, via: string, others: seq<string>): (r: seq<CoPair>)
    ensures forall p :: p in r <==> p.via == via && p.company == c.name && p.coInvestor in others && p.coInvestor != via
  {
    if others == [] then []
    else
      var init := others[..|others| - 1];
      var i2 := others[|others| - 1];
      assert others == init + [i2];
      PairsWith(c, via, init) + if i2 != via then [CoPair(via, i2, c.name)] else []
  }

  function PairsIn(c: Company, vias: seq<string>, t: string): (r: seq<CoPair>)
    ensures forall p :: p in r <==> p.via in vias && Hit(p.via, t) && p.company == c.name && p.coInvestor in c.investors && p.coInvestor != p.via
  {
    if vias == [] then []
    else
      var init := vias[..|vias| - 1];
      var i1 := vias[|vias| - 1];
      assert vias == init + [i1];
      PairsIn(c, init, t) + if Hit(i1, t) then PairsWith(c, i1, c.investors) else []
  }

  /// `c` is a company both investors of `p` invested in.
  predicate SharedBy(p: CoPair, c: Company) {
    p.company == c.name && p.via in c.investors && p.coInvestor in c.investors
  }

  function CoPairs(cs: seq<Company>, t: string): (r: seq<CoPair>)
    ensures forall p :: p in r <==> Hit(p.via, t) && p.coInvestor != p.via && exists c :: c in cs && SharedBy(p, c)
  {
    if cs == [] then []
    else
      var init := cs[..|cs| - 1];
      var c := cs[|cs| - 1];
      assert cs == init + [c];
      assert forall x :: x in cs <==> x in init || x == c;
      var r := CoPairs(init, t) + PairsIn(c, c.investors, t);
      assert forall p :: p in PairsIn(c, c.investors, t) ==> SharedBy(p, c);
      r
  }

  function PairsOf(pairs: seq<CoPair>, n: string): (r: seq<CoPair>)
    ensures forall p :: p in r <==> p in pairs && p.coInvestor == n
  {
    Filter(pairs, (p: CoPair) => p.coInvestor == n)
  }

  datatype CoInvestorRow = CoInvestorRow(coInvestor: string, sharedInvestments: nat, sampleCompanies: seq<string>)

  /// `count(c)` and `collect(c.name)[0..5]` grouped by co-investor.
  function CoInvestorRowOf(pairs: seq<CoPair>, n: string): (row: CoInvestorRow)
    ensures row.coInvestor == n && |row.sampleCompanies| == Min(5, row.sharedInvestments)
    ensures row.sharedInvestments >= 1 <==> exists p :: p in pairs && p.coInvestor == n
    ensures forall s :: s in row.sampleCompanies ==> exists p :: p in pairs && p.coInvestor == n && p.company == s
  {
    var mine := PairsOf(pairs, n);
    var company := (p: CoPair) => p.company;
    var names := Map(mine, company);
    MapMembers(mine, company);
    var sample := Take(names, 5);
    assert forall s :: s in sample ==> s in names;
    CoInvestorRow(n, |mine|, sample)
  }

  function SharedKey(row: CoInvestorRow): Key { Key(row.sharedInvestments, 0, 0) }

  /// One grouped row per co-investor.
  function CoInvestorRows(pairs: seq<CoPair>): (rows: seq<CoInvestorRow>)
    ensures forall i, j :: 0 <= i < j < |rows| ==> rows[i].coInvestor != rows[j].coInvestor
    ensures forall row :: row in rows ==> row == CoInvestorRowOf(pairs, row.coInvestor)
    ensures forall row :: row in rows ==> row.sharedInvestments >= 1 && exists p :: p in pairs && p.coInvestor == row.coInvestor
    ensures forall p :: p in pairs ==> CoInvestorRowOf(pairs, p.coInvestor) in rows
  {
    var coInvestor := (p: CoPair) => p.coInvestor;
    var names := Distinct(Map(pairs, coInvestor));
    MapMembers(pairs, coInvestor);
    var rowOf := n => CoInvestorRowOf(pairs, n);
    var rows := Map(names, rowOf);
    MapMembers(names, rowOf);
    forall row | row in rows
      ensures row == CoInvestorRowOf(pairs, row.coInvestor)
      ensures row.sharedInvestments >= 1 && exists p :: p in pairs && p.coInvestor == row.coInvestor
    {
      var n :| n in names && row == CoInvestorRowOf(pairs, n);
      var p :| p in pairs && n == p.coInvestor;
    }
    forall p | p in pairs
      ensures CoInvestorRowOf(pairs, p.coInvestor) in rows
    {
      assert p.coInvestor in Map(pairs, coInvestor);
    }
    rows
  }

  /// `get_co_investors`: investors who share companies with a matching
  /// investor other than themselves.
  function CoInvestors(g: Graph, name: string, limit: nat): (r: seq<CoInvestorRow>)
    ensures |r| <= limit
    ensures forall row :: row in r ==> row.sharedInvestments >= 1 && |row.sampleCompanies| <= 5
    ensures forall row :: row in r ==> exists c, via :: c in g.companies && via in c.investors && row.coInvestor in c.investors && via != row.coInvestor && Matches(via, name)
    ensures forall row, s :: row in r && s in row.sampleCompanies ==> exists c :: c in g.companies && c.name == s && row.coInvestor in c.investors
    ensures forall i, j :: 0 <= i < j < |r| ==> r[i].sharedInvestments >= r[j].sharedInvestments
    ensures forall i, j :: 0 <= i < j < |r| ==> r[i].coInvestor != r[j].coInvestor
    ensures forall row :: row in r ==> row == CoInvestorRowOf(CoPairs(g.companies, Lower(name)), row.coInvestor)
    ensures |r| < limit ==> forall c, via, n :: c in g.companies && via in c.investors && n in c.investors && via != n && Matches(via, name) ==>
      CoInvestorRowOf(CoPairs(g.companies, Lower(name)), n) in r
  {
    var t := Lower(name);
    var pairs := CoPairs(g.companies, t);
    var rows := CoInvestorRows(pairs);
    var r := TopBy(rows, SharedKey, limit);
    SubMultisetDistinctBy(r, rows, (row: CoInvestorRow) => row.coInvestor);
    SortedMajor(r, SharedKey);
    CoInvestorRowsWitnessed(g.companies, name, pairs, r);
    CoInvestorsComplete(g.companies, name, limit, pairs, rows, r);
    r
  }

  /// When the limit cut nothing off, every co-investor of a matching
  /// investor has its row.
  lemma CoInvestorsComplete(cs: seq<Company>, name: string, limit: nat, pairs: seq<CoPair>, rows: seq<CoInvestorRow>, r: seq<CoInvestorRow>)
    requires forall p :: p in pairs <==> Hit(p.via, Lower(name)) && p.coInvestor != p.via && exists c :: c in cs && SharedBy(p, c)
    requires forall p :: p in pairs ==> CoInvestorRowOf(pairs, p.coInvestor) in rows
    requires |r| < limit ==> forall x :: x in rows ==> x in r
    ensures |r| < limit ==> forall c, via, n :: c in cs && via in c.investors && n in c.investors && via != n && Matches(via, name) ==>
      CoInvestorRowOf(pairs, n) in r
  {
    if |r| < limit {
      SharedPairsListed(cs, name, pairs);
      forall c, via, n | c in cs && via in c.investors && n in c.investors && via != n && Matches(via, name)
        ensures CoInvestorRowOf(pairs, n) in r
      {
        var p := CoPair(via, n, c.name);
        assert p in pairs;
        assert CoInvestorRowOf(pairs, p.coInvestor) in rows;
      }
    }
  }

  /// Rows grouped from the pairs name only co-investors of a matching
  /// investor, and sample only companies the two share.
  lemma CoInvestorRowsWitnessed(cs: seq<Company>, name: string, pairs: seq<CoPair>, r: seq<CoInvestorRow>)
    requires forall p :: p in pairs <==> Hit(p.via, Lower(name)) && p.coInvestor != p.via && exists c :: c in cs && SharedBy(p, c)
    requires forall row :: row in r ==> row == CoInvestorRowOf(pairs, row.coInvestor) && row.sharedInvestments >= 1
    ensures forall row :: row in r ==> exists c, via :: c in cs && via in c.investors && row.coInvestor in c.investors && via != row.coInvestor && Matches(via, name)
    ensures forall row, s :: row in r && s in row.sampleCompanies ==> exists c :: c in cs && c.name == s && row.coInvestor in c.investors
  {
    forall row | row in r
      ensures exists c, via :: c in cs && via in c.investors && row.coInvestor in c.investors && via != row.coInvestor && Matches(via, name)
    {
      var p :| p in pairs && p.coInvestor == row.coInvestor;
      var c :| c in cs && SharedBy(p, c);
      assert c in cs && p.via in c.investors && row.coInvestor in c.investors && p.via != row.coInvestor && Matches(p.via, name);
    }
    forall row, s | row in r && s in row.sampleCompanies
      ensures exists c :: c in cs && c.name == s && row.coInvestor in c.investors
    {
      var p :| p in pairs && p.coInvestor == row.coInvestor && p.company == s;
      var c :| c in cs && SharedBy(p, c);
    }
  }

  /// Every company two investors share, one of them matching, gives a pair.
  lemma SharedPairsListed(cs: seq<Company>, name: string, pairs: seq<CoPair>)
    requires forall p :: p in pairs <==> Hit(p.via, Lower(name)) && p.coInvestor != p.via && exists c :: c in cs && SharedBy(p, c)
    ensures forall c, via, n :: c in cs && via in c.investors && n in c.investors && via != n && Matches(via, name) ==>
      CoPair(via, n, c.name) in pairs
  {
    forall c, via, n | c in cs && via in c.investors && n in c.investors && via != n && Matches(via, name)
      ensures CoPair(via, n, c.name) in pairs
    {
      assert SharedBy(CoPair(via, n, c.name), c);
    }
  }

  /// A co-investor left out of `get_co_investors` shares no more companies
  /// with the matching investors than any co-investor it returned.
  lemma CoInvestorsMaximal(g: Graph, name: string, limit: nat, c: Company, via: string, n: string)
    requires c in g.companies && via in c.investors && n in c.investors && via != n && Matches(via, name)
    requires CoInvestorRowOf(CoPairs(g.companies, Lower(name)), n) !in CoInvestors(g, name, limit)
    ensures forall row :: row in CoInvestors(g, name, limit) ==>
      row.sharedInvestments >= CoInvestorRowOf(CoPairs(g.companies, Lower(name)), n).sharedInvestments
  {
    var pairs := CoPairs(g.companies, Lower(name));
    var rows := CoInvestorRows(pairs);
    SharedPairsListed(g.companies, name, pairs);
    assert CoPair(via, n, c.name) in pairs;
    assert CoInvestors(g, name, limit) == TopBy(rows, SharedKey, limit);
    TopByMajorMaximal(rows, SharedKey, limit, CoInvestorRowOf(pairs, n));
  }


  // ---------------------------------------------------------------------
  // Sector and location queries
  // ---------------------------------------------------------------------

  datatype SectorRow = SectorRow(company: string, valuation: Option<Val>, subsector: Option<string>)

  function SectorRowOf(c: Company): SectorRow {
    SectorRow(c.name, c.valuation, c.subsector)
  }

  function SectorKey(row: SectorRow): Key { ValKey(row.valuation) }

  predicate InSector(c: Company, t: string) {
    c.sector.Some? && Hit(c.sector.value, t)
  }

  function SectorHits(g: Graph, t: string): (rows: seq<SectorRow>)
    ensures forall row :: row in rows <==> exists c :: c in g.companies && InSector(c, t) && row == SectorRowOf(c)
  {
    var hits := Filter(g.companies, (c: Company) => InSector(c, t));
    MapMembers(hits, SectorRowOf);
    Map(hits, SectorRowOf)
  }

  /// `get_sector_companies`: companies whose sector name contains the term.
  function SectorCompanies(g: Graph, sector: string, limit: nat): (r: seq<SectorRow>)
    ensures |r| <= limit
    ensures forall row :: row in r ==> exists c :: c in g.companies && c.sector.Some? && Matches(c.sector.value, sector) && row == SectorRowOf(c)
    ensures forall i, j :: 0 <= i < j < |r| ==> ValGe(r[i].valuation, r[j].valuation)
    ensures |r| < limit ==> forall c :: c in g.companies && c.sector.Some? && Matches(c.sector.value, sector) ==> SectorRowOf(c) in r
  {
    var r := TopBy(SectorHits(g, Lower(sector)), SectorKey, limit);
    SortedByValuation(r, SectorKey, (row: SectorRow) => row.valuation);
    r
  }

  /// A company of a matching sector left out of `get_sector_companies` is
  /// worth no more than any company it returned.
  lemma SectorCompaniesMaximal(g: Graph, sector: string, limit: nat, c: Company)
    requires c in g.companies && c.sector.Some? && Matches(c.sector.value, sector)
    requires SectorRowOf(c) !in SectorCompanies(g, sector, limit)
    ensures forall row :: row in SectorCompanies(g, sector, limit) ==> ValGe(row.valuation, c.valuation)
  {
    var rows := SectorHits(g, Lower(sector));
    assert InSector(c, Lower(sector));
    assert SectorCompanies(g, sector, limit) == TopBy(rows, SectorKey, limit);
    TopByValuationMaximal(rows, SectorKey, (row: SectorRow) => row.valuation, limit, SectorRowOf(c));
  }

  /// One row of `c` per city of `ls` that the lower-cased `t` matches.
  function CityRowsOf(c: Company, ls: seq<string>, t: string): (r: seq<CompanyRow>)
    ensures forall row :: row in r <==> row == CompanyRowOf(c) && exists l :: l in ls && Hit(l, t)
  {
    if ls == [] then []
    else
      var init := ls[..|ls| - 1];
      var l := ls[|ls| - 1];
      assert ls == init + [l];
      CityRowsOf(c, init, t) + if Hit(l, t) then [CompanyRowOf(c)] else []
  }

  /// `c` is located in a city whose name contains `t`.
  predicate InCity(c: Company, t: string) {
    exists l :: l in c.cities && Hit(l, t)
  }

  function CityRows(cs: seq<Company>, t: string): (r: seq<CompanyRow>)
    ensures forall row :: row in r <==> exists c :: c in cs && InCity(c, t) && row == CompanyRowOf(c)
  {
    if cs == [] then []
    else
      var init := cs[..|cs| - 1];
      var c := cs[|cs| - 1];
      assert cs == init + [c];
      assert forall x :: x in cs <==> x in init || x == c;
      CityRows(init, t) + CityRowsOf(c, c.cities, t)
  }

  /// `get_city_companies`: one row per (company, matching city).
  function CityCompanies(g: Graph, city: string, limit: nat): (r: seq<CompanyRow>)
    ensures |r| <= limit
    ensures forall row :: row in r ==> exists c, l :: c in g.companies && l in c.cities && Matches(l, city) && row == CompanyRowOf(c)
    ensures forall i, j :: 0 <= i < j < |r| ==> ValGe(r[i].valuation, r[j].valuation)
    ensures |r| < limit ==> forall c, l :: c in g.companies && l in c.cities && Matches(l, city) ==> CompanyRowOf(c) in r
  {
    var t := Lower(city);
    var r := TopBy(CityRows(g.companies, t), CompanyKey, limit);
    SortedByValuation(r, CompanyKey, (row: CompanyRow) => row.valuation);
    forall row | row in r
      ensures exists c, l :: c in g.companies && l in c.cities && Matches(l, city) && row == CompanyRowOf(c)
    {
      var c :| c in g.companies && InCity(c, t) && row == CompanyRowOf(c);
      var l :| l in c.cities && Hit(l, t);
      assert Matches(l, city) && row == CompanyRowOf(c);
    }
    r
  }

  /// A company in a matching city left out of `get_city_companies` is worth
  /// no more than any company it returned.
  lemma CityCompaniesMaximal(g: Graph, city: string, limit: nat, c: Company, l: string)
    requires c in g.companies && l in c.cities && Matches(l, city)
    requires CompanyRowOf(c) !in CityCompanies(g, city, limit)
    ensures forall row :: row in CityCompanies(g, city, limit) ==> ValGe(row.valuation, c.valuation)
  {
    var rows := CityRows(g.companies, Lower(city));
    assert InCity(c, Lower(city));
    assert CityCompanies(g, city, limit) == TopBy(rows, CompanyKey, limit);
    TopByValuationMaximal(rows, CompanyKey, (row: CompanyRow) => row.valuation, limit, CompanyRowOf(c));
  }

  datatype SectorStat = SectorStat(sector: string, companyCount: nat, totalValuation: Val)

  /// `c` counts towards the statistics of sector `s`.
  predicate ValuedIn(c: Company, s: string) {
    c.valuation.Some? && c.sector == Some(s)
  }

  function ValuedSectors(cs: seq<Company>): (r: seq<string>)
    ensures forall s :: s in r <==> exists c :: c in cs && ValuedIn(c, s)
  {
    if cs == [] then []
    else
      var init := cs[..|cs| - 1];
      var c := cs[|cs| - 1];
      assert cs == init + [c];
      assert forall x :: x in cs <==> x in init || x == c;
      var r := ValuedSectors(init) + if c.valuation.Some? && c.sector.Some? then [c.sector.value] else [];
      forall s | s in r
        ensures exists c' :: c' in cs && ValuedIn(c', s)
      {
        if s !in ValuedSectors(init) {
          assert ValuedIn(c, s);
        }
      }
      forall s, c' | c' in cs && ValuedIn(c', s)
        ensures s in r
      {
        if c' != c {
          assert c' in init;
        }
      }
      r
  }

  function SectorMembers(cs: seq<Company>, s: string): (r: seq<Company>)
    ensures forall c :: c in r <==> c in cs && ValuedIn(c, s)
  {
    Filter(cs, (c: Company) => ValuedIn(c, s))
  }

  function SectorStatOf(cs: seq<Company>, s: string): SectorStat {
    var m := SectorMembers(cs, s);
    SectorStat(s, |m|, TotalValuation(m))
  }

  function TotalKey(st: SectorStat): Key { Key(st.totalValuation, 0, 0) }

  /// One grouped row per sector with a valued company.
  function SectorStatRows(cs: seq<Company>): (rows: seq<SectorStat>)
    ensures forall i, j :: 0 <= i < j < |rows| ==> rows[i].sector != rows[j].sector
    ensures forall st :: st in rows ==> st == SectorStatOf(cs, st.sector) && st.companyCount >= 1
    ensures forall c :: c in cs && c.valuation.Some? && c.sector.Some? ==> SectorStatOf(cs, c.sector.value) in rows
  {
    var names := Distinct(ValuedSectors(cs));
    var rowOf := s => SectorStatOf(cs, s);
    var rows := Map(names, rowOf);
    MapMembers(names, rowOf);
    forall st | st in rows
      ensures st == SectorStatOf(cs, st.sector) && st.companyCount >= 1
    {
      var s :| s in names && st == SectorStatOf(cs, s);
      var c :| c in cs && ValuedIn(c, s);
      assert c in SectorMembers(cs, s);
    }
    forall c | c in cs && c.valuation.Some? && c.sector.Some?
      ensures SectorStatOf(cs, c.sector.value) in rows
    {
      assert ValuedIn(c, c.sector.value);
      assert c.sector.value in names;
    }
    rows
  }

  /// `get_sector_stats`: one row per sector with a valued company, by total
  /// valuation, not truncated.
  function SectorStats(g: Graph): (r: seq<SectorStat>)
    ensures forall st :: st in r ==> st == SectorStatOf(g.companies, st.sector) && st.companyCount >= 1
    ensures forall c :: c in g.companies && c.valuation.Some? && c.sector.Some? ==> SectorStatOf(g.companies, c.sector.value) in r
    ensures forall i, j :: 0 <= i < j < |r| ==> r[i].totalValuation >= r[j].totalValuation
    ensures forall i, j :: 0 <= i < j < |r| ==> r[i].sector != r[j].sector
  {
    var rows := SectorStatRows(g.companies);
    var r := SortDesc(rows, TotalKey);
    SubMultisetDistinctBy(r, rows, (st: SectorStat) => st.sector);
    SortedMajor(r, TotalKey);
    r
  }

  datatype LocationStat = LocationStat(city: string, companyCount: nat, totalValuation: Val)

  /// `c` counts towards the statistics of city `l`.
  predicate ValuedAt(c: Company, l: string) {
    c.valuation.Some? && l in c.cities
  }

  function ValuedCities(cs: seq<Company>): (r: seq<string>)
    ensures forall l :: l in r <==> exists c :: c in cs && ValuedAt(c, l)
  {
    if cs == [] then []
    else
      var init := cs[..|cs| - 1];
      var c := cs[|cs| - 1];
      assert cs == init + [c];
      assert forall x :: x in cs <==> x in init || x == c;
      var r := ValuedCities(init) + if c.valuation.Some? then c.cities else [];
      forall l | l in r
        ensures exists c' :: c' in cs && ValuedAt(c', l)
      {
        if l !in ValuedCities(init) {
          assert ValuedAt(c, l);
        }
      }
      forall l, c' | c' in cs && ValuedAt(c', l)
        ensures l in r
      {
        if c' != c {
          assert c' in init;
        }
      }
      r
  }

  function CityMembers(cs: seq<Company>, l: string): (r: seq<Company>)
    ensures forall c :: c in r <==> c in cs && ValuedAt(c, l)
  {
    Filter(cs, (c: Company) => ValuedAt(c, l))
  }

  function LocationStatOf(cs: seq<Company>, l: string): LocationStat {
    var m := CityMembers(cs, l);
    LocationStat(l, |m|, TotalValuation(m))
  }

  function CountKey(st: LocationStat): Key { Key(st.companyCount, 0, 0) }

  /// One grouped row per city with a valued company.
  function LocationStatRows(cs: seq<Company>): (rows: seq<LocationStat>)
    ensures forall i, j :: 0 <= i < j < |rows| ==> rows[i].city != rows[j].city
    ensures forall st :: st in rows ==> st == LocationStatOf(cs, st.city) && st.companyCount >= 1
    ensures forall c, l :: c in cs && c.valuation.Some? && l in c.cities ==> LocationStatOf(cs, l) in rows
  {
    var names := Distinct(ValuedCities(cs));
    var rowOf := l => LocationStatOf(cs, l);
    var rows := Map(names, rowOf);
    MapMembers(names, rowOf);
    forall st | st in rows
      ensures st == LocationStatOf(cs, st.city) && st.companyCount >= 1
    {
      var l :| l in names && st == LocationStatOf(cs, l);
      var c :| c in cs && ValuedAt(c, l);
      assert c in CityMembers(cs, l);
    }
    forall c, l | c in cs && c.valuation.Some? && l in c.cities
      ensures LocationStatOf(cs, l) in rows
    {
      assert ValuedAt(c, l);
      assert l in names;
    }
    rows
  }

  /// `get_location_stats`: one row per city with a valued company, by
  /// company count, not truncated.
  function LocationStats(g: Graph): (r: seq<LocationStat>)
    ensures forall st :: st in r ==> st == LocationStatOf(g.companies, st.city) && st.companyCount >= 1
    ensures forall c, l :: c in g.companies && c.valuation.Some? && l in c.cities ==> LocationStatOf(g.companies, l) in r
    ensures forall i, j :: 0 <= i < j < |r| ==> r[i].companyCount >= r[j].companyCount
    ensures forall i, j :: 0 <= i < j < |r| ==> r[i].city != r[j].city
  {
    var rows := LocationStatRows(g.companies);
    var r := SortDesc(rows, CountKey);
    SubMultisetDistinctBy(r, rows, (st: LocationStat) => st.city);
    SortedMajor(r, CountKey);
    r
  }

  // ---------------------------------------------------------------------
  // Graph statistics
  // ---------------------------------------------------------------------

  datatype Stats = Stats(companies: nat, investors: nat, sectors: nat, locations: nat, relationships: nat)

  function SectorNames(cs: seq<Company>): (r: seq<string>)
    ensures NoDups(r)
    ensures forall s :: s in r <==> exists c :: c in cs && c.sector == Some(s)
  {
    var f := (c: Company) => if c.sector.Some? then [c.sector.value] else [];
    FlatMapMembers(cs, f);
    Distinct(FlatMap(cs, f))
  }

  function CityNames(cs: seq<Company>): (r: seq<string>)
    ensures NoDups(r)
    ensures forall l :: l in r <==> exists c :: c in cs && l in c.cities
  {
    var f := (c: Company) => c.cities;
    FlatMapMembers(cs, f);
    Distinct(FlatMap(cs, f))
  }

  /// The `(sector)-[:HAS_SUBSECTOR]->(subsector)` edges, each once.
  function SubsectorLinks(cs: seq<Company>): seq<(string, string)> {
    Distinct(FlatMap(cs, (c: Company) =>
      if c.sector.Some? && c.subsector.Some? then [(c.sector.value, c.subsector.value)] else []))
  }

  /// The edges that hang off one company node.
  function EdgesOf(c: Company): nat {
    (if c.sector.Some? then 1 else 0)
    + (if c.sector.Some? && c.subsector.Some? then 1 else 0)
    + |Distinct(c.cities)| + |Distinct(c.investors)|
  }

  function CompanyEdges(cs: seq<Company>): (r: nat)
    ensures (exists c :: c in cs && c.investors != []) ==> r > 0
  {
    if cs == [] then 0
    else
      var init := cs[..|cs| - 1];
      var c := cs[|cs| - 1];
      assert cs == init + [c];
      assert c.investors != [] ==> c.investors[0] in Distinct(c.investors);
      CompanyEdges(init) + EdgesOf(c)
  }

  /// `MATCH ()-[r]->() ... count(r)`.
  function RelationshipCount(g: Graph): nat {
    CompanyEdges(g.companies) + |SubsectorLinks(g.companies)|
  }

  /// `get_graph_stats`. Each `MATCH ... WITH <keys>, count(x)` groups by the
  /// counts so far, so a label with no node empties the result.
  function GraphStats(g: Graph): (r: Option<Stats>)
    ensures r.None? <==>
      || (forall c :: c in g.companies ==> c.investors == [])
      || (forall c :: c in g.companies ==> c.sector.None?)
      || (forall c :: c in g.companies ==> c.cities == [])
    ensures r.Some? ==> r.value.companies == |g.companies|
    ensures r.Some? ==> r.value.investors == |InvestorNames(g.companies)| && r.value.sectors == |SectorNames(g.companies)|
    ensures r.Some? ==> r.value.locations == |CityNames(g.companies)| && r.value.relationships >= r.value.investors
    ensures r.Some? ==> r.value.relationships == RelationshipCount(g)
  {
    var cs := g.companies;
    var investors := |InvestorNames(cs)|;
    var sectors := |SectorNames(cs)|;
    var locations := |CityNames(cs)|;
    var relationships := RelationshipCount(g);
    EmptyNames(cs);
    if investors == 0 || sectors == 0 || locations == 0 || relationships == 0 then None
    else
      EdgesCoverInvestors(cs);
      Some(Stats(|cs|, investors, sectors, locations, relationships))
  }

  lemma EmptyNames(cs: seq<Company>)
    ensures |InvestorNames(cs)| == 0 <==> forall c :: c in cs ==> c.investors == []
    ensures |SectorNames(cs)| == 0 <==> forall c :: c in cs ==> c.sector.None?
    ensures |CityNames(cs)| == 0 <==> forall c :: c in cs ==> c.cities == []
  {
    if |InvestorNames(cs)| > 0 {
      assert InvestorNames(cs)[0] in InvestorNames(cs);
    }
    if |SectorNames(cs)| > 0 {
      assert SectorNames(cs)[0] in SectorNames(cs);
    }
    if |CityNames(cs)| > 0 {
      assert CityNames(cs)[0] in CityNames(cs);
    }
    forall c | c in cs && c.investors != []
      ensures |InvestorNames(cs)| > 0
    {
      assert c.investors[0] in InvestorNames(cs);
    }
    forall c | c in cs && c.cities != []
      ensures |CityNames(cs)| > 0
    {
      assert c.cities[0] in CityNames(cs);
    }
    forall c | c in cs && c.sector.Some?
      ensures |SectorNames(cs)| > 0
    {
      assert c.sector.value in SectorNames(cs);
    }
  }

  /// Every investor node has at least one `INVESTED_IN` edge of its own.
  lemma {:induction false} EdgesCoverInvestors(cs: seq<Company>)
    ensures CompanyEdges(cs) >= |InvestorNames(cs)|
  {
    if cs != [] {
      var init := cs[..|cs| - 1];
      var c := cs[|cs| - 1];
      assert cs == init + [c];
      EdgesCoverInvestors(init);
      NamesOfAppend(init, c);
    }
  }

  lemma NamesOfAppend(init: seq<Company>, c: Company)
    ensures |InvestorNames(init + [c])| <= |InvestorNames(init)| + |Distinct(c.investors)|
  {
    var a := InvestorNames(init);
    var b := Distinct(c.investors);
    var all := InvestorNames(init + [c]);
    assert forall n :: n in all ==> n in a || n in b;
    SubsetCard(all, a + b);
  }

  // ---------------------------------------------------------------------
  // Similarity
  // ---------------------------------------------------------------------

  datatype SimilarRow = SimilarRow(company: string, valuation: Option<Val>, similarityScore: nat)

  predicate SharesCity(target: Company, c: Company) {
    exists l :: l in c.cities && l in target.cities
  }

  predicate SharesInvestor(target: Company, c: Company) {
    exists i :: i in c.investors && i in target.investors
  }

  /// One point each for the same sector, a shared city and a shared investor.
  function Score(target: Company, c: Company): (s: nat)
    ensures s <= 3
    ensures s > 0 <==> (target.sector.Some? && c.sector == target.sector) || SharesCity(target, c) || SharesInvestor(target, c)
  {
    (if target.sector.Some? && c.sector == target.sector then 1 else 0)
    + (if SharesCity(target, c) then 1 else 0)
    + (if SharesInvestor(target, c) then 1 else 0)
  }

  /// The score as the query computes it: the `OPTIONAL MATCH
  /// (similar)-[:OPERATES_IN]->(s)` keeps `s` bound when it fails, so the
  /// sector point goes to every candidate as soon as the target has a sector.
  function ScoreAsWritten(target: Company, c: Company): (s: nat)
    ensures s <= 3
    ensures target.sector.Some? ==> s >= 1
  {
    (if target.sector.Some? then 1 else 0)
    + (if SharesCity(target, c) then 1 else 0)
    + (if SharesInvestor(target, c) then 1 else 0)
  }

  function ScoreBy(asWritten: bool, target: Company, c: Company): nat {
    if asWritten then ScoreAsWritten(target, c) else Score(target, c)
  }

  /// Candidate `j` is another company than the target and scores.
  predicate Candidate(cs: seq<Company>, ti: nat, j: nat, asWritten: bool)
    requires ti < |cs|
  {
    j < |cs| && j != ti && ScoreBy(asWritten, cs[ti], cs[j]) > 0
  }

  function SimilarRowOf(cs: seq<Company>, ti: nat, j: nat, asWritten: bool): SimilarRow
    requires ti < |cs| && j < |cs|
  {
    SimilarRow(cs[j].name, cs[j].valuation, ScoreBy(asWritten, cs[ti], cs[j]))
  }

  /// The scoring candidates among the first `n` companies.
  function SimilarRows(cs: seq<Company>, ti: nat, n: nat, asWritten: bool): (r: seq<SimilarRow>)
    requires ti < |cs| && n <= |cs|
    ensures forall row :: row in r ==> exists j :: 0 <= j < n && Candidate(cs, ti, j, asWritten) && row == SimilarRowOf(cs, ti, j, asWritten)
    ensures forall j :: 0 <= j < n && Candidate(cs, ti, j, asWritten) ==> SimilarRowOf(cs, ti, j, asWritten) in r
  {
    if n == 0 then []
    else
      var j := n - 1;
      SimilarRows(cs, ti, j, asWritten) + if Candidate(cs, ti, j, asWritten) then [SimilarRowOf(cs, ti, j, asWritten)] else []
  }

  /// Score first, then valuation with nulls first.
  function SimilarKey(row: SimilarRow): Key {
    var v := ValKey(row.valuation);
    Key(row.similarityScore, v.major, v.middle)
  }

  function Similar(g: Graph, name: string, limit: nat, asWritten: bool): (r: seq<SimilarRow>)
    ensures |r| <= limit
    ensures forall row :: row in r ==> 1 <= row.similarityScore <= 3
    ensures forall i, j :: 0 <= i < j < |r| ==>
      r[i].similarityScore > r[j].similarityScore
      || (r[i].similarityScore == r[j].similarityScore && ValGe(r[i].valuation, r[j].valuation))
    ensures Target(g, name).None? ==> r == []
    ensures forall row :: row in r ==> (Target(g, name).Some? &&
      exists j :: Candidate(g.companies, Target(g, name).value, j, asWritten) && row == SimilarRowOf(g.companies, Target(g, name).value, j, asWritten))
    ensures Target(g, name).Some? && |r| < limit ==> forall j :: Candidate(g.companies, Target(g, name).value, j, asWritten) ==>
      SimilarRowOf(g.companies, Target(g, name).value, j, asWritten) in r
  {
    var cs := g.companies;
    match Target(g, name)
    case None => []
    case Some(ti) =>
      var rows := SimilarRows(cs, ti, |cs|, asWritten);
      var r := TopBy(rows, SimilarKey, limit);
      SimilarOrder(r);
      r
  }

  lemma SimilarOrder(r: seq<SimilarRow>)
    requires SortedDesc(r, SimilarKey)
    ensures forall i, j :: 0 <= i < j < |r| ==>
      r[i].similarityScore > r[j].similarityScore
      || (r[i].similarityScore == r[j].similarityScore && ValGe(r[i].valuation, r[j].valuation))
  {
    forall i, j | 0 <= i < j < |r|
      ensures r[i].similarityScore > r[j].similarityScore
        || (r[i].similarityScore == r[j].similarityScore && ValGe(r[i].valuation, r[j].valuation))
    {
      assert KeyGe(SimilarKey(r[i]), SimilarKey(r[j]));
    }
  }

  /// `find_similar_companies` with the sector point awarded only for a
  /// shared sector.
  function SimilarCompanies(g: Graph, name: string, limit: nat): (r: seq<SimilarRow>)
    ensures |r| <= limit
    ensures forall row :: row in r ==> 1 <= row.similarityScore <= 3
    ensures forall i, j :: 0 <= i < j < |r| ==>
      r[i].similarityScore > r[j].similarityScore
      || (r[i].similarityScore == r[j].similarityScore && ValGe(r[i].valuation, r[j].valuation))
    ensures Target(g, name).None? ==> r == []
    ensures forall row :: row in r ==> (Target(g, name).Some? &&
      exists j :: Candidate(g.companies, Target(g, name).value, j, false) && row == SimilarRowOf(g.companies, Target(g, name).value, j, false))
    ensures Target(g, name).Some? && |r| < limit ==> forall j :: Candidate(g.companies, Target(g, name).value, j, false) ==>
      SimilarRowOf(g.companies, Target(g, name).value, j, false) in r
  {
    Similar(g, name, limit, false)
  }

  /// `find_similar_companies` as its query is written.
  function SimilarCompaniesAsWritten(g: Graph, name: string, limit: nat): (r: seq<SimilarRow>)
    ensures |r| <= limit
    ensures forall row :: row in r ==> 1 <= row.similarityScore <= 3
    ensures forall i, j :: 0 <= i < j < |r| ==>
      r[i].similarityScore > r[j].similarityScore
      || (r[i].similarityScore == r[j].similarityScore && ValGe(r[i].valuation, r[j].valuation))
    ensures Target(g, name).None? ==> r == []
    ensures forall row :: row in r ==> (Target(g, name).Some? &&
      exists j :: Candidate(g.companies, Target(g, name).value, j, true) && row == SimilarRowOf(g.companies, Target(g, name).value, j, true))
    ensures Target(g, name).Some? && |r| < limit ==> forall j :: Candidate(g.companies, Target(g, name).value, j, true) ==>
      SimilarRowOf(g.companies, Target(g, name).value, j, true) in r
  {
    Similar(g, name, limit, true)
  }

  /// A scoring candidate left out ranks no higher than any returned row:
  /// its score is lower, or equal with a valuation no higher.
  lemma SimilarMaximal(g: Graph, name: string, limit: nat, asWritten: bool, j: nat)
    requires Target(g, name).Some? && Candidate(g.companies, Target(g, name).value, j, asWritten)
    requires SimilarRowOf(g.companies, Target(g, name).value, j, asWritten) !in Similar(g, name, limit, asWritten)
    ensures var y := SimilarRowOf(g.companies, Target(g, name).value, j, asWritten);
      forall row :: row in Similar(g, name, limit, asWritten) ==>
        row.similarityScore > y.similarityScore
        || (row.similarityScore == y.similarityScore && ValGe(row.valuation, y.valuation))
  {
    var cs := g.companies;
    var ti := Target(g, name).value;
    var rows := SimilarRows(cs, ti, |cs|, asWritten);
    var y := SimilarRowOf(cs, ti, j, asWritten);
    var r := Similar(g, name, limit, asWritten);
    assert r == TopBy(rows, SimilarKey, limit);
    assert y in rows;
    assert multiset(r)[y] == 0 < multiset(rows)[y];
    TopByMaximal(rows, SimilarKey, limit, y);
    forall row | row in r
      ensures row.similarityScore > y.similarityScore
        || (row.similarityScore == y.similarityScore && ValGe(row.valuation, y.valuation))
    {
      assert KeyGe(SimilarKey(row), SimilarKey(y));
    }
  }

  /// The target never recommends itself; with unique names, no returned row
  /// carries the target's name.
  lemma SimilarExcludesTarget(g: Graph, name: string, limit: nat, asWritten: bool)
    requires Valid(g)
    ensures forall row :: row in Similar(g, name, limit, asWritten) ==>
      Target(g, name).Some? && row.company != g.companies[Target(g, name).value].name
  {
  }

  /// In the corrected query every returned company shares its sector, a
  /// city or an investor with the target.
  lemma SimilarSharesSomething(g: Graph, name: string, limit: nat, row: SimilarRow)
    requires row in SimilarCompanies(g, name, limit)
    ensures Target(g, name).Some?
    ensures var t := g.companies[Target(g, name).value];
      exists c :: c in g.companies && c.name == row.company &&
        ((t.sector.Some? && c.sector == t.sector) || SharesCity(t, c) || SharesInvestor(t, c))
  {
    var ti := Target(g, name).value;
    var j: nat :| Candidate(g.companies, ti, j, false) && row == SimilarRowOf(g.companies, ti, j, false);
    assert g.companies[j] in g.companies;
  }

  /// Two companies that share nothing: a fintech target and an edtech
  /// candidate in different cities with different investors.
  function UnrelatedPair(): Graph {
    Graph([
      Company("Paytm", Some(160), None, None, Some(1), Some("Fintech"), None, ["Noida"], ["SoftBank"]),
      Company("Unacademy", Some(34), None, None, Some(2), Some("Edtech"), None, ["Bengaluru"], ["General Atlantic"])])
  }

  /// The query as written recommends the unrelated company with score 1;
  /// the corrected one returns nothing.
  lemma SimilarSectorPointCounterexample()
    ensures SimilarCompaniesAsWritten(UnrelatedPair(), "paytm", 5) == [SimilarRow("Unacademy", Some(34), 1)]
    ensures SimilarCompanies(UnrelatedPair(), "paytm", 5) == []
  {
    var g := UnrelatedPair();
    var cs := g.companies;
    assert Lower("Paytm") == "paytm";
    assert Lower("paytm") == "paytm";
    assert OccursAt("paytm", "paytm", 0);
    assert Target(g, "paytm") == Some(0);
    assert !SharesCity(cs[0], cs[1]);
    assert !SharesInvestor(cs[0], cs[1]);
    assert SimilarRows(cs, 0, 2, true) == [SimilarRow("Unacademy", Some(34), 1)];
    assert SimilarRows(cs, 0, 2, false) == [];
  }

  /// Every lookup lower-cases its term before matching, so two spellings of
  /// a term that differ only in case give the same answer.
  lemma LookupsIgnoreCase(g: Graph, a: string, b: string, limit: nat)
    requires Lower(a) == Lower(b)
    ensures SearchCompanies(g, a, limit) == SearchCompanies(g, b, limit)
    ensures CompanyDetails(g, a) == CompanyDetails(g, b)
    ensures InvestorPortfolio(g, a, limit) == InvestorPortfolio(g, b, limit)
    ensures CoInvestors(g, a, limit) == CoInvestors(g, b, limit)
    ensures SectorCompanies(g, a, limit) == SectorCompanies(g, b, limit)
    ensures CityCompanies(g, a, limit) == CityCompanies(g, b, limit)
    ensures SimilarCompanies(g, a, limit) == SimilarCompanies(g, b, limit)
  {
  }

  /// In particular the upper-cased term finds exactly what the term finds.
  lemma UpperCaseLookups(g: Graph, term: string, limit: nat)
    ensures SearchCompanies(g, Upper(term), limit) == SearchCompanies(g, term, limit)
    ensures CompanyDetails(g, Upper(term)) == CompanyDetails(g, term)
    ensures InvestorPortfolio(g, Upper(term), limit) == InvestorPortfolio(g, term, limit)
    ensures CoInvestors(g, Upper(term), limit) == CoInvestors(g, term, limit)
    ensures SectorCompanies(g, Upper(term), limit) == SectorCompanies(g, term, limit)
    ensures CityCompanies(g, Upper(term), limit) == CityCompanies(g, term, limit)
    ensures SimilarCompanies(g, Upper(term), limit) == SimilarCompanies(g, term, limit)
  {
    LowerOfUpper(term);
    LookupsIgnoreCase(g, Upper(term), term, limit);
  }
}
