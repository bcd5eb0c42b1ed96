/// The `_format_*` methods of `ContextBuilder` (src/rag/context_builder.py):
/// each query result becomes a Markdown block, a bold header line followed
/// by one line per row or a comma-separated list.
module Formatting {
  import opened Wrappers
  import opened Seqs
  import opened Text
  import opened GraphQueries
  import KgParse

  // ---------------------------------------------------------------------
  // Rendering values the way an f-string does
  // ---------------------------------------------------------------------

  /// A valuation as Python prints the float it stands for: "12.5", "10.0".
  function ShowVal(v: Val): string {
    NatToString(v / 10) + "." + [DigitChar(v % 10)]
  }

  /// A value that may be null; Python renders `None` as "None".
  function ShowOptVal(v: Option<Val>): string {
    match v
    case None => "None"
    case Some(x) => ShowVal(x)
  }

  function ShowOptStr(s: Option<string>): string {
    match s
    case None => "None"
    case Some(x) => x
  }

  /// Distinct valuations are rendered differently: the text determines the
  /// value.
  lemma ShowValInjective(a: Val, b: Val)
    ensures ShowVal(a) == ShowVal(b) ==> a == b
  {
    if ShowVal(a) == ShowVal(b) {
      var sa := ShowVal(a);
      var n := |sa|;
      assert n == |NatToString(a / 10)| + 2;
      assert n == |NatToString(b / 10)| + 2;
      assert sa[n - 1] == DigitChar(a % 10) && sa[n - 1] == DigitChar(b % 10);
      assert NatToString(a / 10) == sa[..n - 2] == NatToString(b / 10);
      NatToStringRoundTrip(a / 10);
      NatToStringRoundTrip(b / 10);
    }
  }

  /// A rendered valuation is digits around one decimal point.
  lemma ShowValChars(v: Val)
    ensures forall c :: c in ShowVal(v) ==> IsDigit(c) || c == '.'
  {
  }

  /// A field that may be null and holds no comma.
  predicate CommaFreeOpt(s: Option<string>) { s.None? || ',' !in s.value }

  lemma ShowIsCommaFree(v: Option<Val>, s: Option<string>)
    requires CommaFreeOpt(s)
    ensures ',' !in ShowOptVal(v) && ',' !in ShowOptStr(s)
  {
    if v.Some? {
      ShowValChars(v.value);
    }
  }

  /// A field that may be null and holds no newline.
  predicate OneLineOpt(s: Option<string>) { s.None? || '\n' !in s.value }

  lemma ShowIsOneLine(v: Option<Val>, s: Option<string>, n: nat)
    requires OneLineOpt(s)
    ensures '\n' !in ShowOptVal(v) && '\n' !in ShowOptStr(s) && '\n' !in NatToString(n)
  {
    if v.Some? {
      ShowValChars(v.value);
    }
    DigitsHaveNoSeparators(n);
  }

  // ---------------------------------------------------------------------
  // Blocks of lines
  // ---------------------------------------------------------------------

  /// The headers of the ranking and statistics blocks.
  const TopCompaniesHeader := "**Top Unicorns by Valuation:**"
  const TopInvestorsHeader := "**Most Active Investors:**"
  const SectorStatsHeader := "**Sector Statistics:**"
  const LocationStatsHeader := "**Location Statistics:**"
  const GraphStatsHeader := "**Indian Unicorn Startups Database:**"

  lemma TopCompaniesHeaderPlain()
    ensures '\n' !in TopCompaniesHeader
  {
  }

  lemma TopInvestorsHeaderPlain()
    ensures '\n' !in TopInvestorsHeader
  {
  }

  lemma SectorStatsHeaderPlain()
    ensures '\n' !in SectorStatsHeader
  {
  }

  lemma LocationStatsHeaderPlain()
    ensures '\n' !in LocationStatsHeader
  {
  }

  lemma GraphStatsHeaderPlain()
    ensures '\n' !in GraphStatsHeader
  {
  }

  /// `'\n'.join([header] + lines)`
  function Block(header: string, lines: seq<string>): string {
    Join([header] + lines, "\n")
  }

  /// A block made of lines without newlines splits back into those lines.
  lemma BlockLines(header: string, lines: seq<string>)
    requires '\n' !in header
    requires forall i :: 0 <= i < |lines| ==> '\n' !in lines[i]
    ensures SplitChar(Block(header, lines), '\n') == [header] + lines
  {
    var all := [header] + lines;
    forall x | x in all
      ensures '\n' !in x
    {
      var k :| 0 <= k < |all| && all[k] == x;
      if k > 0 {
        assert x == lines[k - 1];
      }
    }
    SplitJoin(all, '\n');
  }

  // ---------------------------------------------------------------------
  // _format_company_details
  // ---------------------------------------------------------------------

  /// The "Key Investors" entry: at most seven names, then how many more.
  function InvestorSummary(investors: seq<string>): string {
    if investors == [] then "N/A"
    else
      Join(Take(investors, 7), ", ")
      + if |investors| > 7 then " (+" + NatToString(|investors| - 7) + " more)" else ""
  }

  /// The sub-sector in parentheses when it is present and non-empty.
  function SubsectorNote(subsector: Option<string>): string {
    if subsector.Some? && subsector.value != "" then "(" + subsector.value + ")" else ""
  }

  function CompanyDetailsLines(d: Details): seq<string> {
    var locations := Join(d.locations, ", ");
    [ "- Sector: " + ShowOptStr(d.sector) + " " + SubsectorNote(d.subsector),
      "- Current Valuation: $" + ShowOptVal(d.valuation) + "B",
      "- Entry Valuation: $" + ShowOptVal(d.entryValuation) + "B",
      "- Entry Date: " + ShowOptStr(d.entryDate),
      "- Locations: " + (if locations == "" then "N/A" else locations),
      "- Key Investors: " + InvestorSummary(d.investors) ]
  }

  /// `_format_company_details`
  function FormatCompanyDetails(d: Details): string {
    Block("**Company: " + d.company + "**", CompanyDetailsLines(d))
  }

  predicate PlainDetails(d: Details) {
    && '\n' !in d.company
    && OneLineOpt(d.sector) && OneLineOpt(d.subsector) && OneLineOpt(d.entryDate)
    && (forall l :: l in d.locations ==> '\n' !in l)
    && (forall n :: n in d.investors ==> '\n' !in n)
  }

  lemma {:induction false} JoinKeepsNewlinesOut(xs: seq<string>, sep: string)
    requires forall x :: x in xs ==> '\n' !in x
    requires '\n' !in sep
    ensures '\n' !in Join(xs, sep)
  {
    CharNotInJoin(xs, sep, '\n');
  }

  /// The details block is seven lines: the company header, then sector,
  /// current and entry valuation, entry date, locations and investors.
  lemma CompanyDetailsLayout(d: Details)
    requires PlainDetails(d)
    ensures |SplitChar(FormatCompanyDetails(d), '\n')| == 7
    ensures SplitChar(FormatCompanyDetails(d), '\n')[0] == "**Company: " + d.company + "**"
    ensures SplitChar(FormatCompanyDetails(d), '\n')[6] == "- Key Investors: " + InvestorSummary(d.investors)
  {
    DetailsLinesPlain(d);
    BlockLines("**Company: " + d.company + "**", CompanyDetailsLines(d));
  }

  lemma DetailsLinesPlain(d: Details)
    requires PlainDetails(d)
    ensures forall i :: 0 <= i < |CompanyDetailsLines(d)| ==> '\n' !in CompanyDetailsLines(d)[i]
  {
    ValuationLinesPlain(d);
    var lines := CompanyDetailsLines(d);
    assert '\n' !in lines[0] by {
      ShowIsOneLine(d.valuation, d.sector, 0);
    }
    assert '\n' !in lines[4] by {
      JoinKeepsNewlinesOut(d.locations, ", ");
    }
    assert '\n' !in lines[5] by {
      InvestorSummaryPlain(d.investors);
    }
  }

  lemma ValuationLinesPlain(d: Details)
    requires PlainDetails(d)
    ensures var lines := CompanyDetailsLines(d);
      '\n' !in lines[1] && '\n' !in lines[2] && '\n' !in lines[3]
  {
    ShowIsOneLine(d.valuation, d.sector, 0);
    ShowIsOneLine(d.entryValuation, d.entryDate, 0);
  }

  lemma InvestorSummaryPlain(investors: seq<string>)
    requires forall n :: n in investors ==> '\n' !in n
    ensures '\n' !in InvestorSummary(investors)
  {
    if investors != [] {
      var shown := Take(investors, 7);
      assert forall n :: n in shown ==> n in investors;
      JoinKeepsNewlinesOut(shown, ", ");
      if |investors| > 7 {
        DigitsHaveNoSeparators(|investors| - 7);
      }
    }
  }

  /// Up to seven investors are listed in full, in a form the dataset's own
  /// investors parser reads back unchanged.
  lemma InvestorSummaryReadsBack(investors: seq<string>)
    requires 1 <= |investors| <= 7
    requires forall n :: n in investors ==> n != [] && ',' !in n && '"' !in n && IsStripped(n, Whitespace)
    ensures KgParse.ParseInvestors(Some(InvestorSummary(investors))) == investors
  {
    assert Take(investors, 7) == investors;
    assert Join(investors, ", ") + "" == Join(investors, ", ");
    assert InvestorSummary(investors) == Join(investors, ", ");
    KgParse.InvestorsRoundTrip(investors);
  }

  /// Past seven investors only the first seven are named, in order, and
  /// the summary ends by counting the rest.
  lemma InvestorSummaryTruncates(investors: seq<string>)
    requires |investors| > 7
    requires forall n :: n in investors ==> ',' !in n
    ensures CountChar(InvestorSummary(investors), ',') == 6
    ensures var s := InvestorSummary(investors);
      var more := " (+" + NatToString(|investors| - 7) + " more)";
      && |more| <= |s| && s[|s| - |more|..] == more
      && var names := SplitChar(s[..|s| - |more|], ',');
      && |names| == 7 && names[0] == investors[0]
      && forall i :: 1 <= i < 7 ==> names[i] == " " + investors[i]
  {
    var shown := investors[..7];
    var more := " (+" + NatToString(|investors| - 7) + " more)";
    var s := InvestorSummary(investors);
    assert Take(investors, 7) == shown;
    assert s == Join(shown, ", ") + more;
    SummaryCommas(investors, shown, more);
    assert s[..|s| - |more|] == "" + Join(shown, ", ");
    assert s[|s| - |more|..] == more;
    assert forall n :: n in shown ==> n in investors;
    SplitPaddedJoin(shown, ',', ' ', "");
    assert "" + shown[0] == investors[0];
  }

  lemma SummaryCommas(investors: seq<string>, shown: seq<string>, more: string)
    requires |investors| > 7 && shown == investors[..7]
    requires more == " (+" + NatToString(|investors| - 7) + " more)"
    requires forall n :: n in investors ==> ',' !in n
    ensures CountChar(Join(shown, ", ") + more, ',') == 6
  {
    assert forall n :: n in shown ==> n in investors;
    CommaCountOfJoin(shown);
    DigitsHaveNoSeparators(|investors| - 7);
    CountCharAppend(Join(shown, ", "), more, ',');
    CountCharAbsent(more, ',');
  }

  // ---------------------------------------------------------------------
  // _format_investor_portfolio, _format_sector_companies,
  // _format_city_companies
  // ---------------------------------------------------------------------

  function PortfolioEntry(p: PortfolioRow): string {
    p.company + " ($" + ShowOptVal(p.valuation) + "B - " + ShowOptStr(p.sector) + ")"
  }

  /// `_format_investor_portfolio`: empty for an empty portfolio; otherwise
  /// the first row's investor, the row count and every company.
  function FormatInvestorPortfolio(portfolio: seq<PortfolioRow>): (r: string)
    ensures r == "" <==> portfolio == []
  {
    if portfolio == [] then ""
    else
      PortfolioHead(portfolio[0].investor, |portfolio|) + Join(Map(portfolio, PortfolioEntry), ", ")
  }

  /// The investor's name line and the start of the portfolio line.
  function PortfolioHead(investor: string, count: nat): string {
    "**Investor: " + investor + "**\n- Portfolio (" + NatToString(count) + " companies): "
  }

  lemma PortfolioHeadPlain(investor: string, count: nat)
    requires ',' !in investor
    ensures ',' !in PortfolioHead(investor, count)
  {
    DigitsHaveNoSeparators(count);
    assert ',' !in "**Investor: " && ',' !in "**\n- Portfolio (" && ',' !in " companies): ";
  }

  /// Every company of a portfolio is listed, in order: with comma-free
  /// fields, splitting the text at ',' gives the head with the first
  /// row's entry, then the entry of each further row after one blank.
  lemma PortfolioListsEveryCompany(portfolio: seq<PortfolioRow>)
    requires portfolio != []
    requires forall p :: p in portfolio ==> ',' !in p.investor && ',' !in p.company && CommaFreeOpt(p.sector)
    ensures CountChar(FormatInvestorPortfolio(portfolio), ',') == |portfolio| - 1
    ensures var parts := SplitChar(FormatInvestorPortfolio(portfolio), ',');
      && |parts| == |portfolio|
      && parts[0] == PortfolioHead(portfolio[0].investor, |portfolio|) + PortfolioEntry(portfolio[0])
      && forall i :: 1 <= i < |portfolio| ==> parts[i] == " " + PortfolioEntry(portfolio[i])
  {
    var entries := Map(portfolio, PortfolioEntry);
    assert forall i :: 0 <= i < |entries| ==> ',' !in entries[i] by {
      forall i | 0 <= i < |entries|
        ensures ',' !in entries[i]
      {
        assert portfolio[i] in portfolio;
        PortfolioEntryPlain(portfolio[i]);
      }
    }
    assert portfolio[0] in portfolio;
    PortfolioHeadPlain(portfolio[0].investor, |portfolio|);
    CommasAfterHead(PortfolioHead(portfolio[0].investor, |portfolio|), entries);
    ListReadsBack(PortfolioHead(portfolio[0].investor, |portfolio|), entries);
  }

  /// A comma-free head followed by comma-free entries joined with ", "
  /// splits at ',' into the head glued to the first entry, then every
  /// further entry after one blank.
  lemma ListReadsBack(head: string, entries: seq<string>)
    requires ',' !in head
    requires entries != []
    requires forall i :: 0 <= i < |entries| ==> ',' !in entries[i]
    ensures var parts := SplitChar(head + Join(entries, ", "), ',');
      && |parts| == |entries|
      && parts[0] == head + entries[0]
      && forall i :: 1 <= i < |entries| ==> parts[i] == " " + entries[i]
  {
    assert forall x :: x in entries ==> ',' !in x;
    SplitPaddedJoin(entries, ',', ' ', head);
  }

  /// A comma-free head followed by comma-free entries joined with ", " has
  /// one comma fewer than there are entries.
  lemma CommasAfterHead(head: string, entries: seq<string>)
    requires ',' !in head
    requires forall i :: 0 <= i < |entries| ==> ',' !in entries[i]
    ensures CountChar(head + Join(entries, ", "), ',') == if entries == [] then 0 else |entries| - 1
  {
    CommaCountOfJoin(entries);
    CountCharAbsent(head, ',');
    CountCharAppend(head, Join(entries, ", "), ',');
  }

  lemma PortfolioEntryPlain(p: PortfolioRow)
    requires ',' !in p.company && CommaFreeOpt(p.sector)
    ensures ',' !in PortfolioEntry(p)
  {
    ShowIsCommaFree(p.valuation, p.sector);
  }

  function SectorEntry(row: SectorRow): string {
    row.company + " ($" + ShowOptVal(row.valuation) + "B)"
  }

  /// `_format_sector_companies`
  function FormatSectorCompanies(sector: string, rows: seq<SectorRow>): string {
    "**" + sector + " Sector Companies:**\n" + Join(Map(rows, SectorEntry), ", ")
  }

  /// Every company of the sector is listed, in order: the header line,
  /// then the entries separated by ", ".
  lemma SectorListsEveryCompany(sector: string, rows: seq<SectorRow>)
    requires ',' !in sector
    requires forall row :: row in rows ==> ',' !in row.company
    ensures CountChar(FormatSectorCompanies(sector, rows), ',') == if rows == [] then 0 else |rows| - 1
    ensures rows != [] ==> var parts := SplitChar(FormatSectorCompanies(sector, rows), ',');
      && |parts| == |rows|
      && parts[0] == "**" + sector + " Sector Companies:**\n" + SectorEntry(rows[0])
      && forall i :: 1 <= i < |rows| ==> parts[i] == " " + SectorEntry(rows[i])
  {
    var entries := Map(rows, SectorEntry);
    assert forall i :: 0 <= i < |entries| ==> ',' !in entries[i] by {
      forall i | 0 <= i < |entries|
        ensures ',' !in entries[i]
      {
        assert rows[i] in rows;
        SectorEntryPlain(rows[i]);
      }
    }
    CommasAfterHead("**" + sector + " Sector Companies:**\n", entries);
    if rows != [] {
      ListReadsBack("**" + sector + " Sector Companies:**\n", entries);
    }
  }

  lemma SectorEntryPlain(row: SectorRow)
    requires ',' !in row.company
    ensures ',' !in SectorEntry(row)
  {
    ShowIsCommaFree(row.valuation, None);
  }

  /// A city entry holds a comma of its own, between the sector and the
  /// valuation: `CityLead(row) + ", " + CityTail(row)`.
  function CityLead(row: CompanyRow): string {
    row.company + " (" + ShowOptStr(row.sector)
  }

  function CityTail(row: CompanyRow): string {
    "$" + ShowOptVal(row.valuation) + "B)"
  }

  function CityEntry(row: CompanyRow): string {
    CityLead(row) + ", " + CityTail(row)
  }

  /// `_format_city_companies`
  function FormatCityCompanies(city: string, rows: seq<CompanyRow>): string {
    "**Companies in " + city + ":**\n" + Join(Map(rows, CityEntry), ", ")
  }

  /// The halves of the city entries, in order: lead and tail of each row.
  function CityHalves(rows: seq<CompanyRow>): (r: seq<string>)
    ensures |r| == 2 * |rows|
    ensures forall i :: 0 <= i < |rows| ==> r[2 * i] == CityLead(rows[i]) && r[2 * i + 1] == CityTail(rows[i])
  {
    if rows == [] then []
    else
      var rest := CityHalves(rows[1..]);
      var r := [CityLead(rows[0]), CityTail(rows[0])] + rest;
      forall i | 1 <= i < |rows|
        ensures r[2 * i] == CityLead(rows[i]) && r[2 * i + 1] == CityTail(rows[i])
      {
        var k := i - 1;
        assert rest[2 * k] == CityLead(rows[1..][k]) && rest[2 * k + 1] == CityTail(rows[1..][k]);
        assert r[2 * i] == rest[2 * k] && r[2 * i + 1] == rest[2 * k + 1];
      }
      r
  }

  /// Joining the entries with ", " is joining their halves with ", ".
  lemma {:induction false} CityJoin(rows: seq<CompanyRow>)
    ensures Join(Map(rows, CityEntry), ", ") == Join(CityHalves(rows), ", ")
  {
    if |rows| == 1 {
      assert Map(rows, CityEntry) == [CityEntry(rows[0])];
      JoinPairOfHalves(CityEntry(rows[0]), CityLead(rows[0]), CityTail(rows[0]));
    } else if |rows| > 1 {
      var entries := Map(rows, CityEntry);
      assert entries == [CityEntry(rows[0])] + Map(rows[1..], CityEntry);
      CityJoin(rows[1..]);
      JoinHalvesStep(CityEntry(rows[0]), CityLead(rows[0]), CityTail(rows[0]), Map(rows[1..], CityEntry), CityHalves(rows[1..]));
    }
  }

  lemma JoinPairOfHalves(e: string, l: string, t: string)
    requires e == l + ", " + t
    ensures Join([e], ", ") == Join([l, t], ", ")
  {
    assert [l, t][1..] == [t];
  }

  /// One entry split into its two halves in front of lists that join alike.
  lemma JoinHalvesStep(e: string, l: string, t: string, es: seq<string>, hs: seq<string>)
    requires e == l + ", " + t
    requires es != [] && hs != [] && Join(es, ", ") == Join(hs, ", ")
    ensures Join([e] + es, ", ") == Join([l, t] + hs, ", ")
  {
    var j := Join(hs, ", ");
    assert ([e] + es)[1..] == es;
    assert Join([e] + es, ", ") == e + ", " + j;
    var h := [l, t] + hs;
    assert h[1..] == [t] + hs;
    assert h[1..][1..] == hs;
    assert Join(h[1..], ", ") == t + ", " + j;
    assert Join(h, ", ") == l + ", " + (t + ", " + j);
  }

  /// Every company of the city is listed, in order: splitting the text at
  /// ',' gives each entry in two pieces, its company and sector before its
  /// own comma and its valuation after it.
  lemma CityListsEveryCompany(city: string, rows: seq<CompanyRow>)
    requires rows != [] && ',' !in city
    requires forall row :: row in rows ==> ',' !in row.company && CommaFreeOpt(row.sector)
    ensures var parts := SplitChar(FormatCityCompanies(city, rows), ',');
      && |parts| == 2 * |rows|
      && parts[0] == "**Companies in " + city + ":**\n" + CityLead(rows[0])
      && (forall i :: 1 <= i < |rows| ==> parts[2 * i] == " " + CityLead(rows[i]))
      && (forall i :: 0 <= i < |rows| ==> parts[2 * i + 1] == " " + CityTail(rows[i]))
  {
    CityTextIsHalves(city, rows);
    CityHalvesCommaFree(rows);
    CityTextParts(FormatCityCompanies(city, rows), "**Companies in " + city + ":**\n", rows);
  }

  lemma CityTextIsHalves(city: string, rows: seq<CompanyRow>)
    requires ',' !in city
    ensures ',' !in "**Companies in " + city + ":**\n"
    ensures FormatCityCompanies(city, rows) == "**Companies in " + city + ":**\n" + Join(CityHalves(rows), ", ")
  {
    CityJoin(rows);
  }

  /// The pieces of a head followed by the joined halves of the rows.
  lemma CityTextParts(text: string, head: string, rows: seq<CompanyRow>)
    requires rows != [] && ',' !in head
    requires text == head + Join(CityHalves(rows), ", ")
    requires forall i :: 0 <= i < |CityHalves(rows)| ==> ',' !in CityHalves(rows)[i]
    ensures var parts := SplitChar(text, ',');
      && |parts| == 2 * |rows|
      && parts[0] == head + CityLead(rows[0])
      && (forall i :: 1 <= i < |rows| ==> parts[2 * i] == " " + CityLead(rows[i]))
      && (forall i :: 0 <= i < |rows| ==> parts[2 * i + 1] == " " + CityTail(rows[i]))
  {
    var halves := CityHalves(rows);
    ListReadsBack(head, halves);
    CityPartsOfHalves(rows, halves, head, SplitChar(text, ','));
  }

  lemma CityHalvesCommaFree(rows: seq<CompanyRow>)
    requires forall row :: row in rows ==> ',' !in row.company && CommaFreeOpt(row.sector)
    ensures forall i :: 0 <= i < |CityHalves(rows)| ==> ',' !in CityHalves(rows)[i]
  {
    var halves := CityHalves(rows);
    forall i | 0 <= i < |halves|
      ensures ',' !in halves[i]
    {
      var k := i / 2;
      assert rows[k] in rows;
      CityHalvesPlain(rows[k]);
      assert i == 2 * k || i == 2 * k + 1;
    }
  }

  /// Pieces that are the halves, the first behind the head and the others
  /// behind a blank, are read row by row.
  lemma CityPartsOfHalves(rows: seq<CompanyRow>, halves: seq<string>, head: string, parts: seq<string>)
    requires rows != [] && |halves| == 2 * |rows|
    requires forall i :: 0 <= i < |rows| ==> halves[2 * i] == CityLead(rows[i]) && halves[2 * i + 1] == CityTail(rows[i])
    requires |parts| == |halves| && parts[0] == head + halves[0]
    requires forall i :: 1 <= i < |halves| ==> parts[i] == " " + halves[i]
    ensures |parts| == 2 * |rows|
    ensures parts[0] == head + CityLead(rows[0])
    ensures forall i :: 1 <= i < |rows| ==> parts[2 * i] == " " + CityLead(rows[i])
    ensures forall i :: 0 <= i < |rows| ==> parts[2 * i + 1] == " " + CityTail(rows[i])
  {
    assert halves[2 * 0] == CityLead(rows[0]);
  }

  lemma CityHalvesPlain(row: CompanyRow)
    requires ',' !in row.company && CommaFreeOpt(row.sector)
    ensures ',' !in CityLead(row) && ',' !in CityTail(row)
  {
    ShowIsCommaFree(row.valuation, row.sector);
  }

  // ---------------------------------------------------------------------
  // Numbered and bulleted line blocks
  // ---------------------------------------------------------------------

  function TopCompanyLine(rank: nat, row: CompanyRow): string {
    NatToString(rank) + ". " + row.company + " - $" + ShowOptVal(row.valuation) + "B (" + ShowOptStr(row.sector) + ")"
  }

  function TopCompanyLines(rows: seq<CompanyRow>): seq<string> {
    seq(|rows|, i requires 0 <= i < |rows| => TopCompanyLine(i + 1, rows[i]))
  }

  /// `_format_top_companies`: rows numbered from 1 in the order given.
  function FormatTopCompanies(rows: seq<CompanyRow>): string {
    Block(TopCompaniesHeader, TopCompanyLines(rows))
  }

  /// The ranking block has a header and then line `i` for row `i`, numbered
  /// from 1.
  lemma TopCompaniesNumbered(rows: seq<CompanyRow>)
    requires forall row :: row in rows ==> '\n' !in row.company && OneLineOpt(row.sector)
    ensures |SplitChar(FormatTopCompanies(rows), '\n')| == |rows| + 1
    ensures forall i :: 1 <= i <= |rows| ==>
      SplitChar(FormatTopCompanies(rows), '\n')[i] == TopCompanyLine(i, rows[i - 1])
  {
    var lines := TopCompanyLines(rows);
    TopCompaniesSplit(rows);
    var split := SplitChar(FormatTopCompanies(rows), '\n');
    assert split == [TopCompaniesHeader] + lines;
    forall i | 1 <= i <= |rows|
      ensures split[i] == TopCompanyLine(i, rows[i - 1])
    {
      var k := i - 1;
      assert lines[k] == TopCompanyLine(k + 1, rows[k]);
      assert split[i] == lines[k];
    }
  }

  lemma TopCompaniesSplit(rows: seq<CompanyRow>)
    requires forall row :: row in rows ==> '\n' !in row.company && OneLineOpt(row.sector)
    ensures SplitChar(FormatTopCompanies(rows), '\n') == [TopCompaniesHeader] + TopCompanyLines(rows)
  {
    TopCompanyLinesPlain(rows);
    TopCompaniesHeaderPlain();
    BlockLines(TopCompaniesHeader, TopCompanyLines(rows));
  }

  lemma TopCompanyLinesPlain(rows: seq<CompanyRow>)
    requires forall row :: row in rows ==> '\n' !in row.company && OneLineOpt(row.sector)
    ensures forall i :: 0 <= i < |TopCompanyLines(rows)| ==> '\n' !in TopCompanyLines(rows)[i]
  {
    var lines := TopCompanyLines(rows);
    forall i | 0 <= i < |lines|
      ensures '\n' !in lines[i]
    {
      assert rows[i] in rows;
      TopCompanyLinePlain(i + 1, rows[i]);
    }
  }

  lemma TopCompanyLinePlain(rank: nat, row: CompanyRow)
    requires '\n' !in row.company && OneLineOpt(row.sector)
    ensures '\n' !in TopCompanyLine(rank, row)
  {
    ShowIsOneLine(row.valuation, row.sector, rank);
  }

  function TopInvestorLine(rank: nat, row: InvestorRow): string {
    NatToString(rank) + ". " + row.investor + " - " + NatToString(row.investments)
    + " investments ($" + ShowVal(row.portfolioValue) + "B total)"
  }

  function TopInvestorLines(rows: seq<InvestorRow>): seq<string> {
    seq(|rows|, i requires 0 <= i < |rows| => TopInvestorLine(i + 1, rows[i]))
  }

  /// `_format_top_investors`
  function FormatTopInvestors(rows: seq<InvestorRow>): string {
    Block(TopInvestorsHeader, TopInvestorLines(rows))
  }

  lemma TopInvestorsNumbered(rows: seq<InvestorRow>)
    requires forall row :: row in rows ==> '\n' !in row.investor
    ensures |SplitChar(FormatTopInvestors(rows), '\n')| == |rows| + 1
    ensures forall i :: 1 <= i <= |rows| ==>
      SplitChar(FormatTopInvestors(rows), '\n')[i] == TopInvestorLine(i, rows[i - 1])
  {
    var lines := TopInvestorLines(rows);
    TopInvestorsSplit(rows);
    var split := SplitChar(FormatTopInvestors(rows), '\n');
    assert split == [TopInvestorsHeader] + lines;
    forall i | 1 <= i <= |rows|
      ensures split[i] == TopInvestorLine(i, rows[i - 1])
    {
      var k := i - 1;
      assert lines[k] == TopInvestorLine(k + 1, rows[k]);
      assert split[i] == lines[k];
    }
  }

  lemma TopInvestorsSplit(rows: seq<InvestorRow>)
    requires forall row :: row in rows ==> '\n' !in row.investor
    ensures SplitChar(FormatTopInvestors(rows), '\n') == [TopInvestorsHeader] + TopInvestorLines(rows)
  {
    TopInvestorLinesPlain(rows);
    TopInvestorsHeaderPlain();
    BlockLines(TopInvestorsHeader, TopInvestorLines(rows));
  }

  lemma TopInvestorLinesPlain(rows: seq<InvestorRow>)
    requires forall row :: row in rows ==> '\n' !in row.investor
    ensures forall i :: 0 <= i < |TopInvestorLines(rows)| ==> '\n' !in TopInvestorLines(rows)[i]
  {
    var lines := TopInvestorLines(rows);
    forall i | 0 <= i < |lines|
      ensures '\n' !in lines[i]
    {
      assert rows[i] in rows;
      TopInvestorLinePlain(i + 1, rows[i]);
    }
  }

  lemma TopInvestorLinePlain(rank: nat, row: InvestorRow)
    requires '\n' !in row.investor
    ensures '\n' !in TopInvestorLine(rank, row)
  {
    ShowIsOneLine(Some(row.portfolioValue), None, rank);
    DigitsHaveNoSeparators(row.investments);
  }

  function CoInvestorLine(row: CoInvestorRow): string {
    "- " + row.coInvestor + ": " + NatToString(row.sharedInvestments) + " shared investments"
  }

  /// `_format_co_investors`
  function FormatCoInvestors(investor: string, rows: seq<CoInvestorRow>): string {
    Block("**Co-investors of " + investor + ":**", Map(rows, CoInvestorLine))
  }

  lemma CoInvestorsOnePerLine(investor: string, rows: seq<CoInvestorRow>)
    requires '\n' !in investor
    requires forall row :: row in rows ==> '\n' !in row.coInvestor
    ensures SplitChar(FormatCoInvestors(investor, rows), '\n')
      == ["**Co-investors of " + investor + ":**"] + Map(rows, CoInvestorLine)
  {
    var lines := Map(rows, CoInvestorLine);
    forall i | 0 <= i < |lines|
      ensures '\n' !in lines[i]
    {
      assert rows[i] in rows;
      CoInvestorLinePlain(rows[i]);
    }
    BlockLines("**Co-investors of " + investor + ":**", lines);
  }

  lemma CoInvestorLinePlain(row: CoInvestorRow)
    requires '\n' !in row.coInvestor
    ensures '\n' !in CoInvestorLine(row)
  {
    DigitsHaveNoSeparators(row.sharedInvestments);
  }

  function SectorStatLine(s: SectorStat): string {
    "- " + s.sector + ": " + NatToString(s.companyCount) + " companies, $" + ShowVal(s.totalValuation) + "B total"
  }

  /// `_format_sector_stats`: the first eight rows.
  function FormatSectorStats(stats: seq<SectorStat>): string {
    Block(SectorStatsHeader, Map(Take(stats, 8), SectorStatLine))
  }

  /// The sector statistics block shows at most eight sectors, the first
  /// eight rows in order.
  lemma SectorStatsShowEight(stats: seq<SectorStat>)
    requires forall s :: s in stats ==> '\n' !in s.sector
    ensures |SplitChar(FormatSectorStats(stats), '\n')| == Min(|stats|, 8) + 1
    ensures forall i :: 1 <= i <= Min(|stats|, 8) ==>
      SplitChar(FormatSectorStats(stats), '\n')[i] == SectorStatLine(stats[i - 1])
  {
    var shown := Take(stats, 8);
    var lines := Map(shown, SectorStatLine);
    forall i | 0 <= i < |lines|
      ensures '\n' !in lines[i]
    {
      assert shown[i] in stats;
      SectorStatLinePlain(shown[i]);
    }
    SectorStatsHeaderPlain();
    BlockLines(SectorStatsHeader, lines);
  }

  lemma SectorStatLinePlain(s: SectorStat)
    requires '\n' !in s.sector
    ensures '\n' !in SectorStatLine(s)
  {
    ShowIsOneLine(Some(s.totalValuation), None, s.companyCount);
  }

  function LocationStatLine(s: LocationStat): string {
    "- " + s.city + ": " + NatToString(s.companyCount) + " companies, $" + ShowVal(s.totalValuation) + "B total"
  }

  /// `_format_location_stats`: the first eight rows.
  function FormatLocationStats(stats: seq<LocationStat>): string {
    Block(LocationStatsHeader, Map(Take(stats, 8), LocationStatLine))
  }

  lemma LocationStatsShowEight(stats: seq<LocationStat>)
    requires forall s :: s in stats ==> '\n' !in s.city
    ensures |SplitChar(FormatLocationStats(stats), '\n')| == Min(|stats|, 8) + 1
    ensures forall i :: 1 <= i <= Min(|stats|, 8) ==>
      SplitChar(FormatLocationStats(stats), '\n')[i] == LocationStatLine(stats[i - 1])
  {
    var shown := Take(stats, 8);
    var lines := Map(shown, LocationStatLine);
    forall i | 0 <= i < |lines|
      ensures '\n' !in lines[i]
    {
      assert shown[i] in stats;
      LocationStatLinePlain(shown[i]);
    }
    LocationStatsHeaderPlain();
    BlockLines(LocationStatsHeader, lines);
  }

  lemma LocationStatLinePlain(s: LocationStat)
    requires '\n' !in s.city
    ensures '\n' !in LocationStatLine(s)
  {
    ShowIsOneLine(Some(s.totalValuation), None, s.companyCount);
  }

  function GraphStatsLines(st: Stats): seq<string> {
    [ "- Total Companies: " + NatToString(st.companies),
      "- Total Investors: " + NatToString(st.investors),
      "- Sectors: " + NatToString(st.sectors),
      "- Locations: " + NatToString(st.locations),
      "- Total Relationships: " + NatToString(st.relationships) ]
  }

  /// `_format_graph_stats`
  function FormatGraphStats(st: Stats): string {
    Block(GraphStatsHeader, GraphStatsLines(st))
  }

  /// `line` is `caption` followed by the decimal digits of `n`.
  predicate ShowsCount(line: string, caption: string, n: nat) {
    && |caption| <= |line|
    && line[..|caption|] == caption
    && (forall i :: |caption| <= i < |line| ==> IsDigit(line[i]))
    && ParseDigits(line[|caption|..]) == n
  }

  lemma LabelledCount(caption: string, n: nat)
    ensures ShowsCount(caption + NatToString(n), caption, n)
  {
    var line := caption + NatToString(n);
    assert line[|caption|..] == NatToString(n);
    NatToStringRoundTrip(n);
  }

  lemma StatsLinesPlain(st: Stats)
    ensures forall i :: 0 <= i < |GraphStatsLines(st)| ==> '\n' !in GraphStatsLines(st)[i]
  {
    DigitsHaveNoSeparators(st.companies);
    DigitsHaveNoSeparators(st.investors);
    DigitsHaveNoSeparators(st.sectors);
    DigitsHaveNoSeparators(st.locations);
    DigitsHaveNoSeparators(st.relationships);
  }

  /// The statistics block has six lines and every count reads back from
  /// its line.
  lemma GraphStatsReadBack(st: Stats)
    ensures |SplitChar(FormatGraphStats(st), '\n')| == 6
    ensures var lines := SplitChar(FormatGraphStats(st), '\n');
      && ShowsCount(lines[1], "- Total Companies: ", st.companies)
      && ShowsCount(lines[2], "- Total Investors: ", st.investors)
      && ShowsCount(lines[3], "- Sectors: ", st.sectors)
      && ShowsCount(lines[4], "- Locations: ", st.locations)
      && ShowsCount(lines[5], "- Total Relationships: ", st.relationships)
  {
    var lines := GraphStatsLines(st);
    StatsLinesPlain(st);
    GraphStatsHeaderPlain();
    BlockLines(GraphStatsHeader, lines);
    LabelledCount("- Total Companies: ", st.companies);
    LabelledCount("- Total Investors: ", st.investors);
    LabelledCount("- Sectors: ", st.sectors);
    LabelledCount("- Locations: ", st.locations);
    LabelledCount("- Total Relationships: ", st.relationships);
  }
}
