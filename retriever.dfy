/// Query understanding (`GraphRetriever`, src/rag/retriever.py): keyword
/// flags, gazetteer matches and capitalised-word company candidates, then a
/// single intent label chosen by a fixed priority order.
module Retriever {
  import opened Seqs
  import opened Text

  datatype EntityType = Company | Investor | Sector | Location | Valuation | Comparison

  datatype ExtractedEntities = ExtractedEntities(
    companies: seq<string>,
    investors: seq<string>,
    sectors: seq<string>,
    locations: seq<string>,
    queryTypes: set<EntityType>,
    isComparison: bool,
    isAggregation: bool,
    isTopQuery: bool)

  // The gazetteers are sets in the source; here they are sequences in the
  // order the source lists them, and only membership is relied upon.

  const KnownInvestors: seq<string> := [
    "tiger global", "softbank", "sequoia", "accel", "matrix",
    "temasek", "tencent", "alibaba", "lightspeed", "elevation",
    "nexus", "kalaari", "chiratae", "bessemer", "general atlantic"]

  const KnownSectors: seq<string> := [
    "fintech", "edtech", "e-commerce", "ecommerce", "saas",
    "foodtech", "healthtech", "proptech", "logistics", "gaming",
    "d2c", "b2b", "marketplace", "mobility", "adtech"]

  const KnownLocations: seq<string> := [
    "bangalore", "bengaluru", "mumbai", "delhi", "gurgaon",
    "gurugram", "noida", "pune", "chennai", "hyderabad",
    "jaipur", "thane", "goa", "kolkata"]

  const ComparisonKeywords: seq<string> := ["compare", "vs", "versus", "difference", "between"]
  const AggregationKeywords: seq<string> := ["total", "sum", "average", "count", "how many"]
  const TopKeywords: seq<string> := ["top", "best", "highest", "largest", "biggest", "most"]

  const InvestorKeywords: seq<string> := ["investor", "invested", "portfolio", "fund", "vc", "capital", "backed"]
  const SectorKeywords: seq<string> := ["sector", "industry", "segment", "vertical"]
  const LocationKeywords: seq<string> := ["located", "based", "city", "where"]

  /// The characters stripped from both ends of every token.
  const Punctuation: set<char> := {'?', ',', '.', '\'', '"', '!', '(', ')'}

  /// `any(kw in text for kw in kws)`: some keyword is a substring of `text`.
  predicate AnyIn(kws: seq<string>, text: string) {
    exists k :: k in kws && Contains(text, k)
  }

  /// `[w.strip(...) for w in query.split()]`
  function Tokens(query: string): (r: seq<string>)
    ensures |r| == |Words(query)|
    ensures forall i :: 0 <= i < |r| ==> r[i] == Strip(Words(query)[i], Punctuation)
  {
    Map(Words(query), (w: string) => Strip(w, Punctuation))
  }

  predicate LongerThanTwo(w: string) { |w| > 2 }

  /// `[w for w in words if len(w) > 2]`
  function Keywords(query: string): seq<string> {
    Filter(Tokens(query), LongerThanTwo)
  }

  /// The title-cased terms of `terms` that occur in `ql`, in `terms` order.
  function GazetteerHits(terms: seq<string>, ql: string): (r: seq<string>)
    ensures |r| <= |terms|
    ensures forall x :: x in r <==> exists t :: t in terms && Contains(ql, t) && x == Title(t)
  {
    if terms == [] then []
    else
      var init := terms[..|terms| - 1];
      var t := terms[|terms| - 1];
      assert terms == init + [t];
      GazetteerHits(init, ql) + if Contains(ql, t) then [Title(t)] else []
  }

  predicate InGazetteer(wl: string) {
    wl in KnownInvestors || wl in KnownSectors || wl in KnownLocations
  }

  /// A company candidate: longer than three characters, starting with an
  /// upper-case letter, and not exactly a gazetteer term once lower-cased.
  predicate IsCandidate(w: string) {
    |w| > 3 && IsUpperChar(w[0]) && !InGazetteer(Lower(w))
  }

  /// The query-type tags `extract_entities` records: a context word or a
  /// gazetteer match brings INVESTOR, SECTOR or LOCATION, a company
  /// candidate brings COMPANY, and nothing else is ever added.
  function Tags(investorContext: bool, sectorContext: bool, locationContext: bool,
                investors: seq<string>, sectors: seq<string>, locations: seq<string>,
                companies: seq<string>): (r: set<EntityType>)
    ensures Investor in r <==> investorContext || investors != []
    ensures Sector in r <==> sectorContext || sectors != []
    ensures Location in r <==> locationContext || locations != []
    ensures Company in r <==> companies != []
    ensures Valuation !in r && Comparison !in r
  {
    (if investorContext || investors != [] then {Investor} else {})
    + (if sectorContext || sectors != [] then {Sector} else {})
    + (if locationContext || locations != [] then {Location} else {})
    + (if companies != [] then {Company} else {})
  }

  /// What `extract_entities` builds, stated as one expression.
  function Extract(query: string): ExtractedEntities {
    var ql := Lower(query);
    var investors := GazetteerHits(KnownInvestors, ql);
    var sectors := GazetteerHits(KnownSectors, ql);
    var locations := GazetteerHits(KnownLocations, ql);
    var companies := Filter(Keywords(query), IsCandidate);
    var types := Tags(AnyIn(InvestorKeywords, ql), AnyIn(SectorKeywords, ql), AnyIn(LocationKeywords, ql),
      investors, sectors, locations, companies);
    ExtractedEntities(companies, investors, sectors, locations, types,
      AnyIn(ComparisonKeywords, ql), AnyIn(AggregationKeywords, ql), AnyIn(TopKeywords, ql))
  }

  /// One gazetteer loop: appends the title-cased form of every term found
  /// in `ql` and adds `tag` to the query types when anything was found.
  method CollectHits(terms: seq<string>, ql: string, tag: EntityType, types: set<EntityType>)
    returns (hits: seq<string>, types': set<EntityType>)
    ensures hits == GazetteerHits(terms, ql)
    ensures types' == types + (if hits != [] then {tag} else {})
  {
    hits := [];
    types' := types;
    for i := 0 to |terms|
      invariant hits == GazetteerHits(terms[..i], ql)
      invariant types' == types + (if hits != [] then {tag} else {})
    {
      var t := terms[i];
      assert terms[..i + 1] == terms[..i] + [t];
      if Contains(ql, t) {
        hits := hits + [Title(t)];
        types' := types' + {tag};
      }
    }
    assert terms[..|terms|] == terms;
  }

  /// The candidate loop: keeps every keyword that qualifies as a company
  /// name and adds COMPANY to the query types when one does.
  method CollectCandidates(keywords: seq<string>, types: set<EntityType>)
    returns (companies: seq<string>, types': set<EntityType>)
    ensures companies == Filter(keywords, IsCandidate)
    ensures types' == types + (if companies != [] then {Company} else {})
  {
    companies := [];
    types' := types;
    for i := 0 to |keywords|
      invariant companies == Filter(keywords[..i], IsCandidate)
      invariant types' == types + (if companies != [] then {Company} else {})
    {
      var w := keywords[i];
      assert keywords[..i + 1] == keywords[..i] + [w];
      if IsCandidate(w) {
        companies := companies + [w];
        types' := types' + {Company};
      }
    }
    assert keywords[..|keywords|] == keywords;
  }

  /// The context-word tags, added in the order `extract_entities` checks
  /// them.
  function ContextTags(investorContext: bool, sectorContext: bool, locationContext: bool): set<EntityType> {
    (if investorContext then {Investor} else {})
    + (if sectorContext then {Sector} else {})
    + (if locationContext then {Location} else {})
  }

  /// Adding the tags one loop at a time, in the order `extract_entities`
  /// does, gives `Tags`.
  lemma TagsInSourceOrder(investorContext: bool, sectorContext: bool, locationContext: bool,
                          investors: seq<string>, sectors: seq<string>, locations: seq<string>,
                          companies: seq<string>)
    ensures ContextTags(investorContext, sectorContext, locationContext)
      + (if investors != [] then {Investor} else {})
      + (if sectors != [] then {Sector} else {})
      + (if locations != [] then {Location} else {})
      + (if companies != [] then {Company} else {})
      == Tags(investorContext, sectorContext, locationContext, investors, sectors, locations, companies)
  {
  }

  /// The lists and tags the loops of `extract_entities` produce assemble
  /// into `Extract`.
  lemma ExtractAssembled(query: string, keywords: seq<string>,
                         investors: seq<string>, sectors: seq<string>, locations: seq<string>,
                         companies: seq<string>, types: set<EntityType>)
    requires keywords == Keywords(query)
    requires investors == GazetteerHits(KnownInvestors, Lower(query))
    requires sectors == GazetteerHits(KnownSectors, Lower(query))
    requires locations == GazetteerHits(KnownLocations, Lower(query))
    requires companies == Filter(keywords, IsCandidate)
    requires types == ContextTags(AnyIn(InvestorKeywords, Lower(query)), AnyIn(SectorKeywords, Lower(query)), AnyIn(LocationKeywords, Lower(query)))
      + (if investors != [] then {Investor} else {})
      + (if sectors != [] then {Sector} else {})
      + (if locations != [] then {Location} else {})
      + (if companies != [] then {Company} else {})
    ensures Extract(query) == ExtractedEntities(companies, investors, sectors, locations, types,
      AnyIn(ComparisonKeywords, Lower(query)), AnyIn(AggregationKeywords, Lower(query)), AnyIn(TopKeywords, Lower(query)))
  {
    var ql := Lower(query);
    TagsInSourceOrder(AnyIn(InvestorKeywords, ql), AnyIn(SectorKeywords, ql), AnyIn(LocationKeywords, ql),
      investors, sectors, locations, companies);
  }

  /// The three context-word checks of `extract_entities`.
  method CollectContext(ql: string) returns (types: set<EntityType>)
    ensures types == ContextTags(AnyIn(InvestorKeywords, ql), AnyIn(SectorKeywords, ql), AnyIn(LocationKeywords, ql))
  {
    types := {};
    if AnyIn(InvestorKeywords, ql) {
      types := types + {Investor};
    }
    if AnyIn(SectorKeywords, ql) {
      types := types + {Sector};
    }
    if AnyIn(LocationKeywords, ql) {
      types := types + {Location};
    }
  }

  /// `extract_entities`: flags first, then the context words, the three
  /// gazetteer loops and the candidate loop, each appending to its list.
  method ExtractEntities(query: string) returns (e: ExtractedEntities)
    ensures e == Extract(query)
  {
    var ql := Lower(query);
    var isComparison := AnyIn(ComparisonKeywords, ql);
    var isAggregation := AnyIn(AggregationKeywords, ql);
    var isTopQuery := AnyIn(TopKeywords, ql);
    var keywords := Keywords(query);

    var types := CollectContext(ql);
    var investors, sectors, locations, companies;
    investors, types := CollectHits(KnownInvestors, ql, Investor, types);
    sectors, types := CollectHits(KnownSectors, ql, Sector, types);
    locations, types := CollectHits(KnownLocations, ql, Location, types);
    companies, types := CollectCandidates(keywords, types);
    ExtractAssembled(query, keywords, investors, sectors, locations, companies, types);
    e := ExtractedEntities(companies, investors, sectors, locations, types,
      isComparison, isAggregation, isTopQuery);
  }

  // ---------------------------------------------------------------------
  // Properties of the extraction
  // ---------------------------------------------------------------------

  /// The three flags are keyword-substring tests on the lower-cased query,
  /// so a keyword inside a longer word counts.
  lemma FlagsAreSubstringTests(query: string)
    ensures Extract(query).isComparison <==> exists k :: k in ComparisonKeywords && Contains(Lower(query), k)
    ensures Extract(query).isAggregation <==> exists k :: k in AggregationKeywords && Contains(Lower(query), k)
    ensures Extract(query).isTopQuery <==> exists k :: k in TopKeywords && Contains(Lower(query), k)
  {
  }

  predicate IsLowerTerm(t: string) {
    forall i :: 0 <= i < |t| ==> !IsUpperChar(t[i])
  }

  /// Distinct lower-case terms have distinct title-cased forms.
  lemma TitleInjective(a: string, b: string)
    requires IsLowerTerm(a) && IsLowerTerm(b)
    ensures Title(a) == Title(b) ==> a == b
  {
    LowerTitle(a);
    LowerTitle(b);
    LowerOfLowerTerm(a);
    LowerOfLowerTerm(b);
  }

  lemma LowerOfLowerTerm(t: string)
    requires IsLowerTerm(t)
    ensures Lower(t) == t
  {
    assert forall i :: 0 <= i < |t| ==> LowerChar(t[i]) == t[i];
  }

  /// A gazetteer of distinct lower-case terms yields no duplicate match.
  lemma {:induction false} GazetteerHitsNoDups(terms: seq<string>, ql: string)
    requires NoDups(terms)
    requires forall t :: t in terms ==> IsLowerTerm(t)
    ensures NoDups(GazetteerHits(terms, ql))
  {
    if terms != [] {
      var init := terms[..|terms| - 1];
      var t := terms[|terms| - 1];
      assert terms == init + [t];
      assert NoDups(init);
      GazetteerHitsNoDups(init, ql);
      var prev := GazetteerHits(init, ql);
      if Contains(ql, t) {
        forall x | x in prev
          ensures x != Title(t)
        {
          var u :| u in init && Contains(ql, u) && x == Title(u);
          assert u != t;
          TitleInjective(u, t);
        }
        var r := prev + [Title(t)];
        assert GazetteerHits(terms, ql) == r;
        forall i, j | 0 <= i < j < |r|
          ensures r[i] != r[j]
        {
          if j < |prev| {
            assert r[i] == prev[i] && r[j] == prev[j];
          } else {
            assert r[i] in prev;
          }
        }
      } else {
        assert GazetteerHits(terms, ql) == prev;
      }
    }
  }

  lemma InvestorsLower()
    ensures forall i :: 0 <= i < |KnownInvestors| ==> IsLowerTerm(KnownInvestors[i])
  {
  }

  lemma InvestorsWellFormed()
    ensures NoDups(KnownInvestors) && forall t :: t in KnownInvestors ==> IsLowerTerm(t)
  {
    InvestorsLower();
  }

  lemma SectorsLower()
    ensures forall i :: 0 <= i < |KnownSectors| ==> IsLowerTerm(KnownSectors[i])
  {
  }

  lemma SectorsWellFormed()
    ensures NoDups(KnownSectors) && forall t :: t in KnownSectors ==> IsLowerTerm(t)
  {
    SectorsLower();
  }

  lemma LocationsLower()
    ensures forall i :: 0 <= i < |KnownLocations| ==> IsLowerTerm(KnownLocations[i])
  {
  }

  lemma LocationsWellFormed()
    ensures NoDups(KnownLocations) && forall t :: t in KnownLocations ==> IsLowerTerm(t)
  {
    LocationsLower();
  }

  /// Every investor, sector or location entry is the title-cased form of a
  /// gazetteer term occurring in the lower-cased query, each such term
  /// contributes, and none is listed twice.
  lemma GazetteerMatches(query: string)
    ensures forall x :: x in Extract(query).investors <==> exists t :: t in KnownInvestors && Contains(Lower(query), t) && x == Title(t)
    ensures forall x :: x in Extract(query).sectors <==> exists t :: t in KnownSectors && Contains(Lower(query), t) && x == Title(t)
    ensures forall x :: x in Extract(query).locations <==> exists t :: t in KnownLocations && Contains(Lower(query), t) && x == Title(t)
    ensures NoDups(Extract(query).investors) && NoDups(Extract(query).sectors) && NoDups(Extract(query).locations)
  {
    InvestorsWellFormed();
    SectorsWellFormed();
    LocationsWellFormed();
    var ql := Lower(query);
    GazetteerHitsNoDups(KnownInvestors, ql);
    GazetteerHitsNoDups(KnownSectors, ql);
    GazetteerHitsNoDups(KnownLocations, ql);
  }

  /// Company candidates are exactly the qualifying punctuation-stripped
  /// tokens, in token order.
  lemma CandidatesAreQualifyingTokens(query: string)
    ensures forall w :: w in Extract(query).companies <==> w in Tokens(query) && IsCandidate(w)
    ensures forall w :: w in Extract(query).companies ==>
      |w| > 3 && IsUpperChar(w[0]) && !InGazetteer(Lower(w)) && exists raw :: raw in Words(query) && w == Strip(raw, Punctuation)
  {
    var ws := Tokens(query);
    forall w | w in ws
      ensures exists raw :: raw in Words(query) && w == Strip(raw, Punctuation)
    {
      var i :| 0 <= i < |ws| && ws[i] == w;
      assert Words(query)[i] in Words(query);
    }
  }

  /// When the words of a query carry no punctuation at either end, its
  /// company candidates are the qualifying words themselves, in order.
  lemma CandidatesOfCleanWords(q: string, ws: seq<string>)
    requires Words(q) == ws
    requires forall w :: w in ws ==> IsStripped(w, Punctuation)
    ensures Extract(q).companies == Filter(Filter(ws, LongerThanTwo), IsCandidate)
  {
    var ts := Tokens(q);
    forall i | 0 <= i < |ws|
      ensures ts[i] == ws[i]
    {
      assert ws[i] in ws;
      StripOfStripped(ws[i], Punctuation);
    }
    assert ts == ws;
  }

  /// The words of "Compare CRED and PhonePe" are non-empty and hold no whitespace.
  lemma CompareWordsSolid(ws: seq<string>)
    requires ws == ["Compare", "CRED", "and", "PhonePe"]
    ensures forall w :: w in ws ==> w != [] && forall i :: 0 <= i < |w| ==> !IsSpace(w[i])
  {
    forall w | w in ws
      ensures w != [] && forall i :: 0 <= i < |w| ==> !IsSpace(w[i])
    {
      assert w == "Compare" || w == "CRED" || w == "and" || w == "PhonePe";
    }
  }

  /// "Compare CRED and PhonePe" splits into its four words.
  lemma CompareQueryWords()
    ensures Words("Compare CRED and PhonePe") == ["Compare", "CRED", "and", "PhonePe"]
  {
    var ws := ["Compare", "CRED", "and", "PhonePe"];
    assert Join(ws, " ") == "Compare CRED and PhonePe";
    CompareWordsSolid(ws);
    WordsOfJoin(ws);
  }

  /// "Compare" is taken for a company name.
  lemma CompareIsCandidate()
    ensures IsCandidate("Compare")
  {
    assert Lower("Compare") == "compare";
  }

  /// "CRED" is a company candidate.
  lemma CredIsCandidate()
    ensures IsCandidate("CRED")
  {
    assert Lower("CRED") == "cred";
  }

  /// "PhonePe" is a company candidate.
  lemma PhonePeIsCandidate()
    ensures IsCandidate("PhonePe")
  {
    assert Lower("PhonePe") == "phonepe";
  }

  /// No word of "Compare CRED and PhonePe" carries punctuation at either end.
  lemma CompareWordsClean(ws: seq<string>)
    requires ws == ["Compare", "CRED", "and", "PhonePe"]
    ensures forall w :: w in ws ==> IsStripped(w, Punctuation)
  {
    forall w | w in ws
      ensures IsStripped(w, Punctuation)
    {
      assert w == "Compare" || w == "CRED" || w == "and" || w == "PhonePe";
    }
  }

  /// The candidates among the words of "Compare CRED and PhonePe" are the
  /// three capitalised words longer than three letters.
  lemma CompareWordsCandidates(ws: seq<string>)
    requires ws == ["Compare", "CRED", "and", "PhonePe"]
    ensures Filter(Filter(ws, LongerThanTwo), IsCandidate) == ["Compare", "CRED", "PhonePe"]
  {
    assert ws == ["Compare"] + (["CRED"] + (["and"] + ["PhonePe"]));
    KeepAllFour("Compare", "CRED", "and", "PhonePe", LongerThanTwo);
    CompareIsCandidate();
    CredIsCandidate();
    PhonePeIsCandidate();
    DropThird("Compare", "CRED", "and", "PhonePe", IsCandidate);
    assert ["Compare"] + (["CRED"] + ["PhonePe"]) == ["Compare", "CRED", "PhonePe"];
  }

  /// A query with the words of "Compare CRED and PhonePe": the capitalised
  /// verb is taken for a company name along with the two companies, and
  /// "and" is too short.
  lemma CompareQueryCandidates(q: string)
    requires Words(q) == ["Compare", "CRED", "and", "PhonePe"]
    ensures Extract(q).companies == ["Compare", "CRED", "PhonePe"]
  {
    var ws := Words(q);
    assert Filter(Filter(ws, LongerThanTwo), IsCandidate) == ["Compare", "CRED", "PhonePe"] by {
      CompareWordsCandidates(ws);
    }
    assert forall w :: w in ws ==> IsStripped(w, Punctuation) by {
      CompareWordsClean(ws);
    }
    CandidatesOfCleanWords(q, ws);
  }

  /// The words of "Tell me about Flipkart" are non-empty and hold no whitespace.
  lemma TellWordsSolid(ws: seq<string>)
    requires ws == ["Tell", "me", "about", "Flipkart"]
    ensures forall w :: w in ws ==> w != [] && forall i :: 0 <= i < |w| ==> !IsSpace(w[i])
  {
    forall w | w in ws
      ensures w != [] && forall i :: 0 <= i < |w| ==> !IsSpace(w[i])
    {
      assert w == "Tell" || w == "me" || w == "about" || w == "Flipkart";
    }
  }

  /// "Tell me about Flipkart" splits into its four words.
  lemma TellQueryWords()
    ensures Words("Tell me about Flipkart") == ["Tell", "me", "about", "Flipkart"]
  {
    var ws := ["Tell", "me", "about", "Flipkart"];
    assert Join(ws, " ") == "Tell me about Flipkart";
    TellWordsSolid(ws);
    WordsOfJoin(ws);
  }

  /// "Tell" is taken for a company name.
  lemma TellIsCandidate()
    ensures IsCandidate("Tell")
  {
    assert Lower("Tell") == "tell";
  }

  /// "Flipkart" is a company candidate.
  lemma FlipkartIsCandidate()
    ensures IsCandidate("Flipkart")
  {
    assert Lower("Flipkart") == "flipkart";
  }

  /// No word of "Tell me about Flipkart" carries punctuation at either end.
  lemma TellWordsClean(ws: seq<string>)
    requires ws == ["Tell", "me", "about", "Flipkart"]
    ensures forall w :: w in ws ==> IsStripped(w, Punctuation)
  {
    forall w | w in ws
      ensures IsStripped(w, Punctuation)
    {
      assert w == "Tell" || w == "me" || w == "about" || w == "Flipkart";
    }
  }

  /// Among the words of "Tell me about Flipkart", "me" is too short for a
  /// keyword, "about" is not capitalised, and "Tell" and "Flipkart"
  /// are the candidates.
  lemma TellWordsCandidates(ws: seq<string>)
    requires ws == ["Tell", "me", "about", "Flipkart"]
    ensures Filter(Filter(ws, LongerThanTwo), IsCandidate) == ["Tell", "Flipkart"]
  {
    assert ws == ["Tell"] + (["me"] + (["about"] + ["Flipkart"]));
    DropSecond("Tell", "me", "about", "Flipkart", LongerThanTwo);
    TellIsCandidate();
    FlipkartIsCandidate();
    DropMiddle("Tell", "about", "Flipkart", IsCandidate);
    assert ["Tell"] + ["Flipkart"] == ["Tell", "Flipkart"];
  }

  /// A query with the words of "Tell me about Flipkart": "Tell" passes as a
  /// company name beside "Flipkart".
  lemma TellQueryCandidates(q: string)
    requires Words(q) == ["Tell", "me", "about", "Flipkart"]
    ensures Extract(q).companies == ["Tell", "Flipkart"]
  {
    var ws := Words(q);
    assert Filter(Filter(ws, LongerThanTwo), IsCandidate) == ["Tell", "Flipkart"] by {
      TellWordsCandidates(ws);
    }
    assert forall w :: w in ws ==> IsStripped(w, Punctuation) by {
      TellWordsClean(ws);
    }
    CandidatesOfCleanWords(q, ws);
  }

  /// The two example questions and the company candidates they yield.
  lemma ExampleCandidates()
    ensures Extract("Compare CRED and PhonePe").companies == ["Compare", "CRED", "PhonePe"]
    ensures Extract("Tell me about Flipkart").companies == ["Tell", "Flipkart"]
  {
    CompareQueryWords();
    CompareQueryCandidates("Compare CRED and PhonePe");
    TellQueryWords();
    TellQueryCandidates("Tell me about Flipkart");
  }

  /// The query-type tags: COMPANY exactly when there is a candidate; each
  /// non-empty gazetteer list brings its tag, which context words alone can
  /// also set; VALUATION and COMPARISON are never set.
  lemma QueryTypeTags(query: string)
    ensures Company in Extract(query).queryTypes <==> Extract(query).companies != []
    ensures Investor in Extract(query).queryTypes <==> Extract(query).investors != [] || AnyIn(InvestorKeywords, Lower(query))
    ensures Sector in Extract(query).queryTypes <==> Extract(query).sectors != [] || AnyIn(SectorKeywords, Lower(query))
    ensures Location in Extract(query).queryTypes <==> Extract(query).locations != [] || AnyIn(LocationKeywords, Lower(query))
    ensures Valuation !in Extract(query).queryTypes && Comparison !in Extract(query).queryTypes
  {
  }

  // ---------------------------------------------------------------------
  // Intent
  // ---------------------------------------------------------------------

  datatype Intent =
    | ComparisonIntent
    | AggregationIntent
    | TopRanking
    | InvestorInfo
    | SectorInfo
    | LocationInfo
    | CompanyInfo
    | General

  /// The strings `get_query_intent` returns.
  function IntentLabel(i: Intent): string {
    match i
    case ComparisonIntent => "comparison"
    case AggregationIntent => "aggregation"
    case TopRanking => "top_ranking"
    case InvestorInfo => "investor_info"
    case SectorInfo => "sector_info"
    case LocationInfo => "location_info"
    case CompanyInfo => "company_info"
    case General => "general"
  }

  lemma IntentLabelsDistinct(a: Intent, b: Intent)
    requires IntentLabel(a) == IntentLabel(b)
    ensures a == b
  {
  }

  /// `get_query_intent`.
  function QueryIntent(e: ExtractedEntities): Intent {
    if e.isComparison then ComparisonIntent
    else if e.isAggregation then AggregationIntent
    else if e.isTopQuery then TopRanking
    else if Investor in e.queryTypes then InvestorInfo
    else if Sector in e.queryTypes then SectorInfo
    else if Location in e.queryTypes then LocationInfo
    else if Company in e.queryTypes then CompanyInfo
    else General
  }

  /// The seven conditions in priority order, and the intent each one selects.
  function Signals(e: ExtractedEntities): seq<bool> {
    [e.isComparison, e.isAggregation, e.isTopQuery,
     Investor in e.queryTypes, Sector in e.queryTypes, Location in e.queryTypes, Company in e.queryTypes]
  }

  const Ranked: seq<Intent> := [ComparisonIntent, AggregationIntent, TopRanking, InvestorInfo, SectorInfo, LocationInfo, CompanyInfo]

  /// The first condition that holds decides the intent; when none holds the
  /// intent is general.
  lemma FirstSignalWins(e: ExtractedEntities, k: nat)
    requires k < 7
    requires Signals(e)[k]
    requires forall m :: 0 <= m < k ==> !Signals(e)[m]
    ensures QueryIntent(e) == Ranked[k]
  {
    var s := Signals(e);
    if k > 0 { assert !s[0]; }
    if k > 1 { assert !s[1]; }
    if k > 2 { assert !s[2]; }
    if k > 3 { assert !s[3]; }
    if k > 4 { assert !s[4]; }
    if k > 5 { assert !s[5]; }
  }

  lemma NoSignalIsGeneral(e: ExtractedEntities)
    ensures QueryIntent(e) == General <==> forall k :: 0 <= k < 7 ==> !Signals(e)[k]
  {
    var s := Signals(e);
    if QueryIntent(e) != General {
      if e.isComparison { assert s[0]; }
      else if e.isAggregation { assert s[1]; }
      else if e.isTopQuery { assert s[2]; }
      else if Investor in e.queryTypes { assert s[3]; }
      else if Sector in e.queryTypes { assert s[4]; }
      else if Location in e.queryTypes { assert s[5]; }
      else { assert s[6]; }
    }
  }

  /// For an extracted query the intent is general exactly when no flag is
  /// set and no query type was recorded.
  lemma GeneralIffNothingFound(query: string)
    ensures QueryIntent(Extract(query)) == General <==>
      !Extract(query).isComparison && !Extract(query).isAggregation && !Extract(query).isTopQuery
      && Extract(query).queryTypes == {}
  {
    var e := Extract(query);
    QueryTypeTags(query);
    if QueryIntent(e) == General {
      assert forall t: EntityType :: t !in e.queryTypes;
    }
  }
}
