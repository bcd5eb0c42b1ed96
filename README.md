# Indian unicorn graph RAG — a verified model of retrieval

The system answers questions about Indian unicorn start-ups. It stores the
companies, their sectors, cities and investors in a graph database. For each
question it collects a text context from that graph and hands the context to a
language model. This project models the deterministic middle of that pipeline
in Dafny and proves what it promises:

- **Query understanding** (`Retriever`, `src/rag/retriever.py`).
  - `ExtractEntities` lower-cases the query and tokenises it.
  - It sets the comparison, aggregation and top flags by keyword-substring
    tests.
  - It matches the three gazetteers (investors, sectors, cities) by substring
    and collects capitalised company candidates.
  - `QueryIntent` is the eight-way priority cascade over the result.
- **The graph queries** (`GraphQueries`, `src/database/queries.py`).
  - Each parameterised query is a function over an in-memory `Graph`: a
    sequence of companies, each with its valuation, sector, sub-sector,
    cities and investors.
  - Filters are case-insensitive containment. Rows with null values are
    excluded where the query says so.
  - Ordering is `ORDER BY … DESC` as Neo4j does it, with nulls first, then a
    `LIMIT` (`Ranking`).
- **Context assembly** (`ContextBuilder`, `src/rag/context_builder.py`).
  - There are eight retrieval plans. Each is an imperative method that
    appends blocks, sources and a count to a running `Plan`.
  - Each method is proved equal to a plan function.
  - A plan function also records the lookups the plan makes, in order, so
    that bounds and ordering can be stated about the lookups.
  - `BuildContext` dispatches on the intent and falls back to the general
    plan. It joins the blocks with blank lines.
- **The block formatters** (`Formatting`, the `_format_*` methods of
  `context_builder.py`).
  - These are pure string builders.
  - Their layout (lines, numbering, truncation, counts) is proved by
    splitting the text back at newlines and commas.
- **The CSV field parsers** (`KgParse`, `data/build_kg.py`): sector,
  locations, investors and entry date.
- **The legacy pipeline** (`LegacyApp`, `app.py:41-226`).
  - This is the older keyword-driven `build_context` over the same graph
    queries with the legacy LIMITs.
  - It records the sequence of graph calls it makes.

Supporting modules:

- `Wrappers`: `Option`.
- `Seqs`: `Take`, `Filter`, `Map`, `Distinct`.
- `Text`: ASCII case mapping, `title()`, `split()`, `strip()`, `split(c)`,
  `join` and decimal rendering.

Conventions of the model:

- Valuations are natural numbers of tenths of a billion dollars. `ShowVal`
  renders them as Python renders a one-decimal float (`35.0`, `12.3`).
- A null value shows as `None`, as `dict.get` returns `None` for a key that is
  present with a null value.
- A missing record (`{}` or `None` in Python) is `Option.None`.
- Where a Cypher query takes no ORDER BY, rows are taken in graph order.
- A company's `subsector` is present only with its `sector`, as the graph
  builder creates the `SPECIALIZES_IN` edge only inside `if sector:`
  (data/build_kg.py:127-145); `RelationshipCount` counts the edge under the
  same condition.

Every capitalised token longer than three characters that is not a gazetteer
term is a company candidate, so "Compare CRED and PhonePe" gives
`["Compare", "CRED", "PhonePe"]` (`Retriever.ExampleCandidates`). Neo4j
places nulls first in a descending ORDER BY, and the model does the same.

## Model

| member | source | states |
|---|---|---|
| Retriever.Tokens | src/rag/retriever.py:87 | one token per whitespace-separated word, in order, each with `?,.'"!()` stripped from both ends |
| Retriever.GazetteerHits | src/rag/retriever.py:103-118 | an entry is exactly the title-cased form of a gazetteer term that occurs in the lower-cased query; at most one entry per term |
| Retriever.Tags | src/rag/retriever.py:91-129 | INVESTOR/SECTOR/LOCATION is tagged iff its context word occurs or its gazetteer list is non-empty; COMPANY iff there is a candidate; VALUATION and COMPARISON never |
| Retriever.CollectHits | src/rag/retriever.py:103-118 | one gazetteer loop appends exactly the gazetteer hits and adds its tag iff something was appended |
| Retriever.CollectCandidates | src/rag/retriever.py:121-129 | the candidate loop keeps exactly the qualifying keywords in order and adds COMPANY iff it kept one |
| Retriever.CollectContext | src/rag/retriever.py:90-100 | the three context tests add exactly the tags of the context words present |
| Retriever.ExtractEntities | src/rag/retriever.py:68-131 | the imperative extraction returns the entities `Extract` specifies |
| Retriever.TagsInSourceOrder | src/rag/retriever.py:91-129 | adding the tags loop by loop, in source order, gives `Tags` |
| Retriever.FlagsAreSubstringTests | src/rag/retriever.py:82-84 | each flag is true iff some keyword of its set is a substring of the lower-cased query (so "most" inside "almost" counts) |
| Retriever.GazetteerHitsNoDups | src/rag/retriever.py:103-118 | a gazetteer of distinct lower-case terms yields a hit list without duplicates |
| Retriever.InvestorsWellFormed | src/rag/retriever.py:42-46 | the investor gazetteer has distinct, lower-case terms |
| Retriever.SectorsWellFormed | src/rag/retriever.py:48-52 | the sector gazetteer has distinct, lower-case terms |
| Retriever.LocationsWellFormed | src/rag/retriever.py:54-58 | the location gazetteer has distinct, lower-case terms |
| Retriever.GazetteerMatches | src/rag/retriever.py:102-118 | investors, sectors and locations are exactly the title-cased gazetteer terms found in the query, each without duplicates |
| Retriever.CandidatesAreQualifyingTokens | src/rag/retriever.py:121-128 | a candidate is exactly a token longer than 3 with an upper-case first letter whose lower-cased form is no gazetteer term |
| Retriever.CandidatesOfCleanWords | src/rag/retriever.py:86-128 | when the query's words carry no punctuation at their ends, the candidates are the words longer than 3, capitalised and outside the gazetteers, in order |
| Retriever.CompareQueryWords | src/rag/retriever.py:86 | "Compare CRED and PhonePe" splits into its four words |
| Retriever.CompareQueryCandidates | src/rag/retriever.py:86-128 | a query with those four words yields the candidates Compare, CRED and PhonePe: the capitalised verb passes as a company |
| Retriever.TellQueryWords | src/rag/retriever.py:86 | "Tell me about Flipkart" splits into its four words |
| Retriever.TellQueryCandidates | src/rag/retriever.py:86-128 | a query with those four words yields the candidates Tell and Flipkart: "me" is too short and "about" is lower-case |
| Retriever.ExampleCandidates | src/rag/retriever.py:86-128 | `Extract` on "Compare CRED and PhonePe" gives companies [Compare, CRED, PhonePe]; on "Tell me about Flipkart" it gives [Tell, Flipkart] |
| Retriever.QueryTypeTags | src/rag/retriever.py:91-129 | COMPANY is tagged iff there are candidates; each other tag iff its list is non-empty or its context word occurs |
| Retriever.IntentLabelsDistinct | src/rag/retriever.py:143-158 | the eight intent labels are distinct |
| Retriever.FirstSignalWins | src/rag/retriever.py:143-158 | the first true condition in the order comparison, aggregation, top, investor, sector, location, company decides the intent |
| Retriever.NoSignalIsGeneral | src/rag/retriever.py:143-158 | the intent is general iff none of the seven conditions holds |
| Retriever.GeneralIffNothingFound | src/rag/retriever.py:143-158 | the intent is general iff all three flags are false and no query type was tagged |
| GraphQueries.SearchCompanies | src/database/queries.py:33-56 | at most `limit` rows, each a company whose name contains the term case-insensitively, by valuation descending; fewer than `limit` only when every match is present |
| GraphQueries.SearchCompaniesMaximal | src/database/queries.py:33-56 | a matching company left out is valued no higher (nulls first, as Neo4j sorts descending) than every row returned |
| GraphQueries.Target | src/database/queries.py:265-268 | the first company whose name contains the term, or none when no name does |
| GraphQueries.CompanyDetails | src/database/queries.py:58-87 | none iff no name matches; otherwise the details of the first match |
| GraphQueries.TopCompanies | src/database/queries.py:89-101 | at most `limit` rows, only valued companies, valuation descending; fewer than `limit` only when every valued company is present |
| GraphQueries.TopCompaniesMaximal | src/database/queries.py:89-101 | a valued company left out is worth no more than any company returned |
| GraphQueries.InvestorPortfolio | src/database/queries.py:121-143 | at most `limit` (investor, company) rows with a matching investor name, by valuation descending; complete when short |
| GraphQueries.InvestorPortfolioMaximal | src/database/queries.py:121-143 | an (investor, company) pair with a matching investor that is left out is valued no higher than every row returned |
| GraphQueries.TopInvestors | src/database/queries.py:145-155 | at most `limit` distinct investors, each with its true investment count (at least 1), count descending; complete when short |
| GraphQueries.TopInvestorsMaximal | src/database/queries.py:145-155 | an investor left out has no more investments than any investor returned |
| GraphQueries.CoInvestorRowOf | src/database/queries.py:160-164 | a co-investor row names its co-investor, carries min(5, shared count) sample companies, all from shared investments, and counts at least one shared company iff one exists |
| GraphQueries.CoInvestors | src/database/queries.py:157-168 | at most `limit` distinct co-investors, no investor paired with itself (a co-investor may itself match the term), each row the true aggregate (shared count and samples) of its co-investor, by shared count descending; when short, every investor sharing a company with a matching investor is present |
| GraphQueries.CoInvestorsMaximal | src/database/queries.py:157-168 | a co-investor left out shares no more companies than any co-investor returned |
| GraphQueries.SectorCompanies | src/database/queries.py:174-186 | at most `limit` companies whose sector contains the term, by valuation descending; complete when short |
| GraphQueries.SectorCompaniesMaximal | src/database/queries.py:174-186 | a company of a matching sector left out is valued no higher than every company returned |
| GraphQueries.CityCompanies | src/database/queries.py:215-227 | at most `limit` companies with a matching city, by valuation descending; complete when short |
| GraphQueries.CityCompaniesMaximal | src/database/queries.py:215-227 | a (company, city) match left out is valued no higher than every row returned |
| GraphQueries.SectorStats | src/database/queries.py:188-199 | one row per sector holding a valued company, with its true count, by total valuation descending, untruncated |
| GraphQueries.LocationStats | src/database/queries.py:229-239 | one row per city holding a valued company, with its true count, by company count descending, untruncated |
| GraphQueries.GraphStats | src/database/queries.py:245-256 | no row iff some label has no node; otherwise the node counts and the relationship count of the graph, which is at least the investor count |
| GraphQueries.EmptyNames | src/database/queries.py:248-251 | a label has no node iff no company carries a value for it |
| GraphQueries.EdgesCoverInvestors | src/database/queries.py:249-252 | every investor node has at least one relationship |
| GraphQueries.Score | src/database/queries.py:283-287 | the corrected score is at most 3 and positive iff the company shares the sector, a city or an investor with the target |
| GraphQueries.ScoreAsWritten | src/database/queries.py:279-286 | the score as written is at most 3 and at least 1 whenever the target has a sector |
| GraphQueries.Similar | src/database/queries.py:262-295 | at most `limit` rows, each an actual candidate with score 1..3, by score then valuation descending; empty when no target matches; when short, every candidate is present |
| GraphQueries.SimilarCompanies | src/database/queries.py:262-295 | corrected similarity: the limit, the 1..3 scores, the score-then-valuation order, empty without a target, only candidates, and every candidate when short |
| GraphQueries.SimilarMaximal | src/database/queries.py:262-295 | a candidate left out has a lower score than every row returned, or an equal score and a valuation no higher |
| GraphQueries.SimilarCompaniesAsWritten | src/database/queries.py:262-295 | similarity as written: the limit, the 1..3 scores, the score-then-valuation order, empty without a target, only candidates, and every candidate when short |
| GraphQueries.SimilarExcludesTarget | src/database/queries.py:277 | no returned row is the target |
| GraphQueries.SimilarSharesSomething | src/database/queries.py:276-287 | every corrected row shares the sector, a city or an investor with the target |
| GraphQueries.SimilarSectorPointCounterexample | src/database/queries.py:279-286 | on a two-company graph with nothing shared, the query as written still returns the other company with score 1; the corrected one returns nothing |
| GraphQueries.LookupsIgnoreCase | src/database/queries.py:46-266 | terms equal up to case give identical search, details, portfolio, co-investor, sector, city and similarity results |
| GraphQueries.UpperCaseLookups | src/database/queries.py:46-266 | the upper-cased term gives the same results as the term |
| ContextBuilder.AddDetails | src/rag/context_builder.py:93-97 | the details of a company add one block, a `company:` source and one to the count, when found |
| ContextBuilder.AddPortfolio | src/rag/context_builder.py:101-105 | a non-empty portfolio adds its block, an `investor:` source and its row count |
| ContextBuilder.AddInvestor | src/rag/context_builder.py:116-125 | one investor-plan iteration: the portfolio block, and the co-investor block only after a non-empty portfolio |
| ContextBuilder.AddSector | src/rag/context_builder.py:144-148 | a non-empty sector list adds its block, a `sector:` source and, when counted, its row count |
| ContextBuilder.AddCity | src/rag/context_builder.py:165-169 | a non-empty city list adds its block, a `city:` source and its row count |
| ContextBuilder.AddTopCompanies | src/rag/context_builder.py:218-222 | a non-empty top list adds its block, `top_companies` and its row count |
| ContextBuilder.AddTopInvestors | src/rag/context_builder.py:225-229 | a non-empty investor ranking adds its block, `top_investors` and its row count |
| ContextBuilder.AddSectorStats | src/rag/context_builder.py:254-258 | non-empty sector statistics add their block, `sector_stats` and, when counted, the row count |
| ContextBuilder.AddLocationStats | src/rag/context_builder.py:172-175 | non-empty location statistics add a block of the first ten rows and `location_stats` |
| ContextBuilder.AddGraphStats | src/rag/context_builder.py:247-251 | a statistics row adds its block, `graph_stats` and, when counted, one |
| ContextBuilder.LookUpCompanies | src/rag/context_builder.py:92-97 | the company loop appends exactly the details run over the names, in order |
| ContextBuilder.LookUpPortfolios | src/rag/context_builder.py:100-105 | the portfolio loop appends exactly the portfolio run over the investors, in order |
| ContextBuilder.VisitInvestor | src/rag/context_builder.py:115-125 | one investor iteration looks up the portfolio of ten, and co-investors of five only when the portfolio is non-empty |
| ContextBuilder.LookUpInvestors | src/rag/context_builder.py:115-125 | the investor loop appends exactly the investor run, in order |
| ContextBuilder.LookUpSectors | src/rag/context_builder.py:143-148 | the sector loop appends exactly the sector run, in order |
| ContextBuilder.LookUpCities | src/rag/context_builder.py:164-169 | the city loop appends exactly the city run, in order |
| ContextBuilder.BuildCompanyContext | src/rag/context_builder.py:85-107 | the company plan: the first 3 companies, then every investor's portfolio of five |
| ContextBuilder.BuildInvestorContext | src/rag/context_builder.py:109-135 | the investor plan: the first 3 investors, and the top ten investors only when none was named |
| ContextBuilder.AddTopInvestorsUnlessNamed | src/rag/context_builder.py:127-133 | the top-investors block is looked up iff no investor was named |
| ContextBuilder.BuildSectorContext | src/rag/context_builder.py:137-156 | the sector plan: the first 3 sectors with limit 10, then the sector statistics |
| ContextBuilder.BuildLocationContext | src/rag/context_builder.py:158-177 | the location plan: the first 3 cities with limit 10, then the location statistics |
| ContextBuilder.BuildComparisonContext | src/rag/context_builder.py:179-209 | the comparison plan: 5 companies, then 3 sectors and 3 cities with limit 5 |
| ContextBuilder.BuildTopRankingContext | src/rag/context_builder.py:211-238 | the top plan: top ten companies and investors, then 2 uncounted sectors with limit 5 |
| ContextBuilder.BuildAggregationContext | src/rag/context_builder.py:240-266 | the aggregation plan: graph, sector and location statistics |
| ContextBuilder.BuildGeneralContext | src/rag/context_builder.py:268-285 | the general plan: graph statistics and the top five companies |
| ContextBuilder.BuildIntentContext | src/rag/context_builder.py:54-70 | the dispatch runs the plan of the query's intent |
| ContextBuilder.BuildContext | src/rag/context_builder.py:35-83 | the result is the chosen plan's blocks joined by blank lines, with its count and sources; an empty plan is replaced by the general plan |
| ContextBuilder.DetailsRunStep | src/rag/context_builder.py:92-97 | the details run over one more company extends the previous run by that company's block |
| ContextBuilder.PortfolioRunStep | src/rag/context_builder.py:100-105 | the portfolio run grows one investor at a time |
| ContextBuilder.InvestorRunStep | src/rag/context_builder.py:115-125 | the investor run grows one investor at a time |
| ContextBuilder.SectorRunStep | src/rag/context_builder.py:143-148 | the sector run grows one sector at a time |
| ContextBuilder.CityRunStep | src/rag/context_builder.py:164-169 | the city run grows one city at a time |
| ContextBuilder.BlockNonEmpty | src/rag/context_builder.py:338-373 | a block with a header is never empty |
| ContextBuilder.DetailsBlockFacts | src/rag/context_builder.py:92-97 | one details lookup per company, and no empty block |
| ContextBuilder.PortfolioBlockFacts | src/rag/context_builder.py:100-105 | one portfolio lookup per investor, and no empty block |
| ContextBuilder.InvestorBlockFacts | src/rag/context_builder.py:115-125 | an investor iteration looks up the portfolio, then the co-investors only after a non-empty portfolio; no empty block |
| ContextBuilder.SectorBlockFacts | src/rag/context_builder.py:143-148 | one sector lookup per sector, and no empty block |
| ContextBuilder.CityBlockFacts | src/rag/context_builder.py:164-169 | one city lookup per city, and no empty block |
| ContextBuilder.TopBlocksLookups | src/rag/context_builder.py:217-229 | the top plan starts with the top-companies and top-investors lookups of ten |
| ContextBuilder.ThenSolid | src/rag/context_builder.py:79 | appending plans without empty blocks gives a plan without empty blocks |
| ContextBuilder.DetailsRunLookups | src/rag/context_builder.py:92-97 | the details run looks up exactly the given companies, in order |
| ContextBuilder.PortfolioRunLookups | src/rag/context_builder.py:100-105 | the portfolio run looks up exactly the given investors, in order, with its limit |
| ContextBuilder.SectorRunLookups | src/rag/context_builder.py:143-148 | the sector run looks up exactly the given sectors, in order, with its limit |
| ContextBuilder.CityRunLookups | src/rag/context_builder.py:164-169 | the city run looks up exactly the given cities, in order, with its limit |
| ContextBuilder.DetailsRunSolid | src/rag/context_builder.py:92-97 | the details run produces no empty block |
| ContextBuilder.PortfolioRunSolid | src/rag/context_builder.py:100-105 | the portfolio run produces no empty block |
| ContextBuilder.SectorRunSolid | src/rag/context_builder.py:143-148 | the sector run produces no empty block |
| ContextBuilder.CityRunSolid | src/rag/context_builder.py:164-169 | the city run produces no empty block |
| ContextBuilder.InvestorRunTrace | src/rag/context_builder.py:115-125 | the investor run's lookups are the per-investor trace |
| ContextBuilder.InvestorTraceFacts | src/rag/context_builder.py:115-125 | the trace has only portfolio (10) and co-investor (5) lookups of named investors; every co-investor lookup follows a non-empty portfolio of the same investor; every portfolio is looked up |
| ContextBuilder.InvestorRunSolid | src/rag/context_builder.py:115-125 | the investor run produces no empty block |
| ContextBuilder.CompanyPlanLookups | src/rag/context_builder.py:92-105 | the company plan looks up the first 3 companies, then every investor with limit 5 |
| ContextBuilder.ComparisonPlanLookups | src/rag/context_builder.py:186-207 | the comparison plan looks up the first 5 companies, then 3 sectors, then 3 cities, limit 5 |
| ContextBuilder.SectorPlanLookups | src/rag/context_builder.py:143-154 | the sector plan looks up the first 3 sectors with limit 10, then the statistics, and nothing else |
| ContextBuilder.LocationPlanLookups | src/rag/context_builder.py:164-175 | the location plan looks up the first 3 cities with limit 10, then the statistics, and nothing else |
| ContextBuilder.TopRankingPlanLookups | src/rag/context_builder.py:217-236 | the top plan looks up top companies and investors, then the first 2 sectors with limit 5 |
| ContextBuilder.InvestorPlanLookups | src/rag/context_builder.py:115-133 | with no named investor the plan looks up only the top ten investors; otherwise only the first 3 investors, with co-investors only after a found portfolio |
| ContextBuilder.PlanSolid | src/rag/context_builder.py:54-74 | no plan, general or chosen, produces an empty block |
| ContextBuilder.GeneralPlanSolid | src/rag/context_builder.py:268-285 | the general plan produces no empty block |
| ContextBuilder.ComparisonPlanSolid | src/rag/context_builder.py:179-209 | the comparison plan produces no empty block |
| ContextBuilder.TopRankingPlanSolid | src/rag/context_builder.py:211-238 | the top plan produces no empty block |
| ContextBuilder.AggregationPlanSolid | src/rag/context_builder.py:240-266 | the aggregation plan produces no empty block |
| ContextBuilder.InvestorPlanSolid | src/rag/context_builder.py:109-135 | the investor plan produces no empty block |
| ContextBuilder.SectorPlanSolid | src/rag/context_builder.py:137-156 | the sector plan produces no empty block |
| ContextBuilder.LocationPlanSolid | src/rag/context_builder.py:158-177 | the location plan produces no empty block |
| ContextBuilder.CompanyPlanSolid | src/rag/context_builder.py:85-107 | the company plan produces no empty block |
| ContextBuilder.EmptyContextOnlyForBareGraph | src/rag/context_builder.py:72-79 | the sources are the intent plan's, or the general plan's when the intent plan found nothing; the context is empty only for a graph with no statistics row and no valued company |
| ContextBuilder.EmptyJoinOnlyForBareGraph | src/rag/context_builder.py:72-79 | an empty joined context means no statistics row and no valued company |
| ContextBuilder.BareGeneralPlan | src/rag/context_builder.py:268-285 | the general plan finds nothing only without a statistics row and without a valued company |
| ContextBuilder.GeneralPlanCount | src/rag/context_builder.py:285 | the general plan's count is the number of top-company rows, and 0 exactly when no company is valued |
| Formatting.ShowValInjective | src/rag/context_builder.py:300 | distinct valuations render differently |
| Formatting.ShowValChars | src/rag/context_builder.py:300 | a rendered valuation holds only digits and decimal points |
| Formatting.BlockLines | src/rag/context_builder.py:340-343 | a header and newline-free lines joined by newlines split back into exactly those lines |
| Formatting.CompanyDetailsLayout | src/rag/context_builder.py:291-304 | a company block has seven lines, the bold company header first and the key investors last |
| Formatting.InvestorSummaryReadsBack | src/rag/context_builder.py:293-294 | for 1 to 7 clean names, the investor summary parses back (as the CSV parser reads investors) to exactly those names |
| Formatting.InvestorSummaryTruncates | src/rag/context_builder.py:294-296 | beyond 7 investors the summary ends with ` (+N more)`, N = count − 7, and what precedes it splits at its six commas into exactly the first 7 names |
| Formatting.FormatInvestorPortfolio | src/rag/context_builder.py:306-316 | the portfolio text is empty iff the portfolio is |
| Formatting.ListReadsBack | src/rag/context_builder.py:311-336 | a comma-free head and comma-free entries joined with `, ` split at the commas into the head with the first entry, then each further entry |
| Formatting.PortfolioListsEveryCompany | src/rag/context_builder.py:311-316 | a portfolio block has rows − 1 commas and splits at them into the header with row 0's entry, then each further row's `company ($valuationB - sector)` entry, in order |
| Formatting.SectorListsEveryCompany | src/rag/context_builder.py:325-329 | a sector block has one comma fewer than companies and splits at them into the bold header with company 0's entry, then each further company's `name ($valuationB)` entry, in order |
| Formatting.CityListsEveryCompany | src/rag/context_builder.py:331-336 | a city block splits at its commas into two pieces per company, `name (sector` and `$valuationB)`, in order after the bold header |
| Formatting.TopCompaniesNumbered | src/rag/context_builder.py:338-343 | a header then one line per company, line i numbered i and showing row i, in input order |
| Formatting.TopInvestorsNumbered | src/rag/context_builder.py:345-350 | a header then one line per investor, line i numbered i and showing row i, in input order |
| Formatting.CoInvestorsOnePerLine | src/rag/context_builder.py:318-323 | a header then one line per co-investor, in order |
| Formatting.SectorStatsShowEight | src/rag/context_builder.py:352-357 | a header then the first min(n, 8) sector rows, one per line, in order |
| Formatting.LocationStatsShowEight | src/rag/context_builder.py:359-364 | a header then the first min(n, 8) city rows, one per line, in order |
| Formatting.LabelledCount | src/rag/context_builder.py:369-373 | a caption followed by a rendered count reads back as that count |
| Formatting.GraphStatsReadBack | src/rag/context_builder.py:366-373 | the statistics block has six lines, and each count line reads back as its count |
| KgParse.ParseSector | data/build_kg.py:45-53 | missing gives (None, None); a sub-sector exists iff ` - ` occurs, and then both parts are the stripped pieces around its first occurrence; otherwise the stripped input |
| KgParse.MainSectorHasNoSeparator | data/build_kg.py:50-52 | the main sector never contains ` - ` |
| KgParse.SectorRoundTrip | data/build_kg.py:50-52 | parsing `main - sub` of clean parts gives them back |
| KgParse.PlainSectorRoundTrip | data/build_kg.py:53 | a clean sector without separator parses to itself with no sub-sector |
| KgParse.ParseLocations | data/build_kg.py:55-62 | missing gives []; otherwise (number of `/`) + 1 stripped pieces, none containing `/`, empty ones kept |
| KgParse.LocationsRoundTrip | data/build_kg.py:60-62 | joining clean cities with `/` parses back to them |
| KgParse.InvestorPieces | data/build_kg.py:70-71 | after removing the quotes, one stripped piece per comma-separated field |
| KgParse.ParseInvestors | data/build_kg.py:64-72 | missing gives []; names are non-empty, comma-free and stripped; every non-empty piece is kept, and every name is one of the pieces |
| KgParse.InvestorsInCellOrder | data/build_kg.py:70-72 | name k is the piece at an increasing position of the cell, and every non-empty piece's position is among them: the names keep the cell's order |
| KgParse.InvestorsRoundTrip | data/build_kg.py:64-72 | joining clean names with `, ` parses back to them |
| KgParse.ParseEntryDate | data/build_kg.py:83-87 | missing iff missing input; otherwise the input with whitespace trimmed from both ends |
| KgParse.EntryDateIsTrimmedCell | data/build_kg.py:83-87 | any trimming of the cell with clean ends is the parsed entry date |
| KgParse.EntryDateIdempotent | data/build_kg.py:83-87 | parsing an entry date twice is parsing it once |
| LegacyApp.Keywords | app.py:153 | at most one keyword per word of the query |
| LegacyApp.LegacySearch | app.py:41-52 | at most 10 rows, each a company whose name contains the term; when fewer than 10 come back, every company whose name contains the term is among them |
| LegacyApp.KeywordsAreStrippedTokens | app.py:153 | keywords are exactly the words longer than 2, stripped of `?,.'"`, and each is stripped |
| LegacyApp.ShortKeywordAfterStrip | app.py:153 | the length test comes before stripping: the query `'ab'` gives the 2-letter keyword `ab` |
| LegacyApp.LookUpHits | app.py:160-169 | the detail loop over search rows adds one block per row with details, and one details call per row |
| LegacyApp.LookUpKeyword | app.py:157-169 | one keyword searches only when longer than 3, then fetches the details of the first 3 rows |
| LegacyApp.LookUpCompanies | app.py:156-169 | the company section is the per-keyword blocks and calls, in keyword order |
| LegacyApp.LookUpPortfolio | app.py:175-183 | one keyword looks up a portfolio of 20 only when longer than 3 |
| LegacyApp.LookUpPortfolios | app.py:174-183 | the investor section is the per-keyword blocks and calls, in order |
| LegacyApp.LookUpSector | app.py:189-194 | one keyword's sector block, from a lookup of 15 |
| LegacyApp.LookUpSectors | app.py:188-194 | the sector section over every keyword, in order |
| LegacyApp.LookUpCity | app.py:200-205 | one keyword's city block, from a lookup of 15 |
| LegacyApp.LookUpCities | app.py:199-205 | the city section over every keyword, in order |
| LegacyApp.Collect | app.py:156-211 | the sections run in order and only for the families the query mentions |
| LegacyApp.LookUpFallback | app.py:214-224 | the statistics block and its calls only when nothing was found |
| LegacyApp.Assemble | app.py:149-226 | the context is the sections' blocks joined by blank lines; the calls are theirs |
| LegacyApp.BuildLegacyContext | app.py:147-226 | the imperative pipeline produces the specified context and call sequence |
| LegacyApp.PortfolioShowsFirstFive | app.py:179 | an investor block shows only the first five companies |
| LegacyApp.SectorShowsFirstFive | app.py:191 | a sector block shows only the first five companies |
| LegacyApp.CityShowsFirstFive | app.py:202 | a city block shows only the first five companies |
| LegacyApp.CompanyShowsFirstFiveInvestors | app.py:168 | a company block shows only the first five investors |
| LegacyApp.DetailsCallsFor | app.py:160-161 | details are fetched exactly for the search rows |
| LegacyApp.CompanyCallsFor | app.py:156-161 | the company section searches exactly the keywords longer than 3 (limit 10) and fetches details exactly of their first 3 rows |
| LegacyApp.InvestorCallsFor | app.py:174-176 | portfolio calls are exactly for keywords longer than 3, limit 20 |
| LegacyApp.SectorCallsFor | app.py:188-189 | sector calls are exactly for every keyword, limit 15 |
| LegacyApp.CityCallsFor | app.py:199-200 | city calls are exactly for every keyword, limit 15 |
| LegacyApp.SearchesLongKeywords | app.py:156-158 | a search is issued iff the term is a keyword longer than 3 |
| LegacyApp.DetailsOfHits | app.py:158-161 | details are fetched iff the company is among a keyword's first 3 search rows |
| LegacyApp.PortfoliosGated | app.py:172-176 | a portfolio is looked up iff an investor word occurs in the query and the term is a keyword longer than 3 |
| LegacyApp.SectorsGated | app.py:186-189 | a sector is looked up iff a sector word occurs and the term is a keyword, short ones included |
| LegacyApp.CitiesGated | app.py:197-200 | a city is looked up iff a city word occurs and the term is a keyword |
| LegacyApp.StatsGated | app.py:214-215 | the statistics are read iff no section found anything |
| LegacyApp.HitBlocks | app.py:160-169 | a block is in the detail loop's output iff it is the block of a search row with details |
| LegacyApp.CompanyBlocks | app.py:156-169 | a block is in the company section iff some keyword's search shows it |
| LegacyApp.CompanyBlocksBounded | app.py:160 | each keyword contributes at most 3 company blocks |
| LegacyApp.InvestorBlocks | app.py:174-183 | a block is in the investor section iff some long keyword's non-empty portfolio shows it |
| LegacyApp.SectorBlocks | app.py:188-194 | a block is in the sector section iff some keyword's non-empty sector list shows it |
| LegacyApp.CityBlocks | app.py:199-205 | a block is in the city section iff some keyword's non-empty city list shows it |
| LegacyApp.FallbackOnlyWhenNothingFound | app.py:213-224 | the fallback block is produced iff no other block was, and is then the only block |
| LegacyApp.TopBlockEndsContext | app.py:207-211 | when a top word occurs the top-five block is appended, last, whatever else was found |
| LegacyApp.LegacyContextNonEmpty | app.py:213-226 | the legacy context is never empty |

## Left out

- Neo4j driver, sessions, connection singletons and the Cypher text itself. The graph is an in-memory value.
- OPTIONAL MATCH multiplicity is not modelled. Each company has at most one sector and sub-sector, as the loader builds them. MATCH multiplicity over cities and investors is kept.
- Neo4j's order among equal sort keys is not modelled. The model sorts stably in graph order; the lemmas state only the order on the key.
- The legacy `search_companies` has no ORDER BY; the model takes its matches in graph order.
- The Ollama calls, the prompt, the Streamlit UI and the environment settings are I/O and configuration.
- The wall-clock `retrieval_time_ms` field of `RetrievalResult` is left out.
- Floating-point arithmetic is left out.
  - Valuations are exact tenths.
  - `round(sum * 10) / 10` becomes an exact sum.
  - `avgValuation` and `portfolioValue` are not checked beyond their rendering.
  - `parse_valuation` is not modelled.
- `get_companies_by_valuation_growth` computes a float percentage and is not called by the pipeline.
- `get_all_sectors` is not called by the pipeline and sorts by string collation.
- The Python gazetteers are sets with no fixed iteration order. The model keeps them as sequences, and its properties are stated on membership and absence of duplicates, not on order.
- `split()` and `strip()` treat only the ASCII whitespace characters (space, tab, the line and page breaks, and the four separator controls) as whitespace. Python also splits at Unicode spaces such as U+00A0. This affects Retriever.Tokens, KgParse.ParseSector, KgParse.ParseLocations, KgParse.ParseInvestors, KgParse.ParseEntryDate and LegacyApp.Keywords.
- Case mapping, `isupper` and `title()` are ASCII only. `title()` capitalises after any non-letter, e.g. `d2c` → `D2C`.
- The legacy statistics query has no relationship count. The model uses the full statistics row, which exists in exactly the same graphs and has the same three counts shown.
- The database writes of `data/build_kg.py` (`build_graph`, `clear_database`, `create_constraints`, `get_statistics`) are left out. Only its field parsers are modelled.
- A plan's `lookups` list and the legacy call sequence are bookkeeping for the proofs. The source keeps no such lists, so they record what it asks the graph rather than model a value it has.

## Findings

| source | as written | input that shows it | evidently intended | confidence | as-written member | corrected member |
|---|---|---|---|---|---|---|
| src/database/queries.py:279-284 | `OPTIONAL MATCH (similar)-[:OPERATES_IN]->(s)` keeps `s` bound when the pattern does not match, so `CASE WHEN s IS NOT NULL` awards the sector point to every company whenever the target has a sector | a graph with Paytm (Fintech, Noida, SoftBank) and Unacademy (Edtech, Bengaluru, General Atlantic), term "paytm": Unacademy is returned with score 1 | award the sector point only when the candidate operates in the target's sector, so a score of zero excludes unrelated companies | not executed | GraphQueries.SimilarSectorPointCounterexample | GraphQueries.SimilarCompanies |
