# OpenKeywords AEO gap analysis and DataForSEO parsing, in Dafny

This project is a verified model of two parts of OpenKeywords.

**The AEO content-gap pipeline** (`openkeywords/gap_analyzer.py`). Keyword records come from a keyword-comparison API, one list per competitor domain. Each list goes through these steps:
- It is filtered to long-tail "answer engine optimisation" opportunities. The bounds are volume, difficulty, competition and word count.
- Each kept record is classified by search intent, using substring triggers from a fixed, ordered table.
- Each kept record is checked for answer-engine SERP features, which give a 1.3 boost.
- Each kept record is scored as `volume × multiplier × boost / (difficulty + 1)` and tagged with its competitor.

The lists are then pooled and ranked by score, highest first. Summary statistics can be computed over the ranked list.

**The DataForSEO client** (`openkeywords/dataforseo_client.py`). This part covers:
- the location and language tables;
- the `SearchResult` and `SerpResponse` records and `to_dict`;
- credentials, and the request that `search` builds;
- `_parse_response`, which turns a raw SERP payload into a `SerpResponse`;
- the result-parsing loops of `get_keyword_data` and `get_keyword_difficulty`.

## Layout

| file | what it holds |
|---|---|
| `wrappers.dfy` | `Option` |
| `seqs.dfy` | `Map`, `Traverse`, `FlatMap`, `Filter` and `Count`, with their algebra (concatenation, multiset, length) |
| `text.dfy` | ASCII `lower()`/`upper()`; substring search `t in s`; `str.split()` as maximal runs of non-whitespace, with the join/split round trip |
| `rounding.dfy` | Python's `round(x, n)` on exact reals (ties to even), with uniqueness and monotonicity |
| `pyjson.dfy` | decoded JSON as Python sees it (`JInt`/`JFloat` kept apart, dicts as ordered entry lists); `d.get`, truthiness, iteration, `==` against an int, `isinstance(x, (int, float))` and `int(x)` |
| `intent.dfy` | `AEO_INTENT_PATTERNS` and the intent classifier, as a function over the table with its lemmas |
| `sorting.dfy` | `list.sort(key=..., reverse=True)`: a stable insertion sort, proved sorted, a permutation and stable |
| `gap_analyzer.dfy` | the keyword-record class and the pipeline methods (filter, classify, features, score, orchestrator), each proved against a specification function |
| `gap_summary.dfy` | `generate_summary_stats` |
| `gap_scenarios.dfy` | concrete records taken through the pipeline |
| `dataforseo.dfy` | tables, client credentials, response records, and `to_dict` with its inverse |
| `serp_parse.dfy` | `_parse_response` (a method with its item loops, against `ParseResponseSpec`) and `search` |
| `keyword_data.dfy` | the parse loops of `get_keyword_data` and `get_keyword_difficulty`, and what `result_map` ends up holding |

### Modelling choices
- **Keyword records.**
  - A keyword record is a `class KeywordRecord`.
  - The fields the API supplies are `const`. Each is an `Option`, because the dict may lack the key.
  - The nine fields the pipeline writes are one `var derived: Derived`. These are `word_count`, `competitor`, `intent`, `intent_multiplier`, `matched_intents`, `aeo_serp_features`, `has_aeo_features`, `aeo_feature_boost` and `aeo_score`.
  - Each pipeline method is a Dafny `method` over that state. It states the record's new state in terms of specification functions, and the properties are proved as lemmas about those functions.
- **The remote APIs.** They become parameters:
  - `discovered` is the competitor list that `get_competitors` would return.
  - `gapLists[i]` is the gap list for the i-th competitor. A failed request is `[]`.
  - `Reply` is what the HTTP exchange produced.
  - `now` is the timestamp.
  - `exceptionText` is `str(e)` of a caught exception.
- **Python exceptions.** In the parsers, an exception is the outcome `Raised` or `Raises`. `_parse_response` then yields the `search` error response, and the keyword-data loops yield `{}`, as the enclosing `except` clauses do.
- **The empty summary.** `generate_summary_stats` returns `{}` for no gaps; here that is `None`.
- **Loosely typed fields.** The fields the client copies from the payload without looking at them keep their JSON value (`Json`), because the code does not convert them. These are the result fields, the snippet and PAA dict values, and `error`.

## Model

| member | source | states |
|---|---|---|
| GapAnalyzer.FilterLongtail | openkeywords/gap_analyzer.py:122-145 | The result is exactly the records passing the filters (`AEO_FILTERS` when none are given), in input order. Each kept record gets `word_count` set and nothing else changes; rejected records are untouched. |
| GapAnalyzer.FilterOne | openkeywords/gap_analyzer.py:131-143 | One record: kept iff the four bounds hold on the defaulted volume (0), difficulty (100), competition (1) and word count. Its word count is written only when kept. |
| GapAnalyzer.FilterKeepRule | openkeywords/gap_analyzer.py:128-145 | A record is in the filter's output iff it is in the input and passes the rule. Multiplicities are kept. The filter distributes over concatenation, so order is preserved. Every excluded record violates at least one bound. |
| GapAnalyzer.MissingFieldsExcluded | openkeywords/gap_analyzer.py:131-135 | Under `AEO_FILTERS`, a record missing volume, difficulty, competition or keyword is never kept, because the pessimistic defaults fail the bounds. |
| GapAnalyzer.SplitEmpty | openkeywords/gap_analyzer.py:134-135 | A missing keyword (the default "") has word count 0. |
| GapAnalyzer.KeptHaveKeyword | openkeywords/gap_analyzer.py:137-140 | Every record kept under `AEO_FILTERS` has a keyword of at least three words, so `keyword["keyword"]` in the classifier cannot raise. |
| Text.SplitJoin | openkeywords/gap_analyzer.py:135 | `str.split()` of words joined by single spaces gives those words back, so the word count of such a phrase is its number of words. |
| Intent.TableWellFormed | openkeywords/gap_analyzer.py:27-53 | The intent table has five entries with distinct names, and every multiplier is above 1.0. |
| GapAnalyzer.CategorizeByIntent | openkeywords/gap_analyzer.py:147-165 | The loop over the table leaves `intent`, `intent_multiplier` and `matched_intents` equal to `Classify` of the lower-cased keyword. The other fields are unchanged. |
| Intent.MatchedInOrder | openkeywords/gap_analyzer.py:154-156 | `matched_intents` lists the names of the matching table entries, in table order. |
| Intent.MatchedExactly | openkeywords/gap_analyzer.py:154-156 | A name is in `matched_intents` iff some entry with that name has a trigger that is a substring of the text. |
| Intent.ClassifyFacts | openkeywords/gap_analyzer.py:151-159 | The multiplier is at least 1.0 and no smaller than any matched entry's multiplier. When it exceeds 1.0, it and the intent come from a matched entry, and every earlier matched entry has a strictly smaller multiplier. |
| Intent.PrimaryIntent | openkeywords/gap_analyzer.py:151-159 | The intent and multiplier are those of the first matched entry reaching the maximum multiplier. If no entry matches, they are "other" and 1.0. |
| Intent.OtherIffUnmatched | openkeywords/gap_analyzer.py:152-159 | For a table whose multipliers all exceed 1.0, the intent is "other" iff nothing matched iff the multiplier is 1.0. |
| Intent.FirstMaximalWins | openkeywords/gap_analyzer.py:157-159 | When the first entry matches and no entry's multiplier exceeds it, the first entry decides the intent. Later entries with an equal multiplier lose, because the test is a strict `>`. |
| Intent.QuestionWins | openkeywords/gap_analyzer.py:28-32 | Any text containing a question trigger is classified "question" with multiplier 1.5. |
| Intent.PricingIsNoQuestion | openkeywords/gap_analyzer.py:29 | "pricing" contains no question trigger. |
| Intent.PricingIsNotInformational | openkeywords/gap_analyzer.py:39 | "pricing" contains no informational trigger. |
| Intent.PricingIsNoList | openkeywords/gap_analyzer.py:44 | "pricing" contains no list trigger. |
| Intent.PricingIsCommercialAndLocal | openkeywords/gap_analyzer.py:34-49 | "pricing" contains the commercial trigger "pricing" and the local trigger "in". |
| Intent.PricingExample | openkeywords/gap_analyzer.py:154-163 | "pricing" classifies as commercial with multiplier 1.3, and matches commercial and local, in that order. |
| GapAnalyzer.BoostOf | openkeywords/gap_analyzer.py:173-178 | The boost is 1.3 iff some SERP feature is in the allow-list, and 1.0 otherwise. |
| GapAnalyzer.AeoFeaturesSublist | openkeywords/gap_analyzer.py:169-173 | `aeo_serp_features` keeps exactly the allow-listed features, with their multiplicities, in order (it distributes over concatenation). It is non-empty iff some feature is allow-listed. |
| GapAnalyzer.CheckAeoSerpFeatures | openkeywords/gap_analyzer.py:167-180 | It writes the allow-listed sublist of `serp_features` (missing means empty), whether it is non-empty, and the boost. The other fields are unchanged. |
| GapAnalyzer.AeoScoreEquation | openkeywords/gap_analyzer.py:186-193 | score × (difficulty + 1) = volume × multiplier × boost. The denominator is positive for every difficulty ≥ 0. |
| GapAnalyzer.AeoScoreNonNegative | openkeywords/gap_analyzer.py:193 | With non-negative volume, multiplier and boost, the score is non-negative. |
| GapAnalyzer.AeoScoreAntitoneInDifficulty | openkeywords/gap_analyzer.py:193 | Raising the difficulty never raises the score. |
| GapAnalyzer.CalculateAeoScore | openkeywords/gap_analyzer.py:182-196 | It returns the unrounded score from the defaulted volume (0), difficulty (100), multiplier (1.0) and boost (1.0), and stores it rounded to two places. The other fields are unchanged. |
| Rounding.RoundToInt | openkeywords/gap_analyzer.py:257 | `round(x)` is within 0.5 of x, and is even when x lies exactly halfway. |
| Rounding.RoundToIntUnique | openkeywords/gap_analyzer.py:257 | Only one integer is within 0.5 of x and even at a tie, so `round(x)` is fully determined. |
| Rounding.RoundMonotonic | openkeywords/gap_analyzer.py:195 | Rounding to n places is monotonic. |
| Rounding.RoundNonNegative | openkeywords/gap_analyzer.py:195 | Rounding a non-negative value gives a non-negative value. |
| GapAnalyzer.AnnotateLongtail | openkeywords/gap_analyzer.py:224-228 | Every long-tail record is tagged with the competitor, classified, checked for features and scored (`Tagged`). Nothing else changes. |
| GapAnalyzer.ResolveCompetitors | openkeywords/gap_analyzer.py:205-208 | Given competitors are used as they are. Otherwise the result is a prefix of the discovered domains of length min(max_competitors, found), a Python slice. |
| GapAnalyzer.CollectCompetitor | openkeywords/gap_analyzer.py:216-230 | One competitor's turn returns its filtered gaps. Each kept record is annotated with that competitor; rejected records are untouched. |
| GapAnalyzer.AnalyzeContentGaps | openkeywords/gap_analyzer.py:198-236 | It returns the chosen competitors, and the pool of every competitor's kept records in competitor order, stably sorted by score. Every kept record of the i-th list is annotated with the i-th competitor, and no other record changes. Every returned record stores its score, and the stored `aeo_score` values do not increase along the result. |
| GapAnalyzer.OutcomeScore | openkeywords/gap_analyzer.py:225-228 | A record that passes the filter ends up with its competitor and with `ScoreOf` as its stored score. |
| GapAnalyzer.PoolMembership | openkeywords/gap_analyzer.py:213-230 | A record is in the pool iff it is in some competitor's gap list and passes the filter. |
| GapAnalyzer.PooledIsKept | openkeywords/gap_analyzer.py:221-230 | Every pooled record comes from some competitor's list and passes the filter. |
| GapAnalyzer.PoolInCompetitorOrder | openkeywords/gap_analyzer.py:211-230 | The pool is the per-competitor filtered lists concatenated in competitor order. An empty gap list contributes nothing, and the length is the sum of the filtered counts. |
| GapAnalyzer.PooledScores | openkeywords/gap_analyzer.py:228-232 | After the run, every pooled record stores `ScoreOf` as its `aeo_score`. |
| GapAnalyzer.RankedByStoredScore | openkeywords/gap_analyzer.py:232 | The returned list is a permutation of the pool and is ordered by stored `aeo_score`, non-increasing. |
| GapAnalyzer.StoredScoresSorted | openkeywords/gap_analyzer.py:232 | Records that store `ScoreOf`, arranged in descending `ScoreOf` order as a permutation of the pool, are in descending order of stored `aeo_score`. |
| GapAnalyzer.RankingIsStableSort | openkeywords/gap_analyzer.py:232 | The ranking is sorted by score, descending, and is a permutation of the pool. Records with equal scores keep their pool order, and there is no other tie-break. |
| Sorting.SortDescCorrect | openkeywords/gap_analyzer.py:232 | The descending sort is sorted, a permutation and length-preserving. |
| Sorting.SortDescStable | openkeywords/gap_analyzer.py:232 | For every key value, the elements with that key appear in the sort's output in their input order. |
| GapSummary.GenerateSummaryStats | openkeywords/gap_analyzer.py:238-259 | The result is `{}` (`None`) iff there are no gaps. Otherwise it is `Summary` of the records: the intent histogram built by the loop, the counts, and the rounded averages. |
| GapSummary.HistogramCounts | openkeywords/gap_analyzer.py:243-246 | `intent_counts` has an entry for exactly the labels that occur (missing `intent` counts as "other"), and each entry is that label's count. |
| GapSummary.HistogramTotal | openkeywords/gap_analyzer.py:243-246 | The breakdown counts add up to the number of gaps. |
| GapSummary.HistogramKeys | openkeywords/gap_analyzer.py:243-246 | The breakdown's keys are exactly the labels of the gaps. |
| GapSummary.QuestionsInBreakdown | openkeywords/gap_analyzer.py:249 | The number of question keywords equals the count of the label "question". |
| GapSummary.SummaryCounts | openkeywords/gap_analyzer.py:251-255 | For a non-empty list: `total_opportunities` is its length and the breakdown sums to it. `with_aeo_serp_features` and `question_keywords` are at most the total, and `question_keywords` equals the breakdown's "question" entry. |
| GapSummary.MeanBounds | openkeywords/gap_analyzer.py:256-258 | The mean of a non-empty list lies between any lower and upper bound of its elements. |
| GapSummary.SummaryAverages | openkeywords/gap_analyzer.py:256-258 | The averages are well defined. The average score is non-negative for non-negative scores; the average volume, after `round()`, lies within the volumes' integer bounds; the average difficulty lies within the difficulties' bounds. |
| GapScenarios.ChurnWordCount | openkeywords/gap_analyzer.py:135 | "how to reduce churn for saas" has six words. |
| GapScenarios.ChurnIsQuestion | openkeywords/gap_analyzer.py:149-159 | That keyword is already lower case and classifies as "question" with multiplier 1.5. |
| GapScenarios.ScenarioQuestionKept | openkeywords/gap_analyzer.py:128-196 | That keyword with volume 800, difficulty 20, competition 0.15 and no SERP features is kept, is a question with no boost, and stores the score 57.14. |
| GapScenarios.ScenarioTooHard | openkeywords/gap_analyzer.py:137-138 | The same keyword at difficulty 50 is filtered out. |
| GapScenarios.ScenarioCommercialBoosted | openkeywords/gap_analyzer.py:147-196 | "pricing" with volume 3000, difficulty 10 and a featured snippet is commercial (1.3), gets the 1.3 boost, and scores 460.91 when the per-record steps are applied to it directly. As one word it fails `AEO_FILTERS`, so the pipeline itself never scores it. |
| GapScenarios.ScenarioEmptyPool | openkeywords/gap_analyzer.py:218-241 | When every gap list is empty the pool is empty and the summary is `{}`. |
| DataForSeo.LocationCodeProperties | openkeywords/dataforseo_client.py:17-52 | The country lookup ignores case. It yields either a table code or 2840, and it yields 2840 iff the country is "us" or not in the table. |
| DataForSeo.LanguageCodeIsLowerCaseInput | openkeywords/dataforseo_client.py:55-83 | The language lookup is the lower-cased input, except that "zh" becomes "zh-CN". |
| DataForSeo.Depth | openkeywords/dataforseo_client.py:208 | `min(num_results, 100)`: never above 100, and the request itself when at most 100. |
| DataForSeo.FailureResponse | openkeywords/dataforseo_client.py:96-108 | A failed response has `success` false, the given error, no results, PAA or related searches, no snippet, zero total and zero cost. |
| DataForSeo.ToDictRoundTrip | openkeywords/dataforseo_client.py:110-131 | `to_dict` loses nothing: the response can be read back from the dict. |
| DataForSeo.ResultsRoundTrip | openkeywords/dataforseo_client.py:114-123 | The `results` list of `to_dict` reads back to the results, element by element. |
| SerpParse.Search | openkeywords/dataforseo_client.py:173-247 | Unconfigured: the fixed credentials error and no request. Otherwise the request carries the query, the looked-up location and language codes and the clamped depth. The cases are then: timeout gives the timeout error; 401/403 gives the authentication error; another failure, or a payload the parser cannot read, gives "DataForSEO error: " and the exception text; otherwise the parsed response. |
| SerpParse.ParseResponse | openkeywords/dataforseo_client.py:249-320 | The parser yields exactly `ParseResponseSpec`: its error cases, its no-data case, the item loop's output, or a raise. |
| SerpParse.ParseItems | openkeywords/dataforseo_client.py:266-320 | The item loop raises iff some item would make the code raise. Otherwise it builds the response from the items' organic results, first snippet, PAA entries and related searches, at cost 0.0005. |
| SerpParse.HandleItem | openkeywords/dataforseo_client.py:268-306 | One item contributes according to its `type`: an organic result, the snippet only if none was found before, its nested PAA entries, or its related searches. |
| SerpParse.CollectPaa | openkeywords/dataforseo_client.py:291-297 | The PAA loop raises iff a nested entry is not a dict. Otherwise there is one entry per nested dict, in order. |
| SerpParse.CollectRelated | openkeywords/dataforseo_client.py:301-306 | The related-search loop keeps strings as they are and dicts by their `title`, in order, and drops other elements. |
| SerpParse.PrefixStep | openkeywords/dataforseo_client.py:268-306 | What one more item adds to the organic results, PAA entries and related searches, and how it updates the snippet. |
| SerpParse.ConcatItems | openkeywords/dataforseo_client.py:268-306 | Organic results, PAA entries and related searches of concatenated item lists are concatenated. |
| SerpParse.OrganicInOrder | openkeywords/dataforseo_client.py:272-279 | The organic item at index i becomes the result at the position equal to the number of organic items before it. |
| SerpParse.OrganicCount | openkeywords/dataforseo_client.py:272-279 | There is one result per organic item. |
| SerpParse.SnippetPresence | openkeywords/dataforseo_client.py:282-287 | There is no featured snippet iff no item is a featured snippet. |
| SerpParse.FirstSnippetWins | openkeywords/dataforseo_client.py:282-287 | The snippet is that of the first featured-snippet item; later ones are ignored. |
| SerpParse.RelatedStringsKept | openkeywords/dataforseo_client.py:303-304 | Nested strings each become `{"query": s}`, in order. |
| SerpParse.RelatedCount | openkeywords/dataforseo_client.py:302-306 | There is at most one related search per nested element, and none when no element is a string or dict. |
| SerpParse.ParsedShape | openkeywords/dataforseo_client.py:257-320 | Every parsed response echoes the query and timestamp, and `total_results` is the number of results. A success has no error. A failure has no results, PAA, related searches, snippet or cost. The cost is 0.0005 or 0.0, and a success with cost 0.0 is the no-data response. |
| SerpParse.FailureWithoutMessage | openkeywords/dataforseo_client.py:258-260 | A non-success status without `status_message` gives a failure whose error is `None`. |
| SerpParse.NumericSuccessStatus | openkeywords/dataforseo_client.py:258-264 | Status 20000.0 compares equal to 20000. With no result rows it gives the no-data success. |
| SerpParse.OrganicItemRoundTrip | openkeywords/dataforseo_client.py:272-279 | An organic item built from a result parses back to that result and contributes nothing else. |
| SerpParse.OrganicItemsRoundTrip | openkeywords/dataforseo_client.py:266-306 | Items built from results hold no error and parse back to those results, with no snippet, PAA or related searches. |
| SerpParse.OrganicPayloadRoundTrip | openkeywords/dataforseo_client.py:249-320 | A one-task payload of organic items parses to a success holding exactly those results in order, with cost 0.0005 and the matching total. |
| SerpParse.SearchSuccess | openkeywords/dataforseo_client.py:229-233 | A delivered reply whose payload parses to a success carries no error. |
| KeywordData.Truncated | openkeywords/dataforseo_client.py:350 | The keywords are cut to their first 1000. |
| KeywordData.LevelDifficulty | openkeywords/dataforseo_client.py:400-404 | The difficulty is 25 for LOW and 75 for HIGH, ignoring case; every other level, MEDIUM included, gives 50. |
| KeywordData.LevelDifficultyIgnoresCase | openkeywords/dataforseo_client.py:404 | Lower-casing the level does not change the difficulty. |
| KeywordData.OrZero | openkeywords/dataforseo_client.py:407-408 | A falsy volume or cpc becomes 0; any other value is kept. |
| KeywordData.MetricsEffect | openkeywords/dataforseo_client.py:391-412 | An item writes only under a non-empty, lower-cased keyword. |
| KeywordData.DifficultyValue | openkeywords/dataforseo_client.py:493-495 | A falsy difficulty becomes 50. A non-zero int is kept and a non-zero float truncates. A non-empty list or dict makes `int()` raise. |
| KeywordData.DifficultyEffect | openkeywords/dataforseo_client.py:491-495 | An item writes only under a non-empty, lower-cased keyword. |
| KeywordData.ParseItems | openkeywords/dataforseo_client.py:391-412 | The item loop raises iff some item would raise. Otherwise it applies the items' writes to the map in order. |
| KeywordData.ParseReply | openkeywords/dataforseo_client.py:386-415 | The parse loops leave `result_map` equal to `ParseSpec`: the replay of every write of every contributing task, or `{}` when the code raises. |
| KeywordData.ReplayIsToMap | openkeywords/dataforseo_client.py:406 | Applying the writes in order to `{}` gives the map in which each key holds its last write. |
| KeywordData.ToMapKeys | openkeywords/dataforseo_client.py:406 | A key is in the result iff some item wrote it. |
| KeywordData.ToMapLastWriteWins | openkeywords/dataforseo_client.py:406 | A later write to a keyword overwrites an earlier one. |
| KeywordData.ItemWritesNonePersists | openkeywords/dataforseo_client.py:391-422 | Once an item raises, the whole parse raises (and the method returns `{}`). |
| KeywordData.TasksWritesNonePersists | openkeywords/dataforseo_client.py:389-422 | Once a task raises, the whole parse raises. |
| KeywordData.ParsedKeysAreLower | openkeywords/dataforseo_client.py:392-393 | Every key of the parsed map is a non-empty, lower-case keyword. |
| KeywordData.MetricsKeysAreLower | openkeywords/dataforseo_client.py:392-393 | The same, for `get_keyword_data`. |
| KeywordData.DifficultyKeysAreLower | openkeywords/dataforseo_client.py:492-494 | The same, for `get_keyword_difficulty`. |
| KeywordData.OnlySuccessfulTasksContribute | openkeywords/dataforseo_client.py:390 | Tasks without status 20000 and a non-empty result write nothing. |
| KeywordData.AtMostOneWritePerItem | openkeywords/dataforseo_client.py:391-412 | Each item writes at most once. |
| KeywordData.GetKeywordData | openkeywords/dataforseo_client.py:322-422 | Unconfigured, or no keywords: `{}` and no request. Otherwise the request carries the first 1000 keywords, the location code and the language as given. The result is the parsed reply for a delivered 2xx answer, and `{}` otherwise. |
| KeywordData.GetKeywordDifficulty | openkeywords/dataforseo_client.py:424-502 | Unconfigured, or no keywords: `{}` and no request. Otherwise there is one task per truncated keyword, in order, and the result is the parsed reply for a delivered 2xx answer, or `{}`. |
| PyJson.LookupFirst | openkeywords/dataforseo_client.py:257 | `d.get(key)` finds the entry for the key; with distinct keys, as in every Python dict, that entry is the only one. |
| PyJson.LookupDistinct | openkeywords/dataforseo_client.py:257 | On a dict with distinct keys, `d.get(key)` returns the value stored under the key. |
| PyJson.ParseIntOfDigits | openkeywords/dataforseo_client.py:495 | `int()` of a natural number's decimal rendering gives the number back. |

## Left out

- Network and HTTP, `async`, timeouts and the `httpx`/`requests` clients are not modelled. The API clients `SEORankingAPI.get_competitors` and `get_keyword_comparison` (`openkeywords/gap_analyzer.py:64-113`) become the parameters `discovered` and `gapLists`, with a failed request as `[]`. HTTP exchanges become a `Reply`.
- Environment variables, the Basic-auth header and `base64` are not modelled. A client is just its optional login and password.
- Logging, `print`, the CSV/JSON export, `print_top_opportunities` and the command line are console and file I/O, and are left out.
- `SerpResponse.timestamp` reads the clock; it is the parameter `now`.
- The text of a caught exception, `str(e)`, is the parameter `exceptionText`. It is not computed from the failure.
- Rounding: `round()` is modelled on exact reals (exact decimal, ties to even). Python rounds the nearest binary float, so results can differ at a tie that binary floating point cannot represent.
- `lower()`, `upper()` and `isspace()` follow ASCII for case. The whitespace table is Python's for single code points. Unicode case mapping beyond ASCII is not modelled.
- KeywordData.MetricsEffect: `competition_level` is stored as its JSON value, not as `str()` of it. The two differ only for non-string levels.
- PyJson.ToInt: `int()` of a string accepts an optional sign and ASCII digits. Surrounding whitespace, underscores and non-ASCII digits are not modelled, and such strings count as raising.
- GapAnalyzer.KeywordRecord: `difficulty` is a natural number. A negative difficulty, where −1 divides by zero, is not modelled. Nor is a non-numeric volume, difficulty or competition, on which Python's comparisons raise `TypeError`.
- GapAnalyzer.AnalyzeContentGaps:
  - A record object shared between two competitors' gap lists is excluded (`Separate`). The API returns fresh dicts per request.
  - The sort is modelled as a function, a stable insertion sort. The in-place `list.sort` is not modelled.
- GapSummary.GenerateSummaryStats:
  - It requires every gap to carry `aeo_score`, `volume` and `difficulty`, because the code raises `KeyError` otherwise. Records produced by the pipeline always carry them when they passed the filter.
  - The key order of `intent_breakdown` is not modelled; it is a map.
- Behaviour of the code that the model keeps as written:
  - The ranking sorts on `aeo_score` alone and is stable, with no tie-break.
  - "pricing" also matches the local intent, through the trigger "in".
  - A non-success task without `status_message` gives `error = None`.
  - An empty pool gives `{}` from the summary.
- Default arguments are not modelled: `num_results=10`, `language="en"`, `country="us"`, `source="us"` and `max_competitors=3` are ordinary parameters that every caller passes.
- GapAnalyzer.CategorizeByIntent: it requires the record to have a `"keyword"`, so the `KeyError` of a direct call on a dict without one is not modelled. Its only caller passes kept records, which always have one (`KeptHaveKeyword`).
- Python floats are exact reals throughout: the filter comparisons, the score arithmetic and the averages, not only `round()`. Binary floating-point error is not modelled.
- KeywordData.MetricsEffect: `float(competition)` raising `OverflowError` on a JSON integer too large for a float is not modelled; the integer is taken as an exact real.
- PyJson.Json: a `JObj` is a list of entries and could repeat a key, which no Python dict does (`json.loads` keeps the last). Such a value stands for no Python value; with distinct keys (`DistinctKeys`), `Lookup` returns the key's only entry (`LookupDistinct`).
