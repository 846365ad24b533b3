/**
 * The DataForSEO client's data types, static tables and request-building
 * rules: the location and language tables, `SearchResult`, `SerpResponse`
 * (with `to_dict`), credentials and the `depth` clamp of a SERP request.
 */
module DataForSeo {
  import opened Wrappers
  import opened PyJson
  import Text
  import opened Seqs

  /** The location code used for a country missing from the table (United States). */
  const DefaultLocationCode: int := 2840

  const LocationCodes: map<string, int> := map[
    "us" := 2840, "uk" := 2826, "gb" := 2826, "ca" := 2124, "au" := 2036,
    "de" := 2276, "fr" := 2250, "es" := 2724, "it" := 2380, "jp" := 2392,
    "br" := 2076, "in" := 2356, "mx" := 2484, "nl" := 2528, "se" := 2752,
    "pl" := 2616, "ch" := 2756, "at" := 2040, "be" := 2056, "pt" := 2620,
    "dk" := 2208, "no" := 2578, "fi" := 2246, "ie" := 2372, "nz" := 2554,
    "sg" := 2702, "hk" := 2344, "kr" := 2410, "tw" := 2158, "ae" := 2784,
    "za" := 2710, "ar" := 2032, "cl" := 2152, "co" := 2170
  ]

  const LanguageCodes: map<string, string> := map[
    "en" := "en", "de" := "de", "fr" := "fr", "es" := "es", "it" := "it",
    "pt" := "pt", "nl" := "nl", "pl" := "pl", "ru" := "ru", "ja" := "ja",
    "zh" := "zh-CN", "ko" := "ko", "ar" := "ar", "hi" := "hi", "tr" := "tr",
    "vi" := "vi", "th" := "th", "sv" := "sv", "da" := "da", "no" := "no",
    "fi" := "fi", "cs" := "cs", "hu" := "hu", "el" := "el", "he" := "he",
    "id" := "id", "ms" := "ms"
  ]

  /** The most results a SERP request asks for. */
  const MaxDepth: int := 100

  /** `LOCATION_CODES.get(country.lower(), 2840)`. */
  function LocationCode(country: string): int
  {
    var key := Text.Lower(country);
    if key in LocationCodes then LocationCodes[key] else DefaultLocationCode
  }

  /** `LANGUAGE_CODES.get(language.lower(), language.lower())`. */
  function LanguageCode(language: string): string
  {
    var key := Text.Lower(language);
    if key in LanguageCodes then LanguageCodes[key] else key
  }

  /**
   * The country lookup ignores case, never fails, and yields either a code
   * of the table or the United States code.
   */
  lemma LocationCodeProperties(country: string)
    ensures LocationCode(country) == LocationCode(Text.Lower(country))
    ensures LocationCode(country) == DefaultLocationCode || LocationCode(country) in LocationCodes.Values
    ensures LocationCode(country) == DefaultLocationCode <==> Text.Lower(country) in {"us"} || Text.Lower(country) !in LocationCodes
  {
    Text.LowerProperties(country);
    var key := Text.Lower(country);
    if key in LocationCodes && key != "us" {
      assert LocationCodes[key] != DefaultLocationCode;
    }
  }

  /**
   * The language table maps every language to itself except Chinese, so the
   * lookup is the lower-cased input unless that is "zh".
   */
  lemma LanguageCodeIsLowerCaseInput(language: string)
    ensures LanguageCode(language) == if Text.Lower(language) == "zh" then "zh-CN" else Text.Lower(language)
  {
  }

  /** `min(num_results, 100)`: the requested depth. */
  function Depth(numResults: int): (d: int)
    ensures d <= MaxDepth
    ensures d == numResults || d == MaxDepth
    ensures numResults <= MaxDepth ==> d == numResults
  {
    if numResults < MaxDepth then numResults else MaxDepth
  }

  /** The credentials a client was built with (`None` when neither argument nor environment gave one). */
  datatype Client = Client(login: Option<string>, password: Option<string>) {

    /** `bool(self.api_login and self.api_password)`. */
    predicate IsConfigured()
    {
      login.Some? && login.value != [] && password.Some? && password.value != []
    }
  }

  /** One organic result; the fields hold whatever the payload carried. */
  datatype SearchResult = SearchResult(
    position: Json, title: Json, link: Json, snippet: Json, displayedLink: Json)

  /** The `featured_snippet` dict: `{"title", "snippet", "link"}`. */
  datatype Snippet = Snippet(title: Json, snippet: Json, link: Json)

  /** One people-also-ask dict: `{"question", "snippet", "link"}`. */
  datatype PaaEntry = PaaEntry(question: Json, snippet: Json, link: Json)

  /** One related-search dict: `{"query"}`. */
  datatype RelatedSearch = RelatedSearch(query: Json)

  /**
   * `SerpResponse`. `error` is `JNull` for Python's `None`; `timestamp` is the
   * clock reading taken when the response was built.
   */
  datatype SerpResponse = SerpResponse(
    success: bool,
    query: string,
    results: seq<SearchResult>,
    cost: real,
    error: Json,
    featuredSnippet: Option<Snippet>,
    peopleAlsoAsk: seq<PaaEntry>,
    relatedSearches: seq<RelatedSearch>,
    totalResults: int,
    timestamp: string)

  /** `SerpResponse(success=False, query=query, error=error)`, every other field at its default. */
  function FailureResponse(query: string, error: Json, now: string): (r: SerpResponse)
    ensures !r.success && r.query == query && r.error == error && r.timestamp == now
    ensures r.results == [] && r.peopleAlsoAsk == [] && r.relatedSearches == []
    ensures r.featuredSnippet == None && r.totalResults == 0 && r.cost == 0.0
  {
    SerpResponse(false, query, [], 0.0, error, None, [], [], 0, now)
  }

  /** The request body of a SERP search: one task. */
  datatype SerpRequest = SerpRequest(keyword: string, locationCode: int, languageCode: string, depth: int)

  // ---- SerpResponse.to_dict and its inverse ----

  function ResultToDict(r: SearchResult): Json
  {
    JObj([("position", r.position), ("title", r.title), ("link", r.link),
          ("snippet", r.snippet), ("displayed_link", r.displayedLink)])
  }

  function SnippetToDict(s: Option<Snippet>): Json
  {
    match s
    case None => JNull
    case Some(fs) => JObj([("title", fs.title), ("snippet", fs.snippet), ("link", fs.link)])
  }

  function PaaToDict(p: PaaEntry): Json
  {
    JObj([("question", p.question), ("snippet", p.snippet), ("link", p.link)])
  }

  function RelatedToDict(q: RelatedSearch): Json
  {
    JObj([("query", q.query)])
  }

  /** `SerpResponse.to_dict()`. */
  function ToDict(r: SerpResponse): Json
  {
    JObj([
      ("success", JBool(r.success)),
      ("query", JStr(r.query)),
      ("results", JArr(Map(r.results, ResultToDict))),
      ("cost", JFloat(r.cost)),
      ("error", r.error),
      ("featured_snippet", SnippetToDict(r.featuredSnippet)),
      ("people_also_ask", JArr(Map(r.peopleAlsoAsk, PaaToDict))),
      ("related_searches", JArr(Map(r.relatedSearches, RelatedToDict))),
      ("total_results", JInt(r.totalResults)),
      ("timestamp", JStr(r.timestamp))
    ])
  }

  /** `fields` are the entries of a dict whose keys are exactly `keys`, in that order. */
  predicate HasKeys(fields: seq<(string, Json)>, keys: seq<string>)
  {
    |fields| == |keys| && forall k :: 0 <= k < |keys| ==> fields[k].0 == keys[k]
  }

  function ResultFromDict(j: Json): Option<SearchResult>
  {
    if j.JObj? && HasKeys(j.fields, ["position", "title", "link", "snippet", "displayed_link"])
    then
      var f := j.fields;
      Some(SearchResult(f[0].1, f[1].1, f[2].1, f[3].1, f[4].1))
    else None
  }

  function SnippetFromDict(j: Json): Option<Option<Snippet>>
  {
    if j == JNull then Some(None)
    else if j.JObj? && HasKeys(j.fields, ["title", "snippet", "link"])
    then Some(Some(Snippet(j.fields[0].1, j.fields[1].1, j.fields[2].1)))
    else None
  }

  function PaaFromDict(j: Json): Option<PaaEntry>
  {
    if j.JObj? && HasKeys(j.fields, ["question", "snippet", "link"])
    then Some(PaaEntry(j.fields[0].1, j.fields[1].1, j.fields[2].1))
    else None
  }

  function RelatedFromDict(j: Json): Option<RelatedSearch>
  {
    if j.JObj? && HasKeys(j.fields, ["query"])
    then Some(RelatedSearch(j.fields[0].1))
    else None
  }

  const ResponseKeys: seq<string> := [
    "success", "query", "results", "cost", "error", "featured_snippet",
    "people_also_ask", "related_searches", "total_results", "timestamp"
  ]

  /** Reads back a dict laid out as `to_dict` lays it out (keys in that order). */
  function FromDict(j: Json): Option<SerpResponse>
  {
    if !(j.JObj? && HasKeys(j.fields, ResponseKeys)) then None
    else
      var f := j.fields;
      if && f[0].1.JBool? && f[1].1.JStr? && f[2].1.JArr? && f[3].1.JFloat?
         && f[6].1.JArr? && f[7].1.JArr? && f[8].1.JInt? && f[9].1.JStr?
      then
        var rs, fs, ps, qs := Traverse(f[2].1.elems, ResultFromDict), SnippetFromDict(f[5].1),
          Traverse(f[6].1.elems, PaaFromDict), Traverse(f[7].1.elems, RelatedFromDict);
        if rs.Some? && fs.Some? && ps.Some? && qs.Some?
        then Some(SerpResponse(f[0].1.b, f[1].1.s, rs.value, f[3].1.r, f[4].1,
                               fs.value, ps.value, qs.value, f[8].1.i, f[9].1.s))
        else None
      else None
  }

  lemma ResultRoundTrip(r: SearchResult)
    ensures ResultFromDict(ResultToDict(r)) == Some(r)
  {
  }

  lemma PaaRoundTrip(p: PaaEntry)
    ensures PaaFromDict(PaaToDict(p)) == Some(p)
  {
  }

  lemma SnippetRoundTrip(s: Option<Snippet>)
    ensures SnippetFromDict(SnippetToDict(s)) == Some(s)
  {
  }

  lemma RelatedRoundTrip(q: RelatedSearch)
    ensures RelatedFromDict(RelatedToDict(q)) == Some(q)
  {
  }

  lemma ResultsRoundTrip(rs: seq<SearchResult>)
    ensures Traverse(Map(rs, ResultToDict), ResultFromDict) == Some(rs)
  {
    forall k | 0 <= k < |rs| ensures ResultFromDict(ResultToDict(rs[k])) == Some(rs[k]) {
      ResultRoundTrip(rs[k]);
    }
    TraverseMap(rs, ResultToDict, ResultFromDict);
  }

  lemma PaasRoundTrip(ps: seq<PaaEntry>)
    ensures Traverse(Map(ps, PaaToDict), PaaFromDict) == Some(ps)
  {
    forall k | 0 <= k < |ps| ensures PaaFromDict(PaaToDict(ps[k])) == Some(ps[k]) {
      PaaRoundTrip(ps[k]);
    }
    TraverseMap(ps, PaaToDict, PaaFromDict);
  }

  lemma RelatedsRoundTrip(qs: seq<RelatedSearch>)
    ensures Traverse(Map(qs, RelatedToDict), RelatedFromDict) == Some(qs)
  {
    forall k | 0 <= k < |qs| ensures RelatedFromDict(RelatedToDict(qs[k])) == Some(qs[k]) {
      RelatedRoundTrip(qs[k]);
    }
    TraverseMap(qs, RelatedToDict, RelatedFromDict);
  }

  /** `to_dict` loses nothing: every field of the response can be read back from the dict. */
  lemma ToDictRoundTrip(r: SerpResponse)
    ensures FromDict(ToDict(r)) == Some(r)
  {
    var f := ToDict(r).fields;
    assert HasKeys(f, ResponseKeys);
    var rs, fs := Traverse(f[2].1.elems, ResultFromDict), SnippetFromDict(f[5].1);
    var ps, qs := Traverse(f[6].1.elems, PaaFromDict), Traverse(f[7].1.elems, RelatedFromDict);
    assert rs == Some(r.results) by {
      ResultsRoundTrip(r.results);
    }
    assert fs == Some(r.featuredSnippet) by {
      SnippetRoundTrip(r.featuredSnippet);
    }
    assert ps == Some(r.peopleAlsoAsk) by {
      PaasRoundTrip(r.peopleAlsoAsk);
    }
    assert qs == Some(r.relatedSearches) by {
      RelatedsRoundTrip(r.relatedSearches);
    }
  }
}
