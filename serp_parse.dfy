/**
 * `DataForSEOClient._parse_response` and `DataForSEOClient.search`: turning
 * a DataForSEO SERP payload into a `SerpResponse`.
 */
module SerpParse {
  import opened Wrappers
  import opened PyJson
  import opened DataForSeo
  import opened Seqs

  /** The status code of a task that succeeded. */
  const SuccessStatus: int := 20000

  /** What one successful query costs, in US dollars ($0.50 per 1,000 queries). */
  const QueryCost: real := 0.0005

  /** A parse either builds a response or raises (the payload did not have the shape the code indexes into). */
  datatype ParseOutcome = Parsed(response: SerpResponse) | Raised

  /** The `type` of a SERP item, as the item loop tells them apart. */
  datatype ItemKind = OrganicItem | SnippetItem | PaaItem | RelatedItem | OtherItem

  /** The kind of a dict item, from `item.get("type", "")`. */
  function KindOf(fields: seq<(string, Json)>): ItemKind
  {
    var t := Get(fields, "type", JStr(""));
    if t == JStr("organic") then OrganicItem
    else if t == JStr("featured_snippet") then SnippetItem
    else if t == JStr("people_also_ask") then PaaItem
    else if t == JStr("related_searches") then RelatedItem
    else OtherItem
  }

  /** `item` is a dict of kind `k`. */
  predicate HasKind(item: Json, k: ItemKind)
  {
    item.JObj? && KindOf(item.fields) == k
  }

  function OrganicOf(fields: seq<(string, Json)>): SearchResult
  {
    SearchResult(
      Get(fields, "rank_absolute", JInt(0)),
      Get(fields, "title", JStr("")),
      Get(fields, "url", JStr("")),
      Get(fields, "description", JStr("")),
      Get(fields, "breadcrumb", JStr("")))
  }

  function SnippetOf(fields: seq<(string, Json)>): Snippet
  {
    Snippet(Get(fields, "title", JNull), Get(fields, "description", JNull), Get(fields, "url", JNull))
  }

  function PaaEntryOf(fields: seq<(string, Json)>): PaaEntry
  {
    PaaEntry(Get(fields, "title", JNull), Get(fields, "description", JNull), Get(fields, "url", JNull))
  }

  /** The nested list of a PAA or related-searches item: `item.get("items", [])`, iterated. */
  function NestedItems(fields: seq<(string, Json)>): Option<seq<Json>>
  {
    Iterate(Get(fields, "items", JArr([])))
  }

  predicate AllObjects(xs: seq<Json>)
  {
    forall k :: 0 <= k < |xs| ==> xs[k].JObj?
  }

  /** Handling `item` in the item loop raises nothing. */
  predicate ItemOk(item: Json)
  {
    && item.JObj?
    && (HasKind(item, PaaItem) ==>
          NestedItems(item.fields).Some? && AllObjects(NestedItems(item.fields).value))
    && (HasKind(item, RelatedItem) ==> NestedItems(item.fields).Some?)
  }

  predicate ItemsOk(items: seq<Json>)
  {
    forall k :: 0 <= k < |items| ==> ItemOk(items[k])
  }

  /** What one nested element of a PAA item contributes. */
  function PaaOf(x: Json): seq<PaaEntry>
  {
    if x.JObj? then [PaaEntryOf(x.fields)] else []
  }

  /** What one nested element of a related-searches item contributes. */
  function RelatedOf(x: Json): seq<RelatedSearch>
  {
    match x
    case JStr(_) => [RelatedSearch(x)]
    case JObj(fields) => [RelatedSearch(Get(fields, "title", JNull))]
    case _ => []
  }

  function OrganicOfItem(item: Json): seq<SearchResult>
  {
    if HasKind(item, OrganicItem) then [OrganicOf(item.fields)] else []
  }

  /** The featured snippet once `item` has been seen, given the one found before it. */
  function SnippetStep(earlier: Option<Snippet>, item: Json): Option<Snippet>
  {
    if earlier.None? && HasKind(item, SnippetItem) then Some(SnippetOf(item.fields)) else earlier
  }

  function PaaOfItem(item: Json): seq<PaaEntry>
  {
    if HasKind(item, PaaItem) && NestedItems(item.fields).Some?
    then FlatMap(NestedItems(item.fields).value, PaaOf) else []
  }

  function RelatedOfItem(item: Json): seq<RelatedSearch>
  {
    if HasKind(item, RelatedItem) && NestedItems(item.fields).Some?
    then FlatMap(NestedItems(item.fields).value, RelatedOf) else []
  }

  /** The organic results of the items, in item order. */
  function Organic(items: seq<Json>): seq<SearchResult>
  {
    FlatMap(items, OrganicOfItem)
  }

  /** The snippet of the first featured-snippet item, if any. */
  function FirstSnippet(items: seq<Json>): Option<Snippet>
  {
    if items == [] then None
    else
      SnippetStep(FirstSnippet(items[..|items| - 1]), items[|items| - 1])
  }

  /** The PAA entries of all PAA items, flattened in order. */
  function Paa(items: seq<Json>): seq<PaaEntry>
  {
    FlatMap(items, PaaOfItem)
  }

  /** The related searches of all related-searches items, flattened in order. */
  function Related(items: seq<Json>): seq<RelatedSearch>
  {
    FlatMap(items, RelatedOfItem)
  }

  /** `SerpResponse(success=True, query=query, results=[])`: a task with no result rows. */
  function NoDataResponse(query: string, now: string): SerpResponse
  {
    SerpResponse(true, query, [], 0.0, JNull, None, [], [], 0, now)
  }

  /** The response built after the item loop. */
  function ItemsResponse(query: string, items: seq<Json>, now: string): SerpResponse
  {
    var results := Organic(items);
    SerpResponse(true, query, results, QueryCost, JNull, FirstSnippet(items), Paa(items), Related(items), |results|, now)
  }

  /** What `_parse_response(data, query)` returns, or whether it raises. */
  function ParseResponseSpec(data: Json, query: string, now: string): ParseOutcome
  {
    if !data.JObj? then Raised
    else
      var tasks := Get(data.fields, "tasks", JArr([]));
      if !Truthy(tasks) then Parsed(FailureResponse(query, JStr("Unknown error"), now))
      else if !tasks.JArr? || !tasks.elems[0].JObj? then Raised
      else
        var task := tasks.elems[0].fields;
        if !EqualsInt(Get(task, "status_code", JNull), SuccessStatus)
        then Parsed(FailureResponse(query, Get(task, "status_message", JNull), now))
        else
          var resultData := Get(task, "result", JArr([]));
          if !Truthy(resultData) then Parsed(NoDataResponse(query, now))
          else if !resultData.JArr? || !resultData.elems[0].JObj? then Raised
          else
            var items := NestedItems(resultData.elems[0].fields);
            if items.None? || !ItemsOk(items.value) then Raised
            else Parsed(ItemsResponse(query, items.value, now))
  }

  /** `_parse_response`: the item loop, with its nested PAA and related-searches loops. */
  method ParseResponse(data: Json, query: string, now: string) returns (r: ParseOutcome)
    ensures r == ParseResponseSpec(data, query, now)
  {
    if !data.JObj? {
      return Raised;
    }
    var tasks := Get(data.fields, "tasks", JArr([]));
    if !Truthy(tasks) {
      return Parsed(FailureResponse(query, JStr("Unknown error"), now));
    }
    if !tasks.JArr? || !tasks.elems[0].JObj? {
      return Raised;
    }
    var task := tasks.elems[0].fields;
    if !EqualsInt(Get(task, "status_code", JNull), SuccessStatus) {
      return Parsed(FailureResponse(query, Get(task, "status_message", JNull), now));
    }
    var resultData := Get(task, "result", JArr([]));
    if !Truthy(resultData) {
      return Parsed(NoDataResponse(query, now));
    }
    if !resultData.JArr? || !resultData.elems[0].JObj? {
      return Raised;
    }
    var itemsOrNone := NestedItems(resultData.elems[0].fields);
    if itemsOrNone.None? {
      return Raised;
    }
    r := ParseItems(query, itemsOrNone.value, now);
  }

  /** The loop over the nested list of a PAA item; `ok` is false where the code raises. */
  method CollectPaa(xs: seq<Json>) returns (ok: bool, entries: seq<PaaEntry>)
    ensures ok <==> AllObjects(xs)
    ensures ok ==> entries == FlatMap(xs, PaaOf)
  {
    entries := [];
    var j := 0;
    while j < |xs|
      invariant 0 <= j <= |xs|
      invariant AllObjects(xs[..j])
      invariant entries == FlatMap(xs[..j], PaaOf)
    {
      assert xs[..j + 1] == xs[..j] + [xs[j]];
      FlatMapPrefix(xs, j, PaaOf);
      if !xs[j].JObj? {
        return false, entries;
      }
      entries := entries + [PaaEntryOf(xs[j].fields)];
      j := j + 1;
    }
    assert xs[..j] == xs;
    ok := true;
  }

  /** The loop over the nested list of a related-searches item: strings and dicts are kept, the rest skipped. */
  method CollectRelated(xs: seq<Json>) returns (entries: seq<RelatedSearch>)
    ensures entries == FlatMap(xs, RelatedOf)
  {
    entries := [];
    var j := 0;
    while j < |xs|
      invariant 0 <= j <= |xs|
      invariant entries == FlatMap(xs[..j], RelatedOf)
    {
      FlatMapPrefix(xs, j, RelatedOf);
      var x := xs[j];
      var found: seq<RelatedSearch> := [];
      if x.JStr? {
        found := [RelatedSearch(x)];
      } else if x.JObj? {
        found := [RelatedSearch(Get(x.fields, "title", JNull))];
      }
      assert found == RelatedOf(x);
      entries := entries + found;
      j := j + 1;
    }
    assert xs[..j] == xs;
  }

  /** One pass of the item loop: what `item` adds, given the featured snippet found so far. */
  method HandleItem(item: Json, featured: Option<Snippet>)
    returns (ok: bool, organic: seq<SearchResult>, snippet: Option<Snippet>,
             paa: seq<PaaEntry>, related: seq<RelatedSearch>)
    ensures ok <==> ItemOk(item)
    ensures ok ==> organic == OrganicOfItem(item) && snippet == SnippetStep(featured, item)
                   && paa == PaaOfItem(item) && related == RelatedOfItem(item)
  {
    organic, snippet, paa, related := [], featured, [], [];
    if !item.JObj? {
      return false, organic, snippet, paa, related;
    }
    var kind := KindOf(item.fields);
    if kind == OrganicItem {
      organic := [OrganicOf(item.fields)];
    } else if kind == SnippetItem && featured.None? {
      snippet := Some(SnippetOf(item.fields));
    } else if kind == PaaItem {
      var nested := NestedItems(item.fields);
      if nested.None? {
        return false, organic, snippet, paa, related;
      }
      ok, paa := CollectPaa(nested.value);
      return;
    } else if kind == RelatedItem {
      var nested := NestedItems(item.fields);
      if nested.None? {
        return false, organic, snippet, paa, related;
      }
      related := CollectRelated(nested.value);
    }
    ok := true;
  }

  /** How the specification extends from `items[..i]` to `items[..i + 1]`. */
  lemma PrefixStep(items: seq<Json>, i: int)
    requires 0 <= i < |items|
    ensures var p, q, item := items[..i], items[..i + 1], items[i];
      && (ItemsOk(q) <==> ItemsOk(p) && ItemOk(item))
      && Organic(q) == Organic(p) + OrganicOfItem(item)
      && FirstSnippet(q) == SnippetStep(FirstSnippet(p), item)
      && Paa(q) == Paa(p) + PaaOfItem(item)
      && Related(q) == Related(p) + RelatedOfItem(item)
  {
    assert items[..i + 1] == items[..i] + [items[i]];
    assert items[..i + 1][..i] == items[..i];
    FlatMapSnoc(items[..i], items[i], OrganicOfItem);
    FlatMapSnoc(items[..i], items[i], PaaOfItem);
    FlatMapSnoc(items[..i], items[i], RelatedOfItem);
    if ItemsOk(items[..i + 1]) {
      assert items[..i + 1][i] == items[i];
    }
  }

  /** The item loop of `_parse_response`. */
  method ParseItems(query: string, items: seq<Json>, now: string) returns (r: ParseOutcome)
    ensures r == (if ItemsOk(items) then Parsed(ItemsResponse(query, items, now)) else Raised)
  {
    var results: seq<SearchResult> := [];
    var featured: Option<Snippet> := None;
    var paa: seq<PaaEntry> := [];
    var related: seq<RelatedSearch> := [];
    var i := 0;
    while i < |items|
      invariant 0 <= i <= |items|
      invariant ItemsOk(items[..i])
      invariant results == Organic(items[..i])
      invariant featured == FirstSnippet(items[..i])
      invariant paa == Paa(items[..i])
      invariant related == Related(items[..i])
    {
      PrefixStep(items, i);
      var ok, organic, snippet, paaEntries, relatedEntries := HandleItem(items[i], featured);
      if !ok {
        return Raised;
      }
      results, featured := results + organic, snippet;
      paa, related := paa + paaEntries, related + relatedEntries;
      i := i + 1;
    }
    assert items[..i] == items;
    return Parsed(SerpResponse(true, query, results, QueryCost, JNull, featured, paa, related, |results|, now));
  }

  // ---- properties of the parse ----

  /** Parsing concatenated item lists concatenates the organic results, PAA entries and related searches. */
  lemma ConcatItems(a: seq<Json>, b: seq<Json>)
    ensures Organic(a + b) == Organic(a) + Organic(b)
    ensures Paa(a + b) == Paa(a) + Paa(b)
    ensures Related(a + b) == Related(a) + Related(b)
  {
    FlatMapConcat(a, b, OrganicOfItem);
    FlatMapConcat(a, b, PaaOfItem);
    FlatMapConcat(a, b, RelatedOfItem);
  }

  /** The number of items of kind `k`. */
  function CountKind(items: seq<Json>, k: ItemKind): nat
  {
    if items == [] then 0
    else CountKind(items[..|items| - 1], k) + (if HasKind(items[|items| - 1], k) then 1 else 0)
  }

  /**
   * Every organic item yields one result, in item order: the organic item at
   * index `i` is result number `CountKind(items[..i], OrganicItem)`.
   */
  lemma {:induction false} OrganicInOrder(items: seq<Json>, i: int)
    requires 0 <= i < |items| && HasKind(items[i], OrganicItem)
    ensures |Organic(items)| == CountKind(items, OrganicItem)
    ensures CountKind(items[..i], OrganicItem) < |Organic(items)|
    ensures Organic(items)[CountKind(items[..i], OrganicItem)] == OrganicOf(items[i].fields)
  {
    OrganicCount(items);
    OrganicCount(items[..i]);
    assert items == items[..i] + [items[i]] + items[i + 1..];
    ConcatItems(items[..i] + [items[i]], items[i + 1..]);
    ConcatItems(items[..i], [items[i]]);
    assert Organic([items[i]]) == [OrganicOf(items[i].fields)] by {
      assert [items[i]][..0] == [];
    }
  }

  lemma {:induction false} OrganicCount(items: seq<Json>)
    ensures |Organic(items)| == CountKind(items, OrganicItem)
  {
    if items != [] {
      OrganicCount(items[..|items| - 1]);
    }
  }

  /** There is a featured snippet exactly when some item is a featured-snippet item. */
  lemma {:induction false} SnippetPresence(items: seq<Json>)
    ensures FirstSnippet(items).None? <==> forall k :: 0 <= k < |items| ==> !HasKind(items[k], SnippetItem)
  {
    if items != [] {
      var init := items[..|items| - 1];
      SnippetPresence(init);
      assert forall k :: 0 <= k < |init| ==> init[k] == items[k];
    }
  }

  /** The first featured-snippet item wins: later ones are ignored. */
  lemma {:induction false} FirstSnippetWins(items: seq<Json>, i: int)
    requires 0 <= i < |items| && HasKind(items[i], SnippetItem)
    requires forall k :: 0 <= k < i ==> !HasKind(items[k], SnippetItem)
    ensures FirstSnippet(items) == Some(SnippetOf(items[i].fields))
  {
    var init := items[..|items| - 1];
    if i == |items| - 1 {
      SnippetPresence(init);
      assert forall k :: 0 <= k < |init| ==> init[k] == items[k];
    } else {
      assert forall k :: 0 <= k <= i ==> init[k] == items[k];
      FirstSnippetWins(init, i);
    }
  }

  /** String entries of a related-searches item are kept as they are, in order. */
  lemma RelatedStringsKept(xs: seq<Json>)
    requires forall k :: 0 <= k < |xs| ==> xs[k].JStr?
    ensures |FlatMap(xs, RelatedOf)| == |xs|
    ensures forall k :: 0 <= k < |xs| ==> FlatMap(xs, RelatedOf)[k] == RelatedSearch(xs[k])
  {
    FlatMapSingletons(xs, RelatedOf, x => RelatedSearch(x));
  }

  /** Each entry of a related-searches item yields at most one search; entries that are neither strings nor dicts yield none. */
  lemma RelatedCount(xs: seq<Json>)
    ensures |FlatMap(xs, RelatedOf)| <= |xs|
    ensures (forall k :: 0 <= k < |xs| ==> !xs[k].JStr? && !xs[k].JObj?) ==> FlatMap(xs, RelatedOf) == []
  {
    FlatMapAtMostOne(xs, RelatedOf);
    if forall k :: 0 <= k < |xs| ==> !xs[k].JStr? && !xs[k].JObj? {
      FlatMapNone(xs, RelatedOf);
    }
  }

  /**
   * What every parsed response looks like: the query and timestamp are the
   * caller's, `total_results` counts the organic results, a success carries
   * no error, a failure carries nothing else, and only a parse of rows costs
   * money.
   */
  lemma ParsedShape(data: Json, query: string, now: string)
    requires ParseResponseSpec(data, query, now).Parsed?
    ensures var r := ParseResponseSpec(data, query, now).response;
      && r.query == query && r.timestamp == now
      && r.totalResults == |r.results|
      && (r.success ==> r.error == JNull)
      && (!r.success ==> r.results == [] && r.featuredSnippet.None? && r.peopleAlsoAsk == []
                         && r.relatedSearches == [] && r.cost == 0.0)
      && (r.cost == QueryCost || r.cost == 0.0)
      && (r.success && r.cost == 0.0 ==> r == NoDataResponse(query, now))
  {
  }

  /** A payload whose first task failed without a `status_message`: the error is None. */
  lemma FailureWithoutMessage(query: string, now: string)
    ensures ParseResponseSpec(JObj([("tasks", JArr([JObj([("status_code", JInt(40501))])]))]), query, now)
         == Parsed(FailureResponse(query, JNull, now))
  {
    var data := [("tasks", JArr([JObj([("status_code", JInt(40501))])]))];
    var task := [("status_code", JInt(40501))];
    LookupFirst(data, "tasks", 0);
    LookupFirst(task, "status_code", 0);
    assert Lookup(task, "status_message") == None;
  }

  /** The status code 20000 written as a float, or as True's integer value, also counts as success. */
  lemma NumericSuccessStatus(query: string, now: string)
    ensures ParseResponseSpec(JObj([("tasks", JArr([JObj([("status_code", JFloat(20000.0))])]))]), query, now)
         == Parsed(NoDataResponse(query, now))
  {
    var data := [("tasks", JArr([JObj([("status_code", JFloat(20000.0))])]))];
    var task := [("status_code", JFloat(20000.0))];
    LookupFirst(data, "tasks", 0);
    LookupFirst(task, "status_code", 0);
    assert Lookup(task, "result") == None;
  }

  // ---- payloads built from results parse back to them ----

  /** The DataForSEO organic item that carries `r`. */
  function OrganicItemJson(r: SearchResult): Json
  {
    JObj([("type", JStr("organic")), ("rank_absolute", r.position), ("title", r.title),
          ("url", r.link), ("description", r.snippet), ("breadcrumb", r.displayedLink)])
  }

  function OrganicItemsJson(rs: seq<SearchResult>): (items: seq<Json>)
    ensures |items| == |rs|
  {
    if rs == [] then [] else OrganicItemsJson(rs[..|rs| - 1]) + [OrganicItemJson(rs[|rs| - 1])]
  }

  /** A one-task, one-result payload holding `items`. */
  function PayloadJson(items: seq<Json>): Json
  {
    JObj([("tasks", JArr([JObj([("status_code", JInt(SuccessStatus)),
                                 ("result", JArr([JObj([("items", JArr(items))])]))])]))])
  }

  lemma OrganicItemFields(r: SearchResult)
    ensures var f := OrganicItemJson(r).fields;
      && Lookup(f, "type") == Some(JStr("organic"))
      && Lookup(f, "rank_absolute") == Some(r.position)
      && Lookup(f, "title") == Some(r.title)
      && Lookup(f, "url") == Some(r.link)
      && Lookup(f, "description") == Some(r.snippet)
      && Lookup(f, "breadcrumb") == Some(r.displayedLink)
  {
    var f := OrganicItemJson(r).fields;
    assert Lookup(f, "type") == Some(JStr("organic")) by {
      LookupFirst(f, "type", 0);
    }
    assert Lookup(f, "rank_absolute") == Some(r.position) by {
      LookupFirst(f, "rank_absolute", 1);
    }
    assert Lookup(f, "title") == Some(r.title) by {
      LookupFirst(f, "title", 2);
    }
    assert Lookup(f, "url") == Some(r.link) by {
      LookupFirst(f, "url", 3);
    }
    assert Lookup(f, "description") == Some(r.snippet) by {
      LookupFirst(f, "description", 4);
    }
    assert Lookup(f, "breadcrumb") == Some(r.displayedLink) by {
      assert forall j :: 0 <= j < 5 ==> |f[j].0| != |"breadcrumb"|;
      LookupFirst(f, "breadcrumb", 5);
    }
  }

  /** An organic item parses back to its result and contributes nothing else. */
  lemma OrganicItemRoundTrip(r: SearchResult)
    ensures ItemOk(OrganicItemJson(r)) && HasKind(OrganicItemJson(r), OrganicItem)
    ensures OrganicOf(OrganicItemJson(r).fields) == r
    ensures OrganicOfItem(OrganicItemJson(r)) == [r]
    ensures SnippetStep(None, OrganicItemJson(r)) == None
    ensures PaaOfItem(OrganicItemJson(r)) == [] && RelatedOfItem(OrganicItemJson(r)) == []
  {
    OrganicItemFields(r);
  }

  /** Organic items never make the item loop raise. */
  lemma OrganicItemsOk(rs: seq<SearchResult>)
    ensures ItemsOk(OrganicItemsJson(rs))
  {
    var items := OrganicItemsJson(rs);
    forall k | 0 <= k < |items|
      ensures ItemOk(items[k])
    {
      OrganicItemsAt(rs, k);
      OrganicItemRoundTrip(rs[k]);
    }
  }

  lemma {:induction false} OrganicItemsAt(rs: seq<SearchResult>, k: int)
    requires 0 <= k < |rs|
    ensures OrganicItemsJson(rs)[k] == OrganicItemJson(rs[k])
  {
    if k < |rs| - 1 {
      OrganicItemsAt(rs[..|rs| - 1], k);
    }
  }

  lemma {:induction false} OrganicItemsResults(rs: seq<SearchResult>)
    ensures Organic(OrganicItemsJson(rs)) == rs
  {
    if rs != [] {
      var init, r := rs[..|rs| - 1], rs[|rs| - 1];
      OrganicItemsResults(init);
      OrganicItemRoundTrip(r);
      assert OrganicItemsJson(rs) == OrganicItemsJson(init) + [OrganicItemJson(r)];
      FlatMapSnoc(OrganicItemsJson(init), OrganicItemJson(r), OrganicOfItem);
      assert rs == init + [r];
    }
  }

  lemma {:induction false} OrganicItemsNoSnippet(rs: seq<SearchResult>)
    ensures FirstSnippet(OrganicItemsJson(rs)) == None
  {
    if rs != [] {
      var init, r := rs[..|rs| - 1], rs[|rs| - 1];
      OrganicItemsNoSnippet(init);
      OrganicItemRoundTrip(r);
      var all := OrganicItemsJson(rs);
      assert all[..|all| - 1] == OrganicItemsJson(init);
    }
  }

  lemma {:induction false} OrganicItemsNoExtras(rs: seq<SearchResult>)
    ensures Paa(OrganicItemsJson(rs)) == [] && Related(OrganicItemsJson(rs)) == []
  {
    if rs != [] {
      var init, r := rs[..|rs| - 1], rs[|rs| - 1];
      OrganicItemsNoExtras(init);
      OrganicItemRoundTrip(r);
      FlatMapSnoc(OrganicItemsJson(init), OrganicItemJson(r), PaaOfItem);
      FlatMapSnoc(OrganicItemsJson(init), OrganicItemJson(r), RelatedOfItem);
    }
  }

  /** The items built from results hold no error and parse back to those results and nothing else. */
  lemma OrganicItemsRoundTrip(rs: seq<SearchResult>)
    ensures ItemsOk(OrganicItemsJson(rs))
    ensures Organic(OrganicItemsJson(rs)) == rs
    ensures FirstSnippet(OrganicItemsJson(rs)) == None
    ensures Paa(OrganicItemsJson(rs)) == [] && Related(OrganicItemsJson(rs)) == []
  {
    OrganicItemsOk(rs);
    OrganicItemsResults(rs);
    OrganicItemsNoSnippet(rs);
    OrganicItemsNoExtras(rs);
  }

  /** A payload of organic items parses back to exactly those results, in order, at the query cost. */
  lemma OrganicPayloadRoundTrip(rs: seq<SearchResult>, query: string, now: string)
    requires rs != []
    ensures ParseResponseSpec(PayloadJson(OrganicItemsJson(rs)), query, now)
         == Parsed(SerpResponse(true, query, rs, QueryCost, JNull, None, [], [], |rs|, now))
  {
    var items := OrganicItemsJson(rs);
    OrganicItemsRoundTrip(rs);
    var row := [("items", JArr(items))];
    var task := [("status_code", JInt(SuccessStatus)), ("result", JArr([JObj(row)]))];
    PayloadLookups(items);
    ParseOfItems(PayloadJson(items), task, row, items, query, now);
  }

  /** The fields `_parse_response` reads from a `PayloadJson`. */
  lemma PayloadLookups(items: seq<Json>)
    ensures var row := [("items", JArr(items))];
            var task := [("status_code", JInt(SuccessStatus)), ("result", JArr([JObj(row)]))];
      && Get(PayloadJson(items).fields, "tasks", JArr([])) == JArr([JObj(task)])
      && Get(task, "status_code", JNull) == JInt(SuccessStatus)
      && Get(task, "result", JArr([])) == JArr([JObj(row)])
      && Get(row, "items", JArr([])) == JArr(items)
  {
    var row := [("items", JArr(items))];
    var task := [("status_code", JInt(SuccessStatus)), ("result", JArr([JObj(row)]))];
    LookupFirst(PayloadJson(items).fields, "tasks", 0);
    LookupFirst(task, "status_code", 0);
    LookupFirst(task, "result", 1);
    LookupFirst(row, "items", 0);
  }

  /** A payload whose first task succeeded and whose first result row holds `items` parses those items. */
  lemma ParseOfItems(data: Json, task: seq<(string, Json)>, row: seq<(string, Json)>, items: seq<Json>,
                     query: string, now: string)
    requires data.JObj?
    requires var tasks := Get(data.fields, "tasks", JArr([])); tasks.JArr? && tasks.elems != [] && tasks.elems[0] == JObj(task)
    requires EqualsInt(Get(task, "status_code", JNull), SuccessStatus)
    requires var rows := Get(task, "result", JArr([])); rows.JArr? && rows.elems != [] && rows.elems[0] == JObj(row)
    requires NestedItems(row) == Some(items) && ItemsOk(items)
    ensures ParseResponseSpec(data, query, now) == Parsed(ItemsResponse(query, items, now))
  {
  }

  // ---- search ----

  const NotConfiguredError := "DataForSEO credentials not configured"
  const AuthFailedError := "DataForSEO authentication failed"
  const TimeoutError := "DataForSEO request timeout"
  const ErrorPrefix := "DataForSEO error: "

  /**
   * What the HTTP exchange produced: a response with a status code and a
   * body that decodes as JSON or not, a timeout, or another transport error.
   */
  datatype Reply = Responded(status: int, body: Option<Json>) | TimedOut | TransportFailed

  /** A failed search carrying `error`. */
  function Failed(query: string, error: string, now: string): SerpResponse
  {
    FailureResponse(query, JStr(error), now)
  }

  /**
   * `search`: `request` is the task posted (None when nothing is posted), and
   * `exceptionText` stands for `str(e)` of whatever exception the exchange or
   * the parse raised.
   */
  method Search(client: Client, query: string, numResults: int, language: string, country: string,
                reply: Reply, exceptionText: string, now: string)
    returns (response: SerpResponse, request: Option<SerpRequest>)
    ensures !client.IsConfigured() ==> request == None && response == Failed(query, NotConfiguredError, now)
    ensures client.IsConfigured() ==>
      request == Some(SerpRequest(query, LocationCode(country), LanguageCode(language), Depth(numResults)))
    ensures client.IsConfigured() && reply.TimedOut? ==> response == Failed(query, TimeoutError, now)
    ensures client.IsConfigured() && reply.TransportFailed? ==>
      response == Failed(query, ErrorPrefix + exceptionText, now)
    ensures client.IsConfigured() && reply.Responded? && reply.status in {401, 403} ==>
      response == Failed(query, AuthFailedError, now)
    ensures client.IsConfigured() && reply.Responded? && !(reply.status in {401, 403})
            && !(200 <= reply.status < 300) ==>
      response == Failed(query, ErrorPrefix + exceptionText, now)
    ensures client.IsConfigured() && reply.Responded? && 200 <= reply.status < 300 ==>
      if reply.body.None? || ParseResponseSpec(reply.body.value, query, now).Raised?
      then response == Failed(query, ErrorPrefix + exceptionText, now)
      else response == ParseResponseSpec(reply.body.value, query, now).response
  {
    if !client.IsConfigured() {
      return Failed(query, NotConfiguredError, now), None;
    }
    request := Some(SerpRequest(query, LocationCode(country), LanguageCode(language), Depth(numResults)));
    match reply
    case TimedOut =>
      response := Failed(query, TimeoutError, now);
    case TransportFailed =>
      response := Failed(query, ErrorPrefix + exceptionText, now);
    case Responded(status, body) =>
      if status == 401 || status == 403 {
        response := Failed(query, AuthFailedError, now);
      } else if !(200 <= status < 300) || body.None? {
        response := Failed(query, ErrorPrefix + exceptionText, now);
      } else {
        var outcome := ParseResponse(body.value, query, now);
        if outcome.Raised? {
          response := Failed(query, ErrorPrefix + exceptionText, now);
        } else {
          response := outcome.response;
        }
      }
  }

  /** A delivered reply whose payload parses to a success carries no error. */
  lemma SearchSuccess(client: Client, reply: Reply, query: string, now: string)
    requires client.IsConfigured() && reply.Responded? && 200 <= reply.status < 300 && reply.body.Some?
    requires ParseResponseSpec(reply.body.value, query, now).Parsed?
    requires ParseResponseSpec(reply.body.value, query, now).response.success
    ensures ParseResponseSpec(reply.body.value, query, now).response.error == JNull
  {
    ParsedShape(reply.body.value, query, now);
  }
}
