/**
 * The keyword-metrics calls of `DataForSEOClient`: `get_keyword_data`
 * (search volume, CPC, competition) and `get_keyword_difficulty`. Both post
 * at most 1000 keywords and fold the tasks of the reply into a dict keyed by
 * lower-cased keyword; any exception along the way yields an empty dict.
 */
module KeywordData {
  import opened Wrappers
  import opened PyJson
  import opened Text
  import opened DataForSeo
  import opened SerpParse

  /** The most keywords one request carries. */
  const MaxKeywords: nat := 1000

  /** The difficulty used when no better estimate is available. */
  const DefaultDifficulty: int := 50

  /** The record `get_keyword_data` stores per keyword. */
  datatype KeywordMetrics = KeywordMetrics(
    volume: Json,            // item["search_volume"], or 0 when missing or falsy
    cpc: Json,               // item["cpc"], or 0 when missing or falsy
    competition: real,       // a number, else 0.0
    competitionLevel: Json,  // item["competition_level"], default ""
    difficulty: int)         // estimated from the competition level

  /** What one result item does to the dict: the code raises, skips the item, or writes one entry. */
  datatype Effect<V> = Raises | Skips | Writes(key: string, value: V)

  // ---- one item ----

  /** `difficulty_map.get(str(level).upper(), 50)` with the table LOW 25, MEDIUM 50, HIGH 75. */
  function LevelDifficulty(level: Json): (d: int)
    ensures d == 25 <==> level.JStr? && Upper(level.s) == "LOW"
    ensures d == 75 <==> level.JStr? && Upper(level.s) == "HIGH"
    ensures d == 50 <==> !(level.JStr? && Upper(level.s) in {"LOW", "HIGH"})
  {
    // `str()` of a value that is not a string never upper-cases to a table key.
    if !level.JStr? then DefaultDifficulty
    else
      var u := Upper(level.s);
      if u == "LOW" then 25 else if u == "MEDIUM" then 50 else if u == "HIGH" then 75 else DefaultDifficulty
  }

  /** The level table ignores case. */
  lemma LevelDifficultyIgnoresCase(s: string)
    ensures LevelDifficulty(JStr(Lower(s))) == LevelDifficulty(JStr(s))
  {
    UpperIgnoresCase(s);
  }

  /** `x or 0`. */
  function OrZero(j: Json): (r: Json)
    ensures Truthy(j) ==> r == j
    ensures !Truthy(j) ==> r == JInt(0)
  {
    if Truthy(j) then j else JInt(0)
  }

  /** The metrics of one result item. */
  function MetricsOf(fields: seq<(string, Json)>): KeywordMetrics
  {
    var competition := Get(fields, "competition", JNull);
    var level := Get(fields, "competition_level", JStr(""));
    KeywordMetrics(
      OrZero(Get(fields, "search_volume", JInt(0))),
      OrZero(Get(fields, "cpc", JInt(0))),
      if IsNumber(competition) then NumberValue(competition) else 0.0,
      level,
      LevelDifficulty(level))
  }

  /**
   * The key of one result item: `item.get("keyword", "").lower()`, None when
   * that raises (the item is not a dict, or its keyword is not a string).
   */
  function ItemKey(item: Json): Option<string>
  {
    if !item.JObj? then None
    else
      var kw := Get(item.fields, "keyword", JStr(""));
      if kw.JStr? then Some(Lower(kw.s)) else None
  }

  /** One item of `get_keyword_data`'s result list. */
  function MetricsEffect(item: Json): (e: Effect<KeywordMetrics>)
    ensures e.Writes? ==> e.key != [] && IsLower(e.key)
  {
    var key := ItemKey(item);
    if key.None? then Raises
    else if key.value == [] then Skips
    else
      LowerProperties(Get(item.fields, "keyword", JStr("")).s);
      Writes(key.value, MetricsOf(item.fields))
  }

  /** `int(difficulty) if difficulty else 50`; None when `int()` raises. */
  function DifficultyValue(j: Json): (d: Option<int>)
    ensures !Truthy(j) ==> d == Some(DefaultDifficulty)
    ensures j.JInt? && j.i != 0 ==> d == Some(j.i)
    ensures j.JFloat? && j.r != 0.0 ==> d == Some(Truncate(j.r))
    ensures j.JArr? || j.JObj? ==> (d.None? <==> Truthy(j))
  {
    if !Truthy(j) then Some(DefaultDifficulty) else ToInt(j)
  }

  /** One item of `get_keyword_difficulty`'s result list. */
  function DifficultyEffect(item: Json): (e: Effect<int>)
    ensures e.Writes? ==> e.key != [] && IsLower(e.key)
  {
    var key := ItemKey(item);
    if key.None? then Raises
    else
      var d := DifficultyValue(Get(item.fields, "keyword_difficulty", JInt(DefaultDifficulty)));
      if key.value == [] then Skips
      else if d.None? then Raises
      else
        LowerProperties(Get(item.fields, "keyword", JStr("")).s);
        Writes(key.value, d.value)
  }

  // ---- the writes of a whole reply ----

  /** Appends the write of `e` to `ws`; None once anything raised. */
  function AddEffect<V>(ws: Option<seq<(string, V)>>, e: Effect<V>): Option<seq<(string, V)>>
  {
    if ws.None? || e.Raises? then None
    else if e.Skips? then ws
    else Some(ws.value + [(e.key, e.value)])
  }

  /** The writes of a task's result items, in order; None when one of them raises. */
  function ItemWrites<V>(items: seq<Json>, effect: Json -> Effect<V>): Option<seq<(string, V)>>
  {
    if items == [] then Some([])
    else AddEffect(ItemWrites(items[..|items| - 1], effect), effect(items[|items| - 1]))
  }

  /** Whether a task contributes: its status is 20000 and its result is non-empty. */
  predicate TaskContributes(task: seq<(string, Json)>)
  {
    EqualsInt(Get(task, "status_code", JNull), SuccessStatus) && Truthy(Get(task, "result", JNull))
  }

  /** The writes of one task; None when the code raises on it. */
  function TaskWrites<V>(task: Json, effect: Json -> Effect<V>): Option<seq<(string, V)>>
  {
    if !task.JObj? then None
    else if !TaskContributes(task.fields) then Some([])
    else
      var items := Iterate(Get(task.fields, "result", JNull));
      if items.None? then None else ItemWrites(items.value, effect)
  }

  function TasksWrites<V>(tasks: seq<Json>, effect: Json -> Effect<V>): Option<seq<(string, V)>>
  {
    if tasks == [] then Some([])
    else
      var earlier, last := TasksWrites(tasks[..|tasks| - 1], effect), TaskWrites(tasks[|tasks| - 1], effect);
      if earlier.None? || last.None? then None else Some(earlier.value + last.value)
  }

  /** The writes of a whole reply; None when the code raises. */
  function ReplyWrites<V>(data: Json, effect: Json -> Effect<V>): Option<seq<(string, V)>>
  {
    if !data.JObj? then None
    else
      var tasks := Get(data.fields, "tasks", JNull);
      if !Truthy(tasks) then Some([])
      else
        var ts := Iterate(tasks);
        if ts.None? then None else TasksWrites(ts.value, effect)
  }

  /** The dict the writes leave behind: a later write to a key overwrites an earlier one. */
  function ToMap<V>(ws: seq<(string, V)>): map<string, V>
  {
    if ws == [] then map[]
    else ToMap(ws[..|ws| - 1])[ws[|ws| - 1].0 := ws[|ws| - 1].1]
  }

  /** `result_map` at the end of the parse, or `{}` when the code raised. */
  function ParseSpec<V>(data: Json, effect: Json -> Effect<V>): map<string, V>
  {
    var ws := ReplyWrites(data, effect);
    if ws.None? then map[] else ToMap(ws.value)
  }

  // ---- the parse loops ----

  /** The inner loop over one task's result items. */
  method ParseItems<V>(items: seq<Json>, effect: Json -> Effect<V>, m0: map<string, V>)
    returns (ok: bool, m: map<string, V>)
    ensures ok <==> ItemWrites(items, effect).Some?
    ensures ok ==> m == Replay(m0, ItemWrites(items, effect).value)
  {
    m := m0;
    var i := 0;
    while i < |items|
      invariant 0 <= i <= |items|
      invariant ItemWrites(items[..i], effect).Some?
      invariant m == Replay(m0, ItemWrites(items[..i], effect).value)
    {
      assert items[..i + 1][..i] == items[..i];
      var ws := ItemWrites(items[..i], effect).value;
      var e := effect(items[i]);
      if e.Raises? {
        ItemWritesNoneExtends(items, i + 1, effect);
        return false, m;
      } else if e.Writes? {
        ReplaySnoc(m0, ws, (e.key, e.value));
        m := m[e.key := e.value];
      }
      i := i + 1;
    }
    assert items[..i] == items;
    ok := true;
  }

  /** The outer loop over the tasks of a reply. */
  method ParseReply<V>(data: Json, effect: Json -> Effect<V>) returns (m: map<string, V>)
    ensures m == ParseSpec(data, effect)
  {
    if !data.JObj? {
      return map[];
    }
    var tasks := Get(data.fields, "tasks", JNull);
    if !Truthy(tasks) {
      return map[];
    }
    var tasksOrNone := Iterate(tasks);
    if tasksOrNone.None? {
      return map[];
    }
    var ts := tasksOrNone.value;
    m := map[];
    var i := 0;
    while i < |ts|
      invariant 0 <= i <= |ts|
      invariant TasksWrites(ts[..i], effect).Some?
      invariant m == Replay(map[], TasksWrites(ts[..i], effect).value)
    {
      assert ts[..i + 1][..i] == ts[..i];
      var earlier := TasksWrites(ts[..i], effect).value;
      var task := ts[i];
      if !task.JObj? {
        TasksWritesNoneExtends(ts, i + 1, effect);
        return map[];
      }
      if TaskContributes(task.fields) {
        var items := Iterate(Get(task.fields, "result", JNull));
        if items.None? {
          TasksWritesNoneExtends(ts, i + 1, effect);
          return map[];
        }
        var ok, m' := ParseItems(items.value, effect, m);
        if !ok {
          TasksWritesNoneExtends(ts, i + 1, effect);
          return map[];
        }
        ReplayConcat(map[], earlier, ItemWrites(items.value, effect).value);
        m := m';
      } else {
        assert earlier + [] == earlier;
      }
      i := i + 1;
    }
    assert ts[..i] == ts;
    ReplayIsToMap(TasksWrites(ts, effect).value);
  }

  // ---- replaying writes ----

  /** `m` after the writes `ws`, in order. */
  function Replay<V>(m: map<string, V>, ws: seq<(string, V)>): map<string, V>
  {
    if ws == [] then m else Replay(m, ws[..|ws| - 1])[ws[|ws| - 1].0 := ws[|ws| - 1].1]
  }

  lemma ReplaySnoc<V>(m: map<string, V>, ws: seq<(string, V)>, w: (string, V))
    ensures Replay(m, ws + [w]) == Replay(m, ws)[w.0 := w.1]
  {
    assert (ws + [w])[..|ws|] == ws;
  }

  lemma {:induction false} ReplayConcat<V>(m: map<string, V>, a: seq<(string, V)>, b: seq<(string, V)>)
    ensures Replay(m, a + b) == Replay(Replay(m, a), b)
    decreases |b|
  {
    if b == [] {
      assert a + b == a;
    } else {
      var b' := b[..|b| - 1];
      assert (a + b)[..|a + b| - 1] == a + b';
      assert (a + b)[|a + b| - 1] == b[|b| - 1];
      ReplayConcat(m, a, b');
    }
  }

  lemma {:induction false} ReplayIsToMap<V>(ws: seq<(string, V)>)
    ensures Replay(map[], ws) == ToMap(ws)
  {
    if ws != [] {
      ReplayIsToMap(ws[..|ws| - 1]);
    }
  }

  /** Once an item raises, so does every longer prefix of the list. */
  lemma ItemWritesNoneExtends<V>(items: seq<Json>, n: int, effect: Json -> Effect<V>)
    requires 0 < n <= |items| && effect(items[n - 1]).Raises?
    ensures ItemWrites(items[..n], effect).None?
    ensures ItemWrites(items, effect).None?
  {
    assert items[..n][..n - 1] == items[..n - 1];
    ItemWritesNonePersists(items, n, effect);
  }

  lemma {:induction false} ItemWritesNonePersists<V>(items: seq<Json>, n: int, effect: Json -> Effect<V>)
    requires 0 <= n <= |items| && ItemWrites(items[..n], effect).None?
    ensures ItemWrites(items, effect).None?
    decreases |items| - n
  {
    if n < |items| {
      assert items[..n + 1][..n] == items[..n];
      ItemWritesNonePersists(items, n + 1, effect);
    } else {
      assert items[..n] == items;
    }
  }

  /** Once a task raises, the whole reply does. */
  lemma TasksWritesNoneExtends<V>(tasks: seq<Json>, n: int, effect: Json -> Effect<V>)
    requires 0 < n <= |tasks| && TaskWrites(tasks[n - 1], effect).None?
    ensures TasksWrites(tasks, effect).None?
  {
    assert tasks[..n][..n - 1] == tasks[..n - 1];
    TasksWritesNonePersists(tasks, n, effect);
  }

  lemma {:induction false} TasksWritesNonePersists<V>(tasks: seq<Json>, n: int, effect: Json -> Effect<V>)
    requires 0 <= n <= |tasks| && TasksWrites(tasks[..n], effect).None?
    ensures TasksWrites(tasks, effect).None?
    decreases |tasks| - n
  {
    if n < |tasks| {
      assert tasks[..n + 1][..n] == tasks[..n];
      TasksWritesNonePersists(tasks, n + 1, effect);
    } else {
      assert tasks[..n] == tasks;
    }
  }

  // ---- properties of the parse ----

  /** A key is in the dict exactly when some write used it. */
  lemma {:induction false} ToMapKeys<V>(ws: seq<(string, V)>)
    ensures forall k :: k in ToMap(ws) <==> exists i :: 0 <= i < |ws| && ws[i].0 == k
  {
    if ws != [] {
      var init := ws[..|ws| - 1];
      ToMapKeys(init);
      assert forall i :: 0 <= i < |init| ==> init[i] == ws[i];
    }
  }

  /** The last write to a key decides its value. */
  lemma {:induction false} ToMapLastWriteWins<V>(ws: seq<(string, V)>, i: int)
    requires 0 <= i < |ws|
    requires forall j :: i < j < |ws| ==> ws[j].0 != ws[i].0
    ensures ws[i].0 in ToMap(ws) && ToMap(ws)[ws[i].0] == ws[i].1
  {
    if i < |ws| - 1 {
      var init := ws[..|ws| - 1];
      assert forall j :: i < j < |init| ==> init[j] == ws[j];
      ToMapLastWriteWins(init, i);
    }
  }

  /** Every write satisfies what every single item's write satisfies: a non-empty lower-case key. */
  predicate LowerKeys<V>(ws: seq<(string, V)>)
  {
    forall i :: 0 <= i < |ws| ==> ws[i].0 != [] && IsLower(ws[i].0)
  }

  ghost predicate WritesLowerKeys<V>(effect: Json -> Effect<V>)
  {
    forall x :: effect(x).Writes? ==> effect(x).key != [] && IsLower(effect(x).key)
  }

  lemma {:induction false} ItemWritesLower<V>(items: seq<Json>, effect: Json -> Effect<V>)
    requires WritesLowerKeys(effect)
    ensures ItemWrites(items, effect).Some? ==> LowerKeys(ItemWrites(items, effect).value)
  {
    if items != [] {
      ItemWritesLower(items[..|items| - 1], effect);
    }
  }

  lemma {:induction false} TasksWritesLower<V>(tasks: seq<Json>, effect: Json -> Effect<V>)
    requires WritesLowerKeys(effect)
    ensures TasksWrites(tasks, effect).Some? ==> LowerKeys(TasksWrites(tasks, effect).value)
  {
    if tasks != [] {
      TasksWritesLower(tasks[..|tasks| - 1], effect);
      var task := tasks[|tasks| - 1];
      if task.JObj? && TaskContributes(task.fields) {
        var items := Iterate(Get(task.fields, "result", JNull));
        if items.Some? {
          ItemWritesLower(items.value, effect);
        }
      }
    }
  }

  /** The dict is keyed by non-empty lower-case keywords. */
  lemma ParsedKeysAreLower<V>(data: Json, effect: Json -> Effect<V>)
    requires WritesLowerKeys(effect)
    ensures forall k :: k in ParseSpec(data, effect) ==> k != [] && IsLower(k)
  {
    var ws := ReplyWrites(data, effect);
    if ws.Some? {
      if data.JObj? && Truthy(Get(data.fields, "tasks", JNull)) {
        var ts := Iterate(Get(data.fields, "tasks", JNull));
        TasksWritesLower(ts.value, effect);
      }
      ToMapKeys(ws.value);
    }
  }

  lemma MetricsKeysAreLower(data: Json)
    ensures forall k :: k in ParseSpec(data, MetricsEffect) ==> k != [] && IsLower(k)
  {
    ParsedKeysAreLower(data, MetricsEffect);
  }

  lemma DifficultyKeysAreLower(data: Json)
    ensures forall k :: k in ParseSpec(data, DifficultyEffect) ==> k != [] && IsLower(k)
  {
    ParsedKeysAreLower(data, DifficultyEffect);
  }

  /** Tasks that do not report success with a non-empty result add nothing. */
  lemma {:induction false} OnlySuccessfulTasksContribute<V>(tasks: seq<Json>, effect: Json -> Effect<V>)
    requires forall k :: 0 <= k < |tasks| ==> tasks[k].JObj? && !TaskContributes(tasks[k].fields)
    ensures TasksWrites(tasks, effect) == Some([])
  {
    if tasks != [] {
      var init := tasks[..|tasks| - 1];
      assert forall k :: 0 <= k < |init| ==> init[k] == tasks[k];
      OnlySuccessfulTasksContribute(init, effect);
      assert TaskWrites(tasks[|tasks| - 1], effect) == Some([]);
      var none: seq<(string, V)> := [];
      assert none + none == none;
    }
  }

  /** Each item writes at most once, so a task holds at most as many writes as it has items. */
  lemma {:induction false} AtMostOneWritePerItem<V>(items: seq<Json>, effect: Json -> Effect<V>)
    ensures ItemWrites(items, effect).Some? ==> |ItemWrites(items, effect).value| <= |items|
  {
    if items != [] {
      AtMostOneWritePerItem(items[..|items| - 1], effect);
    }
  }

  // ---- the two calls ----

  /** `keywords[:1000]`. */
  function Truncated(keywords: seq<string>): (r: seq<string>)
    ensures |r| == if |keywords| <= MaxKeywords then |keywords| else MaxKeywords
    ensures r == keywords[..|r|]
  {
    if |keywords| <= MaxKeywords then keywords else keywords[..MaxKeywords]
  }

  /** The one task `get_keyword_data` posts. */
  datatype VolumeRequest = VolumeRequest(keywords: seq<string>, locationCode: int, languageCode: string)

  /** One of the tasks `get_keyword_difficulty` posts, one per keyword. */
  datatype DifficultyTask = DifficultyTask(keyword: string, locationCode: int, languageCode: string)

  /** The server answered 2xx (not 401 or 403) with a JSON body. */
  predicate Delivered(reply: Reply)
  {
    reply.Responded? && 200 <= reply.status < 300 && reply.body.Some?
  }

  /**
   * `get_keyword_data`: the language code is passed through as given, unlike
   * `search`, which maps it through the language table.
   */
  method GetKeywordData(client: Client, keywords: seq<string>, language: string, country: string, reply: Reply)
    returns (result: map<string, KeywordMetrics>, request: Option<VolumeRequest>)
    ensures !client.IsConfigured() || keywords == [] ==> request == None && result == map[]
    ensures client.IsConfigured() && keywords != [] ==>
      request == Some(VolumeRequest(Truncated(keywords), LocationCode(country), language))
      && result == (if Delivered(reply) then ParseSpec(reply.body.value, MetricsEffect) else map[])
  {
    if !client.IsConfigured() || keywords == [] {
      return map[], None;
    }
    request := Some(VolumeRequest(Truncated(keywords), LocationCode(country), language));
    if Delivered(reply) {
      result := ParseReply(reply.body.value, MetricsEffect);
    } else {
      result := map[];
    }
  }

  /** `get_keyword_difficulty`: one task per keyword of the truncated list. */
  method GetKeywordDifficulty(client: Client, keywords: seq<string>, language: string, country: string, reply: Reply)
    returns (result: map<string, int>, request: Option<seq<DifficultyTask>>)
    ensures !client.IsConfigured() || keywords == [] ==> request == None && result == map[]
    ensures client.IsConfigured() && keywords != [] ==>
      && request.Some? && |request.value| == |Truncated(keywords)|
      && (forall k :: 0 <= k < |request.value| ==>
            request.value[k] == DifficultyTask(keywords[k], LocationCode(country), language))
      && result == (if Delivered(reply) then ParseSpec(reply.body.value, DifficultyEffect) else map[])
  {
    if !client.IsConfigured() || keywords == [] {
      return map[], None;
    }
    var kws := Truncated(keywords);
    var location := LocationCode(country);
    request := Some(seq(|kws|, k requires 0 <= k < |kws| => DifficultyTask(kws[k], location, language)));
    if Delivered(reply) {
      result := ParseReply(reply.body.value, DifficultyEffect);
    } else {
      result := map[];
    }
  }
}
