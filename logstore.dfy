/**
 * The relay server's in-memory log store: the buffers the browser
 * extension fills through `/extension-log`, the settings it sends along,
 * the current page URL and tab, the selected element, and the read-side
 * queries (`/console-logs` and friends, `/all-xhr`,
 * `/network-request-details`, `/current-url`, `/selected-element`).
 *
 * Request bodies are parsed JSON values; replies are a status code with a
 * JSON body. The serialised size of a log entry (`JSON.stringify(log).length`)
 * is supplied by the caller as a function.
 */
module LogStore {
  import opened Wrappers
  import Text
  import Ordered
  import opened Json

  /** An HTTP reply: status code and JSON body (a text body is a JSON string). */
  datatype Reply = Reply(status: int, body: Json)

  /** Cap of the detailed network log cache. */
  const MAX_CACHE_SIZE: nat := 50

  /** The header-less fields of `/network-request-details` a caller may ask for. */
  const VALID_DETAILS: seq<string> :=
    ["url", "method", "status", "requestHeaders", "responseHeaders", "requestBody", "responseBody"]

  /** An object built from entries whose `undefined` values are omitted, as
      `res.json` serialises them. */
  function Obj(entries: seq<(string, Option<Json>)>): (r: Json)
    ensures r.JObj? && |r.fields| <= |entries|
    ensures forall k, v :: (k, v) in r.fields <==> (k, Some(v)) in entries
  {
    if entries == [] then JObj([])
    else
      var rest := Obj(entries[1..]).fields;
      match entries[0].1
      case Some(v) => JObj([(entries[0].0, v)] + rest)
      case None => JObj(rest)
  }

  /** `a !== b` for two property reads. Objects and arrays parsed from
      different requests are different references. */
  predicate StrictlyDifferent(a: Option<Json>, b: Option<Json>) {
    match (a, b)
    case (Some(JArr(_)), Some(_)) => true
    case (Some(JObj(_)), Some(_)) => true
    case _ => a != b
  }

  // -------------------------------------------------- bounded buffers

  /** `buf.push(x); if (buf.length > limit) buf.shift();` with the limit as
      a coerced number (None when it is NaN, so nothing is ever dropped). */
  function PushShift(buf: seq<Json>, x: Json, limit: Option<int>): (r: seq<Json>)
  {
    var b := buf + [x];
    if limit.Some? && |b| > limit.value then b[1..] else b
  }

  /** A push removes at most the oldest entry, ends with the new entry
      unless the limit is below one, and keeps a buffer within its limit if
      it was within it before. */
  lemma PushShiftSpec(buf: seq<Json>, x: Json, limit: Option<int>)
    ensures var r := PushShift(buf, x, limit);
      && (r == buf + [x] || r == (buf + [x])[1..])
      && (r != [] ==> r[|r| - 1] == x)
      && (limit.Some? && |buf| <= limit.value ==> |r| <= limit.value)
      && (limit.None? ==> r == buf + [x])
      && (limit.Some? && |buf| + 1 <= limit.value ==> r == buf + [x])
  {
  }

  /** Settings as the server starts with them. */
  function InitialSettings(screenshotPath: string, serverHost: string): seq<(string, Json)> {
    [("logLimit", JNum(50)), ("queryLimit", JNum(30000)),
     ("showRequestHeaders", JBool(false)), ("showResponseHeaders", JBool(false)),
     ("model", JStr("claude-3-sonnet")), ("stringSizeLimit", JNum(500)),
     ("maxLogSize", JNum(20000)), ("screenshotPath", JStr(screenshotPath)),
     ("serverHost", JStr(serverHost))]
  }

  /** A numeric setting after coercion; None when absent or NaN. */
  function NumSetting(settings: seq<(string, Json)>, key: string): Option<int> {
    ToNumber(Ordered.Get(settings, key))
  }

  /** The settings after a request body: a truthy `settings` value is spread
      over the current settings, anything else leaves them alone. */
  function MergedSettings(current: seq<(string, Json)>, body: Json): seq<(string, Json)> {
    var patch := Field(body, "settings");
    if Present(patch) then Merge(current, Spread(patch.value)) else current
  }

  predicate HasType(x: Json, t: string) {
    Field(x, "type") == Some(JStr(t))
  }

  /** Whether a network entry goes to `networkErrors` (`status >= 400`). */
  predicate IsErrorStatus(x: Json) {
    AtLeast(Field(x, "status"), 400)
  }

  // ------------------------------------------------ header filtering

  /** `processLogsWithSettings` for one entry: a shallow copy, without the
      request or response headers of a network entry unless the settings
      ask for them. */
  function ProcessLog(log: Json, settings: seq<(string, Json)>): (r: Json)
    ensures r.JObj?
  {
    var copy := Spread(log);
    if HasType(log, "network-request") then
      var a := if Present(Ordered.Get(settings, "showRequestHeaders")) then copy else Ordered.Remove(copy, "requestHeaders");
      var b := if Present(Ordered.Get(settings, "showResponseHeaders")) then a else Ordered.Remove(a, "responseHeaders");
      JObj(b)
    else JObj(copy)
  }

  function ProcessLogs(logs: seq<Json>, settings: seq<(string, Json)>): (r: seq<Json>)
    ensures |r| == |logs|
    ensures forall i :: 0 <= i < |logs| ==> r[i] == ProcessLog(logs[i], settings)
  {
    seq(|logs|, i requires 0 <= i < |logs| => ProcessLog(logs[i], settings))
  }

  /** A processed network entry carries its headers exactly where the
      settings allow them: a header field the settings hide is gone, and one
      they show keeps the entry's own value. */
  lemma ProcessLogHeaders(log: Json, settings: seq<(string, Json)>)
    requires log.JObj? && HasType(log, "network-request")
    ensures !Present(Ordered.Get(settings, "showRequestHeaders")) ==>
      !Ordered.HasKey(ProcessLog(log, settings).fields, "requestHeaders")
    ensures !Present(Ordered.Get(settings, "showResponseHeaders")) ==>
      !Ordered.HasKey(ProcessLog(log, settings).fields, "responseHeaders")
    ensures Present(Ordered.Get(settings, "showRequestHeaders")) ==>
      Ordered.Get(ProcessLog(log, settings).fields, "requestHeaders") == Ordered.Get(log.fields, "requestHeaders")
    ensures Present(Ordered.Get(settings, "showResponseHeaders")) ==>
      Ordered.Get(ProcessLog(log, settings).fields, "responseHeaders") == Ordered.Get(log.fields, "responseHeaders")
  {
    var copy := log.fields;
    Ordered.RemoveGet(copy, "requestHeaders");
    var a := if Present(Ordered.Get(settings, "showRequestHeaders")) then copy else Ordered.Remove(copy, "requestHeaders");
    Ordered.RemoveGet(a, "responseHeaders");
    var b := if Present(Ordered.Get(settings, "showResponseHeaders")) then a else Ordered.Remove(a, "responseHeaders");
    assert ProcessLog(log, settings) == JObj(b);
    assert Ordered.Get(b, "requestHeaders") == Ordered.Get(a, "requestHeaders");
  }

  /** Processing keeps every other field of an object entry with its value,
      and leaves entries of other types exactly as they were. */
  lemma ProcessLogKeeps(log: Json, settings: seq<(string, Json)>, k: string)
    requires log.JObj?
    requires k != "requestHeaders" && k != "responseHeaders"
    ensures Ordered.Get(ProcessLog(log, settings).fields, k) == Ordered.Get(log.fields, k)
    ensures !HasType(log, "network-request") ==> ProcessLog(log, settings) == log
  {
    var copy := log.fields;
    Ordered.RemoveGet(copy, "requestHeaders");
    var a := if Present(Ordered.Get(settings, "showRequestHeaders")) then copy else Ordered.Remove(copy, "requestHeaders");
    Ordered.RemoveGet(a, "responseHeaders");
  }

  // ------------------------------------------------ size-limited query

  /** Sum of the sizes of the entries. */
  function TotalSize(logs: seq<Json>, size: Json -> nat): nat {
    if logs == [] then 0 else TotalSize(logs[..|logs| - 1], size) + size(logs[|logs| - 1])
  }

  // ------------------------------------------------ timestamp ordering

  /** The sort key `new Date(entry.timestamp).getTime()` for a numeric
      timestamp; any other timestamp sorts as 0. */
  function TimestampKey(x: Json): int {
    match Field(x, "timestamp")
    case Some(JNum(n)) => n
    case _ => 0
  }

  predicate SortedByTimestamp(s: seq<Json>) {
    forall i, j :: 0 <= i < j < |s| ==> TimestampKey(s[i]) <= TimestampKey(s[j])
  }

  /** Neighbours in order, which is enough for the whole list to be. */
  predicate NeighboursInOrder(s: seq<Json>) {
    forall i :: 0 < i < |s| ==> TimestampKey(s[i - 1]) <= TimestampKey(s[i])
  }

  lemma {:induction false} NeighboursSorted(s: seq<Json>)
    requires NeighboursInOrder(s)
    ensures SortedByTimestamp(s)
    decreases |s|
  {
    if |s| > 1 {
      NeighboursSorted(s[1..]);
      forall j | 1 <= j < |s| ensures TimestampKey(s[0]) <= TimestampKey(s[j]) {
        assert s[j] == s[1..][j - 1];
        if j > 1 {
          assert TimestampKey(s[1]) <= TimestampKey(s[1..][j - 1]);
        }
      }
      forall i, j | 0 <= i < j < |s| ensures TimestampKey(s[i]) <= TimestampKey(s[j]) {
        if i > 0 {
          assert s[i] == s[1..][i - 1] && s[j] == s[1..][j - 1];
        }
      }
    }
  }

  /** Inserts `x` after every entry whose key is not larger (stable). */
  function Insert(x: Json, s: seq<Json>): (r: seq<Json>)
    ensures |r| == |s| + 1
    ensures r[0] == x || (s != [] && r[0] == s[0])
  {
    if s == [] then [x]
    else if TimestampKey(x) < TimestampKey(s[0]) then [x] + s
    else [s[0]] + Insert(x, s[1..])
  }

  /** Insertion adds exactly the one entry. */
  lemma {:induction false} InsertPermutes(x: Json, s: seq<Json>)
    ensures multiset(Insert(x, s)) == multiset(s) + multiset{x}
    decreases |s|
  {
    if s != [] && TimestampKey(x) >= TimestampKey(s[0]) {
      InsertPermutes(x, s[1..]);
      assert s == [s[0]] + s[1..];
    }
  }

  /** `.sort((a, b) => ts(a) - ts(b))`: a stable sort by timestamp. */
  function SortByTimestamp(s: seq<Json>): (r: seq<Json>)
    ensures multiset(r) == multiset(s)
    ensures |r| == |s|
  {
    if s == [] then []
    else
      assert s == s[..|s| - 1] + [s[|s| - 1]];
      InsertPermutes(s[|s| - 1], SortByTimestamp(s[..|s| - 1]));
      Insert(s[|s| - 1], SortByTimestamp(s[..|s| - 1]))
  }

  lemma {:induction false} InsertInOrder(x: Json, s: seq<Json>)
    requires NeighboursInOrder(s)
    ensures NeighboursInOrder(Insert(x, s))
    decreases |s|
  {
    if s != [] && TimestampKey(x) >= TimestampKey(s[0]) {
      InsertInOrder(x, s[1..]);
      var t := Insert(x, s[1..]);
      var r := Insert(x, s);
      assert r == [s[0]] + t;
      assert TimestampKey(s[0]) <= TimestampKey(t[0]) by {
        if |s| > 1 {
          assert TimestampKey(s[0]) <= TimestampKey(s[1]);
        }
      }
      forall i | 0 < i < |r| ensures TimestampKey(r[i - 1]) <= TimestampKey(r[i]) {
        if i > 1 {
          assert r[i - 1] == t[i - 2] && r[i] == t[i - 1];
        }
      }
    }
  }

  /** The merged network log comes back ordered by timestamp and holding
      exactly the same entries. */
  lemma SortByTimestampSorted(s: seq<Json>)
    ensures SortedByTimestamp(SortByTimestamp(s))
    ensures multiset(SortByTimestamp(s)) == multiset(s)
  {
    SortByTimestampInOrder(s);
    NeighboursSorted(SortByTimestamp(s));
  }

  lemma {:induction false} SortByTimestampInOrder(s: seq<Json>)
    ensures NeighboursInOrder(SortByTimestamp(s))
    decreases |s|
  {
    if s != [] {
      SortByTimestampInOrder(s[..|s| - 1]);
      InsertInOrder(s[|s| - 1], SortByTimestamp(s[..|s| - 1]));
    }
  }

  // ------------------------------------------ /network-request-details

  /** `log.url.toLowerCase().includes(filter.toLowerCase())`; None when
      `url` is not a string, where the source throws. */
  function UrlMatches(log: Json, filter: string): Option<bool> {
    match Field(log, "url")
    case Some(JStr(u)) => Some(Text.Contains(Text.Lower(u), Text.Lower(filter)))
    case _ => None
  }

  predicate AllUrlsAreStrings(cache: seq<Json>) {
    forall i :: 0 <= i < |cache| ==> UrlMatches(cache[i], "").Some?
  }

  /** `a` is `b` with some entries left out, the rest in their order. */
  predicate Subsequence(a: seq<Json>, b: seq<Json>)
    decreases |b|
  {
    if a == [] then true
    else if b == [] then false
    else if a[0] == b[0] then Subsequence(a[1..], b[1..])
    else Subsequence(a, b[1..])
  }

  /** `cache.filter(log => log.url.toLowerCase().includes(...))`: the
      matching entries in cache order, a repeated entry as often as it
      occurs, and nothing else. */
  function FilterByUrl(cache: seq<Json>, filter: string): (r: seq<Json>)
    requires AllUrlsAreStrings(cache)
    ensures |r| <= |cache|
    ensures Subsequence(r, cache)
    ensures forall x :: multiset(r)[x] == if UrlMatches(x, filter) == Some(true) then multiset(cache)[x] else 0
    ensures forall x :: x in r <==> x in cache && UrlMatches(x, filter) == Some(true)
  {
    if cache == [] then []
    else
      UrlsOfTail(cache);
      var rest := FilterByUrl(cache[1..], filter);
      var keep := UrlMatches(cache[0], filter) == Some(true);
      FilterStep(cache, rest, filter, keep);
      if keep then [cache[0]] + rest else rest
  }

  /** One step of the filter: the head kept or dropped in front of the
      filtered tail. */
  lemma FilterStep(cache: seq<Json>, rest: seq<Json>, filter: string, keep: bool)
    requires cache != [] && keep == (UrlMatches(cache[0], filter) == Some(true))
    requires |rest| <= |cache| - 1 && Subsequence(rest, cache[1..])
    requires forall x :: multiset(rest)[x] == if UrlMatches(x, filter) == Some(true) then multiset(cache[1..])[x] else 0
    ensures var r := if keep then [cache[0]] + rest else rest;
      && |r| <= |cache| && Subsequence(r, cache)
      && (forall x :: multiset(r)[x] == if UrlMatches(x, filter) == Some(true) then multiset(cache)[x] else 0)
      && (forall x :: x in r <==> x in cache && UrlMatches(x, filter) == Some(true))
  {
    var r := if keep then [cache[0]] + rest else rest;
    assert cache == [cache[0]] + cache[1..];
    assert multiset(cache) == multiset{cache[0]} + multiset(cache[1..]);
    if keep {
      assert r[1..] == rest;
      assert multiset(r) == multiset{cache[0]} + multiset(rest);
    } else if rest != [] {
      assert rest[0] in multiset(rest);
      assert rest[0] != cache[0];
    }
    forall x ensures x in r <==> x in cache && UrlMatches(x, filter) == Some(true) {
      assert x in r <==> multiset(r)[x] > 0;
      assert x in cache <==> multiset(cache)[x] > 0;
    }
  }

  lemma UrlsOfTail(cache: seq<Json>)
    requires cache != [] && AllUrlsAreStrings(cache)
    ensures AllUrlsAreStrings(cache[1..]) && UrlMatches(cache[0], "").Some?
  {
    forall i | 0 <= i < |cache[1..]| ensures UrlMatches(cache[1..][i], "").Some? {
      assert cache[1..][i] == cache[i + 1];
    }
  }

  /** The requested details present on the entry, in request order, each
      key once (a repeated detail is assigned twice to the same key). */
  function Project(log: Json, details: seq<string>): (r: seq<(string, Json)>)
    decreases |details|
  {
    if details == [] then []
    else
      var d := details[|details| - 1];
      var init := Project(log, details[..|details| - 1]);
      match Field(log, d)
      case Some(v) => Ordered.Put(init, d, v)
      case None => init
  }

  /** A projected entry holds exactly the requested details the log has,
      with the log's values, and no key twice. */
  lemma {:induction false} ProjectSpec(log: Json, details: seq<string>)
    ensures Ordered.DistinctKeys(Project(log, details))
    ensures forall k :: Ordered.HasKey(Project(log, details), k) <==> k in details && Field(log, k).Some?
    ensures forall k :: Ordered.HasKey(Project(log, details), k) ==> Ordered.Get(Project(log, details), k) == Field(log, k)
    decreases |details|
  {
    if details != [] {
      var d := details[|details| - 1];
      var front := details[..|details| - 1];
      ProjectSpec(log, front);
      var init := Project(log, front);
      assert details == front + [d];
      match Field(log, d)
      case Some(v) =>
        Ordered.PutDistinct(init, d, v);
        Ordered.PutGet(init, d, v);
        Ordered.PutKeys(init, d, v);
      case None =>
    }
  }

  function ProjectAll(logs: seq<Json>, details: seq<string>): (r: seq<Json>)
    ensures |r| == |logs|
    ensures forall i :: 0 <= i < |logs| ==> r[i] == JObj(Project(logs[i], details))
  {
    seq(|logs|, i requires 0 <= i < |logs| => JObj(Project(logs[i], details)))
  }

  function InvalidDetails(details: seq<string>): (r: seq<string>)
    ensures forall d :: d in r <==> d in details && d !in VALID_DETAILS
  {
    if details == [] then []
    else
      var rest := InvalidDetails(details[1..]);
      assert forall d :: d in details <==> d == details[0] || d in details[1..];
      if details[0] in VALID_DETAILS then rest else [details[0]] + rest
  }

  /** `GET /network-request-details?urlFilter=..&details=..` over the cache. */
  function NetworkRequestDetails(cache: seq<Json>, urlFilter: Option<string>, details: Option<string>): Reply {
    if urlFilter.None? || urlFilter.value == "" || details.None? || details.value == "" then
      Reply(400, JStr("Missing urlFilter or details query parameters"))
    else
      var ds := Text.Split(details.value, ',');
      var invalid := InvalidDetails(ds);
      if invalid != [] then
        Reply(400, JStr("Invalid details requested: " + Text.Join(invalid, ", ")))
      else if !AllUrlsAreStrings(cache) then
        Reply(500, JStr("Internal server error"))
      else
        Reply(200, JArr(ProjectAll(FilterByUrl(cache, urlFilter.value), ds)))
  }

  /** The endpoint rejects a missing parameter or any unknown detail with
      400, fails with 500 when a cached url is not a string, and succeeds
      otherwise. */
  lemma NetworkRequestDetailsStatus(cache: seq<Json>, urlFilter: Option<string>, details: Option<string>)
    ensures var r := NetworkRequestDetails(cache, urlFilter, details);
      && (r.status == 400 <==>
            (urlFilter.None? || urlFilter.value == "" || details.None? || details.value == ""
             || exists d :: d in Text.Split(details.value, ',') && d !in VALID_DETAILS))
      && (r.status == 500 <==> (r.status != 400 && !AllUrlsAreStrings(cache)))
      && (r.status == 200 <==> (r.status != 400 && r.status != 500))
  {
    if !(urlFilter.None? || urlFilter.value == "" || details.None? || details.value == "") {
      var invalid := InvalidDetails(Text.Split(details.value, ','));
      if invalid != [] {
        assert invalid[0] in invalid;
      }
    }
  }

  /** `item` is the projection of a cached entry whose url matches. */
  predicate ProjectedFrom(item: Json, cache: seq<Json>, urlFilter: string, details: seq<string>) {
    exists log :: log in cache && UrlMatches(log, urlFilter) == Some(true) && item == JObj(Project(log, details))
  }

  /** A successful reply holds one object per cached entry whose url
      contains the filter (case aside), in cache order: the i-th item has
      exactly the requested details the i-th matching entry has. */
  lemma NetworkRequestDetailsItems(cache: seq<Json>, urlFilter: string, details: string)
    ensures var r := NetworkRequestDetails(cache, Some(urlFilter), Some(details));
      r.status == 200 ==>
        && AllUrlsAreStrings(cache)
        && var matching := FilterByUrl(cache, urlFilter);
        && r.body.JArr? && |r.body.items| == |matching| <= |cache|
        && (forall i :: 0 <= i < |matching| ==>
              r.body.items[i] == JObj(Project(matching[i], Text.Split(details, ','))))
        && forall i :: 0 <= i < |r.body.items| ==>
             ProjectedFrom(r.body.items[i], cache, urlFilter, Text.Split(details, ','))
  {
    var ds := Text.Split(details, ',');
    var r := NetworkRequestDetails(cache, Some(urlFilter), Some(details));
    if r.status == 200 {
      var f := FilterByUrl(cache, urlFilter);
      assert r.body.items == ProjectAll(f, ds);
      forall i | 0 <= i < |r.body.items| ensures ProjectedFrom(r.body.items[i], cache, urlFilter, ds) {
        assert f[i] in f;
        assert r.body.items[i] == JObj(Project(f[i], ds));
      }
    }
  }

  /** `timestamp` is not among the details a caller may ask for: any
      request naming it is rejected. */
  lemma TimestampDetailRejected(cache: seq<Json>, urlFilter: string, details: string)
    requires urlFilter != "" && "timestamp" in Text.Split(details, ',')
    ensures NetworkRequestDetails(cache, Some(urlFilter), Some(details)).status == 400
  {
    assert "timestamp" !in VALID_DETAILS;
    NetworkRequestDetailsStatus(cache, Some(urlFilter), Some(details));
  }

  // ------------------------------------------------ size-limited query

  /** The greedy cut of `truncateLogsToQueryLimit`: entries are taken from
      the front while the running size stays within the limit; the first
      entry that would overflow ends the list. A NaN limit never cuts. */
  method TakeWithinLimit(processed: seq<Json>, limit: Option<int>, size: Json -> nat) returns (r: seq<Json>)
    ensures |r| <= |processed| && r == processed[..|r|]
    ensures limit.Some? && r != [] ==> TotalSize(r, size) <= limit.value
    ensures |r| < |processed| ==> limit.Some? && TotalSize(r, size) + size(processed[|r|]) > limit.value
    ensures limit.None? ==> r == processed
  {
    var currentSize := 0;
    r := [];
    var i := 0;
    while i < |processed|
      invariant 0 <= i <= |processed|
      invariant r == processed[..i]
      invariant currentSize == TotalSize(r, size)
      invariant limit.Some? && r != [] ==> currentSize <= limit.value
    {
      var logSize := size(processed[i]);
      if limit.Some? && currentSize + logSize > limit.value {
        break;
      }
      assert (r + [processed[i]])[..|r|] == r;
      r := r + [processed[i]];
      currentSize := currentSize + logSize;
      i := i + 1;
    }
    assert processed[..|processed|] == processed;
  }

  // ----------------------------------------------------- the store

  /** The store's state as a value: the buffers, the current page, the
      selected element and the settings. */
  datatype Store = Store(
    consoleLogs: seq<Json>,
    consoleErrors: seq<Json>,
    networkErrors: seq<Json>,
    networkSuccess: seq<Json>,
    allXhr: seq<Json>,
    detailedCache: seq<Json>,
    currentUrl: Option<Json>,
    currentTabId: Option<Json>,
    selectedElement: Option<Json>,
    settings: seq<(string, Json)>)

  /** Every buffer holds only entries of its own kind, network entries are
      routed by status, and the detailed cache stays within its cap. */
  predicate ValidStore(s: Store) {
    && (forall i :: 0 <= i < |s.consoleLogs| ==> HasType(s.consoleLogs[i], "console-log"))
    && (forall i :: 0 <= i < |s.consoleErrors| ==> HasType(s.consoleErrors[i], "console-error"))
    && (forall i :: 0 <= i < |s.networkErrors| ==>
          HasType(s.networkErrors[i], "network-request") && IsErrorStatus(s.networkErrors[i]))
    && (forall i :: 0 <= i < |s.networkSuccess| ==>
          HasType(s.networkSuccess[i], "network-request") && !IsErrorStatus(s.networkSuccess[i]))
    && (forall i :: 0 <= i < |s.detailedCache| ==> HasType(s.detailedCache[i], "network-request"))
    && |s.detailedCache| <= MAX_CACHE_SIZE
    && s.allXhr == []
  }

  const OK_REPLY: Reply := Reply(200, JObj([("status", JStr("ok"))]))
  /** The reply of a handler that throws: Express answers 500. */
  const THROWN_REPLY: Reply := Reply(500, JStr("Internal Server Error"))
  const NO_DATA_REPLY: Reply := Reply(400, JObj([("status", JStr("error")), ("message", JStr("No data provided"))]))

  /** The cases of the `switch (data.type)` of `/extension-log`. */
  datatype EntryType = PageNavigated | ConsoleLog | ConsoleError | NetworkRequest | SelectedElement | OtherType

  function TypeOf(d: Json): (r: EntryType)
    ensures r == PageNavigated <==> HasType(d, "page-navigated")
    ensures r == ConsoleLog <==> HasType(d, "console-log")
    ensures r == ConsoleError <==> HasType(d, "console-error")
    ensures r == NetworkRequest <==> HasType(d, "network-request")
    ensures r == SelectedElement <==> HasType(d, "selected-element")
  {
    var t := Field(d, "type");
    if IsString(t, "page-navigated") then PageNavigated
    else if IsString(t, "console-log") then ConsoleLog
    else if IsString(t, "console-error") then ConsoleError
    else if IsString(t, "network-request") then NetworkRequest
    else if IsString(t, "selected-element") then SelectedElement
    else OtherType
  }

  /** `data.message?.substring(0, 100)` in the console cases: a message
      that is present, not `null` and not a string has no `substring`, so
      the handler throws before the entry is stored. */
  predicate MessageThrows(d: Json) {
    && (TypeOf(d) == ConsoleLog || TypeOf(d) == ConsoleError)
    && match Field(d, "message")
       case None => false
       case Some(JNull) => false
       case Some(JStr(_)) => false
       case Some(_) => true
  }

  /** What one log entry does to the store, by its `type`. */
  function RecordData(s: Store, d: Json): Store {
    var limit := NumSetting(s.settings, "logLimit");
    match TypeOf(d)
    case PageNavigated =>
      var tab := Field(d, "tabId");
      s.(currentUrl := Field(d, "url"), currentTabId := if Present(tab) then tab else s.currentTabId)
    case ConsoleLog => s.(consoleLogs := PushShift(s.consoleLogs, d, limit))
    case ConsoleError => s.(consoleErrors := PushShift(s.consoleErrors, d, limit))
    case NetworkRequest =>
      var cache := PushShift(s.detailedCache, d, Some(MAX_CACHE_SIZE));
      if IsErrorStatus(d) then s.(detailedCache := cache, networkErrors := PushShift(s.networkErrors, d, limit))
      else s.(detailedCache := cache, networkSuccess := PushShift(s.networkSuccess, d, limit))
    case SelectedElement => s.(selectedElement := Field(d, "element"))
    case OtherType => s
  }

  /** `POST /extension-log` on the store value: settings first, then the
      data, if any; a console entry whose message throws leaves the merged
      settings in place and is answered 500. */
  function ExtensionLogEffect(s: Store, body: Json): (Store, Reply) {
    var s1 := s.(settings := MergedSettings(s.settings, body));
    var data := Field(body, "data");
    if !Present(data) then (s1, NO_DATA_REPLY)
    else if MessageThrows(data.value) then (s1, THROWN_REPLY)
    else (RecordData(s1, data.value), OK_REPLY)
  }

  /** Entries in a buffer that satisfy a property still do after a push of
      an entry that satisfies it. */
  lemma PushShiftKeeps(buf: seq<Json>, x: Json, limit: Option<int>, t: string, err: bool, checkErr: bool)
    requires forall i :: 0 <= i < |buf| ==> HasType(buf[i], t) && (checkErr ==> IsErrorStatus(buf[i]) == err)
    requires HasType(x, t) && (checkErr ==> IsErrorStatus(x) == err)
    ensures var r := PushShift(buf, x, limit);
      forall i :: 0 <= i < |r| ==> HasType(r[i], t) && (checkErr ==> IsErrorStatus(r[i]) == err)
  {
    var b := buf + [x];
    assert forall i :: 0 <= i < |b| ==> HasType(b[i], t) && (checkErr ==> IsErrorStatus(b[i]) == err);
  }

  /** Logging keeps every buffer holding only its own kind of entry, the
      network buffers split by status, and the detailed cache within 50. */
  lemma ExtensionLogValid(s: Store, body: Json)
    requires ValidStore(s)
    ensures ValidStore(ExtensionLogEffect(s, body).0)
  {
    var s1 := s.(settings := MergedSettings(s.settings, body));
    var data := Field(body, "data");
    if Present(data) {
      RecordDataValid(s1, data.value);
    }
  }

  /** Recording one entry keeps the store valid. */
  lemma RecordDataValid(s: Store, d: Json)
    requires ValidStore(s)
    ensures ValidStore(RecordData(s, d))
  {
    var limit := NumSetting(s.settings, "logLimit");
    match TypeOf(d)
    case ConsoleLog =>
      PushShiftKeeps(s.consoleLogs, d, limit, "console-log", false, false);
    case ConsoleError =>
      PushShiftKeeps(s.consoleErrors, d, limit, "console-error", false, false);
    case NetworkRequest =>
      PushShiftSpec(s.detailedCache, d, Some(MAX_CACHE_SIZE));
      PushShiftKeeps(s.detailedCache, d, Some(MAX_CACHE_SIZE), "network-request", false, false);
      if IsErrorStatus(d) {
        PushShiftKeeps(s.networkErrors, d, limit, "network-request", true, true);
      } else {
        PushShiftKeeps(s.networkSuccess, d, limit, "network-request", false, true);
      }
    case _ =>
  }

  /** A network entry always lands at the end of the detailed cache, and
      goes to `networkErrors` when its status is at least 400 or to
      `networkSuccess` otherwise; the other buffers are untouched. */
  lemma RecordNetworkRoutes(s: Store, d: Json)
    requires HasType(d, "network-request")
    ensures var s2 := RecordData(s, d);
      var limit := NumSetting(s.settings, "logLimit");
      && s2.detailedCache[|s2.detailedCache| - 1] == d
      && (IsErrorStatus(d) ==>
            s2.networkSuccess == s.networkSuccess && s2.networkErrors == PushShift(s.networkErrors, d, limit))
      && (!IsErrorStatus(d) ==>
            s2.networkErrors == s.networkErrors && s2.networkSuccess == PushShift(s.networkSuccess, d, limit))
      && s2.consoleLogs == s.consoleLogs && s2.consoleErrors == s.consoleErrors
  {
    PushShiftSpec(s.detailedCache, d, Some(MAX_CACHE_SIZE));
  }

  /** The settings are merged whether or not the body carries data; a body
      without data is answered 400 and changes nothing else, and so does a
      console entry whose message is not a string, with 500; any other
      entry is recorded and answered ok. */
  lemma ExtensionLogSettingsFirst(s: Store, body: Json)
    ensures ExtensionLogEffect(s, body).0.settings == MergedSettings(s.settings, body)
    ensures !Present(Field(body, "data")) ==>
      ExtensionLogEffect(s, body) == (s.(settings := MergedSettings(s.settings, body)), NO_DATA_REPLY)
    ensures Present(Field(body, "data")) && MessageThrows(Field(body, "data").value) ==>
      ExtensionLogEffect(s, body) == (s.(settings := MergedSettings(s.settings, body)), THROWN_REPLY)
    ensures ExtensionLogEffect(s, body).1 == OK_REPLY <==>
      Present(Field(body, "data")) && !MessageThrows(Field(body, "data").value)
  {
  }

  /** Each buffer holding at most `logLimit` entries still does after an
      entry is recorded: a push is followed by at most one shift. */
  lemma RecordDataBounded(s: Store, d: Json)
    ensures var s2 := RecordData(s, d);
      var limit := NumSetting(s.settings, "logLimit");
      && s2.settings == s.settings
      && (limit.Some? && |s.consoleLogs| <= limit.value ==> |s2.consoleLogs| <= limit.value)
      && (limit.Some? && |s.consoleErrors| <= limit.value ==> |s2.consoleErrors| <= limit.value)
      && (limit.Some? && |s.networkErrors| <= limit.value ==> |s2.networkErrors| <= limit.value)
      && (limit.Some? && |s.networkSuccess| <= limit.value ==> |s2.networkSuccess| <= limit.value)
  {
    var limit := NumSetting(s.settings, "logLimit");
    match TypeOf(d)
    case ConsoleLog =>
      PushShiftSpec(s.consoleLogs, d, limit);
    case ConsoleError =>
      PushShiftSpec(s.consoleErrors, d, limit);
    case NetworkRequest =>
      PushShiftSpec(s.networkErrors, d, limit);
      PushShiftSpec(s.networkSuccess, d, limit);
    case _ =>
  }

  /** The largest distance from the epoch, in milliseconds, of a valid
      `Date`. */
  const MAX_TIME: int := 8640000000000000

  /** Whether `new Date(v)` is a valid date: a number within the range, a
      boolean or `null` (0 or 1), or a value whose string form `Date.parse`
      accepts. */
  predicate DateValid(v: Json, dateParses: string -> bool) {
    match v
    case JNum(n) => -MAX_TIME <= n <= MAX_TIME
    case JBool(_) => true
    case JNull => true
    case _ => dateParses(ToJsString(v))
  }

  /** Which buffer a `GET` log query reads. */
  datatype LogKind = ConsoleLogs | ConsoleErrors | NetworkErrors | NetworkSuccess

  class LogStore {
    var consoleLogs: seq<Json>
    var consoleErrors: seq<Json>
    var networkErrors: seq<Json>
    var networkSuccess: seq<Json>
    /** Declared by the source and only ever cleared. */
    var allXhr: seq<Json>
    /** Full network entries for `/network-request-details`. */
    var detailedCache: seq<Json>
    /** The page URL last reported; None is `undefined`. */
    var currentUrl: Option<Json>
    var currentTabId: Option<Json>
    var selectedElement: Option<Json>
    var settings: seq<(string, Json)>

    function State(): Store
      reads this
    {
      Store(consoleLogs, consoleErrors, networkErrors, networkSuccess, allXhr, detailedCache,
            currentUrl, currentTabId, selectedElement, settings)
    }

    ghost predicate Valid()
      reads this
    {
      ValidStore(State())
    }

    constructor(screenshotPath: string, serverHost: string)
      ensures Valid()
      ensures State() == Store([], [], [], [], [], [], Some(JStr("")), Some(JNull), Some(JNull),
                               InitialSettings(screenshotPath, serverHost))
    {
      consoleLogs := [];
      consoleErrors := [];
      networkErrors := [];
      networkSuccess := [];
      allXhr := [];
      detailedCache := [];
      currentUrl := Some(JStr(""));
      currentTabId := Some(JNull);
      selectedElement := Some(JNull);
      settings := InitialSettings(screenshotPath, serverHost);
    }

    /** `POST /extension-log`. */
    method ExtensionLog(body: Json) returns (r: Reply)
      requires Valid()
      modifies this
      ensures Valid()
      ensures (State(), r) == ExtensionLogEffect(old(State()), body)
    {
      ExtensionLogValid(State(), body);
      settings := MergedSettings(settings, body);
      var data := Field(body, "data");
      if !Present(data) {
        return NO_DATA_REPLY;
      }
      var stored := Record(data.value);
      r := if stored then OK_REPLY else THROWN_REPLY;
    }

    /** The `switch (data.type)` of `/extension-log`; `stored` is false when
        a console message makes the handler throw, and then nothing
        changes. */
    method Record(d: Json) returns (stored: bool)
      modifies this
      ensures stored == !MessageThrows(d)
      ensures State() == if stored then RecordData(old(State()), d) else old(State())
    {
      stored := true;
      var logLimit := NumSetting(settings, "logLimit");
      match TypeOf(d) {
        case PageNavigated =>
          currentUrl := Field(d, "url");
          if Present(Field(d, "tabId")) {
            currentTabId := Field(d, "tabId");
          }
        case ConsoleLog =>
          if MessageThrows(d) {
            return false;
          }
          consoleLogs := PushShift(consoleLogs, d, logLimit);
        case ConsoleError =>
          if MessageThrows(d) {
            return false;
          }
          consoleErrors := PushShift(consoleErrors, d, logLimit);
        case NetworkRequest =>
          RecordNetwork(d, logLimit);
        case SelectedElement =>
          selectedElement := Field(d, "element");
        case OtherType =>
      }
    }

    /** The `network-request` case: the detailed cache, then the buffer
        chosen by status. */
    method RecordNetwork(d: Json, logLimit: Option<int>)
      modifies this
      ensures var s := old(State());
        var cache := PushShift(s.detailedCache, d, Some(MAX_CACHE_SIZE));
        State() == if IsErrorStatus(d) then s.(detailedCache := cache, networkErrors := PushShift(s.networkErrors, d, logLimit))
                   else s.(detailedCache := cache, networkSuccess := PushShift(s.networkSuccess, d, logLimit))
    {
      detailedCache := PushShift(detailedCache, d, Some(MAX_CACHE_SIZE));
      if IsErrorStatus(d) {
        networkErrors := PushShift(networkErrors, d, logLimit);
      } else {
        networkSuccess := PushShift(networkSuccess, d, logLimit);
      }
    }

    /** `truncateLogsToQueryLimit`: the header-filtered entries, cut greedily
        to the `queryLimit` setting. */
    method TruncateLogsToQueryLimit(logs: seq<Json>, size: Json -> nat) returns (r: seq<Json>)
      ensures var p := ProcessLogs(logs, settings);
        var limit := NumSetting(settings, "queryLimit");
        && |r| <= |logs| && r == p[..|r|]
        && (limit.Some? && r != [] ==> TotalSize(r, size) <= limit.value)
        && (|r| < |logs| ==> limit.Some? && TotalSize(r, size) + size(p[|r|]) > limit.value)
        && (limit.None? ==> r == p)
    {
      if |logs| == 0 {
        return logs;
      }
      var processed := ProcessLogs(logs, settings);
      r := TakeWithinLimit(processed, NumSetting(settings, "queryLimit"), size);
    }

    /** The buffer a log query reads. */
    function Buffer(kind: LogKind): seq<Json>
      reads this
    {
      match kind
      case ConsoleLogs => consoleLogs
      case ConsoleErrors => consoleErrors
      case NetworkErrors => networkErrors
      case NetworkSuccess => networkSuccess
    }

    /** `GET /console-logs`, `/console-errors`, `/network-errors`,
        `/network-success`: the buffer cut to the query limit. */
    method GetLogs(kind: LogKind, size: Json -> nat) returns (r: seq<Json>)
      ensures var p := ProcessLogs(Buffer(kind), settings);
        var limit := NumSetting(settings, "queryLimit");
        && |r| <= |p| && r == p[..|r|]
        && (limit.Some? && r != [] ==> TotalSize(r, size) <= limit.value)
        && (|r| < |p| ==> limit.Some? && TotalSize(r, size) + size(p[|r|]) > limit.value)
        && (limit.None? ==> r == p)
    {
      r := TruncateLogsToQueryLimit(Buffer(kind), size);
    }

    /** `GET /all-xhr`: successes and errors merged, ordered by timestamp,
        then cut to the query limit. */
    method GetAllXhr(size: Json -> nat) returns (r: seq<Json>)
      ensures var p := ProcessLogs(SortByTimestamp(networkSuccess + networkErrors), settings);
        var limit := NumSetting(settings, "queryLimit");
        && |r| <= |p| && r == p[..|r|]
        && (limit.Some? && r != [] ==> TotalSize(r, size) <= limit.value)
        && (|r| < |p| ==> limit.Some? && TotalSize(r, size) + size(p[|r|]) > limit.value)
        && (limit.None? ==> r == p)
    {
      var merged := SortByTimestamp(networkSuccess + networkErrors);
      r := TruncateLogsToQueryLimit(merged, size);
    }

    /** `GET /network-request-details` over the detailed cache. */
    function GetNetworkRequestDetails(urlFilter: Option<string>, details: Option<string>): (r: Reply)
      reads this
      ensures r.status == 200 ==> r.body.JArr? && |r.body.items| <= |detailedCache|
    {
      NetworkRequestDetailsStatus(detailedCache, urlFilter, details);
      var r := NetworkRequestDetails(detailedCache, urlFilter, details);
      if r.status == 200 then
        NetworkRequestDetailsItems(detailedCache, urlFilter.value, details.value);
        r
      else r
    }

    /** `clearAllLogs` (behind `POST /wipelogs`): every buffer emptied and the
        selected element reset; the detailed cache, URL and settings stay. */
    method ClearAllLogs()
      requires Valid()
      modifies this
      ensures Valid()
      ensures State() == old(State()).(consoleLogs := [], consoleErrors := [], networkErrors := [],
                                       networkSuccess := [], allXhr := [], selectedElement := Some(JNull))
    {
      consoleLogs := [];
      consoleErrors := [];
      networkErrors := [];
      networkSuccess := [];
      allXhr := [];
      selectedElement := Some(JNull);
    }

    /** `POST /current-url`: a truthy `url` replaces the current URL (and a
        truthy `tabId` the tab) and the reply tells whether it changed;
        otherwise 400 and nothing changes. A truthy `timestamp` that is not
        a valid date makes `toISOString` throw after the update, so the
        reply is 500; `dateParses` stands for `Date.parse` accepting a
        string. */
    method PostCurrentUrl(body: Json, dateParses: string -> bool) returns (r: Reply)
      requires Valid()
      modifies this
      ensures Valid()
      ensures var url := Field(body, "url");
        var tab := Field(body, "tabId");
        var ts := Field(body, "timestamp");
        && (Present(url) ==>
              && State() == old(State()).(currentUrl := url,
                                          currentTabId := if Present(tab) then tab else old(currentTabId))
              && (Present(ts) && !DateValid(ts.value, dateParses) ==> r == THROWN_REPLY)
              && (!(Present(ts) && !DateValid(ts.value, dateParses)) ==>
                    r == Reply(200, Obj([("status", Some(JStr("ok"))), ("url", url), ("tabId", currentTabId),
                                         ("previousUrl", old(currentUrl)),
                                         ("updated", Some(JBool(StrictlyDifferent(old(currentUrl), url))))]))))
        && (!Present(url) ==>
              && State() == old(State())
              && r == Reply(400, JObj([("status", JStr("error")), ("message", JStr("No URL provided"))])))
    {
      var url := Field(body, "url");
      if Present(url) {
        var oldUrl := currentUrl;
        currentUrl := url;
        var tab := Field(body, "tabId");
        if Present(tab) {
          currentTabId := tab;
        }
        var ts := Field(body, "timestamp");
        if Present(ts) && !DateValid(ts.value, dateParses) {
          return THROWN_REPLY;
        }
        r := Reply(200, Obj([("status", Some(JStr("ok"))), ("url", currentUrl), ("tabId", currentTabId),
                             ("previousUrl", oldUrl),
                             ("updated", Some(JBool(StrictlyDifferent(oldUrl, currentUrl))))]));
      } else {
        r := Reply(400, JObj([("status", JStr("error")), ("message", JStr("No URL provided"))]));
      }
    }

    /** A page report arriving over the WebSocket (`current-url-response`
        or `page-navigated` with a URL): the URL is taken, and the tab id
        when it is truthy. */
    method SetPage(url: Json, tabId: Option<Json>)
      requires Valid()
      modifies this
      ensures Valid()
      ensures State() == old(State()).(currentUrl := Some(url),
                                       currentTabId := if Present(tabId) then tabId else old(currentTabId))
    {
      currentUrl := Some(url);
      if Present(tabId) {
        currentTabId := tabId;
      }
    }

    /** `GET /current-url`. */
    function GetCurrentUrl(): (r: Reply)
      reads this
      ensures r.status == 200
      ensures Field(r.body, "url") == currentUrl
    {
      Reply(200, Obj([("url", currentUrl)]))
    }

    /** `POST /selected-element`: stores the posted `data`, whatever it is. */
    method PostSelectedElement(body: Json) returns (r: Reply)
      requires Valid()
      modifies this
      ensures Valid()
      ensures State() == old(State()).(selectedElement := Field(body, "data"))
      ensures r == OK_REPLY
    {
      selectedElement := Field(body, "data");
      r := OK_REPLY;
    }

    /** `GET /selected-element`: the element, or a message when it is falsy. */
    function GetSelectedElement(): (r: Reply)
      reads this
      ensures Present(selectedElement) ==> r.body == selectedElement.value
      ensures !Present(selectedElement) ==> r.body == JObj([("message", JStr("No element selected"))])
    {
      if Present(selectedElement) then Reply(200, selectedElement.value)
      else Reply(200, JObj([("message", JStr("No element selected"))]))
    }
  }
}
