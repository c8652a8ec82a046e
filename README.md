# Browser tools: a Dafny model

The system has three cooperating parts:

- **The relay server** (`browser-tools-server`). It is an HTTP and
  WebSocket server. It stores what the browser extension posts (console
  logs, network requests, the selected element and the current page URL)
  in bounded buffers. It serves those back, cut to a size limit. It finds a
  free port at start-up. It relays screenshot and auth-token requests to
  the extension over one WebSocket connection. A heartbeat monitors that
  connection.
- **The screenshot service** (`screenshot-service.ts`). It turns a capture
  and its page URL into a directory layout and a file name, and builds the
  result the relay hands back.
- **The MCP tool process** (`browser-tools-mcp/mcp-server.ts`). It
  discovers the relay by probing hosts and ports for its identity
  signature. It wraps every tool request in a discover, call, rediscover
  and retry cycle. It also searches OpenAPI documents: endpoint filtering,
  tag listing, and suggestions when nothing matches.
- **The browser extension's background script**
  (`chrome-extension/background.js`). It connects to the relay, cycling
  over three ports with exponential back-off. It tracks XHR and fetch
  requests from start to completion and forwards each once. It caches tab
  URLs and pushes URL changes to the relay with up to three attempts.

The model is split into these modules:

- `Wrappers`, `Text`, `Ordered` and `Json`: JavaScript's value semantics
  that the rest relies on. These are strings as character sequences,
  ASCII case mapping, `\s` whitespace, `split`, `trim`, `parseInt`, and
  `Set`-based de-duplication. `Ordered` covers insertion-ordered `Map`s
  and objects. `Json` covers parsed values, truthiness, the object spread
  and `truncateStringsInData`.
- `Paths`: `convertPathForCurrentPlatform`.
- `Ports`: `getAvailablePort`.
- `LogStore`: the relay's log buffers and HTTP endpoints. It has a class
  with the module-level state as fields, and each handler is specified by
  a function on a `Store` value.
- `Screenshot`: the screenshot service.
- `Connector`: the `BrowserConnector` class, with a `Conn` value and
  functions for each event.
- `Discovery`: the MCP process's server discovery and request wrapper.
- `ApiDocs`: the OpenAPI search helpers.
- `Extension`: the background script's connection state, request monitor,
  tab cache and URL push.

Clocks, timers, `fetch`, `Math.random`, process environment, the git
remote, `JSON.parse`/`JSON.stringify` and URL parsing become parameters:
values, events, or oracle functions.

## Model

| member | source | states |
|---|---|---|
| Text.LowerIsLower | browser-tools-mcp/mcp-server.ts:1090 | `toLowerCase` leaves no upper-case ASCII letter, and lowering twice is lowering once |
| Text.UpperIsUpper | browser-tools-mcp/mcp-server.ts:1016 | `toUpperCase` leaves no lower-case ASCII letter, raising twice is raising once, and a raised string lowers like the original |
| Text.Trim | browser-tools-server/screenshot-service.ts:240 | `trim` returns a contiguous slice of the input with a whitespace-only part removed on each side, and the result neither starts nor ends with `\s` whitespace |
| Text.TrimEmpty | browser-tools-server/screenshot-service.ts:240 | `name.trim()` is empty exactly when the name is all whitespace |
| Text.Split | browser-tools-server/browser-connector.ts:1698 | `split(",")` yields at least one piece and no piece holds the separator |
| Text.JoinSplit | browser-tools-server/browser-connector.ts:1698 | joining the pieces of a split with the separator gives back the original string |
| Text.FieldsWellFormed | browser-tools-server/screenshot-service.ts:224 | `split(...).filter(s => s.length > 0)` yields non-empty pieces made only of non-separator characters of the input |
| Text.DedupeSpec | browser-tools-mcp/mcp-server.ts:1213 | `[...new Set(xs)]` has no duplicates and the same members as `xs` |
| Text.DedupeOrder | browser-tools-mcp/mcp-server.ts:1213 | the de-duplicated list keeps first occurrences in their original order |
| Text.ParseIntOfNatToString | browser-tools-mcp/mcp-server.ts:29 | `parseInt` of a printed natural number gives that number back |
| Text.ParseIntUnsigned | browser-tools-mcp/mcp-server.ts:29 | `parseInt` of a string starting with a digit reads the leading digit run |
| Text.LastIndexOf | browser-tools-mcp/mcp-server.ts:687 | `lastIndexOf` finds the last occurrence, with no later one, or none when the character is absent |
| Text.NatToStringInjective | browser-tools-server/browser-connector.ts:1221 | distinct numbers print as distinct strings, so a counter gives distinct request ids |
| Text.ParseIntOfIntToString | browser-tools-server/browser-connector.ts:1390 | the decimal form of any integer, negative ones with a `-`, reads back as that integer |
| Ordered.Keys | browser-tools-server/browser-connector.ts:1237 | the keys of an insertion-ordered map, position by position |
| Ordered.Get | browser-tools-server/browser-connector.ts:812-813 | a lookup finds a value exactly when the key is present, and the value is stored under that key |
| Ordered.PutKeys | browser-tools-server/browser-connector.ts:1234 | `Map.set` keeps the key order on overwrite and appends a new key at the end |
| Ordered.PutGet | browser-tools-server/browser-connector.ts:1234 | after `set(k, v)` the key reads `v` and every other key reads as before |
| Ordered.PutDistinct | browser-tools-server/browser-connector.ts:1234 | `set` keeps the keys distinct |
| Ordered.RemoveGet | browser-tools-server/browser-connector.ts:1242-1246 | after `delete(k)` the key is absent and every other key reads as before; deleting an absent key changes nothing |
| Ordered.RemoveDistinct | browser-tools-server/browser-connector.ts:834 | `delete` keeps the keys distinct and removes exactly one entry when the key was present |
| Json.Field | browser-tools-server/browser-connector.ts:351 | a property read finds a value only on an object holding that key, and always finds a present key |
| Json.StrField | browser-tools-server/browser-connector.ts:1356-1358 | a string property is read exactly when the property exists and is a string |
| Json.Spread | browser-tools-server/browser-connector.ts:356-359 | spreading an object yields its own entries in order |
| Json.MergeGet | browser-tools-server/browser-connector.ts:356-359 | after `{...base, ...patch}` a key reads the patch's last value when the patch has it, and the base's otherwise |
| Json.TruncateString | browser-tools-server/browser-connector.ts:252-256 | a string within the limit is unchanged; a longer one keeps its first `max` characters and ends with the truncation marker |
| Json.TruncateBounds | browser-tools-server/browser-connector.ts:251-271 | after truncation every string in the value is at most `max` plus the marker's length |
| Json.TruncateFits | browser-tools-server/browser-connector.ts:251-271 | a value whose strings all fit is returned unchanged |
| Json.TruncateShape | browser-tools-server/browser-connector.ts:251-271 | truncation keeps the value's shape: the same kinds, array lengths and object keys |
| Json.ProcessJsonString | browser-tools-server/browser-connector.ts:274-286 | text that does not parse is truncated as a string; parsed text is re-serialised from data of the same shape whose strings are within the limit plus the marker, and unchanged when they already fit |
| Json.TruncatedData | browser-tools-server/browser-connector.ts:251-271 | truncating parsed data keeps its shape, bounds every string, and leaves data that fits alone |
| Json.ToJsString | browser-tools-server/browser-connector.ts:849-858 | `String(value)`, as `new Error(value).message` renders it: a string is itself, a number reads back as itself, a boolean is `true` or `false`, an object `[object Object]` |
| Paths.ReplaceCharRemoves | browser-tools-server/browser-connector.ts:41 | after the replacement the replaced character no longer occurs |
| Paths.CollapseBackslashPairs | browser-tools-server/browser-connector.ts:107-109 | collapsing `\\` pairs introduces no character other than `/` |
| Paths.FindPart | browser-tools-server/browser-connector.ts:68-70 | `findIndex` with a case-insensitive comparison returns the first matching part, or none when no part matches |
| Paths.FindDist | browser-tools-server/browser-connector.ts:66-75 | the distribution search returns an index inside the parts |
| Paths.FindWsl | browser-tools-server/browser-connector.ts:88-94 | the WSL marker search returns the first `wsl.localhost`/`wsl$` part |
| Paths.ConvertPathPassThrough | browser-tools-server/browser-connector.ts:30-42 | an empty path and any platform other than win32, linux and darwin return the input unchanged; on win32 the length is kept, every `/` becomes `\` and every other character is kept |
| Paths.ConvertPathUnix | browser-tools-server/browser-connector.ts:44-127 | on linux and darwin a path with a backslash comes back without any backslash, and a path without one comes back unchanged |
| Paths.WslPathHasNoBackslash | browser-tools-server/browser-connector.ts:48-103 | a WSL path converted to a Linux path contains no backslash |
| Paths.JoinAvoids | browser-tools-server/browser-connector.ts:79 | joining parts that avoid a character with a separator that avoids it gives a string that avoids it |
| Paths.DriveBranchUnreachable | browser-tools-server/browser-connector.ts:47-126 | as written, a drive path such as `C:\x` is caught by the backslash test and only has its slashes normalised, so the drive branch never runs |
| Paths.NormalizeKeepsDrive | browser-tools-server/browser-connector.ts:106-109 | slash normalisation of a drive path keeps the drive prefix `C:` |
| Paths.DriveFirstSpec | browser-tools-server/browser-connector.ts:116-126 | with the drive test first, a non-WSL drive path loses its `C:` prefix and becomes a rooted Linux path; every other path converts as before |
| Ports.GetAvailablePortAsWritten | browser-tools-server/browser-connector.ts:184-237 | as written, the search succeeds exactly when some attempt gets an answer, and returns the port after an in-use port or the listening port itself |
| Ports.AnswerIsFirst | browser-tools-server/browser-connector.ts:191-230 | the attempt that ends the loop is unique |
| Ports.NoAnswer | browser-tools-server/browser-connector.ts:191-236 | when every attempt throws, the loop ends without an answer |
| Ports.InUseReturnsUntriedPort | browser-tools-server/browser-connector.ts:199-224 | as written, when the first port is in use the port after it is returned without ever being tried |
| Ports.GetAvailablePort | browser-tools-server/browser-connector.ts:184-237 | the corrected search returns the first free port in the range, or fails only when no port in the range is free |
| LogStore.Obj | browser-tools-server/browser-connector.ts:600-606 | a reply object holds exactly the given members whose value is defined, so `undefined` members are omitted |
| LogStore.PushShiftSpec | browser-tools-server/browser-connector.ts:394-400 | push-then-shift drops at most the oldest entry, ends with the new entry, and keeps a buffer within its limit |
| LogStore.PushShiftKeeps | browser-tools-server/browser-connector.ts:394-400 | a buffer holding only entries of one kind, and of one status class, still does after a push |
| LogStore.ProcessLog | browser-tools-server/browser-connector.ts:290-303 | processing an object log yields an object |
| LogStore.ProcessLogHeaders | browser-tools-server/browser-connector.ts:293-301 | a network log loses `requestHeaders`/`responseHeaders` exactly when the matching setting is falsy, and keeps their value when it is truthy |
| LogStore.ProcessLogKeeps | browser-tools-server/browser-connector.ts:290-303 | every other key keeps its value, and non-network logs are untouched |
| LogStore.SortByTimestamp | browser-tools-server/browser-connector.ts:504-506 | the sort is a permutation of its input |
| LogStore.SortByTimestampSorted | browser-tools-server/browser-connector.ts:504-506 | the sorted logs are in ascending timestamp order and are a permutation of the input |
| LogStore.InsertPermutes | browser-tools-server/browser-connector.ts:504-506 | one insertion step adds exactly the inserted log |
| LogStore.FilterByUrl | browser-tools-server/browser-connector.ts:1718-1720 | the filter keeps exactly the cached entries whose URL contains the filter, case aside, in cache order and with their repeats |
| LogStore.ProjectSpec | browser-tools-server/browser-connector.ts:1724-1733 | a projected entry has exactly the requested details that the entry has, each with the entry's value |
| LogStore.InvalidDetails | browser-tools-server/browser-connector.ts:1698-1714 | the invalid details are exactly the requested ones outside the seven valid names |
| LogStore.NetworkRequestDetailsStatus | browser-tools-server/browser-connector.ts:1690-1741 | the endpoint answers 400 exactly for a missing parameter or an unknown detail, 500 exactly when a cached URL is not a string, and 200 otherwise |
| LogStore.NetworkRequestDetailsItems | browser-tools-server/browser-connector.ts:1716-1737 | a successful reply has one item per matching cached entry, in cache order, and item i is the projection of the i-th match onto the requested details |
| LogStore.TimestampDetailRejected | browser-tools-server/browser-connector.ts:1699-1715 | asking for `timestamp` is always rejected with 400 |
| LogStore.TakeWithinLimit | browser-tools-server/browser-connector.ts:320-338 | the greedy cut is a prefix whose total size fits the limit, and it stops only at the first entry that would overflow |
| LogStore.TypeOf | browser-tools-server/browser-connector.ts:370-468 | each case of `switch (data.type)` is chosen exactly for its type |
| LogStore.ExtensionLogValid | browser-tools-server/browser-connector.ts:343-474 | logging keeps every buffer holding only its own kind, the network buffers split by status, and the detailed cache within 50 |
| LogStore.RecordDataValid | browser-tools-server/browser-connector.ts:370-468 | recording one entry keeps the store valid |
| LogStore.RecordNetworkRoutes | browser-tools-server/browser-connector.ts:418-456 | a network entry lands at the end of the detailed cache and goes to `networkErrors` when its status is at least 400, or to `networkSuccess` otherwise |
| LogStore.ExtensionLogSettingsFirst | browser-tools-server/browser-connector.ts:351-474 | settings are merged before the data check; a body without data gets 400, a console message that is not a string throws (500) after the merge, and only a stored entry is answered 200 |
| LogStore.RecordDataBounded | browser-tools-server/browser-connector.ts:386-456 | every log buffer within `logLimit` stays within it after an entry is recorded |
| LogStore.LogStore.constructor | browser-tools-server/browser-connector.ts:141-169 | the store starts empty, with the default settings |
| LogStore.LogStore.ExtensionLog | browser-tools-server/browser-connector.ts:343-479 | `POST /extension-log` updates the state and replies as the handler's function says, keeping the store valid |
| LogStore.LogStore.Record | browser-tools-server/browser-connector.ts:370-468 | the type switch records the entry, except a console entry whose message is a non-string, which throws and changes nothing |
| LogStore.LogStore.RecordNetwork | browser-tools-server/browser-connector.ts:418-456 | the detailed cache and then the status-chosen buffer get the entry; nothing else changes |
| LogStore.LogStore.TruncateLogsToQueryLimit | browser-tools-server/browser-connector.ts:313-340 | the reply is the longest prefix of the header-filtered logs whose size fits `queryLimit` |
| LogStore.LogStore.GetLogs | browser-tools-server/browser-connector.ts:482-500 | each log endpoint returns the longest prefix of its processed buffer that fits the query limit, the whole buffer without a limit |
| LogStore.LogStore.GetAllXhr | browser-tools-server/browser-connector.ts:502-509 | `/all-xhr` returns the longest prefix of the timestamp-sorted merge of both network buffers that fits the query limit, all of it without a limit |
| LogStore.LogStore.GetNetworkRequestDetails | browser-tools-server/browser-connector.ts:1675-1743 | a successful reply is an array no longer than the detailed cache |
| LogStore.LogStore.ClearAllLogs | browser-tools-server/browser-connector.ts:551-566 | every buffer is emptied and the selected element reset; the cache, URL and settings stay |
| LogStore.LogStore.PostCurrentUrl | browser-tools-server/browser-connector.ts:569-611 | a truthy URL replaces the current URL and a truthy tab id the tab; the reply reports whether the URL changed, unless a truthy timestamp is not a valid date, which throws (500) after the update; without a URL, 400 and nothing changes |
| LogStore.LogStore.SetPage | browser-tools-server/browser-connector.ts:766-804 | a page report over the WebSocket sets the URL, and the tab id when it is truthy |
| LogStore.LogStore.GetCurrentUrl | browser-tools-server/browser-connector.ts:614-617 | `/current-url` answers 200 with the current URL |
| LogStore.LogStore.PostSelectedElement | browser-tools-server/browser-connector.ts:512-516 | the posted data becomes the selected element |
| LogStore.LogStore.GetSelectedElement | browser-tools-server/browser-connector.ts:518-520 | the selected element, or the "No element selected" message when it is falsy |
| Screenshot.SanitizeFilenameSpec | browser-tools-server/screenshot-service.ts:389-395 | the sanitised file name is the first 100 characters of the unsafe-free words joined by single `_`, with no leading `_` |
| Screenshot.SanitizeDirectoryNameSpec | browser-tools-server/screenshot-service.ts:377-384 | the sanitised directory name is the first 50 characters of the lower-cased words joined by single `-`, with no leading `-` and no unsafe character |
| Screenshot.ResolveBaseDirectory | browser-tools-server/screenshot-service.ts:117-131 | an absolute configured path wins, then an absolute `SCREENSHOT_STORAGE_PATH`, else `~/Downloads/Windsurf_Screenshots` |
| Screenshot.DownloadsLayout | browser-tools-server/screenshot-service.ts:361-372 | the default folder is `Downloads` under the home directory on every platform |
| Screenshot.DetectProjectFromCwd | browser-tools-server/screenshot-service.ts:311-327 | the project is the working directory's name unless it is generic, then its parent's unless that is generic too |
| Screenshot.GitProjectName | browser-tools-server/screenshot-service.ts:286-306 | a name taken from the git remote is non-empty and has no `/`; a remote without `/` gives none |
| Screenshot.GitProjectNameOf | browser-tools-server/screenshot-service.ts:297-300 | the remote `host/name` or `host/name.git` yields `name` |
| Screenshot.ResolveProjectDirectory | browser-tools-server/screenshot-service.ts:136-161 | the project directory is always a safe directory name, `default-project` when no source names one |
| Screenshot.ProjectFromGit | browser-tools-server/screenshot-service.ts:148-151 | with no configured or environment project, the git repository's name is used, sanitised |
| Screenshot.CategorizeByPath | browser-tools-server/screenshot-service.ts:200-232 | the category is a safe directory name and is `home` for a path without segments; localhost URLs use the same rule |
| Screenshot.EnvironmentOf | browser-tools-server/screenshot-service.ts:175-186 | `localhost` and `127.0.0.1` get no environment folder; a host mentioning `staging` or `dev` is staging; one mentioning `prod` or not mentioning `localhost` is production; any other gets none |
| Screenshot.ResolveUrlCategory | browser-tools-server/screenshot-service.ts:166-195 | no URL or `about:blank` gives `general`, an unparsable URL `uncategorized`, and otherwise the path category, prefixed by the environment when there is one |
| Screenshot.UrlCategoryShape | browser-tools-server/screenshot-service.ts:166-232 | every category is one safe segment or an environment followed by one safe segment |
| Screenshot.UrlBasedFilename | browser-tools-server/screenshot-service.ts:258-281 | the URL-based stem is a safe file stem: `page` for an unparsable URL, `homepage` for a path without segments, the one segment sanitised, or the last two joined by `-` and sanitised |
| Screenshot.FileStem | browser-tools-server/screenshot-service.ts:237-253 | the stem is safe; a non-blank custom name wins (sanitised), else the URL-based stem when a URL is given, else `screenshot` |
| Screenshot.GenerateFilenameShape | browser-tools-server/screenshot-service.ts:237-253 | a file name is the timestamp, `_`, the stem and `.png`, with no `:` |
| Screenshot.CleanBase64Data | browser-tools-server/screenshot-service.ts:332-334 | only a leading `data:image/...;base64,` prefix is removed; other input is unchanged |
| Screenshot.CleanBase64OfDataUrl | browser-tools-server/screenshot-service.ts:332-334 | a data URL gives back exactly its payload |
| Screenshot.SaveScreenshot | browser-tools-server/screenshot-service.ts:52-84 | the written data is the cleaned base64, image data is returned only when asked for, and project, category and file name are the resolved ones |
| Screenshot.SaveScreenshotPath | browser-tools-server/screenshot-service.ts:89-112 | the file path joins base directory, project, category and file name |
| Connector.ReadyStateCode | browser-tools-server/browser-connector.ts:1188-1189 | a ready state code is 0 to 3, and 1 exactly for an open socket |
| Connector.ReadyStateText | browser-tools-server/browser-connector.ts:1176-1184 | codes 0 to 3 name their state, and anything else is `UNKNOWN` |
| Connector.InitialValid | browser-tools-server/browser-connector.ts:629-639 | the initial connector state is valid |
| Connector.RejectAll | browser-tools-server/browser-connector.ts:1091-1097 | every pending capture is rejected once, oldest first, each naming its own request and its place among all |
| Connector.Disconnected | browser-tools-server/browser-connector.ts:1137-1160 | `handleConnectionClose` forgets the connection, stops the monitor, rejects capture i of n with `WebSocket connection lost [id] - callback i/n` (`unknown` without an id) and clears the id, keeping validity |
| Connector.Attached | browser-tools-server/browser-connector.ts:722-737 | a new connection gets a `conn_` id, becomes active and monitored, and closes any previous socket normally |
| Connector.SocketClosed | browser-tools-server/browser-connector.ts:870-877 | a close disconnects only when it is the active socket's |
| Connector.StateChanged | browser-tools-server/browser-connector.ts:1077 | a ready-state change only touches the active socket's state |
| Connector.SupersededCloseIgnored | browser-tools-server/browser-connector.ts:728-733 | a replaced socket's late close leaves the new connection in place |
| Connector.HeartbeatTick | browser-tools-server/browser-connector.ts:1076-1136 | a tick stops the monitor without an open socket; after 60 s of silence it rejects capture i of n naming its connection, request id and i/n, and closes; otherwise it sends one heartbeat; a failed send disconnects |
| Connector.HealthAndTicks | browser-tools-server/browser-connector.ts:1076-1111 | a tick leaves a healthy connection in place and drops an open but silent one |
| Connector.ConnectionHealth | browser-tools-server/browser-connector.ts:676-688 | a healthy report names an open connection heard from within the timeout, and counts the pending captures |
| Connector.MatchedRequest | browser-tools-server/browser-connector.ts:812 | a reply matches exactly when it names, as a non-empty string, a pending request id, and then it matches that id |
| Connector.ReplyTarget | browser-tools-server/browser-connector.ts:812-836 | a reply settles the pending request it names, else the oldest pending one, and nothing exactly when nothing is pending |
| Connector.ReplySettlesOne | browser-tools-server/browser-connector.ts:806-862 | a screenshot reply settles one waiter exactly when something is pending: the named request's, else the oldest; it removes only that entry and every other entry keeps its waiter |
| Connector.OnSocket | browser-tools-server/browser-connector.ts:1401 | the listeners registered on a socket |
| Connector.OffSocket | browser-tools-server/browser-connector.ts:1401 | the listeners registered on other sockets |
| Connector.TokenOutcomes | browser-tools-server/browser-connector.ts:1389-1393 | each listener on the socket rejects on an error field and resolves otherwise |
| Connector.AuthResponse | browser-tools-server/browser-connector.ts:1381-1398 | a token response settles and removes every auth listener on its socket |
| Connector.MessageReceived | browser-tools-server/browser-connector.ts:739-867 | unparsable text changes nothing; a message never changes the connection, its id or the request counter, and keeps validity |
| Connector.MainHandlerValid | browser-tools-server/browser-connector.ts:739-867 | the main message handler leaves the connection, its id, the request counter, the monitor and the auth listeners alone, and keeps the state valid |
| Connector.HeartbeatResponseOnlyRefreshes | browser-tools-server/browser-connector.ts:744-748 | a heartbeat response only refreshes the heartbeat clock |
| Connector.CaptureAsWritten | browser-tools-server/browser-connector.ts:1199-1265 | as written, the request id is the clock in milliseconds |
| Connector.CollidingCapturesStrandOne | browser-tools-server/browser-connector.ts:1221-1253 | as written, two captures in the same millisecond share an entry, and when both time out only the first promise is settled |
| Connector.CaptureRequested | browser-tools-server/browser-connector.ts:1199-1265 | without a connection the capture answers 503; otherwise it sends `take-screenshot` with a fresh request id |
| Connector.CaptureRequestedAppends | browser-tools-server/browser-connector.ts:1234 | with fresh ids a capture only appends its own entry |
| Connector.CapturesSettleSeparately | browser-tools-server/browser-connector.ts:1221-1253 | with fresh ids two captures keep two entries and each timer rejects its own promise |
| Connector.CaptureTimeout | browser-tools-server/browser-connector.ts:1241-1253 | a timer finds its entry still pending, removes it and rejects its waiter naming the current connection; otherwise it changes nothing |
| Connector.TimeoutsSettleBoth | browser-tools-server/browser-connector.ts:1241-1253 | the timers of two different pending ids each reject their own waiter |
| Connector.Without | browser-tools-server/browser-connector.ts:1412-1413 | removing a timed-out listener keeps exactly the other listeners |
| Connector.CheckTokenRequest | browser-tools-server/browser-connector.ts:1352-1376 | the auth-token proxy proceeds exactly with all three parameters, a valid storage type and a connection; otherwise it answers 400 or 503 |
| Connector.CheckApiCall | browser-tools-server/browser-connector.ts:1431-1465 | the authenticated API call proceeds exactly when its five parameters are present, the storage type is valid and there is a connection |
| Connector.TokenRequested | browser-tools-server/browser-connector.ts:1401-1409 | a listener is registered on the active socket and `RETRIEVE_AUTH_TOKEN` is sent on it |
| Connector.AuthTimeout | browser-tools-server/browser-connector.ts:1412-1415 | the timer removes a still-waiting listener and rejects it; otherwise it changes nothing |
| Connector.OneResponseSettlesAll | browser-tools-server/browser-connector.ts:1381-1398 | one token response settles every auth request waiting on that socket |
| Connector.TokenProxyReply | browser-tools-server/browser-connector.ts:1418-1427 | a resolved token request answers `{token}`; a timeout answers 500 with the timeout message, an extension error 500 with `String` of the error |
| Connector.ApiUrl | browser-tools-server/browser-connector.ts:1510-1516 | the URL is base plus endpoint, with `?` and the encoded query only when the query is non-empty |
| Connector.ApiHeadersSpec | browser-tools-server/browser-connector.ts:1519-1523 | a header the caller sets overrides the defaults, and `Authorization` otherwise carries `Bearer` and the token |
| Connector.BuildApiRequest | browser-tools-server/browser-connector.ts:1444-1534 | the method defaults to GET, and a body is sent only for POST, PUT and PATCH |
| Connector.CaptureReply | browser-tools-server/browser-connector.ts:1269-1348 | a rejection answers 500 with its message, falsy data 500 with the no-data message, a truthy non-string data, folder, project or file name 500 with the type error; 200 exactly otherwise |
| Connector.CaptureReplySaved | browser-tools-server/browser-connector.ts:1278-1337 | a successful capture reply names the saved file's locations and carries image data only when asked |
| Connector.PageUrl | browser-tools-server/screenshot-service.ts:166-174 | a string URL is handed on as it is, a falsy one as none, and any other truthy value as its `String` form |
| Connector.BrowserConnector.constructor | browser-tools-server/browser-connector.ts:629-639 | the connector starts without a connection and with nothing pending |
| Connector.BrowserConnector.HandleConnectionClose | browser-tools-server/browser-connector.ts:1137-1160 | the state and the rejections are those of a disconnection |
| Connector.BrowserConnector.OnConnection | browser-tools-server/browser-connector.ts:722-737 | a connection is attached as the attach function says |
| Connector.BrowserConnector.OnClose | browser-tools-server/browser-connector.ts:870-877 | a close is handled as the close function says |
| Connector.BrowserConnector.OnReadyState | browser-tools-server/browser-connector.ts:1077 | a ready-state change is applied as the state-change function says |
| Connector.BrowserConnector.OnHeartbeatTick | browser-tools-server/browser-connector.ts:1076-1112 | a tick is handled as the heartbeat function says |
| Connector.BrowserConnector.SettleScreenshotReply | browser-tools-server/browser-connector.ts:806-862 | only the pending map changes, as the reply settlement says |
| Connector.BrowserConnector.AnswerAuthListeners | browser-tools-server/browser-connector.ts:1381-1398 | the auth listeners on the socket are answered as the auth-response function says |
| Connector.BrowserConnector.OnMessage | browser-tools-server/browser-connector.ts:739-867 | a message updates the connector and the log store as the message function says |
| Connector.BrowserConnector.RunMainHandler | browser-tools-server/browser-connector.ts:739-867 | the main handler's effect on the connector and the log store |
| Connector.BrowserConnector.CaptureScreenshot | browser-tools-server/browser-connector.ts:1199-1265 | starting a capture updates the state as the corrected capture says |
| Connector.BrowserConnector.OnCaptureTimeout | browser-tools-server/browser-connector.ts:1241-1253 | a capture timer fires as the timeout function says |
| Connector.BrowserConnector.AuthTokenProxy | browser-tools-server/browser-connector.ts:1352-1409 | a refused request changes nothing; otherwise a listener is added and the token request is sent |
| Connector.BrowserConnector.AuthenticatedApiCall | browser-tools-server/browser-connector.ts:1431-1501 | a refused call changes nothing; otherwise it starts with a token request |
| Connector.BrowserConnector.RequestToken | browser-tools-server/browser-connector.ts:1401-1409 | the listener is registered and the message sent |
| Connector.BrowserConnector.OnAuthTimeout | browser-tools-server/browser-connector.ts:1412-1415 | an auth timer fires as the auth-timeout function says |
| Discovery.DefaultServerPort | browser-tools-mcp/mcp-server.ts:26-50 | the default port is positive: 3025 or a parsed setting |
| Discovery.DefaultServerPortPriority | browser-tools-mcp/mcp-server.ts:26-50 | a positive `BROWSER_TOOLS_PORT` wins, then a positive `.port` file |
| Discovery.DefaultServerHost | browser-tools-mcp/mcp-server.ts:53-61 | a non-empty `BROWSER_TOOLS_HOST` wins, else `127.0.0.1` |
| Discovery.Hosts | browser-tools-mcp/mcp-server.ts:68 | the hosts tried are the default host, `127.0.0.1` and `localhost`, in that order |
| Discovery.FallbackPortsSpec | browser-tools-mcp/mcp-server.ts:75-79 | the fallback ports are 3025 to 3035 without the default, ascending |
| Discovery.PortCandidatesSpec | browser-tools-mcp/mcp-server.ts:71-79 | the candidates start with the default, have no duplicates, hold the default and 3025 to 3035, and number 11 or 12 |
| Discovery.FirstMatchUnique | browser-tools-mcp/mcp-server.ts:85-115 | the first accepting host and port is unique |
| Discovery.SearchPorts | browser-tools-mcp/mcp-server.ts:86-114 | the port loop stops at the first port whose identity carries the signature |
| Discovery.Search | browser-tools-mcp/mcp-server.ts:85-115 | the nested loop finds the first accepting pair in host-major order, or none exists |
| Discovery.FoundHere | browser-tools-mcp/mcp-server.ts:85-107 | the search stops at the first accepting pair after all earlier pairs refused, having made exactly the probes up to it |
| Discovery.Locate | browser-tools-mcp/mcp-server.ts:99-107 | a located server is marked discovered |
| Discovery.DiscoverSpec | browser-tools-mcp/mcp-server.ts:64-118 | discovery succeeds exactly when some pair accepts, and records the first accepting pair |
| Discovery.ProbesBound | browser-tools-mcp/mcp-server.ts:85-115 | discovery makes at most hosts times ports probes, all of them when nothing accepts |
| Discovery.DiscoveryProbes | browser-tools-mcp/mcp-server.ts:64-118 | discovery makes at most three rounds of the candidate ports |
| Discovery.ConnectSpec | browser-tools-mcp/mcp-server.ts:122-178 | a request runs at most twice, never when discovery fails, and only that reply is flagged as an error |
| Discovery.RetrySpec | browser-tools-mcp/mcp-server.ts:142-177 | a second run follows a thrown first run and a successful rediscovery, and its failure is reported without the error flag |
| Discovery.CaughtErrorsNeverRetry | browser-tools-mcp/mcp-server.ts:142-177 | a request that catches its own errors runs at most once |
| Discovery.FixedTargetRetriesOldAddress | browser-tools-mcp/mcp-server.ts:257-266 | a tool that builds its URL before the wrapper retries the old address after a rediscovery |
| Discovery.ToolAdapter.constructor | browser-tools-mcp/mcp-server.ts:21-23 | the adapter starts at `127.0.0.1:3025`, undiscovered |
| Discovery.ToolAdapter.DiscoverServer | browser-tools-mcp/mcp-server.ts:64-118 | discovery reports success exactly when a server is located, records it, and counts its probes |
| Discovery.ToolAdapter.WithServerConnection | browser-tools-mcp/mcp-server.ts:122-178 | the wrapper's state, reply and number of runs are those of the connect function |
| Discovery.CandidatePorts | browser-tools-mcp/mcp-server.ts:71-79 | the port list is built as the candidate list says |
| Discovery.Scan | browser-tools-mcp/mcp-server.ts:85-115 | the nested loop returns the first accepting pair and the number of probes made |
| ApiDocs.SearchSuggestions | browser-tools-mcp/mcp-server.ts:181-226 | the search hints are ten lines, with the two headers at fixed positions |
| ApiDocs.SearchHintsSpec | browser-tools-mcp/mcp-server.ts:189-197 | the singular/plural hint undoes itself for a word not ending in `s`, and the partial hint is a prefix of the right length |
| ApiDocs.MimeType | browser-tools-mcp/mcp-server.ts:688-694 | the MIME type is always an image type, `image/png` for unknown extensions |
| ApiDocs.Extname | browser-tools-mcp/mcp-server.ts:687 | an extension is empty, or a dotted suffix of the path without `/` |
| ApiDocs.ExtnameOfSuffix | browser-tools-mcp/mcp-server.ts:687 | a name ending in a single dotted suffix has that suffix as its extension |
| ApiDocs.ImageMimeTypeSpec | browser-tools-mcp/mcp-server.ts:687-694 | a file's MIME type is that of its lower-cased extension |
| ApiDocs.AllOpsSkipParameters | browser-tools-mcp/mcp-server.ts:972 | no operation comes from a `parameters` entry |
| ApiDocs.ToEndpoint | browser-tools-mcp/mcp-server.ts:1013-1031 | an endpoint keeps the path and upper-cases the method |
| ApiDocs.SelectedSpec | browser-tools-mcp/mcp-server.ts:979-1011 | the selected endpoints are exactly the operations passing every filter |
| ApiDocs.MatchingEndpointsSpec | browser-tools-mcp/mcp-server.ts:954-1058 | the result is a prefix of the matching endpoints in document order: the first `maxResults` (the tool's default is 20), all of them when fewer; with a limit below one, at most the first match of the first path only |
| ApiDocs.TakeSpec | browser-tools-mcp/mcp-server.ts:1042-1053 | the cut is a prefix of at most n items, the whole list when shorter |
| ApiDocs.FindMatchingEndpoints | browser-tools-mcp/mcp-server.ts:954-1058 | the nested loop returns the matching endpoints |
| ApiDocs.ScanPaths | browser-tools-mcp/mcp-server.ts:969-1055 | the outer loop returns the selected operations of the paths it walks, cut to the cap; with a limit below one it walks only the first path |
| ApiDocs.ScanEntries | browser-tools-mcp/mcp-server.ts:971-1048 | the inner loop extends the selection by one path's operations and stops at the cap |
| ApiDocs.LessIrreflexive | browser-tools-mcp/mcp-server.ts:1084 | the default sort order is irreflexive |
| ApiDocs.LessTransitive | browser-tools-mcp/mcp-server.ts:1084 | the default sort order is transitive |
| ApiDocs.LessTotal | browser-tools-mcp/mcp-server.ts:1084 | the default sort order is total on distinct strings |
| ApiDocs.InsertSpec | browser-tools-mcp/mcp-server.ts:1084 | inserting into a strictly sorted list keeps it sorted and adds only the new tag |
| ApiDocs.SortedSetSpec | browser-tools-mcp/mcp-server.ts:1062-1084 | the tag set, sorted, is strictly ascending with the same members |
| ApiDocs.AvailableTagsSpec | browser-tools-mcp/mcp-server.ts:1061-1085 | the tags are sorted and distinct, and hold every named global tag and every operation tag |
| ApiDocs.HintLinesSpec | browser-tools-mcp/mcp-server.ts:1142-1149 | every suggestion of a related hint is offered, and none when no hint is related |
| ApiDocs.ResourceGuess | browser-tools-mcp/mcp-server.ts:1154 | the resource guess keeps only lower-case letters and digits |
| ApiDocs.ResourceGuessSpec | browser-tools-mcp/mcp-server.ts:1154 | the guess holds each lower-case letter and digit of the pattern as often as the pattern does and nothing else, and a pattern made only of them is its own guess |
| ApiDocs.ResourceGuessAppend | browser-tools-mcp/mcp-server.ts:1154 | the guess of a concatenation is the concatenation of the guesses, so the kept characters stay in order |
| ApiDocs.FallbackLines | browser-tools-mcp/mcp-server.ts:1152-1174 | with no related hint the guessed paths and the generic patterns are offered |
| ApiDocs.SimilarInSpec | browser-tools-mcp/mcp-server.ts:1181-1185 | the similar paths are exactly the paths sharing a word longer than two characters with the pattern |
| ApiDocs.RelatedInSpec | browser-tools-mcp/mcp-server.ts:1199-1201 | the related segments are exactly the segments that contain the pattern or that it contains, case aside |
| ApiDocs.CleanedSpec | browser-tools-mcp/mcp-server.ts:1213 | the final list has no duplicates, holds exactly the non-blank suggestions, and keeps first-occurrence order |
| ApiDocs.ApiSuggestionsSpec | browser-tools-mcp/mcp-server.ts:1088-1214 | the suggestions are the de-duplicated non-blank raw suggestions in their first-occurrence order |
| ApiDocs.PlainSurvives | browser-tools-mcp/mcp-server.ts:1213 | a non-empty suggestion starting with `/` or a capital letter survives the cleaning |
| ApiDocs.CommonSuggestionsPlain | browser-tools-mcp/mcp-server.ts:1093-1139 | every suggestion in the table is non-empty and starts with `/` or a capital letter, so none is blank |
| ApiDocs.RelatedHintsOffered | browser-tools-mcp/mcp-server.ts:1142-1149 | every suggestion of a related hint reaches the final list |
| ApiDocs.UnrelatedFallsBack | browser-tools-mcp/mcp-server.ts:1152-1174 | with no related hint the generic patterns and `/api/<guess>` reach the final list |
| ApiDocs.CommonHintsOffered | browser-tools-mcp/mcp-server.ts:1093-1149 | for the real table, every suggestion of a related hint is offered |
| ApiDocs.EmptyPatternOffersAll | browser-tools-mcp/mcp-server.ts:1142-1144 | an empty pattern is related to every hint, so every suggestion is offered |
| Extension.IdentityChecks | chrome-extension/background.js:80-104 | the validator accepts exactly an ok reply carrying the signature; the connection probe ignores the status; unreachable or unparsable replies are refused |
| Extension.BackoffValues | chrome-extension/background.js:679 | the back-off is 2, 4, 8, 16 and 30 seconds for attempts 1 to 5, never above 30 seconds |
| Extension.ScheduleReconnectSpec | chrome-extension/background.js:672-683 | at five attempts nothing is scheduled; otherwise the counter goes up by one and the delay is the back-off |
| Extension.StepCounter | chrome-extension/background.js:555-683 | an event other than an opened socket never lowers the attempt counter, raises it by at most one, and keeps it within five |
| Extension.ReconnectsBounded | chrome-extension/background.js:672-683 | without a successful open, at most five reconnects are ever scheduled |
| Extension.PortCycle | chrome-extension/background.js:564-662 | when all three ports refuse a new cycle, ports 3026, 3025 and 3027 are probed in that order and then a reconnect is scheduled |
| Extension.RunRefusedRetry | chrome-extension/background.js:651-661 | a refused probe followed by its cycle's retry timer moves that cycle to its next port |
| Extension.RunSnoc | chrome-extension/background.js:555-683 | a run extended by one event takes that event's step |
| Extension.CycleStarts | chrome-extension/background.js:555-574 | a reconnect starts a new cycle at the first port, 3026 |
| Extension.CycleMoves | chrome-extension/background.js:651-661 | a refused probe before a cycle's last port leads to a probe of its next port |
| Extension.CycleEnds | chrome-extension/background.js:567-571 | a refused probe of a cycle's last port schedules a reconnect |
| Extension.CyclesIndependent | chrome-extension/background.js:555-662 | each connect call keeps its own port index: a reconnect adds a cycle at the first port, and any other event moves at most its own cycle, by one |
| Extension.OverlappingCyclesKeepTheirPorts | chrome-extension/background.js:555-662 | a reconnect during a cycle probes 3026 for the new cycle, and the older cycle's retry still goes on to 3025 |
| Extension.ProbeOutcomes | chrome-extension/background.js:578-661 | an accepted probe opens a socket on its port; a refused one moves its cycle to the next port; a socket error drops the socket |
| Extension.BeganSpec | chrome-extension/background.js:692-711 | only XHR and fetch requests are tracked, with the request body and no status yet (0); nothing is forwarded |
| Extension.HeadersSpec | chrome-extension/background.js:714-736 | header events touch only a tracked request's entry |
| Extension.SettleSpec | chrome-extension/background.js:739-775 | completion or failure forwards a tracked request once with its final status (0 on failure) and forgets it |
| Extension.ForwardedOnce | chrome-extension/background.js:692-775 | over any run, forwarded plus pending never outnumber pending-at-start plus requests started |
| Extension.CurrentTabUrlSpec | chrome-extension/background.js:124-173 | a cached URL wins, then the tab's own URL, then the active tab's, caching what was found |
| Extension.TabUpdatedSpec | chrome-extension/background.js:176-197 | after an update the tab's cached URL is the last URL pushed, and an update without a URL changes nothing |
| Extension.FirstOk | chrome-extension/background.js:244-290 | the first attempt from k whose POST succeeds, or 3 |
| Extension.UrlUpdateSpec | chrome-extension/background.js:224-298 | an empty URL posts nothing; success means some of the three attempts succeeded; failure means all three failed |
| Extension.UpdateServerWithUrl | chrome-extension/background.js:224-298 | the retry loop ends with the count and outcome the URL-update function gives |
| Extension.Background.constructor | chrome-extension/background.js:549-552 | the script starts with no connection, no pending requests and an empty tab cache |
| Extension.Background.ScheduleReconnect | chrome-extension/background.js:672-683 | the connection state is rescheduled and nothing else changes |
| Extension.Background.TryConnection | chrome-extension/background.js:567-575 | the next probe of a cycle is chosen as the probe function says |
| Extension.Background.ConnectToBrowserConnector | chrome-extension/background.js:555-670 | a connection attempt clears the timer and starts a new cycle at the first port |
| Extension.Background.OnLinkEvent | chrome-extension/background.js:555-683 | a connection event updates the connection state as one step says |
| Extension.Background.OnRequestEvent | chrome-extension/background.js:692-775 | a request event updates the monitor as one step says |
| Extension.Background.GetCurrentTabUrl | chrome-extension/background.js:124-173 | the lookup updates the cache as the tab-URL function says |
| Extension.Background.OnTabUpdated | chrome-extension/background.js:176-197 | the cache and pushed URLs are those of a tab update |
| Extension.Background.OnTabActivated | chrome-extension/background.js:200-221 | activating a tab with a URL caches and pushes that URL |
| Extension.Background.OnTabRemoved | chrome-extension/background.js:301-303 | the closed tab leaves the cache and nothing else changes |

## Left out

- Case mapping (`toLowerCase`, `toUpperCase`) is ASCII-only. Non-ASCII letters keep their case.
- Numbers are integers. Floating point, `NaN` and coerced numeric strings are reduced to an optional integer.
- `JSON.parse` and `JSON.stringify` are parameters. The size of a log is a parameter function standing for `JSON.stringify(log).length`.
- `new RegExp(apiPattern, 'i')` in `findMatchingEndpoints` is a predicate parameter. The model does not interpret regular expressions.
- `Object.entries` putting integer-like keys first is not modelled. Objects keep insertion order.
- `Array.prototype.sort` compares UTF-16 code units. The model compares characters, which agrees for the Basic Multilingual Plane.
- Json.TruncateString: the length test and the cut count characters (Unicode scalar values), where the source counts UTF-16 code units (`.length`, `substring`, browser-connector.ts:253-254). The two agree only on text within the Basic Multilingual Plane. A character outside it counts once in the model and twice in the source, and a cut through a surrogate pair, which leaves a lone surrogate in the source, cannot occur in the model.
- Json.TruncateBounds: the bound of max plus the marker counts characters (Unicode scalar values), where the source counts UTF-16 code units. The two agree only on text within the Basic Multilingual Plane. A character outside it counts once in the model and twice in the source, and a cut through a surrogate pair, which leaves a lone surrogate in the source, cannot occur in the model.
- Json.TruncateFits: the test of whether a string fits counts characters (Unicode scalar values), where the source counts UTF-16 code units. The two agree only on text within the Basic Multilingual Plane. A character outside it counts once in the model and twice in the source, and a cut through a surrogate pair, which leaves a lone surrogate in the source, cannot occur in the model.
- Json.TruncatedData: the bounds and the fixpoint count characters (Unicode scalar values), where the source counts UTF-16 code units. The two agree only on text within the Basic Multilingual Plane. A character outside it counts once in the model and twice in the source, and a cut through a surrogate pair, which leaves a lone surrogate in the source, cannot occur in the model.
- Json.ProcessJsonString: the string bounds of the re-serialised data count characters (Unicode scalar values), where the source counts UTF-16 code units. The two agree only on text within the Basic Multilingual Plane. A character outside it counts once in the model and twice in the source, and a cut through a surrogate pair, which leaves a lone surrogate in the source, cannot occur in the model.
- Screenshot.SanitizeFilenameSpec: the cut to 100 counts characters (Unicode scalar values), where the source counts UTF-16 code units (`substring`, screenshot-service.ts:394). The two agree only on text within the Basic Multilingual Plane. A character outside it counts once in the model and twice in the source, and a cut through a surrogate pair, which leaves a lone surrogate in the source, cannot occur in the model.
- Screenshot.SanitizeDirectoryNameSpec: the cut to 50 counts characters (Unicode scalar values), where the source counts UTF-16 code units (`substring`, screenshot-service.ts:383). The two agree only on text within the Basic Multilingual Plane. A character outside it counts once in the model and twice in the source, and a cut through a surrogate pair, which leaves a lone surrogate in the source, cannot occur in the model.
- ApiDocs.SearchHintsSpec: the length of the partial hint counts characters (Unicode scalar values), where the source counts UTF-16 code units (`length`, `slice`, mcp-server.ts:190, 197). The two agree only on text within the Basic Multilingual Plane. A character outside it counts once in the model and twice in the source, and a cut through a surrogate pair, which leaves a lone surrogate in the source, cannot occur in the model.
- `path.extname` edge cases beyond a final dotted suffix are not modelled, such as names starting with a dot.
- ApiDocs.ToEndpoint: carries path, method, operation id, summary, description, tags, parameters, security and the derived flags. The `requestBody`, `responses` and `servers` fields and the Swagger 2 fields are not modelled.
- ApiDocs.Keep: a null operation or path item counts as absent, where the search throws and the tool answers "Failed to search API documentation". So do a tag that is not a string under a tag filter and a truthy `tags` that is not an array. The throws are at `op.operationId` (mcp-server.ts:976), `Object.entries(null)` (971), `t.toLowerCase()` and `.some` (991). The model sees no operation or no operations, skips such a tag, and excludes an operation whose `tags` is not an array.
- ApiDocs.Keep: only objects have entries in the model, where `Object.entries` also enumerates the indices of an array or a string (mcp-server.ts:970-971). The source finds an endpoint with path `0` and method `GET` in `"paths": [{"get": {}}]`, and operations with methods `0` and `1` in a path item `"ab"`; the model finds none. These cases do not throw.
- ApiDocs.Keep: only arrays have a length in the model, where `.length` also reads a string's length (mcp-server.ts:1001, 1007, 1027-1029). The source passes `includeAuth` for `"security": "x"` and counts a string's characters as parameters; the model treats both as empty. `Object.keys` of an array `responses` counts its indices, and those of a string its characters (1030), where the model's response count is that of an object's keys only.
- ApiDocs.Keep: a truthy non-string `operationId`, `summary` or `description` is used by the search, converted to its string form by the regular expression. The model falls back to `<method> <path>` and skips such a summary or description.
- ApiDocs.AvailableTags: keeps only string tags, where `getAvailableTags` adds any truthy global `tag.name` and every item of an operation's `tags` array, whatever its kind, and throws on a null operation or path item and on a null global tag (`tag.name`, mcp-server.ts:1067). An array or string `paths` or path item is enumerated by index there too (1073-1074); the model gives it no operations.
- Timers, `setTimeout`, `setInterval` and `Date.now` are events and parameters. The extension's retry pauses are not modelled as time.
- `fetch`, WebSocket sends and socket close codes are outputs or oracle parameters. Network failure is an answer of the oracle.
- A browser that fires `close` after `error` is modelled as two separate events.
- The audits (`setupAuditEndpoint`, Lighthouse), `handleScreenshot`, `getUrlForAudit` and `urlRequestCallbacks` are not modelled. Neither are disk writes, directory creation, `exec` and the macOS auto-paste.
- `shutdown` and the process start-up (listening, signal handlers) are not modelled.
- In the extension, the popup message handler and `processTabForAudit` are not modelled. Neither are `retestConnectionOnRefresh`, `retrieveAuthToken`, `captureAndSendScreenshot` or the WebSocket `onmessage` auth path.
- Extension.BeganSpec: a tracked request holds status 0 until its headers arrive, where the source leaves the status undefined. Only completion or failure forwards a request, so nothing forwarded differs.
- `sendNetworkRequestToBrowserConnector` is modelled only as the forwarded list. Its payload and POST are not modelled.
- The `chrome.storage` read of the relay address is not modelled.
- Discovery.DefaultServerPort: the `.port` file is a parameter. A read error counts as no file.
- Screenshot.ResolveUrlCategory: URL parsing is a parameter returning hostname and pathname. WHATWG URL parsing is not modelled.
- Screenshot.GitProjectName: the remote URL is a parameter, and a failing `git` command is `None`.
- Screenshot.GenerateFilenameShape: the ISO timestamp is a parameter string.
- Connector.Attached: the `Math.random` suffix of the connection id is a parameter.
- Connector.ApiUrl: `URLSearchParams` encoding and the display of template values are parameters.
- LogStore.LogStore.GetNetworkRequestDetails: the `includeTimestamp`, `timeStart`, `timeEnd`, `orderBy`, `orderDirection` and `limit` query parameters are not modelled, because the relay ignores them.
- LogStore.SortByTimestamp: the sort key is a numeric timestamp itself, and any other timestamp sorts as 0. `new Date(...)` of a date string and the `NaN` of an invalid one are not modelled; the extension sends `Date.now()` numbers (chrome-extension/background.js:262, 702).
- A handler that throws is answered 500, with the body `THROWN_REPLY` standing for Express's error page, which is not modelled.
- LogStore.LogStore.PostCurrentUrl: whether a timestamp string parses as a date is a parameter (`dateParses`). Numbers are valid within the `Date` range of 8.64e15 milliseconds either side of the epoch.
- Screenshot.PathJoin: `path.join` is modelled without its final normalisation, so `.` and `..` segments and doubled slashes are kept.
- Screenshot.ResolveBaseDirectory: returns the configured or default folder as given, without `path.join` normalisation, and decides absoluteness by the POSIX rule.
- Screenshot.SaveScreenshotPath: the file path is the four parts joined by `/` without `path.join` normalisation.
- Screenshot.IsAbsolute: the POSIX rule only, a leading `/`. Windows drive and UNC paths are not absolute in the model.
- Connector.CaptureReply: the message of the runtime's `TypeError` for a non-string value is a parameter (`typeErrorText`). A failed file write is not modelled: the 200 reply assumes the write succeeds.
- Connector.PageUrl: the service tests the raw value (`!url`, `url === "about:blank"`) before it converts it. An array whose `String` form is empty or `about:blank` is therefore read differently: the service gives `uncategorized` or a parsed category, the model `general`.
- The authenticated API call after the token arrives is not modelled: the `fetch`, its reply, and the rejection text of its own token timeout ("Timeout waiting for auth token from browser extension"). Only its checks and its token request are modelled.

## Findings

| source | as written | input that shows it | evidently intended | confidence | as-written member | corrected member |
|---|---|---|---|---|---|---|
| browser-tools-server/browser-connector.ts:198-224 | on `EADDRINUSE` the handler increments `currentPort` and resolves, and then the loop body returns `currentPort` | start port 3025 in use: 3026 is returned without ever being tried | return only a port whose test server reached `listening`, and keep looping after an in-use port | not executed | Ports.InUseReturnsUntriedPort | Ports.GetAvailablePort |
| browser-tools-server/browser-connector.ts:47-126 | the test `inputPath.includes("\\")` runs before the drive-letter test, so every drive path takes the slash-normalising branch | `C:\Users\me` on linux gives `C:/Users/me`, and the drive branch (116-126) never runs | drive paths become `/Users/me` as the drive branch says | not executed | Paths.DriveBranchUnreachable | Paths.DriveFirstSpec |
| browser-tools-server/browser-connector.ts:1221-1253 | the request id is `Date.now().toString()`, and `screenshotCallbacks.set` overwrites an entry with the same id | two captures within one millisecond: the second overwrites the first's entry, and the second promise never settles | request ids that cannot repeat, so each capture keeps its own entry and is settled | not executed | Connector.CollidingCapturesStrandOne | Connector.CapturesSettleSeparately |
