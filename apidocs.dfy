/**
 * The API-documentation helpers of the MCP tool process: search hints for
 * the network-request tool, the endpoint filter over an OpenAPI/Swagger
 * document, the sorted list of tags, the suggestions offered when no
 * endpoint matches, and the image MIME type chosen by file extension.
 *
 * The Swagger document is a parsed JSON value. The case-insensitive regular
 * expression built from the search pattern is a predicate on strings.
 */
module ApiDocs {
  import opened Wrappers
  import Text
  import opened Json

  // ------------------------------------------------------- search hints

  const STRATEGY_HEADER: string := "\U{1F50D} **Search Strategy Suggestions:**"
  const PATTERNS_HEADER: string := "\U{1F4A1} **Common API Patterns:**"
  const BULLET: string := "   • "

  /** The other grammatical number of a lower-cased term: a trailing 's'
      dropped, or one added. */
  function Alternate(term: string): string {
    if Text.EndsWith(term, "s") then term[..|term| - 1] else term + "s"
  }

  /** `term.slice(0, Math.max(3, term.length - 2))`. */
  function PartialTerm(term: string): string {
    var n := if |term| - 2 > 3 then |term| - 2 else 3;
    if n <= |term| then term[..n] else term
  }

  /** `generateSearchSuggestions`. */
  function SearchSuggestions(searchTerm: string): (r: seq<string>)
    ensures |r| == 10 && r[0] == STRATEGY_HEADER && r[3] == "" && r[4] == PATTERNS_HEADER
  {
    var term := Text.Lower(searchTerm);
    var variant :=
      if Text.EndsWith(term, "s") then BULLET + "Try singular form: \"" + Alternate(term) + "\""
      else BULLET + "Try plural form: \"" + Alternate(term) + "\"";
    [ STRATEGY_HEADER,
      variant,
      BULLET + "Try partial match: \"" + PartialTerm(term) + "\"",
      "",
      PATTERNS_HEADER,
      BULLET + "\"api\" - Find all API calls",
      BULLET + "\"get-\" - Find getter endpoints",
      BULLET + "\"list\" - Find list/collection endpoints",
      BULLET + "\"auth\" - Find authentication calls",
      BULLET + "you can use tags for filtering api's" ]
  }

  /** The singular and plural hints are inverse: the hint offered for the
      hinted form of a term that does not end in 's' is the term itself.
      The partial-match hint is a prefix of the lower-cased term, of at
      least three characters when the term has them and two shorter when
      it is longer than five. */
  lemma SearchHintsSpec(searchTerm: string)
    ensures var term := Text.Lower(searchTerm);
      && (!Text.EndsWith(term, "s") ==> Alternate(Alternate(term)) == term)
      && Text.StartsWith(term, PartialTerm(term))
      && |PartialTerm(term)| == (if |term| <= 3 then |term| else if |term| <= 5 then 3 else |term| - 2)
  {
    var term := Text.Lower(searchTerm);
    if !Text.EndsWith(term, "s") {
      var plural := term + "s";
      assert plural[|plural| - 1..] == "s";
      assert plural[..|plural| - 1] == term;
    }
  }

  // ------------------------------------------------------------ MIME type

  /** The MIME type the image tool reports for a lower-cased extension. */
  function MimeType(ext: string): (r: string)
    ensures Text.StartsWith(r, "image/")
    ensures ext !in {".jpg", ".jpeg", ".gif", ".webp", ".svg", ".bmp", ".ico"} ==> r == "image/png"
  {
    if ext == ".jpg" || ext == ".jpeg" then "image/jpeg"
    else if ext == ".gif" then "image/gif"
    else if ext == ".webp" then "image/webp"
    else if ext == ".svg" then "image/svg+xml"
    else if ext == ".bmp" then "image/bmp"
    else if ext == ".ico" then "image/x-icon"
    else "image/png"
  }

  /** `path.basename` for a POSIX path without a trailing slash: what
      follows the last '/'. */
  function Basename(path: string): (r: string)
    ensures Text.EndsWith(path, r) && '/' !in r
  {
    match Text.LastIndexOf(path, '/')
    case Some(k) => path[k + 1..]
    case None => path
  }

  /** `path.extname` for a POSIX path without a trailing slash: from the
      last '.' of the last component, unless that dot starts the component. */
  function Extname(path: string): (r: string)
    ensures r == "" || (r[0] == '.' && '/' !in r && Text.EndsWith(path, r))
  {
    var base := Basename(path);
    match Text.LastIndexOf(base, '.')
    case Some(d) =>
      if d == 0 then ""
      else
        SuffixOfSuffix(path, base, d);
        base[d..]
    case None => ""
  }

  /** A suffix of a suffix of `s` is a suffix of `s`. */
  lemma SuffixOfSuffix(s: string, t: string, d: nat)
    requires Text.EndsWith(s, t) && d <= |t|
    ensures Text.EndsWith(s, t[d..])
    ensures forall c :: c in t[d..] ==> c in t
  {
    assert t[d..] == s[|s| - |t| + d..];
  }

  /** The MIME type of an image file, from its lower-cased extension. */
  function ImageMimeType(path: string): string {
    MimeType(Text.Lower(Extname(path)))
  }

  /** A file named `<stem><ext>`, where the stem does not end the directory
      part and the extension is a single dotted suffix, has that extension;
      so `photo.JPG` is served as JPEG. */
  lemma ExtnameOfSuffix(stem: string, ext: string)
    requires stem != [] && stem[|stem| - 1] != '/'
    requires |ext| >= 1 && ext[0] == '.' && '.' !in ext[1..] && '/' !in ext
    ensures Extname(stem + ext) == ext
  {
    var path := stem + ext;
    var base := Basename(path);
    BasenameLonger(stem, ext);
    var d := |base| - |ext|;
    assert base[d..] == ext;
    LastDot(base, d);
  }

  lemma BasenameLonger(stem: string, ext: string)
    requires stem != [] && stem[|stem| - 1] != '/' && '/' !in ext
    ensures |Basename(stem + ext)| > |ext|
  {
    var path := stem + ext;
    assert forall m :: |stem| - 1 <= m < |path| ==> path[m] != '/' by {
      forall m | |stem| - 1 <= m < |path| ensures path[m] != '/' {
        if m >= |stem| {
          assert path[m] == ext[m - |stem|];
        }
      }
    }
    match Text.LastIndexOf(path, '/')
    case Some(k) =>
      assert path[k] == '/';
    case None =>
  }

  lemma LastDot(base: string, d: nat)
    requires d < |base| && base[d] == '.' && '.' !in base[d + 1..]
    ensures Text.LastIndexOf(base, '.') == Some(d)
  {
    assert '.' in base;
    var r := Text.LastIndexOf(base, '.').value;
    assert forall m :: r < m < |base| ==> base[m] != '.' by {
      forall m | r < m < |base| ensures base[m] != '.' {
        assert base[m] == base[r + 1..][m - r - 1];
      }
    }
    assert forall m :: d < m < |base| ==> base[m] != '.' by {
      forall m | d < m < |base| ensures base[m] != '.' {
        assert base[m] == base[d + 1..][m - d - 1];
      }
    }
  }

  /** The type follows the file's own extension, whatever its case: a
      file named `<stem><ext>` is served as the type of the lower-cased
      `ext`, so `photo.JPG` is JPEG and `scan.tiff` falls back to PNG. */
  lemma ImageMimeTypeSpec(stem: string, ext: string)
    requires stem != [] && stem[|stem| - 1] != '/'
    requires |ext| >= 1 && ext[0] == '.' && '.' !in ext[1..] && '/' !in ext
    ensures ImageMimeType(stem + ext) == MimeType(Text.Lower(ext))
  {
    ExtnameOfSuffix(stem, ext);
  }

  // ------------------------------------------------------- endpoint search

  /** The filters of `findMatchingEndpoints`; an absent string filter is "". */
  datatype Filters = Filters(apiPattern: string, tag: string, verb: string,
                             includeAuth: bool, hasParameters: bool, maxResults: int)

  /** One operation of the document: its path, the key it is listed under
      (the HTTP method) and the operation object. */
  datatype Operation = Operation(path: string, verb: string, op: Json)

  /** What the search reports for an operation. */
  datatype Endpoint = Endpoint(path: string, verb: string, operationId: string,
                               summary: string, description: string, tags: seq<Json>,
                               hasAuth: bool, hasParams: bool, parameterCount: nat, responseCount: nat)

  /** `Object.entries(v)` for an object; nothing for any other value. */
  function Entries(v: Json): seq<(string, Json)> {
    if v.JObj? then v.fields else []
  }

  /** A string property, "" when absent or not a string. */
  function Str(o: Option<Json>): string {
    if o.Some? && o.value.JStr? then o.value.s else ""
  }

  /** An array property, empty when absent or not an array. */
  function Arr(o: Option<Json>): seq<Json> {
    if o.Some? && o.value.JArr? then o.value.items else []
  }

  /** The path entries of the document, when `paths` is truthy. */
  function PathsOf(swagger: Json): seq<(string, Json)> {
    var p := Field(swagger, "paths");
    if Present(p) then Entries(p.value) else []
  }

  /** `xs.flatMap(g)`. */
  function Concat<A, B>(xs: seq<A>, g: A -> seq<B>): seq<B>
    decreases |xs|
  {
    if xs == [] then [] else Concat(xs[..|xs| - 1], g) + g(xs[|xs| - 1])
  }

  lemma {:induction false} ConcatAppend<A, B>(a: seq<A>, b: seq<A>, g: A -> seq<B>)
    ensures Concat(a + b, g) == Concat(a, g) + Concat(b, g)
    decreases |b|
  {
    if b != [] {
      var b' := b[..|b| - 1];
      assert (a + b)[..|a + b| - 1] == a + b';
      ConcatAppend(a, b', g);
    } else {
      assert a + b == a;
    }
  }

  lemma ConcatSnoc<A, B>(a: seq<A>, x: A, g: A -> seq<B>)
    ensures Concat(a + [x], g) == Concat(a, g) + g(x)
  {
    assert (a + [x])[..|a|] == a;
  }

  lemma ConcatAround<A, B>(xs: seq<A>, i: nat, g: A -> seq<B>)
    requires i < |xs|
    ensures Concat(xs, g) == Concat(xs[..i], g) + g(xs[i]) + Concat(xs[i + 1..], g)
  {
    SplitAt(xs, i);
    ConcatAppend(xs[..i] + [xs[i]], xs[i + 1..], g);
    ConcatSnoc(xs[..i], xs[i], g);
  }

  lemma SplitAt<A>(xs: seq<A>, i: nat)
    requires i < |xs|
    ensures xs == xs[..i] + [xs[i]] + xs[i + 1..]
    ensures xs[..i + 1] == xs[..i] + [xs[i]]
  {
  }

  lemma {:induction false} ConcatMembers<A, B>(xs: seq<A>, g: A -> seq<B>)
    ensures forall y :: y in Concat(xs, g) ==> exists x :: x in xs && y in g(x)
    ensures forall x, y :: x in xs && y in g(x) ==> y in Concat(xs, g)
    ensures (forall x :: x in xs ==> |g(x)| <= 1) ==> |Concat(xs, g)| <= |xs|
    decreases |xs|
  {
    if xs != [] {
      var init := xs[..|xs| - 1];
      ConcatMembers(init, g);
      assert xs == init + [xs[|xs| - 1]];
    }
  }

  /** The operation an entry of a path item stands for; the shared
      `parameters` entry stands for none. */
  function EntryOps(path: string, entry: (string, Json)): seq<Operation> {
    if entry.0 == "parameters" then [] else [Operation(path, entry.0, entry.1)]
  }

  function EntryOpsOf(path: string): ((string, Json)) -> seq<Operation> {
    entry => EntryOps(path, entry)
  }

  /** The operations listed under one path, in document order. */
  function OpsOf(path: string, entries: seq<(string, Json)>): seq<Operation> {
    Concat(entries, EntryOpsOf(path))
  }

  function PathOps(entry: (string, Json)): seq<Operation> {
    OpsOf(entry.0, Entries(entry.1))
  }

  /** Every operation of every path, in document order. */
  function AllOps(paths: seq<(string, Json)>): seq<Operation> {
    Concat(paths, PathOps)
  }

  /** No operation comes from a `parameters` entry. */
  lemma AllOpsSkipParameters(paths: seq<(string, Json)>)
    ensures forall o :: o in AllOps(paths) ==> o.verb != "parameters"
  {
    ConcatMembers(paths, PathOps);
    forall o | o in AllOps(paths) ensures o.verb != "parameters" {
      var e :| e in paths && o in PathOps(e);
      ConcatMembers(Entries(e.1), EntryOpsOf(e.0));
    }
  }

  function OperationId(o: Operation): string {
    var id := Str(Field(o.op, "operationId"));
    if id != "" then id else o.verb + " " + o.path
  }

  predicate HasSecurity(o: Operation) {
    |Arr(Field(o.op, "security"))| > 0
  }

  predicate HasParams(o: Operation) {
    |Arr(Field(o.op, "parameters"))| > 0 || Present(Field(o.op, "requestBody")) || '{' in o.path
  }

  /** Some tag of the operation contains the filter tag, both lower-cased. */
  predicate TagHit(o: Operation, tag: string) {
    exists t | t in Arr(Field(o.op, "tags")) :: t.JStr? && Text.Contains(Text.Lower(t.s), Text.Lower(tag))
  }

  /** The pattern matches the path, the operation id, or a non-empty
      summary or description. */
  predicate PatternHit(o: Operation, matches: string -> bool) {
    var summary := Str(Field(o.op, "summary"));
    var description := Str(Field(o.op, "description"));
    || matches(o.path) || matches(OperationId(o))
    || (summary != "" && matches(summary))
    || (description != "" && matches(description))
  }

  /** Every enabled filter holds for the operation. */
  predicate Keep(f: Filters, matches: string -> bool, o: Operation) {
    && (f.apiPattern != "" ==> PatternHit(o, matches))
    && (f.tag != "" ==> TagHit(o, f.tag))
    && (f.verb != "" ==> Text.Upper(o.verb) == Text.Upper(f.verb))
    && (f.includeAuth ==> HasSecurity(o))
    && (f.hasParameters ==> HasParams(o))
  }

  function ToEndpoint(o: Operation): (e: Endpoint)
    ensures e.path == o.path && e.verb == Text.Upper(o.verb)
  {
    var responses := Field(o.op, "responses");
    Endpoint(o.path, Text.Upper(o.verb), OperationId(o),
             Str(Field(o.op, "summary")), Str(Field(o.op, "description")),
             Arr(Field(o.op, "tags")), HasSecurity(o), HasParams(o),
             |Arr(Field(o.op, "parameters"))|,
             if responses.Some? then |Entries(responses.value)| else 0)
  }

  /** The endpoint of an operation that is kept, none otherwise. */
  function KeepWith(f: Filters, matches: string -> bool): Operation -> bool {
    o => Keep(f, matches, o)
  }

  function PickBy(keep: Operation -> bool): Operation -> seq<Endpoint> {
    o => if keep(o) then [ToEndpoint(o)] else []
  }

  /** The endpoints of the operations `keep` accepts, in order. */
  function SelectedBy(keep: Operation -> bool, ops: seq<Operation>): seq<Endpoint> {
    Concat(ops, PickBy(keep))
  }

  /** The endpoints of the operations that pass the filters, in order. */
  function Selected(f: Filters, matches: string -> bool, ops: seq<Operation>): seq<Endpoint> {
    SelectedBy(KeepWith(f, matches), ops)
  }

  /** The most endpoints the search returns: `maxResults`, and one when the
      limit is below one, because the inner loop tests
      `matches.length >= maxResults` only after it adds an endpoint. The
      outer loop's test after each path is `Scope`. */
  function Cap(f: Filters): nat {
    if f.maxResults >= 1 then f.maxResults else 1
  }

  /** The paths the search walks. The same test also runs after each path,
      where with a limit below one it always holds: only the first path is
      searched. */
  function Scope(paths: seq<(string, Json)>, f: Filters): (r: seq<(string, Json)>)
    ensures f.maxResults >= 1 ==> r == paths
    ensures f.maxResults < 1 ==> r == paths[..if |paths| < 1 then |paths| else 1]
  {
    if f.maxResults >= 1 || |paths| <= 1 then paths else paths[..1]
  }

  function Take<T>(s: seq<T>, n: nat): seq<T> {
    if |s| <= n then s else s[..n]
  }

  /** `findMatchingEndpoints` as a value: the kept operations' endpoints of
      the paths searched, in document order, cut at the limit. */
  function MatchingEndpoints(swagger: Json, f: Filters, matches: string -> bool): seq<Endpoint> {
    Take(Selected(f, matches, AllOps(Scope(PathsOf(swagger), f))), Cap(f))
  }

  /** An endpoint is selected exactly when it comes from a kept operation. */
  lemma SelectedSpec(f: Filters, matches: string -> bool, ops: seq<Operation>)
    ensures forall e :: e in Selected(f, matches, ops) ==>
      exists o :: o in ops && Keep(f, matches, o) && e == ToEndpoint(o)
    ensures forall o :: o in ops && Keep(f, matches, o) ==> ToEndpoint(o) in Selected(f, matches, ops)
    ensures |Selected(f, matches, ops)| <= |ops|
  {
    var g := PickBy(KeepWith(f, matches));
    ConcatMembers(ops, g);
    forall e | e in Selected(f, matches, ops)
      ensures exists o :: o in ops && Keep(f, matches, o) && e == ToEndpoint(o)
    {
      var o :| o in ops && e in g(o);
    }
    forall o | o in ops && Keep(f, matches, o) ensures ToEndpoint(o) in Selected(f, matches, ops) {
      assert ToEndpoint(o) in g(o);
    }
  }

  /** The search returns at most the limit of endpoints, each built from an
      operation that passes every enabled filter and is not a `parameters`
      entry, in document order (a prefix of all kept operations' endpoints);
      with a limit of one or more, when it returns fewer than the limit it
      returns every one. With a limit below one it returns the first kept
      endpoint of the first path, or nothing when that path has none, even
      if later paths do. */
  lemma MatchingEndpointsSpec(swagger: Json, f: Filters, matches: string -> bool)
    ensures var r := MatchingEndpoints(swagger, f, matches);
      var all := Selected(f, matches, AllOps(PathsOf(swagger)));
      && |r| <= Cap(f) && (f.maxResults >= 1 ==> |r| <= f.maxResults)
      && |r| <= |all| && r == all[..|r|]
      && (f.maxResults >= 1 && |r| < f.maxResults ==> r == all)
    ensures f.maxResults < 1 && PathsOf(swagger) == [] ==> MatchingEndpoints(swagger, f, matches) == []
    ensures f.maxResults < 1 && PathsOf(swagger) != [] ==>
      MatchingEndpoints(swagger, f, matches) == Take(Selected(f, matches, PathOps(PathsOf(swagger)[0])), 1)
    ensures forall e :: e in MatchingEndpoints(swagger, f, matches) ==>
      exists o :: o in AllOps(PathsOf(swagger)) && o.verb != "parameters" && Keep(f, matches, o) && e == ToEndpoint(o)
  {
    var paths := PathsOf(swagger);
    var ops := AllOps(paths);
    var keep := KeepWith(f, matches);
    var r := MatchingEndpoints(swagger, f, matches);
    var all := Selected(f, matches, ops);
    assert r == Take(SelectedBy(keep, AllOps(Scope(paths, f))), Cap(f));
    assert all == SelectedBy(keep, ops);
    MatchingPrefix(paths, f, keep);
    if f.maxResults < 1 && paths != [] {
      FirstPathOnly(paths, f);
    }
    SelectedSpec(f, matches, ops);
    AllOpsSkipParameters(paths);
    forall e | e in r ensures e in all {
      assert r == all[..|r|];
    }
  }

  /** The search's result begins the endpoints of all paths, and is all of
      them when it is shorter than a limit of one or more. */
  lemma MatchingPrefix(paths: seq<(string, Json)>, f: Filters, keep: Operation -> bool)
    ensures var all := SelectedBy(keep, AllOps(paths));
      var r := Take(SelectedBy(keep, AllOps(Scope(paths, f))), Cap(f));
      && |r| <= Cap(f) && |r| <= |all| && r == all[..|r|]
      && (f.maxResults >= 1 && |r| < f.maxResults ==> r == all)
  {
    TakeSpec(SelectedBy(keep, AllOps(Scope(paths, f))), Cap(f));
    ScopePrefix(paths, f, keep);
  }

  /** With a limit below one only the first path's endpoints count. */
  lemma FirstPathOnly(paths: seq<(string, Json)>, f: Filters)
    requires f.maxResults < 1 && paths != []
    ensures AllOps(Scope(paths, f)) == PathOps(paths[0])
  {
    assert Scope(paths, f) == [] + [paths[0]];
    ConcatSnoc([], paths[0], PathOps);
  }

  /** The endpoints of the paths searched begin the endpoints of all
      paths. */
  lemma ScopePrefix(paths: seq<(string, Json)>, f: Filters, keep: Operation -> bool)
    ensures var all := SelectedBy(keep, AllOps(paths));
      var scoped := SelectedBy(keep, AllOps(Scope(paths, f)));
      |scoped| <= |all| && scoped == all[..|scoped|]
  {
    var scope := Scope(paths, f);
    SplitTake(paths, |scope|);
    ConcatAppend(scope, paths[|scope|..], PathOps);
    ConcatAppend(AllOps(scope), AllOps(paths[|scope|..]), PickBy(keep));
  }

  lemma TakeSpec<T>(s: seq<T>, n: nat)
    ensures |Take(s, n)| <= n && Take(s, n) == s[..|Take(s, n)|]
    ensures |Take(s, n)| < n ==> Take(s, n) == s
    ensures forall x :: x in Take(s, n) ==> x in s
  {
    assert s[..|s|] == s;
  }

  /** `findMatchingEndpoints`: walks the paths and their operations in
      document order, keeps each operation that passes every enabled
      filter, and stops as soon as the limit is reached. */
  method FindMatchingEndpoints(swagger: Json, f: Filters, matches: string -> bool) returns (found: seq<Endpoint>)
    ensures found == MatchingEndpoints(swagger, f, matches)
  {
    var paths := PathsOf(swagger);
    found := ScanPaths(paths, f, KeepWith(f, matches));
  }

  /** The walk over the path entries, each with its operations. */
  method ScanPaths(paths: seq<(string, Json)>, f: Filters, keep: Operation -> bool) returns (found: seq<Endpoint>)
    ensures found == Take(SelectedBy(keep, AllOps(Scope(paths, f))), Cap(f))
  {
    found := [];
    var i := 0;
    while i < |paths|
      invariant 0 <= i <= |paths|
      invariant found == SelectedBy(keep, AllOps(paths[..i]))
      invariant |found| < Cap(f)
      invariant f.maxResults < 1 ==> i == 0
    {
      var entries := Entries(paths[i].1);
      var k;
      found, k := ScanEntries(f, keep, AllOps(paths[..i]), paths[i].0, entries, found);
      if |found| >= f.maxResults {
        ScanStops(paths, f, keep, i, k, found);
        return;
      }
      PathStep(paths, i);
      i := i + 1;
    }
    assert paths[..|paths|] == paths;
  }

  /** The walk over the operations of one path, after the operations
      `done` have given the endpoints `found0`; it stops after `k` entries,
      early once the limit is reached. */
  method ScanEntries(f: Filters, keep: Operation -> bool, done: seq<Operation>, path: string,
                     entries: seq<(string, Json)>, found0: seq<Endpoint>) returns (found: seq<Endpoint>, k: nat)
    requires found0 == SelectedBy(keep, done) && |found0| < Cap(f)
    ensures k <= |entries|
    ensures found == SelectedBy(keep, done + OpsOf(path, entries[..k]))
    ensures |found| <= Cap(f)
    ensures |found| < Cap(f) ==> k == |entries|
  {
    found := found0;
    assert done + OpsOf(path, entries[..0]) == done by {
      assert entries[..0] == [];
    }
    k := 0;
    while k < |entries|
      invariant 0 <= k <= |entries|
      invariant found == SelectedBy(keep, done + OpsOf(path, entries[..k]))
      invariant |found| < Cap(f)
    {
      var entry := entries[k];
      OpsStep(keep, done, path, entries, k);
      if entry.0 != "parameters" {
        var o := Operation(path, entry.0, entry.1);
        if keep(o) {
          found := found + [ToEndpoint(o)];
          if |found| >= f.maxResults {
            k := k + 1;
            return;
          }
        }
      }
      k := k + 1;
    }
  }

  /** Stopping after entry `k` of path `i` once the limit test holds
      leaves the endpoints the search promises: the limit is reached, or
      with a limit below one the first path gave none. */
  lemma ScanStops(paths: seq<(string, Json)>, f: Filters, keep: Operation -> bool, i: nat, k: nat, found: seq<Endpoint>)
    requires i < |paths| && (f.maxResults < 1 ==> i == 0)
    requires k <= |Entries(paths[i].1)|
    requires found == SelectedBy(keep, AllOps(paths[..i]) + OpsOf(paths[i].0, Entries(paths[i].1)[..k]))
    requires |found| <= Cap(f) && (|found| < Cap(f) ==> k == |Entries(paths[i].1)|)
    requires |found| >= f.maxResults
    ensures found == Take(SelectedBy(keep, AllOps(Scope(paths, f))), Cap(f))
  {
    var scope := Scope(paths, f);
    assert i < |scope| && scope[..i] == paths[..i] && scope[i] == paths[i];
    if |found| == Cap(f) {
      LimitReached(scope, f, keep, i, k, found);
    } else {
      PathStep(paths, i);
      assert scope == paths[..i + 1];
    }
  }

  lemma PathStep(paths: seq<(string, Json)>, i: nat)
    requires i < |paths|
    ensures AllOps(paths[..i + 1]) == AllOps(paths[..i]) + OpsOf(paths[i].0, Entries(paths[i].1)[..|Entries(paths[i].1)|])
  {
    assert paths[..i + 1] == paths[..i] + [paths[i]];
    ConcatSnoc(paths[..i], paths[i], PathOps);
    var entries := Entries(paths[i].1);
    assert entries[..|entries|] == entries;
  }

  /** The endpoint one path entry contributes, if any. */
  function Picked(keep: Operation -> bool, path: string, entry: (string, Json)): seq<Endpoint> {
    var o := Operation(path, entry.0, entry.1);
    if entry.0 != "parameters" && keep(o) then [ToEndpoint(o)] else []
  }

  /** One more entry of a path adds its operation's endpoint when that
      operation is kept, and nothing otherwise. */
  lemma OpsStep(keep: Operation -> bool, done: seq<Operation>, path: string,
                entries: seq<(string, Json)>, j: nat)
    requires j < |entries|
    ensures SelectedBy(keep, done + OpsOf(path, entries[..j + 1])) ==
      SelectedBy(keep, done + OpsOf(path, entries[..j])) + Picked(keep, path, entries[j])
  {
    var g := PickBy(keep);
    assert entries[..j + 1] == entries[..j] + [entries[j]];
    ConcatSnoc(entries[..j], entries[j], EntryOpsOf(path));
    var before := done + OpsOf(path, entries[..j]);
    var added := EntryOps(path, entries[j]);
    assert done + OpsOf(path, entries[..j + 1]) == before + added;
    ConcatAppend(before, added, g);
    if added != [] {
      assert added == [] + [added[0]];
      ConcatSnoc([], added[0], g);
    }
  }

  /** Stopping at the limit returns exactly the first `Cap(f)` kept
      endpoints of the whole document. */
  lemma LimitReached(paths: seq<(string, Json)>, f: Filters, keep: Operation -> bool, i: nat, k: nat, found: seq<Endpoint>)
    requires i < |paths|
    requires k <= |Entries(paths[i].1)|
    requires found == SelectedBy(keep, AllOps(paths[..i]) + OpsOf(paths[i].0, Entries(paths[i].1)[..k]))
    requires |found| == Cap(f)
    ensures found == Take(SelectedBy(keep, AllOps(paths)), Cap(f))
  {
    var path := paths[i].0;
    var entries := Entries(paths[i].1);
    var pre := AllOps(paths[..i]) + OpsOf(path, entries[..k]);
    var rest := OpsOf(path, entries[k..]) + AllOps(paths[i + 1..]);
    OpsAround(paths, i, k);
    TakeConcatPrefix(AllOps(paths), pre, rest, PickBy(keep), Cap(f));
  }

  /** The operations of the whole document are those up to entry `k` of
      path `i`, then the rest. */
  lemma OpsAround(paths: seq<(string, Json)>, i: nat, k: nat)
    requires i < |paths| && k <= |Entries(paths[i].1)|
    ensures var path := paths[i].0;
      var entries := Entries(paths[i].1);
      AllOps(paths) == (AllOps(paths[..i]) + OpsOf(path, entries[..k]))
                       + (OpsOf(path, entries[k..]) + AllOps(paths[i + 1..]))
  {
    var path := paths[i].0;
    var entries := Entries(paths[i].1);
    var whole := PathOps(paths[i]);
    assert AllOps(paths) == AllOps(paths[..i]) + whole + AllOps(paths[i + 1..]) by {
      ConcatAround(paths, i, PathOps);
    }
    assert whole == OpsOf(path, entries[..k]) + OpsOf(path, entries[k..]) by {
      ConcatSplit(entries, k, EntryOpsOf(path));
    }
    Regroup(AllOps(paths[..i]), OpsOf(path, entries[..k]), OpsOf(path, entries[k..]), AllOps(paths[i + 1..]));
  }

  lemma Regroup<T>(a: seq<T>, b: seq<T>, c: seq<T>, d: seq<T>)
    ensures a + (b + c) + d == (a + b) + (c + d)
  {
  }

  lemma TakeConcatPrefix<A, B>(xs: seq<A>, pre: seq<A>, rest: seq<A>, g: A -> seq<B>, n: nat)
    requires xs == pre + rest && |Concat(pre, g)| == n
    ensures Take(Concat(xs, g), n) == Concat(pre, g)
  {
    ConcatAppend(pre, rest, g);
    TakePrefix(Concat(pre, g), Concat(rest, g));
  }

  lemma ConcatSplit<A, B>(xs: seq<A>, k: nat, g: A -> seq<B>)
    requires k <= |xs|
    ensures Concat(xs, g) == Concat(xs[..k], g) + Concat(xs[k..], g)
  {
    SplitTake(xs, k);
    ConcatAppend(xs[..k], xs[k..], g);
  }

  lemma SplitTake<A>(xs: seq<A>, k: nat)
    requires k <= |xs|
    ensures xs == xs[..k] + xs[k..]
  {
  }

  lemma TakePrefix<T>(a: seq<T>, b: seq<T>)
    ensures Take(a + b, |a|) == a
  {
    assert (a + b)[..|a|] == a;
  }

  // ------------------------------------------------------------------ tags

  /** Code-unit order of strings, as the default `Array.prototype.sort`
      compares them. */
  predicate Less(a: string, b: string)
    decreases |a|
  {
    if a == [] then b != []
    else if b == [] then false
    else if a[0] != b[0] then a[0] < b[0]
    else Less(a[1..], b[1..])
  }

  lemma {:induction false} LessIrreflexive(a: string)
    ensures !Less(a, a)
    decreases |a|
  {
    if a != [] {
      LessIrreflexive(a[1..]);
    }
  }

  lemma {:induction false} LessTransitive(a: string, b: string, c: string)
    requires Less(a, b) && Less(b, c)
    ensures Less(a, c)
    decreases |a|
  {
    if a != [] && a[0] == b[0] && b[0] == c[0] {
      LessTransitive(a[1..], b[1..], c[1..]);
    }
  }

  lemma {:induction false} LessTotal(a: string, b: string)
    requires a != b
    ensures Less(a, b) || Less(b, a)
    decreases |a|
  {
    if a != [] && b != [] && a[0] == b[0] {
      assert a == [a[0]] + a[1..] && b == [b[0]] + b[1..];
      LessTotal(a[1..], b[1..]);
    }
  }

  predicate StrictlySorted(s: seq<string>) {
    forall i, j :: 0 <= i < j < |s| ==> Less(s[i], s[j])
  }

  /** Adds a string to a strictly sorted list unless it is there already. */
  function Insert(x: string, s: seq<string>): seq<string>
    decreases |s|
  {
    if s == [] then [x]
    else if x == s[0] then s
    else if Less(x, s[0]) then [x] + s
    else [s[0]] + Insert(x, s[1..])
  }

  lemma {:induction false} InsertSpec(x: string, s: seq<string>)
    requires StrictlySorted(s)
    ensures StrictlySorted(Insert(x, s))
    ensures forall y :: y in Insert(x, s) <==> y == x || y in s
    decreases |s|
  {
    if s != [] && x != s[0] && !Less(x, s[0]) {
      LessTotal(x, s[0]);
      InsertSpec(x, s[1..]);
      var r := Insert(x, s);
      forall i, j | 0 <= i < j < |r| ensures Less(r[i], r[j]) {
        if i == 0 {
          assert r[j] in Insert(x, s[1..]);
          if r[j] != x {
            var k :| 0 <= k < |s| && s[k] == r[j] && k > 0;
          }
        }
      }
    } else if s != [] && x != s[0] {
      var r := Insert(x, s);
      forall i, j | 0 <= i < j < |r| ensures Less(r[i], r[j]) {
        if i == 0 && j > 1 {
          LessTransitive(x, s[0], s[j - 1]);
        }
      }
    }
  }

  /** `Array.from(new Set(xs)).sort()`. */
  function SortedSet(xs: seq<string>): seq<string>
    decreases |xs|
  {
    if xs == [] then [] else Insert(xs[|xs| - 1], SortedSet(xs[..|xs| - 1]))
  }

  lemma {:induction false} SortedSetSpec(xs: seq<string>)
    ensures StrictlySorted(SortedSet(xs))
    ensures forall y :: y in SortedSet(xs) <==> y in xs
    decreases |xs|
  {
    if xs != [] {
      var init := xs[..|xs| - 1];
      SortedSetSpec(init);
      InsertSpec(xs[|xs| - 1], SortedSet(init));
      assert xs == init + [xs[|xs| - 1]];
    }
  }

  /** A strictly sorted list holds each string once. */
  lemma SortedDistinct(s: seq<string>)
    requires StrictlySorted(s)
    ensures Text.NoDuplicates(s)
  {
    forall i, j | 0 <= i < j < |s| ensures s[i] != s[j] {
      LessIrreflexive(s[i]);
    }
  }

  /** The name of a global tag definition, when it is a non-empty string. */
  function TagName(t: Json): seq<string> {
    var name := Str(Field(t, "name"));
    if name != "" then [name] else []
  }

  /** The string tags an operation lists. */
  function OpTags(o: Operation): seq<string> {
    Concat(Arr(Field(o.op, "tags")), StringItem)
  }

  function StringItem(j: Json): seq<string> {
    if j.JStr? then [j.s] else []
  }

  /** Every tag the document names: the global definitions, then those of
      the operations in document order. */
  function TagsNamed(swagger: Json): seq<string> {
    Concat(Arr(Field(swagger, "tags")), TagName) + Concat(AllOps(PathsOf(swagger)), OpTags)
  }

  /** `getAvailableTags`. */
  function AvailableTags(swagger: Json): seq<string> {
    SortedSet(TagsNamed(swagger))
  }

  /** The tag list is sorted, holds no duplicate, and holds exactly the
      named tags of the global definitions and of the operations. */
  lemma AvailableTagsSpec(swagger: Json)
    ensures var r := AvailableTags(swagger);
      && StrictlySorted(r)
      && Text.NoDuplicates(r)
      && (forall t :: t in r <==> t in TagsNamed(swagger))
      && (forall o, t :: o in AllOps(PathsOf(swagger)) && t in OpTags(o) ==> t in r)
  {
    SortedSetSpec(TagsNamed(swagger));
    SortedDistinct(AvailableTags(swagger));
    ConcatMembers(AllOps(PathsOf(swagger)), OpTags);
  }

  // ------------------------------------------------------ API suggestions

  /** A common API pattern and the paths it brings to mind. */
  datatype Hint = Hint(pattern: string, suggestions: seq<string>)

  /** Create, read, update and delete. */
  const CRUD_HINTS: seq<Hint> := [
    Hint("get", ["GET /{resource}", "GET /{resource}/{id}", "GET /{resource}/list"]),
    Hint("post", ["POST /{resource}", "POST /{resource}/create"]),
    Hint("put", ["PUT /{resource}/{id}", "PUT /{resource}/update"]),
    Hint("patch", ["PATCH /{resource}/{id}"]),
    Hint("delete", ["DELETE /{resource}/{id}"])
  ]

  /** Common resources. */
  const RESOURCE_HINTS: seq<Hint> := [
    Hint("user", ["/api/users", "/users/{id}", "/auth/users", "/user/profile"]),
    Hint("auth", ["/auth/login", "/auth/logout", "/auth/register", "/auth/token", "/oauth/token"]),
    Hint("login", ["/auth/login", "/login", "/api/auth/login"]),
    Hint("token", ["/auth/token", "/oauth/token", "/api/token/refresh"]),
    Hint("profile", ["/user/profile", "/api/profile", "/users/me"])
  ]

  /** Data operations. */
  const DATA_HINTS: seq<Hint> := [
    Hint("list", ["/api/{resource}/list", "/{resource}", "/api/{resource}"]),
    Hint("search", ["/api/search", "/{resource}/search", "/search/{resource}"]),
    Hint("filter", ["/{resource}?filter=", "/api/{resource}/filter"]),
    Hint("page", ["/{resource}?page=", "/{resource}?offset=", "/{resource}?limit="])
  ]

  /** File operations. */
  const FILE_HINTS: seq<Hint> := [
    Hint("upload", ["/api/files/upload", "/upload", "/media/upload"]),
    Hint("download", ["/api/files/download", "/download/{id}", "/media/{id}"]),
    Hint("file", ["/api/files", "/files/{id}", "/media/files"])
  ]

  /** Common business operations. */
  const BUSINESS_HINTS: seq<Hint> := [
    Hint("order", ["/api/orders", "/orders/{id}", "/orders/create"]),
    Hint("payment", ["/api/payments", "/payments/process", "/billing/payments"]),
    Hint("product", ["/api/products", "/products/{id}", "/catalog/products"]),
    Hint("category", ["/api/categories", "/categories/{id}", "/products/categories"])
  ]

  /** Administration and management. */
  const ADMIN_HINTS: seq<Hint> := [
    Hint("admin", ["/admin/api", "/api/admin", "/admin/{resource}"]),
    Hint("config", ["/api/config", "/admin/config", "/settings/config"]),
    Hint("setting", ["/api/settings", "/user/settings", "/admin/settings"])
  ]

  /** Analytics and reporting. */
  const ANALYTICS_HINTS: seq<Hint> := [
    Hint("analytics", ["/api/analytics", "/analytics/events", "/analytics/reports"]),
    Hint("report", ["/api/reports", "/reports/{type}", "/analytics/reports"]),
    Hint("metric", ["/api/metrics", "/analytics/metrics", "/monitoring/metrics"])
  ]

  /** Health and status. */
  const HEALTH_HINTS: seq<Hint> := [
    Hint("health", ["/health", "/api/health", "/status/health"]),
    Hint("status", ["/status", "/api/status", "/health/status"]),
    Hint("ping", ["/ping", "/api/ping", "/health/ping"])
  ]

  /** The common API patterns, in the order they are tried. */
  const COMMON_PATTERNS: seq<Hint> :=
    CRUD_HINTS + RESOURCE_HINTS + DATA_HINTS + FILE_HINTS + BUSINESS_HINTS + ADMIN_HINTS + ANALYTICS_HINTS + HEALTH_HINTS

  const GENERIC_PATTERNS: seq<string> :=
    ["/api/v1/{resource}", "/api/v2/{resource}", "/{resource}", "/rest/{resource}", "/graphql"]

  const SIMILAR_HEADER := "Similar paths found in your API:"
  const RELATED_HEADER := "Related API segments in your documentation:"

  /** Either string contains the other. */
  predicate Related(a: string, b: string) {
    Text.Contains(a, b) || Text.Contains(b, a)
  }

  /** The suggestions of the table's patterns related to `pattern`, in
      table order. */
  function HintLines(table: seq<Hint>, pattern: string): seq<string>
    decreases |table|
  {
    if table == [] then []
    else
      var h := table[|table| - 1];
      HintLines(table[..|table| - 1], pattern) + (if Related(pattern, h.pattern) then h.suggestions else [])
  }

  lemma {:induction false} HintLinesSpec(table: seq<Hint>, pattern: string)
    ensures forall h, s :: h in table && Related(pattern, h.pattern) && s in h.suggestions ==> s in HintLines(table, pattern)
    ensures (forall h :: h in table ==> !Related(pattern, h.pattern)) ==> HintLines(table, pattern) == []
    decreases |table|
  {
    if table != [] {
      HintLinesSpec(table[..|table| - 1], pattern);
      assert table == table[..|table| - 1] + [table[|table| - 1]];
    }
  }

  function IsLowerAlnum(c: char): bool {
    'a' <= c <= 'z' || '0' <= c <= '9'
  }

  function NotLowerAlnum(c: char): bool {
    !IsLowerAlnum(c)
  }

  /** `pattern.replace(/[^a-z0-9]/g, '')`. */
  function ResourceGuess(pattern: string): (g: string)
    ensures forall i :: 0 <= i < |g| ==> IsLowerAlnum(g[i])
    decreases |pattern|
  {
    if pattern == [] then []
    else
      var c := pattern[|pattern| - 1];
      ResourceGuess(pattern[..|pattern| - 1]) + (if IsLowerAlnum(c) then [c] else [])
  }

  /** The guess holds exactly the lower-case letters and digits of the
      pattern, each as often as it occurs there, and a pattern made only of
      them is its own guess. */
  lemma {:induction false} ResourceGuessSpec(pattern: string)
    ensures forall c :: multiset(ResourceGuess(pattern))[c] == if IsLowerAlnum(c) then multiset(pattern)[c] else 0
    ensures (forall i :: 0 <= i < |pattern| ==> IsLowerAlnum(pattern[i])) ==> ResourceGuess(pattern) == pattern
    decreases |pattern|
  {
    if pattern != [] {
      var init := pattern[..|pattern| - 1];
      var c := pattern[|pattern| - 1];
      assert pattern == init + [c];
      ResourceGuessSpec(init);
    }
  }

  /** Removing characters works piece by piece, so it keeps the order of
      the characters it keeps. */
  lemma {:induction false} ResourceGuessAppend(a: string, b: string)
    ensures ResourceGuess(a + b) == ResourceGuess(a) + ResourceGuess(b)
    decreases |b|
  {
    if b != [] {
      var init := b[..|b| - 1];
      var c := b[|b| - 1];
      var kept := if IsLowerAlnum(c) then [c] else [];
      assert (a + b)[..|a + b| - 1] == a + init && (a + b)[|a + b| - 1] == c;
      assert ResourceGuess(a + b) == ResourceGuess(a + init) + kept;
      ResourceGuessAppend(a, init);
      assert ResourceGuess(b) == ResourceGuess(init) + kept;
    } else {
      assert a + b == a;
    }
  }

  /** Paths built around a guessed resource name. */
  function GuessedPaths(g: string): seq<string> {
    if g == "" then []
    else ["/api/" + g, "/api/" + g + "/{id}", "/" + g, "/" + g + "/list", "/api/" + g + "/create", "/api/" + g + "/search"]
  }

  /** The suggestions of every pattern of the table related to `pattern`;
      when there are none, those built from the pattern itself and the
      generic ones. */
  function PatternSuggestions(table: seq<Hint>, pattern: string): seq<string> {
    var s := HintLines(table, pattern);
    if s != [] then s else GuessedPaths(ResourceGuess(pattern)) + GENERIC_PATTERNS
  }

  /** `Object.keys(swagger.paths)`. */
  function KeysOf(ps: seq<(string, Json)>): seq<string>
    decreases |ps|
  {
    if ps == [] then [] else KeysOf(ps[..|ps| - 1]) + [ps[|ps| - 1].0]
  }

  /** A path shares a word of more than two letters with the pattern. */
  predicate SharesWord(words: seq<string>, path: string) {
    exists w :: w in words && |w| > 2 && Text.Contains(Text.Lower(path), w)
  }

  function SimilarIn(words: seq<string>, keys: seq<string>): seq<string>
    decreases |keys|
  {
    if keys == [] then []
    else
      var k := keys[|keys| - 1];
      SimilarIn(words, keys[..|keys| - 1]) + (if SharesWord(words, k) then [k] else [])
  }

  function SimilarPaths(pattern: string, keys: seq<string>): seq<string> {
    SimilarIn(Text.Fields(pattern, NotLowerAlnum), keys)
  }

  /** The similar paths are the keys that share a word with the pattern,
      in key order. */
  lemma {:induction false} SimilarInSpec(words: seq<string>, keys: seq<string>)
    ensures forall k :: k in SimilarIn(words, keys) <==> k in keys && SharesWord(words, k)
    ensures |SimilarIn(words, keys)| <= |keys|
    decreases |keys|
  {
    if keys != [] {
      SimilarInSpec(words, keys[..|keys| - 1]);
      assert keys == keys[..|keys| - 1] + [keys[|keys| - 1]];
    }
  }

  /** A literal path segment: non-empty and not a `{parameter}`. */
  predicate IsSegment(s: string) {
    s != "" && !Text.StartsWith(s, "{")
  }

  function LiteralSegments(parts: seq<string>): seq<string>
    decreases |parts|
  {
    if parts == [] then []
    else
      var p := parts[|parts| - 1];
      LiteralSegments(parts[..|parts| - 1]) + (if IsSegment(p) then [p] else [])
  }

  /** The literal segments of every path, in order. */
  function SegmentsIn(keys: seq<string>): seq<string>
    decreases |keys|
  {
    if keys == [] then [] else SegmentsIn(keys[..|keys| - 1]) + LiteralSegments(Text.Split(keys[|keys| - 1], '/'))
  }

  function RelatedIn(pattern: string, segments: seq<string>): seq<string>
    decreases |segments|
  {
    if segments == [] then []
    else
      var s := segments[|segments| - 1];
      RelatedIn(pattern, segments[..|segments| - 1]) + (if Related(Text.Lower(s), pattern) then [s] else [])
  }

  /** The related segments are those that contain the pattern or that
      the pattern contains, compared in lower case. */
  lemma {:induction false} RelatedInSpec(pattern: string, segments: seq<string>)
    ensures forall s :: s in RelatedIn(pattern, segments) <==> s in segments && Related(Text.Lower(s), pattern)
    ensures Text.NoDuplicates(segments) ==> Text.NoDuplicates(RelatedIn(pattern, segments))
    decreases |segments|
  {
    if segments != [] {
      RelatedInSpec(pattern, segments[..|segments| - 1]);
      assert segments == segments[..|segments| - 1] + [segments[|segments| - 1]];
    }
  }

  function RelatedSegments(pattern: string, keys: seq<string>): seq<string> {
    RelatedIn(pattern, Text.Dedupe(SegmentsIn(keys)))
  }

  function SegmentPaths(s: string): seq<string> {
    ["/api/" + s, "/" + s]
  }

  /** Every line pushed, blank separators included, in push order: the
      pattern lines, then up to ten similar paths and two paths for each
      of up to eight related segments, each group after a blank line and
      a heading when it is not empty. */
  function Lines(patternLines: seq<string>, similar: seq<string>, related: seq<string>): seq<string> {
    patternLines
    + (if similar == [] then [] else ["", SIMILAR_HEADER] + Take(similar, 10))
    + (if related == [] then [] else ["", RELATED_HEADER] + Concat(Take(related, 8), SegmentPaths))
  }

  function RawSuggestions(table: seq<Hint>, apiPattern: string, swagger: Json): seq<string> {
    var pattern := Text.Lower(apiPattern);
    var keys := KeysOf(PathsOf(swagger));
    Lines(PatternSuggestions(table, pattern), SimilarPaths(pattern, keys), RelatedSegments(pattern, keys))
  }

  /** `lines.filter(s => s.trim() !== '')`. */
  function NonBlank(lines: seq<string>): seq<string>
    decreases |lines|
  {
    if lines == [] then []
    else
      var s := lines[|lines| - 1];
      NonBlank(lines[..|lines| - 1]) + (if Text.Trim(s) != "" then [s] else [])
  }

  lemma {:induction false} NonBlankMembers(lines: seq<string>)
    ensures forall s :: s in NonBlank(lines) <==> s in lines && !Text.IsBlank(s)
    decreases |lines|
  {
    if lines != [] {
      NonBlankMembers(lines[..|lines| - 1]);
      assert lines == lines[..|lines| - 1] + [lines[|lines| - 1]];
      Text.TrimEmpty(lines[|lines| - 1]);
    }
  }

  /** `[...new Set(lines.filter(s => s.trim() !== ''))]`. */
  function Cleaned(raw: seq<string>): seq<string> {
    Text.Dedupe(NonBlank(raw))
  }

  /** Cleaning keeps the non-blank lines, each once, in the order they
      first occur. */
  lemma CleanedSpec(raw: seq<string>)
    ensures var r := Cleaned(raw);
      && Text.NoDuplicates(r)
      && (forall s :: s in r <==> s in raw && !Text.IsBlank(s))
      && (forall s :: s in r ==> s in NonBlank(raw))
      && (forall i, j :: 0 <= i < j < |r| ==> Text.IndexOf(NonBlank(raw), r[i]) < Text.IndexOf(NonBlank(raw), r[j]))
  {
    NonBlankMembers(raw);
    Text.DedupeSpec(NonBlank(raw));
    Text.DedupeOrder(NonBlank(raw));
  }

  /** `generateApiSuggestions` over a table of common patterns. */
  function ApiSuggestionsFrom(table: seq<Hint>, apiPattern: string, swagger: Json): seq<string> {
    Cleaned(RawSuggestions(table, apiPattern, swagger))
  }

  /** `generateApiSuggestions`. */
  function ApiSuggestions(apiPattern: string, swagger: Json): seq<string> {
    ApiSuggestionsFrom(COMMON_PATTERNS, apiPattern, swagger)
  }

  /** The suggestions are the non-blank lines pushed, each once, in the
      order they were first pushed. */
  lemma ApiSuggestionsSpec(table: seq<Hint>, apiPattern: string, swagger: Json)
    ensures var r := ApiSuggestionsFrom(table, apiPattern, swagger);
      var raw := RawSuggestions(table, apiPattern, swagger);
      && Text.NoDuplicates(r)
      && (forall s :: s in r <==> s in raw && !Text.IsBlank(s))
      && (forall s :: s in r ==> s in NonBlank(raw))
      && (forall i, j :: 0 <= i < j < |r| ==> Text.IndexOf(NonBlank(raw), r[i]) < Text.IndexOf(NonBlank(raw), r[j]))
  {
    CleanedSpec(RawSuggestions(table, apiPattern, swagger));
  }

  /** A line that starts with a slash or a capital letter, so that
      trimming leaves something of it. */
  predicate Plain(s: string) {
    s != [] && (s[0] == '/' || 'A' <= s[0] <= 'Z')
  }

  predicate HintPlain(h: Hint) {
    forall i :: 0 <= i < |h.suggestions| ==> Plain(h.suggestions[i])
  }

  predicate TablePlain(table: seq<Hint>) {
    forall i :: 0 <= i < |table| ==> HintPlain(table[i])
  }

  lemma TablePlainAppend(a: seq<Hint>, b: seq<Hint>)
    requires TablePlain(a) && TablePlain(b)
    ensures TablePlain(a + b)
  {
    forall i | 0 <= i < |a + b| ensures HintPlain((a + b)[i]) {
      if i >= |a| {
        assert (a + b)[i] == b[i - |a|];
      }
    }
  }

  lemma CrudPlain()
    ensures TablePlain(CRUD_HINTS)
  {
  }

  lemma ResourcePlain()
    ensures TablePlain(RESOURCE_HINTS)
  {
  }

  lemma DataPlain()
    ensures TablePlain(DATA_HINTS)
  {
  }

  lemma FilePlain()
    ensures TablePlain(FILE_HINTS)
  {
  }

  lemma BusinessPlain()
    ensures TablePlain(BUSINESS_HINTS)
  {
  }

  lemma AdminPlain()
    ensures TablePlain(ADMIN_HINTS)
  {
  }

  lemma AnalyticsPlain()
    ensures TablePlain(ANALYTICS_HINTS)
  {
  }

  lemma HealthPlain()
    ensures TablePlain(HEALTH_HINTS)
  {
  }

  /** Every suggestion of the common patterns starts with a slash or a
      capital letter. */
  lemma CommonSuggestionsPlain()
    ensures TablePlain(COMMON_PATTERNS)
  {
    CrudPlain();
    ResourcePlain();
    DataPlain();
    FilePlain();
    BusinessPlain();
    AdminPlain();
    AnalyticsPlain();
    HealthPlain();
    TablePlainAppend(CRUD_HINTS, RESOURCE_HINTS);
    TablePlainAppend(CRUD_HINTS + RESOURCE_HINTS, DATA_HINTS);
    TablePlainAppend(CRUD_HINTS + RESOURCE_HINTS + DATA_HINTS, FILE_HINTS);
    TablePlainAppend(CRUD_HINTS + RESOURCE_HINTS + DATA_HINTS + FILE_HINTS, BUSINESS_HINTS);
    TablePlainAppend(CRUD_HINTS + RESOURCE_HINTS + DATA_HINTS + FILE_HINTS + BUSINESS_HINTS, ADMIN_HINTS);
    TablePlainAppend(CRUD_HINTS + RESOURCE_HINTS + DATA_HINTS + FILE_HINTS + BUSINESS_HINTS + ADMIN_HINTS, ANALYTICS_HINTS);
    TablePlainAppend(CRUD_HINTS + RESOURCE_HINTS + DATA_HINTS + FILE_HINTS + BUSINESS_HINTS + ADMIN_HINTS + ANALYTICS_HINTS, HEALTH_HINTS);
  }

  /** A plain line survives the cleaning. */
  lemma PlainSurvives(raw: seq<string>, s: string)
    requires s in raw && Plain(s)
    ensures s in Cleaned(raw)
  {
    assert !Text.IsWhitespace(s[0]);
    CleanedSpec(raw);
  }

  /** A plain pattern line is offered, whatever the path sections. */
  lemma PatternLineKept(patternLines: seq<string>, similar: seq<string>, related: seq<string>, s: string)
    requires s in patternLines && Plain(s)
    ensures s in Cleaned(Lines(patternLines, similar, related))
  {
    PlainSurvives(Lines(patternLines, similar, related), s);
  }

  lemma HintLine(table: seq<Hint>, pattern: string, h: Hint, s: string)
    requires h in table && Related(pattern, h.pattern) && s in h.suggestions
    ensures s in PatternSuggestions(table, pattern)
  {
    HintLinesSpec(table, pattern);
  }

  /** Every suggestion of a table pattern related to the lower-cased search
      pattern is offered. */
  lemma RelatedHintsOffered(table: seq<Hint>, apiPattern: string, swagger: Json, h: Hint)
    requires TablePlain(table)
    requires h in table && Related(Text.Lower(apiPattern), h.pattern)
    ensures forall s :: s in h.suggestions ==> s in ApiSuggestionsFrom(table, apiPattern, swagger)
  {
    var pattern := Text.Lower(apiPattern);
    var keys := KeysOf(PathsOf(swagger));
    forall s | s in h.suggestions
      ensures s in Cleaned(Lines(PatternSuggestions(table, pattern), SimilarPaths(pattern, keys), RelatedSegments(pattern, keys)))
    {
      HintLine(table, pattern, h, s);
      PatternLineKept(PatternSuggestions(table, pattern), SimilarPaths(pattern, keys), RelatedSegments(pattern, keys), s);
    }
  }

  lemma FallbackLines(table: seq<Hint>, pattern: string)
    requires forall h :: h in table ==> !Related(pattern, h.pattern)
    ensures PatternSuggestions(table, pattern) == GuessedPaths(ResourceGuess(pattern)) + GENERIC_PATTERNS
  {
    HintLinesSpec(table, pattern);
  }

  /** When no table pattern is related, the generic patterns are offered,
      and so is the path named after the letters and digits of the
      pattern when it has any. */
  lemma UnrelatedFallsBack(table: seq<Hint>, apiPattern: string, swagger: Json)
    requires forall h :: h in table ==> !Related(Text.Lower(apiPattern), h.pattern)
    ensures forall s :: s in GENERIC_PATTERNS ==> s in ApiSuggestionsFrom(table, apiPattern, swagger)
    ensures var g := ResourceGuess(Text.Lower(apiPattern));
      g != "" ==> "/api/" + g in ApiSuggestionsFrom(table, apiPattern, swagger)
  {
    var pattern := Text.Lower(apiPattern);
    var keys := KeysOf(PathsOf(swagger));
    var lines := PatternSuggestions(table, pattern);
    FallbackLines(table, pattern);
    forall s | s in GENERIC_PATTERNS
      ensures s in Cleaned(Lines(lines, SimilarPaths(pattern, keys), RelatedSegments(pattern, keys)))
    {
      PatternLineKept(lines, SimilarPaths(pattern, keys), RelatedSegments(pattern, keys), s);
    }
    var g := ResourceGuess(pattern);
    if g != "" {
      PatternLineKept(lines, SimilarPaths(pattern, keys), RelatedSegments(pattern, keys), "/api/" + g);
    }
  }


  /** With the built-in table: every suggestion of a common pattern related
      to the search pattern is offered. */
  lemma CommonHintsOffered(apiPattern: string, swagger: Json, h: Hint)
    requires h in COMMON_PATTERNS && Related(Text.Lower(apiPattern), h.pattern)
    ensures forall s :: s in h.suggestions ==> s in ApiSuggestions(apiPattern, swagger)
  {
    CommonSuggestionsPlain();
    RelatedHintsOffered(COMMON_PATTERNS, apiPattern, swagger, h);
  }

  /** The empty pattern is contained in every pattern, so searching for ""
      offers every suggestion of the table. */
  lemma EmptyPatternOffersAll(swagger: Json)
    ensures forall h, s :: h in COMMON_PATTERNS && s in h.suggestions ==> s in ApiSuggestions("", swagger)
  {
    forall h, s | h in COMMON_PATTERNS && s in h.suggestions ensures s in ApiSuggestions("", swagger) {
      assert Text.StartsWith(h.pattern[0..], "");
      CommonHintsOffered("", swagger, h);
    }
  }
}
