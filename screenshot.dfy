/**
 * The screenshot service of the relay server: where a screenshot is stored
 * and under which name. The directory is `<base>/<project>/<category>` and
 * the file `<timestamp>_<name>.png`; every piece that comes from user input
 * (a project name, a URL path segment, a custom file name) is passed
 * through one of two sanitizers first.
 *
 * The environment the service consults (environment variables, the
 * working directory, the git remote, the home directory and the clock) is
 * passed in as an `Environment` value, and URL parsing as a function.
 */
module Screenshot {
  import opened Wrappers
  import Text

  // ----------------------------------------------------------- sanitizers

  /** The class `[\/\\?%*:|"<>\s#&+=]` that both sanitizers replace. */
  predicate IsUnsafe(c: char) {
    || c == '/' || c == '\\' || c == '?' || c == '%' || c == '*' || c == ':' || c == '|'
    || c == '"' || c == '<' || c == '>' || c == '#' || c == '&' || c == '+' || c == '='
    || Text.IsWhitespace(c)
  }

  predicate NoUnsafe(s: string) {
    forall i :: 0 <= i < |s| ==> !IsUnsafe(s[i])
  }

  /** The characters a sanitizer with filler `fill` treats as separators. */
  function UnsafeOr(fill: char): char -> bool {
    c => IsUnsafe(c) || c == fill
  }

  /** `s.replace(/[...]/g, fill)`. */
  function ReplaceUnsafe(s: string, fill: char): (r: string)
    ensures |r| == |s|
    ensures forall i :: 0 <= i < |s| ==> r[i] == if IsUnsafe(s[i]) then fill else s[i]
  {
    seq(|s|, i requires 0 <= i < |s| => if IsUnsafe(s[i]) then fill else s[i])
  }

  /** `s.replace(/<fill>+/g, fill)`: each run of the filler becomes one. */
  function SqueezeRuns(s: string, fill: char): (r: string)
    ensures s != [] ==> r != [] && r[0] == s[0]
    ensures s == [] ==> r == []
    ensures |r| <= |s|
    decreases |s|
  {
    if s == [] then []
    else if |s| >= 2 && s[0] == fill && s[1] == fill then SqueezeRuns(s[1..], fill)
    else [s[0]] + SqueezeRuns(s[1..], fill)
  }

  /** The leading fillers removed (`^<fill>+`). */
  function TrimStartChar(s: string, fill: char): (r: string)
    ensures |r| <= |s| && r == s[|s| - |r|..]
    ensures r == [] || r[0] != fill
    decreases |s|
  {
    if s != [] && s[0] == fill then TrimStartChar(s[1..], fill) else s
  }

  /** The trailing fillers removed (`<fill>+$`). */
  function TrimEndChar(s: string, fill: char): (r: string)
    ensures |r| <= |s| && r == s[..|r|]
    ensures r == [] || r[|r| - 1] != fill
    decreases |s|
  {
    if s != [] && s[|s| - 1] == fill then TrimEndChar(s[..|s| - 1], fill) else s
  }

  /** The three `replace` steps both sanitizers share. */
  function Squash(name: string, fill: char): string {
    TrimEndChar(TrimStartChar(SqueezeRuns(ReplaceUnsafe(name, fill), fill), fill), fill)
  }

  /** `s.substring(0, n)`. */
  function Take(s: string, n: nat): (r: string)
    ensures |r| == if |s| <= n then |s| else n
    ensures r == s[..|r|]
  {
    if |s| <= n then s else s[..n]
  }

  /** `sanitizeDirectoryName`: unsafe characters become dashes, dash runs
      collapse, edge dashes go, the result is lower-cased and cut to 50. */
  function SanitizeDirectoryName(name: string): string {
    Take(Text.Lower(Squash(name, '-')), 50)
  }

  /** `sanitizeFilename`: the same with underscores, no lower-casing, cut
      to 100. */
  function SanitizeFilename(name: string): string {
    Take(Squash(name, '_'), 100)
  }

  // ------------------------------------------------- sanitizer properties

  /** Replacing leaves the words between separators as they were. */
  lemma ReplaceFields(name: string, fill: char)
    requires !IsUnsafe(fill)
    ensures Text.Fields(ReplaceUnsafe(name, fill), Text.IsChar(fill)) == Text.Fields(name, UnsafeOr(fill))
  {
    Text.FieldsAgree(ReplaceUnsafe(name, fill), name, Text.IsChar(fill), UnsafeOr(fill));
  }

  /** After squeezing, the filler never occurs twice in a row. */
  lemma {:induction false} SqueezeSingle(s: string, fill: char)
    ensures Text.NoDoubled(SqueezeRuns(s, fill), fill)
    decreases |s|
  {
    if s != [] {
      SqueezeSingle(s[1..], fill);
      if !(|s| >= 2 && s[0] == fill && s[1] == fill) {
        var t := SqueezeRuns(s[1..], fill);
        var r := [s[0]] + t;
        forall i | 0 <= i < |r| - 1 ensures !Text.DoubledAt(r, fill, i) {
          if i > 0 {
            assert !Text.DoubledAt(t, fill, i - 1);
            assert r[i] == t[i - 1] && r[i + 1] == t[i];
          }
        }
      }
    }
  }

  /** Squeezing keeps the words. */
  lemma {:induction false} SqueezeFields(s: string, fill: char)
    ensures Text.Fields(SqueezeRuns(s, fill), Text.IsChar(fill)) == Text.Fields(s, Text.IsChar(fill))
    decreases |s|
  {
    if s != [] {
      var sep := Text.IsChar(fill);
      SqueezeFields(s[1..], fill);
      var t := SqueezeRuns(s[1..], fill);
      if s[0] == fill {
        if !(|s| >= 2 && s[1] == fill) {
          assert ([s[0]] + t)[1..] == t;
        }
      } else {
        assert s == [s[0]] + s[1..];
        if s[1..] == [] || s[1] == fill {
          Text.FieldsConsNew(s[0], t, sep);
          Text.FieldsConsNew(s[0], s[1..], sep);
        } else {
          Text.FieldsConsExtend(s[0], t, sep);
          Text.FieldsConsExtend(s[0], s[1..], sep);
        }
      }
    }
  }

  lemma {:induction false} TrimStartFields(s: string, fill: char)
    ensures Text.Fields(TrimStartChar(s, fill), Text.IsChar(fill)) == Text.Fields(s, Text.IsChar(fill))
    decreases |s|
  {
    if s != [] && s[0] == fill {
      TrimStartFields(s[1..], fill);
    }
  }

  lemma {:induction false} TrimEndFields(s: string, fill: char)
    ensures Text.Fields(TrimEndChar(s, fill), Text.IsChar(fill)) == Text.Fields(s, Text.IsChar(fill))
    decreases |s|
  {
    if s != [] && s[|s| - 1] == fill {
      TrimEndFields(s[..|s| - 1], fill);
      assert s == s[..|s| - 1] + [fill];
      Text.FieldsSnocSep(s[..|s| - 1], fill, Text.IsChar(fill));
    }
  }

  /** The shared steps leave single fillers, none at either end. */
  lemma SquashSingle(name: string, fill: char)
    ensures Text.SingleSeparated(Squash(name, fill), fill)
  {
    SqueezeSingle(ReplaceUnsafe(name, fill), fill);
    TrimmedSingle(SqueezeRuns(ReplaceUnsafe(name, fill), fill), fill);
  }

  /** Trimming the fillers from both ends of a string without doubled
      fillers leaves one singly separated. */
  lemma TrimmedSingle(q: string, fill: char)
    requires Text.NoDoubled(q, fill)
    ensures Text.SingleSeparated(TrimEndChar(TrimStartChar(q, fill), fill), fill)
  {
    var a := TrimStartChar(q, fill);
    SingleSeparatedBetween(q, a, TrimEndChar(a, fill), fill);
  }

  /** A prefix `r` of a suffix `a` of `q`, where `a` does not start and `r`
      does not end with the filler. */
  lemma SingleSeparatedBetween(q: string, a: string, r: string, fill: char)
    requires Text.NoDoubled(q, fill)
    requires |a| <= |q| && a == q[|q| - |a|..] && (a == [] || a[0] != fill)
    requires |r| <= |a| && r == a[..|r|] && (r == [] || r[|r| - 1] != fill)
    ensures Text.SingleSeparated(r, fill)
  {
    assert Text.NoDoubled(a, fill) by {
      Text.NoDoubledSlice(q, fill, |q| - |a|, |q|);
      assert a == q[|q| - |a|..|q|];
    }
    assert Text.NoDoubled(r, fill) by {
      Text.NoDoubledSlice(a, fill, 0, |r|);
      assert r == a[0..|r|];
    }
    assert r == [] || r[0] == a[0];
  }

  /** The shared steps keep the words of the name: the runs of characters
      that are neither unsafe nor the filler. */
  lemma SquashFields(name: string, fill: char)
    requires !IsUnsafe(fill)
    ensures Text.Fields(Squash(name, fill), Text.IsChar(fill)) == Text.Fields(name, UnsafeOr(fill))
  {
    var u := ReplaceUnsafe(name, fill);
    var q := SqueezeRuns(u, fill);
    var a := TrimStartChar(q, fill);
    calc {
      Text.Fields(TrimEndChar(a, fill), Text.IsChar(fill));
    == { TrimEndFields(a, fill); }
      Text.Fields(a, Text.IsChar(fill));
    == { TrimStartFields(q, fill); }
      Text.Fields(q, Text.IsChar(fill));
    == { SqueezeFields(u, fill); }
      Text.Fields(u, Text.IsChar(fill));
    == { ReplaceFields(name, fill); }
      Text.Fields(name, UnsafeOr(fill));
    }
  }

  /** Hence they give those words joined by single fillers. */
  lemma SquashIsJoinedWords(name: string, fill: char)
    requires !IsUnsafe(fill)
    ensures Text.SingleSeparated(Squash(name, fill), fill)
    ensures Squash(name, fill) == Text.Join(Text.Fields(name, UnsafeOr(fill)), [fill])
  {
    SquashSingle(name, fill);
    SquashFields(name, fill);
    Text.JoinOfFields(Squash(name, fill), fill);
  }

  /** No character of the joined words is unsafe. */
  lemma JoinedWordsSafe(name: string, fill: char)
    requires !IsUnsafe(fill)
    ensures NoUnsafe(Text.Join(Text.Fields(name, UnsafeOr(fill)), [fill]))
  {
    var fs := Text.Fields(name, UnsafeOr(fill));
    var j := Text.Join(fs, [fill]);
    Text.FieldsWellFormed(name, UnsafeOr(fill));
    forall i | 0 <= i < |j| ensures !IsUnsafe(j[i]) {
      assert j[i] in j;
      Text.JoinChars(fs, [fill], j[i]);
      if j[i] != fill {
        var k :| 0 <= k < |fs| && j[i] in fs[k];
        assert !UnsafeOr(fill)(j[i]);
      }
    }
  }

  /** `sanitizeFilename` is the first 100 characters of the words of the
      name joined by single underscores: no unsafe character, no `__`, no
      leading underscore, letter case kept. */
  lemma SanitizeFilenameSpec(name: string)
    ensures var r := SanitizeFilename(name);
      var full := Text.Join(Text.Fields(name, UnsafeOr('_')), "_");
      && |r| == (if |full| <= 100 then |full| else 100) && r == full[..|r|]
      && NoUnsafe(r) && Text.NoDoubled(r, '_') && (r == [] || r[0] != '_')
  {
    SquashIsJoinedWords(name, '_');
    JoinedWordsSafe(name, '_');
    TakeKeepsShape(Squash(name, '_'), 100, '_');
  }

  /** `sanitizeDirectoryName` is the first 50 characters of the words of
      the name joined by single dashes and lower-cased: no unsafe character,
      no upper-case letter, no `--`, no leading dash. */
  lemma SanitizeDirectoryNameSpec(name: string)
    ensures var r := SanitizeDirectoryName(name);
      var full := Text.Lower(Text.Join(Text.Fields(name, UnsafeOr('-')), "-"));
      && |r| == (if |full| <= 50 then |full| else 50) && r == full[..|r|]
      && NoUnsafe(r) && Text.NoUpper(r) && Text.NoDoubled(r, '-') && (r == [] || r[0] != '-')
  {
    var joined := Squash(name, '-');
    SquashIsJoinedWords(name, '-');
    JoinedWordsSafe(name, '-');
    LowerKeepsShape(joined, '-');
    Text.LowerIsLower(joined);
    TakeKeepsShape(Text.Lower(joined), 50, '-');
  }

  /** A prefix of a string free of unsafe characters and of doubled or
      leading fillers keeps all three properties. */
  lemma TakeKeepsShape(full: string, n: nat, fill: char)
    requires NoUnsafe(full) && Text.SingleSeparated(full, fill)
    ensures var r := Take(full, n);
      NoUnsafe(r) && Text.NoDoubled(r, fill) && (r == [] || r[0] != fill)
  {
    Text.NoDoubledSlice(full, fill, 0, |Take(full, n)|);
  }

  /** Lower-casing touches only letters, so it keeps a string free of
      unsafe characters and of doubled or edge dashes. */
  lemma LowerKeepsShape(s: string, fill: char)
    requires NoUnsafe(s) && Text.SingleSeparated(s, fill)
    requires !('A' <= fill <= 'Z') && !('a' <= fill <= 'z')
    ensures NoUnsafe(Text.Lower(s)) && Text.SingleSeparated(Text.Lower(s), fill)
  {
    var l := Text.Lower(s);
    forall i | 0 <= i < |l| ensures !IsUnsafe(l[i]) && (l[i] == fill <==> s[i] == fill) {
      assert !IsUnsafe(s[i]);
    }
    forall i | 0 <= i < |l| - 1 ensures !Text.DoubledAt(l, fill, i) {
      assert !Text.DoubledAt(s, fill, i);
    }
  }

  /** A directory name the sanitizer can produce: no unsafe character, no
      upper-case letter, at most 50 characters. */
  predicate SafeDirName(s: string) {
    NoUnsafe(s) && Text.NoUpper(s) && |s| <= 50
  }

  /** A file name stem the sanitizer can produce. */
  predicate SafeFileStem(s: string) {
    NoUnsafe(s) && |s| <= 100
  }

  // ----------------------------------------------------------- inputs

  /** JavaScript truthiness of an optional string. */
  predicate Given(o: Option<string>) {
    o.Some? && o.value != ""
  }

  /** The two parts of a parsed `URL` that the service reads. */
  datatype Url = Url(hostname: string, pathname: string)

  /** What the service reads from the process and the machine:
      `SCREENSHOT_STORAGE_PATH`, `PROJECT_NAME`, the output of
      `git config --get remote.origin.url` (None when the command fails),
      the working directory, the home directory, and
      `new Date().toISOString()`. */
  datatype Context = Context(
    storagePath: Option<string>,
    projectName: Option<string>,
    gitRemote: Option<string>,
    cwd: string,
    home: string,
    now: string)

  datatype ScreenshotConfig = ScreenshotConfig(
    filename: Option<string>,
    returnImageData: bool,
    projectName: Option<string>,
    baseDirectory: Option<string>)

  datatype ScreenshotResult = ScreenshotResult(
    filePath: string,
    filename: string,
    imageData: Option<string>,
    projectDirectory: string,
    urlCategory: string)

  // ---------------------------------------------------------- POSIX paths

  /** The non-empty parts, in order. */
  function NonEmpty(parts: seq<string>): (r: seq<string>)
    ensures forall k :: 0 <= k < |r| ==> r[k] != ""
    ensures forall p :: p in r <==> p in parts && p != ""
    decreases |parts|
  {
    if parts == [] then []
    else (if parts[0] == "" then [] else [parts[0]]) + NonEmpty(parts[1..])
  }

  /** `path.join(...parts)` without the final normalisation: the non-empty
      parts joined by slashes, `.` when there are none. */
  function PathJoin(parts: seq<string>): (r: string)
    ensures r != ""
  {
    var ne := NonEmpty(parts);
    if ne == [] then "." else
      assert ne[0] != "";
      JoinStartsWith(ne, "/");
      Text.Join(ne, "/")
  }

  lemma {:induction false} JoinStartsWith(parts: seq<string>, sep: string)
    requires parts != []
    ensures Text.StartsWith(Text.Join(parts, sep), parts[0])
  {
    if |parts| > 1 {
      assert Text.Join(parts, sep) == parts[0] + (sep + Text.Join(parts[1..], sep));
    }
  }

  /** Appending a non-empty part adds a slash and the part. */
  lemma PathJoinSnoc(parts: seq<string>, x: string)
    requires x != ""
    ensures NonEmpty(parts) == [] ==> PathJoin(parts + [x]) == x
    ensures NonEmpty(parts) != [] ==> PathJoin(parts + [x]) == PathJoin(parts) + "/" + x
  {
    NonEmptySnoc(parts, x);
    JoinSnoc(NonEmpty(parts), x, "/");
  }

  /** Prepending a non-empty part adds the part and a slash. */
  lemma PathJoinCons(x: string, parts: seq<string>)
    requires x != ""
    ensures NonEmpty(parts) == [] ==> PathJoin([x] + parts) == x
    ensures NonEmpty(parts) != [] ==> PathJoin([x] + parts) == x + "/" + PathJoin(parts)
  {
    assert ([x] + parts)[1..] == parts;
    if NonEmpty(parts) != [] {
      Text.JoinCons(x, NonEmpty(parts), "/");
    }
  }

  lemma {:induction false} NonEmptySnoc(parts: seq<string>, x: string)
    requires x != ""
    ensures NonEmpty(parts + [x]) == NonEmpty(parts) + [x]
    decreases |parts|
  {
    if parts == [] {
      assert NonEmpty([x]) == [x] + NonEmpty([x][1..]);
    } else {
      assert (parts + [x])[1..] == parts[1..] + [x];
      NonEmptySnoc(parts[1..], x);
    }
  }

  lemma {:induction false} JoinSnoc(ws: seq<string>, x: string, sep: string)
    ensures ws == [] ==> Text.Join(ws + [x], sep) == x
    ensures ws != [] ==> Text.Join(ws + [x], sep) == Text.Join(ws, sep) + sep + x
    decreases |ws|
  {
    if |ws| == 1 {
      assert (ws + [x])[1..] == [x];
    } else if |ws| > 1 {
      assert (ws + [x])[1..] == ws[1..] + [x];
      JoinSnoc(ws[1..], x, sep);
    }
  }

  /** POSIX `path.isAbsolute`. */
  predicate IsAbsolute(p: string) {
    p != "" && p[0] == '/'
  }

  /** POSIX `path.basename` (no suffix argument). */
  function Basename(p: string): (r: string)
    ensures '/' !in r
  {
    var segs := Text.Segments(p);
    if segs == [] then "" else
      SegmentNoSlash(p, |segs| - 1);
      segs[|segs| - 1]
  }

  /** POSIX `path.basename(path.dirname(p))`. */
  function ParentName(p: string): (r: string)
    ensures '/' !in r
  {
    var segs := Text.Segments(p);
    if |segs| >= 2 then
      SegmentNoSlash(p, |segs| - 2);
      segs[|segs| - 2]
    else if IsAbsolute(p) then ""
    else "."
  }

  lemma SegmentNoSlash(p: string, k: nat)
    requires k < |Text.Segments(p)|
    ensures '/' !in Text.Segments(p)[k] && Text.Segments(p)[k] != ""
  {
    Text.FieldsWellFormed(p, Text.SlashSep);
    assert Text.SlashSep('/');
  }

  // ------------------------------------------------------- base directory

  const DEFAULT_BASE_FOLDER: string := "Windsurf_Screenshots"

  /** `getDefaultDownloadsFolder`: `Downloads` under the home directory on
      every platform. */
  function DefaultDownloadsFolder(home: string): string {
    PathJoin([home, "Downloads"])
  }

  /** `resolveBaseDirectory`: the configured path if it is absolute, else
      `SCREENSHOT_STORAGE_PATH` if it is absolute, else
      `<home>/Downloads/Windsurf_Screenshots`. */
  function ResolveBaseDirectory(configured: Option<string>, ctx: Context): (r: string)
    ensures GivenAbsolute(configured) ==> r == configured.value
    ensures !GivenAbsolute(configured) && GivenAbsolute(ctx.storagePath) ==> r == ctx.storagePath.value
    ensures !GivenAbsolute(configured) && !GivenAbsolute(ctx.storagePath) ==>
      r == (if ctx.home == "" then "" else ctx.home + "/") + "Downloads/" + DEFAULT_BASE_FOLDER
    ensures r != ""
    ensures IsAbsolute(ctx.home) ==> IsAbsolute(r)
  {
    if GivenAbsolute(configured) then configured.value
    else if GivenAbsolute(ctx.storagePath) then ctx.storagePath.value
    else
      DownloadsLayout(ctx.home);
      PathJoin([DefaultDownloadsFolder(ctx.home), DEFAULT_BASE_FOLDER])
  }

  /** `p && path.isAbsolute(p)`. */
  predicate GivenAbsolute(p: Option<string>) {
    Given(p) && IsAbsolute(p.value)
  }

  lemma DownloadsLayout(home: string)
    ensures PathJoin([DefaultDownloadsFolder(home), DEFAULT_BASE_FOLDER])
      == (if home == "" then "" else home + "/") + "Downloads/" + DEFAULT_BASE_FOLDER
  {
    PathJoinSnoc([home], "Downloads");
    assert [home] + ["Downloads"] == [home, "Downloads"];
    assert NonEmpty([home]) == (if home == "" then [] else [home]) + NonEmpty([]);
    var d := DefaultDownloadsFolder(home);
    PathJoinSnoc([d], DEFAULT_BASE_FOLDER);
    assert [d] + [DEFAULT_BASE_FOLDER] == [d, DEFAULT_BASE_FOLDER];
    assert NonEmpty([d]) == [d] + NonEmpty([]);
    assert PathJoin([d]) == Text.Join([d], "/");
  }

  // ---------------------------------------------------- project directory

  /** Lower-cased names that say nothing about the project. */
  const GENERIC_NAMES: seq<string> := ["src", "app", "client", "server", "frontend", "backend", "build", "dist"]

  predicate IsGeneric(name: string) {
    Text.Lower(name) in GENERIC_NAMES
  }

  /** `detectProjectFromCwd`: the last directory of the working directory,
      or its parent when the last one has a generic name; None (`null`)
      when both are generic. */
  function DetectProjectFromCwd(cwd: string): (r: Option<string>)
    ensures r.Some? ==> !IsGeneric(r.value) && '/' !in r.value
    ensures r.Some? ==> r.value == Basename(cwd) || r.value == ParentName(cwd)
    ensures !IsGeneric(Basename(cwd)) ==> r == Some(Basename(cwd))
    ensures r.None? <==> IsGeneric(Basename(cwd)) && IsGeneric(ParentName(cwd))
  {
    var name := Basename(cwd);
    if IsGeneric(name) then
      var parent := ParentName(cwd);
      if !IsGeneric(parent) then Some(parent) else None
    else Some(name)
  }

  /** `detectGitProjectName` on the remote URL: the text after the last
      slash of the trimmed URL, without a trailing `.git` when something
      precedes it (the regular expression `/\/([^\/]+?)(?:\.git)?$/`).
      None when the command failed or no slash is followed by a name. */
  function GitProjectName(remote: Option<string>): (r: Option<string>)
    ensures r.Some? ==> r.value != "" && '/' !in r.value
    ensures remote.Some? && '/' !in remote.value ==> r.None?
  {
    if remote.None? then None
    else
      var url := Text.Trim(remote.value);
      assert '/' in url ==> '/' in remote.value by {
        TrimInside(remote.value);
      }
      NameAfterLastSlash(url)
  }

  /** The regular expression on the trimmed URL. */
  function NameAfterLastSlash(url: string): (r: Option<string>)
    ensures r.Some? ==> r.value != "" && '/' !in r.value
    ensures '/' !in url ==> r.None?
  {
    match Text.LastIndexOf(url, '/')
    case None => None
    case Some(k) => RepositoryName(url[k + 1..])
  }

  /** The capture group of the regular expression for the text after the
      last slash: the shortest non-empty prefix followed by `.git` or by
      the end. */
  function RepositoryName(tail: string): (r: Option<string>)
    ensures r.Some? ==> r.value != "" && ('/' !in tail ==> '/' !in r.value)
    ensures r.Some? ==> r.value == tail || r.value + ".git" == tail
    ensures r.None? <==> tail == ""
  {
    if tail == "" then None
    else if |tail| > 4 && Text.EndsWith(tail, ".git") then
      assert tail == tail[..|tail| - 4] + ".git";
      Some(tail[..|tail| - 4])
    else Some(tail)
  }

  /** `name.git` and `name` both give `name`. */
  lemma RepositoryNameOf(name: string, suffix: string)
    requires name != ""
    requires suffix == ".git" || (suffix == "" && !Text.EndsWith(name, ".git"))
    ensures RepositoryName(name + suffix) == Some(name)
  {
    var tail := name + suffix;
    if suffix == ".git" {
      assert tail[..|name|] == name;
      assert Text.EndsWith(tail, ".git");
    } else {
      assert tail == name;
    }
  }

  /** Trimming only removes characters. */
  lemma TrimInside(s: string)
    ensures forall i :: 0 <= i < |Text.Trim(s)| ==> Text.Trim(s)[i] in s
  {
    var a := Text.TrimStart(s);
    var t := Text.TrimEnd(a);
    forall i | 0 <= i < |t| ensures t[i] in s {
      assert t[i] == a[i] == s[|s| - |a| + i];
    }
  }

  /** The name of a repository comes back from its remote URL, with or
      without the `.git` suffix. */
  lemma GitProjectNameOf(host: string, name: string, suffix: string)
    requires name != "" && '/' !in name
    requires host == [] || !Text.IsWhitespace(host[0])
    requires suffix == ".git" || (suffix == "" && !Text.EndsWith(name, ".git") && !Text.IsWhitespace(name[|name| - 1]))
    ensures GitProjectName(Some(host + "/" + name + suffix)) == Some(name)
  {
    var url := host + "/" + name + suffix;
    assert GitProjectName(Some(url)) == NameAfterLastSlash(url) by {
      RemoteUntrimmed(host, name, suffix);
    }
    assert NameAfterLastSlash(url) == Some(name) by {
      RemoteLastSlash(host, name, suffix);
      NameAfterSlashIs(url, |host|);
      RepositoryNameOf(name, suffix);
    }
  }

  lemma NameAfterSlashIs(url: string, k: nat)
    requires Text.LastIndexOf(url, '/') == Some(k)
    ensures k < |url| && NameAfterLastSlash(url) == RepositoryName(url[k + 1..])
  {
  }

  lemma RemoteUntrimmed(host: string, name: string, suffix: string)
    requires name != ""
    requires host == [] || !Text.IsWhitespace(host[0])
    requires suffix == ".git" || (suffix == "" && !Text.IsWhitespace(name[|name| - 1]))
    ensures Text.Trim(host + "/" + name + suffix) == host + "/" + name + suffix
  {
    var url := host + "/" + name + suffix;
    assert url[|url| - 1] == (if suffix == "" then name[|name| - 1] else 't');
    assert url[0] == (if host == [] then '/' else host[0]);
    Text.TrimUntouched(url);
  }

  lemma RemoteLastSlash(host: string, name: string, suffix: string)
    requires '/' !in name && (suffix == ".git" || suffix == "")
    ensures var url := host + "/" + name + suffix;
      Text.LastIndexOf(url, '/') == Some(|host|) && url[|host| + 1..] == name + suffix
  {
    var url := host + "/" + name + suffix;
    var tail := name + suffix;
    assert url[|host|] == '/' && url[|host| + 1..] == tail;
    assert '/' !in tail by {
      forall i | 0 <= i < |tail| ensures tail[i] != '/' {
        if i < |name| {
          assert tail[i] == name[i];
        } else {
          assert tail[i] == suffix[i - |name|];
        }
      }
    }
    LastSlashIs(url, |host|);
  }

  lemma LastSlashIs(s: string, k: nat)
    requires k < |s| && s[k] == '/' && '/' !in s[k + 1..]
    ensures Text.LastIndexOf(s, '/') == Some(k)
  {
    assert s[k] == '/';
  }

  /** The name `resolveProjectDirectory` settles on: the first of the
      configured project name, `PROJECT_NAME`, the git repository name and
      the working-directory name that is a non-empty string. */
  function ProjectNameSource(configured: Option<string>, ctx: Context): (r: Option<string>)
    ensures r.Some? ==> r.value != ""
    ensures Given(configured) ==> r == configured
    ensures !Given(configured) && Given(ctx.projectName) ==> r == ctx.projectName
    ensures r.None? <==> (!Given(configured) && !Given(ctx.projectName)
      && GitProjectName(ctx.gitRemote).None? && !Given(DetectProjectFromCwd(ctx.cwd)))
  {
    var git := GitProjectName(ctx.gitRemote);
    var cwdName := DetectProjectFromCwd(ctx.cwd);
    if Given(configured) then configured
    else if Given(ctx.projectName) then ctx.projectName
    else if Given(git) then git
    else if Given(cwdName) then cwdName
    else None
  }

  /** `resolveProjectDirectory`: the chosen name sanitized as a directory
      name, `default-project` when no source gives one. */
  function ResolveProjectDirectory(configured: Option<string>, ctx: Context): (r: string)
    ensures SafeDirName(r)
    ensures ProjectNameSource(configured, ctx).None? ==> r == DEFAULT_PROJECT
  {
    match ProjectNameSource(configured, ctx)
    case Some(name) =>
      SanitizedDirSafe(name);
      SanitizeDirectoryName(name)
    case None =>
      DefaultProjectSafe();
      DEFAULT_PROJECT
  }

  const DEFAULT_PROJECT: string := "default-project"

  lemma DefaultProjectSafe()
    ensures SafeDirName(DEFAULT_PROJECT)
  {
    forall i | 0 <= i < |DEFAULT_PROJECT| ensures !IsUnsafe(DEFAULT_PROJECT[i]) && !('A' <= DEFAULT_PROJECT[i] <= 'Z') {
      assert 'a' <= DEFAULT_PROJECT[i] <= 'z' || DEFAULT_PROJECT[i] == '-';
    }
  }

  lemma SanitizedDirSafe(name: string)
    ensures SafeDirName(SanitizeDirectoryName(name))
  {
    SanitizeDirectoryNameSpec(name);
  }

  /** Without a configured or environment project name, a repository with
      a remote names the directory, whatever the working directory. */
  lemma ProjectFromGit(configured: Option<string>, ctx: Context, name: string)
    requires !Given(configured) && !Given(ctx.projectName)
    requires GitProjectName(ctx.gitRemote) == Some(name)
    ensures ResolveProjectDirectory(configured, ctx) == SanitizeDirectoryName(name)
  {
  }

  // --------------------------------------------------------- URL category

  /** `categorizeByPath` (and `categorizeLocalUrl`, which does the same):
      the first non-empty path segment as a directory name, `home` when the
      path has none. */
  function CategorizeByPath(pathname: string): (r: string)
    ensures SafeDirName(r)
    ensures Text.Segments(pathname) == [] ==> r == "home"
  {
    var segs := Text.Segments(pathname);
    if segs == [] then
      WordSafe("home");
      "home"
    else
      SanitizedDirSafe(segs[0]);
      SanitizeDirectoryName(segs[0])
  }

  /** The environment folder for a host name: none for a local host,
      `staging` for a host mentioning `staging` or `dev`, `production` for
      one mentioning `prod` or not mentioning `localhost`. */
  function EnvironmentOf(hostname: string): (r: Option<string>)
    ensures hostname == "localhost" || hostname == "127.0.0.1" ==> r.None?
    ensures r == Some("staging") || r == Some("production") || r.None?
    ensures r == Some("staging") ==> Text.Contains(hostname, "staging") || Text.Contains(hostname, "dev")
    ensures r.None? && hostname != "localhost" && hostname != "127.0.0.1" ==>
      Text.Contains(hostname, "localhost") && !Text.Contains(hostname, "prod")
  {
    if hostname == "localhost" || hostname == "127.0.0.1" then None
    else if Text.Contains(hostname, "staging") || Text.Contains(hostname, "dev") then Some("staging")
    else if Text.Contains(hostname, "prod") || !Text.Contains(hostname, "localhost") then Some("production")
    else None
  }

  /** `resolveUrlCategory`: `general` without a URL or for `about:blank`,
      `uncategorized` when the URL does not parse, otherwise the path
      category, under the environment folder when the host has one. */
  function ResolveUrlCategory(url: Option<string>, parse: string -> Option<Url>): (r: string)
    ensures !Given(url) || url.value == "about:blank" ==> r == "general"
    ensures Given(url) && url.value != "about:blank" && parse(url.value).None? ==> r == "uncategorized"
    ensures Given(url) && url.value != "about:blank" && parse(url.value).Some? ==>
      var u := parse(url.value).value;
      var c := CategorizeByPath(u.pathname);
      (EnvironmentOf(u.hostname).None? ==> r == c)
      && (EnvironmentOf(u.hostname).Some? ==> r == EnvironmentOf(u.hostname).value + "/" + c)
  {
    if !Given(url) || url.value == "about:blank" then "general"
    else match parse(url.value)
      case None => "uncategorized"
      case Some(u) =>
        var c := CategorizeByPath(u.pathname);
        match EnvironmentOf(u.hostname)
        case None => c
        case Some(env) => env + "/" + c
  }

  /** One safe directory name, or `staging/` or `production/` followed by
      one. */
  predicate CategoryShaped(r: string) {
    || SafeDirName(r)
    || (Text.StartsWith(r, "staging/") && SafeDirName(r[8..]))
    || (Text.StartsWith(r, "production/") && SafeDirName(r[11..]))
  }

  /** Every category has that shape. */
  lemma UrlCategoryShape(url: Option<string>, parse: string -> Option<Url>)
    ensures CategoryShaped(ResolveUrlCategory(url, parse))
  {
    if !Given(url) || url.value == "about:blank" {
      WordSafe("general");
    } else if parse(url.value).None? {
      WordSafe("uncategorized");
    } else {
      var u := parse(url.value).value;
      match EnvironmentOf(u.hostname)
      case None =>
      case Some(env) => EnvironmentFolderShape(env, CategorizeByPath(u.pathname));
    }
  }

  lemma EnvironmentFolderShape(env: string, c: string)
    requires env == "staging" || env == "production"
    requires SafeDirName(c)
    ensures CategoryShaped(env + "/" + c)
  {
    var r := env + "/" + c;
    if env == "staging" {
      assert r[..8] == "staging/" && r[8..] == c;
    } else {
      assert r[..11] == "production/" && r[11..] == c;
    }
  }

  /** A word of lower-case letters is a safe directory name. */
  lemma WordSafe(w: string)
    requires |w| <= 50 && forall i :: 0 <= i < |w| ==> 'a' <= w[i] <= 'z'
    ensures SafeDirName(w)
  {
  }

  // ------------------------------------------------------------ file name

  /** `new Date().toISOString().replace(/[:.]/g, "-")`. */
  function FileTimestamp(iso: string): (r: string)
    ensures |r| == |iso| && ':' !in r && '.' !in r
    ensures forall i :: 0 <= i < |iso| && iso[i] != ':' && iso[i] != '.' ==> r[i] == iso[i]
  {
    seq(|iso|, i requires 0 <= i < |iso| => if iso[i] == ':' || iso[i] == '.' then '-' else iso[i])
  }

  /** `generateUrlBasedFilename`: `homepage` for a path without segments,
      the sanitized segment for one, the last two joined by a dash and
      sanitized for more; `page` when the URL does not parse. */
  function UrlBasedFilename(url: string, parse: string -> Option<Url>): (r: string)
    ensures SafeFileStem(r)
    ensures parse(url).None? ==> r == "page"
    ensures parse(url).Some? && Text.Segments(parse(url).value.pathname) == [] ==> r == "homepage"
    ensures parse(url).Some? && |Text.Segments(parse(url).value.pathname)| == 1 ==>
      r == SanitizeFilename(Text.Segments(parse(url).value.pathname)[0])
    ensures parse(url).Some? && |Text.Segments(parse(url).value.pathname)| >= 2 ==>
      var segs := Text.Segments(parse(url).value.pathname);
      r == SanitizeFilename(segs[|segs| - 2] + "-" + segs[|segs| - 1])
  {
    match parse(url)
    case None =>
      StemSafe("page");
      "page"
    case Some(u) =>
      var segs := Text.Segments(u.pathname);
      if segs == [] then
        StemSafe("homepage");
        "homepage"
      else
        var name := if |segs| == 1 then segs[0] else segs[|segs| - 2] + "-" + segs[|segs| - 1];
        SanitizedStemSafe(name);
        SanitizeFilename(name)
  }

  lemma StemSafe(w: string)
    requires |w| <= 100 && forall i :: 0 <= i < |w| ==> 'a' <= w[i] <= 'z'
    ensures SafeFileStem(w)
  {
  }

  lemma SanitizedStemSafe(name: string)
    ensures SafeFileStem(SanitizeFilename(name))
  {
    SanitizeFilenameSpec(name);
  }

  /** The part of the file name between the timestamp and `.png`: the
      sanitized custom name when one with a non-blank character is given,
      else a name taken from the URL, else `screenshot`. */
  function FileStem(url: Option<string>, custom: Option<string>, parse: string -> Option<Url>): (r: string)
    ensures SafeFileStem(r)
    ensures Given(custom) && !Text.IsBlank(custom.value) ==> r == SanitizeFilename(custom.value)
    ensures !(Given(custom) && !Text.IsBlank(custom.value)) && Given(url) ==> r == UrlBasedFilename(url.value, parse)
    ensures !(Given(custom) && !Text.IsBlank(custom.value)) && !Given(url) ==> r == "screenshot"
  {
    Text.TrimEmpty(if custom.Some? then custom.value else "");
    if Given(custom) && Text.Trim(custom.value) != "" then
      SanitizedStemSafe(custom.value);
      SanitizeFilename(custom.value)
    else if Given(url) then UrlBasedFilename(url.value, parse)
    else
      StemSafe("screenshot");
      "screenshot"
  }

  /** `generateFilename`: `<timestamp>_<stem>.png`. */
  function GenerateFilename(now: string, url: Option<string>, custom: Option<string>,
                            parse: string -> Option<Url>): string
  {
    FileTimestamp(now) + "_" + FileStem(url, custom, parse) + ".png"
  }

  /** The file name is the timestamp, an underscore, a stem without unsafe
      characters and `.png`; it holds no colon, and no slash when the clock
      text has none, so it names a file inside the category directory. */
  lemma GenerateFilenameShape(now: string, url: Option<string>, custom: Option<string>,
                              parse: string -> Option<Url>)
    ensures var f := GenerateFilename(now, url, custom, parse);
      var stem := FileStem(url, custom, parse);
      && Text.StartsWith(f, FileTimestamp(now) + "_") && Text.EndsWith(f, stem + ".png")
      && ':' !in f && ('/' !in now ==> '/' !in f)
  {
    var ts := FileTimestamp(now);
    assert '/' !in now ==> '/' !in ts by {
      if '/' !in now {
        forall i | 0 <= i < |ts| ensures ts[i] != '/' {
          assert ts[i] == now[i] || ts[i] == '-';
        }
      }
    }
    FileNameLayout(ts, FileStem(url, custom, parse));
  }

  lemma FileNameLayout(ts: string, stem: string)
    requires ':' !in ts && NoUnsafe(stem)
    ensures var f := ts + "_" + stem + ".png";
      && Text.StartsWith(f, ts + "_") && Text.EndsWith(f, stem + ".png")
      && ':' !in f && ('/' !in ts ==> '/' !in f)
  {
    var f := ts + "_" + stem + ".png";
    assert f == (ts + "_") + (stem + ".png");
    assert f[..|ts + "_"|] == ts + "_";
    assert f[|f| - |stem + ".png"|..] == stem + ".png";
    forall i | 0 <= i < |f| ensures f[i] != ':' && ('/' !in ts ==> f[i] != '/') {
      if i < |ts| {
        assert f[i] == ts[i];
      } else if i == |ts| {
        assert f[i] == '_';
      } else if i < |ts| + 1 + |stem| {
        assert f[i] == stem[i - |ts| - 1];
        assert !IsUnsafe(stem[i - |ts| - 1]);
      } else {
        assert f[i] == ".png"[i - |ts| - 1 - |stem|];
      }
    }
  }

  // --------------------------------------------------------------- base64

  const DATA_IMAGE: string := "data:image/"
  const BASE64_MARK: string := ";base64,"

  /** `cleanBase64Data`: the prefix matched by `/^data:image\/[^;]+;base64,/`
      removed: `data:image/`, one or more characters up to the first
      semicolon, then `;base64,`. Anything else is left as it is. */
  function CleanBase64Data(s: string): (r: string)
    ensures r == s || (Text.StartsWith(s, DATA_IMAGE) && |r| < |s| && s[|s| - |r|..] == r)
    ensures !Text.StartsWith(s, DATA_IMAGE) ==> r == s
  {
    if Text.StartsWith(s, DATA_IMAGE) then
      var rest := s[|DATA_IMAGE|..];
      if ';' in rest then
        var k := Text.IndexOf(rest, ';');
        if k >= 1 && Text.StartsWith(rest[k..], BASE64_MARK) then
          assert s[|s| - |rest[k + |BASE64_MARK|..]|..] == rest[k + |BASE64_MARK|..];
          rest[k + |BASE64_MARK|..]
        else s
      else s
    else s
  }

  /** A data URL of an image with a non-empty media subtype free of
      semicolons gives back exactly its payload. */
  lemma CleanBase64OfDataUrl(subtype: string, payload: string)
    requires subtype != "" && ';' !in subtype
    ensures CleanBase64Data(DATA_IMAGE + subtype + BASE64_MARK + payload) == payload
  {
    var s := DATA_IMAGE + subtype + BASE64_MARK + payload;
    var rest := s[|DATA_IMAGE|..];
    assert s[..|DATA_IMAGE|] == DATA_IMAGE;
    assert rest == subtype + BASE64_MARK + payload;
    assert rest[|subtype|] == ';';
    var k := Text.IndexOf(rest, ';');
    assert k == |subtype|;
    assert rest[k..] == BASE64_MARK + payload;
    assert rest[k..][..|BASE64_MARK|] == BASE64_MARK;
    assert rest[k + |BASE64_MARK|..] == payload;
  }

  // ------------------------------------------------------- saveScreenshot

  /** `resolveScreenshotPath` and `saveScreenshot`: the result record and
      the text written (base64-decoded) to `filePath`. */
  datatype Saved = Saved(result: ScreenshotResult, written: string)

  function SaveScreenshot(base64Data: string, url: Option<string>, config: ScreenshotConfig,
                          ctx: Context, parse: string -> Option<Url>): (r: Saved)
    ensures r.written == CleanBase64Data(base64Data)
    ensures r.result.imageData.Some? <==> config.returnImageData
    ensures r.result.imageData.Some? ==> r.result.imageData.value == r.written
    ensures r.result.projectDirectory == ResolveProjectDirectory(config.projectName, ctx)
    ensures r.result.urlCategory == ResolveUrlCategory(url, parse)
    ensures r.result.filename == GenerateFilename(ctx.now, url, config.filename, parse)
  {
    var clean := CleanBase64Data(base64Data);
    var base := ResolveBaseDirectory(config.baseDirectory, ctx);
    var project := ResolveProjectDirectory(config.projectName, ctx);
    var category := ResolveUrlCategory(url, parse);
    var filename := GenerateFilename(ctx.now, url, config.filename, parse);
    var fullPath := PathJoin([base, project, category, filename]);
    Saved(ScreenshotResult(fullPath, filename, if config.returnImageData then Some(clean) else None,
                           project, category),
          clean)
  }

  /** The file lands under the base directory, in a file with the generated
      name: the path is the base directory, a slash, the non-empty ones of
      project directory and category each followed by a slash, and the file
      name. */
  lemma SaveScreenshotPath(base64Data: string, url: Option<string>, config: ScreenshotConfig,
                           ctx: Context, parse: string -> Option<Url>)
    ensures var res := SaveScreenshot(base64Data, url, config, ctx, parse).result;
      var base := ResolveBaseDirectory(config.baseDirectory, ctx);
      var middle := NonEmpty([res.projectDirectory, res.urlCategory]);
      res.filePath == base + "/" + Text.Join(middle + [res.filename], "/")
  {
    var res := SaveScreenshot(base64Data, url, config, ctx, parse).result;
    var base := ResolveBaseDirectory(config.baseDirectory, ctx);
    var p := res.projectDirectory;
    var c := res.urlCategory;
    var f := res.filename;
    assert f != "" by {
      GenerateFilenameShape(ctx.now, url, config.filename, parse);
    }
    FourParts(base, p, c, f);
  }

  lemma FourParts(base: string, p: string, c: string, f: string)
    requires base != "" && f != ""
    ensures PathJoin([base, p, c, f]) == base + "/" + Text.Join(NonEmpty([p, c]) + [f], "/")
  {
    assert [base, p, c, f] == [base] + [p, c, f];
    assert [p, c, f] == [p, c] + [f];
    NonEmptySnoc([p, c], f);
    PathJoinCons(base, [p, c, f]);
  }
}
