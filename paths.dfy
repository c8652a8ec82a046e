/**
 * `convertPathForCurrentPlatform` of the relay server: rewrites a path
 * written for one operating system into the form of the platform the
 * server runs on (WSL network paths, UNC paths, drive-letter paths).
 * The platform name is a parameter instead of `os.platform()`.
 */
module Paths {
  import opened Wrappers
  import Text

  const BACKSLASH: char := '\\'

  /** `s.replace(/<from>/g, "<to>")` for a single character. */
  function ReplaceChar(s: string, from: char, to: char): (r: string)
    ensures |r| == |s|
    ensures forall i :: 0 <= i < |s| ==> r[i] == (if s[i] == from then to else s[i])
  {
    seq(|s|, i requires 0 <= i < |s| => if s[i] == from then to else s[i])
  }

  /** Replacing a character leaves none of it, when the target differs. */
  lemma ReplaceCharRemoves(s: string, from: char, to: char)
    requires from != to
    ensures from !in ReplaceChar(s, from, to)
  {
  }

  /** `s.replace(/\\\\/g, "/")`: each non-overlapping pair of backslashes,
      scanning left to right, becomes one slash. */
  function CollapseBackslashPairs(s: string): (r: string)
    ensures forall c :: c in r ==> c in s || c == '/'
    decreases |s|
  {
    if |s| >= 2 && s[0] == BACKSLASH && s[1] == BACKSLASH then "/" + CollapseBackslashPairs(s[2..])
    else if s == [] then []
    else [s[0]] + CollapseBackslashPairs(s[1..])
  }

  /** The WSL distributions the server recognises, in the order it tries them. */
  const DIST_NAMES: seq<string> := ["Ubuntu", "Debian", "kali", "openSUSE", "SLES", "Fedora"]

  /** `parts.findIndex(p => p === name || p.toLowerCase() === name.toLowerCase())`. */
  function FindPart(parts: seq<string>, name: string): (r: Option<nat>)
    ensures r.Some? ==> r.value < |parts| && Text.Lower(parts[r.value]) == Text.Lower(name)
    ensures r.Some? ==> forall i :: 0 <= i < r.value ==> Text.Lower(parts[i]) != Text.Lower(name)
    ensures r.None? ==> forall i :: 0 <= i < |parts| ==> Text.Lower(parts[i]) != Text.Lower(name)
  {
    if parts == [] then None
    else if parts[0] == name || Text.Lower(parts[0]) == Text.Lower(name) then Some(0)
    else match FindPart(parts[1..], name)
      case Some(i) => Some(i + 1)
      case None => None
  }

  /** Index of the first part naming the first distribution (in
      `DIST_NAMES` order) that occurs at all. */
  function FindDist(parts: seq<string>, dists: seq<string>): (r: Option<nat>)
    ensures r.Some? ==> r.value < |parts|
  {
    if dists == [] then None
    else match FindPart(parts, dists[0])
      case Some(i) => Some(i)
      case None => FindDist(parts, dists[1..])
  }

  predicate IsWslMarker(part: string) {
    var p := Text.Lower(part);
    p == "wsl.localhost" || p == "wsl$"
  }

  function FindWsl(parts: seq<string>): (r: Option<nat>)
    ensures r.Some? ==> r.value < |parts| && IsWslMarker(parts[r.value])
    ensures r.Some? ==> forall i :: 0 <= i < r.value ==> !IsWslMarker(parts[i])
  {
    if parts == [] then None
    else if IsWslMarker(parts[0]) then Some(0)
    else match FindWsl(parts[1..])
      case Some(i) => Some(i + 1)
      case None => None
  }

  function BackslashSep(c: char): bool { c == BACKSLASH }

  /** The Linux path of a WSL network path, when a distribution or the WSL
      host name is followed by at least one more component. */
  function WslLinuxPath(input: string): Option<string> {
    var parts := Text.Fields(input, BackslashSep);
    var d := FindDist(parts, DIST_NAMES);
    if d.Some? && d.value + 1 < |parts| then Some("/" + Text.Join(parts[d.value + 1..], "/"))
    else
      var w := FindWsl(parts);
      if w.Some? && w.value + 2 < |parts| then Some("/" + Text.Join(parts[w.value + 2..], "/"))
      else None
  }

  /** Backslash pairs, then single backslashes, become slashes. */
  function NormalizeSlashes(input: string): string {
    ReplaceChar(CollapseBackslashPairs(input), BACKSLASH, '/')
  }

  predicate MentionsWsl(input: string) {
    Text.Contains(input, "wsl.localhost") || Text.Contains(input, "wsl$")
  }

  /** `/^[A-Z]:\\/i`: a drive letter, a colon and a backslash. */
  predicate IsDrivePath(input: string) {
    |input| >= 3 && 'A' <= Text.UpperChar(input[0]) <= 'Z' && input[1] == ':' && input[2] == BACKSLASH
  }

  /** The function as the source writes it. */
  function ConvertPathForCurrentPlatform(platform: string, input: string): string {
    if input == "" then input
    else if platform == "win32" then ReplaceChar(input, '/', BACKSLASH)
    else if platform == "linux" || platform == "darwin" then
      if Text.StartsWith(input, [BACKSLASH, BACKSLASH]) || BACKSLASH in input then
        var wsl := if MentionsWsl(input) then WslLinuxPath(input) else None;
        if wsl.Some? then wsl.value else NormalizeSlashes(input)
      else if IsDrivePath(input) then
        ReplaceChar("/" + input[3..], BACKSLASH, '/')
      else input
    else input
  }

  /** Empty input, and any input on a platform other than Windows, Linux or
      macOS, comes back unchanged; on Windows every slash becomes a
      backslash and nothing else changes. */
  lemma ConvertPathPassThrough(platform: string, input: string)
    ensures input == "" ==> ConvertPathForCurrentPlatform(platform, input) == ""
    ensures platform !in {"win32", "linux", "darwin"} ==> ConvertPathForCurrentPlatform(platform, input) == input
    ensures platform == "win32" ==>
      var r := ConvertPathForCurrentPlatform(platform, input);
      && '/' !in r && |r| == |input|
      && (forall i :: 0 <= i < |input| && input[i] == '/' ==> r[i] == BACKSLASH)
      && (forall i :: 0 <= i < |input| && input[i] != '/' ==> r[i] == input[i])
  {
    if platform == "win32" && input != "" {
      ReplaceCharRemoves(input, '/', BACKSLASH);
    }
  }

  /** On Linux and macOS a path with a backslash comes back with none, and
      one without a backslash comes back unchanged. */
  lemma ConvertPathUnix(platform: string, input: string)
    requires platform == "linux" || platform == "darwin"
    ensures BACKSLASH in input ==> BACKSLASH !in ConvertPathForCurrentPlatform(platform, input)
    ensures BACKSLASH !in input ==> ConvertPathForCurrentPlatform(platform, input) == input
  {
    if BACKSLASH in input {
      var wsl := if MentionsWsl(input) then WslLinuxPath(input) else None;
      if wsl.Some? {
        WslPathHasNoBackslash(input);
      } else {
        ReplaceCharRemoves(CollapseBackslashPairs(input), BACKSLASH, '/');
      }
    } else {
      assert !Text.StartsWith(input, [BACKSLASH, BACKSLASH]) by {
        if |input| >= 2 {
          assert input[0] == input[..2][0];
        }
      }
    }
  }

  lemma WslPathHasNoBackslash(input: string)
    requires WslLinuxPath(input).Some?
    ensures BACKSLASH !in WslLinuxPath(input).value
  {
    var parts := Text.Fields(input, BackslashSep);
    forall k | 0 <= k < |parts| ensures BACKSLASH !in parts[k] {
      Text.FieldsWellFormed(input, BackslashSep);
      assert BackslashSep(BACKSLASH);
    }
    var d := FindDist(parts, DIST_NAMES);
    if d.Some? && d.value + 1 < |parts| {
      JoinAvoids(parts[d.value + 1..], "/", BACKSLASH);
    } else {
      var w := FindWsl(parts);
      JoinAvoids(parts[w.value + 2..], "/", BACKSLASH);
    }
  }

  lemma {:induction false} JoinAvoids(parts: seq<string>, sep: string, c: char)
    requires c !in sep
    requires forall k :: 0 <= k < |parts| ==> c !in parts[k]
    ensures c !in Text.Join(parts, sep)
    decreases |parts|
  {
    if |parts| > 1 {
      JoinAvoids(parts[1..], sep, c);
    }
  }

  /** The drive-letter branch can never run: a drive path holds a
      backslash, so the UNC branch above it already takes it, and the drive
      letter and colon survive. */
  lemma DriveBranchUnreachable(platform: string, input: string)
    requires platform == "linux" || platform == "darwin"
    requires IsDrivePath(input) && !MentionsWsl(input)
    ensures ConvertPathForCurrentPlatform(platform, input) == NormalizeSlashes(input)
    ensures var r := ConvertPathForCurrentPlatform(platform, input);
      |r| >= 2 && r[0] == input[0] && r[1] == ':'
  {
    assert BACKSLASH in input by {
      assert input[2] == BACKSLASH;
    }
    NormalizeKeepsDrive(input);
  }

  lemma NormalizeKeepsDrive(input: string)
    requires IsDrivePath(input)
    ensures var r := NormalizeSlashes(input);
      |r| >= 2 && r[0] == input[0] && r[1] == ':'
  {
    assert input[0] != BACKSLASH;
    var t := input[1..];
    assert t[0] == ':' && t[1..] == input[2..];
    assert CollapseBackslashPairs(t) == [':'] + CollapseBackslashPairs(input[2..]);
    var c := CollapseBackslashPairs(input);
    assert c == [input[0]] + CollapseBackslashPairs(t);
  }

  /** The drive-letter conversion reached before the generic normalisation:
      a drive path that is not a WSL path becomes an absolute Unix path. */
  function ConvertPathDriveFirst(platform: string, input: string): string {
    if (platform == "linux" || platform == "darwin") && IsDrivePath(input) && !MentionsWsl(input) then
      ReplaceChar("/" + input[3..], BACKSLASH, '/')
    else ConvertPathForCurrentPlatform(platform, input)
  }

  /** With the drive check first, a drive path loses its drive prefix, starts
      with a slash and holds no backslash; every other input converts as
      before. */
  lemma DriveFirstSpec(platform: string, input: string)
    requires platform == "linux" || platform == "darwin"
    ensures IsDrivePath(input) && !MentionsWsl(input) ==>
      var r := ConvertPathDriveFirst(platform, input);
      |r| == |input| - 2 && r[0] == '/' && BACKSLASH !in r
    ensures !(IsDrivePath(input) && !MentionsWsl(input)) ==>
      ConvertPathDriveFirst(platform, input) == ConvertPathForCurrentPlatform(platform, input)
  {
    if IsDrivePath(input) && !MentionsWsl(input) {
      ReplaceCharRemoves("/" + input[3..], BACKSLASH, '/');
    }
  }
}
