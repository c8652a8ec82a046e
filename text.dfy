/**
 * String helpers with the semantics of the JavaScript built-ins the system
 * relies on: `toLowerCase`/`toUpperCase` (ASCII letters only), the regular
 * expression class `\s`, `includes`, `startsWith`, `split` followed by a
 * filter that drops empty pieces, `join`, de-duplication through a `Set`
 * (first occurrence wins) and `parseInt(s, 10)`.
 */
module Text {
  import opened Wrappers

  // ---------------------------------------------------------------- case

  function LowerChar(c: char): char {
    if 'A' <= c <= 'Z' then (c as int + 32) as char else c
  }

  function UpperChar(c: char): char {
    if 'a' <= c <= 'z' then (c as int - 32) as char else c
  }

  /** `s.toLowerCase()` restricted to ASCII letters. */
  function Lower(s: string): (r: string)
    ensures |r| == |s|
    ensures forall i :: 0 <= i < |s| ==> r[i] == LowerChar(s[i])
  {
    seq(|s|, i requires 0 <= i < |s| => LowerChar(s[i]))
  }

  /** `s.toUpperCase()` restricted to ASCII letters. */
  function Upper(s: string): (r: string)
    ensures |r| == |s|
    ensures forall i :: 0 <= i < |s| ==> r[i] == UpperChar(s[i])
  {
    seq(|s|, i requires 0 <= i < |s| => UpperChar(s[i]))
  }

  predicate NoUpper(s: string) {
    forall i :: 0 <= i < |s| ==> !('A' <= s[i] <= 'Z')
  }

  predicate NoLower(s: string) {
    forall i :: 0 <= i < |s| ==> !('a' <= s[i] <= 'z')
  }

  /** Raising leaves no lower-case letter, is idempotent, and does not
      change how a string compares once lowered. */
  lemma UpperIsUpper(s: string)
    ensures NoLower(Upper(s))
    ensures Upper(Upper(s)) == Upper(s)
    ensures Lower(Upper(s)) == Lower(s)
  {
  }

  /** Lowering leaves no upper-case letter and is idempotent. */
  lemma LowerIsLower(s: string)
    ensures NoUpper(Lower(s))
    ensures Lower(Lower(s)) == Lower(s)
  {
  }

  // ---------------------------------------------------------- whitespace

  /** The characters matched by `\s` in an ECMAScript regular expression
      (white space and line terminators); `trim` removes the same set. */
  predicate IsWhitespace(c: char) {
    || c == ' ' || c == '\t' || c == '\n' || c == '\r'
    || c == '\U{000B}' || c == '\U{000C}' || c == '\U{00A0}' || c == '\U{1680}'
    || ('\U{2000}' <= c <= '\U{200A}')
    || c == '\U{2028}' || c == '\U{2029}' || c == '\U{202F}' || c == '\U{205F}'
    || c == '\U{3000}' || c == '\U{FEFF}'
  }

  /** `s.trim() === ""`: the string holds only white space. */
  predicate IsBlank(s: string) {
    forall i :: 0 <= i < |s| ==> IsWhitespace(s[i])
  }

  /** Leading white space removed. */
  function TrimStart(s: string): (r: string)
    ensures |r| <= |s| && r == s[|s| - |r|..] && IsBlank(s[..|s| - |r|])
    ensures r == [] || !IsWhitespace(r[0])
    decreases |s|
  {
    if s != [] && IsWhitespace(s[0]) then
      var r := TrimStart(s[1..]);
      assert s[..|s| - |r|] == [s[0]] + s[1..][..|s[1..]| - |r|];
      r
    else s
  }

  /** Trailing white space removed. */
  function TrimEnd(s: string): (r: string)
    ensures |r| <= |s| && r == s[..|r|] && IsBlank(s[|r|..])
    ensures r == [] || !IsWhitespace(r[|r| - 1])
    decreases |s|
  {
    if s != [] && IsWhitespace(s[|s| - 1]) then
      var r := TrimEnd(s[..|s| - 1]);
      assert s[|r|..] == s[..|s| - 1][|r|..] + [s[|s| - 1]];
      r
    else s
  }

  /** `s.trim()`: the middle of `s` once the white space at both ends is
      removed, so that it neither starts nor ends with white space. */
  function Trim(s: string): (r: string)
    ensures exists a, b :: 0 <= a <= b <= |s| && r == s[a..b] && IsBlank(s[..a]) && IsBlank(s[b..])
    ensures r == [] || (!IsWhitespace(r[0]) && !IsWhitespace(r[|r| - 1]))
  {
    var t := TrimStart(s);
    var r := TrimEnd(t);
    var a := |s| - |t|;
    assert r == s[a..a + |r|] && s[a + |r|..] == t[|r|..];
    assert IsBlank(s[..a]) && IsBlank(s[a + |r|..]);
    r
  }

  /** `s.trim()` is empty exactly when `s` is blank. */
  lemma TrimEmpty(s: string)
    ensures Trim(s) == [] <==> IsBlank(s)
  {
    var a := TrimStart(s);
    if Trim(s) == [] {
      assert a[|a| - |a|..] == a;
      assert s[..|s|] == s;
    }
  }

  /** A string without white space at either end is its own trim. */
  lemma TrimUntouched(s: string)
    requires s == [] || (!IsWhitespace(s[0]) && !IsWhitespace(s[|s| - 1]))
    ensures Trim(s) == s
  {
  }

  // ------------------------------------------------------------ searching

  predicate StartsWith(s: string, p: string) {
    |p| <= |s| && s[..|p|] == p
  }

  predicate EndsWith(s: string, p: string) {
    |p| <= |s| && s[|s| - |p|..] == p
  }

  /** `s.includes(t)`. */
  predicate Contains(s: string, t: string) {
    exists i | 0 <= i <= |s| :: StartsWith(s[i..], t)
  }

  predicate HasChar(s: string, c: char) {
    exists i | 0 <= i < |s| :: s[i] == c
  }

  lemma ContainsSelf(s: string)
    ensures Contains(s, s)
  {
    assert StartsWith(s[0..], s);
  }

  /** A one-character string occurs exactly where that character does. */
  lemma ContainsChar(s: string, c: char)
    ensures Contains(s, [c]) <==> HasChar(s, c)
  {
    if HasChar(s, c) {
      var i :| 0 <= i < |s| && s[i] == c;
      assert StartsWith(s[i..], [c]);
    }
    if Contains(s, [c]) {
      var i :| 0 <= i <= |s| && StartsWith(s[i..], [c]);
      assert s[i] == s[i..][0];
    }
  }

  /** Every character of an occurring string is a character of the string
      it occurs in. */
  lemma ContainsChars(s: string, t: string, c: char)
    requires Contains(s, t) && c in t
    ensures c in s
  {
    var i :| 0 <= i <= |s| && StartsWith(s[i..], t);
    var k :| 0 <= k < |t| && t[k] == c;
    assert s[i + k] == s[i..][k];
  }

  // ----------------------------------------------------------- splitting

  /** Length of the longest prefix of `s` without a separator. */
  function RunLength(s: string, isSep: char -> bool): (n: nat)
    ensures n <= |s|
    ensures forall i :: 0 <= i < n ==> !isSep(s[i])
    ensures n == |s| || isSep(s[n])
  {
    if s == [] || isSep(s[0]) then 0 else 1 + RunLength(s[1..], isSep)
  }

  /** `s.split(sep).filter(p => p.length > 0)`: the maximal runs of
      non-separator characters, left to right. */
  function Fields(s: string, isSep: char -> bool): (r: seq<string>)
    decreases |s|
  {
    if s == [] then []
    else if isSep(s[0]) then Fields(s[1..], isSep)
    else
      var n := RunLength(s, isSep);
      [s[..n]] + Fields(s[n..], isSep)
  }

  /** Every field is non-empty, holds no separator and only characters of `s`. */
  lemma {:induction false} FieldsWellFormed(s: string, isSep: char -> bool)
    ensures forall k :: 0 <= k < |Fields(s, isSep)| ==> Fields(s, isSep)[k] != []
    ensures forall k, c :: 0 <= k < |Fields(s, isSep)| && c in Fields(s, isSep)[k] ==> !isSep(c) && c in s
    decreases |s|
  {
    if s == [] {
    } else if isSep(s[0]) {
      FieldsWellFormed(s[1..], isSep);
      assert forall c :: c in s[1..] ==> c in s;
    } else {
      var n := RunLength(s, isSep);
      FieldsWellFormed(s[n..], isSep);
      var r := Fields(s, isSep);
      assert r == [s[..n]] + Fields(s[n..], isSep);
      forall k, c | 0 <= k < |r| && c in r[k] ensures !isSep(c) && c in s {
        if k == 0 {
          var i :| 0 <= i < n && s[..n][i] == c;
        } else {
          assert r[k] == Fields(s[n..], isSep)[k - 1];
        }
      }
    }
  }

  /** A string without separators is one field (or none, when empty). */
  lemma {:induction false} FieldsOfPlain(s: string, isSep: char -> bool)
    requires forall i :: 0 <= i < |s| ==> !isSep(s[i])
    ensures Fields(s, isSep) == if s == [] then [] else [s]
  {
    if s != [] {
      RunLengthOfPlain(s, isSep);
      assert !isSep(s[0]);
      assert s[..|s|] == s && s[|s|..] == [];
      assert Fields(s, isSep) == [s[..|s|]] + Fields(s[|s|..], isSep);
    }
  }

  lemma {:induction false} RunLengthOfPlain(s: string, isSep: char -> bool)
    requires forall i :: 0 <= i < |s| ==> !isSep(s[i])
    ensures RunLength(s, isSep) == |s|
  {
    if s != [] {
      RunLengthOfPlain(s[1..], isSep);
    }
  }

  /** A separator in front of the string adds no field. */
  lemma FieldsAfterSep(c: char, rest: string, isSep: char -> bool)
    requires isSep(c)
    ensures Fields([c] + rest, isSep) == Fields(rest, isSep)
  {
    assert ([c] + rest)[1..] == rest;
  }

  /** A word ended by a separator is the first field. */
  lemma FieldsWord(w: string, c: char, rest: string, isSep: char -> bool)
    requires w != [] && isSep(c)
    requires forall i :: 0 <= i < |w| ==> !isSep(w[i])
    ensures Fields(w + [c] + rest, isSep) == [w] + Fields([c] + rest, isSep)
  {
    var s := w + [c] + rest;
    RunLengthWord(w, c, rest, isSep);
    assert s[0] == w[0] && !isSep(s[0]);
    assert s[..|w|] == w;
    assert s[|w|..] == [c] + rest;
    assert Fields(s, isSep) == [s[..|w|]] + Fields(s[|w|..], isSep);
  }

  lemma {:induction false} RunLengthWord(w: string, c: char, rest: string, isSep: char -> bool)
    requires isSep(c)
    requires forall i :: 0 <= i < |w| ==> !isSep(w[i])
    ensures RunLength(w + [c] + rest, isSep) == |w|
    decreases |w|
  {
    if w != [] {
      RunLengthWord(w[1..], c, rest, isSep);
      assert (w + [c] + rest)[1..] == w[1..] + [c] + rest;
    }
  }

  lemma {:induction false} RunLengthAgree(s: string, t: string, p: char -> bool, q: char -> bool)
    requires |s| == |t|
    requires forall i :: 0 <= i < |s| ==> (p(s[i]) <==> q(t[i]))
    ensures RunLength(s, p) == RunLength(t, q)
    decreases |s|
  {
    if s != [] && !p(s[0]) {
      RunLengthAgree(s[1..], t[1..], p, q);
    }
  }

  /** Two strings with separators in the same places, and the same
      characters everywhere else, have the same fields. */
  lemma {:induction false} FieldsAgree(s: string, t: string, p: char -> bool, q: char -> bool)
    requires |s| == |t|
    requires forall i :: 0 <= i < |s| ==> (p(s[i]) <==> q(t[i]))
    requires forall i :: 0 <= i < |s| && !p(s[i]) ==> s[i] == t[i]
    ensures Fields(s, p) == Fields(t, q)
    decreases |s|
  {
    if s == [] {
    } else if p(s[0]) {
      FieldsAgree(s[1..], t[1..], p, q);
    } else {
      RunLengthAgree(s, t, p, q);
      var n := RunLength(s, p);
      assert s[..n] == t[..n];
      FieldsAgree(s[n..], t[n..], p, q);
    }
  }

  /** A string starting with a character that is not a separator has its
      first run as first field. */
  lemma FieldsHead(s: string, isSep: char -> bool)
    requires s != [] && !isSep(s[0])
    ensures var n := RunLength(s, isSep);
      n >= 1 && Fields(s, isSep) == [s[..n]] + Fields(s[n..], isSep)
  {
  }

  /** A character that is not a separator, put in front, starts a field of
      its own when the rest is empty or starts with a separator. */
  lemma FieldsConsNew(a: char, x: string, isSep: char -> bool)
    requires !isSep(a) && (x == [] || isSep(x[0]))
    ensures Fields([a] + x, isSep) == [[a]] + Fields(x, isSep)
  {
    var s := [a] + x;
    assert s[1..] == x;
    assert RunLength(s, isSep) == 1;
    assert s[..1] == [a];
  }

  /** Otherwise it extends the first field. */
  lemma FieldsConsExtend(a: char, x: string, isSep: char -> bool)
    requires !isSep(a) && x != [] && !isSep(x[0])
    ensures Fields(x, isSep) != []
    ensures Fields([a] + x, isSep) == [[a] + Fields(x, isSep)[0]] + Fields(x, isSep)[1..]
  {
    var s := [a] + x;
    var n := RunLength(x, isSep);
    FieldsHead(x, isSep);
    assert s[1..] == x;
    assert RunLength(s, isSep) == 1 + n;
    FieldsHead(s, isSep);
    assert s[..n + 1] == [a] + x[..n];
    assert s[n + 1..] == x[n..];
  }

  lemma {:induction false} RunLengthSnocSep(s: string, c: char, isSep: char -> bool)
    requires isSep(c)
    ensures RunLength(s + [c], isSep) == RunLength(s, isSep)
    decreases |s|
  {
    if s != [] && !isSep(s[0]) {
      RunLengthSnocSep(s[1..], c, isSep);
      assert (s + [c])[1..] == s[1..] + [c];
    }
  }

  /** A separator at the end adds no field. */
  lemma {:induction false} FieldsSnocSep(s: string, c: char, isSep: char -> bool)
    requires isSep(c)
    ensures Fields(s + [c], isSep) == Fields(s, isSep)
    decreases |s|
  {
    var t := s + [c];
    if s == [] {
      assert t[1..] == [];
    } else if isSep(s[0]) {
      assert t[1..] == s[1..] + [c];
      FieldsSnocSep(s[1..], c, isSep);
    } else {
      RunLengthSnocSep(s, c, isSep);
      var n := RunLength(s, isSep);
      assert t[..n] == s[..n];
      assert t[n..] == s[n..] + [c];
      FieldsSnocSep(s[n..], c, isSep);
    }
  }

  /** `c` occurs only singly, and neither first nor last. */
  predicate SingleSeparated(r: string, c: char) {
    && (r == [] || (r[0] != c && r[|r| - 1] != c))
    && NoDoubled(r, c)
  }

  /** `c` never occurs twice in a row. */
  predicate NoDoubled(r: string, c: char) {
    forall i :: 0 <= i < |r| - 1 ==> !DoubledAt(r, c, i)
  }

  /** A slice of a string without doubled `c` has none either. */
  lemma NoDoubledSlice(r: string, c: char, i: nat, j: nat)
    requires NoDoubled(r, c) && i <= j <= |r|
    ensures NoDoubled(r[i..j], c)
  {
    var t := r[i..j];
    forall k | 0 <= k < |t| - 1 ensures !DoubledAt(t, c, k) {
      assert !DoubledAt(r, c, i + k);
      assert t[k] == r[i + k] && t[k + 1] == r[i + k + 1];
    }
  }

  /** `c` at position `i` and again right after it. */
  predicate DoubledAt(r: string, c: char, i: int)
    requires 0 <= i < |r| - 1
  {
    r[i] == c && r[i + 1] == c
  }

  lemma SingleSeparatedSuffix(r: string, c: char, k: nat)
    requires SingleSeparated(r, c) && k < |r| && r[k] != c
    ensures SingleSeparated(r[k..], c)
  {
    NoDoubledSlice(r, c, k, |r|);
    assert r[k..] == r[k..|r|];
  }

  lemma JoinCons(w: string, fs: seq<string>, sep: string)
    requires fs != []
    ensures Join([w] + fs, sep) == w + sep + Join(fs, sep)
  {
    assert ([w] + fs)[1..] == fs;
  }

  /** The separator test for a single character. */
  function IsChar(c: char): char -> bool {
    x => x == c
  }

  /** Such a string is the join of its fields with `c`. */
  lemma {:induction false} JoinOfFields(r: string, c: char)
    requires SingleSeparated(r, c)
    ensures Join(Fields(r, IsChar(c)), [c]) == r
    decreases |r|
  {
    if r != [] {
      var n := RunLength(r, IsChar(c));
      if n == |r| {
        FieldsOfPlain(r, IsChar(c));
      } else {
        assert n + 1 < |r| && r[n] == c && !DoubledAt(r, c, n);
        SingleSeparatedSuffix(r, c, n + 1);
        JoinOfFields(r[n + 1..], c);
        JoinOfFieldsStep(r, c, n, IsChar(c));
      }
    }
  }

  lemma JoinOfFieldsStep(r: string, c: char, n: nat, isSep: char -> bool)
    requires n + 1 < |r| && !isSep(r[0]) && r[n] == c && !isSep(r[n + 1])
    requires n == RunLength(r, isSep)
    requires Join(Fields(r[n + 1..], isSep), [c]) == r[n + 1..]
    ensures Join(Fields(r, isSep), [c]) == r
  {
    var fs := Fields(r[n + 1..], isSep);
    FieldsAfterRun(r, n, isSep);
    JoinCons(r[..n], fs, [c]);
    SplitAround(r, n);
  }

  lemma SplitAround<T>(r: seq<T>, n: nat)
    requires n < |r|
    ensures r == r[..n] + [r[n]] + r[n + 1..]
  {
  }

  /** The first run, a separator and a non-separator: the fields are the
      run followed by the fields of what follows the separator. */
  lemma FieldsAfterRun(r: string, n: nat, isSep: char -> bool)
    requires n + 1 < |r| && n == RunLength(r, isSep) && !isSep(r[0])
    requires !isSep(r[n + 1])
    ensures Fields(r[n + 1..], isSep) != []
    ensures Fields(r, isSep) == [r[..n]] + Fields(r[n + 1..], isSep)
  {
    FieldsHead(r, isSep);
    assert r[n..][1..] == r[n + 1..];
    FieldsHead(r[n + 1..], isSep);
  }

  function SlashSep(c: char): bool { c == '/' }

  /** `s.split("/").filter(x => x.length > 0)`. */
  function Segments(s: string): seq<string> {
    Fields(s, SlashSep)
  }

  /** `parts.join(sep)`. */
  function Join(parts: seq<string>, sep: string): string
    decreases |parts|
  {
    if parts == [] then ""
    else if |parts| == 1 then parts[0]
    else parts[0] + sep + Join(parts[1..], sep)
  }

  /** `s.split(c)`: the pieces between occurrences of `c`, empty pieces
      included, so there is always one more piece than separators. */
  function Split(s: string, c: char): (r: seq<string>)
    ensures |r| >= 1
    ensures forall k :: 0 <= k < |r| ==> c !in r[k]
    decreases |s|
  {
    if s == [] then [""]
    else
      var rest := Split(s[1..], c);
      if s[0] == c then [""] + rest else [[s[0]] + rest[0]] + rest[1..]
  }

  /** A piece without the separator, followed by the separator, is the
      first piece of the split. */
  lemma {:induction false} SplitWord(w: string, c: char, rest: string)
    requires c !in w
    ensures Split(w + [c] + rest, c) == [w] + Split(rest, c)
    decreases |w|
  {
    if w == [] {
      assert ([c] + rest)[1..] == rest;
    } else {
      SplitWord(w[1..], c, rest);
      assert (w + [c] + rest)[1..] == w[1..] + [c] + rest;
      assert [w[0]] + w[1..] == w;
    }
  }

  /** A string without the separator splits into itself. */
  lemma {:induction false} SplitPlain(w: string, c: char)
    requires c !in w
    ensures Split(w, c) == [w]
    decreases |w|
  {
    if w != [] {
      SplitPlain(w[1..], c);
      assert [w[0]] + w[1..] == w;
    }
  }

  /** Joining the pieces of a split with the separator gives the string back. */
  lemma {:induction false} JoinSplit(s: string, c: char)
    ensures Join(Split(s, c), [c]) == s
    decreases |s|
  {
    if s != [] {
      var rest := Split(s[1..], c);
      JoinSplit(s[1..], c);
      if s[0] == c {
        assert Split(s, c) == [""] + rest;
        if |rest| == 1 {
          assert Join(rest, [c]) == rest[0];
        } else {
          assert Join(rest, [c]) == rest[0] + [c] + Join(rest[1..], [c]);
        }
        assert Join([""] + rest, [c]) == "" + [c] + Join(rest, [c]);
      } else {
        var r := [[s[0]] + rest[0]] + rest[1..];
        assert Split(s, c) == r;
        if |rest| == 1 {
          assert Join(r, [c]) == [s[0]] + rest[0];
        } else {
          assert r[1..] == rest[1..];
          assert Join(r, [c]) == [s[0]] + rest[0] + [c] + Join(rest[1..], [c]);
          assert Join(rest, [c]) == rest[0] + [c] + Join(rest[1..], [c]);
        }
      }
    }
  }

  /** A character of a joined string comes from a part or from the separator. */
  lemma {:induction false} JoinChars(parts: seq<string>, sep: string, c: char)
    requires c in Join(parts, sep)
    ensures c in sep || exists k :: 0 <= k < |parts| && c in parts[k]
    decreases |parts|
  {
    if |parts| > 1 {
      var rest := Join(parts[1..], sep);
      assert Join(parts, sep) == parts[0] + sep + rest;
      if c !in parts[0] && c !in sep {
        JoinChars(parts[1..], sep, c);
        var k :| 0 <= k < |parts[1..]| && c in parts[1..][k];
        assert c in parts[k + 1];
      }
    }
  }

  // --------------------------------------------------------- de-duplicate

  predicate NoDuplicates<T(==)>(s: seq<T>) {
    forall i, j :: 0 <= i < j < |s| ==> s[i] != s[j]
  }

  /** Index of the first occurrence of `x` in `s`. */
  function IndexOf<T(==)>(s: seq<T>, x: T): (i: nat)
    requires x in s
    ensures i < |s| && s[i] == x
    ensures forall j :: 0 <= j < i ==> s[j] != x
  {
    if s[0] == x then 0 else 1 + IndexOf(s[1..], x)
  }

  /** `s.lastIndexOf(c)`; None stands for -1. */
  function LastIndexOf(s: string, c: char): (r: Option<nat>)
    ensures r.Some? ==> r.value < |s| && s[r.value] == c && c !in s[r.value + 1..]
    ensures r.None? ==> c !in s
    decreases |s|
  {
    if s == [] then None
    else if s[|s| - 1] == c then Some(|s| - 1)
    else
      var r := LastIndexOf(s[..|s| - 1], c);
      assert r.Some? ==> s[r.value + 1..] == s[..|s| - 1][r.value + 1..] + [s[|s| - 1]];
      assert s == s[..|s| - 1] + [s[|s| - 1]];
      r
  }

  /** `[...new Set(s)]`: the distinct elements in order of first occurrence. */
  function Dedupe<T(==)>(s: seq<T>): seq<T>
    decreases |s|
  {
    if s == [] then []
    else
      var d := Dedupe(s[..|s| - 1]);
      if s[|s| - 1] in d then d else d + [s[|s| - 1]]
  }

  /** Dedupe keeps exactly the elements of its input, once each. */
  lemma {:induction false} DedupeSpec<T>(s: seq<T>)
    ensures NoDuplicates(Dedupe(s))
    ensures forall x :: x in Dedupe(s) <==> x in s
    decreases |s|
  {
    if s != [] {
      DedupeSpec(s[..|s| - 1]);
      assert s == s[..|s| - 1] + [s[|s| - 1]];
    }
  }

  /** Dedupe orders the elements by where they first occur in the input. */
  lemma {:induction false} DedupeOrder<T>(s: seq<T>)
    ensures forall x :: x in Dedupe(s) ==> x in s
    ensures forall i, j :: 0 <= i < j < |Dedupe(s)| ==> IndexOf(s, Dedupe(s)[i]) < IndexOf(s, Dedupe(s)[j])
    decreases |s|
  {
    DedupeSpec(s);
    if s != [] {
      var init := s[..|s| - 1];
      var last := s[|s| - 1];
      DedupeOrder(init);
      DedupeSpec(init);
      var d := Dedupe(init);
      forall x | x in init ensures x in s && IndexOf(s, x) == IndexOf(init, x) {
        IndexOfPrefix(s, init, x);
      }
      if last !in d {
        var r := d + [last];
        assert last !in init;
        IndexOfLast(s, last);
        forall i, j | 0 <= i < j < |r| ensures IndexOf(s, r[i]) < IndexOf(s, r[j]) {
          assert r[i] == d[i];
          if j < |d| {
            assert r[j] == d[j];
          }
        }
      }
    }
  }

  lemma IndexOfPrefix<T>(s: seq<T>, p: seq<T>, x: T)
    requires |p| <= |s| && p == s[..|p|] && x in p
    ensures x in s && IndexOf(s, x) == IndexOf(p, x)
  {
    var i := IndexOf(p, x);
    assert s[i] == x;
    var k := IndexOf(s, x);
    assert p[k] == s[k];
  }

  lemma IndexOfLast<T>(s: seq<T>, x: T)
    requires s != [] && s[|s| - 1] == x && x !in s[..|s| - 1]
    ensures IndexOf(s, x) == |s| - 1
  {
    var k := IndexOf(s, x);
  }

  /** A list without duplicates is its own de-duplication. */
  lemma {:induction false} DedupeOfDistinct<T>(s: seq<T>)
    requires NoDuplicates(s)
    ensures Dedupe(s) == s
    decreases |s|
  {
    if s != [] {
      var init := s[..|s| - 1];
      DedupeOfDistinct(init);
      DedupeSpec(init);
      assert s == init + [s[|s| - 1]];
    }
  }

  // ------------------------------------------------------------- numbers

  predicate IsDigit(c: char) { '0' <= c <= '9' }

  function DigitChar(d: nat): char
    requires d < 10
  {
    ('0' as int + d) as char
  }

  /** `n.toString()` for a non-negative integer. */
  function NatToString(n: nat): (r: string)
    ensures r != []
    ensures forall i :: 0 <= i < |r| ==> IsDigit(r[i])
  {
    if n < 10 then [DigitChar(n)] else NatToString(n / 10) + [DigitChar(n % 10)]
  }

  /** `n.toString()` for any integer: a minus sign before a negative
      number's digits. */
  function IntToString(n: int): (r: string)
    ensures r != []
    ensures n >= 0 ==> r == NatToString(n)
    ensures n < 0 ==> r[0] == '-' && r[1..] == NatToString(-n)
  {
    if n < 0 then "-" + NatToString(-n) else NatToString(n)
  }

  /** Decimal value of a string of digits. */
  function DigitsValue(d: string): nat
    requires forall i :: 0 <= i < |d| ==> IsDigit(d[i])
  {
    if d == [] then 0
    else
      assert IsDigit(d[|d| - 1]);
      DigitsValue(d[..|d| - 1]) * 10 + (d[|d| - 1] as int - '0' as int)
  }

  /** Length of the longest prefix of `s` made of decimal digits. */
  function DigitRun(s: string): (n: nat)
    ensures n <= |s|
    ensures forall i :: 0 <= i < n ==> IsDigit(s[i])
    ensures n == |s| || !IsDigit(s[n])
  {
    if s == [] || !IsDigit(s[0]) then 0 else 1 + DigitRun(s[1..])
  }

  /** Length of the leading white space of `s`. */
  function SpaceRun(s: string): (n: nat)
    ensures n <= |s|
    ensures forall i :: 0 <= i < n ==> IsWhitespace(s[i])
    ensures n == |s| || !IsWhitespace(s[n])
  {
    if s == [] || !IsWhitespace(s[0]) then 0 else 1 + SpaceRun(s[1..])
  }

  /** `parseInt(s, 10)`: leading white space is skipped, an optional sign is
      read, then the longest run of digits; no digit at all gives NaN (None). */
  function ParseInt(s: string): Option<int> {
    var t := s[SpaceRun(s)..];
    var neg := t != [] && t[0] == '-';
    var u := if t != [] && (t[0] == '-' || t[0] == '+') then t[1..] else t;
    var n := DigitRun(u);
    if n == 0 then None
    else
      var v := DigitsValue(u[..n]);
      var value: int := if neg then -(v as int) else v;
      Some(value)
  }

  lemma {:induction false} DigitsValueOfNatToString(n: nat)
    ensures DigitsValue(NatToString(n)) == n
  {
    var r := NatToString(n);
    if n >= 10 {
      DigitsValueOfNatToString(n / 10);
      assert r[..|r| - 1] == NatToString(n / 10);
    }
  }

  /** Printing a number and parsing it back gives the number. */
  lemma ParseIntOfNatToString(n: nat)
    ensures ParseInt(NatToString(n)) == Some(n)
  {
    ParseIntOfDigits(NatToString(n));
    DigitsValueOfNatToString(n);
  }

  /** Printing any integer and parsing it back gives the integer. */
  lemma ParseIntOfIntToString(n: int)
    ensures ParseInt(IntToString(n)) == Some(n)
  {
    if n < 0 {
      var u := NatToString(-n);
      var s := "-" + u;
      assert s == IntToString(n);
      assert SpaceRun(s) == 0 by {
        assert s[0] == '-';
      }
      assert s[SpaceRun(s)..] == s && s[1..] == u;
      DigitRunAllDigits(u);
      assert u[..DigitRun(u)] == u;
      DigitsValueOfNatToString(-n);
    } else {
      ParseIntOfNatToString(n);
    }
  }

  lemma ParseIntOfDigits(s: string)
    requires s != [] && forall i :: 0 <= i < |s| ==> IsDigit(s[i])
    ensures ParseInt(s) == Some(DigitsValue(s))
  {
    ParseIntUnsigned(s);
    DigitRunAllDigits(s);
    assert s[..|s|] == s;
  }

  /** Text starting with a digit parses as its leading digits. */
  lemma ParseIntUnsigned(s: string)
    requires s != [] && IsDigit(s[0])
    ensures ParseInt(s) == Some(DigitsValue(s[..DigitRun(s)]))
  {
    assert SpaceRun(s) == 0;
    assert s[0..] == s;
  }

  lemma {:induction false} DigitRunAllDigits(s: string)
    requires forall i :: 0 <= i < |s| ==> IsDigit(s[i])
    ensures DigitRun(s) == |s|
  {
    if s != [] {
      DigitRunAllDigits(s[1..]);
    }
  }

  /** Different numbers print differently, so ids made from distinct
      timestamps are distinct. */
  lemma NatToStringInjective(m: nat, n: nat)
    requires NatToString(m) == NatToString(n)
    ensures m == n
  {
    DigitsValueOfNatToString(m);
    DigitsValueOfNatToString(n);
  }
}
