/**
 * JSON values as the relay server holds them after body parsing, with the
 * JavaScript operations the server applies to them: truthiness, property
 * access, numeric coercion in comparisons, object spread, and the recursive
 * string truncation helper `truncateStringsInData`.
 */
module Json {
  import opened Wrappers
  import Text
  import Ordered

  /** A parsed JSON value. Numbers are integers in this model. */
  datatype Json =
    | JNull
    | JBool(b: bool)
    | JNum(n: int)
    | JStr(s: string)
    | JArr(items: seq<Json>)
    | JObj(fields: seq<(string, Json)>)

  /** JavaScript truthiness of a JSON value. */
  predicate Truthy(j: Json) {
    match j
    case JNull => false
    case JBool(b) => b
    case JNum(n) => n != 0
    case JStr(s) => s != ""
    case _ => true
  }

  /** Truthiness of a property read that may be `undefined`. */
  predicate Present(o: Option<Json>) {
    o.Some? && Truthy(o.value)
  }

  /** `j[key]` for a JSON object; `undefined` (None) otherwise. */
  function Field(j: Json, key: string): (r: Option<Json>)
    ensures r.Some? ==> j.JObj? && (key, r.value) in j.fields
    ensures j.JObj? && Ordered.HasKey(j.fields, key) ==> r.Some?
  {
    match j
    case JObj(fields) => Ordered.Get(fields, key)
    case _ => None
  }

  /** The string held by a property, if it is a string. */
  function StrField(j: Json, key: string): (r: Option<string>)
    ensures r.Some? <==> (Field(j, key).Some? && Field(j, key).value.JStr?)
  {
    match Field(j, key)
    case Some(JStr(s)) => Some(s)
    case _ => None
  }

  /** Whether `value === "<s>"` for a property read. */
  predicate IsString(o: Option<Json>, s: string) {
    o == Some(JStr(s))
  }

  /** `Number(s)` for a string: blank is 0, an optionally signed run of
      decimal digits surrounded by white space is its value, anything else
      is NaN (None). */
  function StringToNumber(s: string): Option<int> {
    var a := Text.SpaceRun(s);
    var t := s[a..];
    if Text.IsBlank(t) then Some(0)
    else
      var neg := t[0] == '-';
      var u := if t[0] == '-' || t[0] == '+' then t[1..] else t;
      var n := Text.DigitRun(u);
      if n == 0 || !Text.IsBlank(u[n..]) then None
      else
        var v := Text.DigitsValue(u[..n]);
        var value: int := if neg then -(v as int) else v;
        Some(value)
  }

  /** Numeric coercion used by `<`, `>`, `>=` against a number; None is NaN. */
  function ToNumber(o: Option<Json>): Option<int> {
    match o
    case None => None
    case Some(JNull) => Some(0)
    case Some(JBool(b)) => Some(if b then 1 else 0)
    case Some(JNum(n)) => Some(n)
    case Some(JStr(s)) => StringToNumber(s)
    case Some(_) => None
  }

  /** `x >= bound`, false when `x` coerces to NaN. */
  predicate AtLeast(o: Option<Json>, bound: int) {
    var n := ToNumber(o);
    n.Some? && n.value >= bound
  }

  /** `len > limit` where `limit` is read from a settings object; false when
      the limit coerces to NaN. */
  predicate Exceeds(len: int, limit: Option<Json>) {
    var n := ToNumber(limit);
    n.Some? && len > n.value
  }

  /** The own enumerable properties that `{...j}` copies: the fields of an
      object, the indexed elements of an array or characters of a string,
      nothing for other values. */
  function Spread(j: Json): (r: seq<(string, Json)>)
    ensures j.JObj? ==> r == j.fields
  {
    match j
    case JObj(fields) => fields
    case JArr(items) => seq(|items|, i requires 0 <= i < |items| => (Text.NatToString(i), items[i]))
    case JStr(s) => seq(|s|, i requires 0 <= i < |s| => (Text.NatToString(i), JStr([s[i]])))
    case _ => []
  }

  /** `{...base, ...patch}` on object entries: later keys override in place. */
  function Merge(base: seq<(string, Json)>, patch: seq<(string, Json)>): (r: seq<(string, Json)>)
    decreases |patch|
  {
    if patch == [] then base
    else Merge(Ordered.Put(base, patch[0].0, patch[0].1), patch[1..])
  }

  /** After a merge, a key of the patch reads the patch's last value for it,
      and any other key reads what it read before. */
  lemma {:induction false} MergeGet(base: seq<(string, Json)>, patch: seq<(string, Json)>, k: string)
    ensures Ordered.HasKey(patch, k) ==> Ordered.Get(Merge(base, patch), k) == Some(LastValue(patch, k))
    ensures !Ordered.HasKey(patch, k) ==> Ordered.Get(Merge(base, patch), k) == Ordered.Get(base, k)
    decreases |patch|
  {
    if patch != [] {
      var b := Ordered.Put(base, patch[0].0, patch[0].1);
      MergeGet(b, patch[1..], k);
      Ordered.PutGet(base, patch[0].0, patch[0].1);
      assert Ordered.Keys(patch) == [patch[0].0] + Ordered.Keys(patch[1..]);
    }
  }

  /** The value of the last entry for `k` (the one a spread leaves behind). */
  function LastValue(patch: seq<(string, Json)>, k: string): Json
    requires Ordered.HasKey(patch, k)
    decreases |patch|
  {
    assert Ordered.Keys(patch) == [patch[0].0] + Ordered.Keys(patch[1..]);
    if Ordered.HasKey(patch[1..], k) then LastValue(patch[1..], k) else patch[0].1
  }

  // ----------------------------------------------- truncateStringsInData

  const TRUNCATION_MARKER: string := "... (truncated)"

  /** A string longer than `max` keeps its first `max` characters (none
      when `max` is negative) followed by the truncation marker. */
  function TruncateString(s: string, max: int): (r: string)
    ensures |s| <= max ==> r == s
    ensures |s| > max ==> Text.EndsWith(r, TRUNCATION_MARKER) && |r| == (if max < 0 then 0 else max) + |TRUNCATION_MARKER|
    ensures |s| > max && max >= 0 ==> r[..max] == s[..max]
  {
    if |s| > max then s[..(if max < 0 then 0 else max)] + TRUNCATION_MARKER else s
  }

  /** `truncateStringsInData`: every string inside `j`, at any depth, is
      truncated; keys, numbers, booleans and null are left as they are. */
  function TruncateStringsInData(j: Json, max: int): Json
    decreases j
  {
    match j
    case JStr(s) => JStr(TruncateString(s, max))
    case JArr(items) =>
      JArr(seq(|items|, i requires 0 <= i < |items| => TruncateStringsInData(items[i], max)))
    case JObj(fields) =>
      JObj(seq(|fields|, i requires 0 <= i < |fields| => (fields[i].0, TruncateStringsInData(fields[i].1, max))))
    case _ => j
  }

  /** Every string inside `j` has at most `n` characters. */
  predicate StringsAtMost(j: Json, n: int)
    decreases j
  {
    match j
    case JStr(s) => |s| <= n
    case JArr(items) => forall i :: 0 <= i < |items| ==> StringsAtMost(items[i], n)
    case JObj(fields) => forall i :: 0 <= i < |fields| ==> StringsAtMost(fields[i].1, n)
    case _ => true
  }

  /** Same constructor everywhere, same array lengths, same object keys in
      the same order. */
  predicate SameShape(a: Json, b: Json)
    decreases a
  {
    match a
    case JNull => b == JNull
    case JBool(x) => b == JBool(x)
    case JNum(x) => b == JNum(x)
    case JStr(_) => b.JStr?
    case JArr(xs) =>
      b.JArr? && |xs| == |b.items| && forall i :: 0 <= i < |xs| ==> SameShape(xs[i], b.items[i])
    case JObj(fs) =>
      b.JObj? && |fs| == |b.fields| &&
      forall i :: 0 <= i < |fs| ==> fs[i].0 == b.fields[i].0 && SameShape(fs[i].1, b.fields[i].1)
  }

  /** After truncation every string, at any depth, has at most `max`
      characters plus the marker. */
  lemma {:induction false} TruncateBounds(j: Json, max: nat)
    ensures StringsAtMost(TruncateStringsInData(j, max), max + |TRUNCATION_MARKER|)
    decreases j
  {
    match j
    case JArr(items) =>
      forall i | 0 <= i < |items| {
        TruncateBounds(items[i], max);
      }
    case JObj(fields) =>
      forall i | 0 <= i < |fields| {
        TruncateBounds(fields[i].1, max);
      }
    case _ =>
  }

  /** Data whose strings already fit is returned unchanged. */
  lemma {:induction false} TruncateFits(j: Json, max: int)
    requires StringsAtMost(j, max)
    ensures TruncateStringsInData(j, max) == j
    decreases j
  {
    match j
    case JArr(items) =>
      forall i | 0 <= i < |items| ensures TruncateStringsInData(items[i], max) == items[i] {
        TruncateFits(items[i], max);
      }
      assert TruncateStringsInData(j, max).items == items;
    case JObj(fields) =>
      forall i | 0 <= i < |fields| ensures TruncateStringsInData(fields[i].1, max) == fields[i].1 {
        TruncateFits(fields[i].1, max);
      }
      assert TruncateStringsInData(j, max).fields == fields;
    case _ =>
  }

  /** `processJsonString`: a string that parses is truncated inside and
      serialised again; one that does not parse is truncated as a string.
      Parsing and serialisation are supplied by the caller. */
  function ProcessJsonString(text: string, max: int,
                             parse: string -> Option<Json>,
                             stringify: Json -> string): (r: string)
    ensures parse(text).None? ==> r == TruncateString(text, max)
    ensures parse(text).Some? ==>
      exists j :: && SameShape(parse(text).value, j)
                  && (max >= 0 ==> StringsAtMost(j, max + |TRUNCATION_MARKER|))
                  && (StringsAtMost(parse(text).value, max) ==> j == parse(text).value)
                  && r == stringify(j)
  {
    match parse(text)
    case Some(parsed) =>
      TruncatedData(parsed, max);
      stringify(TruncateStringsInData(parsed, max))
    case None => TruncateString(text, max)
  }

  /** What truncation guarantees about parsed data: the shape is kept, the
      strings are bounded, and data that fits is left alone. */
  lemma TruncatedData(j: Json, max: int)
    ensures SameShape(j, TruncateStringsInData(j, max))
    ensures max >= 0 ==> StringsAtMost(TruncateStringsInData(j, max), max + |TRUNCATION_MARKER|)
    ensures StringsAtMost(j, max) ==> TruncateStringsInData(j, max) == j
  {
    TruncateShape(j, max);
    if max >= 0 {
      TruncateBounds(j, max);
    }
    if StringsAtMost(j, max) {
      TruncateFits(j, max);
    }
  }

  /** `String(value)`, as `new Error(value)` renders its message: a string
      is itself, a number its decimal form, an object `[object Object]`, and
      an array its elements' renderings joined by commas, with `null` as
      nothing. */
  function ToJsString(j: Json): (r: string)
    ensures j.JStr? ==> r == j.s
    ensures j.JNum? ==> Text.ParseInt(r) == Some(j.n)
    ensures j.JBool? ==> (r == "true" <==> j.b) && (r == "false" <==> !j.b)
    ensures j.JObj? ==> r == "[object Object]"
    decreases j
  {
    match j
    case JNull => "null"
    case JBool(b) => if b then "true" else "false"
    case JNum(n) =>
      Text.ParseIntOfIntToString(n);
      Text.IntToString(n)
    case JStr(s) => s
    case JArr(items) =>
      Text.Join(seq(|items|, i requires 0 <= i < |items| => if items[i].JNull? then "" else ToJsString(items[i])), ",")
    case JObj(_) => "[object Object]"
  }

  /** Truncation keeps the shape for any bound, including a negative one. */
  lemma {:induction false} TruncateShape(j: Json, max: int)
    ensures SameShape(j, TruncateStringsInData(j, max))
    decreases j
  {
    match j
    case JArr(items) =>
      forall i | 0 <= i < |items| {
        TruncateShape(items[i], max);
      }
    case JObj(fields) =>
      forall i | 0 <= i < |fields| {
        TruncateShape(fields[i].1, max);
      }
    case _ =>
  }
}
