/** JavaScript values as JSON.parse produces them, and the few pieces of
    JavaScript semantics the relay's handlers lean on: truthiness, `?.`,
    `||`, `??`, `Array.prototype.map`, `String(x)` and `String.prototype.trim`. */
module JsValues {

  datatype Option<+T> = None | Some(value: T)

  /** A parsed JSON value. `undefined` is not a JSON value; where a property
      read can yield it, the model uses `Option<Json>` and `None`. */
  datatype Json =
    | JNull
    | JBool(b: bool)
    | JNum(n: int)
    | JStr(s: string)
    | JArr(elems: seq<Json>)
    | JObj(fields: map<string, Json>)

  /** The outcome of evaluating JavaScript that may throw: a property read on
      `null`, `.map` on something that is not an array, `JSON.parse` on text
      that is not JSON. The handlers' catch-all turns `Threw` into a 500. */
  datatype Eval<+T> = Value(value: T) | Threw

  /** JavaScript truthiness; `None` is `undefined`. Arrays and objects are
      truthy even when empty. */
  predicate Truthy(v: Option<Json>) {
    match v
    case None => false
    case Some(JNull) => false
    case Some(JBool(b)) => b
    case Some(JNum(n)) => n != 0
    case Some(JStr(s)) => s != ""
    case Some(JArr(_)) => true
    case Some(JObj(_)) => true
  }

  /** `v?.key`: `undefined` unless `v` is an object holding `key`. Reading one
      of the relay's keys off a string, number, boolean or array gives
      `undefined` too, since none of them is a built-in property. */
  function Prop(v: Option<Json>, key: string): Option<Json> {
    if v.Some? && v.value.JObj? && key in v.value.fields then Some(v.value.fields[key]) else None
  }

  /** `v.key` on a value taken from a JSON array: a TypeError when `v` is `null`. */
  function Member(v: Json, key: string): Eval<Option<Json>> {
    if v.JNull? then Threw else Value(Prop(Some(v), key))
  }

  /** `a || b` */
  function Or(a: Option<Json>, b: Json): Json {
    if Truthy(a) then a.value else b
  }

  /** `a ?? b`: only `undefined` and `null` give way to `b`. */
  function Coalesce(a: Option<Json>, b: Json): Json {
    if a.Some? && a.value != JNull then a.value else b
  }

  /** `Array.prototype.map` with a callback that may throw: the callback runs
      on each element in order and the first throw ends the whole call. */
  function MapEval<A, B>(s: seq<A>, f: A -> Eval<B>): (r: Eval<seq<B>>)
    ensures r.Value? <==> forall i :: 0 <= i < |s| ==> f(s[i]).Value?
    ensures r.Value? ==> |r.value| == |s|
    ensures r.Value? ==> forall i :: 0 <= i < |s| ==> r.value[i] == f(s[i]).value
  {
    if s == [] then Value([])
    else
      match f(s[0])
      case Threw => Threw
      case Value(b) =>
        match MapEval(s[1..], f)
        case Threw => Threw
        case Value(bs) => Value([b] + bs)
  }

  /** `v.map(f)` on a value that came out of JSON: only an array has `map`. */
  function MapArray<B>(v: Json, f: Json -> Eval<B>): (r: Eval<seq<B>>)
    ensures !v.JArr? ==> r == Threw
    ensures v.JArr? ==> r == MapEval(v.elems, f)
  {
    if v.JArr? then MapEval(v.elems, f) else Threw
  }

  /** The decimal digits of a natural number, most significant first. */
  function Decimal(n: nat): (r: string)
    ensures r != []
    ensures AllDigits(r)
    // digits are not white space
    ensures Unpadded(r)
  {
    var d := ['0' + (n % 10) as char];
    if n < 10 then d else Decimal(n / 10) + d
  }

  predicate AllDigits(s: string) {
    forall i :: 0 <= i < |s| ==> '0' <= s[i] <= '9'
  }

  /** The number a string of decimal digits denotes. */
  function DigitsValue(s: string): nat
    requires AllDigits(s)
  {
    if s == [] then 0 else 10 * DigitsValue(s[..|s| - 1]) + (s[|s| - 1] as int - '0' as int)
  }

  /** `Decimal` writes `n` back: its digits denote `n`, and it has no leading
      zero except for `n == 0` itself. */
  lemma {:induction false} DecimalValue(n: nat)
    ensures DigitsValue(Decimal(n)) == n
    ensures Decimal(n)[0] == '0' <==> n == 0
  {
    var d := ['0' + (n % 10) as char];
    if n >= 10 {
      DecimalValue(n / 10);
      var p := Decimal(n / 10);
      assert (p + d)[..|p + d| - 1] == p;
      assert (p + d)[0] == p[0];
    }
  }

  /** Different numbers are written differently. */
  lemma DecimalInjective(m: nat, n: nat)
    requires Decimal(m) == Decimal(n)
    ensures m == n
  {
    DecimalValue(m);
    DecimalValue(n);
  }

  /** Whether `String(v)` throws. A JSON object that holds its own `toString`
      key shadows `Object.prototype.toString` with a value that cannot be
      called; the conversion then falls back to the inherited `valueOf`, which
      returns the object itself, and a TypeError follows. An array converts
      through `join`, which converts each element. */
  predicate ToStringThrows(v: Json) {
    match v
    case JObj(fields) => "toString" in fields
    case JArr(elems) => exists i :: 0 <= i < |elems| && ToStringThrows(elems[i])
    case _ => false
  }

  /** `String(v)`. An array is joined with "," and its `null` elements become
      empty; a plain object prints as "[object Object]". */
  function JsString(v: Json): (r: Eval<string>)
    ensures r.Threw? <==> ToStringThrows(v)
    ensures v.JStr? ==> r == Value(v.s)
    // a number prints as its decimal digits, after a minus sign when negative
    ensures v.JNum? && v.n >= 0 ==> r == Value(Decimal(v.n))
    ensures v.JNum? && v.n < 0 ==> r == Value("-" + Decimal(-v.n))
    ensures v.JObj? && "toString" !in v.fields ==> r == Value("[object Object]")
    decreases v, 1
  {
    match v
    case JNull => Value("null")
    case JBool(b) => Value(if b then "true" else "false")
    case JNum(n) => Value(if n < 0 then "-" + Decimal(-n) else Decimal(n))
    case JStr(s) => Value(s)
    case JArr(elems) => Join(elems)
    case JObj(fields) => if "toString" in fields then Threw else Value("[object Object]")
  }

  /** `elems.join(",")`: throws as soon as one element's conversion does. */
  function Join(elems: seq<Json>): (r: Eval<string>)
    ensures r.Threw? <==> exists i :: 0 <= i < |elems| && ToStringThrows(elems[i])
    decreases elems, 0
  {
    if elems == [] then Value("")
    else
      var head := if elems[0].JNull? then Value("") else JsString(elems[0]);
      if head.Threw? then Threw
      else if |elems| == 1 then head
      else
        match Join(elems[1..])
        case Threw => Threw
        case Value(rest) => Value(head.value + "," + rest)
  }

  /** The characters `String.prototype.trim` strips: ECMAScript WhiteSpace
      (tab, vertical tab, form feed, space, no-break space, the byte order
      mark and the Zs space separators) and LineTerminator. */
  predicate IsTrimmable(c: char) {
    c == '\t' || c == '\n' || c == '\U{000B}' || c == '\U{000C}' || c == '\r' ||
    c == ' ' || c == '\U{00A0}' || c == '\U{1680}' ||
    ('\U{2000}' <= c <= '\U{200A}') ||
    c == '\U{2028}' || c == '\U{2029}' || c == '\U{202F}' || c == '\U{205F}' ||
    c == '\U{3000}' || c == '\U{FEFF}'
  }

  predicate AllTrimmable(s: string) {
    forall i :: 0 <= i < |s| ==> IsTrimmable(s[i])
  }

  /** `s.trimStart()`: the suffix left after dropping leading white space. */
  function TrimStart(s: string): (r: string)
    ensures |r| <= |s| && r == s[|s| - |r|..]
    ensures AllTrimmable(s[..|s| - |r|])
    ensures r != [] ==> !IsTrimmable(r[0])
  {
    if s != [] && IsTrimmable(s[0]) then
      var r := TrimStart(s[1..]);
      assert s[..|s| - |r|] == [s[0]] + s[1..][..|s| - 1 - |r|];
      r
    else s
  }

  /** `s.trimEnd()`: the prefix left after dropping trailing white space. */
  function TrimEnd(s: string): (r: string)
    ensures |r| <= |s| && r == s[..|r|]
    ensures AllTrimmable(s[|r|..])
    ensures r != [] ==> !IsTrimmable(r[|r| - 1])
  {
    if s != [] && IsTrimmable(s[|s| - 1]) then
      var r := TrimEnd(s[..|s| - 1]);
      assert s[|r|..] == s[..|s| - 1][|r|..] + [s[|s| - 1]];
      r
    else s
  }

  /** Neither end of `s` is white space. */
  predicate Unpadded(s: string) {
    s == [] || (!IsTrimmable(s[0]) && !IsTrimmable(s[|s| - 1]))
  }

  /** `r` is a contiguous slice of `s` with only white space before and after it. */
  predicate SurroundedByWhiteSpace(s: string, r: string) {
    exists i, j :: 0 <= i <= j <= |s| && r == s[i..j] && AllTrimmable(s[..i]) && AllTrimmable(s[j..])
  }

  /** `s.trim()`: the middle of `s` once white space is dropped from both ends. */
  function Trim(s: string): (r: string)
    ensures SurroundedByWhiteSpace(s, r)
    ensures Unpadded(r)
    // a string with no white space at either end is left as it is
    ensures Unpadded(s) ==> r == s
  {
    var t := TrimStart(s);
    var r := TrimEnd(t);
    MiddleSlice(s, t, r);
    r
  }

  /** A prefix `r` of a suffix `t` of `s` is a slice of `s`, and white space
      around `r` in `t` and around `t` in `s` is white space around `r` in `s`. */
  lemma MiddleSlice(s: string, t: string, r: string)
    requires |t| <= |s| && t == s[|s| - |t|..] && AllTrimmable(s[..|s| - |t|])
    requires |r| <= |t| && r == t[..|r|] && AllTrimmable(t[|r|..])
    ensures SurroundedByWhiteSpace(s, r)
    ensures r != [] ==> r[0] == t[0]
  {
    var i := |s| - |t|;
    var j := i + |r|;
    assert r == s[i..j];
    assert s[j..] == t[|r|..];
  }

  /** Trimming is idempotent. */
  lemma TrimIdempotent(s: string)
    ensures Trim(Trim(s)) == Trim(s)
  {
  }

  /** A string of white space only trims to the empty string. */
  lemma TrimBlank(s: string)
    requires AllTrimmable(s)
    ensures Trim(s) == ""
  {
  }
}
