/** Optional values, for Python's `None`-or-value results. */
module Options {
  datatype Option<+T> = None | Some(value: T)
}

/**
 * Python values as they arrive from `json.load` or from another component:
 * the shapes the globe code inspects with `isinstance`, `in`, `.get` and
 * truthiness tests.  A JSON float is a `JNum` holding an exact real.
 */
module Json {
  import opened Options

  datatype Json =
    | JNull
    | JBool(b: bool)
    | JInt(i: int)
    | JNum(x: real)
    | JStr(s: string)
    | JList(items: seq<Json>)
    | JObject(fields: map<string, Json>)

  /** Python truthiness: `None`, `False`, zero, and empty containers are false. */
  predicate Truthy(v: Json)
  {
    match v
    case JNull => false
    case JBool(b) => b
    case JInt(i) => i != 0
    case JNum(x) => x != 0.0
    case JStr(s) => s != []
    case JList(items) => items != []
    case JObject(fields) => fields != map[]
  }

  /** `isinstance(v, int)`: in Python a bool is an int. */
  predicate IsPyInt(v: Json)
  {
    v.JInt? || v.JBool?
  }

  /** The integer value of a Python int (`True` is 1, `False` is 0). */
  function PyIntValue(v: Json): (n: int)
    requires IsPyInt(v)
    ensures v.JBool? ==> 0 <= n <= 1
  {
    if v.JInt? then v.i else if v.b then 1 else 0
  }

  /** The number a Python arithmetic operator sees, or None when it raises `TypeError`. */
  function AsReal(v: Json): (r: Option<real>)
    ensures r.Some? <==> (v.JInt? || v.JBool? || v.JNum?)
  {
    match v
    case JInt(i) => Some(i as real)
    case JBool(b) => Some(if b then 1.0 else 0.0)
    case JNum(x) => Some(x)
    case _ => None
  }

  /** Python's `int(x)` on a float: truncation toward zero. */
  function Trunc(x: real): (n: int)
    ensures x >= 0.0 ==> n as real <= x < n as real + 1.0
    ensures x < 0.0 ==> n as real - 1.0 < x <= n as real
  {
    if x >= 0.0 then x.Floor else -((-x).Floor)
  }

  predicate IsDigit(c: char) { '0' <= c <= '9' }

  predicate AllDigits(ds: string)
  {
    forall k :: 0 <= k < |ds| ==> IsDigit(ds[k])
  }

  /** The value of a string of ASCII decimal digits. */
  function DigitsValue(ds: string): nat
    requires AllDigits(ds)
  {
    if ds == [] then 0
    else
      var last := ds[|ds| - 1];
      assert IsDigit(last);
      DigitsValue(ds[..|ds| - 1]) * 10 + (last as int - '0' as int)
  }

  /** The ASCII characters `str.strip()` and `int()` treat as whitespace. */
  predicate IsSpace(c: char)
  {
    c == ' ' || '\t' <= c <= '\r' || '\U{1C}' <= c <= '\U{1F}'
  }

  predicate AllSpace(s: string)
  {
    forall k :: 0 <= k < |s| ==> IsSpace(s[k])
  }

  /** `s` without its leading whitespace. */
  function TrimLeft(s: string): (t: string)
    ensures t != [] ==> !IsSpace(t[0])
    ensures s == [] || !IsSpace(s[0]) ==> t == s
    ensures s != [] && IsSpace(s[0]) ==> t == TrimLeft(s[1..])
  {
    if s != [] && IsSpace(s[0]) then TrimLeft(s[1..]) else s
  }

  /** `s` without its trailing whitespace. */
  function TrimRight(s: string): (t: string)
    ensures t != [] ==> !IsSpace(t[|t| - 1])
    ensures s == [] || !IsSpace(s[|s| - 1]) ==> t == s
    ensures s != [] && IsSpace(s[|s| - 1]) ==> t == TrimRight(s[..|s| - 1])
  {
    if s != [] && IsSpace(s[|s| - 1]) then TrimRight(s[..|s| - 1]) else s
  }

  /** Leading whitespace is dropped whatever follows it. */
  lemma {:induction false} TrimLeftPadded(pre: string, s: string)
    requires AllSpace(pre) && s != [] && !IsSpace(s[0])
    ensures TrimLeft(pre + s) == s
  {
    if pre != [] {
      assert (pre + s)[1..] == pre[1..] + s;
      TrimLeftPadded(pre[1..], s);
    }
  }

  /** Trailing whitespace is dropped whatever precedes it. */
  lemma {:induction false} TrimRightPadded(s: string, post: string)
    requires AllSpace(post) && s != [] && !IsSpace(s[|s| - 1])
    ensures TrimRight(s + post) == s
  {
    if post != [] {
      assert (s + post)[..|s + post| - 1] == s + post[..|post| - 1];
      TrimRightPadded(s, post[..|post| - 1]);
    }
  }

  /**
   * Decimal digits with single underscores between them, as `int()` accepts
   * them: "1_000" but not "_1", "1_" or "1__0".
   */
  predicate IsGrouped(s: string)
  {
    s != [] && forall k :: 0 <= k < |s| ==> GroupedAt(s, k)
  }

  /** Position `k` holds a digit, or an underscore with a digit on each side. */
  predicate GroupedAt(s: string, k: int)
    requires 0 <= k < |s|
  {
    IsDigit(s[k]) || (s[k] == '_' && 0 < k < |s| - 1 && IsDigit(s[k - 1]) && IsDigit(s[k + 1]))
  }

  /** The digits of a string, its underscores dropped. */
  function DropUnderscores(s: string): (ds: string)
    ensures (forall k :: 0 <= k < |s| ==> IsDigit(s[k]) || s[k] == '_') ==> AllDigits(ds)
    ensures AllDigits(s) ==> ds == s
    ensures s != [] && IsDigit(s[0]) ==> ds != []
  {
    if s == [] then []
    else if s[0] == '_' then DropUnderscores(s[1..])
    else [s[0]] + DropUnderscores(s[1..])
  }

  /** A grouped digit string holds only digits and underscores, and starts with a digit. */
  lemma GroupedChars(s: string)
    requires IsGrouped(s)
    ensures forall k :: 0 <= k < |s| ==> IsDigit(s[k]) || s[k] == '_'
    ensures IsDigit(s[0])
  {
    assert GroupedAt(s, 0);
    forall k | 0 <= k < |s|
      ensures IsDigit(s[k]) || s[k] == '_'
    {
      assert GroupedAt(s, k);
    }
  }

  /** The stripped text `int()` reads: an optional sign, then grouped digits. */
  function ParseSigned(t: string): (r: Option<int>)
    ensures r.Some? ==> t != []
    ensures t != [] && AllDigits(t) ==> r == Some(DigitsValue(t))
  {
    var signed := t != [] && (t[0] == '-' || t[0] == '+');
    var body := if signed then t[1..] else t;
    if IsGrouped(body) then
      GroupedChars(body);
      var v := DigitsValue(DropUnderscores(body));
      Some(if signed && t[0] == '-' then 0 - v else v)
    else None
  }

  /**
   * Python's `int(s)` on a string: surrounding whitespace is ignored, then an
   * optional sign and decimal digits, possibly grouped by underscores, must
   * make up the rest; anything else raises.
   */
  function ParseIntText(s: string): (r: Option<int>)
    ensures r.Some? ==> TrimRight(TrimLeft(s)) != []
    ensures s != [] && AllDigits(s) ==> r == Some(DigitsValue(s))
  {
    ParseSigned(TrimRight(TrimLeft(s)))
  }

  /** Whitespace around the text does not change what `int()` reads. */
  lemma ParseIntTextPadded(pre: string, s: string, post: string)
    requires AllSpace(pre) && AllSpace(post)
    requires s != [] && !IsSpace(s[0]) && !IsSpace(s[|s| - 1])
    ensures ParseIntText(pre + s + post) == ParseIntText(s)
  {
    var padded := pre + s + post;
    assert padded == pre + (s + post);
    TrimLeftPadded(pre, s + post);
    TrimRightPadded(s, post);
    assert TrimRight(TrimLeft(padded)) == s;
    assert TrimRight(TrimLeft(s)) == s;
  }

  /** Underscores between digits do not change the value `int()` reads. */
  lemma ParseIntTextGrouped(s: string)
    requires IsGrouped(s)
    ensures ParseIntText(s) == ParseIntText(DropUnderscores(s))
  {
    GroupedChars(s);
    var ds := DropUnderscores(s);
    assert TrimRight(TrimLeft(s)) == s;
    assert ParseSigned(s) == Some(DigitsValue(ds));
  }

  /**
   * Python's `int(v)` for the values a colour channel can hold: ints and bools
   * are kept, floats are truncated, strings are read as `int()` reads them,
   * everything else raises (None).
   */
  function IntOf(v: Json): (r: Option<int>)
    ensures (v.JInt? || v.JBool? || v.JNum?) ==> r.Some?
    ensures (v.JNull? || v.JList? || v.JObject?) ==> r.None?
    ensures IsPyInt(v) ==> r == Some(PyIntValue(v))
    ensures v.JNum? ==> r == Some(Trunc(v.x))
    ensures v.JStr? ==> r == ParseIntText(v.s)
  {
    match v
    case JInt(i) => Some(i)
    case JBool(b) => Some(if b then 1 else 0)
    case JNum(x) => Some(Trunc(x))
    case JStr(s) => ParseIntText(s)
    case _ => None
  }

  /** `d.get(key, default)` on a dict. */
  function Get(d: map<string, Json>, key: string, default: Json): (v: Json)
    ensures key in d ==> v == d[key]
    ensures key !in d ==> v == default
  {
    if key in d then d[key] else default
  }

  /** `d.get(key)`: a missing key reads as `None`. */
  function GetOrNull(d: map<string, Json>, key: string): Json
  {
    Get(d, key, JNull)
  }

  /** Whether `pattern` occurs in `s` (Python's `pattern in s` on strings). */
  predicate Contains(s: string, pattern: string)
    decreases |s|
  {
    if pattern <= s then true
    else if s == [] then false
    else Contains(s[1..], pattern)
  }

  /** ASCII lower-casing, the part of `str.lower()` the wake-word and "exit" tests rely on. */
  function LowerChar(c: char): char
  {
    if 'A' <= c <= 'Z' then (c as int - 'A' as int + 'a' as int) as char else c
  }

  function Lower(s: string): (r: string)
    ensures |r| == |s|
    ensures forall k :: 0 <= k < |s| ==> r[k] == LowerChar(s[k])
  {
    seq(|s|, k requires 0 <= k < |s| => LowerChar(s[k]))
  }
}

/** Angles as the layout tools use them: `math.pi`, `math.radians` and `math.degrees` over exact reals. */
module Angles {
  const PI: real := 3.141592653589793

  function Radians(degrees: real): real
  {
    degrees * (PI / 180.0)
  }

  function Degrees(radians: real): real
  {
    radians * (180.0 / PI)
  }

  /** Converting to radians and back gives the angle back. */
  lemma DegreesOfRadians(d: real)
    ensures Degrees(Radians(d)) == d
  {
    assert (PI / 180.0) * (180.0 / PI) == 1.0;
  }

  /** Converting to degrees and back gives the angle back. */
  lemma RadiansOfDegrees(r: real)
    ensures Radians(Degrees(r)) == r
  {
    assert (180.0 / PI) * (PI / 180.0) == 1.0;
  }
}
