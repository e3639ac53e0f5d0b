/** The part of JavaScript's value semantics the sync service depends on:
    truthiness, `a || b`, `a ?? b`, destructuring defaults, property reads,
    `String(v)`, `Number(v)`, `trim()`, `startsWith`, `replace(/\D/g, '')`,
    `toLowerCase()` and the UTF-8 encoding done by `Buffer.from(string)`. */
module Js {
  import opened Wrappers

  /** A JSON-shaped JavaScript value. `Undefined` is a missing property.
      Numbers are integers: floating point is not modelled. */
  datatype Value =
    | Undefined
    | Null
    | Bool(b: bool)
    | Num(n: int)
    | Str(s: string)
    | Arr(elems: seq<Value>)
    | Obj(props: map<string, Value>)

  /** JavaScript truthiness (`if (v)`, `filter(Boolean)`, `!!v`). */
  predicate Truthy(v: Value) {
    match v
    case Undefined => false
    case Null => false
    case Bool(b) => b
    case Num(n) => n != 0
    case Str(s) => s != ""
    case Arr(_) => true
    case Obj(_) => true
  }

  /** `a || b`: the first operand when it is truthy, otherwise the second. */
  function Or(a: Value, b: Value): Value {
    if Truthy(a) then a else b
  }

  predicate IsNullish(v: Value) {
    v.Undefined? || v.Null?
  }

  /** `a ?? b`: the first operand unless it is `null` or `undefined`. */
  function Coalesce(a: Value, b: Value): Value {
    if IsNullish(a) then b else a
  }

  /** A destructuring default `{ x = d }`: applies only when `x` is `undefined`. */
  function Default(a: Value, d: Value): Value {
    if a.Undefined? then d else a
  }

  /** `v.key` on a value that is not `null`/`undefined`, for the keys this
      service reads (none of them names a property of strings or arrays). */
  function Prop(v: Value, key: string): Value {
    if v.Obj? && key in v.props then v.props[key] else Undefined
  }

  /** `process.env`: every variable that is set holds a string. */
  type Env = map<string, string>

  function EnvValue(env: Env, key: string): Value {
    if key in env then Str(env[key]) else Undefined
  }

  /** A thrown error: `e.response?.data` (Undefined when there was no response) and `e.message`. */
  datatype Thrown = Thrown(responseData: Value, message: string)

  /** The error a property read on `null`/`undefined`, or `.map` on a non-array, throws. */
  const TypeError := Thrown(Undefined, "TypeError")

  /** The requests an operation sent, in order, and what it returned or threw. */
  datatype Step<R, T> = Step(requests: seq<R>, result: Result<T, Thrown>)

  // ---------------------------------------------------------------- String(v)

  predicate IsDigit(c: char) {
    '0' <= c <= '9'
  }

  predicate AllDigits(s: string) {
    forall i :: 0 <= i < |s| ==> IsDigit(s[i])
  }

  function DigitChar(d: nat): (c: char)
    requires d < 10
    ensures IsDigit(c) && c as int - '0' as int == d
  {
    "0123456789"[d]
  }

  /** The decimal numeral of a natural number, as `String(n)` prints it. */
  function NatToStr(n: nat): (r: string)
    ensures r != [] && AllDigits(r)
    ensures n > 0 ==> r[0] != '0'
  {
    if n < 10 then [DigitChar(n)] else NatToStr(n / 10) + [DigitChar(n % 10)]
  }

  /** The number a string of decimal digits denotes (the reading of a numeral). */
  function DecimalValue(s: string): nat
    requires AllDigits(s)
  {
    if s == [] then 0 else DecimalValue(s[..|s| - 1]) * 10 + (s[|s| - 1] as int - '0' as int)
  }

  /** Printing a number and reading the numeral back gives the number. */
  lemma {:induction false} DecimalRoundTrip(n: nat)
    ensures DecimalValue(NatToStr(n)) == n
  {
    if n >= 10 {
      var s := NatToStr(n);
      assert s[..|s| - 1] == NatToStr(n / 10);
      DecimalRoundTrip(n / 10);
    }
  }

  /** Distinct numbers print differently. */
  lemma NatToStrInjective()
    ensures forall i: nat, j: nat :: NatToStr(i) == NatToStr(j) ==> i == j
  {
    forall i: nat, j: nat | NatToStr(i) == NatToStr(j)
      ensures i == j
    {
      DecimalRoundTrip(i);
      DecimalRoundTrip(j);
    }
  }

  function IntToStr(n: int): string {
    if n < 0 then "-" + NatToStr(-n) else NatToStr(n)
  }

  function Join(parts: seq<string>, sep: string): string {
    if parts == [] then ""
    else if |parts| == 1 then parts[0]
    else parts[0] + sep + Join(parts[1..], sep)
  }

  /** `String(v)`. An array prints its elements joined by "," with
      `null`/`undefined` elements printed as the empty string. */
  function ToStr(v: Value): string {
    match v
    case Undefined => "undefined"
    case Null => "null"
    case Bool(b) => if b then "true" else "false"
    case Num(n) => IntToStr(n)
    case Str(s) => s
    case Arr(xs) =>
      Join(seq(|xs|, i requires 0 <= i < |xs| => if IsNullish(xs[i]) then "" else ToStr(xs[i])), ",")
    case Obj(_) => "[object Object]"
  }

  // ---------------------------------------------------------------- xs.filter(Boolean)

  /** `xs.filter(Boolean)`: keeps the truthy elements, in order. */
  function FilterTruthy(xs: seq<Value>): (r: seq<Value>)
    ensures |r| <= |xs|
    ensures forall i :: 0 <= i < |r| ==> Truthy(r[i])
    ensures forall v :: v in r ==> v in xs
  {
    if xs == [] then []
    else if Truthy(xs[0]) then [xs[0]] + FilterTruthy(xs[1..])
    else FilterTruthy(xs[1..])
  }

  /** Filtering works piecewise, so the kept elements stay in their order. */
  lemma {:induction false} FilterTruthyAppend(a: seq<Value>, b: seq<Value>)
    ensures FilterTruthy(a + b) == FilterTruthy(a) + FilterTruthy(b)
  {
    if a == [] {
      assert a + b == b;
    } else {
      assert (a + b)[0] == a[0] && (a + b)[1..] == a[1..] + b;
      FilterTruthyAppend(a[1..], b);
      if Truthy(a[0]) {
        assert FilterTruthy(a + b) == [a[0]] + (FilterTruthy(a[1..]) + FilterTruthy(b));
      }
    }
  }

  /** Nothing truthy is dropped and nothing is de-duplicated: every truthy value
      occurs as often as in the input, every falsy value not at all. */
  lemma {:induction false} FilterTruthyCounts(xs: seq<Value>, v: Value)
    ensures multiset(FilterTruthy(xs))[v] == if Truthy(v) then multiset(xs)[v] else 0
  {
    if xs != [] {
      assert xs == [xs[0]] + xs[1..];
      FilterTruthyCounts(xs[1..], v);
    }
  }

  // ---------------------------------------------------------------- Number(v)

  /** The result of `Number(v)`. Converting a string is kept symbolic:
      `OfString(t)` stands for `Number(t)`, whose value the model does not compute. */
  datatype Number = Finite(n: int) | NaN | OfString(text: string)

  function ToNumber(v: Value): Number {
    match v
    case Undefined => NaN
    case Null => Finite(0)
    case Bool(b) => Finite(if b then 1 else 0)
    case Num(n) => Finite(n)
    case Str(s) => OfString(s)
    case Arr(_) => OfString(ToStr(v))
    case Obj(_) => NaN
  }

  // ---------------------------------------------------------------- strings

  /** The characters `String.prototype.trim` removes: white space and line terminators. */
  predicate IsSpace(c: char) {
    c in WhiteSpace
  }

  /** The white space and line terminators `trim()` removes. */
  const WhiteSpace: set<char> := {
    '\t', '\n', '\U{000B}', '\U{000C}', '\r', ' ', '\U{00A0}', '\U{1680}',
    '\U{2000}', '\U{2001}', '\U{2002}', '\U{2003}', '\U{2004}', '\U{2005}', '\U{2006}',
    '\U{2007}', '\U{2008}', '\U{2009}', '\U{200A}',
    '\U{2028}', '\U{2029}', '\U{202F}', '\U{205F}', '\U{3000}', '\U{FEFF}'}

  predicate AllSpace(s: string) {
    forall i :: 0 <= i < |s| ==> IsSpace(s[i])
  }

  /** Drops leading white space: the result is a suffix of `s` that does not start
      with white space, and everything dropped is white space. */
  function TrimStart(s: string): (r: string)
    ensures |r| <= |s| && r == s[|s| - |r|..]
    ensures AllSpace(s[..|s| - |r|])
    ensures r != [] ==> !IsSpace(r[0])
  {
    if s != [] && IsSpace(s[0]) then
      var t := TrimStart(s[1..]);
      assert s[1..][..|s| - 1 - |t|] == s[1..|s| - |t|];
      t
    else s
  }

  /** Drops trailing white space: the result is a prefix of `s` that does not end
      with white space, and everything dropped is white space. */
  function TrimEnd(s: string): (r: string)
    ensures |r| <= |s| && r == s[..|r|]
    ensures AllSpace(s[|r|..])
    ensures r != [] ==> !IsSpace(r[|r| - 1])
  {
    if s != [] && IsSpace(s[|s| - 1]) then
      var t := TrimEnd(s[..|s| - 1]);
      assert s[|t|..] == s[..|s| - 1][|t|..] + [s[|s| - 1]];
      t
    else s
  }

  /** `s.trim()`. */
  function Trim(s: string): string {
    TrimEnd(TrimStart(s))
  }

  /** `r` is the stretch of `s` starting at `i`, with only white space around it,
      and neither starts nor ends with white space. */
  predicate InnerSlice(s: string, i: int, r: string) {
    && 0 <= i <= i + |r| <= |s| && r == s[i..i + |r|]
    && AllSpace(s[..i]) && AllSpace(s[i + |r|..])
    && (r != [] ==> !IsSpace(r[0]) && !IsSpace(r[|r| - 1]))
  }

  /** `trim()` keeps exactly the stretch between the leading and the trailing white space. */
  lemma TrimIsInnerSlice(s: string)
    ensures InnerSlice(s, |s| - |TrimStart(s)|, Trim(s))
  {
    var a := TrimStart(s);
    PrefixOfSuffix(s, a, TrimEnd(a));
  }

  /** A prefix `r` of a suffix `a` of `s`, each cut from white space and neither
      starting nor ending with it, is an inner slice of `s`. */
  lemma PrefixOfSuffix(s: string, a: string, r: string)
    requires |a| <= |s| && a == s[|s| - |a|..] && AllSpace(s[..|s| - |a|])
    requires a != [] ==> !IsSpace(a[0])
    requires |r| <= |a| && r == a[..|r|] && AllSpace(a[|r|..])
    requires r != [] ==> !IsSpace(r[|r| - 1])
    ensures InnerSlice(s, |s| - |a|, r)
  {
    var i := |s| - |a|;
    assert s[i + |r|..] == a[|r|..];
    assert r == s[i..i + |r|];
    if r != [] {
      assert r[0] == a[0];
    }
  }

  /** A string without white space at either end is its own trim. */
  lemma TrimKeepsUnpadded(s: string)
    requires s != [] ==> !IsSpace(s[0]) && !IsSpace(s[|s| - 1])
    ensures Trim(s) == s
  {
  }

  /** `trim()` yields the empty string exactly when the string is all white space. */
  lemma TrimEmptyIffBlank(s: string)
    ensures Trim(s) == "" <==> AllSpace(s)
  {
    var a := TrimStart(s);
    if Trim(s) == "" {
      assert s == s[..|s| - |a|] + a[|TrimEnd(a)|..];
    }
  }

  /** Two strings joined by a space are blank exactly when both are. */
  lemma AllSpaceAroundSpace(a: string, b: string)
    ensures AllSpace(a + " " + b) <==> AllSpace(a) && AllSpace(b)
  {
    var j := a + " " + b;
    if AllSpace(j) {
      assert forall i :: 0 <= i < |a| ==> j[i] == a[i];
      assert forall i :: 0 <= i < |b| ==> j[|a| + 1 + i] == b[i];
    }
    if AllSpace(a) && AllSpace(b) {
      forall i | 0 <= i < |j| ensures IsSpace(j[i]) {
        if i < |a| { assert j[i] == a[i]; }
        else if i > |a| { assert j[i] == b[i - |a| - 1]; }
      }
    }
  }

  /** `s.startsWith(p)`. */
  predicate StartsWith(s: string, p: string) {
    |p| <= |s| && s[..|p|] == p
  }

  /** `s.replace(/\D/g, '')`: deletes every character that is not an ASCII digit. */
  function DigitsOf(s: string): (r: string)
    ensures AllDigits(r) && |r| <= |s|
    ensures AllDigits(s) ==> r == s
  {
    if s == [] then []
    else if IsDigit(s[0]) then [s[0]] + DigitsOf(s[1..])
    else DigitsOf(s[1..])
  }

  /** Every digit is kept as often as it occurs and every other character is deleted. */
  lemma {:induction false} DigitsOfCounts(s: string, c: char)
    ensures multiset(DigitsOf(s))[c] == if IsDigit(c) then multiset(s)[c] else 0
  {
    if s != [] {
      assert s == [s[0]] + s[1..];
      DigitsOfCounts(s[1..], c);
    }
  }

  /** Deleting non-digits works piecewise, so the digits keep their order. */
  lemma {:induction false} DigitsOfAppend(a: string, b: string)
    ensures DigitsOf(a + b) == DigitsOf(a) + DigitsOf(b)
  {
    if a == [] {
      assert a + b == b;
    } else {
      assert (a + b)[0] == a[0] && (a + b)[1..] == a[1..] + b;
      DigitsOfAppend(a[1..], b);
      if IsDigit(a[0]) {
        assert DigitsOf(a + b) == [a[0]] + (DigitsOf(a[1..]) + DigitsOf(b));
      }
    }
  }

  /** `s.toLowerCase()` on the ASCII letters: each capital becomes its small letter
      and every other character stays. No character outside ASCII lowercases to any
      of 't', 'r', 'u', 'e', so comparing the result with "true" is exact. */
  function AsciiLower(s: string): (r: string)
    ensures |r| == |s|
    ensures forall i :: 0 <= i < |s| ==>
      if 'A' <= s[i] <= 'Z' then r[i] as int == s[i] as int + 32 else r[i] == s[i]
  {
    if s == [] then []
    else
      var c := s[0];
      [if 'A' <= c <= 'Z' then (c as int + 32) as char else c] + AsciiLower(s[1..])
  }

  // ---------------------------------------------------------------- Buffer.from(string)

  newtype byte = x: int | 0 <= x < 256

  /** The UTF-8 encoding of one Unicode scalar value: six payload bits per
      continuation byte, the rest in the lead byte. */
  function Utf8Char(c: char): (r: seq<byte>)
    ensures 1 <= |r| <= 4
    ensures |r| == 1 <==> c as int < 0x80
  {
    var n := c as int;
    if n < 0x80 then [n as byte]
    else if n < 0x800 then [(0xC0 + n / 0x40) as byte, (0x80 + n % 0x40) as byte]
    else if n < 0x10000 then
      var q := n / 0x40;
      [(0xE0 + q / 0x40) as byte, (0x80 + q % 0x40) as byte, (0x80 + n % 0x40) as byte]
    else
      var q := n / 0x40;
      var p := q / 0x40;
      [(0xF0 + p / 0x40) as byte, (0x80 + p % 0x40) as byte,
       (0x80 + q % 0x40) as byte, (0x80 + n % 0x40) as byte]
  }

  /** `Buffer.from(s)`: the UTF-8 bytes of `s`. */
  function Utf8(s: string): (r: seq<byte>)
    ensures |r| >= |s|
    ensures |r| == |s| <==> forall i :: 0 <= i < |s| ==> s[i] as int < 0x80
  {
    if s == [] then [] else Utf8Char(s[0]) + Utf8(s[1..])
  }

  /** The lead byte of an encoding tells how many bytes follow it. */
  lemma Utf8LeadByte(c: char)
    ensures var r := Utf8Char(c);
      && (|r| == 1 <==> r[0] < 0x80)
      && (|r| == 2 <==> 0xC0 <= r[0] < 0xE0)
      && (|r| == 3 <==> 0xE0 <= r[0] < 0xF0)
      && (|r| == 4 <==> 0xF0 <= r[0])
  {
  }

  /** A number is its quotient and remainder by 64. */
  lemma SixBits(n: nat, m: nat)
    requires n / 0x40 == m / 0x40 && n % 0x40 == m % 0x40
    ensures n == m
  {
  }

  lemma Utf8CharInjective(c: char, d: char)
    requires Utf8Char(c) == Utf8Char(d)
    ensures c == d
  {
    var n, m := c as int, d as int;
    Utf8LeadByte(c);
    Utf8LeadByte(d);
    var r := Utf8Char(c);
    if |r| == 2 {
      SixBits(n, m);
    } else if |r| == 3 {
      SixBits(n / 0x40, m / 0x40);
      SixBits(n, m);
    } else if |r| == 4 {
      SixBits(n / 0x40 / 0x40, m / 0x40 / 0x40);
      SixBits(n / 0x40, m / 0x40);
      SixBits(n, m);
    }
  }

  /** Distinct strings have distinct UTF-8 encodings. */
  lemma {:induction false} Utf8Injective(s: string, t: string)
    requires Utf8(s) == Utf8(t)
    ensures s == t
  {
    if s != [] && t != [] {
      var a, b := Utf8Char(s[0]), Utf8Char(t[0]);
      assert Utf8(s) == a + Utf8(s[1..]) && Utf8(t) == b + Utf8(t[1..]);
      assert a[0] == Utf8(s)[0] && b[0] == Utf8(t)[0];
      Utf8LeadByte(s[0]);
      Utf8LeadByte(t[0]);
      assert |a| == |b|;
      assert a == Utf8(s)[..|a|] && b == Utf8(t)[..|b|];
      Utf8CharInjective(s[0], t[0]);
      assert Utf8(s[1..]) == Utf8(s)[|a|..] && Utf8(t[1..]) == Utf8(t)[|b|..];
      Utf8Injective(s[1..], t[1..]);
      assert s == [s[0]] + s[1..] && t == [t[0]] + t[1..];
    }
  }
}
