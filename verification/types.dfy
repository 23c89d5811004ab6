/** The month record of the life-graph application (types.ts) and the few
    JavaScript built-ins its handlers rely on: truthiness of optional
    strings, String.prototype.trim, Math.round, parseInt and the decimal
    rendering of an integer inside a template literal. */
module Types {

  datatype Option<T> = None | Some(value: T)

  /** A checklist tag of one month: `value` is whether it is switched on. */
  datatype Category = Category(id: string, name: string, value: bool)

  /** One month of the year. The five highlight fields are optional in the
      source (`frequentPeople?: string`, ...), hence `Option`. */
  datatype MonthlyData = MonthlyData(
    month: int,
    score: int,
    title: string,
    note: string,
    images: seq<string>,
    categories: seq<Category>,
    achievements: seq<string>,
    frequentPeople: Option<string>,
    frequentPlaces: Option<string>,
    gratitude: Option<string>,
    regret: Option<string>,
    improvement: Option<string>)

  /** The record invariants the application keeps: a month number in 1..12,
      a score in 0..100 and at most five images. */
  predicate ValidRecord(d: MonthlyData)
  {
    1 <= d.month <= 12 && 0 <= d.score <= 100 && |d.images| <= 5
  }

  /** No two categories of the list share an id. */
  predicate DistinctIds(cats: seq<Category>)
  {
    forall i, j | 0 <= i < j < |cats| :: cats[i].id != cats[j].id
  }

  // ---------------------------------------------------------------------
  // JavaScript truthiness of strings

  /** An optional string is truthy when it is present and not empty. */
  predicate Truthy(o: Option<string>)
  {
    o.Some? && o.value != ""
  }

  /** `o || fallback` for an optional string field. */
  function OrElse(o: Option<string>, fallback: string): (r: string)
    ensures Truthy(o) ==> r == o.value
    ensures !Truthy(o) ==> r == fallback
  {
    if o.Some? && o.value != "" then o.value else fallback
  }

  /** `s || fallback` for a plain string field. */
  function StrOrElse(s: string, fallback: string): (r: string)
    ensures s != "" ==> r == s
    ensures s == "" ==> r == fallback
  {
    if s != "" then s else fallback
  }

  // ---------------------------------------------------------------------
  // String.prototype.trim

  /** The ECMAScript WhiteSpace and LineTerminator code points: the
      characters trim removes and parseInt skips. */
  predicate IsWhitespace(c: char)
  {
    var n := c as int;
    n == 0x09 || n == 0x0A || n == 0x0B || n == 0x0C || n == 0x0D
    || n == 0x20 || n == 0xA0 || n == 0x1680 || (0x2000 <= n <= 0x200A)
    || n == 0x2028 || n == 0x2029 || n == 0x202F || n == 0x205F
    || n == 0x3000 || n == 0xFEFF
  }

  /** Every character of `s` is whitespace (the empty string included). */
  predicate IsBlank(s: string)
  {
    forall i | 0 <= i < |s| :: IsWhitespace(s[i])
  }

  /** Drops the leading whitespace of `s`. */
  function TrimStart(s: string): (r: string)
    ensures |r| <= |s| && r == s[|s| - |r|..]
    ensures forall i | 0 <= i < |s| - |r| :: IsWhitespace(s[i])
    ensures |r| > 0 ==> !IsWhitespace(r[0])
  {
    if |s| > 0 && IsWhitespace(s[0]) then TrimStart(s[1..]) else s
  }

  /** Drops the trailing whitespace of `s`. */
  function TrimEnd(s: string): (r: string)
    ensures |r| <= |s| && r == s[..|r|]
    ensures forall i | |r| <= i < |s| :: IsWhitespace(s[i])
    ensures |r| > 0 ==> !IsWhitespace(r[|r| - 1])
  {
    if |s| > 0 && IsWhitespace(s[|s| - 1]) then TrimEnd(s[..|s| - 1]) else s
  }

  /** `r` is the part of `s` starting at index `a`, with nothing but
      whitespace before it and after it. */
  predicate BlankFramed(s: string, r: string, a: int)
  {
    && 0 <= a <= |s| - |r|
    && r == s[a..a + |r|]
    && IsBlank(s[..a])
    && IsBlank(s[a + |r|..])
  }

  /** `s.trim()`: `s` with its leading and trailing whitespace cut off.
      The result is a piece of `s` framed by whitespace only; it is empty
      exactly for blank input, and otherwise neither starts nor ends with
      whitespace, so nothing more could be cut. */
  function Trim(s: string): (r: string)
    ensures exists a :: BlankFramed(s, r, a)
    ensures r == "" <==> IsBlank(s)
    ensures |r| > 0 ==> !IsWhitespace(r[0]) && !IsWhitespace(r[|r| - 1])
    ensures |r| <= |s|
  {
    var t := TrimStart(s);
    var r := TrimEnd(t);
    assert r == "" ==> t == "";
    var a := |s| - |t|;
    assert r == s[a..a + |r|];
    assert s[a + |r|..] == t[|r|..];
    assert BlankFramed(s, r, a);
    r
  }

  /** Two non-whitespace positions with only whitespace before them are
      the same position. */
  lemma FirstNonBlankIsUnique(s: string, a: int, b: int)
    requires 0 <= a < |s| && 0 <= b < |s|
    requires IsBlank(s[..a]) && IsBlank(s[..b])
    requires !IsWhitespace(s[a]) && !IsWhitespace(s[b])
    ensures a == b
  {
  }

  /** Two non-whitespace positions with only whitespace after them are the
      same position. */
  lemma LastNonBlankIsUnique(s: string, e: int, f: int)
    requires 0 < e <= |s| && 0 < f <= |s|
    requires IsBlank(s[e..]) && IsBlank(s[f..])
    requires !IsWhitespace(s[e - 1]) && !IsWhitespace(s[f - 1])
    ensures e == f
  {
  }

  /** The contract of `Trim` pins it down: any whitespace-framed piece of
      `s` that is empty only for blank input and has no whitespace at
      either end is `Trim(s)`. */
  lemma TrimIsUnique(s: string, r: string, a: int)
    requires BlankFramed(s, r, a)
    requires r == "" <==> IsBlank(s)
    requires |r| > 0 ==> !IsWhitespace(r[0]) && !IsWhitespace(r[|r| - 1])
    ensures r == Trim(s)
  {
    var t := Trim(s);
    if r != "" {
      var b :| BlankFramed(s, t, b);
      assert s[a] == r[0] && s[b] == t[0];
      FirstNonBlankIsUnique(s, a, b);
      assert s[a + |r| - 1] == r[|r| - 1] && s[b + |t| - 1] == t[|t| - 1];
      LastNonBlankIsUnique(s, a + |r|, b + |t|);
    }
  }

  /** Trimming twice is trimming once. */
  lemma TrimIdempotent(s: string)
    ensures Trim(Trim(s)) == Trim(s)
  {
    var r := Trim(s);
    if |r| > 0 {
      assert TrimStart(r) == r;
      assert TrimEnd(r) == r;
    }
  }

  // ---------------------------------------------------------------------
  // Math.round

  /** Math.round: the nearest integer, halves rounded up. */
  function Round(x: real): (r: int)
    ensures r as real - 0.5 <= x < r as real + 0.5
  {
    (x + 0.5).Floor
  }

  /** An integer is its own rounding. */
  lemma RoundOfInt(n: int)
    ensures Round(n as real) == n
  {
  }

  // ---------------------------------------------------------------------
  // Decimal rendering and parseInt

  /** The value of a digit character in any radix up to 36, or 36 when the
      character is not a digit at all. */
  function DigitValue(c: char): (v: nat)
    ensures v <= 36
    ensures '0' <= c <= '9' ==> v == c as int - '0' as int
  {
    if '0' <= c <= '9' then c as int - '0' as int
    else if 'a' <= c <= 'z' then c as int - 'a' as int + 10
    else if 'A' <= c <= 'Z' then c as int - 'A' as int + 10
    else 36
  }

  /** The length of the longest prefix of `s` made of digits of `radix`. */
  function DigitPrefixLength(s: string, radix: nat): (n: nat)
    ensures n <= |s|
    ensures forall i | 0 <= i < n :: DigitValue(s[i]) < radix
    ensures n < |s| ==> DigitValue(s[n]) >= radix
  {
    if |s| > 0 && DigitValue(s[0]) < radix then 1 + DigitPrefixLength(s[1..], radix) else 0
  }

  /** The number a string of digits denotes in `radix`. */
  function DigitsValue(s: string, radix: nat): nat
  {
    if s == [] then 0
    else DigitsValue(s[..|s| - 1], radix) * radix
         + (if DigitValue(s[|s| - 1]) < radix then DigitValue(s[|s| - 1]) else 0)
  }

  /** The sign read by parseInt after leading whitespace: whether it is a
      minus, and what follows the sign character if there is one. */
  function SplitSign(t: string): (r: (bool, string))
    ensures |r.1| <= |t|
  {
    if |t| > 0 && (t[0] == '-' || t[0] == '+') then (t[0] == '-', t[1..]) else (false, t)
  }

  /** The radix parseInt uses when none is given: 16 after a `0x` or `0X`
      prefix, which is then dropped, and 10 otherwise. */
  function SplitRadix(u: string): (r: (nat, string))
    ensures r.0 == 10 || r.0 == 16
  {
    if |u| >= 2 && u[0] == '0' && (u[1] == 'x' || u[1] == 'X') then (16, u[2..]) else (10, u)
  }

  /** parseInt(s) with no radix argument: skip leading whitespace, read an
      optional sign, pick the radix, then read the longest run of digits.
      `None` stands for NaN, the outcome when no digit follows. */
  function ParseInt(s: string): (r: Option<int>)
    ensures IsBlank(s) ==> r.None?
  {
    var t := TrimStart(s);
    var (negative, u) := SplitSign(t);
    var (radix, v) := SplitRadix(u);
    var n := DigitPrefixLength(v, radix);
    if n == 0 then None
    else
      var magnitude: int := DigitsValue(v[..n], radix);
      Some(if negative then -magnitude else magnitude)
  }

  /** The character of a decimal digit. */
  function DigitChar(d: nat): (c: char)
    requires d < 10
    ensures '0' <= c <= '9' && DigitValue(c) == d
  {
    (d + '0' as int) as char
  }

  /** The decimal rendering of a natural number, without leading zeros. */
  function NatToString(n: nat): (s: string)
    ensures |s| > 0
    ensures forall i | 0 <= i < |s| :: '0' <= s[i] <= '9'
    ensures |s| > 1 ==> s[0] != '0'
  {
    if n < 10 then [DigitChar(n)] else NatToString(n / 10) + [DigitChar(n % 10)]
  }

  /** The rendering of an integer in a template literal. */
  function IntToString(i: int): (s: string)
    ensures |s| > 0
    ensures i >= 0 ==> s == NatToString(i)
    ensures i < 0 ==> s == "-" + NatToString(-i)
  {
    if i < 0 then "-" + NatToString(-i) else NatToString(i)
  }

  /** Reading back the decimal digits of `n` gives `n`. */
  lemma {:induction false} DigitsValueOfNatToString(n: nat)
    ensures DigitsValue(NatToString(n), 10) == n
  {
    if n >= 10 {
      var s := NatToString(n);
      assert s[..|s| - 1] == NatToString(n / 10);
      DigitsValueOfNatToString(n / 10);
    }
  }

  /** A string of decimal digits is read by parseInt to its end. */
  lemma DecimalDigitsArePrefix(s: string)
    requires forall i | 0 <= i < |s| :: '0' <= s[i] <= '9'
    ensures DigitPrefixLength(s, 10) == |s|
  {
  }

  /** parseInt reads back every rendered natural number: the value a range
      input reports as its decimal string parses to that value. */
  lemma ParseIntOfNatToString(n: nat)
    ensures ParseInt(NatToString(n)) == Some(n)
  {
    var s := NatToString(n);
    assert !IsWhitespace(s[0]);
    assert TrimStart(s) == s;
    assert SplitSign(s) == (false, s);
    assert SplitRadix(s) == (10, s);
    DecimalDigitsArePrefix(s);
    assert s[..|s|] == s;
    DigitsValueOfNatToString(n);
    assert DigitPrefixLength(s, 10) == |s|;
    assert DigitsValue(s[..|s|], 10) == n;
  }
}
