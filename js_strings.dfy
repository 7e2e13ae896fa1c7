/**
 * The string built-ins the service calls: `trim`, `split`/`join` on one
 * separator, `startsWith`, `includes`, `String(v)` and `parseInt`, following
 * their definitions in ECMA-262 (sections 22.1.3 and 19.2.5).  Strings are
 * sequences of characters.
 */
module JsStrings {
  import opened JsValues

  /** The WhiteSpace and LineTerminator code points of ECMA-262 (sections 12.2 and 12.3). */
  predicate IsJsWhitespace(c: char)
  {
    var n := c as int;
    n == 0x09 || n == 0x0A || n == 0x0B || n == 0x0C || n == 0x0D || n == 0x20
    || n == 0xA0 || n == 0x1680 || (0x2000 <= n <= 0x200A) || n == 0x2028
    || n == 0x2029 || n == 0x202F || n == 0x205F || n == 0x3000 || n == 0xFEFF
  }

  /** `s` without its leading whitespace. */
  function TrimStart(s: string): (r: string)
    ensures |r| <= |s| && r == s[|s| - |r|..]
    ensures r == [] || !IsJsWhitespace(r[0])
    ensures forall i :: 0 <= i < |s| - |r| ==> IsJsWhitespace(s[i])
  {
    if s != [] && IsJsWhitespace(s[0]) then TrimStart(s[1..]) else s
  }

  /** `s` without its trailing whitespace. */
  function TrimEnd(s: string): (r: string)
    ensures |r| <= |s| && r == s[..|r|]
    ensures r == [] || !IsJsWhitespace(r[|r| - 1])
    ensures forall i :: |r| <= i < |s| ==> IsJsWhitespace(s[i])
  {
    if s != [] && IsJsWhitespace(s[|s| - 1]) then TrimEnd(s[..|s| - 1]) else s
  }

  /**
   * `s.trim()`: the part of `s` between its leading and its trailing
   * whitespace, which neither starts nor ends with whitespace.
   */
  function Trim(s: string): (r: string)
    ensures var k := |s| - |TrimStart(s)|;
      && k + |r| <= |s|
      && r == s[k..k + |r|]
      && (forall i :: 0 <= i < k ==> IsJsWhitespace(s[i]))
      && (forall i :: k + |r| <= i < |s| ==> IsJsWhitespace(s[i]))
    ensures r == [] || (!IsJsWhitespace(r[0]) && !IsJsWhitespace(r[|r| - 1]))
  {
    TrimEnd(TrimStart(s))
  }

  /** A string made only of whitespace trims to the empty string. */
  lemma {:induction false} TrimAllWhitespace(s: string)
    requires forall i :: 0 <= i < |s| ==> IsJsWhitespace(s[i])
    ensures Trim(s) == ""
  {
    if s != [] {
      TrimAllWhitespace(s[1..]);
      assert TrimStart(s) == TrimStart(s[1..]);
    }
  }

  /** The index of the first occurrence of `c` in `s`. */
  function IndexOf(s: string, c: char): (i: nat)
    requires c in s
    ensures i < |s| && s[i] == c && c !in s[..i]
  {
    if s[0] == c then 0 else 1 + IndexOf(s[1..], c)
  }

  /** `parts.join(sep)`: the parts separated by one `sep` each. */
  function Join(parts: seq<string>, sep: char): string
  {
    if |parts| == 0 then ""
    else if |parts| == 1 then parts[0]
    else parts[0] + [sep] + Join(parts[1..], sep)
  }

  /**
   * `s.split(sep)` for a one-character separator: the maximal pieces of `s`
   * that do not contain `sep`.  Joining them with `sep` gives `s` back, and
   * there is exactly one piece when `sep` does not occur in `s`.
   */
  function Split(s: string, sep: char): (parts: seq<string>)
    ensures |parts| >= 1
    ensures |parts| == 1 <==> sep !in s
    ensures forall i :: 0 <= i < |parts| ==> sep !in parts[i]
    ensures Join(parts, sep) == s
    decreases |s|
  {
    if sep !in s then [s]
    else
      var i := IndexOf(s, sep);
      var rest := Split(s[i + 1..], sep);
      assert s == s[..i] + [sep] + s[i + 1..];
      [s[..i]] + rest
  }

  /** `s.startsWith(prefix)`. */
  predicate StartsWith(s: string, prefix: string)
  {
    |prefix| <= |s| && s[..|prefix|] == prefix
  }

  /** `s.includes(t)`: `t` occurs in `s` at some position. */
  predicate Includes(s: string, t: string)
    decreases |s|
  {
    if |t| > |s| then false
    else s[..|t|] == t || (s != [] && Includes(s[1..], t))
  }

  /** Whatever precedes it, a string includes itself followed by anything. */
  lemma {:induction false} IncludesInfix(p: string, t: string, q: string)
    ensures Includes(p + t + q, t)
  {
    if p == [] {
      assert (p + t + q)[..|t|] == t;
    } else {
      IncludesInfix(p[1..], t, q);
      assert (p + t + q)[1..] == p[1..] + t + q;
    }
  }

  predicate IsDecimalDigit(c: char)
  {
    '0' <= c <= '9'
  }

  function DecimalDigit(d: nat): (c: char)
    requires d < 10
    ensures IsDecimalDigit(c) && c as int - '0' as int == d
  {
    ('0' as int + d) as char
  }

  /** The decimal numeral of `n`, without leading zeros. */
  function NatToString(n: nat): (r: string)
    ensures |r| >= 1
    ensures forall i :: 0 <= i < |r| ==> IsDecimalDigit(r[i])
    ensures n > 0 ==> r[0] != '0'
    ensures n == 0 <==> r == "0"
  {
    if n < 10 then [DecimalDigit(n)] else NatToString(n / 10) + [DecimalDigit(n % 10)]
  }

  /** `String(n)` for an integer `n`. */
  function IntToString(n: int): string
  {
    if n < 0 then "-" + NatToString(-n) else NatToString(n)
  }

  /**
   * `String(v)`, also what a template literal and `toString()` produce.
   * An array joins its elements with commas, writing null and undefined as
   * the empty string.
   */
  function ToString(v: Js): string
  {
    match v
    case Undefined => "undefined"
    case Null => "null"
    case Bool(b) => if b then "true" else "false"
    case Num(n) => IntToString(n)
    case Str(s) => s
    case Arr(es) =>
      Join(seq(|es|, i requires 0 <= i < |es| => if Nullish(es[i]) then "" else ToString(es[i])), ',')
    case Obj(_) => "[object Object]"
  }

  /** The result of `parseInt`: NaN, or an integer. */
  datatype ParsedInt = NaN | Int(value: int)

  predicate IsHexDigit(c: char)
  {
    IsDecimalDigit(c) || 'a' <= c <= 'f' || 'A' <= c <= 'F'
  }

  predicate IsRadixDigit(c: char, radix: nat)
  {
    if radix == 16 then IsHexDigit(c) else IsDecimalDigit(c)
  }

  function DigitValue(c: char): nat
  {
    if IsDecimalDigit(c) then c as int - '0' as int
    else if 'a' <= c <= 'f' then c as int - 'a' as int + 10
    else if 'A' <= c <= 'F' then c as int - 'A' as int + 10
    else 0
  }

  /** The longest prefix of `s` made of digits of `radix`. */
  function DigitPrefix(s: string, radix: nat): (z: string)
    ensures |z| <= |s| && z == s[..|z|]
    ensures forall i :: 0 <= i < |z| ==> IsRadixDigit(z[i], radix)
    ensures |z| < |s| ==> !IsRadixDigit(s[|z|], radix)
  {
    if s != [] && IsRadixDigit(s[0], radix) then [s[0]] + DigitPrefix(s[1..], radix) else []
  }

  /** The value of a numeral read most significant digit first. */
  function DigitsValue(z: string, radix: nat): nat
  {
    if z == [] then 0 else DigitsValue(z[..|z| - 1], radix) * radix + DigitValue(z[|z| - 1])
  }

  /**
   * The digits after the sign: a `0x`/`0X` prefix selects hexadecimal, the
   * longest run of digits that follows is the value, and no digits give NaN.
   */
  function ParseUnsigned(s: string): (r: ParsedInt)
    ensures r.Int? ==> r.value >= 0
  {
    var hex := |s| >= 2 && s[0] == '0' && (s[1] == 'x' || s[1] == 'X');
    var radix := if hex then 16 else 10;
    var z := DigitPrefix(if hex then s[2..] else s, radix);
    if z == [] then NaN else Int(DigitsValue(z, radix))
  }

  /**
   * `parseInt(s)` with no radix: skip leading whitespace, read an optional
   * sign, then the digits.
   */
  function ParseInt(input: string): ParsedInt
  {
    var s := TrimStart(input);
    var negative := s != [] && s[0] == '-';
    var unsigned := if s != [] && (s[0] == '-' || s[0] == '+') then s[1..] else s;
    match ParseUnsigned(unsigned)
    case NaN => NaN
    case Int(m) => Int(if negative then -m else m)
  }

  /**
   * `parseInt(v) || fallback`: the parsed integer, unless parsing gives NaN
   * or zero, which are falsy, in which case `fallback`.
   */
  function ParseIntOr(v: Js, fallback: int): (r: int)
    ensures ParseInt(ToString(v)).NaN? ==> r == fallback
    ensures ParseInt(ToString(v)) == Int(0) ==> r == fallback
    ensures ParseInt(ToString(v)).Int? && ParseInt(ToString(v)).value != 0 ==> r == ParseInt(ToString(v)).value
    ensures fallback != 0 ==> r != 0
  {
    match ParseInt(ToString(v))
    case NaN => fallback
    case Int(n) => if n != 0 then n else fallback
  }

  lemma {:induction false} DigitsValueOfNumeral(n: nat)
    ensures DigitsValue(NatToString(n), 10) == n
  {
    if n >= 10 {
      DigitsValueOfNumeral(n / 10);
      var s := NatToString(n);
      assert s[..|s| - 1] == NatToString(n / 10);
    }
  }

  lemma {:induction false} DigitPrefixOfDigits(s: string)
    requires forall i :: 0 <= i < |s| ==> IsDecimalDigit(s[i])
    ensures DigitPrefix(s, 10) == s
  {
    if s != [] {
      DigitPrefixOfDigits(s[1..]);
    }
  }

  lemma {:induction false} ParseUnsignedOfNumeral(m: nat)
    ensures ParseUnsigned(NatToString(m)) == Int(m)
  {
    var digits := NatToString(m);
    assert !(|digits| >= 2 && digits[0] == '0');
    DigitPrefixOfDigits(digits);
    DigitsValueOfNumeral(m);
  }

  /** `parseInt(String(n))` gives `n` back: the two conversions are inverse on integers. */
  lemma {:induction false} ParseIntOfToString(n: int)
    ensures ParseInt(ToString(Num(n))) == Int(n)
  {
    var m: nat := if n < 0 then -n else n;
    var s := IntToString(n);
    assert ToString(Num(n)) == s;
    assert s[0] == '-' || IsDecimalDigit(s[0]);
    assert !IsJsWhitespace(s[0]);
    assert TrimStart(s) == s;
    ParseUnsignedOfNumeral(m);
    if n < 0 {
      assert s[1..] == NatToString(m);
    } else {
      assert s == NatToString(m);
    }
  }
}
