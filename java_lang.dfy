/**
 * The few pieces of the Java platform the two applications lean on:
 * 32-bit `int` arithmetic, `String.trim()`, `String.length()` (UTF-16
 * code units), `Integer.parseInt` and `String.valueOf(int)`.
 */
module JavaLang {
  import opened Wrappers

  // ---------------------------------------------------------------------
  // 32-bit int
  // ---------------------------------------------------------------------

  const MinInt: int := -0x8000_0000
  const MaxInt: int := 0x7FFF_FFFF
  const IntModulus: int := 0x1_0000_0000

  /** The values of a Java `int`. */
  type Int32 = x: int | MinInt <= x <= MaxInt

  /** The Java `int` with the same low 32 bits as `x` (two's-complement wrap-around). */
  function Wrap(x: int): (r: Int32)
    ensures (r - x) % IntModulus == 0
    ensures MinInt <= x <= MaxInt ==> r == x
  {
    (x - MinInt) % IntModulus + MinInt
  }

  /** Java's `a + b` on two `int`s. */
  function AddInt(a: Int32, b: Int32): Int32
  {
    Wrap(a + b)
  }

  /** Wrapping an intermediate result early does not change the wrapped final result. */
  lemma WrapAbsorbs(x: int, y: int)
    ensures Wrap(Wrap(x) + y) == Wrap(x + y)
  {
    var q := (x - MinInt) / IntModulus;
    assert Wrap(x) == x - q * IntModulus;
    WrapShift(x + y, -q);
  }

  lemma WrapShift(x: int, k: int)
    ensures Wrap(x + k * IntModulus) == Wrap(x)
  {
    var r := (x - MinInt) % IntModulus;
    var d := (x - MinInt) / IntModulus;
    assert x + k * IntModulus - MinInt == (d + k) * IntModulus + r;
  }

  // ---------------------------------------------------------------------
  // String.trim()
  // ---------------------------------------------------------------------

  /** A character that `String.trim()` strips: any code point at or below U+0020. */
  predicate IsBlank(c: char)
  {
    c <= ' '
  }

  predicate AllBlank(s: string)
  {
    forall k :: 0 <= k < |s| ==> IsBlank(s[k])
  }

  /** `s` without its leading blanks. */
  function TrimStart(s: string): (r: string)
    ensures |r| <= |s| && r == s[|s| - |r|..]
    ensures AllBlank(s[..|s| - |r|])
    ensures r != [] ==> !IsBlank(r[0])
  {
    if s != [] && IsBlank(s[0]) then TrimStart(s[1..]) else s
  }

  /** `s` without its trailing blanks. */
  function TrimEnd(s: string): (r: string)
    ensures |r| <= |s| && r == s[..|r|]
    ensures AllBlank(s[|r|..])
    ensures r != [] ==> !IsBlank(r[|r| - 1])
  {
    if s != [] && IsBlank(s[|s| - 1]) then TrimEnd(s[..|s| - 1]) else s
  }

  /** `s` is `r` with only blanks before (`pre`) and after (`post`) it. */
  predicate StripsBlanks(s: string, pre: string, r: string, post: string)
  {
    s == pre + r + post && AllBlank(pre) && AllBlank(post)
  }

  /** Java's `String.trim()`: leading and trailing blanks removed. */
  function Trim(s: string): (r: string)
    ensures |r| <= |s|
    ensures r != [] ==> !IsBlank(r[0]) && !IsBlank(r[|r| - 1])
  {
    var t := TrimStart(s);
    var r := TrimEnd(t);
    assert r != [] ==> r[0] == t[0];
    r
  }

  /** What `Trim` keeps is one piece of the input, with only blanks cut off before and after it. */
  lemma TrimIsSlice(s: string)
    ensures exists pre, post :: StripsBlanks(s, pre, Trim(s), post)
  {
    var t := TrimStart(s);
    assert Trim(s) == TrimEnd(t);
    TrimEndOfTrimStart(s);
    assert StripsBlanks(s, s[..|s| - |t|], Trim(s), t[|Trim(s)|..]);
  }

  /** The blanks `TrimStart` and then `TrimEnd` remove lie around what is kept. */
  lemma {:induction false} TrimEndOfTrimStart(s: string)
    ensures var t := TrimStart(s);
      StripsBlanks(s, s[..|s| - |t|], TrimEnd(t), t[|TrimEnd(t)|..])
  {
    var t := TrimStart(s);
    var r := TrimEnd(t);
    var n := |s| - |t|;
    Split(s, n, t);
    Split(t, |r|, t[|r|..]);
    Regroup(s[..n], r, t[|r|..]);
  }

  lemma Split<T>(s: seq<T>, n: nat, rest: seq<T>)
    requires n <= |s| && rest == s[n..]
    ensures s == s[..n] + rest
  {
  }

  lemma Regroup<T>(a: seq<T>, b: seq<T>, c: seq<T>)
    ensures a + (b + c) == a + b + c
  {
  }

  /** `Trim` yields the empty string exactly when every character is blank. */
  lemma TrimEmptyIffAllBlank(s: string)
    ensures Trim(s) == [] <==> AllBlank(s)
  {
    var t := TrimStart(s);
    if Trim(s) == [] {
      assert AllBlank(t[0..]);
      assert s == s[..|s| - |t|] + t;
    } else {
      assert t != [];
      assert !IsBlank(s[|s| - |t|]);
    }
  }

  /** A string with no blank at either end is left as it is. */
  lemma TrimKeepsTrimmed(s: string)
    requires s != [] ==> !IsBlank(s[0]) && !IsBlank(s[|s| - 1])
    ensures Trim(s) == s
  {
  }

  lemma {:induction false} TrimStartPadded(before: string, rest: string)
    requires AllBlank(before)
    requires rest != [] ==> !IsBlank(rest[0])
    ensures TrimStart(before + rest) == rest
  {
    if before != [] {
      assert (before + rest)[1..] == before[1..] + rest;
      TrimStartPadded(before[1..], rest);
    }
  }

  lemma {:induction false} TrimEndPadded(s: string, after: string)
    requires AllBlank(after)
    requires s != [] ==> !IsBlank(s[|s| - 1])
    ensures TrimEnd(s + after) == s
  {
    if after != [] {
      var last := |after| - 1;
      assert (s + after)[..|s + after| - 1] == s + after[..last];
      TrimEndPadded(s, after[..last]);
    }
  }

  /** Blanks around a trimmed string are exactly what `Trim` removes. */
  lemma TrimPadded(before: string, s: string, after: string)
    requires AllBlank(before) && AllBlank(after)
    requires s != [] ==> !IsBlank(s[0]) && !IsBlank(s[|s| - 1])
    ensures Trim(before + s + after) == s
  {
    if s == [] {
      assert before + s + after == before + after;
      TrimEmptyIffAllBlank(before + after);
    } else {
      assert before + s + after == before + (s + after);
      TrimStartPadded(before, s + after);
      TrimEndPadded(s, after);
    }
  }

  /** Trimming twice is trimming once. */
  lemma TrimIdempotent(s: string)
    ensures Trim(Trim(s)) == Trim(s)
  {
    var t := Trim(s);
    if t != [] {
      assert TrimStart(s) != [];
      assert t[0] == TrimStart(s)[0];
    }
    TrimKeepsTrimmed(t);
  }

  // ---------------------------------------------------------------------
  // Integer.parseInt / String.valueOf(int), radix 10
  // ---------------------------------------------------------------------

  predicate IsDigit(c: char)
  {
    '0' <= c <= '9'
  }

  predicate AllDigits(s: string)
  {
    forall k :: 0 <= k < |s| ==> IsDigit(s[k])
  }

  function DigitValue(c: char): nat
    requires IsDigit(c)
  {
    (c as int) - ('0' as int)
  }

  function DigitChar(d: nat): char
    requires d < 10
  {
    (('0' as int) + d) as char
  }

  /** The number a string of decimal digits denotes, most significant first. */
  function DigitsValue(s: string): nat
    requires AllDigits(s)
  {
    if s == [] then 0 else DigitsValue(s[..|s| - 1]) * 10 + DigitValue(s[|s| - 1])
  }

  /** `s` without a leading `-` or `+`. */
  function Unsigned(s: string): (r: string)
    ensures |r| <= |s|
  {
    if s != [] && (s[0] == '-' || s[0] == '+') then s[1..] else s
  }

  /**
   * `Integer.parseInt(s)`: an optional `-` or `+`, then at least one digit,
   * and a value that fits in an `int`; `None` wherever Java throws
   * `NumberFormatException`.
   */
  function ParseInt(s: string): (r: Option<Int32>)
    ensures s == [] ==> r == None
    ensures r.Some? ==> Unsigned(s) != [] && AllDigits(Unsigned(s))
    ensures r.Some? ==> (if s[0] == '-' then 0 - r.value else r.value) == DigitsValue(Unsigned(s))
  {
    if s == [] then None
    else
      var digits := Unsigned(s);
      if digits == [] || !AllDigits(digits) then None
      else
        var v: int := if s[0] == '-' then 0 - DigitsValue(digits) else DigitsValue(digits);
        if MinInt <= v <= MaxInt then Some(v) else None
  }

  /** The decimal digits of `n`, without leading zeros. */
  function NatToString(n: nat): (r: string)
    ensures r != [] && AllDigits(r)
  {
    if n < 10 then [DigitChar(n)] else NatToString(n / 10) + [DigitChar(n % 10)]
  }

  /** `String.valueOf(n)` for an `int`. */
  function ValueOf(n: Int32): string
  {
    if n < 0 then "-" + NatToString(0 - n as int) else NatToString(n)
  }

  lemma {:induction false} NatToStringValue(n: nat)
    ensures DigitsValue(NatToString(n)) == n
  {
    var s := NatToString(n);
    if n >= 10 {
      NatToStringValue(n / 10);
      assert s[..|s| - 1] == NatToString(n / 10);
    }
  }

  /** Parsing the text `String.valueOf` prints gives back the same `int`. */
  lemma ParseValueOf(n: Int32)
    ensures ParseInt(ValueOf(n)) == Some(n)
  {
    var m: nat := if n < 0 then 0 - n as int else n;
    NatToStringValue(m);
    if n < 0 {
      assert ValueOf(n)[1..] == NatToString(m);
    }
  }

  /** A decimal number beyond the range of `int` does not parse; it is not wrapped. */
  lemma ParseIntRejectsOutOfRange(n: nat)
    requires n > MaxInt
    ensures ParseInt(NatToString(n)) == None
    ensures n > 0 - MinInt ==> ParseInt("-" + NatToString(n)) == None
  {
    NatToStringValue(n);
    assert ("-" + NatToString(n))[1..] == NatToString(n);
  }

  /** Text with a character that is neither a digit nor a leading sign never parses. */
  lemma ParseIntRejectsNonDigit(s: string, k: nat)
    requires k < |s| && !IsDigit(s[k])
    requires k > 0 || (s[0] != '-' && s[0] != '+')
    ensures ParseInt(s) == None
  {
    if s[0] == '-' || s[0] == '+' {
      assert s[1..][k - 1] == s[k];
    }
  }

  // ---------------------------------------------------------------------
  // String.length()
  // ---------------------------------------------------------------------

  /** A character outside the Basic Multilingual Plane: Java stores it as a surrogate pair. */
  predicate IsSupplementary(c: char)
  {
    c as int >= 0x1_0000
  }

  /** Java's `String.length()`: the number of UTF-16 code units in `s`. */
  function Utf16Length(s: string): (r: nat)
    ensures |s| <= r <= 2 * |s|
    ensures r == 0 <==> s == []
  {
    if s == [] then 0
    else Utf16Length(s[..|s| - 1]) + (if IsSupplementary(s[|s| - 1]) then 2 else 1)
  }

  /** Without supplementary characters, Java's length is the number of characters. */
  lemma {:induction false} Utf16LengthBmp(s: string)
    requires forall k :: 0 <= k < |s| ==> !IsSupplementary(s[k])
    ensures Utf16Length(s) == |s|
  {
    if s != [] {
      Utf16LengthBmp(s[..|s| - 1]);
    }
  }

  /** Every supplementary character counts twice. */
  lemma {:induction false} Utf16LengthSupplementary(s: string)
    requires forall k :: 0 <= k < |s| ==> IsSupplementary(s[k])
    ensures Utf16Length(s) == 2 * |s|
  {
    if s != [] {
      Utf16LengthSupplementary(s[..|s| - 1]);
    }
  }
}
