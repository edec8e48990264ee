/**
  The few pieces of JavaScript semantics that the vendor screens lean on:
  truthiness of optional values, the outcome of an awaited call, ASCII
  character classes, `String.prototype.trim`, `replace(/-/g, '')`,
  `toUpperCase` on ASCII text, number-to-string conversion and the
  truncating `%` and `diff` arithmetic.
 */
module Js {

  datatype Option<+T> = None | Some(value: T)

  /** How an awaited call settled: it threw, or it returned a value. */
  datatype Reply<+T> = Threw | Returned(value: T)

  /** A JavaScript string is truthy exactly when it is non-empty. */
  predicate Truthy(s: string) { s != "" }

  /** A nullable string (a URI, a stored item) that is present and truthy. */
  predicate Present(u: Option<string>) { u.Some? && u.value != "" }

  // ---------------------------------------------------------------------
  // Character classes (the ASCII classes `\d`, `[A-Z]`, `[a-z]` of a
  // regular expression without the `u` flag)

  predicate IsDigit(c: char) { '0' <= c <= '9' }
  predicate IsAsciiUpper(c: char) { 'A' <= c <= 'Z' }
  predicate IsAsciiLower(c: char) { 'a' <= c <= 'z' }
  predicate IsAsciiAlnum(c: char) { IsDigit(c) || IsAsciiUpper(c) || IsAsciiLower(c) }

  predicate AllDigits(s: string) { forall i :: 0 <= i < |s| ==> IsDigit(s[i]) }

  /**
    The code points that ECMAScript's WhiteSpace and LineTerminator
    productions name; `trim` removes exactly these from both ends.
   */
  predicate IsJsWhitespace(c: char) {
    || c == '\t' || c == '\n' || c == '\U{B}' || c == '\U{C}' || c == '\r'
    || c == ' ' || c == '\U{A0}' || c == '\U{1680}'
    || ('\U{2000}' <= c <= '\U{200A}')
    || c == '\U{2028}' || c == '\U{2029}' || c == '\U{202F}' || c == '\U{205F}'
    || c == '\U{3000}' || c == '\U{FEFF}'
  }

  // ---------------------------------------------------------------------
  // trim

  function TrimStart(s: string): (r: string)
    ensures |r| <= |s| && r == s[|s| - |r|..]
    ensures forall i :: 0 <= i < |s| - |r| ==> IsJsWhitespace(s[i])
    ensures r == [] || !IsJsWhitespace(r[0])
    decreases |s|
  {
    if s != [] && IsJsWhitespace(s[0]) then TrimStart(s[1..]) else s
  }

  function TrimEnd(s: string): (r: string)
    ensures |r| <= |s| && r == s[..|r|]
    ensures forall i :: |r| <= i < |s| ==> IsJsWhitespace(s[i])
    ensures r == [] || !IsJsWhitespace(r[|r| - 1])
    decreases |s|
  {
    if s != [] && IsJsWhitespace(s[|s| - 1]) then TrimEnd(s[..|s| - 1]) else s
  }

  function Trim(s: string): string { TrimEnd(TrimStart(s)) }

  /** `!s.trim()` holds exactly when every character of `s` is white space. */
  lemma TrimEmptyIffBlank(s: string)
    ensures Trim(s) == "" <==> forall i :: 0 <= i < |s| ==> IsJsWhitespace(s[i])
  {
    var t := TrimStart(s);
    if Trim(s) != "" {
      var r := Trim(s);
      assert !IsJsWhitespace(r[0]);
      assert r[0] == s[|s| - |t|];
    }
  }

  /** White space before text that starts with a non-blank character is removed, and only that. */
  lemma {:induction false} TrimStartPadded(pre: string, m: string)
    requires forall i :: 0 <= i < |pre| ==> IsJsWhitespace(pre[i])
    requires m == [] || !IsJsWhitespace(m[0])
    ensures TrimStart(pre + m) == m
    decreases |pre|
  {
    if pre == [] {
      assert pre + m == m;
    } else {
      assert (pre + m)[1..] == pre[1..] + m;
      TrimStartPadded(pre[1..], m);
    }
  }

  /** White space after text that ends with a non-blank character is removed, and only that. */
  lemma {:induction false} TrimEndPadded(m: string, post: string)
    requires forall i :: 0 <= i < |post| ==> IsJsWhitespace(post[i])
    requires m == [] || !IsJsWhitespace(m[|m| - 1])
    ensures TrimEnd(m + post) == m
    decreases |post|
  {
    if post == [] {
      assert m + post == m;
    } else {
      var s := m + post;
      assert s[..|s| - 1] == m + post[..|post| - 1];
      TrimEndPadded(m, post[..|post| - 1]);
    }
  }

  /** `trim` gives back text with non-blank ends, whatever white space surrounds it. */
  lemma TrimPadded(pre: string, m: string, post: string)
    requires forall i :: 0 <= i < |pre| ==> IsJsWhitespace(pre[i])
    requires forall i :: 0 <= i < |post| ==> IsJsWhitespace(post[i])
    requires m != [] && !IsJsWhitespace(m[0]) && !IsJsWhitespace(m[|m| - 1])
    ensures Trim(pre + m + post) == m
  {
    assert pre + m + post == pre + (m + post);
    TrimStartPadded(pre, m + post);
    TrimEndPadded(m, post);
  }

  // ---------------------------------------------------------------------
  // replace(/c/g, '') and ASCII toUpperCase

  /** `s.replace(/c/g, '')`: every occurrence of `c` removed, the rest kept in order. */
  function Strip(s: string, c: char): (r: string)
    ensures c !in r
    ensures |r| <= |s|
    ensures c !in s ==> r == s
    decreases |s|
  {
    if s == [] then []
    else (if s[0] == c then [] else [s[0]]) + Strip(s[1..], c)
  }

  lemma {:induction false} StripAppend(a: string, b: string, c: char)
    ensures Strip(a + b, c) == Strip(a, c) + Strip(b, c)
    decreases |a|
  {
    if a == [] {
      assert a + b == b;
    } else {
      assert (a + b)[1..] == a[1..] + b;
      StripAppend(a[1..], b, c);
    }
  }

  /** Every character other than `c` survives the removal. */
  lemma {:induction false} StripKeeps(s: string, c: char, k: nat)
    requires k < |s| && s[k] != c
    ensures s[k] in Strip(s, c)
    decreases k
  {
    var rest := Strip(s[1..], c);
    assert Strip(s, c) == (if s[0] == c then [] else [s[0]]) + rest;
    if k > 0 {
      assert s[1..][k - 1] == s[k];
      StripKeeps(s[1..], c, k - 1);
    }
  }

  function UpperChar(c: char): (u: char)
    ensures IsAsciiLower(c) ==> IsAsciiUpper(u)
    ensures !IsAsciiLower(c) ==> u == c
  {
    if IsAsciiLower(c) then (c as int - 32) as char else c
  }

  /** `toUpperCase` restricted to text where it only changes ASCII letters. */
  function AsciiUpper(s: string): (r: string)
    ensures |r| == |s|
    ensures forall i :: 0 <= i < |s| ==> r[i] == UpperChar(s[i])
  {
    seq(|s|, i requires 0 <= i < |s| => UpperChar(s[i]))
  }

  lemma AsciiUpperIdempotent(s: string)
    ensures AsciiUpper(AsciiUpper(s)) == AsciiUpper(s)
  {
  }

  // ---------------------------------------------------------------------
  // Numbers as text: `${n}` for integers, and reading decimal digits back

  function DigitChar(d: int): (c: char)
    requires 0 <= d < 10
    ensures IsDigit(c) && c as int - '0' as int == d
  {
    (d + '0' as int) as char
  }

  function DigitValue(c: char): (d: nat)
    requires IsDigit(c)
    ensures d < 10 && DigitChar(d) == c
  {
    c as int - '0' as int
  }

  /** Decimal digits of `n`, without leading zeros. */
  function NatToString(n: nat): (r: string)
    ensures |r| >= 1 && AllDigits(r)
    ensures r[0] == '0' ==> n == 0 && r == "0"
    decreases n
  {
    if n < 10 then [DigitChar(n)] else NatToString(n / 10) + [DigitChar(n % 10)]
  }

  /** The value of a string of decimal digits (the empty string reads as 0). */
  function ParseDigits(s: string): nat
    requires AllDigits(s)
    decreases |s|
  {
    if s == [] then 0 else ParseDigits(s[..|s| - 1]) * 10 + DigitValue(s[|s| - 1])
  }

  lemma {:induction false} ParseNatToString(n: nat)
    ensures ParseDigits(NatToString(n)) == n
    decreases n
  {
    if n >= 10 {
      var s := NatToString(n);
      assert s[..|s| - 1] == NatToString(n / 10);
      ParseNatToString(n / 10);
    }
  }

  /** `${i}` for an integer `i`. */
  function IntToString(i: int): (r: string)
    ensures i >= 0 ==> r == NatToString(i)
    ensures i < 0 ==> r == "-" + NatToString(-i)
  {
    if i < 0 then "-" + NatToString(-i) else NatToString(i)
  }

  // ---------------------------------------------------------------------
  // Truncating arithmetic: JavaScript's `%`, and moment's `diff`, which
  // truncates its quotient toward zero

  function TruncDiv(a: int, b: int): (q: int)
    requires b > 0
    ensures a >= 0 ==> 0 <= q * b <= a < (q + 1) * b
    ensures a < 0 ==> (q - 1) * b < a <= q * b <= 0
  {
    if a >= 0 then DivBounds(a, b); a / b else DivBounds(-a, b); -((-a) / b)
  }

  lemma DivBounds(a: nat, b: int)
    requires b > 0
    ensures 0 <= (a / b) * b <= a < (a / b + 1) * b
  {
  }

  /** Dafny's `/` by a positive divisor is floor division, as `Math.floor(a / b)` is. */
  lemma FloorDivBounds(a: int, b: int)
    requires b > 0
    ensures (a / b) * b <= a < (a / b + 1) * b
  {
  }

  function JsRem(a: int, b: int): (r: int)
    requires b > 0
    ensures a == TruncDiv(a, b) * b + r
    ensures a >= 0 ==> 0 <= r < b
    ensures a < 0 ==> -b < r <= 0
  {
    if a >= 0 then a % b else -((-a) % b)
  }

  /** A truncated quotient is at most `k` (for `k >= 0`) exactly when the dividend is below `(k + 1) * b`. */
  lemma TruncDivAtMost(a: int, b: int, k: nat)
    requires b > 0
    ensures TruncDiv(a, b) <= k <==> a < (k + 1) * b
  {
    var q := TruncDiv(a, b);
    if a >= 0 {
      if q <= k {
        assert (q + 1) * b <= (k + 1) * b;
      } else {
        assert (k + 1) * b <= q * b;
      }
    } else {
      assert q <= 0;
      assert 0 <= (k + 1) * b;
    }
  }
}
