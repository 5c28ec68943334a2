/**
 * The pieces of Python's `str` that the invoice code relies on: `isspace`,
 * `strip`, ASCII `upper`/`lower`, `split(',')` and the decimal digits of `str(int)`.
 */
module Text {

  /** The characters for which Python's `str.isspace()` holds; `str.strip()` removes exactly these. */
  predicate IsSpace(c: char)
  {
    ('\t' <= c <= '\r') || ('\U{1C}' <= c <= ' ') || c == '\U{85}' || c == '\U{A0}'
    || c == '\U{1680}' || ('\U{2000}' <= c <= '\U{200A}') || c == '\U{2028}' || c == '\U{2029}'
    || c == '\U{202F}' || c == '\U{205F}' || c == '\U{3000}'
  }

  /** `not s.strip()`: the text is empty or whitespace only. */
  predicate IsBlank(s: string)
  {
    forall i :: 0 <= i < |s| ==> IsSpace(s[i])
  }

  /** The first position at or after `i` that does not hold whitespace, or `|s|` if there is none. */
  function SkipForward(s: string, i: nat): (k: nat)
    requires i <= |s|
    ensures i <= k <= |s|
    ensures forall j :: i <= j < k ==> IsSpace(s[j])
    ensures k < |s| ==> !IsSpace(s[k])
    decreases |s| - i
  {
    if i == |s| || !IsSpace(s[i]) then i else SkipForward(s, i + 1)
  }

  /**
   * Scanning back from `e` towards `a`: the position just after the last
   * non-whitespace character before `e`, or `a` if there is none.
   */
  function SkipBackward(s: string, a: nat, e: nat): (b: nat)
    requires a <= e <= |s|
    ensures a <= b <= e
    ensures forall j :: b <= j < e ==> IsSpace(s[j])
    ensures a < b ==> !IsSpace(s[b - 1])
  {
    if e == a || !IsSpace(s[e - 1]) then e else SkipBackward(s, a, e - 1)
  }

  /**
   * Python's `s.strip()`: what is left of `s` once the leading whitespace and then
   * the trailing whitespace are removed. It is empty exactly when `s` is blank,
   * and otherwise starts and ends with a non-space.
   */
  function Strip(s: string): (r: string)
    ensures IsBlank(s) <==> r == []
    ensures r != [] ==> !IsSpace(r[0]) && !IsSpace(r[|r| - 1])
  {
    var a := SkipForward(s, 0);
    var b := SkipBackward(s, a, |s|);
    StripBounds(s, a, b);
    s[a..b]
  }

  /** Strip keeps the positions from `a` up to `b` of `s`; those before and after are whitespace. */
  lemma StripBounds(s: string, a: nat, b: nat)
    requires a == SkipForward(s, 0) && b == SkipBackward(s, a, |s|)
    ensures a <= b <= |s|
    ensures a < b ==> !IsSpace(s[a]) && !IsSpace(s[b - 1])
    ensures IsBlank(s) <==> a == b
  {
    if a < |s| {
      assert !IsBlank(s) && a < b;
    }
  }

  /** What Strip removes is whitespace only: `s` is blanks, then Strip(s), then blanks. */
  lemma StripParts(s: string)
    ensures SkipForward(s, 0) + |Strip(s)| <= |s|
    ensures Strip(s) == s[SkipForward(s, 0)..SkipForward(s, 0) + |Strip(s)|]
    ensures forall i :: 0 <= i < SkipForward(s, 0) ==> IsSpace(s[i])
    ensures forall i :: SkipForward(s, 0) + |Strip(s)| <= i < |s| ==> IsSpace(s[i])
  {
    var a := SkipForward(s, 0);
    StripBounds(s, a, SkipBackward(s, a, |s|));
  }

  lemma StripIdempotent(s: string)
    ensures Strip(Strip(s)) == Strip(s)
  {
    var r := Strip(s);
    if r != [] {
      assert SkipForward(r, 0) == 0;
      assert SkipBackward(r, 0, |r|) == |r|;
      assert r[0..|r|] == r;
    } else {
      assert IsBlank(r);
    }
  }

  /** Whitespace put before a text that starts with a non-space is exactly what Strip skips first. */
  lemma SkipForwardOf(before: string, x: string)
    requires IsBlank(before) && x != [] && !IsSpace(x[0])
    ensures SkipForward(before + x, 0) == |before|
  {
    var s := before + x;
    assert s[|before|] == x[0];
  }

  /** Whitespace put after a text that ends with a non-space is exactly what Strip skips at the end. */
  lemma SkipBackwardOf(x: string, after: string, a: nat)
    requires IsBlank(after) && a < |x| && !IsSpace(x[|x| - 1])
    ensures SkipBackward(x + after, a, |x + after|) == |x|
  {
    var s := x + after;
    assert s[|x| - 1] == x[|x| - 1];
  }

  /** Stripping removes exactly the whitespace put around a text that neither starts nor ends with a space. */
  lemma StripSurrounded(before: string, x: string, after: string)
    requires IsBlank(before) && IsBlank(after)
    requires x != [] && !IsSpace(x[0]) && !IsSpace(x[|x| - 1])
    ensures Strip(before + x + after) == x
  {
    var s := before + x + after;
    assert s == before + (x + after);
    SkipForwardOf(before, x + after);
    assert s == (before + x) + after;
    SkipBackwardOf(before + x, after, |before|);
    assert s[|before|..|before| + |x|] == x;
  }

  /** Python's `str.upper()` on ASCII letters; every other character is left as it is. */
  function UpperChar(c: char): char
  {
    if 'a' <= c <= 'z' then (c as int - 32) as char else c
  }

  /** Python's `str.lower()` on ASCII letters; every other character is left as it is. */
  function LowerChar(c: char): char
  {
    if 'A' <= c <= 'Z' then (c as int + 32) as char else c
  }

  function Upper(s: string): (r: string)
    ensures |r| == |s|
    ensures forall i :: 0 <= i < |s| ==> r[i] == UpperChar(s[i])
  {
    if s == [] then [] else [UpperChar(s[0])] + Upper(s[1..])
  }

  function Lower(s: string): (r: string)
    ensures |r| == |s|
    ensures forall i :: 0 <= i < |s| ==> r[i] == LowerChar(s[i])
  {
    if s == [] then [] else [LowerChar(s[0])] + Lower(s[1..])
  }

  /** Upper-casing twice changes nothing more, and no lower-case ASCII letter is left. */
  lemma UpperIdempotent(s: string)
    ensures Upper(Upper(s)) == Upper(s)
    ensures forall i :: 0 <= i < |s| ==> !('a' <= Upper(s)[i] <= 'z')
  {
    var u := Upper(s);
    forall i | 0 <= i < |s| ensures Upper(u)[i] == u[i] && !('a' <= u[i] <= 'z') {
      UpperCharIdempotent(s[i]);
    }
  }

  lemma UpperCharIdempotent(c: char)
    ensures UpperChar(UpperChar(c)) == UpperChar(c) && !('a' <= UpperChar(c) <= 'z')
  {
  }

  /** The number of occurrences of `c` in `s`. */
  function Count(s: string, c: char): nat
  {
    if s == [] then 0 else (if s[0] == c then 1 else 0) + Count(s[1..], c)
  }

  lemma {:induction false} CountConcat(a: string, b: string, c: char)
    ensures Count(a + b, c) == Count(a, c) + Count(b, c)
  {
    if a == [] {
      assert a + b == b;
    } else {
      assert (a + b)[1..] == a[1..] + b;
      CountConcat(a[1..], b, c);
    }
  }

  lemma {:induction false} CountAbsent(s: string, c: char)
    requires c !in s
    ensures Count(s, c) == 0
  {
    if s != [] {
      assert s[0] != c;
      assert c !in s[1..];
      CountAbsent(s[1..], c);
    }
  }

  /** The position of the first `c` in `s`. */
  function IndexOf(s: string, c: char): (k: nat)
    requires c in s
    ensures k < |s| && s[k] == c && c !in s[..k]
  {
    if s[0] == c then 0
    else
      assert c in s[1..];
      var k' := IndexOf(s[1..], c);
      assert s[..k' + 1] == [s[0]] + s[1..][..k'];
      k' + 1
  }

  /** `sep.join(parts)` for a one-character separator. */
  function Join(parts: seq<string>, sep: char): string
    requires |parts| >= 1
  {
    if |parts| == 1 then parts[0] else parts[0] + [sep] + Join(parts[1..], sep)
  }

  /**
   * Python's `s.split(sep)` for a one-character separator: there is one more
   * piece than there are separators, no piece holds the separator (empty pieces
   * are kept), and joining the pieces with the separator gives `s` back.
   */
  function Split(s: string, sep: char): (parts: seq<string>)
    ensures |parts| == Count(s, sep) + 1
    ensures forall i :: 0 <= i < |parts| ==> sep !in parts[i]
    ensures Join(parts, sep) == s
    decreases |s|
  {
    if sep !in s then
      CountAbsent(s, sep);
      [s]
    else
      var k := IndexOf(s, sep);
      var rest := Split(s[k + 1..], sep);
      assert s == s[..k] + [sep] + s[k + 1..];
      CountAbsent(s[..k], sep);
      CountConcat(s[..k] + [sep], s[k + 1..], sep);
      CountConcat(s[..k], [sep], sep);
      assert Count([sep], sep) == 1 by { assert [sep][1..] == []; }
      var parts := [s[..k]] + rest;
      assert parts[1..] == rest;
      parts
  }

  predicate IsDigit(c: char)
  {
    '0' <= c <= '9'
  }

  predicate AllDigits(s: string)
  {
    forall i :: 0 <= i < |s| ==> IsDigit(s[i])
  }

  function DigitChar(d: nat): (c: char)
    requires d < 10
    ensures IsDigit(c) && c as int - '0' as int == d
  {
    ('0' as int + d) as char
  }

  function DigitValue(c: char): (d: nat)
    requires IsDigit(c)
    ensures d < 10 && DigitChar(d) == c
  {
    c as int - '0' as int
  }

  /** The number a string of decimal digits stands for (Python's `int(s)` on ASCII digits). */
  function DigitsValue(s: string): nat
    requires AllDigits(s)
  {
    if s == [] then 0 else DigitsValue(s[..|s| - 1]) * 10 + DigitValue(s[|s| - 1])
  }

  lemma DigitsValueAppend(s: string, c: char)
    requires AllDigits(s) && IsDigit(c)
    ensures AllDigits(s + [c]) && DigitsValue(s + [c]) == DigitsValue(s) * 10 + DigitValue(c)
  {
    assert (s + [c])[..|s|] == s;
  }

  /** `n` digits stand for a number below `10^n`. */
  function Pow10(n: nat): (p: nat)
    ensures p >= 1
  {
    if n == 0 then 1 else 10 * Pow10(n - 1)
  }

  lemma {:induction false} DigitsValueBound(s: string)
    requires AllDigits(s)
    ensures DigitsValue(s) < Pow10(|s|)
  {
    if s != [] {
      DigitsValueBound(s[..|s| - 1]);
    }
  }

  /**
   * Python's `str(n)` for a natural number: at least one digit, no leading zero,
   * and reading the digits back gives `n`.
   */
  function DecimalString(n: nat): (s: string)
    ensures |s| >= 1 && AllDigits(s)
    ensures |s| > 1 ==> s[0] != '0'
    ensures DigitsValue(s) == n
  {
    if n < 10 then [DigitChar(n)]
    else
      var p := DecimalString(n / 10);
      var s := p + [DigitChar(n % 10)];
      assert s[..|s| - 1] == p;
      s
  }

  /** Python's `str(n)` for any integer: a minus sign in front of the digits of a negative number. */
  function IntString(n: int): string
  {
    if n < 0 then "-" + DecimalString(-n) else DecimalString(n)
  }

  /** `str` on integers loses nothing: two integers with the same text are equal. */
  lemma IntStringInjective(a: int, b: int)
    requires IntString(a) == IntString(b)
    ensures a == b
  {
    if a < 0 && b < 0 {
      assert DecimalString(-a) == IntString(a)[1..] == DecimalString(-b);
    }
  }

  /** `s.replace(",", "")`. */
  function RemoveCommas(s: string): (r: string)
    ensures ',' !in r
  {
    if s == [] then []
    else (if s[0] == ',' then [] else [s[0]]) + RemoveCommas(s[1..])
  }

  lemma {:induction false} RemoveCommasConcat(a: string, b: string)
    ensures RemoveCommas(a + b) == RemoveCommas(a) + RemoveCommas(b)
  {
    if a == [] {
      assert a + b == b;
    } else {
      var head := if a[0] == ',' then [] else [a[0]];
      assert (a + b)[0] == a[0] && (a + b)[1..] == a[1..] + b;
      assert RemoveCommas(a + b) == head + RemoveCommas(a[1..] + b);
      RemoveCommasConcat(a[1..], b);
      assert head + (RemoveCommas(a[1..]) + RemoveCommas(b)) == (head + RemoveCommas(a[1..])) + RemoveCommas(b);
    }
  }

  lemma {:induction false} RemoveCommasNone(s: string)
    requires ',' !in s
    ensures RemoveCommas(s) == s
  {
    if s != [] {
      assert ',' !in s[1..];
      RemoveCommasNone(s[1..]);
    }
  }
}
