/**
 * The few Python string operations the bot and the backend rely on, on
 * `string` = `seq<char>` (one `char` per Unicode code point, as in Python):
 * `str.startswith`, `str.split(sep)`, `str(n)` / `int(s)` for integers and
 * `str.strip()`.
 */
module Text {
  import opened Wrappers

  predicate StartsWith(s: string, prefix: string) {
    |prefix| <= |s| && s[..|prefix|] == prefix
  }

  predicate EndsWith(s: string, suffix: string) {
    |suffix| <= |s| && s[|s| - |suffix|..] == suffix
  }

  /** A concatenation starts with its left part, ends with its right part, and splits back into them. */
  lemma ConcatParts(a: string, b: string)
    ensures StartsWith(a + b, a) && EndsWith(a + b, b) && (a + b)[|a|..] == b
  {
    assert (a + b)[..|a|] == a;
    assert (a + b)[|a + b| - |b|..] == b;
  }

  /** A suffix of the right part is a suffix of the concatenation. */
  lemma EndsWithAppend(a: string, b: string, c: string)
    requires EndsWith(b, c)
    ensures EndsWith(a + b, c)
  {
    assert (a + b)[|a + b| - |c|..] == b[|b| - |c|..];
  }

  /** Being a suffix is transitive. */
  lemma EndsWithTrans(s: string, t: string, u: string)
    requires EndsWith(s, t) && EndsWith(t, u)
    ensures EndsWith(s, u)
  {
    assert s[|s| - |u|..] == t[|t| - |u|..];
  }

  /** `a + b + c` opens with `a` and closes with `c`. */
  lemma ThreeParts(a: string, b: string, c: string)
    ensures StartsWith(a + b + c, a) && EndsWith(a + b + c, c)
  {
    ConcatParts(a + b, c);
    assert (a + b + c)[..|a|] == (a + b)[..|a|];
    ConcatParts(a, b);
  }

  /**
   * A text built as `a + (b + (c + d))` opens with `a`, then `b`, then (when
   * `b` is empty) `c`, and after `a` is just `d` when `b` and `c` are empty.
   */
  lemma FourPartsOpening(a: string, b: string, c: string, d: string)
    ensures StartsWith(a + (b + (c + d)), a)
    ensures StartsWith((a + (b + (c + d)))[|a|..], b)
    ensures b == "" ==> StartsWith((a + (b + (c + d)))[|a|..], c)
    ensures b == "" && c == "" ==> (a + (b + (c + d)))[|a|..] == d
  {
    ConcatParts(a, b + (c + d));
    ConcatParts(b, c + d);
    ConcatParts(c, d);
    if b == "" {
      assert b + (c + d) == c + d;
    }
  }

  /** The same text closes with the last non-empty one of `d`, `c`, `b`, and is `a` when all three are empty. */
  lemma FourPartsClosing(a: string, b: string, c: string, d: string)
    ensures EndsWith(a + (b + (c + d)), d)
    ensures d == "" ==> EndsWith(a + (b + (c + d)), c)
    ensures d == "" && c == "" ==> EndsWith(a + (b + (c + d)), b)
    ensures b == "" && c == "" && d == "" ==> a + (b + (c + d)) == a
  {
    ConcatParts(c, d);
    EndsWithAppend(b, c + d, d);
    EndsWithAppend(a, b + (c + d), d);
    if d == "" {
      assert c + d == c;
      EndsWithAppend(b, c + d, c);
      EndsWithAppend(a, b + (c + d), c);
      if c == "" {
        assert b + (c + d) == b;
        EndsWithAppend(a, b + (c + d), b);
        if b == "" {
          assert a + (b + (c + d)) == a;
        }
      }
    }
  }

  /** The part of `s` before its first `sep` (all of `s` when it has none). */
  function TakeUntil(s: string, sep: char): (r: string)
    ensures |r| <= |s| && r == s[..|r|]
    ensures sep !in r
    ensures |r| < |s| ==> s[|r|] == sep
  {
    if |s| == 0 || s[0] == sep then "" else [s[0]] + TakeUntil(s[1..], sep)
  }

  /** Python's `sep.join(parts)` for a one-character separator. */
  function Join(parts: seq<string>, sep: char): string
    requires |parts| >= 1
  {
    if |parts| == 1 then parts[0] else parts[0] + [sep] + Join(parts[1..], sep)
  }

  /**
   * Python's `s.split(sep)` for a one-character separator: the pieces between
   * separators, always at least one, none containing `sep`, and joining them
   * back gives `s`.
   */
  function Split(s: string, sep: char): (parts: seq<string>)
    ensures |parts| >= 1
    ensures parts[0] == TakeUntil(s, sep)
    ensures sep in s ==> |parts| >= 2 && parts[1] == TakeUntil(s[|parts[0]| + 1..], sep)
    decreases |s|
  {
    var head := TakeUntil(s, sep);
    if |head| == |s| then [s] else [head] + Split(s[|head| + 1..], sep)
  }

  /** No piece of `s.split(sep)` contains `sep`, and joining the pieces gives back `s`. */
  lemma {:induction false} SplitJoin(s: string, sep: char)
    ensures forall i :: 0 <= i < |Split(s, sep)| ==> sep !in Split(s, sep)[i]
    ensures Join(Split(s, sep), sep) == s
    decreases |s|
  {
    var head := TakeUntil(s, sep);
    if |head| < |s| {
      var tail := s[|head| + 1..];
      var parts, rest := Split(s, sep), Split(tail, sep);
      SplitJoin(tail, sep);
      assert parts == [head] + rest;
      assert parts[1..] == rest;
      forall i | 1 <= i < |parts|
        ensures sep !in parts[i]
      {
        assert parts[i] == rest[i - 1];
      }
      assert Join(parts, sep) == head + [sep] + Join(rest, sep);
      assert s == head + [sep] + tail;
    }
  }

  /**
   * When `s` starts with a prefix whose only `sep` is its last character, the
   * second piece of `s.split(sep)` is what follows the prefix up to the next
   * `sep`.
   */
  lemma {:induction false} SplitAfterPrefix(s: string, prefix: string, sep: char)
    requires StartsWith(s, prefix)
    requires |prefix| >= 1 && prefix[|prefix| - 1] == sep
    requires sep !in prefix[..|prefix| - 1]
    ensures |Split(s, sep)| >= 2
    ensures Split(s, sep)[1] == TakeUntil(s[|prefix|..], sep)
  {
    var n := |prefix| - 1;
    TakeUntilStopsAt(s, sep, n);
    assert s[n] == sep;
    assert sep in s;
  }

  lemma {:induction false} TakeUntilStopsAt(s: string, sep: char, n: nat)
    requires n < |s| && s[n] == sep
    requires sep !in s[..n]
    ensures TakeUntil(s, sep) == s[..n]
    decreases n
  {
    if n > 0 {
      assert s[0] == s[..n][0];
      assert sep !in s[1..][..n - 1] by { assert s[1..][..n - 1] == s[..n][1..]; }
      TakeUntilStopsAt(s[1..], sep, n - 1);
      assert s[..n] == [s[0]] + s[1..][..n - 1];
    }
  }

  /** A piece that contains no separator is the whole of its own first field. */
  lemma TakeUntilWhole(s: string, sep: char)
    requires sep !in s
    ensures TakeUntil(s, sep) == s
  {
  }

  // ---------------------------------------------------------------- integers

  predicate IsDigit(c: char) {
    '0' <= c <= '9'
  }

  function DigitValue(c: char): (d: nat)
    requires IsDigit(c)
    ensures d < 10
  {
    (c as int) - ('0' as int)
  }

  function DigitChar(d: nat): (c: char)
    requires d < 10
    ensures IsDigit(c) && DigitValue(c) == d
  {
    (('0' as int) + d) as char
  }

  predicate AllDigits(s: string) {
    forall i :: 0 <= i < |s| ==> IsDigit(s[i])
  }

  /** The value of a run of decimal digits, most significant first. */
  function DigitsValue(s: string): nat
    requires AllDigits(s)
    decreases |s|
  {
    if |s| == 0 then 0 else 10 * DigitsValue(s[..|s| - 1]) + DigitValue(s[|s| - 1])
  }

  /** Python's `str(n)` for `n >= 0`: decimal digits without leading zeros. */
  function NatToString(n: nat): (r: string)
    ensures |r| >= 1 && AllDigits(r)
    ensures |r| > 1 ==> r[0] != '0'
    decreases n
  {
    if n < 10 then [DigitChar(n)] else NatToString(n / 10) + [DigitChar(n % 10)]
  }

  /** Python's `str(n)`: an optional minus sign followed by the digits of `|n|`. */
  function IntToString(n: int): (r: string)
    ensures |r| >= 1
    ensures forall i :: 0 <= i < |r| ==> IsDigit(r[i]) || (i == 0 && r[i] == '-')
    ensures r[0] == '-' <==> n < 0
  {
    if n < 0 then "-" + NatToString(-n) else NatToString(n)
  }

  /** The strings `ParseInt` accepts: an optional sign followed by at least one digit. */
  predicate IsIntLiteral(s: string) {
    || (|s| >= 2 && (s[0] == '-' || s[0] == '+') && AllDigits(s[1..]))
    || (|s| >= 1 && AllDigits(s))
  }

  /**
   * Python's `int(s)` on the literals the bot itself writes: `None` stands for
   * the `ValueError` that `int` raises on anything else.
   */
  function ParseInt(s: string): (r: Option<int>)
    ensures r.Some? <==> IsIntLiteral(s)
    ensures r.Some? && |s| >= 1 && s[0] == '-' ==> r.value <= 0
    ensures r.Some? && |s| >= 1 && s[0] != '-' ==> r.value >= 0
  {
    if |s| >= 2 && s[0] == '-' && AllDigits(s[1..]) then Some(0 - DigitsValue(s[1..]) as int)
    else if |s| >= 2 && s[0] == '+' && AllDigits(s[1..]) then Some(DigitsValue(s[1..]))
    else if |s| >= 1 && AllDigits(s) then Some(DigitsValue(s))
    else None
  }

  lemma {:induction false} NatToStringRoundTrip(n: nat)
    ensures DigitsValue(NatToString(n)) == n
    decreases n
  {
    var r := NatToString(n);
    if n >= 10 {
      assert r[..|r| - 1] == NatToString(n / 10);
      NatToStringRoundTrip(n / 10);
    }
  }

  /** `int(str(n)) == n` for every integer `n`. */
  lemma {:induction false} ParseIntRoundTrip(n: int)
    ensures ParseInt(IntToString(n)) == Some(n)
  {
    if n < 0 {
      var digits := NatToString(-n);
      assert IntToString(n)[1..] == digits;
      NatToStringRoundTrip(-n);
    } else {
      NatToStringRoundTrip(n);
    }
  }

  /** Distinct integers print differently. */
  lemma IntToStringInjective(m: int, n: int)
    requires IntToString(m) == IntToString(n)
    ensures m == n
  {
    ParseIntRoundTrip(m);
    ParseIntRoundTrip(n);
  }

  // --------------------------------------------------------------- whitespace

  /**
   * The characters Python's `str.isspace()` accepts (and `str.strip()` removes):
   * Unicode general category Zs or bidirectional class WS, B or S.
   */
  const PySpaces: set<char> := {
    '\t', '\n', '\U{000B}', '\U{000C}', '\r', '\U{001C}', '\U{001D}', '\U{001E}', '\U{001F}',
    ' ', '\U{0085}', '\U{00A0}', '\U{1680}',
    '\U{2000}', '\U{2001}', '\U{2002}', '\U{2003}', '\U{2004}', '\U{2005}', '\U{2006}',
    '\U{2007}', '\U{2008}', '\U{2009}', '\U{200A}',
    '\U{2028}', '\U{2029}', '\U{202F}', '\U{205F}', '\U{3000}'
  }

  /** Drops the leading whitespace of `s`, and no more. */
  function TrimLeft(s: string): (r: string)
    ensures |r| <= |s| && r == s[|s| - |r|..]
    ensures forall i :: 0 <= i < |s| - |r| ==> s[i] in PySpaces
    ensures |r| > 0 ==> r[0] !in PySpaces
    decreases |s|
  {
    if |s| > 0 && s[0] in PySpaces then TrimLeft(s[1..]) else s
  }

  /** Drops the trailing whitespace of `s`, and no more. */
  function TrimRight(s: string): (r: string)
    ensures |r| <= |s| && r == s[..|r|]
    ensures forall i :: |r| <= i < |s| ==> s[i] in PySpaces
    ensures |r| > 0 ==> r[|r| - 1] !in PySpaces
    decreases |s|
  {
    if |s| > 0 && s[|s| - 1] in PySpaces then TrimRight(s[..|s| - 1]) else s
  }

  /** Python's `s.strip()`. */
  function Strip(s: string): (r: string)
    ensures |r| <= |s|
    ensures |r| > 0 ==> r[0] !in PySpaces && r[|r| - 1] !in PySpaces
  {
    TrimRight(TrimLeft(s))
  }

  /**
   * Stripping twice is stripping once, the result is a slice of the input, and
   * it is empty exactly when the input is all whitespace.
   */
  lemma StripProperties(s: string)
    ensures Strip(Strip(s)) == Strip(s)
    ensures exists i, j :: 0 <= i <= j <= |s| && Strip(s) == s[i..j]
    ensures Strip(s) == "" <==> forall i :: 0 <= i < |s| ==> s[i] in PySpaces
  {
    StripIdempotent(s);
    StripIsSlice(s);
    StripEmptyIff(s);
  }

  lemma StripIdempotent(s: string)
    ensures Strip(Strip(s)) == Strip(s)
  {
    var r := Strip(s);
    assert TrimLeft(r) == r;
    assert TrimRight(r) == r;
  }

  lemma StripIsSlice(s: string)
    ensures exists i, j :: 0 <= i <= j <= |s| && Strip(s) == s[i..j]
  {
    var l := TrimLeft(s);
    var r := TrimRight(l);
    assert r == s[|s| - |l|..][..|r|];
    assert r == s[|s| - |l|..|s| - |l| + |r|];
  }

  lemma StripEmptyIff(s: string)
    ensures Strip(s) == "" <==> forall i :: 0 <= i < |s| ==> s[i] in PySpaces
  {
    var l := TrimLeft(s);
    if Strip(s) == "" {
      if l != "" {
        assert false;
      }
    }
  }
}
