/**
 * The string primitives of PHP that the middleware relies on: `trim`,
 * `rtrim($s, '/')`, the truthiness of a string (`!$s`, `empty($s)`), and the
 * decimal rendering and reading of integers (`(string) $n`, `\d+`).
 */
module Text {
  import opened Wrappers

  /** The characters PHP's `trim()` strips by default: space, tab, LF, CR, NUL and vertical tab. */
  predicate IsPhpSpace(c: char) {
    c == ' ' || c == '\t' || c == '\n' || c == '\r' || c == '\0' || c == '\U{B}'
  }

  predicate AllPhpSpace(s: string) {
    forall i :: 0 <= i < |s| ==> IsPhpSpace(s[i])
  }

  /** `ltrim($s)`: drops the leading whitespace and nothing else. */
  function TrimLeft(s: string): (r: string)
    ensures |r| <= |s| && r == s[|s| - |r|..]
    ensures AllPhpSpace(s[..|s| - |r|])
    ensures r == [] || !IsPhpSpace(r[0])
  {
    if |s| > 0 && IsPhpSpace(s[0]) then
      var r := TrimLeft(s[1..]);
      assert s[1..][|s| - 1 - |r|..] == s[|s| - |r|..];
      assert forall i :: 1 <= i < |s| - |r| ==> s[i] == s[1..][..|s| - 1 - |r|][i - 1];
      r
    else s
  }

  /** `rtrim($s)`: drops the trailing whitespace and nothing else. */
  function TrimRight(s: string): (r: string)
    ensures |r| <= |s| && r == s[..|r|]
    ensures AllPhpSpace(s[|r|..])
    ensures r == [] || !IsPhpSpace(r[|r| - 1])
  {
    if |s| > 0 && IsPhpSpace(s[|s| - 1]) then
      var r := TrimRight(s[..|s| - 1]);
      assert s[..|s| - 1][..|r|] == s[..|r|];
      assert forall i :: |r| <= i < |s| - 1 ==> s[i] == s[..|s| - 1][|r|..][i - |r|];
      r
    else s
  }

  /** `trim($s)`: the result neither starts nor ends with whitespace, and is empty exactly for blank input. */
  function Trim(s: string): (r: string)
    ensures |r| <= |s|
    ensures r == [] || (!IsPhpSpace(r[0]) && !IsPhpSpace(r[|r| - 1]))
    ensures r == [] <==> AllPhpSpace(s)
  {
    TrimEnds(s);
    TrimRight(TrimLeft(s))
  }

  lemma TrimEnds(s: string)
    ensures var r := TrimRight(TrimLeft(s));
      && |r| <= |s|
      && (r == [] || (!IsPhpSpace(r[0]) && !IsPhpSpace(r[|r| - 1])))
      && (r == [] <==> AllPhpSpace(s))
  {
    var l := TrimLeft(s);
    var r := TrimRight(l);
    var cut := |s| - |l|;
    if r != [] {
      assert r[0] == l[0];
    } else {
      assert l[|r|..] == l == s[cut..];
      BlankHalves(s, cut);
    }
    if l != [] {
      assert l[0] == s[cut];
    }
  }

  lemma BlankHalves(s: string, cut: nat)
    requires cut <= |s| && AllPhpSpace(s[..cut]) && AllPhpSpace(s[cut..])
    ensures AllPhpSpace(s)
  {
    forall i | 0 <= i < |s|
      ensures IsPhpSpace(s[i])
    {
      if i < cut {
        assert s[i] == s[..cut][i];
      } else {
        assert s[i] == s[cut..][i - cut];
      }
    }
  }

  /** Whitespace around a string whose ends are not whitespace is exactly what `trim()` removes. */
  lemma {:induction false} TrimPadded(pre: string, s: string, post: string)
    requires AllPhpSpace(pre) && AllPhpSpace(post)
    requires s == [] || (!IsPhpSpace(s[0]) && !IsPhpSpace(s[|s| - 1]))
    requires s != [] || post == []
    ensures Trim(pre + s + post) == s
  {
    TrimLeftPadded(pre, s + post);
    assert TrimLeft(pre + s + post) == s + post by {
      assert pre + s + post == pre + (s + post);
    }
    TrimRightPadded(s, post);
  }

  lemma {:induction false} TrimLeftPadded(pre: string, s: string)
    requires AllPhpSpace(pre)
    requires s == [] || !IsPhpSpace(s[0])
    ensures TrimLeft(pre + s) == s
  {
    if pre != [] {
      assert (pre + s)[1..] == pre[1..] + s;
      TrimLeftPadded(pre[1..], s);
    }
  }

  lemma {:induction false} TrimRightPadded(s: string, post: string)
    requires AllPhpSpace(post)
    requires s == [] ==> post == []
    requires s == [] || !IsPhpSpace(s[|s| - 1])
    ensures TrimRight(s + post) == s
  {
    if post != [] {
      assert (s + post)[..|s + post| - 1] == s + post[..|post| - 1];
      TrimRightPadded(s, post[..|post| - 1]);
    } else {
      assert s + post == s;
    }
  }

  /**
   * `rtrim($s, $c)`: strips every trailing `c`. The result is a prefix of `s`,
   * what was removed consists of `c` only, and the result does not end in `c`.
   */
  function RTrimChar(s: string, c: char): (r: string)
    ensures r <= s
    ensures forall i :: |r| <= i < |s| ==> s[i] == c
    ensures r == [] || r[|r| - 1] != c
  {
    if |s| > 0 && s[|s| - 1] == c then RTrimChar(s[..|s| - 1], c) else s
  }

  /**
   * PHP truthiness of an optional string, as tested by `!$s` and `empty($s)`:
   * null or false, the empty string and the string "0" are all falsy.
   */
  predicate PhpEmpty(s: Option<string>) {
    s.None? || s.value == "" || s.value == "0"
  }

  predicate IsDigit(c: char) {
    '0' <= c <= '9'
  }

  predicate AllDigits(s: string) {
    forall i :: 0 <= i < |s| ==> IsDigit(s[i])
  }

  function DigitValue(c: char): nat
    requires IsDigit(c)
  {
    c as int - '0' as int
  }

  function DigitChar(d: nat): (c: char)
    requires d < 10
    ensures IsDigit(c) && DigitValue(c) == d
  {
    ('0' as int + d) as char
  }

  /** The value of a string of decimal digits, read most significant digit first. */
  function DigitsValue(s: string): nat
    requires AllDigits(s)
  {
    if s == [] then 0 else DigitsValue(s[..|s| - 1]) * 10 + DigitValue(s[|s| - 1])
  }

  /** `(string) $n` for a non-negative integer: digits that read back as `n`, without leading zeros. */
  function NatToString(n: nat): (r: string)
    ensures |r| > 0 && AllDigits(r)
    ensures DigitsValue(r) == n
    ensures r[0] == '0' ==> r == "0"
  {
    if n < 10 then [DigitChar(n)]
    else
      var prefix := NatToString(n / 10);
      var r := prefix + [DigitChar(n % 10)];
      assert r[..|r| - 1] == prefix;
      r
  }

  /** `(string) $n` for any integer. */
  function IntToString(n: int): (r: string)
    ensures ParseInt(r) == Some(n)
  {
    if n < 0 then
      var digits := NatToString(-n);
      assert ("-" + digits)[1..] == digits;
      "-" + digits
    else NatToString(n)
  }

  /** Reads an optionally signed decimal integer; anything else is `None`. */
  function ParseInt(s: string): Option<int> {
    if |s| > 1 && s[0] == '-' && AllDigits(s[1..]) then
      var v: int := DigitsValue(s[1..]);
      Some(-v)
    else if |s| > 0 && AllDigits(s) then Some(DigitsValue(s))
    else None
  }
}
