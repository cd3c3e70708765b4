/**
 * String helpers with the meaning PHP gives them. Strings are `seq<char>`;
 * case mapping is ASCII-only, as PHP 8's `strtolower` is.
 */
module Text {
  import opened Wrappers

  predicate IsDigit(c: char) { '0' <= c <= '9' }

  predicate AllDigits(s: string) { forall i :: 0 <= i < |s| ==> IsDigit(s[i]) }

  /** `substr($s, -n)`: the last `n` characters, or the whole of `s` when it is shorter. */
  function Suffix(s: string, n: nat): (r: string)
    ensures |r| == if |s| < n then |s| else n
    ensures s == s[..|s| - |r|] + r
  {
    if |s| <= n then s else s[|s| - n..]
  }

  /** `substr($s, k)` for `k >= 0` under PHP 8: empty once `k` is past the end. */
  function Drop(s: string, k: nat): (r: string)
    ensures k <= |s| ==> s == s[..k] + r
    ensures k > |s| ==> r == ""
  {
    if k <= |s| then s[k..] else ""
  }

  /** `strpos($s, $c)` for a one-character needle; `None` stands for PHP's `false`. */
  function IndexOf(s: string, c: char): (r: Option<nat>)
    ensures r.Some? ==> r.value < |s| && s[r.value] == c && c !in s[..r.value]
    ensures r.None? ==> c !in s
  {
    if s == [] then None
    else if s[0] == c then Some(0)
    else
      match IndexOf(s[1..], c)
      case None => None
      case Some(i) =>
        assert s[1..][..i] == s[1..i + 1];
        Some(i + 1)
  }

  /** `str_replace($c, '', $s)` for a one-character needle. */
  function Remove(s: string, c: char): (r: string)
    ensures c !in r
    ensures forall x :: x != c ==> multiset(r)[x] == multiset(s)[x]
  {
    if s == [] then []
    else
      assert s == [s[0]] + s[1..];
      if s[0] == c then Remove(s[1..], c) else [s[0]] + Remove(s[1..], c)
  }

  function LowerChar(c: char): char {
    if 'A' <= c <= 'Z' then (c as int + 32) as char else c
  }

  predicate IsUpper(c: char) { 'A' <= c <= 'Z' }

  /** `strtolower($s)`: ASCII letters mapped to lower case, everything else kept. */
  function Lower(s: string): (r: string)
    ensures |r| == |s|
    ensures forall i :: 0 <= i < |s| ==> r[i] == LowerChar(s[i]) && !IsUpper(r[i])
  {
    seq(|s|, i requires 0 <= i < |s| => LowerChar(s[i]))
  }

  /** `str_contains($hay, $needle)`, and SQL `LIKE '%needle%'` without wildcards in `needle`. */
  predicate Contains(hay: string, needle: string) {
    exists i :: 0 <= i <= |hay| && needle <= hay[i..]
  }

  /** The characters PHP's `trim` strips by default. */
  predicate IsTrimChar(c: char) {
    c == ' ' || c == '\t' || c == '\n' || c == '\r' || c == '\0' || c == '\U{000B}'
  }

  /** The first position at or after `i` that `trim` keeps (`|s|` when there is none). */
  function FirstKept(s: string, i: nat): (n: nat)
    requires i <= |s|
    ensures i <= n <= |s|
    ensures forall j :: i <= j < n ==> IsTrimChar(s[j])
    ensures n == |s| || !IsTrimChar(s[n])
    decreases |s| - i
  {
    if i < |s| && IsTrimChar(s[i]) then FirstKept(s, i + 1) else i
  }

  /** The end of the kept part of `s[a..j]`: the position after its last character `trim` keeps. */
  function LastKept(s: string, a: nat, j: nat): (n: nat)
    requires a <= j <= |s|
    ensures a <= n <= j
    ensures forall m :: n <= m < j ==> IsTrimChar(s[m])
    ensures n == a || !IsTrimChar(s[n - 1])
  {
    if a < j && IsTrimChar(s[j - 1]) then LastKept(s, a, j - 1) else j
  }

  /** How many characters `trim` strips from the front of `s`. */
  function LeadingTrim(s: string): (n: nat)
    ensures n <= |s|
    ensures forall i :: 0 <= i < n ==> IsTrimChar(s[i])
    ensures n == |s| || !IsTrimChar(s[n])
  {
    FirstKept(s, 0)
  }

  /**
   * `trim($s)`: `s` with its leading and trailing whitespace removed; the result
   * is the slice of `s` between the first and the last other character.
   */
  function Trim(s: string): (r: string)
    ensures LeadingTrim(s) + |r| <= |s| && r == s[LeadingTrim(s)..LeadingTrim(s) + |r|]
    ensures forall i :: LeadingTrim(s) + |r| <= i < |s| ==> IsTrimChar(s[i])
    ensures r == [] || (!IsTrimChar(r[0]) && !IsTrimChar(r[|r| - 1]))
  {
    var a := LeadingTrim(s);
    var b := LastKept(s, a, |s|);
    s[a..b]
  }

  /** PHP `empty()` / falsiness of a string: the empty string and `"0"`. */
  predicate IsEmptyString(s: string) { s == "" || s == "0" }

  function DigitChar(d: nat): char
    requires d < 10
  {
    ('0' as int + d) as char
  }

  /** Decimal text of a natural number, as PHP prints an integer. */
  function NatToString(n: nat): (r: string)
    ensures |r| >= 1 && AllDigits(r)
    ensures (|r| > 1 ==> r[0] != '0')
  {
    if n < 10 then [DigitChar(n)] else NatToString(n / 10) + [DigitChar(n % 10)]
  }

  /** Decimal text of an integer, with a leading `-` when negative. */
  function IntToString(n: int): (r: string)
    ensures |r| >= 1
  {
    if n < 0 then "-" + NatToString(-n) else NatToString(n)
  }

  /** The value of a string of decimal digits. */
  function DecimalValue(s: string): nat
    requires AllDigits(s)
  {
    if s == [] then 0 else DecimalValue(s[..|s| - 1]) * 10 + (s[|s| - 1] as int - '0' as int)
  }

  /** Printing a number and reading it back gives the number. */
  lemma {:induction false} NatToStringRoundTrip(n: nat)
    ensures DecimalValue(NatToString(n)) == n
  {
    if n >= 10 {
      NatToStringRoundTrip(n / 10);
      var s := NatToString(n);
      assert s[..|s| - 1] == NatToString(n / 10);
    }
  }

  /** `implode($sep, $parts)` / a collection's `join($sep)`. */
  function Join(parts: seq<string>, sep: string): (r: string)
    ensures parts == [] ==> r == ""
    ensures |parts| == 1 ==> r == parts[0]
  {
    if parts == [] then ""
    else if |parts| == 1 then parts[0]
    else Join(parts[..|parts| - 1], sep) + sep + parts[|parts| - 1]
  }
}
