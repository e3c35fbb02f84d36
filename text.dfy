/** String helpers shared by the model: prefixes, `Array.prototype.join`,
    decimal rendering of numbers, `String.prototype.replace` with a string
    pattern, and the glob matching that the cache's KEYS command applies. */
module Text {

  predicate StartsWith(s: string, prefix: string) {
    |prefix| <= |s| && s[..|prefix|] == prefix
  }

  lemma StartsWithAppend(prefix: string, rest: string)
    ensures StartsWith(prefix + rest, prefix)
  {
    assert (prefix + rest)[..|prefix|] == prefix;
  }

  /** `parts.join(sep)` */
  function Join(parts: seq<string>, sep: string): string {
    if |parts| == 0 then ""
    else if |parts| == 1 then parts[0]
    else parts[0] + sep + Join(parts[1..], sep)
  }

  /** A joined string starts with its first part. */
  lemma JoinStartsWithHead(parts: seq<string>, sep: string)
    requires |parts| > 0
    ensures StartsWith(Join(parts, sep), parts[0])
  {
    if |parts| == 1 {
      StartsWithAppend(parts[0], "");
      assert parts[0] + "" == parts[0];
    } else {
      assert Join(parts, sep) == parts[0] + (sep + Join(parts[1..], sep));
      StartsWithAppend(parts[0], sep + Join(parts[1..], sep));
    }
  }

  // ---- decimal numbers ----------------------------------------------------

  predicate IsDigit(c: char) { '0' <= c <= '9' }

  /** A non-empty run of decimal digits. */
  predicate AllDigits(s: string) {
    |s| > 0 && forall i :: 0 <= i < |s| ==> IsDigit(s[i])
  }

  function DigitChar(d: nat): (c: char)
    requires d < 10
    ensures IsDigit(c) && DigitValue(c) == d
  {
    ['0', '1', '2', '3', '4', '5', '6', '7', '8', '9'][d]
  }

  function DigitValue(c: char): nat
    requires IsDigit(c)
  {
    (c as int - '0' as int) as nat
  }

  /** The decimal text JavaScript produces for a non-negative integer. */
  function NatToString(n: nat): (r: string)
    ensures |r| > 0
    ensures forall i :: 0 <= i < |r| ==> IsDigit(r[i])
  {
    if n < 10 then [DigitChar(n)] else NatToString(n / 10) + [DigitChar(n % 10)]
  }

  /** The decimal text JavaScript produces for an integer. */
  function IntToString(i: int): string {
    if i < 0 then "-" + NatToString(-i) else NatToString(i)
  }

  /** Value of a non-empty string of decimal digits. */
  function ParseDigits(s: string): nat
    requires forall i :: 0 <= i < |s| ==> IsDigit(s[i])
  {
    if |s| == 0 then 0 else ParseDigits(s[..|s| - 1]) * 10 + DigitValue(s[|s| - 1])
  }

  /** Reading back the decimal text of a number gives the number. */
  lemma {:induction false} ParseNatToString(n: nat)
    ensures ParseDigits(NatToString(n)) == n
  {
    var s := NatToString(n);
    if n >= 10 {
      ParseNatToString(n / 10);
      assert s[..|s| - 1] == NatToString(n / 10);
    }
  }

  /** Distinct numbers have distinct decimal texts. */
  lemma NatToStringInjective(m: nat, n: nat)
    requires NatToString(m) == NatToString(n)
    ensures m == n
  {
    ParseNatToString(m);
    ParseNatToString(n);
  }

  // ---- String.prototype.replace(pattern, replacement) -------------------

  /** Replaces the first occurrence of `pat` in `s` by `rep`, as JavaScript's
      `replace` does with a string pattern. */
  function ReplaceFirst(s: string, pat: string, rep: string): string
    decreases |s|
  {
    if StartsWith(s, pat) then rep + s[|pat|..]
    else if s == [] then s
    else [s[0]] + ReplaceFirst(s[1..], pat, rep)
  }

  // ---- glob patterns ------------------------------------------------------

  /** Glob matching as the cache's KEYS command performs it, for patterns
      made of literal characters, `?` (any one character) and `*` (any run of
      characters). */
  predicate GlobMatch(pat: string, s: string)
    decreases |pat| + |s|
  {
    if pat == [] then s == []
    else if pat[0] == '*' then GlobMatch(pat[1..], s) || (s != [] && GlobMatch(pat, s[1..]))
    else if pat[0] == '?' then s != [] && GlobMatch(pat[1..], s[1..])
    else s != [] && s[0] == pat[0] && GlobMatch(pat[1..], s[1..])
  }

  predicate Literal(pat: string) {
    forall i :: 0 <= i < |pat| ==> pat[i] != '*' && pat[i] != '?'
  }

  /** A lone `*` matches every string. */
  lemma {:induction false} StarMatchesAll(s: string)
    ensures GlobMatch("*", s)
  {
    if s != [] {
      StarMatchesAll(s[1..]);
    }
  }

  /** A literal followed by `*` matches exactly the strings that start with
      the literal. */
  lemma {:induction false} GlobLiteralStar(lit: string, s: string)
    requires Literal(lit)
    ensures GlobMatch(lit + "*", s) <==> StartsWith(s, lit)
    decreases |lit|
  {
    if lit == [] {
      assert lit + "*" == "*";
      StarMatchesAll(s);
    } else {
      var pat := lit + "*";
      assert pat[0] == lit[0] && pat[1..] == lit[1..] + "*";
      if s != [] {
        GlobLiteralStar(lit[1..], s[1..]);
        if StartsWith(s, lit) {
          assert s[1..][..|lit| - 1] == s[..|lit|][1..];
        }
      }
    }
  }
}
