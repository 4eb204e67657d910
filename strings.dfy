/**
 * The string operations of JavaScript that the pipeline relies on:
 * String.prototype.trim, toLowerCase (ASCII letters only), includes,
 * and the decimal rendering of an integer by String(n).
 */
module Strings {

  /** The code points String.prototype.trim removes: WhiteSpace and LineTerminator. */
  predicate IsWhitespace(c: char) {
    c == '\t' || c == '\n' || c == '\U{000B}' || c == '\U{000C}' || c == '\r' || c == ' '
    || c == '\U{00A0}' || c == '\U{1680}' || ('\U{2000}' <= c <= '\U{200A}')
    || c == '\U{2028}' || c == '\U{2029}' || c == '\U{202F}' || c == '\U{205F}'
    || c == '\U{3000}' || c == '\U{FEFF}'
  }

  predicate AllWhitespace(s: string) {
    forall i :: 0 <= i < |s| ==> IsWhitespace(s[i])
  }

  function TrimStart(s: string): (r: string)
    ensures |r| <= |s| && r == s[|s| - |r|..]
    ensures r == [] || !IsWhitespace(r[0])
    ensures AllWhitespace(s[..|s| - |r|])
  {
    if s != [] && IsWhitespace(s[0]) then TrimStart(s[1..]) else s
  }

  function TrimEnd(s: string): (r: string)
    ensures |r| <= |s| && r == s[..|r|]
    ensures r == [] || !IsWhitespace(r[|r| - 1])
    ensures AllWhitespace(s[|r|..])
  {
    if s != [] && IsWhitespace(s[|s| - 1]) then TrimEnd(s[..|s| - 1]) else s
  }

  /** String.prototype.trim: the middle slice left once both whitespace ends are cut off. */
  function Trim(s: string): (r: string)
    ensures |r| <= |s|
  {
    TrimEnd(TrimStart(s))
  }

  /** Trim leaves no whitespace at either end, and nothing at all exactly when `s` is all whitespace. */
  lemma TrimShape(s: string)
    ensures Trim(s) == [] || (!IsWhitespace(Trim(s)[0]) && !IsWhitespace(Trim(s)[|Trim(s)| - 1]))
    ensures Trim(s) == [] <==> AllWhitespace(s)
  {
    var t := TrimStart(s);
    var r := TrimEnd(t);
    var i := |s| - |t|;
    if r == [] {
      assert AllWhitespace(t) by { assert t[|r|..] == t; }
      assert i == |s|;
      forall j | 0 <= j < |s| ensures IsWhitespace(s[j]) {
        assert s[j] == s[..i][j];
      }
    } else {
      assert r[0] == t[0] == s[i];
      assert !IsWhitespace(s[i]);
    }
  }

  /** A string that neither starts nor ends with whitespace is its own trim. */
  lemma NoEdgeWhitespace(s: string)
    requires s != [] && !IsWhitespace(s[0]) && !IsWhitespace(s[|s| - 1])
    ensures TrimStart(s) == s && TrimEnd(s) == s
  {
  }

  lemma {:induction false} TrimIdempotent(s: string)
    ensures Trim(Trim(s)) == Trim(s)
  {
    var r := Trim(s);
    assert TrimStart(r) == r;
    assert TrimEnd(r) == r;
  }

  function LowerChar(c: char): char {
    if 'A' <= c <= 'Z' then (c as int + 32) as char else c
  }

  /** toLowerCase restricted to the ASCII letters. */
  function Lower(s: string): (r: string)
    ensures |r| == |s| && forall i :: 0 <= i < |s| ==> r[i] == LowerChar(s[i])
  {
    seq(|s|, i requires 0 <= i < |s| => LowerChar(s[i]))
  }

  predicate OccursAt(s: string, k: string, i: int) {
    0 <= i && i + |k| <= |s| && s[i..i + |k|] == k
  }

  /** String.prototype.includes: `k` occurs somewhere in `s`. */
  predicate Includes(s: string, k: string)
    decreases |s|
  {
    k <= s || (s != [] && Includes(s[1..], k))
  }

  /** Every occurrence is found by includes. */
  lemma {:induction false} OccursIncludes(s: string, k: string, i: int)
    requires OccursAt(s, k, i)
    ensures Includes(s, k)
    decreases i
  {
    if i == 0 {
      assert k == s[..|k|];
    } else {
      assert s[1..][i - 1..i - 1 + |k|] == s[i..i + |k|];
      OccursIncludes(s[1..], k, i - 1);
    }
  }

  /** What includes finds is an occurrence. */
  lemma {:induction false} IncludesOccurs(s: string, k: string) returns (i: int)
    requires Includes(s, k)
    ensures OccursAt(s, k, i)
    decreases |s|
  {
    if k <= s {
      i := 0;
      assert s[..|k|] == k;
    } else {
      var j := IncludesOccurs(s[1..], k);
      assert s[1..][j..j + |k|] == s[j + 1..j + 1 + |k|];
      i := j + 1;
    }
  }

  /** Whatever contains `k` contains every slice of `k`. */
  lemma IncludesInner(s: string, k: string, a: int, b: int)
    requires Includes(s, k) && 0 <= a <= b <= |k|
    ensures Includes(s, k[a..b])
  {
    var i := IncludesOccurs(s, k);
    assert s[i + a..i + b] == k[a..b] by {
      forall j | 0 <= j < b - a ensures s[i + a..i + b][j] == k[a..b][j] {
        assert s[i + a + j] == s[i..i + |k|][a + j];
      }
    }
    OccursIncludes(s, k[a..b], i + a);
  }

  /** A string lacking some slice of `k` does not contain `k`. */
  lemma MissingSlice(s: string, k: string, a: int, b: int)
    requires 0 <= a <= b <= |k| && !Includes(s, k[a..b])
    ensures !Includes(s, k)
  {
    if Includes(s, k) {
      IncludesInner(s, k, a, b);
    }
  }

  /** Whatever contains `k` contains each character of `k`. */
  lemma IncludesCharacter(s: string, k: string, j: int)
    requires Includes(s, k) && 0 <= j < |k|
    ensures k[j] in s
  {
    var i := IncludesOccurs(s, k);
    assert s[i + j] == s[i..i + |k|][j];
  }

  /** A string lacking some character of `k` does not contain `k`. */
  lemma MissingCharacter(s: string, k: string, j: int)
    requires 0 <= j < |k| && k[j] !in s
    ensures !Includes(s, k)
  {
    if Includes(s, k) {
      IncludesCharacter(s, k, j);
    }
  }

  /** A two-character `k` is absent when its second character occurs only at `p`, after a different first one. */
  lemma PairAbsentAt(s: string, k: string, p: int)
    requires |k| == 2 && 0 < p < |s| && k[1] !in s[..p] && k[1] !in s[p + 1..] && s[p - 1] != k[0]
    ensures !Includes(s, k)
  {
    if Includes(s, k) {
      var i := IncludesOccurs(s, k);
    }
  }

  /** A two-character `k` is absent when its first character occurs only at `p`, before a different second one. */
  lemma PairAbsentFrom(s: string, k: string, p: int)
    requires |k| == 2 && 0 <= p < |s| - 1 && k[0] !in s[..p] && k[0] !in s[p + 1..] && s[p + 1] != k[1]
    ensures !Includes(s, k)
  {
    if Includes(s, k) {
      var i := IncludesOccurs(s, k);
    }
  }

  /** Lower case, checked character by character. */
  lemma LowerPointwise(s: string, lower: string)
    requires |s| == |lower| && forall i :: 0 <= i < |s| ==> LowerChar(s[i]) == lower[i]
    ensures Lower(s) == lower
  {
  }

  /** `keywords.some(k => s.includes(k))`. */
  predicate IncludesAny(s: string, keywords: seq<string>) {
    exists k :: k in keywords && Includes(s, k)
  }

  function DigitChar(d: nat): char
    requires d < 10
  {
    ('0' as int + d) as char
  }

  predicate IsDigit(c: char) { '0' <= c <= '9' }

  /** String(n) for a non-negative integer. */
  function NatToString(n: nat): (r: string)
    ensures |r| >= 1 && forall i :: 0 <= i < |r| ==> IsDigit(r[i])
    ensures r[|r| - 1] == DigitChar(n % 10)
    ensures n >= 10 ==> |r| >= 2 && r[|r| - 2] == DigitChar(n / 10 % 10)
  {
    if n < 10 then [DigitChar(n)] else NatToString(n / 10) + [DigitChar(n % 10)]
  }

  /** String(n) for an integer: a minus sign before the digits of |n|. */
  function IntToString(n: int): (r: string)
    ensures |r| >= 1
  {
    if n < 0 then "-" + NatToString(-n) else NatToString(n)
  }
}
