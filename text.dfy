/**
 * The string operations of JavaScript that the core relies on, over `seq<char>`:
 * ASCII case mapping (`toLowerCase`, `toUpperCase`), `indexOf`/`includes`,
 * `split` on a non-empty separator, `Number.prototype.toString` for naturals
 * and the decimal prefix parse of `parseInt`.
 */
module Text {
  import opened Optional

  predicate IsDigit(c: char)
  {
    '0' <= c <= '9'
  }

  predicate AllDigits(s: string)
  {
    forall i :: 0 <= i < |s| ==> IsDigit(s[i])
  }

  function LowerChar(c: char): char
  {
    if 'A' <= c <= 'Z' then (c as int + 32) as char else c
  }

  function UpperChar(c: char): char
  {
    if 'a' <= c <= 'z' then (c as int - 32) as char else c
  }

  /** Only a letter and its capital lower-case to that letter. */
  lemma LowerCharFrom(x: char, c: char)
    requires 'a' <= c <= 'z' && LowerChar(x) == c
    ensures x == c || x == UpperChar(c)
  {
  }

  /** `s.toLowerCase()` on the ASCII letters; every other character is kept. */
  function Lower(s: string): (r: string)
    ensures |r| == |s|
    ensures forall i :: 0 <= i < |s| ==> r[i] == LowerChar(s[i])
  {
    if |s| == 0 then [] else [LowerChar(s[0])] + Lower(s[1..])
  }

  /** `s.toUpperCase()` on the ASCII letters; every other character is kept. */
  function Upper(s: string): (r: string)
    ensures |r| == |s|
    ensures forall i :: 0 <= i < |s| ==> r[i] == UpperChar(s[i])
  {
    if |s| == 0 then [] else [UpperChar(s[0])] + Upper(s[1..])
  }

  /** Lower-casing twice is lower-casing once. */
  lemma LowerIdempotent(s: string)
    ensures Lower(Lower(s)) == Lower(s)
  {
    assert forall i :: 0 <= i < |s| ==> LowerChar(LowerChar(s[i])) == LowerChar(s[i]);
  }

  /** `pat` occurs in `s` starting at position `at`. */
  predicate MatchesAt(s: string, pat: string, at: nat)
  {
    at + |pat| <= |s| && s[at..at + |pat|] == pat
  }

  /** `s.indexOf(pat, from)`: the first position at or after `from` where `pat` occurs, if any. */
  function IndexOfFrom(s: string, pat: string, from: nat): (r: Option<nat>)
    ensures r.Some? ==> from <= r.value && MatchesAt(s, pat, r.value)
    ensures r.Some? ==> forall j :: from <= j < r.value ==> !MatchesAt(s, pat, j)
    ensures r.None? ==> forall j :: from <= j ==> !MatchesAt(s, pat, j)
    decreases |s| - from
  {
    if from + |pat| > |s| then None
    else if MatchesAt(s, pat, from) then Some(from)
    else IndexOfFrom(s, pat, from + 1)
  }

  /** `s.includes(pat)`. */
  predicate Includes(s: string, pat: string)
    ensures Includes(s, pat) <==> exists j :: MatchesAt(s, pat, j)
  {
    IndexOfFrom(s, pat, 0).Some?
  }

  /** A needle with a character the haystack lacks is not included in it. */
  lemma MissingCharExcludes(s: string, pat: string, i: nat)
    requires i < |pat| && pat[i] !in s
    ensures !Includes(s, pat)
  {
  }

  /** A needle that sits at the start of the haystack is included in it. */
  lemma PrefixIncluded(pat: string, rest: string)
    ensures Includes(pat + rest, pat)
  {
    assert MatchesAt(pat + rest, pat, 0);
  }

  /** `s.split(sep)` for a non-empty separator: the pieces between successive
      left-to-right occurrences of `sep`. */
  function Split(s: string, sep: string): (parts: seq<string>)
    requires |sep| > 0
    ensures |parts| > 0
    decreases |s|
  {
    match IndexOfFrom(s, sep, 0)
    case None => [s]
    case Some(k) => [s[..k]] + Split(s[k + |sep|..], sep)
  }

  /** `parts.join(sep)`, the inverse of `Split`. */
  function Join(parts: seq<string>, sep: string): string
  {
    if |parts| == 0 then ""
    else if |parts| == 1 then parts[0]
    else parts[0] + sep + Join(parts[1..], sep)
  }

  /** Splitting and joining again with the same separator gives back the string. */
  lemma {:induction false} JoinSplit(s: string, sep: string)
    requires |sep| > 0
    ensures Join(Split(s, sep), sep) == s
    decreases |s|
  {
    match IndexOfFrom(s, sep, 0)
    case None =>
    case Some(k) =>
      var head, rest := s[..k], s[k + |sep|..];
      var tail := Split(rest, sep);
      JoinSplit(rest, sep);
      var parts := [head] + tail;
      assert Split(s, sep) == parts;
      assert parts[1..] == tail;
      assert Join(parts, sep) == head + sep + Join(tail, sep);
      assert s == head + sep + rest;
  }

  /** No piece produced by `Split` contains the separator. */
  lemma {:induction false} SplitPiecesFree(s: string, sep: string)
    requires |sep| > 0
    ensures forall i :: 0 <= i < |Split(s, sep)| ==> !Includes(Split(s, sep)[i], sep)
    decreases |s|
  {
    match IndexOfFrom(s, sep, 0)
    case None =>
    case Some(k) =>
      var rest := s[k + |sep|..];
      SplitPiecesFree(rest, sep);
      var head := s[..k];
      if Includes(head, sep) {
        var j := IndexOfFrom(head, sep, 0).value;
        assert head[j..j + |sep|] == s[j..j + |sep|];
        assert MatchesAt(s, sep, j);
      }
      assert Split(s, sep) == [head] + Split(rest, sep);
  }

  /** A separator whose first character is missing from `a` splits `a + sep + b` right after `a`. */
  lemma SplitAfter(a: string, sep: string, b: string)
    requires |sep| > 0 && sep[0] !in a
    ensures Split(a + sep + b, sep) == [a] + Split(b, sep)
  {
    var s := a + sep + b;
    assert MatchesAt(s, sep, |a|);
    forall j | 0 <= j < |a|
      ensures !MatchesAt(s, sep, j)
    {
    }
    assert IndexOfFrom(s, sep, 0) == Some(|a|);
    assert s[..|a|] == a;
    assert s[|a| + |sep|..] == b;
  }

  /** A string lacking the separator's first character splits into itself alone. */
  lemma SplitWhole(s: string, sep: string)
    requires |sep| > 0 && sep[0] !in s
    ensures Split(s, sep) == [s]
  {
    MissingCharExcludes(s, sep, 0);
  }

  function DigitChar(d: nat): char
    requires d < 10
  {
    ('0' as int + d) as char
  }

  function DigitValue(c: char): nat
    requires IsDigit(c)
  {
    c as int - '0' as int
  }

  /** The value of a string of decimal digits, most significant digit first. */
  function DigitsValue(d: string): nat
    requires AllDigits(d)
  {
    if |d| == 0 then 0 else DigitsValue(d[..|d| - 1]) * 10 + DigitValue(d[|d| - 1])
  }

  /** `n.toString()` for a non-negative integer: its decimal digits without leading zeros. */
  function NatToString(n: nat): (r: string)
    ensures |r| > 0 && AllDigits(r)
    ensures |r| > 1 ==> r[0] != '0'
  {
    if n < 10 then [DigitChar(n)] else NatToString(n / 10) + [DigitChar(n % 10)]
  }

  /** Reading back the digits of `NatToString(n)` gives `n`. */
  lemma {:induction false} NatToStringValue(n: nat)
    ensures DigitsValue(NatToString(n)) == n
  {
    if n >= 10 {
      NatToStringValue(n / 10);
      var r := NatToString(n);
      assert r[..|r| - 1] == NatToString(n / 10);
    }
  }

  /** The end of the longest run of decimal digits starting at `from`. */
  function DigitRunEnd(s: string, from: nat): (e: nat)
    requires from <= |s|
    ensures from <= e <= |s|
    ensures forall k :: from <= k < e ==> IsDigit(s[k])
    ensures e < |s| ==> !IsDigit(s[e])
    decreases |s| - from
  {
    if from < |s| && IsDigit(s[from]) then DigitRunEnd(s, from + 1) else from
  }

  /** A run of digits ended by a non-digit or by the end of the string is the longest run. */
  lemma {:induction false} DigitRunEndAt(s: string, from: nat, e: nat)
    requires from <= e <= |s| && AllDigits(s[from..e])
    requires e < |s| ==> !IsDigit(s[e])
    ensures DigitRunEnd(s, from) == e
    decreases e - from
  {
    if from < e {
      assert s[from..e][0] == s[from];
      assert s[from + 1..e] == s[from..e][1..];
      DigitRunEndAt(s, from + 1, e);
    }
  }

  /** `parseInt(s)` on decimal text: an optional sign, then the longest run of
      digits; `None` stands for the source's `NaN` (no digit after the sign). */
  function ParseInt(s: string): (r: Option<int>)
    ensures r.Some? && |s| > 0 && s[0] == '-' ==> r.value <= 0
    ensures r.Some? && (|s| == 0 || s[0] != '-') ==> r.value >= 0
  {
    var start := if |s| > 0 && (s[0] == '-' || s[0] == '+') then 1 else 0;
    var end := DigitRunEnd(s, start);
    if end == start then None
    else
      var magnitude: int := DigitsValue(s[start..end]);
      Some(if s[0] == '-' then -magnitude else magnitude)
  }

  /** `n.toString()` for any integer: a minus sign before the digits of a negative number. */
  function IntToString(i: int): string
  {
    if i < 0 then "-" + NatToString(-i) else NatToString(i)
  }

  /** `parseInt` reads a rendered integer back, and stops at the first non-digit after it. */
  lemma ParseIntToString(i: int, rest: string)
    requires rest == [] || !IsDigit(rest[0])
    ensures ParseInt(IntToString(i) + rest) == Some(i)
  {
    var n: nat := if i < 0 then -i else i;
    var sign := if i < 0 then "-" else "";
    assert IntToString(i) + rest == sign + NatToString(n) + rest;
    DigitsAfterSign(sign, n, rest);
  }

  /** The digits of `n` after an optional minus sign and before a non-digit are read back. */
  lemma DigitsAfterSign(sign: string, n: nat, rest: string)
    requires sign == [] || sign == "-"
    requires rest == [] || !IsDigit(rest[0])
    ensures ParseInt(sign + NatToString(n) + rest) == Some(if sign == [] then n as int else -(n as int))
  {
    var digits := NatToString(n);
    var s := sign + digits + rest;
    var start := |sign|;
    assert s[start..start + |digits|] == digits;
    assert s[start] == digits[0] && IsDigit(digits[0]);
    assert sign == "-" ==> s[0] == '-';
    assert start + |digits| < |s| ==> s[start + |digits|] == rest[0];
    NatToStringValue(n);
    DigitRunEndAt(s, start, start + |digits|);
  }

  /** `parseInt` yields `NaN` exactly when no digit follows the optional sign. */
  lemma ParseIntNaN(s: string)
    ensures ParseInt(s).None? <==>
      var start := if |s| > 0 && (s[0] == '-' || s[0] == '+') then 1 else 0;
      start == |s| || !IsDigit(s[start])
  {
  }
}
