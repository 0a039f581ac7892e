/**
  The string operations of java.lang.String that the translator relies on,
  restricted to what the translator needs: trimming, searching for a
  substring, splitting on runs of whitespace, ASCII lower-casing and the
  decimal rendering of integers.
*/
module Text {

  // ---------------------------------------------------------------------------
  // Character classes
  // ---------------------------------------------------------------------------

  /** String.trim removes every leading and trailing character whose code is at most U+0020. */
  predicate IsTrimmable(c: char) {
    c <= ' '
  }

  /** The characters of the regular-expression class \s: space, tab, newline, vertical tab, form feed, carriage return. */
  predicate IsWhitespace(c: char) {
    c == ' ' || '\t' <= c <= '\r'
  }

  lemma WhitespaceIsTrimmable(c: char)
    ensures IsWhitespace(c) ==> IsTrimmable(c)
  {
  }

  predicate IsDigit(c: char) {
    '0' <= c <= '9'
  }

  // ---------------------------------------------------------------------------
  // Lower-casing (ASCII letters only)
  // ---------------------------------------------------------------------------

  function LowerChar(c: char): (r: char)
    ensures 'A' <= c <= 'Z' ==> r as int == c as int + 32
    ensures !('A' <= c <= 'Z') ==> r == c
  {
    if 'A' <= c <= 'Z' then (c as int + 32) as char else c
  }

  function Lower(s: string): (r: string)
    ensures |r| == |s|
    ensures forall i :: 0 <= i < |s| ==> r[i] == LowerChar(s[i])
  {
    seq(|s|, i requires 0 <= i < |s| => LowerChar(s[i]))
  }

  lemma {:induction false} LowerIdempotent(s: string)
    ensures Lower(Lower(s)) == Lower(s)
  {
    forall i | 0 <= i < |s|
      ensures Lower(Lower(s))[i] == Lower(s)[i]
    {
      assert Lower(Lower(s))[i] == LowerChar(LowerChar(s[i]));
    }
  }

  lemma LowerAppend(s: string, t: string)
    ensures Lower(s + t) == Lower(s) + Lower(t)
  {
    assert forall i :: 0 <= i < |s + t| ==> Lower(s + t)[i] == (Lower(s) + Lower(t))[i];
  }

  // ---------------------------------------------------------------------------
  // String.trim
  // ---------------------------------------------------------------------------

  /** s without its leading trimmable characters: the longest suffix that does not start with one. */
  function TrimStart(s: string): (r: string)
    ensures |r| <= |s| && r == s[|s| - |r|..]
    ensures r == [] || !IsTrimmable(r[0])
    ensures forall i :: 0 <= i < |s| - |r| ==> IsTrimmable(s[i])
  {
    if s != [] && IsTrimmable(s[0]) then TrimStart(s[1..]) else s
  }

  /** s without its trailing trimmable characters: the longest prefix that does not end with one. */
  function TrimEnd(s: string): (r: string)
    ensures |r| <= |s| && r == s[..|r|]
    ensures r == [] || !IsTrimmable(r[|r| - 1])
    ensures forall i :: |r| <= i < |s| ==> IsTrimmable(s[i])
  {
    if s != [] && IsTrimmable(s[|s| - 1]) then TrimEnd(s[..|s| - 1]) else s
  }

  function Trim(s: string): string {
    TrimEnd(TrimStart(s))
  }

  /** The trimmed string is a slice of the input that neither starts nor ends with a trimmable character,
      and everything cut off on either side is trimmable. */
  lemma TrimSlice(s: string)
    ensures exists i, j :: 0 <= i <= j <= |s| && Trim(s) == s[i..j]
              && (forall k :: 0 <= k < i ==> IsTrimmable(s[k]))
              && (forall k :: j <= k < |s| ==> IsTrimmable(s[k]))
    ensures Trim(s) == [] || (!IsTrimmable(Trim(s)[0]) && !IsTrimmable(Trim(s)[|Trim(s)| - 1]))
  {
    var t := TrimStart(s);
    var u := TrimEnd(t);
    var i := |s| - |t|;
    var j := i + |u|;
    assert u == s[i..j] by {
      assert t == s[i..] && u == t[..|u|];
    }
    forall k | j <= k < |s| ensures IsTrimmable(s[k]) {
      assert s[k] == t[k - i];
    }
    TrimEnds(s);
  }

  /** Trimming keeps both ends free of trimmable characters. */
  lemma TrimEnds(s: string)
    ensures Trim(s) == [] || (!IsTrimmable(Trim(s)[0]) && !IsTrimmable(Trim(s)[|Trim(s)| - 1]))
  {
    var t := TrimStart(s);
    if Trim(s) != [] {
      assert Trim(s)[0] == t[0];
    }
  }

  lemma TrimIdempotent(s: string)
    ensures Trim(Trim(s)) == Trim(s)
  {
  }

  // ---------------------------------------------------------------------------
  // String.indexOf(String)
  // ---------------------------------------------------------------------------

  predicate OccursAt(s: string, pat: string, k: nat) {
    k + |pat| <= |s| && s[k..k + |pat|] == pat
  }

  predicate Contains(s: string, pat: string) {
    exists k: nat | k <= |s| :: OccursAt(s, pat, k)
  }

  function IndexFrom(s: string, pat: string, from: nat): (r: int)
    requires from <= |s|
    decreases |s| - from
    ensures r == -1 || from <= r <= |s| - |pat|
    ensures r == -1 ==> forall k: nat :: from <= k ==> !OccursAt(s, pat, k)
    ensures r != -1 ==> OccursAt(s, pat, r) && forall k: nat :: from <= k < r ==> !OccursAt(s, pat, k)
  {
    if OccursAt(s, pat, from) then from
    else if from == |s| then -1
    else IndexFrom(s, pat, from + 1)
  }

  /** The index of the first occurrence of pat in s, or -1 when there is none (Java's indexOf). */
  function IndexOf(s: string, pat: string): (r: int)
    ensures r == -1 <==> !Contains(s, pat)
    ensures r != -1 ==> 0 <= r && OccursAt(s, pat, r) && forall k: nat :: k < r ==> !OccursAt(s, pat, k)
  {
    IndexFrom(s, pat, 0)
  }

  /** The prefix of s before the first occurrence of pat does not contain pat. */
  lemma PrefixBeforeFirstOccurrence(s: string, pat: string)
    requires pat != []
    requires IndexOf(s, pat) != -1
    ensures !Contains(s[..IndexOf(s, pat)], pat)
  {
    var r := IndexOf(s, pat);
    var prefix := s[..r];
    forall k: nat | k <= |prefix| ensures !OccursAt(prefix, pat, k) {
      if k + |pat| <= |prefix| {
        assert prefix[k..k + |pat|] == s[k..k + |pat|];
        assert !OccursAt(s, pat, k);
      }
    }
  }

  lemma SliceOfSlice(s: string, i: nat, j: nat, a: nat, b: nat)
    requires i <= j <= |s| && a <= b <= j - i
    ensures s[i..j][a..b] == s[i + a..i + b]
  {
    forall t | 0 <= t < b - a ensures s[i..j][a..b][t] == s[i + a..i + b][t] {
      assert s[i..j][a..b][t] == s[i..j][a + t] == s[i + a + t];
    }
  }

  /** A slice of a string that does not contain pat does not contain pat either. */
  lemma SliceKeepsAbsence(s: string, pat: string, i: nat, j: nat)
    requires i <= j <= |s|
    requires !Contains(s, pat)
    ensures !Contains(s[i..j], pat)
  {
    var slice := s[i..j];
    forall k: nat | k <= |slice| ensures !OccursAt(slice, pat, k) {
      if k + |pat| <= |slice| {
        SliceOfSlice(s, i, j, k, k + |pat|);
        assert !OccursAt(s, pat, i + k);
      }
    }
  }

  /** Trimming a string that does not contain pat gives one that does not contain pat. */
  lemma TrimKeepsAbsence(s: string, pat: string)
    requires !Contains(s, pat)
    ensures !Contains(Trim(s), pat)
  {
    TrimSlice(s);
    var i, j :| 0 <= i <= j <= |s| && Trim(s) == s[i..j];
    SliceKeepsAbsence(s, pat, i, j);
  }

  lemma NoOccurrenceWithoutChar(s: string, pat: string, c: char)
    requires |pat| > 0 && pat[0] == c
    requires forall i :: 0 <= i < |s| ==> s[i] != c
    ensures !Contains(s, pat)
  {
  }

  // ---------------------------------------------------------------------------
  // String.endsWith
  // ---------------------------------------------------------------------------

  predicate EndsWith(s: string, suffix: string) {
    |suffix| <= |s| && s[|s| - |suffix|..] == suffix
  }

  // ---------------------------------------------------------------------------
  // String.split("\\s+") on a trimmed string
  // ---------------------------------------------------------------------------

  /** The number of non-whitespace characters at the start of s. */
  function TokenRun(s: string): (n: nat)
    ensures n <= |s|
    ensures s != [] && !IsWhitespace(s[0]) ==> n > 0
    ensures n < |s| ==> IsWhitespace(s[n])
  {
    if s != [] && !IsWhitespace(s[0]) then 1 + TokenRun(s[1..]) else 0
  }

  lemma {:induction false} TokenRunHasNoWhitespace(s: string)
    ensures forall i :: 0 <= i < TokenRun(s) ==> !IsWhitespace(s[i])
  {
    if s != [] && !IsWhitespace(s[0]) {
      TokenRunHasNoWhitespace(s[1..]);
    }
  }

  /** The maximal runs of non-whitespace characters of s, in order: whitespace is skipped, and a run is taken whole. */
  function Split(s: string): (parts: seq<string>)
    ensures forall i :: 0 <= i < |parts| ==> parts[i] != []
    decreases |s|
  {
    if s == [] then []
    else if IsWhitespace(s[0]) then Split(s[1..])
    else
      var b := TokenRun(s);
      [s[..b]] + Split(s[b..])
  }

  function Concat(parts: seq<string>): string {
    if parts == [] then [] else parts[0] + Concat(parts[1..])
  }

  function RemoveWhitespace(s: string): (r: string) {
    if s == [] then []
    else if IsWhitespace(s[0]) then RemoveWhitespace(s[1..])
    else [s[0]] + RemoveWhitespace(s[1..])
  }

  lemma {:induction false} RemoveWhitespaceAppend(s: string, t: string)
    ensures RemoveWhitespace(s + t) == RemoveWhitespace(s) + RemoveWhitespace(t)
  {
    if s != [] {
      assert (s + t)[1..] == s[1..] + t;
      RemoveWhitespaceAppend(s[1..], t);
    } else {
      assert s + t == t;
    }
  }

  lemma {:induction false} RemoveWhitespaceOfToken(s: string)
    requires forall i :: 0 <= i < |s| ==> !IsWhitespace(s[i])
    ensures RemoveWhitespace(s) == s
  {
    if s != [] {
      RemoveWhitespaceOfToken(s[1..]);
    }
  }

  /** No part of a split contains whitespace. */
  lemma {:induction false} SplitPartsHaveNoWhitespace(s: string, i: nat)
    requires i < |Split(s)|
    ensures forall k :: 0 <= k < |Split(s)[i]| ==> !IsWhitespace(Split(s)[i][k])
    decreases |s|
  {
    if IsWhitespace(s[0]) {
      SplitPartsHaveNoWhitespace(s[1..], i);
    } else {
      var b := TokenRun(s);
      if i == 0 {
        TokenRunHasNoWhitespace(s);
      } else {
        assert Split(s)[i] == Split(s[b..])[i - 1];
        SplitPartsHaveNoWhitespace(s[b..], i - 1);
      }
    }
  }

  /** A run of non-whitespace at the front is kept whole by removing whitespace. */
  lemma KeepTokenPrefix(t: string, b: nat)
    requires b <= |t|
    requires forall i :: 0 <= i < b ==> !IsWhitespace(t[i])
    ensures RemoveWhitespace(t) == t[..b] + RemoveWhitespace(t[b..])
  {
    assert t == t[..b] + t[b..];
    RemoveWhitespaceOfToken(t[..b]);
    RemoveWhitespaceAppend(t[..b], t[b..]);
  }

  lemma ConcatCons(x: string, rest: seq<string>)
    ensures Concat([x] + rest) == x + Concat(rest)
  {
    assert ([x] + rest)[1..] == rest;
  }

  /** Splitting loses exactly the whitespace: the parts (each non-empty, by Split's contract) put
      back together are the input with its whitespace removed. */
  lemma {:induction false} SplitCharacterization(s: string)
    ensures Concat(Split(s)) == RemoveWhitespace(s)
    decreases |s|
  {
    if s != [] {
      if IsWhitespace(s[0]) {
        SplitCharacterization(s[1..]);
      } else {
        var b := TokenRun(s);
        TokenRunHasNoWhitespace(s);
        KeepTokenPrefix(s, b);
        SplitCharacterization(s[b..]);
        ConcatCons(s[..b], Split(s[b..]));
      }
    }
  }

  /** A string that does not start with whitespace has its first run as first part. */
  lemma SplitOfNonBlank(s: string)
    requires s != [] && !IsWhitespace(s[0])
    ensures |Split(s)| > 0 && Split(s)[0] == s[..TokenRun(s)] && Split(s)[0] != []
  {
  }

  /** A token: a non-empty run of characters none of which is whitespace. */
  predicate IsToken(t: string) {
    t != [] && forall k :: 0 <= k < |t| ==> !IsWhitespace(t[k])
  }

  /** A token followed by nothing or by whitespace is exactly the leading run. */
  lemma {:induction false} TokenRunOfToken(t: string, rest: string)
    requires forall k :: 0 <= k < |t| ==> !IsWhitespace(t[k])
    requires rest == [] || IsWhitespace(rest[0])
    ensures TokenRun(t + rest) == |t|
    decreases |t|
  {
    if t == [] {
      assert t + rest == rest;
    } else {
      assert (t + rest)[1..] == t[1..] + rest;
      TokenRunOfToken(t[1..], rest);
    }
  }

  /** Whitespace in front of the text changes nothing. */
  lemma SplitSkipsWhitespace(w: char, u: string)
    requires IsWhitespace(w)
    ensures Split([w] + u) == Split(u)
  {
    assert ([w] + u)[1..] == u;
  }

  /** A token followed by whitespace is the first part, and the rest is split on its own. */
  lemma SplitTakesToken(t: string, w: char, u: string)
    requires IsToken(t) && IsWhitespace(w)
    ensures Split(t + [w] + u) == [t] + Split(u)
  {
    var s := t + [w] + u;
    assert s == t + ([w] + u);
    TokenRunOfToken(t, [w] + u);
    assert s[..|t|] == t && s[|t|..] == [w] + u;
    SplitSkipsWhitespace(w, u);
  }

  /** A token on its own is split into itself. */
  lemma SplitOfToken(t: string)
    requires IsToken(t)
    ensures Split(t) == [t]
  {
    assert t + [] == t;
    TokenRunOfToken(t, []);
    assert t[..|t|] == t && t[|t|..] == [];
  }

  /** The tokens written out with one space between each two. */
  function Unsplit(parts: seq<string>): string {
    if parts == [] then []
    else if |parts| == 1 then parts[0]
    else parts[0] + [' '] + Unsplit(parts[1..])
  }

  /** Splitting tokens written out with single spaces gives the tokens back, in order. */
  lemma {:induction false} SplitUnsplit(parts: seq<string>)
    requires forall i :: 0 <= i < |parts| ==> IsToken(parts[i])
    ensures Split(Unsplit(parts)) == parts
  {
    if |parts| == 1 {
      SplitOfToken(parts[0]);
    } else if |parts| > 1 {
      SplitTakesToken(parts[0], ' ', Unsplit(parts[1..]));
      SplitUnsplit(parts[1..]);
      assert parts == [parts[0]] + parts[1..];
    }
  }

  // ---------------------------------------------------------------------------
  // Decimal rendering of integers (Integer.toString and string concatenation)
  // ---------------------------------------------------------------------------

  predicate IsNumeral(s: string) {
    |s| > 0 && forall i :: 0 <= i < |s| ==> IsDigit(s[i])
  }

  function DigitChar(d: nat): (c: char)
    requires d < 10
    ensures IsDigit(c) && c as int - '0' as int == d
  {
    ('0' as int + d) as char
  }

  function NatToString(n: nat): (s: string)
    ensures IsNumeral(s)
    decreases n
  {
    if n < 10 then [DigitChar(n)] else NatToString(n / 10) + [DigitChar(n % 10)]
  }

  function ParseNumeral(s: string): nat
    requires forall i :: 0 <= i < |s| ==> IsDigit(s[i])
  {
    if s == [] then 0
    else
      var last := s[|s| - 1];
      assert IsDigit(last);
      ParseNumeral(s[..|s| - 1]) * 10 + (last as int - '0' as int)
  }

  /** Reading back the decimal rendering of a natural number gives the number. */
  lemma {:induction false} ParseNatToString(n: nat)
    ensures ParseNumeral(NatToString(n)) == n
    decreases n
  {
    if n >= 10 {
      var s := NatToString(n);
      assert s[..|s| - 1] == NatToString(n / 10);
      ParseNatToString(n / 10);
    }
  }

  lemma NatToStringInjective(m: nat, n: nat)
    ensures NatToString(m) == NatToString(n) ==> m == n
  {
    ParseNatToString(m);
    ParseNatToString(n);
  }

  /** Java's decimal rendering of an int: a minus sign for negatives, then the digits. */
  function IntToString(i: int): (s: string)
    ensures |s| > 0
    ensures forall k :: 0 <= k < |s| ==> s[k] != '.'
  {
    if i < 0 then "-" + NatToString(-i) else NatToString(i)
  }

  lemma IntToStringSign(i: int)
    ensures (IntToString(i)[0] == '-') == (i < 0)
  {
    if i >= 0 {
      assert IsDigit(NatToString(i)[0]);
    }
  }

  lemma IntToStringInjective(i: int, j: int)
    ensures IntToString(i) == IntToString(j) ==> i == j
  {
    if IntToString(i) == IntToString(j) {
      IntToStringSign(i);
      IntToStringSign(j);
      if i < 0 && j < 0 {
        assert NatToString(-i) == IntToString(i)[1..] == IntToString(j)[1..] == NatToString(-j);
        NatToStringInjective(-i, -j);
      } else if i >= 0 && j >= 0 {
        NatToStringInjective(i, j);
      }
    }
  }

  lemma IntToStringOfNat(n: nat)
    ensures IntToString(n) == NatToString(n) && IsNumeral(IntToString(n))
    ensures ParseNumeral(IntToString(n)) == n
  {
    ParseNatToString(n);
  }
}
