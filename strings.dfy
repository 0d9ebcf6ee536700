/**
 * The few string operations the engine relies on: decimal digits, the comma
 * splitting of list-valued query parameters, ASCII lower-casing and substring
 * search.
 */
module Strings {

  predicate IsDigit(c: char) {
    '0' <= c <= '9'
  }

  /** A non-empty string of decimal digits: the strings PHP's integer cast reads whole. */
  predicate IsDigits(s: string) {
    |s| > 0 && forall i :: 0 <= i < |s| ==> IsDigit(s[i])
  }

  function DigitChar(d: nat): (c: char)
    requires d < 10
    ensures IsDigit(c)
  {
    ['0', '1', '2', '3', '4', '5', '6', '7', '8', '9'][d]
  }

  function DigitValue(c: char): (d: nat)
    requires IsDigit(c)
    ensures d < 10
  {
    c as int - '0' as int
  }

  lemma DigitRoundTrip(d: nat)
    requires d < 10
    ensures DigitValue(DigitChar(d)) == d
  {
  }

  /** The value of a digit string, most significant digit first; leading zeros are allowed. */
  function ParseNat(s: string): nat
    requires IsDigits(s)
    decreases |s|
  {
    if |s| == 1 then DigitValue(s[0])
    else ParseNat(s[..|s| - 1]) * 10 + DigitValue(s[|s| - 1])
  }

  /** The decimal representation of `n`, without leading zeros. */
  function NatToString(n: nat): (s: string)
    ensures IsDigits(s)
    ensures n >= 10 ==> |s| >= 2
    decreases n
  {
    if n < 10 then [DigitChar(n)] else NatToString(n / 10) + [DigitChar(n % 10)]
  }

  /** Printing a number and reading it back gives the number. */
  lemma {:induction false} ParseNatToString(n: nat)
    ensures ParseNat(NatToString(n)) == n
    decreases n
  {
    if n < 10 {
      DigitRoundTrip(n);
    } else {
      var s := NatToString(n);
      var prefix := NatToString(n / 10);
      assert s == prefix + [DigitChar(n % 10)];
      assert s[..|s| - 1] == prefix;
      ParseNatToString(n / 10);
      DigitRoundTrip(n % 10);
    }
  }

  /** Printing is injective: different numbers have different representations. */
  lemma NatToStringInjective(m: nat, n: nat)
    requires NatToString(m) == NatToString(n)
    ensures m == n
  {
    ParseNatToString(m);
    ParseNatToString(n);
  }

  /** The pieces of `s` between occurrences of `sep`, in order; there is at least one piece. */
  function SplitOn(s: string, sep: char): (r: seq<string>)
    ensures |r| >= 1
    ensures forall i :: 0 <= i < |r| ==> sep !in r[i]
    decreases |s|
  {
    if s == [] then [""]
    else if s[0] == sep then [""] + SplitOn(s[1..], sep)
    else
      var rest := SplitOn(s[1..], sep);
      [[s[0]] + rest[0]] + rest[1..]
  }

  /** The pieces joined again with `sep` between neighbours. */
  function JoinWith(parts: seq<string>, sep: char): string
    requires |parts| >= 1
  {
    if |parts| == 1 then parts[0] else parts[0] + [sep] + JoinWith(parts[1..], sep)
  }

  /** Splitting loses nothing: joining the pieces gives the original string back. */
  lemma {:induction false} JoinSplitOn(s: string, sep: char)
    ensures JoinWith(SplitOn(s, sep), sep) == s
    decreases |s|
  {
    if s != [] {
      JoinSplitOn(s[1..], sep);
      var rest := SplitOn(s[1..], sep);
      if s[0] == sep {
        assert SplitOn(s, sep)[1..] == rest;
      } else {
        var r := SplitOn(s, sep);
        assert r[0] == [s[0]] + rest[0];
        assert r[1..] == rest[1..];
        if |rest| == 1 {
          assert JoinWith(r, sep) == [s[0]] + rest[0];
        } else {
          assert JoinWith(r, sep) == [s[0]] + rest[0] + [sep] + JoinWith(rest[1..], sep);
          assert JoinWith(rest, sep) == rest[0] + [sep] + JoinWith(rest[1..], sep);
        }
      }
    }
  }

  /** A piece free of the separator, followed by the separator, is split off as one piece. */
  lemma {:induction false} SplitOnPiece(a: string, sep: char, rest: string)
    requires sep !in a
    ensures SplitOn(a + [sep] + rest, sep) == [a] + SplitOn(rest, sep)
    decreases |a|
  {
    if a == [] {
      assert a + [sep] + rest == [sep] + rest;
      assert ([sep] + rest)[1..] == rest;
    } else {
      var s := a + [sep] + rest;
      assert s[0] == a[0];
      assert s[1..] == a[1..] + [sep] + rest;
      SplitOnPiece(a[1..], sep, rest);
      assert [a[0]] + a[1..] == a;
    }
  }

  /** A separator-free string is one piece. */
  lemma {:induction false} SplitOnWhole(a: string, sep: char)
    requires sep !in a
    ensures SplitOn(a, sep) == [a]
    decreases |a|
  {
    if a != [] {
      SplitOnWhole(a[1..], sep);
      assert [a[0]] + a[1..] == a;
    }
  }

  /** Joining separator-free pieces and splitting again gives the pieces back. */
  lemma {:induction false} SplitOnJoin(parts: seq<string>, sep: char)
    requires |parts| >= 1
    requires forall i :: 0 <= i < |parts| ==> sep !in parts[i]
    ensures SplitOn(JoinWith(parts, sep), sep) == parts
    decreases |parts|
  {
    if |parts| == 1 {
      SplitOnWhole(parts[0], sep);
    } else {
      SplitOnJoin(parts[1..], sep);
      SplitOnPiece(parts[0], sep, JoinWith(parts[1..], sep));
      assert [parts[0]] + parts[1..] == parts;
    }
  }

  predicate IsSpace(c: char) {
    c == ' ' || c == '\t' || c == '\n' || c == '\r'
  }

  /** `s` without its leading white space. */
  function TrimStart(s: string): (r: string)
    ensures |r| <= |s| && r == s[|s| - |r|..]
    ensures r == [] || !IsSpace(r[0])
    ensures forall i :: 0 <= i < |s| - |r| ==> IsSpace(s[i])
  {
    if s != [] && IsSpace(s[0]) then TrimStart(s[1..]) else s
  }

  /** `s` without its trailing white space. */
  function TrimEnd(s: string): (r: string)
    ensures |r| <= |s| && r == s[..|r|]
    ensures r == [] || !IsSpace(r[|r| - 1])
    ensures forall i :: |r| <= i < |s| ==> IsSpace(s[i])
  {
    if s != [] && IsSpace(s[|s| - 1]) then TrimEnd(s[..|s| - 1]) else s
  }

  /** No white space at either end. */
  predicate IsTrimmed(s: string) {
    s == [] || (!IsSpace(s[0]) && !IsSpace(s[|s| - 1]))
  }

  /** `s` without white space at either end. */
  function Trim(s: string): (r: string)
    ensures IsTrimmed(r)
    ensures |r| <= |s|
  {
    TrimEnd(TrimStart(s))
  }

  /** `r` occurs in `s` at offset `a`, with only white space before and after it. */
  predicate IsSpacedSlice(s: string, a: nat, r: string) {
    a + |r| <= |s| && (forall k :: 0 <= k < |r| ==> r[k] == s[a + k]) &&
    (forall i :: 0 <= i < a ==> IsSpace(s[i])) && (forall i :: a + |r| <= i < |s| ==> IsSpace(s[i]))
  }

  /** Trimming keeps a slice of `s`, after its leading white space, with only white space after it. */
  lemma TrimIsSlice(s: string)
    ensures IsSpacedSlice(s, |s| - |TrimStart(s)|, Trim(s))
  {
    var t := TrimStart(s);
    var r := TrimEnd(t);
    assert Trim(s) == r;
    TrimStartSlice(s);
    TrimEndSlice(t);
    SpacedSliceWithin(s, |s| - |t|, t, 0, r);
    assert |s| - |t| + 0 == |s| - |t|;
  }

  /** `TrimStart` keeps the suffix after the leading white space. */
  lemma TrimStartSlice(s: string)
    ensures IsSpacedSlice(s, |s| - |TrimStart(s)|, TrimStart(s))
  {
    var r := TrimStart(s);
    assert forall k :: 0 <= k < |r| ==> r[k] == s[|s| - |r|..][k];
  }

  /** `TrimEnd` keeps the prefix before the trailing white space. */
  lemma TrimEndSlice(s: string)
    ensures IsSpacedSlice(s, 0, TrimEnd(s))
  {
    var r := TrimEnd(s);
    assert forall k :: 0 <= k < |r| ==> r[k] == s[..|r|][k];
  }

  /** A spaced slice of a spaced slice of `s` is a spaced slice of `s`. */
  lemma SpacedSliceWithin(s: string, a: nat, t: string, b: nat, r: string)
    requires IsSpacedSlice(s, a, t) && IsSpacedSlice(t, b, r)
    ensures IsSpacedSlice(s, a + b, r)
  {
    forall i | 0 <= i < a + b
      ensures IsSpace(s[i])
    {
      if i >= a {
        assert s[i] == t[i - a];
      }
    }
    forall i | a + b + |r| <= i < |s|
      ensures IsSpace(s[i])
    {
      if i < a + |t| {
        assert s[i] == t[i - a];
      }
    }
  }

  /** Trimming only removes characters: one absent before is absent after. */
  lemma TrimKeepsOut(s: string, c: char)
    requires c !in s
    ensures c !in Trim(s)
  {
    var t := TrimStart(s);
    assert t == s[|s| - |t|..];
    var r := TrimEnd(t);
    assert r == t[..|r|];
  }

  /** Trimming a trimmed string changes nothing. */
  lemma TrimTrimmed(s: string)
    requires IsTrimmed(s)
    ensures Trim(s) == s
  {
  }

  /**
   * The trimmed, non-empty pieces of a comma-separated list, in order: the way
   * a string-valued query parameter such as '1, 2' is read as a list.
   */
  function SplitList(s: string): (r: seq<string>)
    ensures forall i :: 0 <= i < |r| ==> r[i] != "" && ',' !in r[i] && IsTrimmed(r[i])
  {
    NonEmptyTrimmed(SplitOn(s, ','))
  }

  function NonEmptyTrimmed(parts: seq<string>): (r: seq<string>)
    requires forall i :: 0 <= i < |parts| ==> ',' !in parts[i]
    ensures |r| <= |parts|
    ensures forall i :: 0 <= i < |r| ==> r[i] != "" && ',' !in r[i] && IsTrimmed(r[i])
  {
    if parts == [] then []
    else
      var t := Trim(parts[0]);
      TrimKeepsOut(parts[0], ',');
      var rest := NonEmptyTrimmed(parts[1..]);
      if t == "" then rest else Cons(t, rest)
  }

  /** A good piece in front of good pieces. */
  function Cons(t: string, rest: seq<string>): (r: seq<string>)
    requires t != "" && ',' !in t && IsTrimmed(t)
    requires forall i :: 0 <= i < |rest| ==> rest[i] != "" && ',' !in rest[i] && IsTrimmed(rest[i])
    ensures r == [t] + rest
    ensures forall i :: 0 <= i < |r| ==> r[i] != "" && ',' !in r[i] && IsTrimmed(r[i])
  {
    var r := [t] + rest;
    assert forall i :: 1 <= i < |r| ==> r[i] == rest[i - 1];
    r
  }

  /** Non-empty, trimmed, comma-free pieces survive a join with ',' and a split unchanged. */
  lemma {:induction false} SplitListJoin(parts: seq<string>)
    requires |parts| >= 1
    requires forall i :: 0 <= i < |parts| ==> parts[i] != "" && ',' !in parts[i] && IsTrimmed(parts[i])
    ensures SplitList(JoinWith(parts, ',')) == parts
  {
    SplitOnJoin(parts, ',');
    NonEmptyTrimmedKeeps(parts);
  }

  /** A non-empty, trimmed, comma-free list is one item. */
  lemma SplitListOne(s: string)
    requires s != "" && ',' !in s && IsTrimmed(s)
    ensures SplitList(s) == [s]
  {
    SplitListJoin([s]);
    assert JoinWith([s], ',') == s;
  }

  lemma {:induction false} NonEmptyTrimmedKeeps(parts: seq<string>)
    requires forall i :: 0 <= i < |parts| ==> parts[i] != "" && ',' !in parts[i] && IsTrimmed(parts[i])
    ensures NonEmptyTrimmed(parts) == parts
    decreases |parts|
  {
    if parts != [] {
      TrimTrimmed(parts[0]);
      NonEmptyTrimmedKeeps(parts[1..]);
      assert [parts[0]] + parts[1..] == parts;
    }
  }

  /** A digit string after one blank trims to the digit string. */
  lemma TrimBlankDigits(d: string)
    requires IsDigits(d)
    ensures Trim(" " + d) == d
  {
    assert (" " + d)[1..] == d;
    assert !IsSpace(d[0]) && !IsSpace(d[|d| - 1]);
  }

  /** Pieces free of commas that trim to non-empty strings are read as those strings. */
  lemma {:induction false} NonEmptyTrimmedTo(parts: seq<string>, trimmed: seq<string>)
    requires |parts| == |trimmed|
    requires forall i :: 0 <= i < |parts| ==> ',' !in parts[i] && Trim(parts[i]) == trimmed[i] && trimmed[i] != ""
    ensures NonEmptyTrimmed(parts) == trimmed
    decreases |parts|
  {
    if parts != [] {
      NonEmptyTrimmedTo(parts[1..], trimmed[1..]);
      assert [trimmed[0]] + trimmed[1..] == trimmed;
    }
  }

  /** A digit string contains no separator and no white space. */
  lemma DigitsArePlain(s: string)
    requires IsDigits(s)
    ensures s != "" && ',' !in s && IsTrimmed(s)
  {
    assert !IsDigit(',');
  }

  function ToLower(c: char): char {
    if 'A' <= c <= 'Z' then (c as int + 32) as char else c
  }

  /** ASCII lower-casing, character by character. */
  function Lower(s: string): (r: string)
    ensures |r| == |s|
    ensures forall i :: 0 <= i < |s| ==> r[i] == ToLower(s[i])
  {
    if s == [] then [] else [ToLower(s[0])] + Lower(s[1..])
  }

  predicate StartsWith(s: string, prefix: string) {
    |prefix| <= |s| && s[..|prefix|] == prefix
  }

  predicate EndsWith(s: string, suffix: string) {
    |suffix| <= |s| && s[|s| - |suffix|..] == suffix
  }

  /** Whether `needle` occurs in `hay`, tried at each position from the left. */
  predicate Contains(hay: string, needle: string)
    decreases |hay|
  {
    StartsWith(hay, needle) || (hay != [] && Contains(hay[1..], needle))
  }

  /** A string occurs in any string that has it as a middle part. */
  lemma {:induction false} ContainsMiddle(a: string, b: string, c: string)
    ensures Contains(a + b + c, b)
    decreases |a|
  {
    if a == [] {
      assert a + b + c == b + c;
      assert (b + c)[..|b|] == b;
    } else {
      ContainsMiddle(a[1..], b, c);
      assert (a + b + c)[1..] == a[1..] + b + c;
    }
  }

  /** Nothing longer than a string occurs in it. */
  lemma {:induction false} ContainsShorter(hay: string, needle: string)
    requires |needle| > |hay|
    ensures !Contains(hay, needle)
    decreases |hay|
  {
    if hay != [] {
      ContainsShorter(hay[1..], needle);
    }
  }

  /** Case-insensitive search in the manner of PHP's stripos, for ASCII letters. */
  predicate ContainsIgnoringCase(hay: string, needle: string) {
    Contains(Lower(hay), Lower(needle))
  }
}
