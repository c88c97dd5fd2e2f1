/**
  The JavaScript string operations the core relies on: startsWith, split and
  join with a one-character separator, toLowerCase (on ASCII letters), trim,
  and the decimal text of an integer.
 */
module Strings {

  predicate StartsWith(s: string, prefix: string) {
    |prefix| <= |s| && s[..|prefix|] == prefix
  }

  /** `part` occurs somewhere inside `s`. */
  predicate Contains(s: string, part: string) {
    exists i :: 0 <= i <= |s| && StartsWith(s[i..], part)
  }

  /** Number of occurrences of `c` in `s`. */
  function Count(s: string, c: char): nat {
    if s == [] then 0 else (if s[0] == c then 1 else 0) + Count(s[1..], c)
  }

  /**
    String.prototype.split with a one-character separator: every occurrence
    of the separator cuts, so there is one more piece than separators, and no
    piece contains the separator.
   */
  function Split(s: string, sep: char): (pieces: seq<string>)
    ensures |pieces| == Count(s, sep) + 1
    ensures forall i :: 0 <= i < |pieces| ==> sep !in pieces[i]
  {
    if s == [] then [[]]
    else
      var rest := Split(s[1..], sep);
      if s[0] == sep then [[]] + rest
      else [[s[0]] + rest[0]] + rest[1..]
  }

  /** Array.prototype.join. */
  function Join(pieces: seq<string>, sep: string): string {
    if pieces == [] then []
    else if |pieces| == 1 then pieces[0]
    else pieces[0] + sep + Join(pieces[1..], sep)
  }

  /** Every occurrence of `c` in `s` replaced by `r`. */
  function ReplaceAll(s: string, c: char, r: string): string {
    if s == [] then []
    else (if s[0] == c then r else [s[0]]) + ReplaceAll(s[1..], c, r)
  }

  /** Joining the pieces of a split with `r` replaces each separator by `r`. */
  lemma {:induction false} JoinSplit(s: string, sep: char, r: string)
    ensures Join(Split(s, sep), r) == ReplaceAll(s, sep, r)
  {
    if s != [] {
      var rest := Split(s[1..], sep);
      JoinSplit(s[1..], sep, r);
      if s[0] != sep && |rest| > 1 {
        assert rest == [rest[0]] + rest[1..];
        assert Join(rest, r) == rest[0] + r + Join(rest[1..], r);
      }
    }
  }

  lemma {:induction false} ReplaceAllBySelf(s: string, c: char)
    ensures ReplaceAll(s, c, [c]) == s
  {
    if s != [] {
      ReplaceAllBySelf(s[1..], c);
      assert s == [s[0]] + s[1..];
    }
  }

  /** Split then join with the same separator gives back the input. */
  lemma SplitJoinRoundTrip(s: string, sep: char)
    ensures Join(Split(s, sep), [sep]) == s
  {
    JoinSplit(s, sep, [sep]);
    ReplaceAllBySelf(s, sep);
  }

  /** A prefix free of the separator, then the separator, makes the first piece. */
  lemma {:induction false} SplitAfterFirst(a: string, sep: char, b: string)
    requires sep !in a
    ensures Split(a + [sep] + b, sep) == [a] + Split(b, sep)
  {
    if a == [] {
      assert a + [sep] + b == [sep] + b;
      assert ([sep] + b)[1..] == b;
    } else {
      assert (a + [sep] + b)[1..] == a[1..] + [sep] + b;
      SplitAfterFirst(a[1..], sep, b);
      assert a == [a[0]] + a[1..];
    }
  }

  /** A text without the separator is a single piece. */
  lemma {:induction false} SplitWithoutSeparator(s: string, sep: char)
    requires sep !in s
    ensures Split(s, sep) == [s]
  {
    if s != [] {
      SplitWithoutSeparator(s[1..], sep);
      assert s == [s[0]] + s[1..];
    }
  }

  // ---- toLowerCase (ASCII) ----

  function LowerChar(c: char): char {
    if 'A' <= c <= 'Z' then (c as int + 32) as char else c
  }

  predicate IsUpper(c: char) {
    'A' <= c <= 'Z'
  }

  function ToLower(s: string): string {
    seq(|s|, i requires 0 <= i < |s| => LowerChar(s[i]))
  }

  // ---- trim ----

  /** The characters String.prototype.trim removes: ECMAScript WhiteSpace and LineTerminator. */
  predicate IsSpace(c: char) {
    c == '\t' || c == '\n' || c == '\U{B}' || c == '\U{C}' || c == '\r' || c == ' '
    || c == '\U{A0}' || c == '\U{1680}' || ('\U{2000}' <= c <= '\U{200A}')
    || c == '\U{2028}' || c == '\U{2029}' || c == '\U{202F}' || c == '\U{205F}'
    || c == '\U{3000}' || c == '\U{FEFF}'
  }

  /** Removes leading white space: the result is a suffix, and only white space was dropped. */
  function TrimStart(s: string): (r: string)
    ensures |r| <= |s| && r == s[|s| - |r|..]
    ensures r == [] || !IsSpace(r[0])
    ensures forall i :: 0 <= i < |s| - |r| ==> IsSpace(s[i])
  {
    if s != [] && IsSpace(s[0]) then TrimStart(s[1..]) else s
  }

  /** Removes trailing white space: the result is a prefix, and only white space was dropped. */
  function TrimEnd(s: string): (r: string)
    ensures |r| <= |s| && r == s[..|r|]
    ensures r == [] || !IsSpace(r[|r| - 1])
    ensures forall i :: |r| <= i < |s| ==> IsSpace(s[i])
  {
    if s != [] && IsSpace(s[|s| - 1]) then TrimEnd(s[..|s| - 1]) else s
  }

  /** Every character of a slice occurs in the whole. */
  lemma SliceMembers(s: string, k: nat, r: string)
    requires k + |r| <= |s| && r == s[k..k + |r|]
    ensures forall i :: 0 <= i < |r| ==> r[i] in s
  {
    forall i | 0 <= i < |r|
      ensures r[i] in s
    {
      assert r[i] == s[k + i];
    }
  }

  /** r is s[a..b], and only white space lies before a and from b on. */
  predicate SliceBetweenSpaces(s: string, r: string, a: int, b: int) {
    0 <= a <= b <= |s| && r == s[a..b]
    && (forall i :: 0 <= i < a ==> IsSpace(s[i]))
    && (forall i :: b <= i < |s| ==> IsSpace(s[i]))
  }

  /** A prefix of a suffix is a slice. */
  lemma SliceOfSuffix(s: string, t: string, r: string, a: nat)
    requires a <= |s| && t == s[a..] && |r| <= |t| && r == t[..|r|]
    ensures r == s[a..a + |r|]
  {
  }

  /** White space at the end of a suffix is white space at the end of the whole. */
  lemma SpacesAfter(s: string, t: string, a: nat, n: nat)
    requires a <= |s| && t == s[a..] && n <= |t|
    requires forall i :: n <= i < |t| ==> IsSpace(t[i])
    ensures forall i :: a + n <= i < |s| ==> IsSpace(s[i])
  {
    forall i | a + n <= i < |s|
      ensures IsSpace(s[i])
    {
      assert s[i] == t[i - a];
    }
  }

  /**
    Dropping white space from the start (leaving t) and then from the end
    (leaving r) leaves a slice between white space.
   */
  lemma TrimmedSlice(s: string, t: string, r: string)
    requires |t| <= |s| && t == s[|s| - |t|..] && forall i :: 0 <= i < |s| - |t| ==> IsSpace(s[i])
    requires |r| <= |t| && r == t[..|r|] && forall i :: |r| <= i < |t| ==> IsSpace(t[i])
    ensures SliceBetweenSpaces(s, r, |s| - |t|, |s| - |t| + |r|)
  {
    var a := |s| - |t|;
    SliceOfSuffix(s, t, r, a);
    SpacesAfter(s, t, a, |r|);
  }

  /**
    String.prototype.trim: the input without the white space at either end,
    a slice of it with no white space at its edges.
   */
  function Trim(s: string): (r: string)
    ensures |r| <= |s|
    ensures forall i :: 0 <= i < |r| ==> r[i] in s
    ensures r == [] || (!IsSpace(r[0]) && !IsSpace(r[|r| - 1]))
    ensures exists a, b :: SliceBetweenSpaces(s, r, a, b)
  {
    var t := TrimStart(s);
    var r := TrimEnd(t);
    assert r != [] ==> r[0] == t[0];
    SliceMembers(s, |s| - |t|, r);
    TrimmedSlice(s, t, r);
    r
  }

  /** Trimming twice is trimming once. */
  lemma TrimIdempotent(s: string)
    ensures Trim(Trim(s)) == Trim(s)
  {
    var r := Trim(s);
    assert TrimStart(r) == r;
    assert TrimEnd(r) == r;
  }

  lemma LowerKeepsSpace(c: char)
    ensures IsSpace(LowerChar(c)) <==> IsSpace(c)
  {
  }

  lemma {:induction false} LowerTrimStart(s: string)
    ensures ToLower(TrimStart(s)) == TrimStart(ToLower(s))
  {
    if s != [] {
      LowerKeepsSpace(s[0]);
      assert ToLower(s)[1..] == ToLower(s[1..]);
      LowerTrimStart(s[1..]);
    }
  }

  lemma {:induction false} LowerTrimEnd(s: string)
    ensures ToLower(TrimEnd(s)) == TrimEnd(ToLower(s))
  {
    if s != [] {
      LowerKeepsSpace(s[|s| - 1]);
      assert ToLower(s)[..|s| - 1] == ToLower(s[..|s| - 1]);
      LowerTrimEnd(s[..|s| - 1]);
    }
  }

  /** Lower-casing and trimming commute, because lower-casing maps white space to white space. */
  lemma LowerTrim(s: string)
    ensures ToLower(Trim(s)) == Trim(ToLower(s))
  {
    LowerTrimStart(s);
    LowerTrimEnd(TrimStart(s));
  }

  lemma LowerIdempotent(s: string)
    ensures ToLower(ToLower(s)) == ToLower(s)
  {
  }

  // ---- decimal text of an integer ----

  function DigitChar(d: nat): char
    requires d < 10
  {
    ('0' as int + d) as char
  }

  /** The decimal text of a natural number, as JavaScript prints an integer below 10^21. */
  function NatText(n: nat): string
    decreases n
  {
    if n < 10 then [DigitChar(n)] else NatText(n / 10) + [DigitChar(n % 10)]
  }

  /** The decimal text of an integer: a minus sign, then the digits of its magnitude. */
  function IntText(n: int): string {
    if n < 0 then "-" + NatText(-n) else NatText(n)
  }

  /** The most significant decimal digit of `n`. */
  function LeadingDigit(n: nat): (d: nat)
    ensures d < 10
  {
    if n < 10 then n else LeadingDigit(n / 10)
  }

  /** The decimal text of `n` is never empty and begins with its leading digit. */
  lemma {:induction false} NatTextStart(n: nat)
    ensures |NatText(n)| > 0 && NatText(n)[0] == DigitChar(LeadingDigit(n))
    decreases n
  {
    if n >= 10 {
      NatTextStart(n / 10);
    }
  }
}
