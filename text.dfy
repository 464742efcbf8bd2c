/** The string operations of Python's `str` that the endpoints rely on:
    `lower()`, `upper()`, `split(sep)` and `sep.join(parts)`. Case mapping
    covers the ASCII letters. */
module Text {

  function LowerChar(c: char): (d: char)
    ensures 'A' <= c <= 'Z' ==> 'a' <= d <= 'z' && d as int - 'a' as int == c as int - 'A' as int
    ensures !('A' <= c <= 'Z') ==> d == c
  {
    if 'A' <= c <= 'Z' then (c as int - 'A' as int + 'a' as int) as char else c
  }

  function UpperChar(c: char): (d: char)
    ensures 'a' <= c <= 'z' ==> 'A' <= d <= 'Z' && d as int - 'A' as int == c as int - 'a' as int
    ensures !('a' <= c <= 'z') ==> d == c
  {
    if 'a' <= c <= 'z' then (c as int - 'a' as int + 'A' as int) as char else c
  }

  /** `s.lower()`: the same length, every letter mapped to lower case. */
  function Lower(s: string): (r: string)
    ensures |r| == |s|
    ensures forall i :: 0 <= i < |s| ==> r[i] == LowerChar(s[i])
  {
    if s == [] then [] else [LowerChar(s[0])] + Lower(s[1..])
  }

  /** `s.upper()`: the same length, every letter mapped to upper case. */
  function Upper(s: string): (r: string)
    ensures |r| == |s|
    ensures forall i :: 0 <= i < |s| ==> r[i] == UpperChar(s[i])
  {
    if s == [] then [] else [UpperChar(s[0])] + Upper(s[1..])
  }

  /** Lower-casing twice is lower-casing once. */
  lemma {:induction false} LowerIdempotent(s: string)
    ensures Lower(Lower(s)) == Lower(s)
  {
    if s != [] {
      LowerIdempotent(s[1..]);
      assert Lower(s)[1..] == Lower(s[1..]);
    }
  }

  /** Two strings that differ only in the case of their letters lower-case alike. */
  lemma {:induction false} LowerIgnoresCase(s: string, t: string)
    requires |s| == |t|
    requires forall i :: 0 <= i < |s| ==> LowerChar(s[i]) == LowerChar(t[i])
    ensures Lower(s) == Lower(t)
  {
    if s != [] {
      LowerIgnoresCase(s[1..], t[1..]);
    }
  }

  /** Upper-casing forgets how a string was cased before. */
  lemma {:induction false} UpperOfLower(s: string)
    ensures Upper(Lower(s)) == Upper(s)
  {
    if s != [] {
      UpperOfLower(s[1..]);
      assert Lower(s)[1..] == Lower(s[1..]);
    }
  }

  /** `sep.join(parts)` for a non-empty list of parts. */
  function Join(parts: seq<string>, sep: char): string
    requires |parts| >= 1
  {
    if |parts| == 1 then parts[0] else parts[0] + [sep] + Join(parts[1..], sep)
  }

  /** `s.split(sep)` for a one-character separator: at least one part, no part
      holds the separator, and joining the parts gives `s` back. */
  function Split(s: string, sep: char): (parts: seq<string>)
    ensures |parts| >= 1
    ensures forall k :: 0 <= k < |parts| ==> sep !in parts[k]
    ensures Join(parts, sep) == s
  {
    if s == [] then [""]
    else
      var rest := Split(s[1..], sep);
      if s[0] == sep then [""] + rest
      else [[s[0]] + rest[0]] + rest[1..]
  }

  /** `s.split(sep)[-1]`: the text after the last separator. */
  function LastPiece(s: string, sep: char): string {
    var parts := Split(s, sep);
    parts[|parts| - 1]
  }

  /** `r` is the longest suffix of `s` free of `sep`: either all of `s`, or
      the text right after an occurrence of `sep`. */
  ghost predicate IsTailAfterLast(r: string, s: string, sep: char) {
    && |r| <= |s|
    && r == s[|s| - |r|..]
    && sep !in r
    && (|r| < |s| ==> s[|s| - |r| - 1] == sep)
  }

  /** A suffix of `s` longer than the tail after the last separator holds
      that separator. */
  lemma LongerSuffixHoldsSep(r: string, longer: string, s: string, sep: char)
    requires IsTailAfterLast(r, s, sep)
    requires |longer| <= |s| && longer == s[|s| - |longer|..]
    ensures |r| < |longer| ==> sep in longer
  {
    if |r| < |longer| {
      assert longer[|longer| - |r| - 1] == s[|s| - |r| - 1];
    }
  }

  /** Only one suffix is the tail after the last separator. */
  lemma TailAfterLastUnique(r1: string, r2: string, s: string, sep: char)
    requires IsTailAfterLast(r1, s, sep) && IsTailAfterLast(r2, s, sep)
    ensures r1 == r2
  {
    LongerSuffixHoldsSep(r1, r2, s, sep);
    LongerSuffixHoldsSep(r2, r1, s, sep);
  }

  /** The last part of a split is the tail after the last separator. */
  lemma {:induction false} LastPieceIsTail(s: string, sep: char)
    ensures IsTailAfterLast(LastPiece(s, sep), s, sep)
  {
    if s != [] {
      LastPieceIsTail(s[1..], sep);
      var rest := Split(s[1..], sep);
      var parts := Split(s, sep);
      if s[0] == sep {
        assert parts == [""] + rest;
        assert parts[|parts| - 1] == rest[|rest| - 1];
      } else {
        assert parts == [[s[0]] + rest[0]] + rest[1..];
        if |rest| > 1 {
          assert parts[|parts| - 1] == rest[|rest| - 1];
        } else {
          assert parts == [[s[0]] + rest[0]];
          assert rest[0] == Join(rest, sep) == s[1..];
          assert parts[0] == s;
        }
      }
    }
  }

  /** Whatever precedes the last separator, the last piece is what follows it. */
  lemma LastPieceAfter(prefix: string, sep: char, tail: string)
    requires sep !in tail
    ensures LastPiece(prefix + [sep] + tail, sep) == tail
  {
    var s := prefix + [sep] + tail;
    LastPieceIsTail(s, sep);
    assert s[|s| - |tail|..] == tail;
    assert s[|s| - |tail| - 1] == sep;
    TailAfterLastUnique(LastPiece(s, sep), tail, s, sep);
  }
}
