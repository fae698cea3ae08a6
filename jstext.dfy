/**
 * The JavaScript string primitives the components rely on: `toLowerCase`,
 * `toUpperCase`, `trim` (only its emptiness is ever tested), `includes` and
 * `split` on a one-character separator.  Strings are sequences of characters.
 */
module JsText {

  // ---------------------------------------------------------------- case

  /** `toLowerCase` on one character (ASCII letters only). */
  function LowerChar(c: char): (r: char)
    ensures 'A' <= c <= 'Z' ==> r as int == c as int + 32
    ensures !('A' <= c <= 'Z') ==> r == c
  {
    if 'A' <= c <= 'Z' then (c as int + 32) as char else c
  }

  /** `toUpperCase` on one character (ASCII letters only). */
  function UpperChar(c: char): (r: char)
    ensures 'a' <= c <= 'z' ==> r as int == c as int - 32
    ensures !('a' <= c <= 'z') ==> r == c
  {
    if 'a' <= c <= 'z' then (c as int - 32) as char else c
  }

  /** `s.toLowerCase()`: same length, every letter folded to lower case. */
  function ToLower(s: string): (r: string)
    ensures |r| == |s|
    ensures forall i :: 0 <= i < |s| ==> r[i] == LowerChar(s[i])
  {
    if s == [] then [] else [LowerChar(s[0])] + ToLower(s[1..])
  }

  /** `s.toUpperCase()`: same length, every letter raised to upper case. */
  function ToUpper(s: string): (r: string)
    ensures |r| == |s|
    ensures forall i :: 0 <= i < |s| ==> r[i] == UpperChar(s[i])
  {
    if s == [] then [] else [UpperChar(s[0])] + ToUpper(s[1..])
  }

  /** Lower-casing twice is lower-casing once. */
  lemma {:induction false} ToLowerIdempotent(s: string)
    ensures ToLower(ToLower(s)) == ToLower(s)
  {
    if s != [] {
      ToLowerIdempotent(s[1..]);
    }
  }

  // ---------------------------------------------------------------- trim

  /**
   * The characters `String.prototype.trim` strips: the ECMAScript WhiteSpace
   * and LineTerminator code points.
   */
  predicate IsJsWhitespace(c: char)
  {
    c == '\t' || c == '\n' || c == '\U{000B}' || c == '\U{000C}' || c == '\r' || c == ' '
    || c == '\U{00A0}' || c == '\U{1680}' || ('\U{2000}' <= c <= '\U{200A}')
    || c == '\U{2028}' || c == '\U{2029}' || c == '\U{202F}' || c == '\U{205F}'
    || c == '\U{3000}' || c == '\U{FEFF}'
  }

  /** `s.trimStart()`: drop the leading white space. */
  function TrimStart(s: string): string
  {
    if s != [] && IsJsWhitespace(s[0]) then TrimStart(s[1..]) else s
  }

  /** `s.trimEnd()`: drop the trailing white space. */
  function TrimEnd(s: string): string
  {
    if s != [] && IsJsWhitespace(s[|s| - 1]) then TrimEnd(s[..|s| - 1]) else s
  }

  /** `s.trim()`: white space stripped from both ends. */
  function Trim(s: string): string
  {
    TrimEnd(TrimStart(s))
  }

  /** Stripping the leading white space leaves nothing exactly when every character is white space. */
  lemma {:induction false} TrimStartEmpty(s: string)
    ensures TrimStart(s) == [] <==> forall i :: 0 <= i < |s| ==> IsJsWhitespace(s[i])
  {
    if s != [] && IsJsWhitespace(s[0]) {
      TrimStartEmpty(s[1..]);
      assert forall i :: 1 <= i < |s| ==> s[i] == s[1..][i - 1];
    }
  }

  /** Leading white space is stripped up to a character that is not white space, if any. */
  lemma {:induction false} TrimStartStopsAtText(s: string)
    ensures TrimStart(s) != [] ==> !IsJsWhitespace(TrimStart(s)[0])
  {
    if s != [] && IsJsWhitespace(s[0]) {
      TrimStartStopsAtText(s[1..]);
    }
  }

  /** Trailing white space is never stripped past a first character that is not white space. */
  lemma {:induction false} TrimEndKeepsHead(s: string)
    ensures s != [] && !IsJsWhitespace(s[0]) ==> TrimEnd(s) != []
  {
    if s != [] && !IsJsWhitespace(s[0]) && IsJsWhitespace(s[|s| - 1]) && |s| > 1 {
      assert s[..|s| - 1][0] == s[0];
      TrimEndKeepsHead(s[..|s| - 1]);
    }
  }

  /** `!s.trim()`: every character is white space. */
  predicate IsBlank(s: string)
  {
    forall i :: 0 <= i < |s| ==> IsJsWhitespace(s[i])
  }

  /** A string is blank exactly when trimming it from both ends leaves the empty string. */
  lemma BlankIffTrimmedEmpty(s: string)
    ensures IsBlank(s) <==> Trim(s) == ""
  {
    TrimStartEmpty(s);
    TrimStartStopsAtText(s);
    TrimEndKeepsHead(TrimStart(s));
  }

  // ---------------------------------------------------------------- includes

  /** `sub` occurs in `s` starting at offset `i`. */
  predicate OccursAt(s: string, sub: string, i: nat)
  {
    i + |sub| <= |s| && s[i..i + |sub|] == sub
  }

  /** A left-to-right scan for `sub` that tries the offsets `i`, `i + 1`, ... in turn. */
  predicate ScanFrom(s: string, sub: string, i: nat)
    requires i <= |s|
    decreases |s| - i
  {
    OccursAt(s, sub, i) || (i < |s| && ScanFrom(s, sub, i + 1))
  }

  /** The scan from `i` succeeds exactly when `sub` occurs at some offset from `i` on. */
  lemma {:induction false} ScanFromFinds(s: string, sub: string, i: nat)
    requires i <= |s|
    ensures ScanFrom(s, sub, i) <==> exists j: nat | i <= j <= |s| :: OccursAt(s, sub, j)
    decreases |s| - i
  {
    if i < |s| {
      ScanFromFinds(s, sub, i + 1);
    }
  }

  /** `s.includes(sub)`: `sub` occurs in `s` at some offset. */
  predicate Includes(s: string, sub: string)
  {
    exists i: nat | i <= |s| :: OccursAt(s, sub, i)
  }

  /**
   * `includes` holds exactly when the scan from offset 0 finds `sub`; an
   * included string is never longer than the string holding it.
   */
  lemma IncludesIffScan(s: string, sub: string)
    ensures Includes(s, sub) <==> ScanFrom(s, sub, 0)
    ensures Includes(s, sub) ==> |sub| <= |s|
  {
    ScanFromFinds(s, sub, 0);
  }

  // ---------------------------------------------------------------- split / join

  /** Number of occurrences of `c` in `s`. */
  function Count(s: string, c: char): nat
  {
    if s == [] then 0 else (if s[0] == c then 1 else 0) + Count(s[1..], c)
  }

  /** A character occurs nowhere exactly when its count is zero. */
  lemma {:induction false} CountZero(s: string, c: char)
    ensures Count(s, c) == 0 <==> c !in s
  {
    if s != [] {
      CountZero(s[1..], c);
      assert s == [s[0]] + s[1..];
    }
  }

  /**
   * `s.split(sep)` for a one-character separator: the maximal separator-free
   * pieces between separators, keeping empty pieces; `"".split(sep)` is `[""]`.
   */
  function Split(s: string, sep: char): (parts: seq<string>)
    ensures |parts| >= 1
    ensures forall i :: 0 <= i < |parts| ==> sep !in parts[i]
  {
    if s == [] then [""]
    else
      var rest := Split(s[1..], sep);
      if s[0] == sep then [""] + rest
      else [[s[0]] + rest[0]] + rest[1..]
  }

  /** `parts.join(sep)`. */
  function Join(parts: seq<string>, sep: char): string
    requires |parts| >= 1
  {
    if |parts| == 1 then parts[0] else parts[0] + [sep] + Join(parts[1..], sep)
  }

  /** Splitting and re-joining on the same separator gives the original string back. */
  lemma {:induction false} JoinSplit(s: string, sep: char)
    ensures Join(Split(s, sep), sep) == s
  {
    if s != [] {
      JoinSplit(s[1..], sep);
      var rest := Split(s[1..], sep);
      if s[0] == sep {
        assert Split(s, sep)[1..] == rest;
      } else {
        var parts := Split(s, sep);
        if |rest| == 1 {
          assert parts == [[s[0]] + rest[0]];
        } else {
          assert parts[1..] == rest[1..];
          assert Join(rest, sep) == rest[0] + [sep] + Join(rest[1..], sep);
        }
      }
    }
  }

  /** `split` yields one more piece than there are separators. */
  lemma {:induction false} SplitLength(s: string, sep: char)
    ensures |Split(s, sep)| == Count(s, sep) + 1
  {
    if s != [] {
      SplitLength(s[1..], sep);
    }
  }

  /** A string that holds no separator splits into itself alone. */
  lemma {:induction false} SplitWithoutSeparator(s: string, sep: char)
    requires sep !in s
    ensures Split(s, sep) == [s]
  {
    if s != [] {
      assert sep !in s[1..];
      SplitWithoutSeparator(s[1..], sep);
      assert [s[0]] + s[1..] == s;
    }
  }

  /** A separator-free piece followed by the separator splits off as the first part. */
  lemma {:induction false} SplitAfterPiece(a: string, rest: string, sep: char)
    requires sep !in a
    ensures Split(a + [sep] + rest, sep) == [a] + Split(rest, sep)
  {
    if a == [] {
      assert a + [sep] + rest == [sep] + rest;
      assert ([sep] + rest)[1..] == rest;
    } else {
      assert (a + [sep] + rest)[1..] == a[1..] + [sep] + rest;
      SplitAfterPiece(a[1..], rest, sep);
      assert [a[0]] + a[1..] == a;
    }
  }

  /** A string holding the separator splits into at least two pieces. */
  lemma {:induction false} SplitWithSeparator(s: string, sep: char)
    requires sep in s
    ensures |Split(s, sep)| >= 2
  {
    if s[0] != sep {
      assert sep in s[1..];
      SplitWithSeparator(s[1..], sep);
    }
  }
}
