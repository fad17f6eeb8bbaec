/** The JavaScript string operations the application relies on, over `string`
    (a sequence of Unicode characters): `trim`, `startsWith`, `indexOf`,
    `replace` with a string pattern (first occurrence only), `split` / `join`
    on a one-character separator, and ASCII case mapping. */
module Text {

  /** Characters `String.prototype.trim` removes: the ECMAScript WhiteSpace
      set (TAB, VT, FF, SP, NBSP, ZWNBSP and every Zs character) and the
      LineTerminator set (LF, CR, LS, PS). */
  predicate IsJsWhitespace(c: char) {
    || c == '\t' || c == '\n' || c == '\U{0B}' || c == '\U{0C}' || c == '\r'
    || c == ' ' || c == '\U{A0}' || c == '\U{1680}'
    || ('\U{2000}' <= c <= '\U{200A}')
    || c == '\U{2028}' || c == '\U{2029}' || c == '\U{202F}' || c == '\U{205F}'
    || c == '\U{3000}' || c == '\U{FEFF}'
  }

  /** Every character is whitespace (so `s.trim()` is empty and falsy). */
  predicate IsBlank(s: string) {
    forall i :: 0 <= i < |s| ==> IsJsWhitespace(s[i])
  }

  function TrimStart(s: string): (r: string)
    ensures |r| <= |s| && r == s[|s| - |r|..]
    ensures IsBlank(s[..|s| - |r|])
    ensures |r| > 0 ==> !IsJsWhitespace(r[0])
  {
    if |s| > 0 && IsJsWhitespace(s[0]) then TrimStart(s[1..]) else s
  }

  function TrimEnd(s: string): (r: string)
    ensures |r| <= |s| && r == s[..|r|]
    ensures IsBlank(s[|r|..])
    ensures |r| > 0 ==> !IsJsWhitespace(r[|r| - 1])
  {
    if |s| > 0 && IsJsWhitespace(s[|s| - 1]) then TrimEnd(s[..|s| - 1]) else s
  }

  /** `s.trim()`: the maximal infix with no whitespace at either end. */
  function Trim(s: string): string {
    TrimEnd(TrimStart(s))
  }

  lemma {:induction false} TrimEndEmptyIffBlank(s: string)
    ensures TrimEnd(s) == "" <==> IsBlank(s)
    decreases |s|
  {
    if |s| > 0 {
      var n := |s| - 1;
      if IsJsWhitespace(s[n]) {
        var t := s[..n];
        TrimEndEmptyIffBlank(t);
        assert IsBlank(s) <==> IsBlank(t) by {
          if IsBlank(t) {
            forall i | 0 <= i < |s| ensures IsJsWhitespace(s[i]) {
              if i < n { assert s[i] == t[i]; }
            }
          }
          if IsBlank(s) {
            forall i | 0 <= i < |t| ensures IsJsWhitespace(t[i]) { assert t[i] == s[i]; }
          }
        }
      } else {
        assert !IsBlank(s) by { assert !IsJsWhitespace(s[n]); }
      }
    }
  }

  lemma {:induction false} TrimStartKeepsBlank(s: string)
    ensures IsBlank(TrimStart(s)) <==> IsBlank(s)
    decreases |s|
  {
    if |s| > 0 && IsJsWhitespace(s[0]) {
      var t := s[1..];
      TrimStartKeepsBlank(t);
      assert IsBlank(s) <==> IsBlank(t) by {
        if IsBlank(t) {
          forall i | 0 <= i < |s| ensures IsJsWhitespace(s[i]) {
            if i > 0 { assert s[i] == t[i - 1]; }
          }
        }
        if IsBlank(s) {
          forall i | 0 <= i < |t| ensures IsJsWhitespace(t[i]) { assert t[i] == s[i + 1]; }
        }
      }
    }
  }

  /** `s.trim()` is the empty string exactly when `s` is blank. */
  lemma TrimEmptyIffBlank(s: string)
    ensures Trim(s) == "" <==> IsBlank(s)
  {
    TrimStartKeepsBlank(s);
    TrimEndEmptyIffBlank(TrimStart(s));
  }

  function StartsWith(s: string, prefix: string): bool {
    |prefix| <= |s| && s[..|prefix|] == prefix
  }

  /** `p` occurs in `s` starting at index `i`. */
  predicate OccursAt(s: string, p: string, i: int) {
    0 <= i && i + |p| <= |s| && s[i..i + |p|] == p
  }

  /** The first index at or after `from` where `p` occurs, or -1. */
  function IndexFrom(s: string, p: string, from: nat): (r: int)
    ensures r == -1 || (from <= r && OccursAt(s, p, r))
    ensures forall j :: from <= j && (r < 0 || j < r) ==> !OccursAt(s, p, j)
    decreases |s| - from
  {
    if from + |p| > |s| then -1
    else if s[from..from + |p|] == p then from
    else IndexFrom(s, p, from + 1)
  }

  /** `s.indexOf(p)`: the first index where `p` occurs, or -1. */
  function IndexOf(s: string, p: string): (r: int)
    ensures r == -1 || OccursAt(s, p, r)
    ensures forall j :: 0 <= j && (r < 0 || j < r) ==> !OccursAt(s, p, j)
  {
    IndexFrom(s, p, 0)
  }

  /** `s.replace(p, rep)` with a string pattern: only the first occurrence of
      `p` is replaced (an empty `p` occurs at index 0); no `$` patterns occur
      in the replacement strings this model uses. */
  function ReplaceFirst(s: string, p: string, rep: string): (r: string)
    ensures IndexOf(s, p) < 0 ==> r == s
    ensures IndexOf(s, p) >= 0 ==>
      var i := IndexOf(s, p);
      r == s[..i] + rep + s[i + |p|..]
  {
    var i := IndexOf(s, p);
    if i < 0 then s else s[..i] + rep + s[i + |p|..]
  }

  /** `s.replace(/c/g, rep)` for a single character `c`. */
  function ReplaceEveryChar(s: string, c: char, rep: string): (r: string)
    ensures c !in s ==> r == s
  {
    if |s| == 0 then ""
    else
      (if s[0] == c then rep else [s[0]]) + ReplaceEveryChar(s[1..], c, rep)
  }

  /** The replacement works character by character: each `c` alone becomes
      `rep`, any other character stays, and replacing in a concatenation is
      concatenating the replacements. */
  lemma ReplaceEveryCharUnits(c: char, d: char, rep: string)
    requires d != c
    ensures ReplaceEveryChar([c], c, rep) == rep
    ensures ReplaceEveryChar([d], c, rep) == [d]
  {
    assert [c][1..] == [];
    assert [d][1..] == [];
    assert rep + [] == rep;
  }

  lemma {:induction false} ReplaceEveryCharAppend(a: string, b: string, c: char, rep: string)
    ensures ReplaceEveryChar(a + b, c, rep) == ReplaceEveryChar(a, c, rep) + ReplaceEveryChar(b, c, rep)
    decreases |a|
  {
    if |a| == 0 {
      assert a + b == b;
    } else {
      assert (a + b)[0] == a[0] && (a + b)[1..] == a[1..] + b;
      ReplaceEveryCharAppend(a[1..], b, c, rep);
    }
  }

  /** `s.split(sep)` for a one-character separator: the pieces between
      separators, always at least one (`"".split(":")` is `[""]`). */
  function Split(s: string, sep: char): (r: seq<string>)
    ensures |r| >= 1
    ensures forall k :: 0 <= k < |r| ==> sep !in r[k]
  {
    if |s| == 0 then [""]
    else
      var rest := Split(s[1..], sep);
      if s[0] == sep then [""] + rest
      else [[s[0]] + rest[0]] + rest[1..]
  }

  /** `parts.join(sep)`. */
  function Join(parts: seq<string>, sep: char): string {
    if |parts| == 0 then ""
    else if |parts| == 1 then parts[0]
    else parts[0] + [sep] + Join(parts[1..], sep)
  }

  /** Splitting and re-joining on the same separator gives the string back. */
  lemma {:induction false} JoinSplit(s: string, sep: char)
    ensures Join(Split(s, sep), sep) == s
  {
    if |s| > 0 {
      var rest := Split(s[1..], sep);
      JoinSplit(s[1..], sep);
      if s[0] != sep {
        if |rest| > 1 {
          assert rest == [rest[0]] + rest[1..];
          assert Join(rest, sep) == rest[0] + [sep] + Join(rest[1..], sep);
          assert Split(s, sep)[1..] == rest[1..];
        }
        assert s == [s[0]] + s[1..];
      } else {
        assert Split(s, sep)[1..] == rest;
        assert s == [s[0]] + s[1..];
      }
    }
  }

  /** A string splits into a single piece exactly when it holds no separator. */
  lemma {:induction false} SplitSingleIffNoSep(s: string, sep: char)
    ensures |Split(s, sep)| == 1 <==> sep !in s
  {
    if |s| > 0 {
      SplitSingleIffNoSep(s[1..], sep);
      assert s == [s[0]] + s[1..];
    }
  }

  /** ASCII upper-casing of one character; every other character is kept. */
  function UpperChar(c: char): char {
    if 'a' <= c <= 'z' then (c as int - 'a' as int + 'A' as int) as char else c
  }

  /** ASCII lower-casing of one character; every other character is kept. */
  function LowerChar(c: char): char {
    if 'A' <= c <= 'Z' then (c as int - 'A' as int + 'a' as int) as char else c
  }

  function ToUpperAscii(s: string): (r: string)
    ensures |r| == |s|
    ensures forall i :: 0 <= i < |s| ==> r[i] == UpperChar(s[i])
  {
    if |s| == 0 then "" else [UpperChar(s[0])] + ToUpperAscii(s[1..])
  }

  /** Upper-casing works character by character, so it distributes over
      concatenation. */
  lemma ToUpperAsciiAppend(a: string, b: string)
    ensures ToUpperAscii(a + b) == ToUpperAscii(a) + ToUpperAscii(b)
  {
    var l, r := ToUpperAscii(a + b), ToUpperAscii(a) + ToUpperAscii(b);
    forall i | 0 <= i < |l| ensures l[i] == r[i] {
      if i < |a| { assert (a + b)[i] == a[i]; } else { assert (a + b)[i] == b[i - |a|]; }
    }
  }

  function ToLowerAscii(s: string): (r: string)
    ensures |r| == |s|
    ensures forall i :: 0 <= i < |s| ==> r[i] == LowerChar(s[i])
  {
    if |s| == 0 then "" else [LowerChar(s[0])] + ToLowerAscii(s[1..])
  }
}
