/**
 * Character classes and string operations that the Python backend and the
 * JavaScript front end use as built-ins: lower-casing, `in` / `includes`,
 * `strip` / `trim`, `split(sep)`, `sep.join(...)` and `split()` on whitespace.
 * Strings are sequences of Unicode scalar values, as Python's `str` is.
 */
module Text {

  // ---------------------------------------------------------------- characters

  /** `\d` of both regular-expression engines, restricted to ASCII digits. */
  predicate IsAsciiDigit(c: char) {
    '0' <= c <= '9'
  }

  /** The characters Python's `str.isspace`, `strip()`, `split()` and `\s` treat as whitespace. */
  predicate IsPyWhitespace(c: char) {
    ('\t' <= c <= '\r') || ('\U{001C}' <= c <= '\U{001F}') || c == ' ' || c == '\U{0085}'
    || c == '\U{00A0}' || c == '\U{1680}' || ('\U{2000}' <= c <= '\U{200A}') || c == '\U{2028}'
    || c == '\U{2029}' || c == '\U{202F}' || c == '\U{205F}' || c == '\U{3000}'
  }

  /** The characters JavaScript's `String.prototype.trim` and `\s` treat as white space or line terminators. */
  predicate IsJsWhitespace(c: char) {
    ('\t' <= c <= '\r') || c == ' ' || c == '\U{00A0}' || c == '\U{1680}' || ('\U{2000}' <= c <= '\U{200A}')
    || c == '\U{2028}' || c == '\U{2029}' || c == '\U{202F}' || c == '\U{205F}' || c == '\U{3000}'
    || c == '\U{FEFF}'
  }

  /**
   * Word characters for `\b`: ASCII letters, digits and `_`, and the letters of the
   * Latin blocks that Vietnamese text is written in.
   */
  predicate IsWordChar(c: char) {
    ('a' <= c <= 'z') || ('A' <= c <= 'Z') || IsAsciiDigit(c) || c == '_'
    || ('\U{00C0}' <= c <= '\U{024F}' && c != '\U{00D7}' && c != '\U{00F7}')
    || ('\U{1E00}' <= c <= '\U{1EFF}')
  }

  /**
   * Lower-casing of one character: ASCII, Latin-1, the Latin Extended-A pairs used by
   * Vietnamese (Ă, Đ, Ĩ, Ũ, ...), Ơ, Ư and the Latin Extended Additional letters that
   * carry Vietnamese tone marks. `İ` (U+0130) lowers to two characters in both languages, so it
   * is left as it is here, with every other character outside these ranges.
   */
  function LowerChar(c: char): char {
    if 'A' <= c <= 'Z' then (c as int + 32) as char
    else if '\U{00C0}' <= c <= '\U{00DE}' && c != '\U{00D7}' then (c as int + 32) as char
    else if (('\U{0100}' <= c <= '\U{0137}') || ('\U{014A}' <= c <= '\U{0177}')) && c as int % 2 == 0 && c != '\U{0130}' then
      (c as int + 1) as char
    else if c == '\U{01A0}' || c == '\U{01AF}' then (c as int + 1) as char
    else if (('\U{1E00}' <= c <= '\U{1E95}') || ('\U{1EA0}' <= c <= '\U{1EFF}')) && c as int % 2 == 0 then
      (c as int + 1) as char
    else c
  }

  /** Lower-casing fixes digits, white space and `?`, and makes no digit out of another character. */
  lemma LowerCharFixes(c: char)
    ensures IsAsciiDigit(c) <==> IsAsciiDigit(LowerChar(c))
    ensures IsAsciiDigit(c) || IsPyWhitespace(c) || IsJsWhitespace(c) || c == '?' ==> LowerChar(c) == c
  {
  }

  /** Python's `str.lower()` and JavaScript's `toLowerCase()`, character by character. */
  function Lower(s: string): (r: string)
    ensures |r| == |s|
    ensures forall i :: 0 <= i < |s| ==> r[i] == LowerChar(s[i])
  {
    if s == [] then [] else [LowerChar(s[0])] + Lower(s[1..])
  }

  /** A string is lower-case when lower-casing leaves each of its characters alone. */
  predicate IsLowerCase(s: string) {
    forall i :: 0 <= i < |s| ==> LowerChar(s[i]) == s[i]
  }

  /** Lower-case strings stay lower-case when concatenated. */
  lemma LowerCaseAppend(a: string, b: string)
    requires IsLowerCase(a) && IsLowerCase(b)
    ensures IsLowerCase(a + b)
  {
    forall i | 0 <= i < |a + b| ensures LowerChar((a + b)[i]) == (a + b)[i] {
      if i < |a| {
        assert (a + b)[i] == a[i];
      } else {
        assert (a + b)[i] == b[i - |a|];
      }
    }
  }

  /** Lower-casing leaves a lower-case string unchanged. */
  lemma LowerOfLowerCase(s: string)
    requires IsLowerCase(s)
    ensures Lower(s) == s
  {
  }

  // ---------------------------------------------------------------- substrings

  /** Python's `p in s` and JavaScript's `s.includes(p)`. */
  predicate Contains(s: string, p: string) {
    exists i :: 0 <= i <= |s| && p <= s[i..]
  }

  /** `any(p in s for p in ps)`. */
  predicate ContainsAny(s: string, ps: seq<string>) {
    exists k :: 0 <= k < |ps| && Contains(s, ps[k])
  }

  /** `s.includes(a)` on its own, written as a list of one pattern. */
  lemma ContainsAnyOne(s: string, a: string)
    ensures ContainsAny(s, [a]) <==> Contains(s, a)
  {
    if Contains(s, a) {
      assert [a][0] == a;
    }
  }

  /** `s.includes(a) || s.includes(b)`, written as a list of two patterns. */
  lemma ContainsAnyTwo(s: string, a: string, b: string)
    ensures ContainsAny(s, [a, b]) <==> Contains(s, a) || Contains(s, b)
  {
    if Contains(s, a) {
      assert [a, b][0] == a;
    }
    if Contains(s, b) {
      assert [a, b][1] == b;
    }
  }

  /** A string that contains `p + q` contains `p`. */
  lemma ContainsPrefixOf(s: string, p: string, q: string)
    requires Contains(s, p + q)
    ensures Contains(s, p)
  {
    var i :| 0 <= i <= |s| && p + q <= s[i..];
    assert p <= s[i..];
  }

  /** A witness position establishes containment. */
  lemma ContainsAt(s: string, p: string, i: nat)
    requires i + |p| <= |s| && s[i..i + |p|] == p
    ensures Contains(s, p)
  {
    assert p <= s[i..];
  }

  /** A pattern whose first character does not occur in a text is not contained in it. */
  lemma FirstCharAbsent(s: string, p: string)
    requires p != [] && p[0] !in s
    ensures !Contains(s, p)
  {
    forall i | 0 <= i <= |s| ensures !(p <= s[i..]) {
      if i < |s| {
        assert s[i] in s;
      }
    }
  }

  /** A lower-case pattern found in a text is still found once the text is lower-cased. */
  lemma ContainsLowered(s: string, p: string)
    requires IsLowerCase(p)
    requires Contains(s, p)
    ensures Contains(Lower(s), p)
  {
    var i :| 0 <= i <= |s| && p <= s[i..];
    var l := Lower(s);
    forall j | 0 <= j < |p| ensures l[i + j] == p[j] {
      assert s[i + j] == p[j];
    }
    assert p <= l[i..];
  }

  /** Containment in a part of a concatenation carries over to the whole. */
  lemma ContainsInLonger(s: string, t: string, p: string)
    requires Contains(s, p)
    ensures Contains(s + t, p) && Contains(t + s, p)
  {
    var i :| 0 <= i <= |s| && p <= s[i..];
    assert (s + t)[i..i + |p|] == s[i..i + |p|];
    ContainsAt(s + t, p, i);
    assert (t + s)[|t| + i..|t| + i + |p|] == s[i..i + |p|];
    ContainsAt(t + s, p, |t| + i);
  }

  // ---------------------------------------------------------------- strip / trim

  /** Drops leading characters that satisfy `ws`. */
  function TrimLeft(s: string, ws: char -> bool): (r: string)
    ensures |r| <= |s| && r == s[|s| - |r|..]
    ensures r == [] || !ws(r[0])
    ensures forall i :: 0 <= i < |s| - |r| ==> ws(s[i])
  {
    if s != [] && ws(s[0]) then TrimLeft(s[1..], ws) else s
  }

  /** Drops trailing characters that satisfy `ws`. */
  function TrimRight(s: string, ws: char -> bool): (r: string)
    ensures |r| <= |s| && r == s[..|r|]
    ensures r == [] || !ws(r[|r| - 1])
    ensures forall i :: |r| <= i < |s| ==> ws(s[i])
  {
    if s != [] && ws(s[|s| - 1]) then TrimRight(s[..|s| - 1], ws) else s
  }

  /** Drops leading and trailing characters that satisfy `ws`. */
  function Trim(s: string, ws: char -> bool): string {
    TrimRight(TrimLeft(s, ws), ws)
  }

  /** Python's `str.strip()`. */
  function Strip(s: string): string {
    Trim(s, IsPyWhitespace)
  }

  /** JavaScript's `String.prototype.trim()`. */
  function JsTrim(s: string): string {
    Trim(s, IsJsWhitespace)
  }

  /** Python's truthiness of a string: only the empty string is falsy. */
  predicate Truthy(s: string) {
    s != []
  }

  /** A trimmed string has no trimmable character at either end. */
  lemma TrimEnds(s: string, ws: char -> bool)
    ensures var r := Trim(s, ws);
      r == [] || (!ws(r[0]) && !ws(r[|r| - 1]))
  {
    var l := TrimLeft(s, ws);
    var r := TrimRight(l, ws);
    if r != [] {
      assert r[0] == l[0];
    }
  }

  /** A trimmed string is a slice of the original, starting after the characters trimmed on the left. */
  lemma TrimSlice(s: string, ws: char -> bool) returns (a: nat)
    ensures var r := Trim(s, ws);
      a + |r| <= |s| && r == s[a..a + |r|]
  {
    var l := TrimLeft(s, ws);
    var r := TrimRight(l, ws);
    a := |s| - |l|;
    assert l == s[a..];
    assert s[a..][..|r|] == s[a..a + |r|];
  }

  /** A string made only of trimmable characters is trimmed away from the left. */
  lemma {:induction false} TrimLeftAllBlank(s: string, ws: char -> bool)
    requires forall i :: 0 <= i < |s| ==> ws(s[i])
    ensures TrimLeft(s, ws) == []
    decreases |s|
  {
    if s != [] {
      assert ws(s[0]);
      TrimLeftAllBlank(s[1..], ws);
    }
  }

  /** Trimming is empty exactly when every character is trimmable. */
  lemma TrimEmptyIff(s: string, ws: char -> bool)
    ensures Trim(s, ws) == [] <==> forall i :: 0 <= i < |s| ==> ws(s[i])
  {
    var l := TrimLeft(s, ws);
    if Trim(s, ws) == [] {
      forall i | 0 <= i < |s| ensures ws(s[i]) {
        if i >= |s| - |l| {
          assert s[i] == l[i - (|s| - |l|)];
        }
      }
    }
    if forall i :: 0 <= i < |s| ==> ws(s[i]) {
      TrimLeftAllBlank(s, ws);
    }
  }

  /** Trimming twice trims nothing more. */
  lemma TrimIdempotent(s: string, ws: char -> bool)
    ensures Trim(Trim(s, ws), ws) == Trim(s, ws)
  {
    var r := Trim(s, ws);
    TrimEnds(s, ws);
    assert TrimLeft(r, ws) == r;
    assert TrimRight(r, ws) == r;
  }

  // ---------------------------------------------------------------- split / join

  /** Python's `s.split(sep)` for a one-character separator: the pieces between separators. */
  function SplitOn(s: string, sep: char): (r: seq<string>)
    ensures |r| >= 1
    ensures forall k :: 0 <= k < |r| ==> sep !in r[k]
  {
    if s == [] then [""]
    else
      var rest := SplitOn(s[1..], sep);
      if s[0] == sep then [""] + rest else [[s[0]] + rest[0]] + rest[1..]
  }

  /** Python's `sep.join(parts)` for a one-character separator. */
  function JoinWith(parts: seq<string>, sep: char): string {
    if |parts| == 0 then ""
    else if |parts| == 1 then parts[0]
    else parts[0] + [sep] + JoinWith(parts[1..], sep)
  }

  /** Joining pieces that do not hold the separator, then splitting, gives the pieces back. */
  lemma {:induction false} SplitJoin(parts: seq<string>, sep: char)
    requires |parts| >= 1
    requires forall k :: 0 <= k < |parts| ==> sep !in parts[k]
    ensures SplitOn(JoinWith(parts, sep), sep) == parts
  {
    if |parts| == 1 {
      SplitNoSep(parts[0], sep);
    } else {
      SplitJoin(parts[1..], sep);
      SplitPrefix(parts[0], sep, JoinWith(parts[1..], sep));
      assert JoinWith(parts, sep) == parts[0] + ([sep] + JoinWith(parts[1..], sep));
      assert [parts[0]] + parts[1..] == parts;
    }
  }

  /** A string without the separator splits into itself. */
  lemma {:induction false} SplitNoSep(s: string, sep: char)
    requires sep !in s
    ensures SplitOn(s, sep) == [s]
  {
    if s != [] {
      SplitNoSep(s[1..], sep);
      assert [s[0]] + s[1..] == s;
    }
  }

  /** A separator-free prefix followed by a separator splits off as the first piece. */
  lemma {:induction false} SplitPrefix(p: string, sep: char, t: string)
    requires sep !in p
    ensures SplitOn(p + [sep] + t, sep) == [p] + SplitOn(t, sep)
  {
    if p == [] {
      assert p + [sep] + t == [sep] + t;
      assert ([sep] + t)[1..] == t;
    } else {
      SplitPrefix(p[1..], sep, t);
      var s := p + [sep] + t;
      assert s[1..] == p[1..] + [sep] + t;
      assert [p[0]] + p[1..] == p;
    }
  }

  /** Splitting, then joining with the same separator, gives the string back. */
  lemma {:induction false} JoinSplit(s: string, sep: char)
    ensures JoinWith(SplitOn(s, sep), sep) == s
  {
    if s != [] {
      JoinSplit(s[1..], sep);
      var rest := SplitOn(s[1..], sep);
      if s[0] == sep {
        assert ([""] + rest)[1..] == rest;
        assert s == [sep] + s[1..];
      } else {
        var r := [[s[0]] + rest[0]] + rest[1..];
        if |rest| == 1 {
          assert s == [s[0]] + rest[0];
        } else {
          assert r[1..] == rest[1..];
          assert JoinWith(rest, sep) == rest[0] + [sep] + JoinWith(rest[1..], sep);
          assert s == [s[0]] + s[1..];
        }
      }
    }
  }

  // ---------------------------------------------------------------- split() on whitespace

  /** No character of `w` is whitespace. */
  predicate NoWhitespace(w: string) {
    forall j :: 0 <= j < |w| ==> !IsPyWhitespace(w[j])
  }

  /** Length of the run of non-whitespace characters at the front of `s`. */
  function WordLength(s: string): (n: nat)
    ensures n <= |s| && NoWhitespace(s[..n])
    ensures n == |s| || IsPyWhitespace(s[n])
    ensures n == 0 <==> s == [] || IsPyWhitespace(s[0])
  {
    if s == [] || IsPyWhitespace(s[0]) then 0
    else
      var n := 1 + WordLength(s[1..]);
      assert s[..n] == [s[0]] + s[1..][..n - 1];
      n
  }

  /** Putting a word in front of a list of words gives a list of words. */
  lemma WordsCons(word: string, rest: seq<string>)
    requires word != [] && NoWhitespace(word)
    requires forall k :: 0 <= k < |rest| ==> rest[k] != [] && NoWhitespace(rest[k])
    ensures forall k :: 0 <= k < |[word] + rest| ==> ([word] + rest)[k] != [] && NoWhitespace(([word] + rest)[k])
  {
    var r := [word] + rest;
    forall k | 0 < k < |r| ensures r[k] != [] && NoWhitespace(r[k]) {
      assert r[k] == rest[k - 1];
    }
  }

  /** Python's `s.split()`: the maximal runs of non-whitespace characters, in order. */
  function Words(s: string): (r: seq<string>)
    ensures forall k :: 0 <= k < |r| ==> r[k] != [] && NoWhitespace(r[k])
    decreases |s|
  {
    var t := TrimLeft(s, IsPyWhitespace);
    if t == [] then []
    else
      var n := WordLength(t);
      var word := t[..n];
      var rest := Words(t[n..]);
      WordsCons(word, rest);
      [word] + rest
  }

  /** A string with no white space at either end is its own `strip()`. */
  lemma StripNoEdges(s: string)
    requires s != [] && !IsPyWhitespace(s[0]) && !IsPyWhitespace(s[|s| - 1])
    ensures Strip(s) == s
  {
  }

  /** A leading whitespace character makes no difference to `strip()`. */
  lemma StripLeadingBlank(c: char, s: string)
    requires IsPyWhitespace(c)
    ensures Strip([c] + s) == Strip(s)
  {
    assert ([c] + s)[1..] == s;
  }

  /** A string with a word in it keeps a non-whitespace character through `strip()`. */
  lemma WordsNonEmptyStrip(s: string)
    requires Words(s) != []
    ensures Strip(s) != []
  {
    var t := TrimLeft(s, IsPyWhitespace);
    assert t != [];
    var i := |s| - |t|;
    assert !IsPyWhitespace(s[i]);
    TrimEmptyIff(s, IsPyWhitespace);
  }
}
