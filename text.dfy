/**
 * The JavaScript string operations the backend relies on: `trim`,
 * `toLowerCase` (ASCII letters only), `split` on one separator character,
 * `length` in UTF-16 code units, and decimal rendering of small numbers in
 * validation messages.
 */
module Text {

  /** JavaScript WhiteSpace and LineTerminator code points, the set `String.prototype.trim` strips. */
  predicate IsSpace(c: char)
  {
    || c == ' ' || c == '\t' || c == '\n' || c == '\r'
    || c == '\U{B}' || c == '\U{C}' || c == '\U{A0}' || c == '\U{FEFF}'
    || c == '\U{1680}' || ('\U{2000}' <= c <= '\U{200A}')
    || c == '\U{2028}' || c == '\U{2029}' || c == '\U{202F}' || c == '\U{205F}' || c == '\U{3000}'
  }

  /** Leading white space removed: the result is a suffix of `s` and everything dropped is space. */
  function TrimStart(s: string): (r: string)
    ensures |r| <= |s| && r == s[|s| - |r|..]
    ensures r == [] || !IsSpace(r[0])
    ensures forall i :: 0 <= i < |s| - |r| ==> IsSpace(s[i])
  {
    if s != [] && IsSpace(s[0]) then TrimStart(s[1..]) else s
  }

  /** Trailing white space removed: the result is a prefix of `s` and everything dropped is space. */
  function TrimEnd(s: string): (r: string)
    ensures |r| <= |s| && r == s[..|r|]
    ensures r == [] || !IsSpace(r[|r| - 1])
    ensures forall i :: |r| <= i < |s| ==> IsSpace(s[i])
  {
    if s != [] && IsSpace(s[|s| - 1]) then TrimEnd(s[..|s| - 1]) else s
  }

  /** `String.prototype.trim`. */
  function Trim(s: string): string
  {
    TrimEnd(TrimStart(s))
  }

  /** A string that `trim` leaves as it is. */
  predicate Trimmed(s: string)
  {
    s == [] || (!IsSpace(s[0]) && !IsSpace(s[|s| - 1]))
  }

  lemma TrimEndKeepsStart(s: string)
    requires s == [] || !IsSpace(s[0])
    ensures TrimEnd(s) == [] || !IsSpace(TrimEnd(s)[0])
  {
    var r := TrimEnd(s);
    if r != [] {
      assert r[0] == s[0];
    }
  }

  /** The result of `trim` never starts or ends with white space. */
  lemma TrimIsTrimmed(s: string)
    ensures Trimmed(Trim(s))
  {
    TrimEndKeepsStart(TrimStart(s));
  }

  /** `trim` changes nothing on a string without surrounding white space. */
  lemma TrimOfTrimmed(s: string)
    requires Trimmed(s)
    ensures Trim(s) == s
  {
  }

  /** `trim` is idempotent. */
  lemma TrimIdempotent(s: string)
    ensures Trim(Trim(s)) == Trim(s)
  {
    TrimIsTrimmed(s);
    TrimOfTrimmed(Trim(s));
  }

  /**
   * `toLowerCase` on one character, for the ASCII letters A-Z only; every
   * other character is kept as it is.
   */
  function LowerChar(c: char): (d: char)
    ensures 'A' <= c <= 'Z' ==> 'a' <= d <= 'z'
  {
    if 'A' <= c <= 'Z' then (c as int + 32) as char else c
  }

  /** `toLowerCase` on a string, character by character. */
  function Lower(s: string): (r: string)
    ensures |r| == |s|
    ensures forall i :: 0 <= i < |s| ==> r[i] == LowerChar(s[i])
  {
    if s == [] then [] else [LowerChar(s[0])] + Lower(s[1..])
  }

  /** No ASCII capital letter occurs. */
  predicate IsLower(s: string)
  {
    forall i :: 0 <= i < |s| ==> !('A' <= s[i] <= 'Z')
  }

  /** Lower-casing yields a lower-case string and is idempotent. */
  lemma LowerIdempotent(s: string)
    ensures IsLower(Lower(s))
    ensures Lower(Lower(s)) == Lower(s)
  {
  }

  /** Index of the first occurrence of `c` in `s`. */
  function IndexOf(s: string, c: char): (i: nat)
    requires c in s
    ensures i < |s| && s[i] == c && c !in s[..i]
  {
    if s[0] == c then 0 else 1 + IndexOf(s[1..], c)
  }

  /** `s.split(sep)` for a one-character separator, as JavaScript does it. */
  function Split(s: string, sep: char): (parts: seq<string>)
    ensures |parts| >= 1
    ensures forall i :: 0 <= i < |parts| ==> sep !in parts[i]
    decreases |s|
  {
    if sep !in s then [s]
    else
      var i := IndexOf(s, sep);
      [s[..i]] + Split(s[i + 1..], sep)
  }

  /** `parts.join(sep)`. */
  function Join(parts: seq<string>, sep: char): string
    requires |parts| >= 1
  {
    if |parts| == 1 then parts[0] else parts[0] + [sep] + Join(parts[1..], sep)
  }

  /** Splitting and joining again gives back the original string. */
  lemma {:induction false} SplitJoin(s: string, sep: char)
    ensures Join(Split(s, sep), sep) == s
    decreases |s|
  {
    if sep in s {
      var i := IndexOf(s, sep);
      SplitJoin(s[i + 1..], sep);
      assert Split(s, sep)[1..] == Split(s[i + 1..], sep);
      assert s == s[..i] + [sep] + s[i + 1..];
    }
  }

  /** A split with a second piece: the first word, the separator, and the text after it. */
  lemma SplitAround(s: string, sep: char) returns (w: string, after: string)
    requires |Split(s, sep)| >= 2
    ensures sep !in w && s == w + [sep] + after
    ensures Split(s, sep)[1] == Split(after, sep)[0]
  {
    var i := IndexOf(s, sep);
    w, after := s[..i], s[i + 1..];
    assert s == w + [sep] + after;
  }

  /** The first piece of a split is a prefix, followed by the end or by the separator. */
  lemma SplitHead(s: string, sep: char) returns (rest: string)
    ensures s == Split(s, sep)[0] + rest && (rest == [] || rest[0] == sep)
  {
    if sep in s {
      var i := IndexOf(s, sep);
      assert Split(s, sep)[0] == s[..i];
      rest := s[i..];
    } else {
      rest := [];
    }
  }

  /**
   * A word, one separator, a second word, then the end or another separator:
   * the second piece of the split is exactly the second word.
   */
  lemma SplitSecond(w: string, t: string, rest: string, sep: char)
    requires sep !in w && sep !in t && (rest == [] || rest[0] == sep)
    ensures |Split(w + [sep] + t + rest, sep)| >= 2
    ensures Split(w + [sep] + t + rest, sep)[0] == w && Split(w + [sep] + t + rest, sep)[1] == t
  {
    assert w + [sep] + t + rest == w + [sep] + (t + rest);
    SplitAfter(w, t + rest, sep);
    if rest == [] {
      assert t + rest == t;
    } else {
      assert t + rest == t + [sep] + rest[1..];
      SplitAfter(t, rest[1..], sep);
    }
  }

  /** A separator-free word and one separator: the split yields the word, then the split of the rest. */
  lemma SplitAfter(w: string, rest: string, sep: char)
    requires sep !in w
    ensures Split(w + [sep] + rest, sep) == [w] + Split(rest, sep)
  {
    var s := w + [sep] + rest;
    assert s[|w|] == sep && s[..|w|] == w;
    var i := IndexOf(s, sep);
    assert i == |w|;
    assert s[i + 1..] == rest;
  }

  /**
   * The JavaScript `length` of a string: its UTF-16 code units. A character
   * outside the Basic Multilingual Plane takes two units (a surrogate pair).
   */
  function Utf16Length(s: string): (n: nat)
    ensures |s| <= n <= 2 * |s|
  {
    if s == [] then 0 else (if s[0] as int >= 0x1_0000 then 2 else 1) + Utf16Length(s[1..])
  }

  /** A string of Basic Multilingual Plane characters has one unit per character. */
  lemma {:induction false} Utf16LengthOfBmp(s: string)
    requires forall i :: 0 <= i < |s| ==> s[i] as int < 0x1_0000
    ensures Utf16Length(s) == |s|
  {
    if s != [] {
      Utf16LengthOfBmp(s[1..]);
    }
  }

  /** A string of characters outside the Basic Multilingual Plane has two units per character. */
  lemma {:induction false} Utf16LengthOfAstral(s: string)
    requires forall i :: 0 <= i < |s| ==> s[i] as int >= 0x1_0000
    ensures Utf16Length(s) == 2 * |s|
  {
    if s != [] {
      Utf16LengthOfAstral(s[1..]);
    }
  }

  /** Decimal digits of a natural number. */
  function NatToString(n: nat): (r: string)
    ensures |r| >= 1
    ensures forall i :: 0 <= i < |r| ==> '0' <= r[i] <= '9'
  {
    if n < 10 then [('0' as int + n) as char]
    else NatToString(n / 10) + [('0' as int + n % 10) as char]
  }
}
