/** String operations of the JavaScript runtime that the platform's code
    relies on: case mapping, `includes`, `trim`, `split`, `.length` in UTF-16
    code units, and the whitespace class that both `\s` and `trim` use. */
module Text {

  /** ECMAScript WhiteSpace and LineTerminator code points: exactly what the
      regular-expression class `\s` matches and what `String.prototype.trim`
      strips (tab, LF, VT, FF, CR, space, NBSP, the Zs category, LS, PS and the
      byte-order mark). */
  predicate IsJsSpace(c: char) {
    c == '\t' || c == '\n' || c == '\U{000B}' || c == '\U{000C}' || c == '\r'
    || c == ' ' || c == '\U{00A0}' || c == '\U{1680}'
    || ('\U{2000}' <= c <= '\U{200A}')
    || c == '\U{2028}' || c == '\U{2029}' || c == '\U{202F}' || c == '\U{205F}'
    || c == '\U{3000}' || c == '\U{FEFF}'
  }

  /** Every character of `s` is whitespace (the empty string included). */
  predicate Blank(s: string) {
    forall i :: 0 <= i < |s| ==> IsJsSpace(s[i])
  }

  // ---------------------------------------------------------------------
  // Case mapping (ASCII letters only; Arabic script has no case)

  function LowerChar(c: char): char {
    if 'A' <= c <= 'Z' then (c as int + 32) as char else c
  }

  function UpperChar(c: char): char {
    if 'a' <= c <= 'z' then (c as int - 32) as char else c
  }

  /** `s.toLowerCase()` */
  function Lower(s: string): (r: string)
    ensures |r| == |s|
  {
    seq(|s|, i requires 0 <= i < |s| => LowerChar(s[i]))
  }

  /** `s.toUpperCase()` */
  function Upper(s: string): (r: string)
    ensures |r| == |s|
  {
    seq(|s|, i requires 0 <= i < |s| => UpperChar(s[i]))
  }

  /** Lower-casing twice is lower-casing once, so a stored lower-case key
      matches the lower-cased form of itself. */
  lemma LowerIdempotent(s: string)
    ensures Lower(Lower(s)) == Lower(s)
  {
  }

  // ---------------------------------------------------------------------
  // `s.includes(sub)`

  /** `s.includes(sub)`: `sub` occurs in `s` at some position. */
  predicate Contains(s: string, sub: string)
    decreases |s|
  {
    sub <= s || (|s| > 0 && Contains(s[1..], sub))
  }

  /** Every string includes the empty string, so an empty search term
      matches everything. */
  lemma {:induction false} ContainsEmpty(s: string)
    ensures Contains(s, "")
  {
  }

  /** An occurrence at an explicit position is an occurrence. */
  lemma {:induction false} ContainsAt(s: string, sub: string, k: nat)
    requires k + |sub| <= |s| && s[k..k + |sub|] == sub
    ensures Contains(s, sub)
    decreases k
  {
    if k == 0 {
      assert sub <= s;
    } else {
      assert s[1..][k - 1..k - 1 + |sub|] == sub;
      ContainsAt(s[1..], sub, k - 1);
    }
  }

  // ---------------------------------------------------------------------
  // `s.trim()`

  function TrimStart(s: string): (r: string)
    ensures |r| <= |s| && r == s[|s| - |r|..]
    decreases |s|
  {
    if |s| > 0 && IsJsSpace(s[0]) then TrimStart(s[1..]) else s
  }

  function TrimEnd(s: string): (r: string)
    decreases |s|
  {
    if |s| > 0 && IsJsSpace(s[|s| - 1]) then TrimEnd(s[..|s| - 1]) else s
  }

  /** `s.trim()`: leading and trailing whitespace removed. */
  function Trim(s: string): string {
    TrimEnd(TrimStart(s))
  }

  lemma {:induction false} TrimStartFacts(s: string)
    ensures TrimStart(s) == [] <==> Blank(s)
    ensures TrimStart(s) != [] ==> !IsJsSpace(TrimStart(s)[0])
    decreases |s|
  {
    if |s| > 0 && IsJsSpace(s[0]) {
      TrimStartFacts(s[1..]);
      assert Blank(s) <==> Blank(s[1..]) by {
        if Blank(s[1..]) {
          forall i | 0 <= i < |s| ensures IsJsSpace(s[i]) {
            if i > 0 { assert s[i] == s[1..][i - 1]; }
          }
        }
      }
    }
  }

  lemma {:induction false} TrimEndKeepsSolidHead(s: string)
    requires |s| > 0 && !IsJsSpace(s[0])
    ensures TrimEnd(s) != []
    decreases |s|
  {
    if IsJsSpace(s[|s| - 1]) {
      TrimEndKeepsSolidHead(s[..|s| - 1]);
    }
  }

  /** After a blank prefix, trimming stops at the first character that is
      not whitespace. */
  lemma {:induction false} TrimStartBlankPrefix(w: string, b: string)
    requires Blank(w)
    requires b == [] || !IsJsSpace(b[0])
    ensures TrimStart(w + b) == b
    decreases |w|
  {
    if w == [] {
      assert w + b == b;
    } else {
      assert (w + b)[0] == w[0] && (w + b)[1..] == w[1..] + b;
      assert Blank(w[1..]) by {
        forall i | 0 <= i < |w[1..]| ensures IsJsSpace(w[1..][i]) {
          assert w[1..][i] == w[i + 1];
        }
      }
      TrimStartBlankPrefix(w[1..], b);
    }
  }

  /** Trimming the start of a string that is not all whitespace never
      reaches what follows it. */
  lemma {:induction false} TrimStartAppend(x: string, y: string)
    requires !Blank(x)
    ensures TrimStart(x + y) == TrimStart(x) + y
    decreases |x|
  {
    assert (x + y)[0] == x[0];
    if IsJsSpace(x[0]) {
      assert (x + y)[1..] == x[1..] + y;
      var i :| 0 <= i < |x| && !IsJsSpace(x[i]);
      assert x[1..][i - 1] == x[i];
      TrimStartAppend(x[1..], y);
    }
  }

  /** `!s.trim()` holds exactly for the strings made only of whitespace: the
      guard the comment box, the file-submission form and the chatbot use. */
  lemma TrimEmptyIffBlank(s: string)
    ensures Trim(s) == [] <==> Blank(s)
  {
    TrimStartFacts(s);
    if TrimStart(s) != [] {
      TrimEndKeepsSolidHead(TrimStart(s));
    }
  }

  // ---------------------------------------------------------------------
  // `s.length` (UTF-16 code units)

  /** `s.length` in JavaScript: a code point above U+FFFF takes two UTF-16
      code units, every other one takes one. */
  function Utf16Length(s: string): (n: nat)
    ensures |s| <= n <= 2 * |s|
  {
    if s == [] then 0
    else (if s[0] as int > 0xFFFF then 2 else 1) + Utf16Length(s[1..])
  }

  // ---------------------------------------------------------------------
  // `s.split(sep)` and the first characters of the pieces

  /** `s.split(sep)` for a one-character separator: the pieces between
      separators, including empty pieces; there is always at least one. */
  function Split(s: string, sep: char): (r: seq<string>)
    ensures |r| >= 1
    ensures forall i :: 0 <= i < |r| ==> sep !in r[i]
    decreases |s|
  {
    if s == [] then [""]
    else if s[0] == sep then [""] + Split(s[1..], sep)
    else
      var rest := Split(s[1..], sep);
      [[s[0]] + rest[0]] + rest[1..]
  }

  /** `words.map(w => w[0]).join('')`: `w[0]` of an empty word is
      `undefined`, which `join` renders as nothing. */
  function FirstChars(words: seq<string>): string {
    if words == [] then ""
    else (if words[0] == "" then "" else [words[0][0]]) + FirstChars(words[1..])
  }

  /** Reference definition of the same thing without splitting: the
      characters of `s` that are not `sep` and start a word, that is come
      first or right after a `sep` (`atStart` says whether the previous
      character was a separator or there was none). */
  function WordStarts(s: string, sep: char, atStart: bool): string
    decreases |s|
  {
    if s == [] then ""
    else if s[0] == sep then WordStarts(s[1..], sep, true)
    else (if atStart then [s[0]] else "") + WordStarts(s[1..], sep, false)
  }

  lemma {:induction false} FirstCharsAppend(a: seq<string>, b: seq<string>)
    ensures FirstChars(a + b) == FirstChars(a) + FirstChars(b)
    decreases |a|
  {
    if a == [] {
      assert a + b == b;
    } else {
      assert (a + b)[0] == a[0] && (a + b)[1..] == a[1..] + b;
      FirstCharsAppend(a[1..], b);
      calc {
        FirstChars(a + b);
        (if a[0] == "" then "" else [a[0][0]]) + FirstChars(a[1..] + b);
        (if a[0] == "" then "" else [a[0][0]]) + (FirstChars(a[1..]) + FirstChars(b));
      }
    }
  }

  /** Splitting and taking first characters is the same as picking word
      starts, so empty pieces made by repeated separators contribute
      nothing. The second ensures is the invariant for the pieces after the
      first one. */
  lemma {:induction false} FirstCharsOfSplit(s: string, sep: char)
    ensures FirstChars(Split(s, sep)) == WordStarts(s, sep, true)
    ensures FirstChars(Split(s, sep)[1..]) == WordStarts(s, sep, false)
    decreases |s|
  {
    if s == [] {
    } else if s[0] == sep {
      FirstCharsOfSplit(s[1..], sep);
      FirstCharsAppend([""], Split(s[1..], sep));
      assert ([""] + Split(s[1..], sep))[1..] == Split(s[1..], sep);
    } else {
      var rest := Split(s[1..], sep);
      FirstCharsOfSplit(s[1..], sep);
      FirstCharsAppend([[s[0]] + rest[0]], rest[1..]);
      assert ([[s[0]] + rest[0]] + rest[1..])[1..] == rest[1..];
    }
  }

  /** The word starts of a string never include the separator. */
  lemma {:induction false} WordStartsExcludeSeparator(s: string, sep: char, atStart: bool)
    ensures sep !in WordStarts(s, sep, atStart)
    ensures |WordStarts(s, sep, atStart)| <= |s|
    decreases |s|
  {
    if s != [] {
      WordStartsExcludeSeparator(s[1..], sep, true);
      WordStartsExcludeSeparator(s[1..], sep, false);
    }
  }

  // ---------------------------------------------------------------------
  // `s.slice(0, n)`

  /** `s.slice(0, n)`: the first `n` characters, or all of a shorter `s`. */
  function Prefix(s: string, n: nat): (r: string)
    ensures |r| <= n && r <= s
    ensures |s| <= n ==> r == s
  {
    if |s| <= n then s else s[..n]
  }

  // ---------------------------------------------------------------------
  // `s.split(c).pop()`

  /** `s.split(c).pop()`: the text after the last `c`, or the whole string
      when `c` does not occur. */
  function AfterLast(s: string, c: char): (r: string)
    ensures |r| <= |s| && r == s[|s| - |r|..]
    ensures c !in r
    ensures |r| < |s| ==> s[|s| - |r| - 1] == c
    decreases |s|
  {
    if s == [] then ""
    else if s[|s| - 1] == c then ""
    else
      var init := s[..|s| - 1];
      var rest := AfterLast(init, c);
      assert s[|s| - |rest| - 1..] == init[|init| - |rest|..] + [s[|s| - 1]];
      assert |rest| < |init| ==> s[|s| - |rest| - 2] == init[|init| - |rest| - 1];
      rest + [s[|s| - 1]]
  }
}
