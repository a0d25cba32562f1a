/**
 The string helpers the plan maker relies on: Spring's `hasText` test,
 Java's `String.split` with a limit of two, and commons-text's camel-case
 conversion, each restated over `seq<char>`.
 */
module Strings {
  import opened Wrappers

  /** Separator between the words of database table and column names. */
  const DbDelimiter: char := '_'

  /** Index of the first occurrence of `c` in `s`, if any. */
  function IndexOf(s: string, c: char): (r: Option<nat>)
    ensures r.None? <==> c !in s
    ensures r.Some? ==> r.value < |s| && s[r.value] == c && c !in s[..r.value]
    decreases |s|
  {
    if |s| == 0 then None
    else if s[0] == c then Some(0)
    else
      match IndexOf(s[1..], c)
      case None => None
      case Some(k) =>
        assert s[..k + 1] == [s[0]] + s[1..][..k];
        Some(k + 1)
  }

  // ---------------------------------------------------------------------------
  // Blank strings
  // ---------------------------------------------------------------------------

  /** Java's `Character.isWhitespace`: the Unicode space, line and paragraph
      separators other than the non-breaking ones, plus the ASCII controls
      tab, line feed, vertical tab, form feed, carriage return and U+001C..U+001F. */
  predicate IsWhitespace(c: char) {
    var u := c as int;
    || 0x09 <= u <= 0x0D
    || 0x1C <= u <= 0x20
    || u == 0x1680
    || 0x2000 <= u <= 0x2006
    || 0x2008 <= u <= 0x200A
    || u == 0x2028 || u == 0x2029
    || u == 0x205F || u == 0x3000
  }

  /** Whether `s` holds at least one non-whitespace character. */
  function HasText(s: string): (b: bool)
    ensures b <==> exists i :: 0 <= i < |s| && !IsWhitespace(s[i])
    decreases |s|
  {
    if |s| == 0 then false
    else if !IsWhitespace(s[0]) then true
    else
      var rest := HasText(s[1..]);
      assert rest ==> exists i :: 0 <= i < |s| && !IsWhitespace(s[i]) by {
        if rest {
          var j :| 0 <= j < |s[1..]| && !IsWhitespace(s[1..][j]);
          assert s[j + 1] == s[1..][j];
        }
      }
      assert (exists i :: 0 <= i < |s| && !IsWhitespace(s[i])) ==> rest by {
        if exists i :: 0 <= i < |s| && !IsWhitespace(s[i]) {
          var j :| 0 <= j < |s| && !IsWhitespace(s[j]);
          assert j != 0;
          assert s[1..][j - 1] == s[j];
        }
      }
      rest
  }

  // ---------------------------------------------------------------------------
  // Splitting at the first delimiter
  // ---------------------------------------------------------------------------

  /** `s.split(d, 2)` for a single literal delimiter character: the whole string
      when `d` does not occur, otherwise the text before the first `d` and
      everything after it (empty pieces are kept, later delimiters too). */
  function SplitOnce(s: string, d: char): (parts: seq<string>)
    ensures |parts| == 1 || |parts| == 2
    ensures |parts| == 1 <==> d !in s
    ensures |parts| == 1 ==> parts[0] == s
    ensures |parts| == 2 ==> d !in parts[0] && parts[0] + [d] + parts[1] == s
  {
    match IndexOf(s, d)
    case None => [s]
    case Some(k) =>
      AroundIndex(s, k);
      [s[..k], s[k + 1..]]
  }

  /** A sequence is what comes before position `k`, the element there, and what follows. */
  lemma AroundIndex<T>(s: seq<T>, k: nat)
    requires k < |s|
    ensures s[..k] + [s[k]] + s[k + 1..] == s
  {
    assert s == s[..k] + s[k..];
    assert s[k..] == [s[k]] + s[k + 1..];
  }

  /** Splitting is the inverse of joining a delimiter-free head to any tail. */
  lemma SplitOnceOfJoin(head: string, d: char, tail: string)
    requires d !in head
    ensures SplitOnce(head + [d] + tail, d) == [head, tail]
  {
    var s := head + [d] + tail;
    assert s[|head|] == d;
    assert s[..|head|] == head;
    var parts := SplitOnce(s, d);
    assert |parts| == 2;
    assert parts[0] == head;
    assert parts[1] == s[|head| + 1..] == tail;
  }

  // ---------------------------------------------------------------------------
  // Camel case
  // ---------------------------------------------------------------------------

  predicate IsUpperAscii(c: char) {
    'A' <= c <= 'Z'
  }

  predicate IsLowerAscii(c: char) {
    'a' <= c <= 'z'
  }

  function ToLowerChar(c: char): (r: char)
    ensures !IsUpperAscii(r)
  {
    if IsUpperAscii(c) then (c as int + 32) as char else c
  }

  function ToTitleChar(c: char): (r: char)
    ensures !IsLowerAscii(r)
  {
    if IsLowerAscii(c) then (c as int - 32) as char else c
  }

  /** `toLowerCase` on the ASCII letters. */
  function LowerCase(s: string): (r: string)
    ensures |r| == |s|
    ensures forall i :: 0 <= i < |s| ==> r[i] == ToLowerChar(s[i])
  {
    seq(|s|, i requires 0 <= i < |s| => ToLowerChar(s[i]))
  }

  /**
   The loop of `CaseUtils.toCamelCase` after lower-casing: delimiters are
   dropped; a character is title-cased when a delimiter preceded it and some
   character was already emitted (`capitalizeNext`), or when it is the first
   character emitted and `capitalizeFirst` holds.
   */
  function CamelFrom(s: string, capitalizeNext: bool, emitted: bool, capitalizeFirst: bool): (r: string)
    ensures |r| <= |s|
    ensures DbDelimiter !in r
    decreases |s|
  {
    if |s| == 0 then ""
    else if s[0] == DbDelimiter then
      CamelFrom(s[1..], emitted, emitted, capitalizeFirst)
    else if capitalizeNext || (!emitted && capitalizeFirst) then
      [ToTitleChar(s[0])] + CamelFrom(s[1..], false, true, capitalizeFirst)
    else
      [s[0]] + CamelFrom(s[1..], false, true, capitalizeFirst)
  }

  /** Whether a name holds some character other than the delimiter. */
  predicate HasWord(s: string) {
    exists i :: 0 <= i < |s| && s[i] != DbDelimiter
  }

  /** `CaseUtils.toCamelCase(s, capitalizeFirst, '_')`: upper camel case
      (`sys_user` to `SysUser`) when `capitalizeFirst`, lower camel case
      (`create_by` to `createBy`) otherwise. When the loop emits nothing, as
      for a name made only of delimiters, the lower-cased name is returned. */
  function ToCamelCase(s: string, capitalizeFirst: bool): (r: string)
    ensures |r| <= |s|
    ensures HasWord(s) ==> |r| > 0 && DbDelimiter !in r
    ensures !HasWord(s) ==> r == s
  {
    if |s| == 0 then s
    else
      var lower := LowerCase(s);
      LowerCaseKeepsWords(s);
      var camel := CamelFrom(lower, capitalizeFirst, false, capitalizeFirst);
      CamelEmitsWords(lower, capitalizeFirst, false, capitalizeFirst);
      if |camel| == 0 then lower else camel
  }

  /** Lower-casing keeps delimiters and only delimiters, so a name of
      delimiters alone is its own lower case. */
  lemma LowerCaseKeepsWords(s: string)
    ensures HasWord(LowerCase(s)) <==> HasWord(s)
    ensures !HasWord(s) ==> LowerCase(s) == s
  {
    var lower := LowerCase(s);
    if HasWord(s) {
      var i :| 0 <= i < |s| && s[i] != DbDelimiter;
      assert lower[i] != DbDelimiter;
    }
    if HasWord(lower) {
      var i :| 0 <= i < |lower| && lower[i] != DbDelimiter;
      assert s[i] != DbDelimiter;
    }
  }

  /** The loop emits something exactly when the name has a word. */
  lemma {:induction false} CamelEmitsWords(s: string, capitalizeNext: bool, emitted: bool, capitalizeFirst: bool)
    ensures |CamelFrom(s, capitalizeNext, emitted, capitalizeFirst)| > 0 <==> HasWord(s)
    decreases |s|
  {
    if |s| > 0 && s[0] == DbDelimiter {
      CamelEmitsWords(s[1..], emitted, emitted, capitalizeFirst);
      if HasWord(s) {
        var i :| 0 <= i < |s| && s[i] != DbDelimiter;
        assert s[1..][i - 1] != DbDelimiter;
      }
      if HasWord(s[1..]) {
        var i :| 0 <= i < |s[1..]| && s[1..][i] != DbDelimiter;
        assert s[i + 1] != DbDelimiter;
      }
    } else if |s| > 0 {
      assert s[0] != DbDelimiter;
    }
  }

  /** The words of a name: its maximal delimiter-free, non-empty pieces. */
  function Words(s: string): (ws: seq<string>)
    decreases |s|
  {
    if |s| == 0 then []
    else if s[0] == DbDelimiter then Words(s[1..])
    else
      match IndexOf(s, DbDelimiter)
      case None => [s]
      case Some(k) => [s[..k]] + Words(s[k..])
  }

  /** A word with its first character title-cased. */
  function Capitalize(w: string): string {
    if |w| == 0 then w else [ToTitleChar(w[0])] + w[1..]
  }

  function JoinCapitalized(ws: seq<string>): string {
    if |ws| == 0 then "" else Capitalize(ws[0]) + JoinCapitalized(ws[1..])
  }

  /** The name with every delimiter removed. */
  function RemoveDelimiters(s: string): string {
    if |s| == 0 then ""
    else if s[0] == DbDelimiter then RemoveDelimiters(s[1..])
    else [s[0]] + RemoveDelimiters(s[1..])
  }

  /** Before the first character is emitted the upper-camel state machine
      capitalizes unconditionally; only `capitalizeNext || !emitted` matters. */
  lemma {:induction false} UpperCamelState(s: string, capitalizeNext: bool, emitted: bool)
    ensures CamelFrom(s, capitalizeNext, emitted, true) == CamelFrom(s, capitalizeNext || !emitted, true, true)
    decreases |s|
  {
    if |s| > 0 && s[0] == DbDelimiter {
      UpperCamelState(s[1..], emitted, emitted);
      UpperCamelState(s[1..], true, true);
    }
  }

  /** A delimiter-free word followed by anything is emitted verbatim, its first
      character title-cased exactly when `capitalizeNext`. */
  lemma {:induction false} UpperCamelWord(w: string, rest: string, capitalizeNext: bool)
    requires |w| > 0 && DbDelimiter !in w
    ensures CamelFrom(w + rest, capitalizeNext, true, true)
         == (if capitalizeNext then Capitalize(w) else w) + CamelFrom(rest, false, true, true)
    decreases |w|
  {
    var s := w + rest;
    assert s[0] == w[0];
    assert s[1..] == w[1..] + rest;
    if |w| > 1 {
      assert w[1] in w;
      UpperCamelWord(w[1..], rest, false);
      assert [w[0]] + w[1..] == w;
    } else {
      assert w[1..] == [];
    }
  }

  /** Upper camel case, after the state where a word is about to start,
      capitalizes each word and joins them. */
  lemma {:induction false} UpperCamelJoinsWords(s: string)
    ensures CamelFrom(s, true, true, true) == JoinCapitalized(Words(s))
    decreases |s|
  {
    if |s| == 0 {
    } else if s[0] == DbDelimiter {
      UpperCamelJoinsWords(s[1..]);
    } else {
      match IndexOf(s, DbDelimiter)
      case None =>
        assert s + "" == s;
        UpperCamelWord(s, "", true);
        assert Words(s) == [s];
      case Some(k) =>
        var w, rest := s[..k], s[k..];
        assert s == w + rest;
        assert k > 0;
        UpperCamelWord(w, rest, true);
        assert rest[0] == DbDelimiter;
        assert CamelFrom(rest, false, true, true) == CamelFrom(rest[1..], true, true, true);
        UpperCamelJoinsWords(rest[1..]);
        assert Words(rest) == Words(rest[1..]);
        var ws := [w] + Words(rest);
        assert ws[0] == w && ws[1..] == Words(rest);
    }
  }

  /** The class-name form: every word of the lower-cased name capitalized,
      delimiters dropped; a name without words comes back unchanged. */
  lemma UpperCamelCaseIsCapitalizedWords(s: string)
    ensures ToCamelCase(s, true) == if HasWord(s) then JoinCapitalized(Words(LowerCase(s))) else s
  {
    if HasWord(s) {
      LowerCaseKeepsWords(s);
      CamelEmitsWords(LowerCase(s), true, false, true);
      UpperCamelState(LowerCase(s), true, false);
      UpperCamelJoinsWords(LowerCase(s));
    }
  }

  /** Once a character has been emitted, `capitalizeFirst` no longer matters. */
  lemma {:induction false} CamelAfterFirstIgnoresCapitalizeFirst(s: string, capitalizeNext: bool)
    ensures CamelFrom(s, capitalizeNext, true, true) == CamelFrom(s, capitalizeNext, true, false)
    decreases |s|
  {
    if |s| > 0 {
      if s[0] == DbDelimiter {
        CamelAfterFirstIgnoresCapitalizeFirst(s[1..], true);
      } else {
        CamelAfterFirstIgnoresCapitalizeFirst(s[1..], false);
      }
    }
  }

  lemma {:induction false} UpperFromLowerBeforeFirst(s: string, capitalizeNext: bool)
    ensures CamelFrom(s, capitalizeNext, false, true) == Capitalize(CamelFrom(s, false, false, false))
    decreases |s|
  {
    if |s| > 0 {
      if s[0] == DbDelimiter {
        UpperFromLowerBeforeFirst(s[1..], false);
      } else {
        CamelAfterFirstIgnoresCapitalizeFirst(s[1..], false);
        var tail := CamelFrom(s[1..], false, true, false);
        assert ([s[0]] + tail)[0] == s[0];
        assert ([s[0]] + tail)[1..] == tail;
      }
    }
  }

  /** Upper and lower camel case differ only in the first character (the
      class name versus the field name of the same words). */
  lemma UpperCamelIsCapitalizedLowerCamel(s: string)
    ensures ToCamelCase(s, true) == Capitalize(ToCamelCase(s, false))
  {
    if |s| > 0 {
      UpperFromLowerBeforeFirst(LowerCase(s), true);
    }
  }

  lemma {:induction false} LowerCaseOfCamel(s: string, capitalizeNext: bool, emitted: bool, capitalizeFirst: bool)
    requires forall i :: 0 <= i < |s| ==> !IsUpperAscii(s[i])
    ensures LowerCase(CamelFrom(s, capitalizeNext, emitted, capitalizeFirst)) == RemoveDelimiters(s)
    decreases |s|
  {
    if |s| > 0 {
      if s[0] == DbDelimiter {
        LowerCaseOfCamel(s[1..], emitted, emitted, capitalizeFirst);
      } else {
        var tail := CamelFrom(s[1..], false, true, capitalizeFirst);
        LowerCaseOfCamel(s[1..], false, true, capitalizeFirst);
        var head := if capitalizeNext || (!emitted && capitalizeFirst) then ToTitleChar(s[0]) else s[0];
        assert ToLowerChar(head) == s[0];
        assert LowerCase([head] + tail) == [s[0]] + LowerCase(tail);
      }
    }
  }

  /** Lower-casing a camel-case name gives back the lower-cased original
      without its delimiters: only letter case and delimiters change. */
  lemma CamelCaseLowersToName(s: string, capitalizeFirst: bool)
    ensures LowerCase(ToCamelCase(s, capitalizeFirst)) == if HasWord(s) then RemoveDelimiters(LowerCase(s)) else s
  {
    if HasWord(s) {
      LowerCaseKeepsWords(s);
      CamelEmitsWords(LowerCase(s), capitalizeFirst, false, capitalizeFirst);
      LowerCaseOfCamel(LowerCase(s), capitalizeFirst, false, capitalizeFirst);
    } else {
      LowerCaseKeepsWords(s);
    }
  }

  /** Without capitalization the first character emitted is copied as it is. */
  lemma {:induction false} LowerCamelHead(s: string)
    requires forall i :: 0 <= i < |s| ==> !IsUpperAscii(s[i])
    ensures var r := CamelFrom(s, false, false, false);
      |r| == 0 || !IsUpperAscii(r[0])
    decreases |s|
  {
    if |s| > 0 && s[0] == DbDelimiter {
      LowerCamelHead(s[1..]);
    }
  }

  /** The field-name form never starts with an upper-case letter. */
  lemma LowerCamelStartsLower(s: string)
    ensures var r := ToCamelCase(s, false);
      |r| == 0 || !IsUpperAscii(r[0])
  {
    if HasWord(s) {
      LowerCaseKeepsWords(s);
      CamelEmitsWords(LowerCase(s), false, false, false);
      LowerCamelHead(LowerCase(s));
    } else if |s| > 0 {
      assert s[0] == DbDelimiter;
    }
  }
}
