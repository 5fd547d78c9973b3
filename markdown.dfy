/**
 * Telegram MarkdownV2 escaping as the bot does it: `escape_md` puts one
 * backslash before each reserved character and `bold_md` wraps escaped
 * text in asterisks.
 */
module Markdown {
  import opened Text

  /** `ESCAPE_CHARS`: the characters MarkdownV2 treats as syntax. */
  const ReservedChars: string := "_*[]()~`>#+-=|{}.!"

  /** `c in ESCAPE_CHARS`, one comparison per character. */
  predicate IsReserved(c: char) {
    || c == '_' || c == '*' || c == '[' || c == ']' || c == '(' || c == ')'
    || c == '~' || c == '`' || c == '>' || c == '#' || c == '+' || c == '-'
    || c == '=' || c == '|' || c == '{' || c == '}' || c == '.' || c == '!'
  }

  /** The comparisons test membership in `ReservedChars`. */
  lemma ReservedCharsIff(c: char)
    ensures IsReserved(c) <==> c in ReservedChars
  {
  }

  function CountReserved(s: string): nat {
    if s == [] then 0 else (if IsReserved(s[0]) then 1 else 0) + CountReserved(s[1..])
  }

  /** `escape_md`: each reserved character `c` becomes the two characters `\c`. */
  function EscapeMd(s: string): string {
    if s == [] then []
    else (if IsReserved(s[0]) then ['\\', s[0]] else [s[0]]) + EscapeMd(s[1..])
  }

  /** `bold_md`. */
  function BoldMd(s: string): string {
    "*" + EscapeMd(s) + "*"
  }

  /** Every reserved character of `r` is preceded by a backslash. */
  predicate WellEscaped(r: string) {
    forall k :: 0 <= k < |r| && IsReserved(r[k]) ==> k > 0 && r[k - 1] == '\\'
  }

  /** Reading escaped text back: a backslash followed by a reserved character stands for that character. */
  function Unescape(r: string): string {
    if r == [] then []
    else if |r| >= 2 && r[0] == '\\' && IsReserved(r[1]) then [r[1]] + Unescape(r[2..])
    else [r[0]] + Unescape(r[1..])
  }

  lemma {:induction false} EscapeLength(s: string)
    ensures |EscapeMd(s)| == |s| + CountReserved(s)
  {
    if s != [] {
      EscapeLength(s[1..]);
    }
  }

  lemma {:induction false} EscapeIdentity(s: string)
    requires forall k :: 0 <= k < |s| ==> !IsReserved(s[k])
    ensures EscapeMd(s) == s
  {
    if s != [] {
      EscapeIdentity(s[1..]);
    }
  }

  lemma {:induction false} EscapeConcat(a: string, b: string)
    ensures EscapeMd(a + b) == EscapeMd(a) + EscapeMd(b)
  {
    if a != [] {
      assert (a + b)[1..] == a[1..] + b;
      EscapeConcat(a[1..], b);
    } else {
      assert a + b == b;
    }
  }

  lemma {:induction false} EscapeWellEscaped(s: string)
    ensures WellEscaped(EscapeMd(s))
  {
    if s != [] {
      EscapeWellEscaped(s[1..]);
      var head := if IsReserved(s[0]) then ['\\', s[0]] else [s[0]];
      var r := EscapeMd(s);
      assert r == head + EscapeMd(s[1..]);
      forall k | 0 <= k < |r| && IsReserved(r[k])
        ensures k > 0 && r[k - 1] == '\\'
      {
        if k >= |head| {
          assert r[k] == EscapeMd(s[1..])[k - |head|];
        }
      }
    }
  }

  /** Escaping loses nothing: the escaped text reads back as the original. */
  lemma {:induction false} UnescapeEscape(s: string)
    ensures Unescape(EscapeMd(s)) == s
  {
    if s != [] {
      var rest := EscapeMd(s[1..]);
      UnescapeEscape(s[1..]);
      if IsReserved(s[0]) {
        assert EscapeMd(s) == ['\\', s[0]] + rest;
        assert (['\\', s[0]] + rest)[2..] == rest;
      } else {
        assert EscapeMd(s) == [s[0]] + rest;
        assert ([s[0]] + rest)[1..] == rest;
        if s[0] == '\\' && rest != [] {
          // `rest` starts with an original non-reserved character or with the
          // backslash of an escape pair; neither is reserved.
          assert !IsReserved(rest[0]);
        }
      }
    }
  }

  /**
   * `bold_md(s)` is `s` escaped between two asterisks: every reserved
   * character inside is preceded by a backslash, and the inside reads back
   * as `s`.
   */
  lemma BoldDelimits(s: string)
    ensures var r := BoldMd(s);
      && |r| >= 2 && r[0] == '*' && r[|r| - 1] == '*'
      && WellEscaped(r[1..|r| - 1])
      && Unescape(r[1..|r| - 1]) == s
  {
    var r := BoldMd(s);
    assert r[1..|r| - 1] == EscapeMd(s);
    EscapeWellEscaped(s);
    UnescapeEscape(s);
  }

  /**
   * The backslash is not reserved, so `escape_md` leaves it alone. In the
   * escape of `\_` the original backslash and the added one form an
   * escaped backslash, which leaves the `_` bare for a MarkdownV2 reader.
   */
  lemma BackslashNotEscaped()
    ensures !IsReserved('\\')
    ensures EscapeMd("\\_") == "\\\\_"
  {
    assert EscapeMd("_") == "\\_";
  }

  /** A decimal number followed by ". " escapes to the number and an escaped period. */
  lemma EscapeNumbered(n: string, rest: string)
    requires AllDigits(n)
    ensures EscapeMd(n + ". " + rest) == n + "\\. " + EscapeMd(rest)
  {
    assert n + ". " + rest == n + (". " + rest);
    EscapeConcat(n, ". " + rest);
    EscapeIdentity(n);
    assert ". " + rest == ['.'] + (" " + rest);
    assert (". " + rest)[1..] == " " + rest;
    assert (" " + rest)[1..] == rest;
  }
}
