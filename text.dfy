/**
 * Python string primitives that the bot's text logic relies on:
 * `str.isspace`, `str.strip`/`lstrip`/`rstrip`, `str.splitlines`,
 * `str(int)` and the zero-padded numbers `strftime` produces.
 */
module Text {

  /** Python's `str.isspace()` (and the `\s` class of `re` on str patterns). */
  predicate IsSpace(c: char) {
    c == ' ' || ('\t' <= c <= '\r') || ('\U{1c}' <= c <= '\U{1f}')
    || c == '\U{85}' || c == '\U{a0}' || c == '\U{1680}'
    || ('\U{2000}' <= c <= '\U{200a}') || c == '\U{2028}' || c == '\U{2029}'
    || c == '\U{202f}' || c == '\U{205f}' || c == '\U{3000}'
  }

  /** The characters at which `str.splitlines()` breaks a line. */
  predicate IsLineBreak(c: char) {
    ('\n' <= c <= '\r') || ('\U{1c}' <= c <= '\U{1e}')
    || c == '\U{85}' || c == '\U{2028}' || c == '\U{2029}'
  }

  predicate IsDigit(c: char) {
    '0' <= c <= '9'
  }

  predicate NoSpaceAtEnds(s: string) {
    s == [] || (!IsSpace(s[0]) && !IsSpace(s[|s| - 1]))
  }

  predicate AllSpace(s: string) {
    forall k :: 0 <= k < |s| ==> IsSpace(s[k])
  }

  /** `s.rstrip()`: drop trailing whitespace. */
  function RStrip(s: string): (r: string)
    ensures |r| <= |s| && r == s[..|r|]
    ensures r == [] || !IsSpace(r[|r| - 1])
  {
    if s != [] && IsSpace(s[|s| - 1]) then RStrip(s[..|s| - 1]) else s
  }

  /** What `RStrip` drops is whitespace. */
  lemma {:induction false} RStripDropsSpace(s: string)
    ensures AllSpace(s[|RStrip(s)|..])
  {
    if s != [] && IsSpace(s[|s| - 1]) {
      var init := s[..|s| - 1];
      RStripDropsSpace(init);
      var n := |RStrip(init)|;
      assert s[n..] == init[n..] + [s[|s| - 1]];
    }
  }

  /** `s.lstrip()`: drop leading whitespace. */
  function LStrip(s: string): (r: string)
    ensures |r| <= |s| && r == s[|s| - |r|..]
    ensures r == [] || !IsSpace(r[0])
  {
    if s != [] && IsSpace(s[0]) then LStrip(s[1..]) else s
  }

  /** What `LStrip` drops is whitespace. */
  lemma {:induction false} LStripDropsSpace(s: string)
    ensures AllSpace(s[..|s| - |LStrip(s)|])
  {
    if s != [] && IsSpace(s[0]) {
      var tail := s[1..];
      LStripDropsSpace(tail);
      var n := |tail| - |LStrip(tail)|;
      assert s[..|s| - |LStrip(s)|] == [s[0]] + tail[..n];
    }
  }

  /** `s.strip()`: drop whitespace from both ends. */
  function Strip(s: string): (r: string)
    ensures |r| <= |s|
    ensures NoSpaceAtEnds(r)
  {
    RStrip(LStrip(s))
  }

  /** What `Strip` keeps is a slice of `s` with only whitespace around it. */
  lemma StripSlice(s: string)
    ensures exists i, j :: 0 <= i <= j <= |s| && Strip(s) == s[i..j] && AllSpace(s[..i]) && AllSpace(s[j..])
  {
    var l := LStrip(s);
    var r := RStrip(l);
    var i := |s| - |l|;
    LStripDropsSpace(s);
    RStripDropsSpace(l);
    assert r == s[i..i + |r|];
    assert s[i..][|r|..] == s[i + |r|..];
  }

  lemma {:induction false} StripOfUnpadded(s: string)
    requires NoSpaceAtEnds(s)
    ensures Strip(s) == s
  {
  }

  /** Index of the first non-whitespace character of `s` at or after `i`, or `|s|`. */
  function FirstNonSpace(s: string, i: nat): (k: nat)
    requires i <= |s|
    ensures i <= k <= |s| && AllSpace(s[i..k])
    ensures k < |s| ==> !IsSpace(s[k])
    decreases |s| - i
  {
    if i == |s| || !IsSpace(s[i]) then i
    else
      var k := FirstNonSpace(s, i + 1);
      assert s[i..k] == [s[i]] + s[i + 1..k];
      k
  }

  /** The first non-whitespace character is the one after a whitespace run. */
  lemma FirstNonSpaceAt(s: string, i: nat, k: nat)
    requires i <= k <= |s| && AllSpace(s[i..k]) && (k == |s| || !IsSpace(s[k]))
    ensures FirstNonSpace(s, i) == k
  {
    var f := FirstNonSpace(s, i);
    assert forall j :: i <= j < k ==> IsSpace(s[j]) by {
      forall j | i <= j < k ensures IsSpace(s[j]) { assert s[i..k][j - i] == s[j]; }
    }
    assert forall j :: i <= j < f ==> IsSpace(s[j]) by {
      forall j | i <= j < f ensures IsSpace(s[j]) { assert s[i..f][j - i] == s[j]; }
    }
  }

  /** Index of the first line-break character of `s` at or after `i`, or `|s|`. */
  function FirstBreak(s: string, i: nat): (k: nat)
    requires i <= |s|
    ensures i <= k <= |s|
    ensures k < |s| ==> IsLineBreak(s[k])
    ensures forall j :: i <= j < k ==> !IsLineBreak(s[j])
    decreases |s| - i
  {
    if i == |s| || IsLineBreak(s[i]) then i else FirstBreak(s, i + 1)
  }

  predicate NoLineBreak(s: string) {
    forall k :: 0 <= k < |s| ==> !IsLineBreak(s[k])
  }

  /**
   * `s.splitlines()`: the lines of `s` without their terminators; "\r\n"
   * counts as one terminator and a final terminator opens no empty line.
   */
  function SplitLines(s: string): (lines: seq<string>)
    ensures forall k :: 0 <= k < |lines| ==> NoLineBreak(lines[k])
    ensures s == [] <==> lines == []
    decreases |s|
  {
    if s == [] then []
    else
      var k := FirstBreak(s, 0);
      if k == |s| then [s]
      else
        var w := if s[k] == '\r' && k + 1 < |s| && s[k + 1] == '\n' then 2 else 1;
        [s[..k]] + SplitLines(s[k + w..])
  }

  function DigitChar(d: nat): (c: char)
    requires d < 10
    ensures IsDigit(c)
  {
    ('0' as int + d) as char
  }

  function DigitValue(c: char): (d: nat)
    requires IsDigit(c)
    ensures d < 10 && DigitChar(d) == c
  {
    (c as int - '0' as int) as nat
  }

  predicate AllDigits(s: string) {
    forall k :: 0 <= k < |s| ==> IsDigit(s[k])
  }

  /** The number a string of decimal digits denotes. */
  function DecimalValue(s: string): nat
    requires AllDigits(s)
  {
    if s == [] then 0 else DecimalValue(s[..|s| - 1]) * 10 + DigitValue(s[|s| - 1])
  }

  /** `str(n)` for a non-negative int. */
  function NatToString(n: nat): (s: string)
    ensures s != []
  {
    if n < 10 then [DigitChar(n)]
    else NatToString(n / 10) + [DigitChar(n % 10)]
  }

  /** `str(n)` is decimal digits with no leading zero. */
  lemma {:induction false} NatToStringDigits(n: nat)
    ensures AllDigits(NatToString(n))
    ensures |NatToString(n)| > 1 ==> NatToString(n)[0] != '0'
  {
    if n >= 10 {
      NatToStringDigits(n / 10);
      var s := NatToString(n);
      assert forall k :: 0 <= k < |s| - 1 ==> s[k] == NatToString(n / 10)[k];
    }
  }

  /** `str(n)` denotes `n`. */
  lemma {:induction false} NatToStringValue(n: nat)
    ensures AllDigits(NatToString(n)) && DecimalValue(NatToString(n)) == n
  {
    NatToStringDigits(n);
    var s := NatToString(n);
    if n < 10 {
      assert DecimalValue(s) == DecimalValue([]) * 10 + DigitValue(DigitChar(n));
    } else {
      NatToStringValue(n / 10);
      assert s[..|s| - 1] == NatToString(n / 10);
    }
  }

  function Pow10(w: nat): (p: nat)
    ensures p >= 1
  {
    if w == 0 then 1 else 10 * Pow10(w - 1)
  }

  /** `n` in exactly `w` digits, zero-padded on the left (`%02d`, `%04d`). */
  function Padded(n: nat, w: nat): (s: string)
    requires n < Pow10(w)
    ensures |s| == w
  {
    if w == 0 then [] else Padded(n / 10, w - 1) + [DigitChar(n % 10)]
  }

  /** The padded text is all digits, and they denote `n`. */
  lemma {:induction false} PaddedValue(n: nat, w: nat)
    requires n < Pow10(w)
    ensures AllDigits(Padded(n, w)) && DecimalValue(Padded(n, w)) == n
  {
    if w > 0 {
      var s := Padded(n, w);
      PaddedValue(n / 10, w - 1);
      assert forall k :: 0 <= k < |s| - 1 ==> s[k] == Padded(n / 10, w - 1)[k];
      assert s[..|s| - 1] == Padded(n / 10, w - 1);
      assert s[|s| - 1] == DigitChar(n % 10);
      assert DigitValue(DigitChar(n % 10)) == n % 10;
    }
  }
}
