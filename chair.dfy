/**
 * `get_chu_tri`: the chair of a meeting, read from the description line
 * "4. Chủ trì: <name>". The search is `re.search` of
 * `4\.\s*Chủ trì: ([^\n]*)`: unanchored, leftmost, with the whitespace run
 * between "4." and the label free to span line breaks; the captured name
 * runs to the next "\n" and is then stripped.
 */
module Chair {
  import opened Wrappers
  import opened Text

  /** The literal label of the expression, "Chủ trì: " (nine code points). */
  const Label: string := "Chủ trì: "

  /**
   * The expression's prefix `4\.\s*Chủ trì: ` matches at `i`, with its
   * whitespace run ending at `k`.
   */
  predicate RegexAt(s: string, i: nat, k: nat) {
    && i + 2 <= k <= |s|
    && s[i] == '4' && s[i + 1] == '.'
    && AllSpace(s[i + 2..k])
    && k + |Label| <= |s| && s[k..k + |Label|] == Label
  }

  /** The expression matches at `i`, the whitespace run taken greedily. */
  predicate ChairAt(s: string, i: nat) {
    && i + 2 <= |s| && s[i] == '4' && s[i + 1] == '.'
    && var k := FirstNonSpace(s, i + 2);
       k + |Label| <= |s| && s[k..k + |Label|] == Label
  }

  /** Greedy and non-greedy whitespace runs agree: the label cannot start with whitespace. */
  lemma ChairAtIff(s: string, i: nat)
    ensures ChairAt(s, i) <==> exists k: nat :: RegexAt(s, i, k)
  {
    if ChairAt(s, i) {
      assert RegexAt(s, i, FirstNonSpace(s, i + 2));
    }
    if k: nat :| RegexAt(s, i, k) {
      assert s[k] == s[k..k + |Label|][0] == Label[0] == 'C';
      FirstNonSpaceAt(s, i + 2, k);
    }
  }

  /** The leftmost position at or after `i` where the expression matches. */
  function FindChair(s: string, i: nat): (r: Option<nat>)
    requires i <= |s|
    ensures r.Some? ==> i <= r.value < |s| && ChairAt(s, r.value)
    decreases |s| - i
  {
    if ChairAt(s, i) then Some(i)
    else if i == |s| then None
    else FindChair(s, i + 1)
  }

  /** No match is missed: `FindChair` reports a match at or before any match. */
  lemma {:induction false} FindChairLeftmost(s: string, i: nat, j: nat)
    requires i <= j <= |s| && ChairAt(s, j)
    ensures FindChair(s, i).Some? && FindChair(s, i).value <= j
    decreases |s| - i
  {
    if !ChairAt(s, i) {
      FindChairLeftmost(s, i + 1, j);
    }
  }

  /** Index of the first "\n" at or after `k`, or `|s|`: where `[^\n]*` stops. */
  function LineEnd(s: string, k: nat): (e: nat)
    requires k <= |s|
    ensures k <= e <= |s|
    ensures e < |s| ==> s[e] == '\n'
    ensures forall j :: k <= j < e ==> s[j] != '\n'
    decreases |s| - k
  {
    if k == |s| || s[k] == '\n' then k else LineEnd(s, k + 1)
  }

  /** The capture group of the match at `i`: the rest of the line after the label. */
  function Capture(desc: string, i: nat): (name: string)
    requires ChairAt(desc, i)
    ensures forall j :: 0 <= j < |name| ==> name[j] != '\n'
  {
    var k := FirstNonSpace(desc, i + 2) + |Label|;
    var name := desc[k..LineEnd(desc, k)];
    assert forall j :: 0 <= j < |name| ==> name[j] != '\n' by {
      forall j | 0 <= j < |name| ensures name[j] != '\n' { assert name[j] == desc[k + j]; }
    }
    name
  }

  /** `get_chu_tri(desc)`: the stripped capture of the leftmost match, or "". */
  function GetChuTri(desc: string): (r: string)
    ensures NoSpaceAtEnds(r)
    ensures forall j :: 0 <= j < |r| ==> r[j] != '\n'
  {
    match FindChair(desc, 0)
    case None => ""
    case Some(i) =>
      StripOneLine(Capture(desc, i));
      Strip(Capture(desc, i))
  }

  /** Stripping a text without "\n" leaves none. */
  lemma StripOneLine(name: string)
    requires forall j :: 0 <= j < |name| ==> name[j] != '\n'
    ensures forall j :: 0 <= j < |Strip(name)| ==> Strip(name)[j] != '\n'
  {
    var l := LStrip(name);
    var r := RStrip(l);
    assert r == Strip(name);
    forall j | 0 <= j < |r| ensures r[j] != '\n' {
      assert r[j] == l[j] == name[|name| - |l| + j];
    }
  }

  /** No match anywhere: the chair is "". */
  lemma GetChuTriAbsent(desc: string)
    requires forall i, k :: !RegexAt(desc, i, k)
    ensures GetChuTri(desc) == ""
  {
    match FindChair(desc, 0)
    case None =>
    case Some(i) =>
      ChairAtIff(desc, i);
  }

  /** The search stops at the leftmost match of the expression. */
  lemma FindChairFirst(desc: string, i: nat, k: nat)
    requires RegexAt(desc, i, k)
    requires forall j, k' :: 0 <= j < i ==> !RegexAt(desc, j, k')
    ensures FindChair(desc, 0) == Some(i)
  {
    ChairAtIff(desc, i);
    FindChairLeftmost(desc, 0, i);
    var j := FindChair(desc, 0).value;
    ChairAtIff(desc, j);
  }

  /**
   * The chair is the stripped rest of the line after the label of the
   * leftmost match: at `i`, with its whitespace run ending at `k`.
   */
  lemma GetChuTriLeftmost(desc: string, i: nat, k: nat)
    requires RegexAt(desc, i, k)
    requires forall j, k' :: 0 <= j < i ==> !RegexAt(desc, j, k')
    ensures GetChuTri(desc) == Strip(desc[k + |Label|..LineEnd(desc, k + |Label|)])
  {
    FindChairFirst(desc, i, k);
    assert desc[k] == desc[k..k + |Label|][0] == Label[0] == 'C';
    FirstNonSpaceAt(desc, i + 2, k);
    assert Capture(desc, i) == desc[k + |Label|..LineEnd(desc, k + |Label|)];
  }

  /**
   * The search is unanchored: a chair line numbered "14." (or with any other
   * character before "4.") is still found, through the "4." inside it.
   */
  lemma UnanchoredMatch(s: string)
    requires |s| >= 13 && s[1..4] == "4. " && s[4..13] == Label
    requires NoSpaceAtEnds(s[13..]) && forall j :: 13 <= j < |s| ==> s[j] != '\n'
    ensures GetChuTri(s) == s[13..]
  {
    assert s[1] == s[1..4][0] == '4';
    assert s[2] == s[1..4][1] == '.';
    assert s[3] == s[1..4][2] == ' ';
    assert RegexAt(s, 1, 4) by {
      assert s[3..4] == [s[3]];
    }
    GetChuTriLeftmost(s, 1, 4);
    LineEndAtEnd(s, 13);
    assert s[13..LineEnd(s, 13)] == s[13..];
    StripOfUnpadded(s[13..]);
  }

  lemma LineEndAtEnd(s: string, k: nat)
    requires k <= |s| && forall j :: k <= j < |s| ==> s[j] != '\n'
    ensures LineEnd(s, k) == |s|
  {
  }
}
