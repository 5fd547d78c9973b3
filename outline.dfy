/**
 * `parse_description`: rebuild the numbered outline of an event description.
 * A line of the form `^\s*(\d{1,2})\.\s+(.*)` opens an item; any other line
 * continues the open item; each item is emitted, escaped, as
 * "<number>. <text>".
 */
module Outline {
  import opened Text
  import opened Markdown
  import opened Wrappers

  /** The two groups of a line that opens an item. */
  datatype Item = Item(number: string, text: string)

  /**
   * The regular expression matched at the start of `line`: whitespace up to
   * `w`, one or two digits up to `p`, a period, at least one whitespace
   * character, and the text from `t` on, where `t` ends the greedy `\s+`.
   */
  predicate MatchAt(line: string, w: nat, p: nat, t: nat) {
    && w < p <= w + 2 && p + 1 < t <= |line|
    && AllSpace(line[..w]) && AllDigits(line[w..p])
    && line[p] == '.' && AllSpace(line[p + 1..t])
    && (t == |line| || !IsSpace(line[t]))
  }

  /** `re.match(r"^\s*(\d{1,2})\.\s+(.*)", line)`. */
  function ClassifyLine(line: string): (r: Option<Item>)
    ensures r.Some? ==> 1 <= |r.value.number| <= 2 && AllDigits(r.value.number)
  {
    var w := FirstNonSpace(line, 0);
    if w < |line| && IsDigit(line[w]) then
      var p := if w + 1 < |line| && IsDigit(line[w + 1]) then w + 2 else w + 1;
      if p + 1 < |line| && line[p] == '.' && IsSpace(line[p + 1]) then
        Some(Item(line[w..p], line[FirstNonSpace(line, p + 1)..]))
      else None
    else None
  }

  /** What `ClassifyLine` reports is a match of the expression, with its two groups. */
  lemma ClassifyLineSound(line: string)
    requires ClassifyLine(line).Some?
    ensures exists w: nat, p: nat, t: nat :: MatchAt(line, w, p, t) && ClassifyLine(line).value == Item(line[w..p], line[t..])
  {
    var w := FirstNonSpace(line, 0);
    var p := if w + 1 < |line| && IsDigit(line[w + 1]) then w + 2 else w + 1;
    var t := FirstNonSpace(line, p + 1);
    assert MatchAt(line, w, p, t);
  }

  /** Every match of the expression is the one `ClassifyLine` reports. */
  lemma ClassifyLineComplete(line: string, w: nat, p: nat, t: nat)
    requires MatchAt(line, w, p, t)
    ensures ClassifyLine(line) == Some(Item(line[w..p], line[t..]))
  {
    assert IsDigit(line[w]) by { assert line[w] == line[w..p][0]; }
    FirstNonSpaceAt(line, 0, w);
    assert p == w + 2 ==> IsDigit(line[w + 1]) by {
      if p == w + 2 { assert line[w + 1] == line[w..p][1]; }
    }
    FirstNonSpaceAt(line, p + 1, t);
  }

  /** The lines the loop visits: `text.strip().splitlines()`, each `rstrip`ped. */
  function DescriptionLines(text: string): (lines: seq<string>) {
    var raw := SplitLines(Strip(text));
    seq(|raw|, k requires 0 <= k < |raw| => RStrip(raw[k]))
  }

  /**
   * A visited line as the loop sees it: either it opens an item (the two
   * groups of the match) or it contributes its stripped text to the open one.
   */
  datatype Line = Opens(number: string, text: string) | Continues(text: string)

  function Lex(line: string): (l: Line)
    ensures l.Opens? ==> 1 <= |l.number| <= 2 && AllDigits(l.number)
  {
    match ClassifyLine(line)
    case Some(it) => Opens(it.number, it.text)
    case None => Continues(Strip(line))
  }

  function Lexed(lines: seq<string>): (ls: seq<Line>)
    ensures |ls| == |lines|
  {
    seq(|lines|, k requires 0 <= k < |lines| => Lex(lines[k]))
  }

  /** The indices below `i` of the lines that open an item, in increasing order. */
  function ItemsBefore(ls: seq<Line>, i: nat): (m: seq<nat>)
    requires i <= |ls|
    ensures forall j :: j in m ==> j < i && ls[j].Opens?
  {
    if i == 0 then []
    else ItemsBefore(ls, i - 1) + (if ls[i - 1].Opens? then [i - 1] else [])
  }

  /** `ItemsBefore` lists the indices in increasing order. */
  lemma {:induction false} ItemsBeforeIncreasing(ls: seq<Line>, i: nat, k: nat, l: nat)
    requires i <= |ls| && k < l < |ItemsBefore(ls, i)|
    ensures ItemsBefore(ls, i)[k] < ItemsBefore(ls, i)[l]
  {
    var prev := ItemsBefore(ls, i - 1);
    assert ItemsBefore(ls, i) == prev + (if ls[i - 1].Opens? then [i - 1] else []);
    if l < |prev| {
      ItemsBeforeIncreasing(ls, i - 1, k, l);
    } else {
      assert prev[k] in prev;
    }
  }

  /** `ItemsBefore` misses no item-opening line. */
  lemma {:induction false} ItemsBeforeComplete(ls: seq<Line>, i: nat, j: nat)
    requires j < i <= |ls| && ls[j].Opens?
    ensures j in ItemsBefore(ls, i)
  {
    if j < i - 1 {
      ItemsBeforeComplete(ls, i - 1, j);
    }
  }

  /** The first line at or after `j` that opens an item, or `|ls|`. */
  function NextItem(ls: seq<Line>, j: nat): (k: nat)
    requires j <= |ls|
    ensures j <= k <= |ls|
    ensures k < |ls| ==> ls[k].Opens?
    ensures forall l :: j <= l < k ==> ls[l].Continues?
    decreases |ls| - j
  {
    if j == |ls| || ls[j].Opens? then j else NextItem(ls, j + 1)
  }

  /** What lines `a` to `b - 1` add to an open item: a space and the stripped line each. */
  function Continuation(ls: seq<Line>, a: nat, b: nat): string
    requires a <= b <= |ls|
    decreases b
  {
    if a == b then "" else Continuation(ls, a, b - 1) + " " + ls[b - 1].text
  }

  /** The item opened at line `p`: its number and its text with all its continuation lines. */
  function ItemAt(ls: seq<Line>, p: nat): Item
    requires p < |ls| && ls[p].Opens?
  {
    Item(ls[p].number, ls[p].text + Continuation(ls, p + 1, NextItem(ls, p + 1)))
  }

  /** The items opened at the first `n` indices of `m`, in order. */
  function ItemsOf(ls: seq<Line>, m: seq<nat>, n: nat): (items: seq<Item>)
    requires n <= |m| && forall j :: j in m ==> j < |ls| && ls[j].Opens?
    ensures |items| == n
  {
    if n == 0 then []
    else
      assert m[n - 1] in m;
      ItemsOf(ls, m, n - 1) + [ItemAt(ls, m[n - 1])]
  }

  /** `ItemsOf` depends only on the indices it reads. */
  lemma {:induction false} ItemsOfPrefix(ls: seq<Line>, m1: seq<nat>, m2: seq<nat>, n: nat)
    requires n <= |m1| && forall j :: j in m1 ==> j < |ls| && ls[j].Opens?
    requires n <= |m2| && forall j :: j in m2 ==> j < |ls| && ls[j].Opens?
    requires m1[..n] == m2[..n]
    ensures ItemsOf(ls, m1, n) == ItemsOf(ls, m2, n)
  {
    if n > 0 {
      assert m1[..n - 1] == m1[..n][..n - 1] && m2[..n - 1] == m2[..n][..n - 1];
      assert m1[n - 1] == m1[..n][n - 1] && m2[n - 1] == m2[..n][n - 1];
      ItemsOfPrefix(ls, m1, m2, n - 1);
    }
  }

  /** The items of `ls`, in order. */
  function Items(ls: seq<Line>): (items: seq<Item>) {
    var m := ItemsBefore(ls, |ls|);
    ItemsOf(ls, m, |m|)
  }

  /** The emitted form of an item: escaped number, ". ", and stripped accumulated text. */
  function Emit(it: Item): string {
    EscapeMd(it.number + ". " + Strip(it.text))
  }

  function EmitAll(items: seq<Item>): (r: seq<string>)
    ensures |r| == |items|
  {
    if items == [] then [] else EmitAll(items[..|items| - 1]) + [Emit(items[|items| - 1])]
  }

  lemma EmitAllSnoc(items: seq<Item>, it: Item)
    ensures EmitAll(items + [it]) == EmitAll(items) + [Emit(it)]
  {
    assert (items + [it])[..|items|] == items;
  }

  /** The outline of `ls`: one emitted line per item, in order. */
  function Outline(ls: seq<Line>): seq<string> {
    EmitAll(Items(ls))
  }

  /**
   * The state of the scan after `i` lines: the items closed so far are
   * `closed`; `number` is empty while no item is open, and otherwise the open
   * item's number, with `item` its text so far.
   */
  ghost predicate Scanned(ls: seq<Line>, i: nat, closed: seq<Item>, number: string, item: string)
    requires i <= |ls|
  {
    var m := ItemsBefore(ls, i);
    if m == [] then number == "" && closed == []
    else
      var p := m[|m| - 1];
      assert p in m;
      && number == ls[p].number && number != ""
      && item == ls[p].text + Continuation(ls, p + 1, i)
      && closed == ItemsOf(ls, m, |m| - 1)
  }

  /** A line that opens an item closes the open one, if any, and opens its own. */
  lemma ScanItemLine(ls: seq<Line>, i: nat, closed: seq<Item>, number: string, item: string)
    requires i < |ls| && Scanned(ls, i, closed, number, item) && ls[i].Opens? && ls[i].number != ""
    ensures Scanned(ls, i + 1, if number != "" then closed + [Item(number, item)] else closed, ls[i].number, ls[i].text)
  {
    ClosedAt(ls, i, closed, number, item);
    OpenAt(ls, i);
  }

  /** Once line `i` opens an item, that item is the open one, with its own text so far. */
  lemma OpenAt(ls: seq<Line>, i: nat)
    requires i < |ls| && ls[i].Opens? && ls[i].number != ""
    ensures var m := ItemsBefore(ls, i);
      Scanned(ls, i + 1, ItemsOf(ls, m + [i], |m|), ls[i].number, ls[i].text)
  {
    var m := ItemsBefore(ls, i);
    assert ItemsBefore(ls, i + 1) == m + [i];
    assert (m + [i])[|m|] == i;
    assert ls[i].text == ls[i].text + Continuation(ls, i + 1, i + 1);
  }

  /** The items closed once line `i` opens one: those closed before, then the open one, if any. */
  lemma ClosedAt(ls: seq<Line>, i: nat, closed: seq<Item>, number: string, item: string)
    requires i < |ls| && Scanned(ls, i, closed, number, item) && ls[i].Opens?
    ensures var m := ItemsBefore(ls, i);
      ItemsOf(ls, m + [i], |m|) == if number != "" then closed + [Item(number, item)] else closed
  {
    var m := ItemsBefore(ls, i);
    if m == [] {
      assert number == "" && closed == [];
      assert ItemsOf(ls, m + [i], 0) == [];
    } else {
      ScannedOpen(ls, i, closed, number, item);
      CloseItem(ls, i);
    }
  }

  /** While an item is open, the scan state names it and the items closed before it. */
  lemma ScannedOpen(ls: seq<Line>, i: nat, closed: seq<Item>, number: string, item: string)
    requires i <= |ls| && Scanned(ls, i, closed, number, item) && ItemsBefore(ls, i) != []
    ensures var m := ItemsBefore(ls, i);
      var p := m[|m| - 1];
      && p in m && p < i && number != ""
      && Item(number, item) == Item(ls[p].number, ls[p].text + Continuation(ls, p + 1, i))
      && closed == ItemsOf(ls, m, |m| - 1)
  {
  }

  /** When line `i` opens an item, the item opened last before it runs up to line `i`. */
  lemma CloseItem(ls: seq<Line>, i: nat)
    requires i < |ls| && ls[i].Opens? && ItemsBefore(ls, i) != []
    ensures var m := ItemsBefore(ls, i);
      var p := m[|m| - 1];
      && p in m
      && ItemsOf(ls, m + [i], |m|) == ItemsOf(ls, m, |m| - 1) + [Item(ls[p].number, ls[p].text + Continuation(ls, p + 1, i))]
  {
    var m := ItemsBefore(ls, i);
    var m' := m + [i];
    var n := |m| - 1;
    var p := m[n];
    assert p in m && m'[n] == p;
    assert m'[..n] == m[..n];
    ItemsOfPrefix(ls, m, m', n);
    NoItemBetween(ls, m, i);
  }

  /** Any other line is appended, after one space, to the open item's text. */
  lemma ScanOtherLine(ls: seq<Line>, i: nat, closed: seq<Item>, number: string, item: string)
    requires i < |ls| && Scanned(ls, i, closed, number, item) && ls[i].Continues?
    ensures Scanned(ls, i + 1, closed, number, item + " " + ls[i].text)
  {
    var m := ItemsBefore(ls, i);
    assert ItemsBefore(ls, i + 1) == m;
    if m != [] {
      var p := m[|m| - 1];
      var text := ls[p].text;
      var cont := Continuation(ls, p + 1, i);
      var s := ls[i].text;
      assert Continuation(ls, p + 1, i + 1) == cont + " " + s;
      assert (text + cont) + " " + s == text + (cont + " " + s);
    }
  }

  /** At the end of input the open item, if any, is closed, and the items are complete. */
  lemma ScanEnd(ls: seq<Line>, closed: seq<Item>, number: string, item: string)
    requires Scanned(ls, |ls|, closed, number, item)
    ensures (if number != "" then closed + [Item(number, item)] else closed) == Items(ls)
  {
    var m := ItemsBefore(ls, |ls|);
    if m != [] {
      NoItemBetween(ls, m, |ls|);
    }
  }

  lemma DescriptionLineAt(text: string, i: nat)
    requires i < |SplitLines(Strip(text))|
    ensures i < |DescriptionLines(text)|
    ensures Lexed(DescriptionLines(text))[i] == Lex(RStrip(SplitLines(Strip(text))[i]))
  {
  }

  /** `parse_description(text)`. */
  method ParseDescription(text: string) returns (result: seq<string>)
    ensures result == Outline(Lexed(DescriptionLines(text)))
  {
    var raw := SplitLines(Strip(text));
    ghost var ls := Lexed(DescriptionLines(text));
    ghost var closed: seq<Item> := [];
    var currentItem, currentNumber := "", "";
    result := [];
    for i := 0 to |raw|
      invariant |ls| == |raw|
      invariant Scanned(ls, i, closed, currentNumber, currentItem)
      invariant result == EmitAll(closed)
    {
      var line := RStrip(raw[i]);
      var l := Lex(line);
      DescriptionLineAt(text, i);
      if l.Opens? {
        ScanItemLine(ls, i, closed, currentNumber, currentItem);
        if currentNumber != "" {
          EmitAllSnoc(closed, Item(currentNumber, currentItem));
          result := result + [Emit(Item(currentNumber, currentItem))];
          closed := closed + [Item(currentNumber, currentItem)];
        }
        currentNumber := l.number;
        currentItem := l.text;
      } else {
        ScanOtherLine(ls, i, closed, currentNumber, currentItem);
        currentItem := currentItem + " " + l.text;
      }
    }
    ScanEnd(ls, closed, currentNumber, currentItem);
    if currentNumber != "" {
      EmitAllSnoc(closed, Item(currentNumber, currentItem));
      result := result + [Emit(Item(currentNumber, currentItem))];
      closed := closed + [Item(currentNumber, currentItem)];
    }
  }

  /** No line after the last item below `i` opens an item. */
  lemma NoItemBetween(ls: seq<Line>, m: seq<nat>, i: nat)
    requires i <= |ls| && m == ItemsBefore(ls, i) && m != []
    requires i == |ls| || ls[i].Opens?
    ensures m[|m| - 1] < i
    ensures NextItem(ls, m[|m| - 1] + 1) == i
  {
    var p := m[|m| - 1];
    assert p in m;
    forall j | p < j < i ensures ls[j].Continues? {
      forall k | 0 <= k < |m| ensures m[k] != j {
        if k < |m| - 1 { ItemsBeforeIncreasing(ls, i, k, |m| - 1); }
      }
      if ls[j].Opens? {
        ItemsBeforeComplete(ls, i, j);
      }
    }
    NextItemSkips(ls, p + 1, i);
  }

  lemma {:induction false} NextItemSkips(ls: seq<Line>, a: nat, b: nat)
    requires a <= b <= |ls|
    requires forall j :: a <= j < b ==> ls[j].Continues?
    requires b == |ls| || ls[b].Opens?
    ensures NextItem(ls, a) == b
    decreases b - a
  {
    if a < b {
      NextItemSkips(ls, a + 1, b);
    }
  }

  /** An outline is empty exactly when no line opens an item. */
  lemma OutlineEmpty(ls: seq<Line>)
    ensures Outline(ls) == [] <==> forall j :: 0 <= j < |ls| ==> ls[j].Continues?
  {
    var m := ItemsBefore(ls, |ls|);
    if m != [] {
      assert m[0] in m;
    }
    forall j | 0 <= j < |ls| && ls[j].Opens? ensures m != [] {
      ItemsBeforeComplete(ls, |ls|, j);
    }
  }

  /** Item `k` of `ItemsOf` is the one opened at `m[k]`. */
  lemma {:induction false} ItemsOfAt(ls: seq<Line>, m: seq<nat>, n: nat, k: nat)
    requires n <= |m| && forall j :: j in m ==> j < |ls| && ls[j].Opens?
    requires k < n
    ensures m[k] in m && ItemsOf(ls, m, n)[k] == ItemAt(ls, m[k])
  {
    if k < n - 1 {
      ItemsOfAt(ls, m, n - 1, k);
    }
  }

  /** Line `k` of `EmitAll` is item `k` emitted. */
  lemma {:induction false} EmitAllAt(items: seq<Item>, k: nat)
    requires k < |items|
    ensures EmitAll(items)[k] == Emit(items[k])
  {
    if k < |items| - 1 {
      EmitAllAt(items[..|items| - 1], k);
    }
  }

  /**
   * The outline has one line per line that opens an item, in input order:
   * `m` lists exactly those lines, increasingly, and line `k` of the outline
   * is the item opened at `m[k]`.
   */
  lemma OutlineItems(ls: seq<Line>)
    ensures var m := ItemsBefore(ls, |ls|);
      && |Outline(ls)| == |m|
      && (forall j :: 0 <= j < |ls| ==> (ls[j].Opens? <==> j in m))
      && (forall k, l :: 0 <= k < l < |m| ==> m[k] < m[l])
      && (forall k :: 0 <= k < |m| ==> m[k] in m && Outline(ls)[k] == Emit(ItemAt(ls, m[k])))
  {
    OpeningLines(ls);
    OpeningLinesSorted(ls);
    OutlineLines(ls);
  }

  lemma OpeningLines(ls: seq<Line>)
    ensures forall j :: 0 <= j < |ls| ==> (ls[j].Opens? <==> j in ItemsBefore(ls, |ls|))
  {
    forall j | 0 <= j < |ls| && ls[j].Opens? ensures j in ItemsBefore(ls, |ls|) {
      ItemsBeforeComplete(ls, |ls|, j);
    }
  }

  lemma OpeningLinesSorted(ls: seq<Line>)
    ensures var m := ItemsBefore(ls, |ls|);
      forall k, l :: 0 <= k < l < |m| ==> m[k] < m[l]
  {
    var m := ItemsBefore(ls, |ls|);
    forall k, l | 0 <= k < l < |m| ensures m[k] < m[l] {
      ItemsBeforeIncreasing(ls, |ls|, k, l);
    }
  }

  lemma OutlineLines(ls: seq<Line>)
    ensures var m := ItemsBefore(ls, |ls|);
      forall k :: 0 <= k < |m| ==> m[k] in m && Outline(ls)[k] == Emit(ItemAt(ls, m[k]))
  {
    var m := ItemsBefore(ls, |ls|);
    forall k | 0 <= k < |m| ensures m[k] in m && Outline(ls)[k] == Emit(ItemAt(ls, m[k])) {
      ItemsOfAt(ls, m, |m|, k);
      EmitAllAt(Items(ls), k);
    }
  }

  /** Every emitted line starts with the item's number followed by an escaped period. */
  lemma ItemLineNumbered(lines: seq<string>, p: nat)
    requires p < |lines| && Lexed(lines)[p].Opens?
    ensures exists rest :: Emit(ItemAt(Lexed(lines), p)) == Lexed(lines)[p].number + "\\. " + rest
  {
    var ls := Lexed(lines);
    var rest := Strip(ls[p].text + Continuation(ls, p + 1, NextItem(ls, p + 1)));
    assert AllDigits(ls[p].number);
    EscapeNumbered(ls[p].number, rest);
  }
}
