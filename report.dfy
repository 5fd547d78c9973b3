/**
 * `build_output`: the message the bot posts, in three parts separated by a
 * blank line. Part one lists every upcoming event (number, time range,
 * summary, location, chair), part two lists the changes since the last run
 * numbered on from 1 across added, changed and removed events, part three
 * repeats each event with its numbered description outline. Every line goes
 * through `escape_md`, except the placeholder part two shows when nothing
 * changed, which is appended as it is. The message exists only when every
 * time range parses: the first `fromisoformat` that fails raises out of
 * `build_output`.
 */
module Report {
  import opened Wrappers
  import opened Text
  import opened Markdown
  import opened Events
  import opened TimeFormat
  import opened Outline
  import opened Chair

  /** `datetime.fromisoformat`, with `None` for the ValueError it raises. */
  type Parser = string -> Option<DateTime>

  const ScheduleHeading: string := "📋 Tất cả lịch sắp tới:"
  const ChangesHeading: string := "🔄 Thay đổi so với lần trước:"
  const DetailsHeading: string := "📝 Chi tiết các lịch sắp tới:"
  /** Each part's first line: its heading in bold. */
  const ScheduleTitle: string := "*" + ScheduleHeading + "*"
  const ChangesTitle: string := "*" + ChangesHeading + "*"
  const DetailsTitle: string := "*" + DetailsHeading + "*"
  /** Shown in part two when there is no change; the parentheses stay unescaped. */
  const NoChanges: string := "(không có thay đổi)"

  datatype ChangeKind = Added | Changed | Removed

  function Tag(kind: ChangeKind): string {
    match kind
    case Added => "🆕 [Thêm]"
    case Changed => "✏\U{fe0f} [Sửa]"
    case Removed => "❌ [Xoá]"
  }

  /** `fmt_time_range(ev)` does not raise: both instants parse. */
  predicate Parses(ev: Event, parse: Parser) {
    parse(ev.start).Some? && parse(ev.end).Some?
  }

  /** `fmt_time_range` as the message sees it: an event's range text, or `None` when it raises. */
  type Formatter = Event -> Option<string>

  /** Every event of `evs` has a range text (stated back to front, as the loops go). */
  predicate AllFormat(evs: seq<Event>, fmt: Formatter) {
    evs == [] || (AllFormat(evs[..|evs| - 1], fmt) && fmt(evs[|evs| - 1]).Some?)
  }

  /** `fmt_time_range` over `datetime.fromisoformat` given as `parse`. */
  function RangeFormatter(parse: Parser): Formatter {
    (ev: Event) => FmtTimeRange(ev.start, ev.end, parse)
  }

  /**
   * The range text of an event. It is only read for events whose range
   * formats (otherwise there is no message at all), so the empty text for
   * the others is never shown.
   */
  function RangeText(ev: Event, fmt: Formatter): string {
    match fmt(ev)
    case Some(range) => range
    case None => ""
  }

  /** `get_chu_tri` as the message sees it: the chair read from a description. */
  type ChairReader = string -> string

  /** `parse_description` as the message sees it: a description's outline lines. */
  type Describer = string -> seq<string>

  /** The outline `parse_description` produces. */
  function Description(text: string): seq<string> {
    Outline.Outline(Lexed(DescriptionLines(text)))
  }

  /** Part one's five lines for an event: time range in bold, summary, location, chair, rule. */
  function ScheduleEntry(number: nat, ev: Event, range: string, chair: string): seq<string> {
    [BoldMd(NatToString(number) + ". 🕐 " + range),
     EscapeMd("   📌 Nội dung: " + ev.summary),
     EscapeMd("   📍 Địa điểm: " + ev.location),
     EscapeMd("   👤 Chủ trì: " + chair),
     EscapeMd("---")]
  }

  /** What part two says about a change after its number: tag, time range and summary. */
  function ChangeText(kind: ChangeKind, ev: Event, range: string): string {
    Tag(kind) + " " + range + " – " + ev.summary
  }

  /** Part two's line for a change numbered `number`: the whole of it escaped. */
  function ChangeLine(number: nat, kind: ChangeKind, ev: Event, range: string): string {
    EscapeMd(NatToString(number) + ". " + ChangeText(kind, ev, range))
  }

  /** Part three's lines for an event: bold title, description outline, rule. */
  function DetailEntry(ev: Event, range: string, outline: seq<string>): seq<string> {
    [BoldMd("[" + range + "] " + ev.summary)] + outline + [EscapeMd("---\n")]
  }

  /** A change part two reports: its kind and the event. */
  datatype Change = Change(kind: ChangeKind, ev: Event)

  /** The lines one iteration of a loop adds for the item numbered `number`. */
  type Block<!E> = (nat, E) -> seq<string>

  /** The body of part one's loop. */
  function ScheduleBlock(fmt: Formatter, chair: ChairReader): Block<Event> {
    (number: nat, ev: Event) => ScheduleEntry(number, ev, RangeText(ev, fmt), chair(ev.descRaw))
  }

  /** The body of part two's loops. */
  function ChangeBlock(fmt: Formatter): Block<Change> {
    (number: nat, c: Change) => [ChangeLine(number, c.kind, c.ev, RangeText(c.ev, fmt))]
  }

  /** The body of part three's loop. */
  function DetailBlock(fmt: Formatter, describe: Describer): Block<Event> {
    (number: nat, ev: Event) => DetailEntry(ev, RangeText(ev, fmt), describe(ev.descRaw))
  }

  /** The lines of a loop over `items`, the first one numbered `first`. */
  function Lines<E>(block: Block<E>, items: seq<E>, first: nat): seq<string> {
    if items == [] then []
    else
      var n := |items| - 1;
      Lines(block, items[..n], first) + block(first + n, items[n])
  }

  /** The events of one of `diff_events`' lists, each with the kind of change the list stands for. */
  function Tagged(kind: ChangeKind, evs: seq<Event>): (r: seq<Change>)
    ensures |r| == |evs|
  {
    if evs == [] then [] else Tagged(kind, evs[..|evs| - 1]) + [Change(kind, evs[|evs| - 1])]
  }

  /** The changes in the order part two's loops visit them: added, changed, then removed events. */
  function Changes(added: seq<Event>, changed: seq<Event>, removed: seq<Event>): seq<Change> {
    Tagged(Added, added) + Tagged(Changed, changed) + Tagged(Removed, removed)
  }

  /** `lines1`: the heading of part one, then five lines per event, numbered from 1. */
  function ScheduleLines(events: seq<Event>, fmt: Formatter, chair: ChairReader): seq<string> {
    [ScheduleTitle] + Lines(ScheduleBlock(fmt, chair), events, 1)
  }

  /**
   * `lines2`: the heading of part two, one line per change numbered on from
   * 1 (the counter runs across the three loops), or the placeholder.
   */
  function ChangeLines(added: seq<Event>, changed: seq<Event>, removed: seq<Event>, fmt: Formatter): seq<string> {
    [ChangesTitle]
    + Lines(ChangeBlock(fmt), Changes(added, changed, removed), 1)
    + (if |added| + |changed| + |removed| == 0 then [NoChanges] else [])
  }

  /** `lines3`: the heading of part three, then each event's title, outline and rule. */
  function DetailLines(events: seq<Event>, fmt: Formatter, describe: Describer): seq<string> {
    [DetailsTitle] + Lines(DetailBlock(fmt, describe), events, 1)
  }

  /** Part two's lines are the three loops' lines, then the placeholder when there was no change. */
  lemma ChangeLinesParts(added: seq<Event>, changed: seq<Event>, removed: seq<Event>, fmt: Formatter,
                          second: nat, third: nat, body: seq<string>)
    requires second == 1 + |added| && third == second + |changed|
    requires body == [ChangesTitle] + Lines(ChangeBlock(fmt), Tagged(Added, added), 1)
      + Lines(ChangeBlock(fmt), Tagged(Changed, changed), second)
      + Lines(ChangeBlock(fmt), Tagged(Removed, removed), third)
    ensures ChangeLines(added, changed, removed, fmt)
         == body + (if |added| + |changed| + |removed| == 0 then [NoChanges] else [])
  {
    LinesAppend3(ChangeBlock(fmt), Tagged(Added, added), Tagged(Changed, changed), Tagged(Removed, removed), second, third);
    PrependAssoc(ChangesTitle, Lines(ChangeBlock(fmt), Tagged(Added, added), 1),
      Lines(ChangeBlock(fmt), Tagged(Changed, changed), second), Lines(ChangeBlock(fmt), Tagged(Removed, removed), third));
  }

  /** Part one's title is `bold_md` of its heading. */
  lemma ScheduleTitleIsBold()
    ensures ScheduleTitle == BoldMd(ScheduleHeading)
  {
    assert forall k :: 0 <= k < |ScheduleHeading| ==> !IsReserved(ScheduleHeading[k]);
    EscapeIdentity(ScheduleHeading);
  }

  /** Part two's title is `bold_md` of its heading. */
  lemma ChangesTitleIsBold()
    ensures ChangesTitle == BoldMd(ChangesHeading)
  {
    assert forall k :: 0 <= k < |ChangesHeading| ==> !IsReserved(ChangesHeading[k]);
    EscapeIdentity(ChangesHeading);
  }

  /** Part three's title is `bold_md` of its heading. */
  lemma DetailsTitleIsBold()
    ensures DetailsTitle == BoldMd(DetailsHeading)
  {
    assert forall k :: 0 <= k < |DetailsHeading| ==> !IsReserved(DetailsHeading[k]);
    EscapeIdentity(DetailsHeading);
  }

  /** `"\n".join(lines)`. */
  function JoinLines(lines: seq<string>): string {
    if lines == [] then ""
    else if |lines| == 1 then lines[0]
    else JoinLines(lines[..|lines| - 1]) + "\n" + lines[|lines| - 1]
  }

  /** An event's range formats exactly when it parses, and then it is the text of its two parsed instants. */
  lemma RangeFormatterParses(ev: Event, parse: Parser)
    ensures RangeFormatter(parse)(ev).Some? <==> Parses(ev, parse)
    ensures Parses(ev, parse) ==> RangeText(ev, RangeFormatter(parse)) == TimeRange(parse(ev.start).value, parse(ev.end).value)
  {
  }

  /** A list in which one event has no range text does not all format. */
  lemma {:induction false} AllFormatAt(evs: seq<Event>, fmt: Formatter, i: nat)
    requires i < |evs|
    ensures AllFormat(evs, fmt) ==> fmt(evs[i]).Some?
  {
    if i < |evs| - 1 {
      AllFormatAt(evs[..|evs| - 1], fmt, i);
    }
  }

  /** Over `fmt_time_range`, `AllFormat` says that the start and end of every event parse. */
  lemma AllFormatParses(evs: seq<Event>, parse: Parser)
    ensures AllFormat(evs, RangeFormatter(parse)) <==> forall k :: 0 <= k < |evs| ==> Parses(evs[k], parse)
  {
    if AllFormat(evs, RangeFormatter(parse)) {
      forall k | 0 <= k < |evs| ensures Parses(evs[k], parse) {
        AllFormatAt(evs, RangeFormatter(parse), k);
        RangeFormatterParses(evs[k], parse);
      }
    }
    if forall k :: 0 <= k < |evs| ==> Parses(evs[k], parse) {
      AllParseFormat(evs, parse);
    }
  }

  /** Events whose start and end all parse all have a range text. */
  lemma {:induction false} AllParseFormat(evs: seq<Event>, parse: Parser)
    requires forall k :: 0 <= k < |evs| ==> Parses(evs[k], parse)
    ensures AllFormat(evs, RangeFormatter(parse))
  {
    if evs != [] {
      var init := evs[..|evs| - 1];
      forall k | 0 <= k < |init| ensures Parses(init[k], parse) {
        assert init[k] == evs[k];
      }
      AllParseFormat(init, parse);
      RangeFormatterParses(evs[|evs| - 1], parse);
    }
  }

  /** A loop that found a range text for one more event has found one for all so far. */
  lemma AllFormatSnoc(evs: seq<Event>, fmt: Formatter, i: nat)
    requires i < |evs| && AllFormat(evs[..i], fmt) && fmt(evs[i]).Some?
    ensures AllFormat(evs[..i + 1], fmt)
  {
    assert evs[..i + 1][..i] == evs[..i];
  }

  /** One more iteration of a loop appends the lines of the next event. */
  lemma LinesSnoc<E>(block: Block<E>, items: seq<E>, first: nat, i: nat)
    requires i < |items|
    ensures Lines(block, items[..i + 1], first) == Lines(block, items[..i], first) + block(first + i, items[i])
  {
    assert items[..i + 1][..i] == items[..i];
  }

  /** A loop over two runs of items is the loop over the first, then the loop over the second numbered on. */
  lemma {:induction false} LinesAppend<E>(block: Block<E>, xs: seq<E>, ys: seq<E>, first: nat)
    ensures Lines(block, xs + ys, first) == Lines(block, xs, first) + Lines(block, ys, first + |xs|)
    decreases |ys|
  {
    if ys == [] {
      assert xs + ys == xs;
    } else {
      var n := |ys| - 1;
      var last := block(first + |xs| + n, ys[n]);
      assert (xs + ys)[..|xs| + n] == xs + ys[..n];
      assert (xs + ys)[|xs| + n] == ys[n];
      calc {
        Lines(block, xs + ys, first);
        Lines(block, xs + ys[..n], first) + last;
        { LinesAppend(block, xs, ys[..n], first); }
        Lines(block, xs, first) + Lines(block, ys[..n], first + |xs|) + last;
        Lines(block, xs, first) + Lines(block, ys, first + |xs|);
      }
    }
  }

  /** The loop over three runs of items, numbered on from one run to the next. */
  lemma LinesAppend3<E>(block: Block<E>, a: seq<E>, c: seq<E>, r: seq<E>, second: nat, third: nat)
    requires second == 1 + |a| && third == second + |c|
    ensures Lines(block, a + c + r, 1) == Lines(block, a, 1) + Lines(block, c, second) + Lines(block, r, third)
  {
    LinesAppend(block, a, c, 1);
    LinesAppend(block, a + c, r, 1);
  }

  lemma PrependAssoc<T>(h: T, x: seq<T>, y: seq<T>, z: seq<T>)
    ensures [h] + (x + y + z) == [h] + x + y + z
  {
  }

  /** The lines item `k` adds sit between those of the items before it and those after it. */
  lemma LinesAt<E>(block: Block<E>, items: seq<E>, first: nat, k: nat)
    requires k < |items|
    ensures Lines(block, items, first)
         == Lines(block, items[..k], first) + block(first + k, items[k]) + Lines(block, items[k + 1..], first + k + 1)
  {
    var tail := [items[k]] + items[k + 1..];
    assert items == items[..k] + tail;
    LinesAppend(block, items[..k], tail, first);
    LinesAppend(block, [items[k]], items[k + 1..], first + k);
    assert [items[k]][..0] == [];
  }

  /** Part one's loop adds five lines per event. */
  lemma {:induction false} ScheduleLength(evs: seq<Event>, first: nat, fmt: Formatter, chair: ChairReader)
    ensures |Lines(ScheduleBlock(fmt, chair), evs, first)| == 5 * |evs|
  {
    if evs != [] {
      ScheduleLength(evs[..|evs| - 1], first, fmt, chair);
      ScheduleWidth(fmt, chair, first + |evs| - 1, evs[|evs| - 1]);
    }
  }

  /** Part two's loops add one line per change. */
  lemma {:induction false} ChangeLength(items: seq<Change>, first: nat, fmt: Formatter)
    ensures |Lines(ChangeBlock(fmt), items, first)| == |items|
  {
    if items != [] {
      ChangeLength(items[..|items| - 1], first, fmt);
    }
  }

  /** Each event adds five lines to part one. */
  lemma ScheduleWidth(fmt: Formatter, chair: ChairReader, number: nat, ev: Event)
    ensures |ScheduleBlock(fmt, chair)(number, ev)| == 5
  {
  }

  /** Lines `5k + 1` to `5k + 5` of part one are the block of event `k`, numbered `k + 1`. */
  lemma ScheduleBlockAt(events: seq<Event>, fmt: Formatter, chair: ChairReader, k: nat)
    requires k < |events|
    ensures var lines := ScheduleLines(events, fmt, chair);
      6 + 5 * k <= |lines| && lines[1 + 5 * k..6 + 5 * k] == ScheduleEntry(k + 1, events[k], RangeText(events[k], fmt), chair(events[k].descRaw))
  {
    var block := ScheduleBlock(fmt, chair);
    LinesAt(block, events, 1, k);
    ScheduleLength(events[..k], 1, fmt, chair);
    var p := Lines(block, events[..k], 1);
    var b := block(1 + k, events[k]);
    var s := Lines(block, events[k + 1..], k + 2);
    var lines := ScheduleLines(events, fmt, chair);
    assert lines == [ScheduleTitle] + p + b + s;
    ScheduleWidth(fmt, chair, 1 + k, events[k]);
    assert lines[1 + |p|..1 + |p| + 5] == b;
  }

  /**
   * Part one: the bold heading, then five lines per event in input order;
   * the block of event `k` is its time range numbered `k + 1` in bold, then
   * its escaped summary, location, chair and rule.
   */
  lemma ScheduleBlocks(events: seq<Event>, fmt: Formatter, chair: ChairReader)
    ensures var lines := ScheduleLines(events, fmt, chair);
      && |lines| == 1 + 5 * |events|
      && lines[0] == ScheduleTitle
      && forall k :: 0 <= k < |events| ==>
           lines[1 + 5 * k..6 + 5 * k] == ScheduleEntry(k + 1, events[k], RangeText(events[k], fmt), chair(events[k].descRaw))
  {
    ScheduleLength(events, 1, fmt, chair);
    forall k | 0 <= k < |events|
      ensures ScheduleLines(events, fmt, chair)[1 + 5 * k..6 + 5 * k] == ScheduleEntry(k + 1, events[k], RangeText(events[k], fmt), chair(events[k].descRaw))
    {
      ScheduleBlockAt(events, fmt, chair, k);
    }
  }

  /**
   * A change line reads as its number verbatim (digits are not reserved), an
   * escaped period, then the escaped text; each of its reserved characters is
   * preceded by a backslash and, since it starts with a digit, it is never the
   * placeholder.
   */
  lemma ChangeLineShape(number: nat, kind: ChangeKind, ev: Event, range: string)
    ensures var line := ChangeLine(number, kind, ev, range);
      && line == NatToString(number) + "\\. " + EscapeMd(ChangeText(kind, ev, range))
      && WellEscaped(line)
      && line != NoChanges
  {
    var text := ChangeText(kind, ev, range);
    NatToStringDigits(number);
    EscapeNumbered(NatToString(number), text);
    EscapeWellEscaped(NatToString(number) + ". " + text);
    assert ChangeLine(number, kind, ev, range)[0] == NatToString(number)[0];
    assert NoChanges[0] == '(';
  }

  /** One iteration of part one's loop appends the five lines of the next event, numbered `i + 1`. */
  lemma ScheduleLoopStep(events: seq<Event>, fmt: Formatter, chair: ChairReader, i: nat, range: string)
    requires i < |events| && fmt(events[i]) == Some(range)
    ensures Lines(ScheduleBlock(fmt, chair), events[..i + 1], 1)
         == Lines(ScheduleBlock(fmt, chair), events[..i], 1) + ScheduleEntry(i + 1, events[i], range, chair(events[i].descRaw))
  {
    LinesSnoc(ScheduleBlock(fmt, chair), events, 1, i);
    assert RangeText(events[i], fmt) == range;
  }

  /** One iteration of a change loop appends the line of the next event, numbered on. */
  lemma ChangeLoopStep(kind: ChangeKind, evs: seq<Event>, index: nat, fmt: Formatter, i: nat, range: string)
    requires i < |evs| && fmt(evs[i]) == Some(range)
    ensures Lines(ChangeBlock(fmt), Tagged(kind, evs)[..i + 1], index)
         == Lines(ChangeBlock(fmt), Tagged(kind, evs)[..i], index)
            + [EscapeMd(NatToString(index + i) + ". " + ChangeText(kind, evs[i], range))]
  {
    TaggedAt(kind, evs, i);
    LinesSnoc(ChangeBlock(fmt), Tagged(kind, evs), index, i);
    assert RangeText(evs[i], fmt) == range;
  }

  /** Line `k` of a change loop is change `k`, numbered `first + k`. */
  lemma ChangeLineAt(items: seq<Change>, first: nat, fmt: Formatter, k: nat)
    requires k < |items|
    ensures var lines := Lines(ChangeBlock(fmt), items, first);
      k < |lines| && lines[k] == ChangeLine(first + k, items[k].kind, items[k].ev, RangeText(items[k].ev, fmt))
  {
    LinesAt(ChangeBlock(fmt), items, first, k);
    ChangeLength(items[..k], first, fmt);
  }

  /** Tagging keeps the events in their order. */
  lemma {:induction false} TaggedAt(kind: ChangeKind, evs: seq<Event>, k: nat)
    requires k < |evs|
    ensures Tagged(kind, evs)[k] == Change(kind, evs[k])
  {
    if k < |evs| - 1 {
      TaggedAt(kind, evs[..|evs| - 1], k);
    }
  }

  /**
   * Part two visits every added event, then every changed one, then every
   * removed one, each list in its own order.
   */
  lemma ChangesOrder(added: seq<Event>, changed: seq<Event>, removed: seq<Event>)
    ensures var changes := Changes(added, changed, removed);
      && |changes| == |added| + |changed| + |removed|
      && (forall k :: 0 <= k < |added| ==> changes[k] == Change(Added, added[k]))
      && (forall k :: 0 <= k < |changed| ==> changes[|added| + k] == Change(Changed, changed[k]))
      && (forall k :: 0 <= k < |removed| ==> changes[|added| + |changed| + k] == Change(Removed, removed[k]))
  {
    var changes := Changes(added, changed, removed);
    forall k | 0 <= k < |added| ensures changes[k] == Change(Added, added[k]) {
      TaggedAt(Added, added, k);
    }
    forall k | 0 <= k < |changed| ensures changes[|added| + k] == Change(Changed, changed[k]) {
      TaggedAt(Changed, changed, k);
    }
    forall k | 0 <= k < |removed| ensures changes[|added| + |changed| + k] == Change(Removed, removed[k]) {
      TaggedAt(Removed, removed, k);
    }
  }

  /**
   * Part two: the heading, then change `i` of `Changes` numbered `1 + i`
   * (one counter across the added, changed and removed events); the
   * placeholder is there exactly when all three lists are empty.
   */
  lemma ChangeNumbering(added: seq<Event>, changed: seq<Event>, removed: seq<Event>, fmt: Formatter)
    ensures var lines := ChangeLines(added, changed, removed, fmt);
      var changes := Changes(added, changed, removed);
      var total := |added| + |changed| + |removed|;
      && |changes| == total
      && |lines| == 1 + total + (if total == 0 then 1 else 0)
      && lines[0] == ChangesTitle
      && (forall i :: 0 <= i < total ==>
            lines[1 + i] == ChangeLine(1 + i, changes[i].kind, changes[i].ev, RangeText(changes[i].ev, fmt)))
      && (NoChanges in lines <==> total == 0)
  {
    var lines := ChangeLines(added, changed, removed, fmt);
    var changes := Changes(added, changed, removed);
    var total := |added| + |changed| + |removed|;
    var body := Lines(ChangeBlock(fmt), changes, 1);
    ChangeLength(changes, 1, fmt);
    assert lines == [ChangesTitle] + body + (if total == 0 then [NoChanges] else []);
    forall i | 0 <= i < total
      ensures lines[1 + i] == ChangeLine(1 + i, changes[i].kind, changes[i].ev, RangeText(changes[i].ev, fmt))
    {
      ChangeLineAt(changes, 1, fmt, i);
    }
    if total == 0 {
      assert lines[1] == NoChanges;
    } else {
      forall k | 0 <= k < |lines| ensures lines[k] != NoChanges {
        if k == 0 {
          assert lines[0][0] == '*';
        } else {
          ChangeLineAt(changes, 1, fmt, k - 1);
          var c := changes[k - 1];
          ChangeLineShape(k, c.kind, c.ev, RangeText(c.ev, fmt));
        }
      }
    }
  }

  /** In every line a change loop produces, each reserved character is preceded by a backslash. */
  lemma {:induction false} ChangeLinesEscaped(items: seq<Change>, first: nat, fmt: Formatter)
    ensures forall line :: line in Lines(ChangeBlock(fmt), items, first) ==> WellEscaped(line)
  {
    if items != [] {
      var n := |items| - 1;
      ChangeLinesEscaped(items[..n], first, fmt);
      ChangeLineShape(first + n, items[n].kind, items[n].ev, RangeText(items[n].ev, fmt));
    }
  }

  /**
   * The placeholder is not escaped: its parentheses are reserved and
   * carry no backslash, so `escape_md` would change it.
   */
  lemma PlaceholderUnescaped()
    ensures !WellEscaped(NoChanges) && EscapeMd(NoChanges) != NoChanges
  {
    assert IsReserved(NoChanges[0]);
    EscapeLength(NoChanges);
    assert CountReserved(NoChanges) > 0;
  }

  /**
   * In every line of part two after the title, except the placeholder, each
   * reserved character is preceded by a backslash.
   */
  lemma ChangeLinesWellEscaped(added: seq<Event>, changed: seq<Event>, removed: seq<Event>, fmt: Formatter)
    ensures var lines := ChangeLines(added, changed, removed, fmt);
      forall line :: line in lines[1..] && line != NoChanges ==> WellEscaped(line)
  {
    var body := Lines(ChangeBlock(fmt), Changes(added, changed, removed), 1);
    var p := if |added| + |changed| + |removed| == 0 then [NoChanges] else [];
    ChangeLinesEscaped(Changes(added, changed, removed), 1, fmt);
    assert ChangeLines(added, changed, removed, fmt)[1..] == body + p;
  }

  /** Part one's loop: appends five lines per event of `events`, numbered from 1. */
  method ScheduleLoop(events: seq<Event>, fmt: Formatter, chair: ChairReader, lines: seq<string>) returns (r: Option<seq<string>>)
    ensures r.Some? <==> AllFormat(events, fmt)
    ensures r.Some? ==> r.value == lines + Lines(ScheduleBlock(fmt, chair), events, 1)
  {
    var acc := lines;
    for i := 0 to |events|
      invariant AllFormat(events[..i], fmt)
      invariant acc == lines + Lines(ScheduleBlock(fmt, chair), events[..i], 1)
    {
      var ev := events[i];
      var range := fmt(ev);
      if range.None? {
        AllFormatAt(events, fmt, i);
        return None;
      }
      AllFormatSnoc(events, fmt, i);
      ScheduleLoopStep(events, fmt, chair, i, range.value);
      acc := acc + [BoldMd(NatToString(i + 1) + ". 🕐 " + range.value),
                    EscapeMd("   📌 Nội dung: " + ev.summary),
                    EscapeMd("   📍 Địa điểm: " + ev.location),
                    EscapeMd("   👤 Chủ trì: " + chair(ev.descRaw)),
                    EscapeMd("---")];
    }
    assert events[..|events|] == events;
    r := Some(acc);
  }

  /**
   * One of part two's loops: appends one line per event of `evs` for the
   * change `kind`, numbered on from `index`; `next` is the counter after it.
   */
  method ChangeLoop(kind: ChangeKind, evs: seq<Event>, index: nat, fmt: Formatter, lines: seq<string>)
    returns (r: Option<seq<string>>, next: nat)
    ensures r.Some? <==> AllFormat(evs, fmt)
    ensures r.Some? ==> r.value == lines + Lines(ChangeBlock(fmt), Tagged(kind, evs), index) && next == index + |evs|
  {
    ghost var items := Tagged(kind, evs);
    var acc := lines;
    next := index;
    for i := 0 to |evs|
      invariant AllFormat(evs[..i], fmt)
      invariant acc == lines + Lines(ChangeBlock(fmt), items[..i], index)
      invariant next == index + i
    {
      var ev := evs[i];
      var range := fmt(ev);
      if range.None? {
        AllFormatAt(evs, fmt, i);
        return None, next;
      }
      var line := EscapeMd(NatToString(next) + ". " + ChangeText(kind, ev, range.value));
      AllFormatSnoc(evs, fmt, i);
      ChangeLoopStep(kind, evs, index, fmt, i, range.value);
      acc := acc + [line];
      next := next + 1;
    }
    assert items[..|evs|] == items && evs[..|evs|] == evs;
    r := Some(acc);
  }

  /** Part three's loop: appends each event's bold title, its description outline and a rule. */
  method DetailLoop(events: seq<Event>, fmt: Formatter, describe: Describer, lines: seq<string>) returns (r: Option<seq<string>>)
    ensures r.Some? <==> AllFormat(events, fmt)
    ensures r.Some? ==> r.value == lines + Lines(DetailBlock(fmt, describe), events, 1)
  {
    var acc := lines;
    for i := 0 to |events|
      invariant AllFormat(events[..i], fmt)
      invariant acc == lines + Lines(DetailBlock(fmt, describe), events[..i], 1)
    {
      var ev := events[i];
      var time := fmt(ev);
      if time.None? {
        AllFormatAt(events, fmt, i);
        return None;
      }
      AllFormatSnoc(events, fmt, i);
      var desc := describe(ev.descRaw);
      LinesSnoc(DetailBlock(fmt, describe), events, 1, i);
      acc := acc + [BoldMd("[" + time.value + "] " + ev.summary)] + desc + [EscapeMd("---\n")];
    }
    assert events[..|events|] == events;
    r := Some(acc);
  }

  /**
   * `build_output(events, added, changed, removed)`: a message exactly when
   * the start and end of every event it lists parse, and then part one, a
   * blank line, part two, a blank line and part three. Each event's range text is
   * `fmt_time_range`, its chair `get_chu_tri` and its outline
   * `parse_description` (`ParseDescription` computes `Description`).
   */
  method BuildOutput(events: seq<Event>, added: seq<Event>, changed: seq<Event>, removed: seq<Event>, parse: Parser)
    returns (message: Option<string>)
    ensures var fmt := RangeFormatter(parse);
      message.Some? <==> AllFormat(events, fmt) && AllFormat(added, fmt) && AllFormat(changed, fmt) && AllFormat(removed, fmt)
    ensures var fmt := RangeFormatter(parse);
      message.Some? ==>
      message.value == JoinLines(ScheduleLines(events, fmt, GetChuTri)) + "\n\n"
         + JoinLines(ChangeLines(added, changed, removed, fmt)) + "\n\n"
         + JoinLines(DetailLines(events, fmt, Description))
  {
    var fmt := RangeFormatter(parse);
    var lines1 := ScheduleLoop(events, fmt, GetChuTri, [ScheduleTitle]);
    if lines1.None? {
      return None;
    }
    assert lines1.value == ScheduleLines(events, fmt, GetChuTri);
    var part1 := JoinLines(lines1.value);

    var addedLines, index1 := ChangeLoop(Added, added, 1, fmt, [ChangesTitle]);
    if addedLines.None? {
      return None;
    }
    var changedLines, index2 := ChangeLoop(Changed, changed, index1, fmt, addedLines.value);
    if changedLines.None? {
      return None;
    }
    var lines2, index := ChangeLoop(Removed, removed, index2, fmt, changedLines.value);
    if lines2.None? {
      return None;
    }
    var changeLines := lines2.value;
    ChangeLinesParts(added, changed, removed, fmt, index1, index2, changeLines);
    if index == 1 {
      changeLines := changeLines + [NoChanges];
    } else {
      assert changeLines + [] == changeLines;
    }
    var part2 := JoinLines(changeLines);

    var lines3 := DetailLoop(events, fmt, Description, [DetailsTitle]);
    if lines3.None? {
      return None;
    }
    assert lines3.value == DetailLines(events, fmt, Description);
    var part3 := JoinLines(lines3.value);

    message := Some(part1 + "\n\n" + part2 + "\n\n" + part3);
  }
}
