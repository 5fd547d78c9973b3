/**
 * `fmt_time_range`: the Vietnamese day-of-week name of the start instant,
 * then the start date and time and the end time, as
 * "<day>, YYYY-MM-DD HH:MM-HH:MM".
 */
module TimeFormat {
  import opened Wrappers
  import opened Text

  type Year = n: nat | 1 <= n <= 9999 witness 1
  type Month = n: nat | 1 <= n <= 12 witness 1
  type Day = n: nat | 1 <= n <= 31 witness 1
  type Hour = n: nat | n <= 23
  type Minute = n: nat | n <= 59
  /** `datetime.weekday()`: 0 is Monday, 6 is Sunday. */
  type Weekday = n: nat | n <= 6

  /** What `datetime.fromisoformat` yields, with the weekday it implies. */
  datatype DateTime = DateTime(year: Year, month: Month, day: Day, hour: Hour, minute: Minute, weekday: Weekday)

  /** The day table, Monday first. */
  const DayNames: seq<string> := ["Thứ 2", "Thứ 3", "Thứ 4", "Thứ 5", "Thứ 6", "Thứ 7", "Chủ nhật"]

  /** The range text for an already-parsed start and end. */
  function TimeRange(start: DateTime, end: DateTime): string {
    DayNames[start.weekday] + ", " + RangeTail(start, end)
  }

  /** "YYYY-MM-DD HH:MM-HH:MM": the start's date and time, then the end's time. */
  function RangeTail(start: DateTime, end: DateTime): string {
    Padded(start.year, 4) + ("-" + (Padded(start.month, 2) + ("-" + (Padded(start.day, 2)
      + (" " + (Padded(start.hour, 2) + (":" + (Padded(start.minute, 2)
      + ("-" + (Padded(end.hour, 2) + (":" + Padded(end.minute, 2))))))))))))
  }

  /**
   * `fmt_time_range(ev)` on the event's start and end texts. `parse` stands
   * for `datetime.fromisoformat`; `None` is the ValueError it raises.
   */
  function FmtTimeRange(startText: string, endText: string, parse: string -> Option<DateTime>): (r: Option<string>)
    ensures r.Some? <==> parse(startText).Some? && parse(endText).Some?
  {
    match parse(startText)
    case None => None
    case Some(start) =>
      match parse(endText)
      case None => None
      case Some(end) => Some(TimeRange(start, end))
  }

  /** A formatted range reads back as the fields of the two parsed instants. */
  lemma FmtTimeRangeReadsBack(startText: string, endText: string, parse: string -> Option<DateTime>)
    requires parse(startText).Some? && parse(endText).Some?
    ensures var r := FmtTimeRange(startText, endText, parse);
      r.Some? && ParseTimeRange(r.value) == Some(FieldsOf(parse(startText).value, parse(endText).value))
  {
    TimeRangeRoundTrip(parse(startText).value, parse(endText).value);
  }

  /** What a range text records: the start's weekday, date and time, and the end's time. */
  datatype RangeFields = RangeFields(weekday: nat, year: nat, month: nat, day: nat,
                                     hour: nat, minute: nat, endHour: nat, endMinute: nat)

  function FieldsOf(start: DateTime, end: DateTime): RangeFields {
    RangeFields(start.weekday, start.year, start.month, start.day,
                start.hour, start.minute, end.hour, end.minute)
  }

  /** The first day name `w` or later that, followed by ", ", begins `r`. */
  function DayIndex(r: string, w: nat): (k: Option<nat>)
    requires w <= 7
    ensures k.Some? ==> w <= k.value < 7
    decreases 7 - w
  {
    if w == 7 then None
    else if DayNames[w] + ", " <= r then Some(w)
    else DayIndex(r, w + 1)
  }

  /** A field of `n` digits and then `sep`: the field's value and the text after `sep`. */
  function ReadField(t: string, n: nat, sep: char): Option<(nat, string)> {
    if n < |t| && AllDigits(t[..n]) && t[n] == sep then Some((DecimalValue(t[..n]), t[n + 1..])) else None
  }

  /** A last field of exactly `n` digits: its value. */
  function ReadLast(t: string, n: nat): Option<nat> {
    if |t| == n && AllDigits(t) then Some(DecimalValue(t)) else None
  }

  /** Reads a range text back into its fields. */
  function ParseTimeRange(r: string): Option<RangeFields> {
    var w :- DayIndex(r, 0);
    var year :- ReadField(r[|DayNames[w]| + 2..], 4, '-');
    var month :- ReadField(year.1, 2, '-');
    var day :- ReadField(month.1, 2, ' ');
    var hour :- ReadField(day.1, 2, ':');
    var minute :- ReadField(hour.1, 2, '-');
    var endHour :- ReadField(minute.1, 2, ':');
    var endMinute :- ReadLast(endHour.1, 2);
    Some(RangeFields(w, year.0, month.0, day.0, hour.0, minute.0, endHour.0, endMinute))
  }

  /** No day name, followed by ", ", begins the range text of another weekday. */
  lemma DayNameSelects(start: DateTime, end: DateTime, w: nat)
    requires w <= start.weekday
    ensures DayIndex(TimeRange(start, end), w) == Some(start.weekday as nat)
    decreases 7 - w
  {
    var r := TimeRange(start, end);
    var d := start.weekday;
    assert DayNames[d] + ", " <= r;
    if w < d {
      var n := DayNames[w] + ", ";
      assert |n| <= |r| ==> r[..|n|] != n by {
        if |n| <= |r| {
          if d < 6 {
            assert r[4] == DayNames[d][4] != n[4];
          } else {
            assert r[0] == 'C' && n[0] == 'T';
          }
        }
      }
      DayNameSelects(start, end, w + 1);
    }
  }

  /** The range text determines the fields it was built from. */
  lemma TimeRangeRoundTrip(start: DateTime, end: DateTime)
    ensures ParseTimeRange(TimeRange(start, end)) == Some(FieldsOf(start, end))
  {
    var r := TimeRange(start, end);
    DayNameSelects(start, end, 0);
    var e := Padded(end.hour, 2) + (":" + Padded(end.minute, 2));
    var mi := Padded(start.minute, 2) + ("-" + e);
    var h := Padded(start.hour, 2) + (":" + mi);
    var d := Padded(start.day, 2) + (" " + h);
    var mo := Padded(start.month, 2) + ("-" + d);
    assert r[|DayNames[start.weekday]| + 2..] == Padded(start.year, 4) + ("-" + mo);
    PaddedValue(start.year, 4);
    PaddedValue(start.month, 2);
    PaddedValue(start.day, 2);
    PaddedValue(start.hour, 2);
    PaddedValue(start.minute, 2);
    PaddedValue(end.hour, 2);
    PaddedValue(end.minute, 2);
    FieldRoundTrip(Padded(start.year, 4), '-', mo);
    FieldRoundTrip(Padded(start.month, 2), '-', d);
    FieldRoundTrip(Padded(start.day, 2), ' ', h);
    FieldRoundTrip(Padded(start.hour, 2), ':', mi);
    FieldRoundTrip(Padded(start.minute, 2), '-', e);
    FieldRoundTrip(Padded(end.hour, 2), ':', Padded(end.minute, 2));
  }

  /** A field of digits followed by a separator reads back as its value and the rest. */
  lemma FieldRoundTrip(field: string, sep: char, rest: string)
    requires AllDigits(field)
    ensures ReadField(field + ([sep] + rest), |field|, sep) == Some((DecimalValue(field), rest))
  {
    var t := field + ([sep] + rest);
    assert t[..|field|] == field;
    assert t[|field| + 1..] == rest;
  }

  /** Two range texts are equal only when the fields they show are. */
  lemma TimeRangeInjective(s1: DateTime, e1: DateTime, s2: DateTime, e2: DateTime)
    requires TimeRange(s1, e1) == TimeRange(s2, e2)
    ensures FieldsOf(s1, e1) == FieldsOf(s2, e2)
  {
    TimeRangeRoundTrip(s1, e1);
    TimeRangeRoundTrip(s2, e2);
  }
}
