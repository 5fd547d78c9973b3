# calendar_bot: text and diff core

A model of the text and data logic of `calendar_bot.py`, a bot that reads
upcoming meetings from a CalDAV calendar, compares them with the previous
run and posts a Telegram message in MarkdownV2. The model covers:

- the MarkdownV2 escaper: `ESCAPE_CHARS`, `escape_md`, `bold_md` (module `Markdown`);
- the range text of a meeting: `fmt_time_range`, over an abstract date parser (module `TimeFormat`);
- the description outline parser: `parse_description`, a line scanner with an open item (module `Outline`);
- the chair extractor: `get_chu_tri`, an unanchored regular-expression search (module `Chair`);
- the three-way diff: `diff_events`, uid-keyed dicts with insertion order (module `Diff`);
- the message builder: `build_output`, three parts, one running counter and a placeholder (module `Report`).

Python's string primitives the code relies on are in module `Text`:
`str.isspace`, `strip`/`lstrip`/`rstrip`, `splitlines`, `str(int)` and
zero-padded numbers. An event record is the datatype `Events.Event` holding
the six keys the code reads.

The imperative functions are methods with loops, each proved against a
specification function:

- `parse_description` is `Outline.ParseDescription` (specified by `Outline.Outline`);
- `diff_events` is `Diff.DiffEvents` with `Diff.BuildIndex`, `Diff.SplitCurrent` and `Diff.CollectRemoved` (specified by `Diff.AddedOf`, `ChangedOf`, `RemovedOf`);
- `build_output` is `Report.BuildOutput` with one loop method per part (specified by `Report.ScheduleLines`, `ChangeLines`, `DetailLines`).

The properties are then proved about those functions.

`datetime.fromisoformat` is a parameter `parse: string -> Option<DateTime>`.
Its `None` stands for the `ValueError` it raises, so `fmt_time_range`
returns an `Option` and `build_output` produces a message exactly when
every start and end it formats parses.

## Model

| member | source | states |
|---|---|---|
| Markdown.ReservedCharsIff | calendar_bot.py:35 | the reserved-character test is membership in the 18 characters of `ESCAPE_CHARS` |
| Markdown.EscapeLength | calendar_bot.py:37-41 | escaped length is input length plus the number of reserved characters |
| Markdown.EscapeIdentity | calendar_bot.py:37-41 | text without reserved characters escapes to itself |
| Markdown.EscapeConcat | calendar_bot.py:37-41 | escaping distributes over concatenation (the substitution is per character) |
| Markdown.EscapeWellEscaped | calendar_bot.py:37-41 | every reserved character of the result is preceded by a backslash |
| Markdown.UnescapeEscape | calendar_bot.py:37-41 | escaping loses nothing: reading the backslash pairs back gives the input |
| Markdown.BoldDelimits | calendar_bot.py:43-44 | `bold_md(s)` starts and ends with `*`, its inside is well escaped and reads back as `s` |
| Markdown.BackslashNotEscaped | calendar_bot.py:35-41 | the backslash is not reserved, so the escape of `\_` is `\\_` and the `_` follows an escaped backslash |
| Markdown.EscapeNumbered | calendar_bot.py:61 | escaping "digits. rest" keeps the digits, escapes the period and escapes the rest |
| Text.RStrip | calendar_bot.py:56 | `rstrip` keeps a prefix that does not end in whitespace |
| Text.RStripDropsSpace | calendar_bot.py:56 | what `rstrip` drops is all whitespace |
| Text.LStrip | calendar_bot.py:53 | `lstrip` keeps a suffix that does not start with whitespace |
| Text.LStripDropsSpace | calendar_bot.py:53 | what `lstrip` drops is all whitespace |
| Text.Strip | calendar_bot.py:53 | `strip` is no longer than its input and has no whitespace at either end |
| Text.StripSlice | calendar_bot.py:53 | `strip` is a slice of the input with only whitespace before and after it |
| Text.StripOfUnpadded | calendar_bot.py:73 | `strip` leaves text without end whitespace unchanged |
| Text.FirstNonSpace | calendar_bot.py:57 | the end of a greedy `\s*` run: all whitespace before it, none at it |
| Text.FirstNonSpaceAt | calendar_bot.py:57 | any whitespace run followed by a non-space ends where the greedy run ends |
| Text.FirstBreak | calendar_bot.py:53 | the first line-break character at or after a position |
| Text.SplitLines | calendar_bot.py:53 | `splitlines` yields lines without line breaks, and none exactly for empty text |
| Text.NatToString | calendar_bot.py:152 | `str(n)` is non-empty |
| Text.NatToStringDigits | calendar_bot.py:152 | `str(n)` is decimal digits without a leading zero |
| Text.NatToStringValue | calendar_bot.py:152 | `str(n)` denotes `n` |
| Text.Padded | calendar_bot.py:50 | a zero-padded field has exactly its width |
| Text.PaddedValue | calendar_bot.py:50 | a zero-padded field is digits denoting the number |
| TimeFormat.FmtTimeRange | calendar_bot.py:46-50 | a range text exists exactly when start and end both parse |
| TimeFormat.FmtTimeRangeReadsBack | calendar_bot.py:46-50 | a range text reads back as the weekday, date and times of the two parsed instants |
| TimeFormat.DayNameSelects | calendar_bot.py:49 | the Monday-first day table: only the start's own day name begins the text |
| TimeFormat.TimeRangeRoundTrip | calendar_bot.py:49-50 | "<day>, YYYY-MM-DD HH:MM-HH:MM" parses back to the fields it shows |
| TimeFormat.TimeRangeInjective | calendar_bot.py:49-50 | equal range texts show equal fields |
| Outline.ClassifyLine | calendar_bot.py:57 | the number group of a match is one or two digits |
| Outline.ClassifyLineSound | calendar_bot.py:57 | what it reports is a match of `^\s*(\d{1,2})\.\s+(.*)`, with its two groups |
| Outline.ClassifyLineComplete | calendar_bot.py:57 | every match of the expression is reported, with its two groups |
| Outline.Lex | calendar_bot.py:57-65 | a line opening an item carries a one- or two-digit number |
| Outline.Lexed | calendar_bot.py:55-57 | one lexed line per visited line |
| Outline.ItemsBefore | calendar_bot.py:58 | the indices it lists are below the bound and open items |
| Outline.ItemsBeforeIncreasing | calendar_bot.py:55-58 | the item-opening lines are listed in input order |
| Outline.ItemsBeforeComplete | calendar_bot.py:55-58 | no item-opening line is missed |
| Outline.NextItem | calendar_bot.py:58-65 | the next item-opening line, with only continuation lines before it |
| Outline.ItemsOf | calendar_bot.py:59-63 | one item per listed opening line |
| Outline.EmitAll | calendar_bot.py:61 | one emitted line per item |
| Outline.EmitAllSnoc | calendar_bot.py:61 | closing one more item appends its emitted line |
| Outline.ScanItemLine | calendar_bot.py:58-63 | a matching line closes the open item, if any, and opens its own |
| Outline.OpenAt | calendar_bot.py:62-63 | after a matching line, its number and text are the open item |
| Outline.ScannedOpen | calendar_bot.py:58-65 | when an item is open, the scan state holds the last item's number, its text with its continuation, and the items before it |
| Outline.ClosedAt | calendar_bot.py:59-61 | a matching line adds the open item, if any, to the closed ones |
| Outline.CloseItem | calendar_bot.py:59-61 | the item closed by a matching line holds every continuation line up to it |
| Outline.ScanOtherLine | calendar_bot.py:64-65 | any other line appends a space and its stripped text to the open item |
| Outline.ScanEnd | calendar_bot.py:66-68 | at the end the open item is closed and the items are complete |
| Outline.DescriptionLineAt | calendar_bot.py:53-56 | the loop's `i`-th line is the `rstrip` of the `i`-th line of `splitlines(strip(text))` |
| Outline.ParseDescription | calendar_bot.py:52-69 | the loop computes the outline of the lexed description lines |
| Outline.NoItemBetween | calendar_bot.py:59-65 | no line between the last open item and the next matching line (or the end) opens an item |
| Outline.OutlineEmpty | calendar_bot.py:52-69 | the outline is empty exactly when no line matches |
| Outline.ItemsOfAt | calendar_bot.py:59-63 | item `k` is the one opened at the `k`-th opening line |
| Outline.EmitAllAt | calendar_bot.py:61 | line `k` is item `k` emitted |
| Outline.OutlineItems | calendar_bot.py:52-69 | one outline line per matching line, in input order, each the item opened there; earlier lines are discarded |
| Outline.OpeningLines | calendar_bot.py:57-58 | the listed lines are exactly the matching ones |
| Outline.OpeningLinesSorted | calendar_bot.py:55-58 | the listed lines are strictly increasing |
| Outline.OutlineLines | calendar_bot.py:59-68 | outline line `k` is `escape_md(number + ". " + strip(text and continuations))` of the `k`-th item |
| Outline.ItemLineNumbered | calendar_bot.py:61 | each emitted line starts with the item's number and an escaped period |
| Chair.ChairAtIff | calendar_bot.py:72 | the greedy `\s*` match agrees with the existence of any match at that position |
| Chair.FindChair | calendar_bot.py:72 | a found position is a match at or after the start |
| Chair.FindChairLeftmost | calendar_bot.py:72 | the search finds a match at or before any other match |
| Chair.LineEnd | calendar_bot.py:72 | `[^\n]*` stops at the first newline or the end |
| Chair.Capture | calendar_bot.py:72-73 | the capture group holds no newline |
| Chair.GetChuTri | calendar_bot.py:71-73 | the chair has no end whitespace and no newline |
| Chair.StripOneLine | calendar_bot.py:73 | stripping a newline-free capture leaves no newline |
| Chair.GetChuTriAbsent | calendar_bot.py:73 | no match anywhere gives "" |
| Chair.FindChairFirst | calendar_bot.py:72 | the search stops at the leftmost match |
| Chair.GetChuTriLeftmost | calendar_bot.py:71-73 | the chair is the stripped rest of the line after the label of the leftmost match |
| Chair.UnanchoredMatch | calendar_bot.py:72 | "14. Chủ trì: X" also yields X, through the "4." inside it |
| Diff.Index | calendar_bot.py:123-124 | the dict's keys are the uids present, each mapped to a record carrying it |
| Diff.UidOrder | calendar_bot.py:126 | the iteration order lists each present uid exactly once |
| Diff.FirstAt | calendar_bot.py:126 | the index found is the first record from `k` on carrying the uid, or the end when none does |
| Diff.FirstAtIs | calendar_bot.py:126 | the first carrier of the uid from `k` on is found |
| Diff.UidOrderFirst | calendar_bot.py:123-126 | the iteration order lists uids by their first appearance in the records |
| Diff.IndexLastWins | calendar_bot.py:123-124 | a uid maps to its last record |
| Diff.PickStep | calendar_bot.py:126-133 | one more loop step tests and appends one more uid |
| Diff.OrderInIndex | calendar_bot.py:126 | every uid in the iteration order is a key |
| Diff.PickMembers | calendar_bot.py:126-133 | a loop keeps exactly the records passing its test, without repeating a uid |
| Diff.PickUids | calendar_bot.py:126-133 | every record a loop keeps carries a uid from the order it walks |
| Diff.PickSorted | calendar_bot.py:126-133 | a loop over uids in first-appearance order keeps its records in that order |
| Diff.PickNone | calendar_bot.py:126-133 | a loop where no uid passes returns [] |
| Diff.DiffMembers | calendar_bot.py:122-134 | added, changed and removed are exactly the new, differing and vanished uids' records, each uid once |
| Diff.DiffPartition | calendar_bot.py:122-134 | every uid is in exactly one of added, changed, removed or unchanged |
| Diff.DiffOrder | calendar_bot.py:122-134 | added and changed follow first appearance in the current snapshot, removed follows first appearance in the previous one |
| Diff.DiffSelf | calendar_bot.py:122-134 | diffing a snapshot with itself reports nothing |
| Diff.DuplicateUidLastWins | calendar_bot.py:123-124 | with a duplicated uid, only the later record is reported |
| Diff.PairIndex | calendar_bot.py:123-124 | two records with one uid: one key, mapped to the later record |
| Diff.BuildIndex | calendar_bot.py:123-124 | the dict comprehension yields the dict and its insertion order |
| Diff.DiffEvents | calendar_bot.py:122-134 | `diff_events` returns the added, changed and removed records |
| Diff.SplitCurrent | calendar_bot.py:126-130 | the first loop yields the new uids' and the differing uids' current records in order |
| Diff.CollectRemoved | calendar_bot.py:131-133 | the second loop yields the vanished uids' previous records in order |
| Report.Tagged | calendar_bot.py:151-156 | one change per event |
| Report.TaggedAt | calendar_bot.py:151-156 | tagging keeps the events in order |
| Report.ChangesOrder | calendar_bot.py:150-156 | part two visits added, then changed, then removed events, each list in order |
| Report.ScheduleTitleIsBold | calendar_bot.py:140 | part one's title is `bold_md` of its heading |
| Report.ChangesTitleIsBold | calendar_bot.py:149 | part two's title is `bold_md` of its heading |
| Report.DetailsTitleIsBold | calendar_bot.py:161 | part three's title is `bold_md` of its heading |
| Report.RangeFormatterParses | calendar_bot.py:46-50 | an event's range formats exactly when both instants parse |
| Report.AllFormatAt | calendar_bot.py:141-142 | one unformattable event stops the message |
| Report.AllFormatParses | calendar_bot.py:46-48 | every event formats exactly when every start and end parses |
| Report.AllParseFormat | calendar_bot.py:46-48 | events that all parse all format |
| Report.AllFormatSnoc | calendar_bot.py:141-142 | one more formatted event extends the formatted prefix |
| Report.LinesSnoc | calendar_bot.py:141 | one more iteration appends the next item's lines |
| Report.LinesAppend | calendar_bot.py:150-156 | a loop over two runs is the first loop, then the second numbered on |
| Report.LinesAppend3 | calendar_bot.py:150-156 | the three change loops with the shared counter are one loop over all changes |
| Report.LinesAt | calendar_bot.py:141-146 | item `k`'s lines sit between the lines before and after it |
| Report.ScheduleLength | calendar_bot.py:141-146 | part one's loop adds five lines per event |
| Report.ChangeLength | calendar_bot.py:151-156 | part two's loops add one line per change |
| Report.ScheduleWidth | calendar_bot.py:142-146 | each event adds five lines |
| Report.ScheduleBlockAt | calendar_bot.py:140-146 | lines `5k+1`..`5k+5` of part one are event `k`'s block, numbered `k+1` |
| Report.ScheduleBlocks | calendar_bot.py:140-147 | part one is the bold heading, then for each event in order its bold numbered range, summary, location, chair and rule |
| Report.ScheduleLoopStep | calendar_bot.py:141-146 | one iteration of part one's loop appends the next event's five lines |
| Report.ChangeLineShape | calendar_bot.py:152 | a change line is its number, an escaped period and its escaped text; it is well escaped and never the placeholder |
| Report.ChangeLoopStep | calendar_bot.py:151-152 | one iteration of a change loop appends the next event's line with the next number |
| Report.ChangeLineAt | calendar_bot.py:151-156 | line `k` of a change loop is change `k`, numbered on from the loop's first number |
| Report.ChangeLinesParts | calendar_bot.py:149-158 | part two is the title, the three loops' lines, then the placeholder when nothing changed |
| Report.ChangeNumbering | calendar_bot.py:149-158 | part two numbers the changes 1..n across the three lists, and holds the placeholder exactly when all three are empty |
| Report.ChangeLinesEscaped | calendar_bot.py:151-156 | every reserved character of every change line is preceded by a backslash |
| Report.PlaceholderUnescaped | calendar_bot.py:157-158 | the placeholder is left unescaped: its parentheses are reserved and carry no backslash |
| Report.ChangeLinesWellEscaped | calendar_bot.py:149-158 | in every line of part two after the title except the placeholder, each reserved character is preceded by a backslash |
| Report.ScheduleLoop | calendar_bot.py:140-147 | the loop yields part one's lines, or nothing when some event's range does not format |
| Report.ChangeLoop | calendar_bot.py:150-156 | a change loop yields its lines numbered on from the counter, and the counter after it |
| Report.DetailLoop | calendar_bot.py:161-169 | the loop yields each event's bold "[range] summary", its outline and an escaped rule |
| Report.BuildOutput | calendar_bot.py:139-171 | a message exactly when every listed event's range formats, and then part one, a blank line, part two, a blank line and part three |

## Left out

- `fetch_events` (calendar_bot.py:75-117): the CalDAV REPORT request (section 7.8 of RFC 4791) is network I/O. `parse_caldav_events` is not part of this model.
- `load_previous` and `save_current` (calendar_bot.py:119-120, 136-137): file I/O and JSON serialisation.
- `main` (calendar_bot.py:173 on): asynchronous Telegram delivery and logging. It calls names the file does not define, so `diff_events` is modelled as defined.
- Configuration from the environment and logging setup (calendar_bot.py:12-33).
- `datetime.fromisoformat` is the parameter `parse`. The weekday comes with the parsed instant and is not computed from the date.
- TimeFormat.FmtTimeRange: `%Y` is written as four zero-padded digits. C libraries differ for years below 1000, and the parsed year is bounded to 1..9999.
- Outline.ClassifyLine: `\d` is taken as the ASCII digits. Python's `re` on str patterns also accepts other Unicode decimal digits.
- Text.IsSpace: `\s` and `str.isspace` are the same fixed set of code points, matching Python's whitespace table. No Unicode database is consulted.
- Report.BuildOutput: the loops receive `fmt_time_range`, `get_chu_tri` and `parse_description` as function parameters. `ParseDescription` is proved to compute `Description`, and `GetChuTri` is the function itself.
- Report.RangeText: for an event whose range does not format, it gives "". This text is never shown, because no message is produced then.
- Markdown.EscapeMd: `ESCAPE_CHARS` has no backslash, so `escape_md` leaves `\` alone. When the input has a backslash before a reserved character, the two backslashes of the output form an escaped backslash and the character stays bare, so the output is not valid MarkdownV2 then. `WellEscaped` states only that every reserved character follows a backslash.
- Diff.Keep: record comparison by `json.dumps(..., sort_keys=True)` is datatype equality on `Event`. Key order cannot matter for a value of fixed fields.
- Records carry only the six keys the code reads. Other keys, which would also take part in the `changed` comparison, are not modelled.
