# Content planner core, in Dafny

`app.py` is a single-file Streamlit app for planning social-media posts. It
generates caption variations with a language model, schedules them in a
weekly planner, tracks completed posts and exports the planner. Under the UI
there is a small deterministic core, and this project models it and proves
properties about it:

- **Dates and the planner week** (`dates.dfy`). A date is a day number
  counted from 0001-01-01, within Python's `date` range, so day 0 is a
  Monday. `week_bounds` gives the Monday..Sunday window around an anchor.
  The week buttons move the anchor by ±7 days. `isoformat()` and
  `strftime("%H:%M")` are written out as text functions.
- **The weekly board** (`planner.dfy`). The planner is filtered to the week
  and sorted by `(day, time)` with a stable sort. A loop then deals it into
  seven per-day lists.
- **Editing the planner** (`planner.dfy`, `generate.dfy`). The planner and
  history files are the `Store` class. Adding is gated by a daily quota.
  Marking an event as done sets its status and appends a history record.
  Removing filters the planner by id.
- **Session counters and plan limits** (`session.dfy`, `plans.dfy`).
  `init_session_state` restarts the daily counters. `get_plan_limits` maps a
  plan to its quotas. The generation button is gated by the same quota step
  as the add button.
- **Performance and export** (`performance.dfy`, `export.dfy`). The history
  view lists the latest slot first. The text export builds header, hashtag
  and separator lines in a loop. The Pro CSV export builds a header row and
  one row per entry.

Supporting modules:

- `seqs.dfy` holds list comprehensions and `str.join` as sequence
  functions (`Filter`, `Map`, `FlatMap`, `Join`).
- `sorting.dfy` holds a stable insertion sort `SortBy`, standing for
  Python's `list.sort` and `sorted`.
- `content.dfy` holds the variations and the analysis records the language
  model returns.
- `wrappers.dfy` holds `Option`.

Python's sort is stable even with `reverse=True`. The history order is
therefore a stable ascending sort on the negated slot rank.

The model takes these behaviours from the code as written:

- "Marcar como concluído" does not take the event out of the planner. It
  sets `status` to `done` on the event and appends a history record.
  Pressing it again appends a second record; it does not fail.
- Removing an id that no event carries leaves the planner as it was. It is
  not reported as an error.
- The daily quotas are enforced inside the page code, so they are part of
  the model.

## Model

| member | source | states |
|---|---|---|
| Dates.WeekBounds | app.py:566-569 | the window starts on a weekday-0 day, ends six days later and holds the anchor; None exactly where Python's date arithmetic would overflow |
| Dates.WeekBoundsDefined | app.py:566-569 | 9999-12-27 is the Monday of the last day's week, and the window exists exactly for anchors before it |
| Dates.WeekBoundsUnique | app.py:566-569 | the window is the only Monday-started week holding the anchor |
| Dates.ShiftAnchor | app.py:580-586 | the anchor moves by the given days, or is refused exactly when the result leaves the date range |
| Dates.ShiftMovesWeek | app.py:580-586 | one press of a week button moves the Monday and the Sunday by exactly that many days |
| Dates.ShiftKeepsWindow | app.py:580-586 | a week whose next week has a window has one itself, and the week before a week with a window has one too |
| Dates.RankOrder | app.py:607 | the integer slot rank orders slots as the tuple `(day, time)` does, and equal ranks mean equal slots |
| Dates.MonthDay | app.py:518-521 | a day of the year falls in a month from 1 to 12 and on a day within that month's length, and the days of the year before that month plus the day of the month give the day of the year back |
| Dates.Civil | app.py:518-521 | a day number becomes a year from 1, a month from 1 to 12 and a day from 1 to 31, as Python's `date` computes them from the 400-, 100-, 4- and 1-year cycles |
| Dates.CivilYearBound | app.py:518-521 | every day in Python's range falls in a year of at most four digits |
| Dates.IsoDate | app.py:518-521 | `isoformat()` gives ten characters with dashes at positions 4 and 7 |
| Dates.ClockText | app.py:522-525 | `strftime("%H:%M")` gives five characters with the colon at position 2 |
| Dates.IsoDateExample | app.py:518-521 | day 739011 is written `2024-05-06` |
| Dates.ClockTextExamples | app.py:522-525 | minute 1080 is written `18:00` and minute 5 is written `00:05` |
| Dates.CivilRoundTrip | app.py:518-521 | every day number gets a real calendar date (a day within its month's length in that year), and counting the days of the years and months before that date gives the day number back, so distinct days have distinct dates |
| Dates.CycleDateNumber | app.py:518-521 | a position in the 400-, 100-, 4- and 1-year cycles names a real date whose day number is the days the cycles before it hold |
| Dates.YearEndNumber | app.py:518-521 | the leap day that closes a 4- or 400-year cycle is 12-31 of a leap year, a full cycle on from the cycle's start |
| Dates.CycleYears | app.py:518-521 | the days before a year, counted as Python's `_days_before_year` does, are the days of the whole cycles before it |
| Dates.LeapCycles | app.py:518-521 | a year is leap exactly when it closes a 4-year cycle that is not a century, or closes a 400-year cycle |
| Dates.CivilExample | app.py:566-569 | the day numbering matches Python's calendar: 2024-05-06 is day 739011 and a Monday |
| Dates.CivilFirstDay | app.py:566-569 | day 0 is 0001-01-01, a Monday |
| Dates.CivilLastDay | app.py:566-569 | the last day is 9999-12-31, a Friday |
| Sorting.SortBy | app.py:607 | the sort result is ordered by the key and is a permutation of its input |
| Sorting.SortStable | app.py:607 | elements with equal keys keep their relative order |
| Planner.BucketByDay | app.py:610-612 | the loop yields exactly seven lists; list `i` holds, in order, the week's events dated `monday + i` |
| Planner.WeekView | app.py:595-612 | the board is the week of the anchor and its seven day columns, or None where the week overflows |
| Planner.WeekEventsInWeek | app.py:602-606 | only events dated between the week's Monday and Sunday reach the week's list |
| Planner.ColumnContents | app.py:601-612 | each column holds exactly the planner's events of that day, with their multiplicities |
| Planner.OnBoardIffInWeek | app.py:601-612 | a planner event is on the board exactly when its day lies in the week, and then only in its own day's column |
| Planner.ColumnSortedByTime | app.py:607-612 | within a column the times ascend |
| Planner.ColumnKeepsPlannerOrder | app.py:607-612 | events of one slot appear in a column in their planner order |
| Planner.AddedEventShown | app.py:541-558 | an appended event appears once more in its day's column of any week holding its day |
| Planner.RemoveSpec | app.py:683 | removing drops every event with the id, keeps every other event as often as before, and changes nothing when no event has the id |
| Planner.RemoveKeepsOrder | app.py:683 | removal distributes over concatenation, so the order of the remaining events is kept |
| Planner.Completion | app.py:666-676 | the history record copies the id, day, time, platform, title and score and carries the completion time |
| Planner.MarkDone | app.py:663 | only the completed event changes, and only its status, which becomes done |
| Planner.MarkDoneIdempotent | app.py:663 | marking the same event done again leaves the planner as it was |
| Planner.Store.Complete | app.py:662-678 | the planner becomes `MarkDone` of the old planner; the history gains exactly one record at its end |
| Planner.Store.Remove | app.py:682-684 | the planner becomes the old planner without the id |
| Plans.Limits | app.py:360-372 | "Starter" gets 5 generations, 5 adds and no analysis; any other plan gets 100, 999 and analysis |
| Plans.StarterIsTightest | app.py:360-372 | Starter's quotas are at most any plan's, and only Starter lacks analysis |
| Plans.QuotaStep | app.py:446-468 | a press is refused once the count has reached the limit; an admitted press raises the count by one |
| Plans.QuotaCaps | app.py:446-468 | after any number of presses the count is its start plus the presses, capped at the limit, or unchanged if already at or past it |
| SessionState.Session.Init | app.py:164-185 | both dates become today; each counter is kept when its date was today and is otherwise 0; the anchor and the last variations are set only when missing |
| SessionState.Session.Generate | app.py:446-468 | the press goes through exactly when the quota admits it and the language-model calls answer; then the count rises by one as in the quota step and the new variations and, only where the plan has analysis, their analysis are stored. When generation fails nothing changes; when the analysis fails the new variations are already stored but the old analysis stays and the count is not raised |
| SessionState.Session.ShiftWeek | app.py:580-586 | the anchor moves by plus or minus 7 days, or stays if that would leave the date range |
| SessionState.Session.PickAnchor | app.py:587-593 | the anchor becomes the picked date |
| Content.AnalysisIndex | app.py:471 | the map's keys are exactly the ids of the analysis records |
| Content.LastRecordWins | app.py:471 | when several records share an id, the last one is kept |
| Content.ScoreFor | app.py:549-551 | the score is None exactly when the map is empty, 0 when the variation has no record, and otherwise the record's `score_final`, or 0 when that key is missing |
| Content.ScoreAbsentIffNoAnalysis | app.py:471 | the stored score is None exactly when the analysis list is empty |
| Generate.NewEvent | app.py:541-556 | the entry copies the variation's title, caption and hashtags, takes the chosen slot and platform, is `planned`, and scores as `ScoreFor` |
| Generate.AddToPlanner | app.py:527-558 | the press follows the quota step; when admitted, exactly one new entry is appended after all the existing ones, and otherwise the planner is unchanged |
| Performance.PerformancePage | app.py:693-718 | Starter gets only the notice; otherwise an empty history gives the empty message, and a non-empty one gives a table of the same records |
| Performance.TableLatestFirst | app.py:709-711 | the table runs from the latest `(day, time)` slot to the earliest |
| Performance.TableKeepsHistoryOrder | app.py:709-711 | records of the same slot keep their history order |
| Export.StripHashes | app.py:740 | the result is a suffix of the tag, everything cut off is `#`, and the result does not start with `#` |
| Export.NormalizeTagSpec | app.py:740 | a rendered tag is one `#` followed by the tag without its leading `#`s, and rendering again changes nothing |
| Export.HeaderStart | app.py:736-738 | an entry's header opens with its ISO day, one space and its `HH:MM` time |
| Export.EntryLines | app.py:735-742 | an entry's lines start with its header and end with the separator; in between is its hashtag line when it has hashtags and nothing otherwise |
| Export.TextLines | app.py:733-742 | the loop builds exactly the listing of the entries in the order given |
| Export.ListingLength | app.py:733-742 | the listing has two lines per entry plus one per entry with hashtags |
| Export.TextLineCount | app.py:733-742 | the same count holds for the planner sorted by `(day, time)`, whatever its order before sorting |
| Export.CsvRow | app.py:761-770 | a row has the six columns of the header: the entry's ISO day, its `HH:MM` time, its platform, its title, its score or a blank cell when it has none, and `done` exactly for a completed entry, `planned` otherwise (including an entry without a status) |
| Export.CsvRowsInOrder | app.py:760-770 | there is one row per planner entry, the k-th being the row of the k-th entry in `(day, time)` order |
| Export.CsvTable | app.py:759-770 | the loop writes the header row followed by the rows of the entries in the order given |
| Export.ExportPage | app.py:725-777 | an empty planner exports nothing; otherwise the text is the sorted listing joined by newlines, and a CSV table exists exactly for the Pro plan |

## Left out

- Streamlit rendering: CSS, columns, buttons, expanders, `safe_rerun` and the sidebar inputs. The model keeps only what a button press does to the state.
- The language-model calls: `build_generation_prompt`, `call_openai_json` and `analyse_variations`. Their answers are parameters of `Session.Generate`, None for a call that raises. The "recommended" badge only displays a flag from those answers.
- JSON persistence: `load_json`, `save_json` and the planner and history wrappers. The two files are the fields of `Store`, loaded and saved whole.
- `new_id()` and the `created_at`/`completed_at` timestamps read the clock. They are parameters. `date.today()` is the `today` parameter of `Session.Init`.
- CSV quoting and escaping, and the text encoding of numbers in CSV cells. A row is a list of `CsvField` values.
- Number formatting (`:.1f`). Scores are `real`, and the `float(...)` conversion is not modelled separately.
- Text encoding. Strings are sequences of characters, and the final newline join of the text file is `Join`.
- The ordering of date and time text. The source filters and sorts entries by comparing `YYYY-MM-DD` and `HH:MM` strings. The model compares day numbers and minutes instead. `IsoDate` and `ClockText` are proved fixed-width, but that their text order matches the number order is not proved.
- Dates and times are stored as `YYYY-MM-DD` and `HH:MM` text in the source. The model stores them as a day number and a minute of the day, assuming the stored text is well formed. An entry with a malformed day could raise `KeyError` in the day bucketing; that case is not modelled.
- Planner.BucketByDay: the source fills a dict keyed by ISO date text; the model uses a list indexed by day offset from Monday.
- Generate.AddToPlanner: only the first three variations get an add button, because of the three-column layout. The model requires `k < 3` instead of modelling the layout.
- Content.ScoreFor: a `score_final` that is JSON `null` would make the source's `float(None)` raise. The model treats only a missing key (read as 0).
- Planner.Store.Complete: the source mutates the event dict it is displaying. The model addresses that event by its position in the planner, which is the same object.
