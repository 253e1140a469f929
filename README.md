# time-tracker settings window, modelled in Dafny

time-tracker is a small desktop tool. A daemon polls the running processes and
appends the seconds each tracked program was seen running to a per-program log
file. The settings window (`main_ui.py`) does five things:

- it reads a settings file that lists the tracked programs, one per line, plus
  two `$` settings (`polling_rate` and `time_format`);
- it adds up each program's log into a per-program total and a grand total;
- it prints those totals as a duration in the chosen format;
- it lets the user add a program (by its file name) or remove one (through a
  "Remove name" button);
- it writes the settings file back.

This project models that logic and proves what it does:

- `Duration.dfy`: `format_time`. It returns the components it would print (`Display`), one constructor per output shape.
- `Strings.dfy`: the Python string operations the code relies on:
  - `str.split` with a one-character separator, and its `[1]` index, which raises when the separator is missing;
  - `s[1:]`;
  - the substring test `in`;
  - `del` on a list.
- `Header.dfy`: the fixed comment lines of the settings file.
- `Config.dfy`: the settings file.
  - `Sweep` describes the backward walk of `read_settings` as a function.
  - `ConfigText` is the text `apply` writes.
  - The lemmas cover the round trip between the two and the walk's index quirk, together with a corrected walk.
- `Totals.dfy`: the log sums, the entry `remove` deletes, the name it reads off the button, and the base name `add_program` appends.
- `Tracker.dfy`: the window as a class `MainUi` whose fields the operations update in place. It holds the process list, the polling rate, the time format, the grand total, and a map standing for the per-name module globals of the totals. `ReadSettings` walks an index downwards and deletes from the list as the Python does, and it is proved to end where `ParseConfig` says.

File contents and the existence of files are parameters. So are Python's `float` (`parseFloat`, `parse`) and `"%s" % x` (`showFloat`).

The header comment of the settings file (main_ui.py line 348) calls the lines starting with `$` internal variables. The walk in `read_settings` only consumes a `$` line whose tail mentions `polling_rate` or `time_format`. Any other `$` line stays in the process list as a program to track. The model follows the code (`Config.Kept`, `Config.ParseKeepsProcessNames`).

## Model

| member | source | states |
|---|---|---|
| Duration.FormatTime | usr/share/time-tracker/main_ui.py:84-146 | the output always stands for exactly the input; `s` prints plain seconds; `m` prints the bare number below a minute and otherwise minutes and seconds, never hours |
| Duration.UnknownSelectorIsHours | usr/share/time-tracker/main_ui.py:145-146 | any selector other than s, m, h, d, w formats as `h` |
| Duration.BreakdownIsCanonical | usr/share/time-tracker/main_ui.py:94-144 | for h, d, w: the breakdown adds up to the input, every lower component is below its radix (60, 60, 24, 7), and it leads with the largest unit up to the selector's cap of which the input holds at least one |
| Duration.CascadeIsCanonical | usr/share/time-tracker/main_ui.py:94-144 | the same property for the cascade of divisions capped at hours, days or weeks |
| Duration.Cascade | usr/share/time-tracker/main_ui.py:94-144 | the h, d and w branches: divide by 60, 60, 24 and 7 and stop at the first count below one or at the cap (characterised by `CascadeIsCanonical`) |
| Duration.BreakdownIsDigits | usr/share/time-tracker/main_ui.py:94-144 | a display whose lower components are below their radixes is the mixed-radix digit expansion of its value, so the breakdown is unique |
| Duration.HoursDigits | usr/share/time-tracker/main_ui.py:95-101 | hours, minutes, seconds below their radixes are the digits of their value |
| Duration.DaysDigits | usr/share/time-tracker/main_ui.py:107-116 | the same for days, hours, minutes, seconds |
| Duration.WeeksDigits | usr/share/time-tracker/main_ui.py:124-136 | the same for weeks, days, hours, minutes, seconds |
| Duration.Examples | usr/share/time-tracker/main_ui.py:84-146 | concrete outputs: 3661 s in h and m, 59 s in m (bare number), 0 and 700000 s in w, and an unknown selector |
| Strings.Split | usr/share/time-tracker/main_ui.py:373 | `str.split` always yields at least one piece |
| Strings.SplitPiecesLackSep | usr/share/time-tracker/main_ui.py:373 | no piece of a split holds the separator |
| Strings.JoinSplit | usr/share/time-tracker/main_ui.py:373 | joining the pieces with the separator gives the text back |
| Strings.SplitJoin | usr/share/time-tracker/main_ui.py:373 | splitting the join of separator-free pieces gives the pieces back |
| Strings.SplitAround | usr/share/time-tracker/main_ui.py:373 | splitting `a + sep + b` splits `a` and `b` on their own |
| Strings.SplitWithoutSep | usr/share/time-tracker/main_ui.py:373 | text without the separator is a single piece |
| Strings.Second | usr/share/time-tracker/main_ui.py:384 | `split(sep)[1]` exists exactly when the text holds `sep`, and then holds no `sep` |
| Strings.SecondAfterKey | usr/share/time-tracker/main_ui.py:384 | after a first field without `sep`, `split(sep)[1]` is the first field of the rest |
| Strings.Delete | usr/share/time-tracker/main_ui.py:379 | `del l[i]` leaves one entry fewer, the entries before `i` in place and those after it moved down by one |
| Strings.Tail | usr/share/time-tracker/main_ui.py:383 | Python `s[1:]`: the text after the first character, empty for empty text |
| Strings.Contains | usr/share/time-tracker/main_ui.py:383 | Python `p in s`, the substring test (characterised by `ContainsOccurs`) |
| Strings.ContainsOccurs | usr/share/time-tracker/main_ui.py:383 | the substring test succeeds exactly when the pattern occurs at some index |
| Strings.ContainsInside | usr/share/time-tracker/main_ui.py:383 | a pattern is found wherever it is placed |
| Strings.ContainsAcrossBorder | usr/share/time-tracker/main_ui.py:386 | an occurrence cannot straddle a border character the pattern never uses |
| Config.TakeFormat | usr/share/time-tracker/main_ui.py:386-388 | the time-format test on the line at the index: consumed as `split("=")[1]` when its tail mentions `time_format` (IndexError without `=`), kept otherwise |
| Config.Step | usr/share/time-tracker/main_ui.py:378-388 | one turn of the walk as written: short and comment lines go, a polling-rate line sets the rate (IndexError, ValueError) and the format test then reads the next survivor, or fails with none |
| Config.IntendedStep | usr/share/time-tracker/main_ui.py:378-388 | one turn with the format test on the same line as the rate test, as alternatives |
| Config.Sweep | usr/share/time-tracker/main_ui.py:377-388 | the backward walk: the lines behind are handled first and an exception stops it |
| Config.ParseLines | usr/share/time-tracker/main_ui.py:374-388 | the walk as written from an empty list, the default rate and format `h` |
| Config.ParseConfig | usr/share/time-tracker/main_ui.py:373-388 | `read_settings` on the text of an existing file: split on newlines, then walk |
| Config.IntendedParseConfig | usr/share/time-tracker/main_ui.py:373-388 | the same with the corrected turn |
| Config.IsRateLine | usr/share/time-tracker/main_ui.py:382-383 | a `$` line whose tail mentions `polling_rate` |
| Config.IsFormatLine | usr/share/time-tracker/main_ui.py:382-388 | a `$` line whose tail mentions `time_format` and not `polling_rate` |
| Config.Kept | usr/share/time-tracker/main_ui.py:377-388 | the lines the walk leaves in the list |
| Config.FormatFromFirstFormatLine | usr/share/time-tracker/main_ui.py:386-388 | with the quirk corrected, the format of a successful parse is `split("=")[1]` of the first time-format line of the file |
| Config.FormatFromFirstFormatLineAsWritten | usr/share/time-tracker/main_ui.py:386-388 | as written, under the side condition of `ParseKeepsProcessNames`, the format likewise comes from the first time-format line |
| Config.AsWrittenAgreesWhenOk | usr/share/time-tracker/main_ui.py:377-388 | when no kept line mentions `time_format`, a successful walk as written ends where the corrected walk ends |
| Config.StepAgrees | usr/share/time-tracker/main_ui.py:378-388 | a successful turn as written, whose first survivor does not mention `time_format`, is the corrected turn |
| Config.SweepKeepsError | usr/share/time-tracker/main_ui.py:377-388 | an exception ends the walk whatever lines come before it |
| Config.SweepAppend | usr/share/time-tracker/main_ui.py:377 | walking `a + b` backwards is walking `b`, then `a` from where `b` left off |
| Config.SweepStops | usr/share/time-tracker/main_ui.py:377-388 | a turn that raises makes the whole walk raise |
| Config.SweepDropped | usr/share/time-tracker/main_ui.py:378-381 | comments and lines of at most one character change nothing |
| Config.KeptLines | usr/share/time-tracker/main_ui.py:377-388 | the lines that stay are lines of the input and are kept lines |
| Config.SurvivorsAreInputLines | usr/share/time-tracker/main_ui.py:377-388 | every line left in the list is an input line of at least two characters that is no comment |
| Config.StepSurvivors | usr/share/time-tracker/main_ui.py:378-388 | one turn keeps only lines behind it and the current line when it is long and no comment |
| Config.ParseKeepsProcessNames | usr/share/time-tracker/main_ui.py:377-388 | as written, when no kept line mentions `time_format`, a successful parse lists exactly the kept lines in file order, unknown `$` lines included |
| Config.StepKeepsKept | usr/share/time-tracker/main_ui.py:378-388 | one turn as written keeps its line exactly when the line is kept |
| Config.IntendedKeepsProcessNames | usr/share/time-tracker/main_ui.py:377-388 | with the quirk corrected, every successful parse lists exactly the kept lines, with no side condition |
| Config.IntendedStepKeeps | usr/share/time-tracker/main_ui.py:378-388 | one corrected turn keeps its line exactly when the line is kept |
| Config.RateDefault | usr/share/time-tracker/main_ui.py:375 | without a polling-rate line the rate stays at 2.8114754095 |
| Config.RateFromFirstRateLine | usr/share/time-tracker/main_ui.py:383-385 | the rate comes from the first polling-rate line of the file: `float` of its second `=` field |
| Config.FormatDefault | usr/share/time-tracker/main_ui.py:376 | without a surviving line mentioning `time_format` the format stays `h` |
| Config.RateLineLastFails | usr/share/time-tracker/main_ui.py:383-386 | a polling-rate line with no survivor behind it raises IndexError at the time-format test |
| Config.StolenByRateLine | usr/share/time-tracker/main_ui.py:383-388 | the first survivor behind a polling-rate line is consumed as the time format when it mentions `time_format`, even a process name |
| Config.RateLineStep | usr/share/time-tracker/main_ui.py:383-388 | a parsable rate line sets the rate; as written it raises with no survivor and keeps a survivor that does not mention `time_format`; corrected it only sets the rate |
| Config.RateLineRejected | usr/share/time-tracker/main_ui.py:384 | a rate that `float` rejects raises ValueError |
| Config.RateLineParses | usr/share/time-tracker/main_ui.py:409 | the written rate line is a polling-rate line whose value is the rate text |
| Config.FormatLineParses | usr/share/time-tracker/main_ui.py:418 | the written format line sets the format to its value in both walks |
| Config.FormatLineKeys | usr/share/time-tracker/main_ui.py:386 | the format line mentions `time_format` and not `polling_rate` |
| Config.FormatLineNotRate | usr/share/time-tracker/main_ui.py:383 | the format line does not mention `polling_rate` when its value does not |
| Config.SettingMentionsKey | usr/share/time-tracker/main_ui.py:383 | the tail of a `$ key=value` line mentions the key |
| Config.FormatKeyIsNotRate | usr/share/time-tracker/main_ui.py:418 | the format line's key part does not mention `polling_rate` |
| Config.SettingValue | usr/share/time-tracker/main_ui.py:384 | `split("=")[1]` of `key=value` is `value` when neither holds `=` |
| Config.Unlines | usr/share/time-tracker/main_ui.py:420-422 | each line written followed by a newline |
| Config.RateLine | usr/share/time-tracker/main_ui.py:409 | the polling-rate line `$ polling_rate=<rate>` |
| Config.FormatLine | usr/share/time-tracker/main_ui.py:418 | the time-format line `$ time_format=<format>` |
| Config.HeaderLines | usr/share/time-tracker/main_ui.py:399-418 | the fixed header: the comment block, the rate line, two blank lines and the format comments, the format line |
| Config.ConfigText | usr/share/time-tracker/main_ui.py:399-422 | the whole file `apply` writes: the header, then each process name on its own line |
| Config.UnlinesAppend | usr/share/time-tracker/main_ui.py:420-422 | writing two blocks of lines is writing one after the other |
| Config.SplitUnlines | usr/share/time-tracker/main_ui.py:373 | splitting the written lines on newlines gives them back, plus an empty last piece |
| Config.SplitFile | usr/share/time-tracker/main_ui.py:399-422 | how the file `apply` writes splits into lines |
| Config.FixedBlocksDropped | usr/share/time-tracker/main_ui.py:399-417 | every fixed header line is a comment or blank and holds no newline |
| Config.FixedBlocksOneLine | usr/share/time-tracker/main_ui.py:399-417 | the fixed header blocks hold no newline |
| Config.PlainNamesOneLine | usr/share/time-tracker/main_ui.py:420-422 | plain process names hold no newline |
| Config.NamesParse | usr/share/time-tracker/main_ui.py:377-388 | plain names followed by the empty last piece parse to themselves with default settings |
| Config.SweepBehindRateLine | usr/share/time-tracker/main_ui.py:377-388 | blank lines, a format line and plain names parse to the names and the format |
| Config.ParseAfterApply | usr/share/time-tracker/main_ui.py:399-422 | reading back what `apply` wrote gives the same list, rate and format, given a parsable rate text, a clean format, plain names and, as written, a first name that does not mention `time_format` |
| Config.IntendedParseAfterApply | usr/share/time-tracker/main_ui.py:399-422 | with the quirk corrected, the round trip holds for every list of plain names, the empty list included |
| Config.FirstRunLayout | usr/share/time-tracker/main_ui.py:346-365 | the lines of the first-run file, and that everything behind its rate line leaves the defaults |
| Config.RateLineWithEmptyList | usr/share/time-tracker/main_ui.py:377-388 | a rate line with only comments before it and nothing that survives behind it raises IndexError as written (ValueError if the rate does not parse), and sets the rate when corrected |
| Config.FirstRunFileFails | usr/share/time-tracker/main_ui.py:346-365 | the file written on first run raises IndexError when read back (ValueError if `float` rejects the default rate) |
| Config.FirstRunFileIntended | usr/share/time-tracker/main_ui.py:346-365 | with the quirk corrected, the first-run file parses to the defaults and an empty list |
| Header.Dropped | usr/share/time-tracker/main_ui.py:378-381 | a line the walk deletes without looking further: one character or less, or starting with `#` |
| Header.CommentsBlank | usr/share/time-tracker/main_ui.py:346-364 | every fixed comment line is dropped by the walk and holds no newline |
| Totals.LineValue | usr/share/time-tracker/main_ui.py:326-329 | one log line adds its number, or nothing when `float` rejects it |
| Totals.LinesTotal | usr/share/time-tracker/main_ui.py:325-329 | the sum over a log's lines |
| Totals.EntryTotal | usr/share/time-tracker/main_ui.py:317-329 | a process's total: the sum over its log, 0 without a log file |
| Totals.GrandTotal | usr/share/time-tracker/main_ui.py:315-330 | the entry totals added along the list, once per occurrence |
| Totals.Tally | usr/share/time-tracker/main_ui.py:316-317 | the per-name totals are defined exactly for the listed names |
| Totals.TallyAppend | usr/share/time-tracker/main_ui.py:316-330 | setting the next entry's total extends the tally by that entry |
| Totals.LinesTotalIsSumOfNumbers | usr/share/time-tracker/main_ui.py:324-329 | a log's total is the sum of exactly the lines `float` accepts |
| Totals.LinesTotalAppend | usr/share/time-tracker/main_ui.py:325-329 | the total of two runs of lines is the sum of their totals |
| Totals.UnparsableAddsNothing | usr/share/time-tracker/main_ui.py:326-329 | a line `float` rejects can be removed without changing the total |
| Totals.SumOfAppend | usr/share/time-tracker/main_ui.py:325-329 | the sum of two runs of numbers is the sum of their sums |
| Totals.GrandTotalAppend | usr/share/time-tracker/main_ui.py:316-330 | the grand total of two lists is the sum of their grand totals |
| Totals.GrandTotalByName | usr/share/time-tracker/main_ui.py:316-330 | a name listed several times is counted once per occurrence |
| Totals.RemoveFirst | usr/share/time-tracker/main_ui.py:304-308 | removing a listed name drops exactly one occurrence; an unlisted name changes nothing |
| Totals.RemoveFirstAt | usr/share/time-tracker/main_ui.py:304-308 | the entry removed is the first one equal to the name, and the others keep their order |
| Totals.RemoveFirstTotal | usr/share/time-tracker/main_ui.py:302-308 | removing a listed name takes its total off the grand total exactly once |
| Totals.RemoveLabelTarget | usr/share/time-tracker/main_ui.py:211 | `remove` reads the name from its button's label back as the name's first space-separated word, which is the whole name when it has no space |
| Totals.Basename | usr/share/time-tracker/main_ui.py:266-267 | the name `add_program` appends holds no `/` |
| Totals.BasenameIsLastSegment | usr/share/time-tracker/main_ui.py:266-267 | the base name ends the path and is the whole path or follows a `/` |
| Totals.BasenameOfPath | usr/share/time-tracker/main_ui.py:266-267 | the base name of `dir/name` is `name` |
| Tracker.MainUi.ReadSettings | usr/share/time-tracker/main_ui.py:332-388 | without a file it returns the first-run text and changes nothing; otherwise the in-place backward walk ends with the list and settings `ParseConfig` gives, or raises its exception |
| Tracker.MainUi.Start | usr/share/time-tracker/main_ui.py:68-78 | reading the settings then adding up the logs; on first run the list is never assigned and AttributeError follows |
| Tracker.MainUi.IntendedStart | usr/share/time-tracker/main_ui.py:68-78 | the start with the first-run branch corrected: the list and settings are an empty list and the defaults, what the written file reads back as, and adding up the logs succeeds with a total of 0 |
| Tracker.MainUi.Apply | usr/share/time-tracker/main_ui.py:390-425 | when the file exists, the text written is the header with the rate and format, then each name on its own line; otherwise nothing is written |
| Tracker.MainUi.Remove | usr/share/time-tracker/main_ui.py:302-308 | a label without a space raises IndexError and changes nothing; otherwise the first entry equal to the label's second word is deleted |
| Tracker.MainUi.ReadLogs | usr/share/time-tracker/main_ui.py:313-330 | the grand total is the sum of the entry totals and every listed name's total is its log's sum |
| Tracker.MainUi.AddLog | usr/share/time-tracker/main_ui.py:320-329 | the name's total grows by the sum of the log lines `float` accepts |
| Tracker.MainUi.AddProgram | usr/share/time-tracker/main_ui.py:256-272 | a chosen file's base name is appended, then the totals are recomputed |

## Left out

- The GTK window itself is not modelled: widgets, pages, dialogs, markup, `main`, `clear_window`, `track`, `reload` and `exit`. Nor are the daemon control through `pgrep`/`killall` and `set_procname`.
- File-system effects (`mkdir`, `remove`, `open`, `path.exists`) and `IOError` are not modelled; file contents and existence are parameters.
- Floating point is not modelled.
  - The polling rate is a `real`.
  - `float` and `"%s"` are parameters.
  - Log numbers are whole (`int`) and parsed by a parameter.
  - Seconds in `format_time` are whole.
- Duration.FormatTime: the input is a whole, non-negative number of seconds. So Python's `round` is the identity and float division artefacts do not arise, and negative durations are not covered. The model returns the printed components, not the formatted text.
- `sec_to_scale` / `scale_to_sec` (lines 290-300) are not modelled; they are a linear map between the slider and the rate.
- `globals()` is modelled as a map from names to totals. Collisions between a process name and another module global (or a `_label1`/`_button1` widget name) are not modelled.
- Tracker.MainUi.ReadSettings: on an exception it promises only the exception, not the partially walked list and settings the object holds afterwards.
- Tracker.MainUi.Start: the first-run AttributeError is stated as the outcome, and the object's fields are left unspecified in that case. The model's object always has the list attribute.
- Tracker.MainUi.AddProgram: the file dialog is a parameter (`None` for Cancel), and `main(2)` is not modelled.
- Tracker.MainUi.Apply: the exit of the window after writing is not modelled.
- Tracker.MainUi.constructor: it creates the object with an empty list and default settings. It has no counterpart in the source, which relies on `read_settings` to assign them.

## Findings

`Tracker.MainUi.ReadSettings` follows the walk as written, so that it stays faithful to the program. The corrected walk is `Sweep(Intended, …)` (`Config.IntendedStep`). `Config.IntendedKeepsProcessNames`, `Config.IntendedParseAfterApply` and `Config.FirstRunFileIntended` are proved about it.

| source | as written | input that shows it | evidently intended | confidence | as-written member | corrected member |
|---|---|---|---|---|---|---|
| usr/share/time-tracker/main_ui.py:383-388 | after a polling-rate line is deleted, the time-format test indexes the same position, now the next surviving line or past the end | the settings file written on first run (lines 346-365): nothing survives behind its rate line, so the next start raises IndexError | the two tests as alternatives on the same line, so the first-run file reads back as the defaults with an empty list | not executed | Config.FirstRunFileFails | Config.FirstRunFileIntended |
| usr/share/time-tracker/main_ui.py:76-77 | on first run `read_settings` (lines 335-367) writes the default file but never assigns `self.processes`, so the `read_logs` call that follows raises AttributeError at line 316 | a first start, with no settings file | the list and settings set to what the written file reads back as: an empty list and the defaults | not executed | Tracker.MainUi.Start | Tracker.MainUi.IntendedStart |
