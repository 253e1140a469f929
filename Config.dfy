/**
 * The settings file: how `read_settings` turns its lines into a list of
 * tracked processes, a polling rate and a time format, and the text `apply`
 * writes back.
 *
 * `read_settings` walks the lines from last to first and deletes lines from the
 * list as it goes. `Sweep` describes that walk as a function: it handles the
 * first line only after the rest of the lines are done, and it knows which lines
 * survived after the current one. Turning a token into a number (Python's
 * `float`) and back (`"%s"`) are given as parameters.
 */
module Config {
  import opened Wrappers
  import opened Strings
  import opened Header

  const DefaultRate: real := 2.8114754095
  /** The default rate as the first-run file spells it. */
  const DefaultRateText := "2.8114754095"
  const DefaultFormat: string := "h"

  /** The two keys a `$` line can set. */
  const RateKey := "polling_rate"
  const FormatKey := "time_format"

  /** The list and the two settings, as they stand part-way through the walk or at its end. */
  datatype Parsed = Parsed(processes: seq<string>, pollingRate: real, timeFormat: string)

  function Initial(): Parsed
  {
    Parsed([], DefaultRate, DefaultFormat)
  }

  /** A `$` line that the first test of the walk consumes. */
  predicate IsRateLine(line: string)
  {
    |line| >= 2 && line[0] == '$' && Contains(Tail(line), RateKey)
  }

  /**
   * The second test of a `$` line: whatever line now stands at the walk's index
   * (`current`, followed by `rest`) is consumed as the time format when its tail
   * mentions `time_format`, and stays otherwise.
   */
  function TakeFormat(current: string, rest: seq<string>, st: Parsed): Result<Parsed, Error>
  {
    if Contains(Tail(current), FormatKey) then
      match Second(current, '=')
      case None => Err(IndexError)
      case Some(format) => Ok(Parsed(rest, st.pollingRate, format))
    else Ok(Parsed([current] + rest, st.pollingRate, st.timeFormat))
  }

  /**
   * One turn of the walk, as written: `after` holds the lines that survived
   * behind `line`. A polling-rate line is deleted and the time-format test then
   * looks at the line that took its place, the first survivor behind it, or
   * fails when there is none.
   */
  function Step(line: string, after: Parsed, parseFloat: string -> Option<real>): Result<Parsed, Error>
  {
    if Dropped(line) then Ok(after)
    else if line[0] == '$' then
      if Contains(Tail(line), RateKey) then
        match Second(line, '=')
        case None => Err(IndexError)
        case Some(token) =>
          match parseFloat(token)
          case None => Err(ValueError)
          case Some(rate) =>
            if after.processes == [] then Err(IndexError)
            else TakeFormat(after.processes[0], after.processes[1..], after.(pollingRate := rate))
      else TakeFormat(line, after.processes, after)
    else Ok(after.(processes := [line] + after.processes))
  }

  /** One turn of the walk as the code evidently meant it: the time-format test looks at the same line. */
  function IntendedStep(line: string, after: Parsed, parseFloat: string -> Option<real>): Result<Parsed, Error>
  {
    if Dropped(line) then Ok(after)
    else if line[0] == '$' && Contains(Tail(line), RateKey) then
      match Second(line, '=')
      case None => Err(IndexError)
      case Some(token) =>
        match parseFloat(token)
        case None => Err(ValueError)
        case Some(rate) => Ok(after.(pollingRate := rate))
    else if line[0] == '$' then TakeFormat(line, after.processes, after)
    else Ok(after.(processes := [line] + after.processes))
  }

  /** Which turn the walk takes: the code as written, or as intended. */
  datatype Variant = AsWritten | Intended

  function StepOf(v: Variant, line: string, after: Parsed, parseFloat: string -> Option<real>): Result<Parsed, Error>
  {
    match v
    case AsWritten => Step(line, after, parseFloat)
    case Intended => IntendedStep(line, after, parseFloat)
  }

  /**
   * The walk from the last line to the first, starting from `start`, the state
   * that the lines after `lines` left behind. An exception stops it.
   */
  function Sweep(v: Variant, lines: seq<string>, parseFloat: string -> Option<real>, start: Result<Parsed, Error>): Result<Parsed, Error>
    decreases |lines|
  {
    if lines == [] then start
    else
      match Sweep(v, lines[1..], parseFloat, start)
      case Err(e) => Err(e)
      case Ok(after) => StepOf(v, lines[0], after, parseFloat)
  }

  /** What `read_settings` makes of the lines of the file: the list, the rate and the format, or the exception. */
  function ParseLines(lines: seq<string>, parseFloat: string -> Option<real>): Result<Parsed, Error>
  {
    Sweep(AsWritten, lines, parseFloat, Ok(Initial()))
  }

  /** What `read_settings` makes of the text of the file. */
  function ParseConfig(text: string, parseFloat: string -> Option<real>): Result<Parsed, Error>
  {
    ParseLines(Split(text, '\n'), parseFloat)
  }

  /** The same, with the index quirk corrected. */
  function IntendedParseConfig(text: string, parseFloat: string -> Option<real>): Result<Parsed, Error>
  {
    Sweep(Intended, Split(text, '\n'), parseFloat, Ok(Initial()))
  }

  // ---------------------------------------------------------------------------
  // Writing the file

  /** Lines joined with a newline after each one, as `apply` writes them. */
  function Unlines(lines: seq<string>): string
  {
    if lines == [] then "" else lines[0] + "\n" + Unlines(lines[1..])
  }

  /** The fixed comment block before the polling-rate line. */
  const Preamble: seq<string> := [Comment0, Comment1, Comment2, Comment3, Comment4, Comment5, "", Comment6, Comment7, Comment8]

  /** The fixed block between the polling-rate line and the time-format line. */
  const Interlude: seq<string> := ["", "", Comment9, Comment10, Comment11, Comment12, Comment13, Comment14]

  function RateLine(rateText: string): string
  {
    "$ " + RateKey + "=" + rateText
  }

  function FormatLine(format: string): string
  {
    "$ " + FormatKey + "=" + format
  }

  /** The header `apply` writes before the process names. */
  function HeaderLines(rateText: string, format: string): seq<string>
  {
    Preamble + [RateLine(rateText)] + Interlude + [FormatLine(format)]
  }

  /** The whole file `apply` writes: the header, then each process name on its own line. */
  function ConfigText(rateText: string, format: string, processes: seq<string>): string
  {
    Unlines(HeaderLines(rateText, format) + processes)
  }

  /** The file written on first run (a slightly different header: one blank line after the rate). */
  const FirstRunLines: seq<string> :=
    Preamble + [RateLine(DefaultRateText)] + Interlude[1..] + [FormatLine(DefaultFormat)]

  // ---------------------------------------------------------------------------
  // Lemmas about the walk

  /** An exception stops the walk: nothing that comes before it in the file changes it. */
  lemma {:induction false} SweepKeepsError(v: Variant, lines: seq<string>, pf: string -> Option<real>, e: Error)
    ensures Sweep(v, lines, pf, Err(e)) == Err(e)
  {
    if lines != [] {
      SweepKeepsError(v, lines[1..], pf, e);
    }
  }

  /** Walking `a + b` is walking `b`, then `a` from where `b` left off. */
  lemma {:induction false} SweepAppend(v: Variant, a: seq<string>, b: seq<string>, pf: string -> Option<real>, start: Result<Parsed, Error>)
    ensures Sweep(v, a + b, pf, start) == Sweep(v, a, pf, Sweep(v, b, pf, start))
  {
    if a == [] {
      assert a + b == b;
    } else {
      assert (a + b)[1..] == a[1..] + b;
      SweepAppend(v, a[1..], b, pf, start);
    }
  }

  /** A turn of the walk that raises makes the whole walk raise. */
  lemma SweepStops(v: Variant, lines: seq<string>, i: nat, pf: string -> Option<real>, e: Error)
    requires i <= |lines| && Sweep(v, lines[i..], pf, Ok(Initial())) == Err(e)
    ensures Sweep(v, lines, pf, Ok(Initial())) == Err(e)
  {
    assert lines == lines[..i] + lines[i..];
    SweepAppend(v, lines[..i], lines[i..], pf, Ok(Initial()));
    SweepKeepsError(v, lines[..i], pf, e);
  }

  /** Comments and short lines change nothing. */
  lemma {:induction false} SweepDropped(v: Variant, lines: seq<string>, pf: string -> Option<real>, st: Parsed)
    requires forall k :: 0 <= k < |lines| ==> Blank(lines[k])
    ensures Sweep(v, lines, pf, Ok(st)) == Ok(st)
  {
    if lines != [] {
      SweepDropped(v, lines[1..], pf, st);
    }
  }

  /** A line the walk leaves in the list, whichever variant: long enough, no comment, no recognised `$` setting. */
  predicate Kept(line: string)
  {
    && |line| >= 2
    && line[0] != '#'
    && !(line[0] == '$' && (Contains(Tail(line), RateKey) || Contains(Tail(line), FormatKey)))
  }

  /** The lines that stay, in file order. */
  function KeptLines(lines: seq<string>): (r: seq<string>)
    ensures forall k :: 0 <= k < |r| ==> Kept(r[k]) && r[k] in lines
  {
    if lines == [] then []
    else (if Kept(lines[0]) then [lines[0]] else []) + KeptLines(lines[1..])
  }

  /** Every line of `ps` is a line of `lines` of at least two characters that is not a comment. */
  predicate FromLines(ps: seq<string>, lines: seq<string>)
  {
    forall k :: 0 <= k < |ps| ==> ps[k] in lines && |ps[k]| >= 2 && ps[k][0] != '#'
  }

  /**
   * Every line the walk leaves in the list is a line of the input of at least
   * two characters that is not a comment.
   */
  lemma {:induction false} SurvivorsAreInputLines(v: Variant, lines: seq<string>, pf: string -> Option<real>)
    ensures Sweep(v, lines, pf, Ok(Initial())).Ok? ==> FromLines(Sweep(v, lines, pf, Ok(Initial())).value.processes, lines)
  {
    if lines != [] {
      SurvivorsAreInputLines(v, lines[1..], pf);
      var r := Sweep(v, lines[1..], pf, Ok(Initial()));
      if r.Ok? {
        StepSurvivors(v, lines[0], r.value, pf);
        var before := r.value.processes;
        assert FromLines(before, lines[1..]);
        forall k | 0 <= k < |before| ensures before[k] in lines {
          assert before[k] in lines[1..];
        }
      }
    }
  }

  /** A turn of the walk keeps only lines that were behind it, and the current line if it is long and no comment. */
  lemma StepSurvivors(v: Variant, line: string, after: Parsed, pf: string -> Option<real>)
    ensures StepOf(v, line, after, pf).Ok? ==>
      var ps := StepOf(v, line, after, pf).value.processes;
      forall k :: 0 <= k < |ps| ==> ps[k] in after.processes || (ps[k] == line && |line| >= 2 && line[0] != '#')
  {
    var ps := after.processes;
    if ps != [] {
      assert forall k :: 0 <= k < |ps[1..]| ==> ps[1..][k] in ps;
    }
  }

  /**
   * With the code as written, when no surviving line mentions `time_format`
   * after its first character, a successful parse lists exactly the kept lines,
   * in file order: short lines, comments and consumed `$` lines are gone, and a
   * `$` line with neither key stays.
   */
  lemma {:induction false} ParseKeepsProcessNames(lines: seq<string>, pf: string -> Option<real>)
    requires forall line :: line in lines && Kept(line) ==> !Contains(Tail(line), FormatKey)
    ensures ParseLines(lines, pf).Ok? ==> ParseLines(lines, pf).value.processes == KeptLines(lines)
  {
    if lines != [] {
      assert lines == [lines[0]] + lines[1..];
      ParseKeepsProcessNames(lines[1..], pf);
      var r := ParseLines(lines[1..], pf);
      if r.Ok? {
        StepKeepsKept(lines[0], r.value, pf);
      }
    }
  }

  /** A turn of the walk as written keeps the line exactly when it is kept, if no survivor mentions the format key. */
  lemma StepKeepsKept(line: string, after: Parsed, pf: string -> Option<real>)
    requires forall k :: 0 <= k < |after.processes| ==> Kept(after.processes[k]) && !Contains(Tail(after.processes[k]), FormatKey)
    requires Kept(line) ==> !Contains(Tail(line), FormatKey)
    ensures Step(line, after, pf).Ok? ==>
      Step(line, after, pf).value.processes == (if Kept(line) then [line] else []) + after.processes
  {
    var ps := after.processes;
    if ps != [] {
      assert [ps[0]] + ps[1..] == ps;
    }
  }

  /** With the quirk corrected, every successful parse lists exactly the kept lines, with no side condition. */
  lemma {:induction false} IntendedKeepsProcessNames(lines: seq<string>, pf: string -> Option<real>)
    ensures Sweep(Intended, lines, pf, Ok(Initial())).Ok? ==>
      Sweep(Intended, lines, pf, Ok(Initial())).value.processes == KeptLines(lines)
  {
    if lines != [] {
      IntendedKeepsProcessNames(lines[1..], pf);
      var r := Sweep(Intended, lines[1..], pf, Ok(Initial()));
      if r.Ok? {
        IntendedStepKeeps(lines[0], r.value, pf);
      }
    }
  }

  /** A corrected turn of the walk keeps the line exactly when it is kept. */
  lemma IntendedStepKeeps(line: string, after: Parsed, pf: string -> Option<real>)
    ensures IntendedStep(line, after, pf).Ok? ==>
      IntendedStep(line, after, pf).value.processes == (if Kept(line) then [line] else []) + after.processes
  {
  }

  /** Without a polling-rate line the rate keeps its default. */
  lemma {:induction false} RateDefault(v: Variant, lines: seq<string>, pf: string -> Option<real>)
    requires forall k :: 0 <= k < |lines| ==> !IsRateLine(lines[k])
    ensures Sweep(v, lines, pf, Ok(Initial())).Ok? ==> Sweep(v, lines, pf, Ok(Initial())).value.pollingRate == DefaultRate
  {
    if lines != [] {
      RateDefault(v, lines[1..], pf);
    }
  }

  /**
   * The rate comes from the first polling-rate line of the file (the walk sees
   * it last): the number its token between the first and second `=` parses to.
   */
  lemma {:induction false} RateFromFirstRateLine(v: Variant, lines: seq<string>, pf: string -> Option<real>, k: nat)
    requires k < |lines| && IsRateLine(lines[k])
    requires forall j :: 0 <= j < k ==> !IsRateLine(lines[j])
    ensures Sweep(v, lines, pf, Ok(Initial())).Ok? ==>
      Second(lines[k], '=').Some? && pf(Second(lines[k], '=').value) == Some(Sweep(v, lines, pf, Ok(Initial())).value.pollingRate)
  {
    var r := Sweep(v, lines[1..], pf, Ok(Initial()));
    if k > 0 {
      RateFromFirstRateLine(v, lines[1..], pf, k - 1);
    }
    if r.Err? {
      assert Sweep(v, lines, pf, Ok(Initial())) == Err(r.error);
    }
  }

  /** A `$` line that sets the time format: its tail mentions `time_format` and not `polling_rate`. */
  predicate IsFormatLine(line: string)
  {
    |line| >= 2 && line[0] == '$' && !Contains(Tail(line), RateKey) && Contains(Tail(line), FormatKey)
  }

  /**
   * With the quirk corrected, the format comes from the first time-format line
   * of the file (the walk sees it last): the text between its first and second `=`.
   */
  lemma {:induction false} FormatFromFirstFormatLine(lines: seq<string>, pf: string -> Option<real>, k: nat)
    requires k < |lines| && IsFormatLine(lines[k])
    requires forall j :: 0 <= j < k ==> !IsFormatLine(lines[j])
    ensures Sweep(Intended, lines, pf, Ok(Initial())).Ok? ==>
      Second(lines[k], '=') == Some(Sweep(Intended, lines, pf, Ok(Initial())).value.timeFormat)
  {
    var r := Sweep(Intended, lines[1..], pf, Ok(Initial()));
    if k > 0 {
      FormatFromFirstFormatLine(lines[1..], pf, k - 1);
    }
    if r.Err? {
      assert Sweep(Intended, lines, pf, Ok(Initial())) == Err(r.error);
    }
  }

  /**
   * When no kept line mentions `time_format`, the walk as written, whenever it
   * succeeds, ends where the corrected walk ends.
   */
  lemma {:induction false} AsWrittenAgreesWhenOk(lines: seq<string>, pf: string -> Option<real>)
    requires forall line :: line in lines && Kept(line) ==> !Contains(Tail(line), FormatKey)
    ensures ParseLines(lines, pf).Ok? ==> ParseLines(lines, pf) == Sweep(Intended, lines, pf, Ok(Initial()))
  {
    if lines != [] {
      assert forall line :: line in lines[1..] ==> line in lines;
      AsWrittenAgreesWhenOk(lines[1..], pf);
      ParseKeepsProcessNames(lines[1..], pf);
      var r := ParseLines(lines[1..], pf);
      if r.Ok? {
        var ps := r.value.processes;
        if ps != [] {
          assert ps[0] in lines[1..];
        }
        StepAgrees(lines[0], r.value, pf);
      }
    }
  }

  /** One turn as written, when it succeeds and the first survivor does not mention `time_format`, is the corrected turn. */
  lemma StepAgrees(line: string, after: Parsed, pf: string -> Option<real>)
    requires after.processes != [] ==> !Contains(Tail(after.processes[0]), FormatKey)
    ensures Step(line, after, pf).Ok? ==> Step(line, after, pf) == IntendedStep(line, after, pf)
  {
    var ps := after.processes;
    if ps != [] {
      assert [ps[0]] + ps[1..] == ps;
    }
  }

  /**
   * As written, under the side condition of `ParseKeepsProcessNames`, the
   * format likewise comes from the first time-format line of the file.
   */
  lemma FormatFromFirstFormatLineAsWritten(lines: seq<string>, pf: string -> Option<real>, k: nat)
    requires k < |lines| && IsFormatLine(lines[k])
    requires forall j :: 0 <= j < k ==> !IsFormatLine(lines[j])
    requires forall line :: line in lines && Kept(line) ==> !Contains(Tail(line), FormatKey)
    ensures ParseLines(lines, pf).Ok? ==> Second(lines[k], '=') == Some(ParseLines(lines, pf).value.timeFormat)
  {
    AsWrittenAgreesWhenOk(lines, pf);
    FormatFromFirstFormatLine(lines, pf, k);
  }

  /**
   * Without a surviving line that mentions `time_format` after its first
   * character, the format keeps its default `h`.
   */
  lemma {:induction false} FormatDefault(v: Variant, lines: seq<string>, pf: string -> Option<real>)
    requires forall k :: 0 <= k < |lines| && |lines[k]| >= 2 && lines[k][0] != '#' ==> !Contains(Tail(lines[k]), FormatKey)
    ensures Sweep(v, lines, pf, Ok(Initial())).Ok? ==> Sweep(v, lines, pf, Ok(Initial())).value.timeFormat == DefaultFormat
  {
    if lines != [] {
      FormatDefault(v, lines[1..], pf);
      SurvivorsAreInputLines(v, lines[1..], pf);
      var r := Sweep(v, lines[1..], pf, Ok(Initial()));
      if r.Ok? && r.value.processes != [] {
        assert r.value.processes[0] in lines[1..];
      }
    }
  }

  /**
   * The index quirk, first half: a polling-rate line with no surviving line
   * behind it makes the time-format test read past the end of the list.
   */
  lemma RateLineLastFails(line: string, after: seq<string>, pf: string -> Option<real>)
    requires IsRateLine(line) && Second(line, '=').Some? && pf(Second(line, '=').value).Some?
    requires ParseLines(after, pf).Ok? && ParseLines(after, pf).value.processes == []
    ensures ParseLines([line] + after, pf) == Err(IndexError)
  {
    assert ([line] + after)[1..] == after;
  }

  /**
   * The index quirk, second half: the first surviving line behind a
   * polling-rate line is consumed as the time format when it mentions
   * `time_format`, even when it is a process name. (`after` is what the walk
   * left behind the rate line, so `ParseLines([line] + rest)` is this turn
   * applied to `ParseLines(rest)`.)
   */
  lemma StolenByRateLine(line: string, after: Parsed, pf: string -> Option<real>)
    requires IsRateLine(line) && Second(line, '=').Some? && pf(Second(line, '=').value).Some?
    requires after.processes != [] && Contains(Tail(after.processes[0]), FormatKey) && '=' in after.processes[0]
    ensures var name := after.processes[0];
      Step(line, after, pf) == Ok(Parsed(after.processes[1..], pf(Second(line, '=').value).value, Second(name, '=').value))
  {
  }

  // ---------------------------------------------------------------------------
  // Lemmas about the written file

  /** Writing a line and then another block is writing both lines in turn. */
  lemma {:induction false} UnlinesAppend(a: seq<string>, b: seq<string>)
    ensures Unlines(a + b) == Unlines(a) + Unlines(b)
  {
    if a == [] {
      assert a + b == b;
    } else {
      assert (a + b)[0] == a[0] && (a + b)[1..] == a[1..] + b;
      UnlinesAppend(a[1..], b);
      calc {
        Unlines(a + b);
        a[0] + "\n" + Unlines(a[1..] + b);
        a[0] + "\n" + (Unlines(a[1..]) + Unlines(b));
        (a[0] + "\n" + Unlines(a[1..])) + Unlines(b);
      }
    }
  }

  /** Splitting what `Unlines` wrote on newlines gives the lines back, plus the empty piece after the last newline. */
  lemma {:induction false} SplitUnlines(lines: seq<string>)
    requires forall k :: 0 <= k < |lines| ==> '\n' !in lines[k]
    ensures Split(Unlines(lines), '\n') == lines + [""]
  {
    if lines != [] {
      SplitUnlines(lines[1..]);
      SplitAround(lines[0], '\n', Unlines(lines[1..]));
      SplitWithoutSep(lines[0], '\n');
      assert lines[0] + "\n" + Unlines(lines[1..]) == lines[0] + ['\n'] + Unlines(lines[1..]);
    }
  }

  /** `split("=")[1]` of `key=value` is `value` when neither side holds `=`. */
  lemma SettingValue(key: string, value: string)
    requires '=' !in key && '=' !in value
    ensures Second(key + "=" + value, '=') == Some(value)
  {
    assert key + "=" + value == key + ['='] + value;
    SecondAfterKey(key, '=', value);
    SplitWithoutSep(value, '=');
  }

  /** The fixed blocks of the header are comments and blank lines without newlines. */
  lemma FixedBlocksDropped()
    ensures forall k :: 0 <= k < |Preamble| ==> Blank(Preamble[k])
    ensures forall k :: 0 <= k < |Interlude| ==> Blank(Interlude[k])
  {
    CommentsBlank();
  }

  lemma RateLineParses(rateText: string)
    requires '=' !in rateText && '\n' !in rateText
    ensures IsRateLine(RateLine(rateText)) && Second(RateLine(rateText), '=') == Some(rateText)
    ensures '\n' !in RateLine(rateText)
  {
    var line := RateLine(rateText);
    assert '=' !in "$ " + RateKey && '\n' !in "$ " + RateKey;
    SettingValue("$ " + RateKey, rateText);
    SettingMentionsKey(RateKey, rateText);
  }

  /** The key of the time-format line does not mention the polling rate. */
  lemma FormatKeyIsNotRate()
    ensures !Contains(" " + FormatKey + "=", RateKey)
  {
    var s := " " + FormatKey + "=";
    var s1 := s[1..];
    assert |s| == 13 && |RateKey| == 12;
    assert !Contains(s1[1..], RateKey);
    assert s1[..12][0] == 't' != RateKey[0];
    assert !Contains(s1, RateKey);
    assert s[..12][0] == ' ';
  }

  /** What the two key tests see in a time-format line. */
  lemma FormatLineKeys(format: string)
    requires '=' !in format && !Contains(format, RateKey)
    ensures Contains(Tail(FormatLine(format)), FormatKey) && !Contains(Tail(FormatLine(format)), RateKey)
  {
    FormatLineNotRate(format);
    SettingMentionsKey(FormatKey, format);
  }

  /** The tail of a `$ key=value` line mentions the key. */
  lemma SettingMentionsKey(key: string, value: string)
    ensures Contains(Tail("$ " + key + "=" + value), key)
  {
    assert Tail("$ " + key + "=" + value) == " " + key + ("=" + value);
    ContainsInside(" ", key, "=" + value);
  }

  /** A time-format line never mentions the polling rate when its value does not. */
  lemma FormatLineNotRate(format: string)
    requires !Contains(format, RateKey)
    ensures !Contains(Tail(FormatLine(format)), RateKey)
  {
    var key := " " + FormatKey + "=";
    assert Tail(FormatLine(format)) == key + format;
    assert key[|key| - 1] == '=' && '=' !in RateKey;
    FormatKeyIsNotRate();
    ContainsAcrossBorder(key, format, RateKey);
  }

  /** A time-format line whose value avoids `=`, newlines and `polling_rate` is consumed as that value. */
  lemma FormatLineParses(format: string, after: Parsed, pf: string -> Option<real>)
    requires '=' !in format && '\n' !in format && !Contains(format, RateKey)
    ensures !IsRateLine(FormatLine(format)) && '\n' !in FormatLine(format)
    ensures Step(FormatLine(format), after, pf) == Ok(after.(timeFormat := format))
    ensures IntendedStep(FormatLine(format), after, pf) == Ok(after.(timeFormat := format))
  {
    var line := FormatLine(format);
    assert '=' !in "$ " + FormatKey && '\n' !in "$ " + FormatKey;
    SettingValue("$ " + FormatKey, format);
    FormatLineKeys(format);
    assert |line| >= 2 && line[0] == '$';
  }

  /**
   * A polling-rate line whose text parses sets the rate. As written, the
   * time-format test then reads the first survivor behind it, which stays when
   * it does not mention `time_format`; there must be one.
   */
  lemma RateLineStep(rate: real, rateText: string, after: Parsed, pf: string -> Option<real>)
    requires pf(rateText) == Some(rate) && '=' !in rateText && '\n' !in rateText
    ensures after.processes == [] ==> Step(RateLine(rateText), after, pf) == Err(IndexError)
    ensures after.processes != [] && !Contains(Tail(after.processes[0]), FormatKey) ==>
      Step(RateLine(rateText), after, pf) == Ok(after.(pollingRate := rate))
    ensures IntendedStep(RateLine(rateText), after, pf) == Ok(after.(pollingRate := rate))
  {
    RateLineParses(rateText);
    var ps := after.processes;
    if ps != [] {
      assert [ps[0]] + ps[1..] == ps;
    }
  }

  /** Process names that `apply` writes and `read_settings` reads back unchanged. */
  predicate PlainName(name: string)
  {
    |name| >= 2 && name[0] != '#' && name[0] != '$' && '\n' !in name
  }

  /** The names followed by the empty piece after the last newline parse to themselves. */
  lemma {:induction false} NamesParse(v: Variant, names: seq<string>, pf: string -> Option<real>)
    requires forall k :: 0 <= k < |names| ==> PlainName(names[k])
    ensures Sweep(v, names + [""], pf, Ok(Initial())) == Ok(Parsed(names, DefaultRate, DefaultFormat))
  {
    if names == [] {
      assert names + [""] == [""];
    } else {
      assert (names + [""])[1..] == names[1..] + [""];
      NamesParse(v, names[1..], pf);
      assert [names[0]] + names[1..] == names;
    }
  }

  /** No line holds a newline. */
  predicate NoNewlines(lines: seq<string>)
  {
    forall k :: 0 <= k < |lines| ==> '\n' !in lines[k]
  }

  /** The lines of a file laid out as `apply` lays it out, as `read_settings` splits them. */
  lemma SplitFile(top: seq<string>, rateLine: string, middle: seq<string>, formatLine: string, names: seq<string>)
    requires NoNewlines(top) && NoNewlines(middle) && NoNewlines(names)
    requires '\n' !in rateLine && '\n' !in formatLine
    ensures Split(Unlines(top + [rateLine] + middle + [formatLine] + names), '\n')
         == top + ([rateLine] + (middle + ([formatLine] + (names + [""]))))
  {
    var lines := top + [rateLine] + middle + [formatLine] + names;
    assert lines == top + ([rateLine] + (middle + ([formatLine] + names)));
    assert NoNewlines(lines) by {
      forall k | 0 <= k < |lines| ensures '\n' !in lines[k] {
        if k < |top| {
          assert lines[k] == top[k];
        } else if k == |top| {
          assert lines[k] == rateLine;
        } else if k <= |top| + |middle| {
          assert lines[k] == middle[k - |top| - 1];
        } else if k == |top| + |middle| + 1 {
          assert lines[k] == formatLine;
        } else {
          assert lines[k] == names[k - |top| - |middle| - 2];
        }
      }
    }
    SplitUnlines(lines);
  }

  /** The fixed blocks hold no newline. */
  lemma FixedBlocksOneLine()
    ensures NoNewlines(Preamble) && NoNewlines(Interlude) && NoNewlines(Interlude[1..])
  {
    FixedBlocksDropped();
    assert forall k :: 0 <= k < |Interlude[1..]| ==> Interlude[1..][k] == Interlude[k + 1];
  }

  /** A polling-rate line whose token `float` rejects raises ValueError, in both variants. */
  lemma RateLineRejected(rateText: string, after: Parsed, pf: string -> Option<real>)
    requires pf(rateText) == None && '=' !in rateText && '\n' !in rateText
    ensures Step(RateLine(rateText), after, pf) == Err(ValueError)
    ensures IntendedStep(RateLine(rateText), after, pf) == Err(ValueError)
  {
    RateLineParses(rateText);
  }

  /** Behind the rate line: blank lines, the format line and the names parse to the names and the format, with the default rate. */
  lemma SweepBehindRateLine(v: Variant, middle: seq<string>, format: string, names: seq<string>, pf: string -> Option<real>)
    requires forall k :: 0 <= k < |middle| ==> Blank(middle[k])
    requires '=' !in format && '\n' !in format && !Contains(format, RateKey)
    requires forall k :: 0 <= k < |names| ==> PlainName(names[k])
    ensures Sweep(v, middle + ([FormatLine(format)] + (names + [""])), pf, Ok(Initial()))
         == Ok(Parsed(names, DefaultRate, format))
  {
    var initial := Ok(Initial());
    SweepAppend(v, middle, [FormatLine(format)] + (names + [""]), pf, initial);
    SweepAppend(v, [FormatLine(format)], names + [""], pf, initial);
    NamesParse(v, names, pf);
    FormatLineParses(format, Parsed(names, DefaultRate, DefaultFormat), pf);
    SweepDropped(v, middle, pf, Parsed(names, DefaultRate, format));
  }

  /** The names `apply` writes hold no newline. */
  lemma PlainNamesOneLine(names: seq<string>)
    requires forall k :: 0 <= k < |names| ==> PlainName(names[k])
    ensures NoNewlines(names)
  {
  }

  /**
   * Reading back what `apply` wrote gives the same list and settings, provided
   * the rate's text parses to the rate and holds no `=` or newline, the format
   * holds no `=`, newline or `polling_rate`, and the names are plain. The code
   * as written also needs a first name that does not mention `time_format`
   * after its first character, and at least one name.
   */
  lemma ParseAfterApply(rate: real, rateText: string, format: string, names: seq<string>, pf: string -> Option<real>)
    requires pf(rateText) == Some(rate) && '=' !in rateText && '\n' !in rateText
    requires '=' !in format && '\n' !in format && !Contains(format, RateKey)
    requires forall k :: 0 <= k < |names| ==> PlainName(names[k])
    requires names != [] && !Contains(Tail(names[0]), FormatKey)
    ensures ParseConfig(ConfigText(rateText, format, names), pf) == Ok(Parsed(names, rate, format))
  {
    var behind := Interlude + ([FormatLine(format)] + (names + [""]));
    var rateLine := RateLine(rateText);
    RateLineParses(rateText);
    FormatLineParses(format, Initial(), pf);
    FixedBlocksOneLine();
    PlainNamesOneLine(names);
    SplitFile(Preamble, rateLine, Interlude, FormatLine(format), names);
    SweepAppend(AsWritten, Preamble, [rateLine] + behind, pf, Ok(Initial()));
    FixedBlocksDropped();
    SweepBehindRateLine(AsWritten, Interlude, format, names, pf);
    RateLineStep(rate, rateText, Parsed(names, DefaultRate, format), pf);
    assert ([rateLine] + behind)[1..] == behind;
    SweepDropped(AsWritten, Preamble, pf, Parsed(names, rate, format));
  }

  /** With the quirk corrected, the round trip holds for an empty list and for any plain first name. */
  lemma IntendedParseAfterApply(rate: real, rateText: string, format: string, names: seq<string>, pf: string -> Option<real>)
    requires pf(rateText) == Some(rate) && '=' !in rateText && '\n' !in rateText
    requires '=' !in format && '\n' !in format && !Contains(format, RateKey)
    requires forall k :: 0 <= k < |names| ==> PlainName(names[k])
    ensures IntendedParseConfig(ConfigText(rateText, format, names), pf) == Ok(Parsed(names, rate, format))
  {
    var behind := Interlude + ([FormatLine(format)] + (names + [""]));
    var rateLine := RateLine(rateText);
    RateLineParses(rateText);
    FormatLineParses(format, Initial(), pf);
    FixedBlocksOneLine();
    PlainNamesOneLine(names);
    SplitFile(Preamble, rateLine, Interlude, FormatLine(format), names);
    SweepAppend(Intended, Preamble, [rateLine] + behind, pf, Ok(Initial()));
    FixedBlocksDropped();
    SweepBehindRateLine(Intended, Interlude, format, names, pf);
    RateLineStep(rate, rateText, Parsed(names, DefaultRate, format), pf);
    assert ([rateLine] + behind)[1..] == behind;
    SweepDropped(Intended, Preamble, pf, Parsed(names, rate, format));
  }

  /** The lines of the first-run file, and what parses behind its rate line. */
  lemma FirstRunLayout(v: Variant, pf: string -> Option<real>)
    ensures Split(Unlines(FirstRunLines), '\n') == Preamble + ([RateLine(DefaultRateText)] + (Interlude[1..] + ([FormatLine(DefaultFormat)] + [""])))
    ensures Sweep(v, Interlude[1..] + ([FormatLine(DefaultFormat)] + [""]), pf, Ok(Initial())) == Ok(Initial())
  {
    var empty: seq<string> := [];
    assert FirstRunLines + empty == FirstRunLines;
    assert empty + [""] == [""];
    RateLineParses(DefaultRateText);
    assert !Contains(DefaultFormat, RateKey);
    FormatLineParses(DefaultFormat, Initial(), pf);
    FixedBlocksOneLine();
    SplitFile(Preamble, RateLine(DefaultRateText), Interlude[1..], FormatLine(DefaultFormat), empty);
    FixedBlocksDropped();
    assert forall k :: 0 <= k < |Interlude[1..]| ==> Interlude[1..][k] == Interlude[k + 1];
    SweepBehindRateLine(v, Interlude[1..], DefaultFormat, empty, pf);
  }

  /**
   * A file whose polling-rate line has only comments before it and, behind it,
   * lines that leave the list empty and the settings at their defaults: as
   * written the walk raises once it reaches the rate line; corrected it sets
   * the rate.
   */
  lemma RateLineWithEmptyList(v: Variant, top: seq<string>, rateText: string, behind: seq<string>, pf: string -> Option<real>)
    requires forall k :: 0 <= k < |top| ==> Blank(top[k])
    requires '=' !in rateText && '\n' !in rateText
    requires Sweep(v, behind, pf, Ok(Initial())) == Ok(Initial())
    ensures pf(rateText).None? ==> Sweep(v, top + ([RateLine(rateText)] + behind), pf, Ok(Initial())) == Err(ValueError)
    ensures pf(rateText).Some? && v == AsWritten ==>
      Sweep(v, top + ([RateLine(rateText)] + behind), pf, Ok(Initial())) == Err(IndexError)
    ensures pf(rateText).Some? && v == Intended ==>
      Sweep(v, top + ([RateLine(rateText)] + behind), pf, Ok(Initial())) == Ok(Initial().(pollingRate := pf(rateText).value))
  {
    var rateLine := RateLine(rateText);
    SweepAppend(v, top, [rateLine] + behind, pf, Ok(Initial()));
    assert ([rateLine] + behind)[1..] == behind;
    var r := Sweep(v, [rateLine] + behind, pf, Ok(Initial()));
    if pf(rateText).Some? {
      RateLineStep(pf(rateText).value, rateText, Initial(), pf);
    } else {
      RateLineRejected(rateText, Initial(), pf);
    }
    if r.Err? {
      SweepKeepsError(v, top, pf, r.error);
    } else {
      SweepDropped(v, top, pf, r.value);
    }
  }

  /**
   * The file written on first run does not parse back: its rate line has no
   * surviving line behind it, so the next start raises IndexError (or
   * ValueError, should `float` reject the default rate).
   */
  lemma FirstRunFileFails(pf: string -> Option<real>)
    ensures pf(DefaultRateText).Some? ==> ParseConfig(Unlines(FirstRunLines), pf) == Err(IndexError)
    ensures pf(DefaultRateText).None? ==> ParseConfig(Unlines(FirstRunLines), pf) == Err(ValueError)
  {
    FirstRunLayout(AsWritten, pf);
    FixedBlocksDropped();
    RateLineWithEmptyList(AsWritten, Preamble, DefaultRateText, Interlude[1..] + ([FormatLine(DefaultFormat)] + [""]), pf);
  }

  /** With the quirk corrected, the first-run file gives the defaults and an empty list. */
  lemma FirstRunFileIntended(pf: string -> Option<real>)
    requires pf(DefaultRateText) == Some(DefaultRate)
    ensures IntendedParseConfig(Unlines(FirstRunLines), pf) == Ok(Initial())
  {
    FirstRunLayout(Intended, pf);
    FixedBlocksDropped();
    RateLineWithEmptyList(Intended, Preamble, DefaultRateText, Interlude[1..] + ([FormatLine(DefaultFormat)] + [""]), pf);
  }
}
