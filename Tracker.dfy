/**
 * The settings window's state and the methods that change it in place:
 * reading the settings file, writing it back, removing and adding a tracked
 * process, and adding up the logs. The map `totals` stands for the per-name
 * module globals that `read_logs` assigns. File contents come in as text,
 * and `float` and `"%s"` come in as functions.
 */
module Tracker {
  import opened Wrappers
  import opened Strings
  import opened Config
  import opened Totals
  import opened Header

  class MainUi {
    var processes: seq<string>
    var pollingRate: real
    var timeFormat: string
    var total: int
    var totals: map<string, int>

    /** A window with an empty list, the default settings and no totals yet. */
    constructor ()
      ensures processes == [] && pollingRate == DefaultRate && timeFormat == DefaultFormat
      ensures total == 0 && totals == map[]
    {
      processes := [];
      pollingRate := DefaultRate;
      timeFormat := DefaultFormat;
      total := 0;
      totals := map[];
    }

    /**
     * `read_settings`. Without a settings file (`config` is None) it returns
     * the text of the first-run file it writes and changes nothing else.
     * Otherwise it splits the file's text into lines, then walks them from
     * last to first, deleting comments, short lines and consumed `$` lines in
     * place. The outcome is the one `ParseConfig` describes; when the walk
     * raises, the exception is returned and the list and settings hold
     * whatever the walk had reached.
     */
    method ReadSettings(config: Option<string>, parseFloat: string -> Option<real>) returns (written: Option<string>, raised: Option<Error>)
      modifies this`processes, this`pollingRate, this`timeFormat
      ensures config.None? ==>
        && written == Some(Unlines(FirstRunLines)) && raised == None
        && processes == old(processes) && pollingRate == old(pollingRate) && timeFormat == old(timeFormat)
      ensures config.Some? ==> written == None
      ensures config.Some? && ParseConfig(config.value, parseFloat).Ok? ==>
        && raised == None
        && processes == ParseConfig(config.value, parseFloat).value.processes
        && pollingRate == ParseConfig(config.value, parseFloat).value.pollingRate
        && timeFormat == ParseConfig(config.value, parseFloat).value.timeFormat
      ensures config.Some? && ParseConfig(config.value, parseFloat).Err? ==>
        raised == Some(ParseConfig(config.value, parseFloat).error)
    {
      written := None;
      if config.None? {
        return Some(Unlines(FirstRunLines)), None;
      }
      var contents := config.value;
      var lines := Split(contents, '\n');
      processes := lines;
      pollingRate := DefaultRate;
      timeFormat := DefaultFormat;
      var i := |lines|;
      while i > 0
        invariant 0 <= i <= |lines| && i <= |processes|
        invariant processes[..i] == lines[..i]
        invariant Sweep(AsWritten, lines[i..], parseFloat, Ok(Initial())) == Ok(Parsed(processes[i..], pollingRate, timeFormat))
      {
        i := i - 1;
        ghost var after := Parsed(processes[i + 1..], pollingRate, timeFormat);
        SliceAt(lines, i);
        SliceAt(processes, i);
        var line := processes[i];
        ghost var step := Step(line, after, parseFloat);
        assert Sweep(AsWritten, lines[i..], parseFloat, Ok(Initial())) == step;
        if Dropped(line) {
          processes := Delete(processes, i);
          assert processes[i..] == after.processes;
        } else if line[0] == '$' {
          if Contains(Tail(line), RateKey) {
            var token := Second(line, '=');
            if token.None? {
              SweepStops(AsWritten, lines, i, parseFloat, IndexError);
              return None, Some(IndexError);
            }
            var rate := parseFloat(token.value);
            if rate.None? {
              SweepStops(AsWritten, lines, i, parseFloat, ValueError);
              return None, Some(ValueError);
            }
            pollingRate := rate.value;
            processes := Delete(processes, i);
            assert processes[i..] == after.processes;
            if i == |processes| {
              SweepStops(AsWritten, lines, i, parseFloat, IndexError);
              return None, Some(IndexError);
            }
          }
          var current := processes[i];
          SliceAt(processes, i);
          if Contains(Tail(current), FormatKey) {
            var format := Second(current, '=');
            if format.None? {
              SweepStops(AsWritten, lines, i, parseFloat, IndexError);
              return None, Some(IndexError);
            }
            timeFormat := format.value;
            ghost var rest := processes[i + 1..];
            processes := Delete(processes, i);
            assert processes[i..] == rest;
          }
        }
        assert step == Ok(Parsed(processes[i..], pollingRate, timeFormat));
      }
      assert lines[0..] == lines && processes[0..] == processes;
      return None, None;
    }

    /**
     * Opening the settings window (`__init__`): read the settings, then add up
     * the logs. An exception from `read_settings` ends the start. On first run
     * `read_settings` never assigns the list, so `read_logs` raises
     * AttributeError after the first-run file is written.
     */
    method Start(config: Option<string>, parseFloat: string -> Option<real>, logs: map<string, string>, parse: string -> Option<int>)
      returns (written: Option<string>, raised: Option<Error>)
      modifies this`processes, this`pollingRate, this`timeFormat, this`total, this`totals
      ensures config.None? ==> written == Some(Unlines(FirstRunLines)) && raised == Some(AttributeError)
      ensures config.Some? ==> written == None
      ensures config.Some? && ParseConfig(config.value, parseFloat).Ok? ==>
        && raised == None
        && processes == ParseConfig(config.value, parseFloat).value.processes
        && pollingRate == ParseConfig(config.value, parseFloat).value.pollingRate
        && timeFormat == ParseConfig(config.value, parseFloat).value.timeFormat
        && total == GrandTotal(processes, logs, parse)
        && totals == old(totals) + Tally(processes, logs, parse)
      ensures config.Some? && ParseConfig(config.value, parseFloat).Err? ==>
        raised == Some(ParseConfig(config.value, parseFloat).error)
    {
      written, raised := ReadSettings(config, parseFloat);
      if config.None? {
        return written, Some(AttributeError);
      }
      if raised.None? {
        ReadLogs(logs, parse);
      }
    }

    /**
     * Opening the window as evidently intended: on first run the list and the
     * settings are set to what the written file reads back as (an empty list
     * and the defaults, by `FirstRunFileIntended`), so adding up the logs
     * succeeds. With a settings file it is `Start`.
     */
    method IntendedStart(config: Option<string>, parseFloat: string -> Option<real>, logs: map<string, string>, parse: string -> Option<int>)
      returns (written: Option<string>, raised: Option<Error>)
      modifies this`processes, this`pollingRate, this`timeFormat, this`total, this`totals
      ensures config.None? ==>
        && written == Some(Unlines(FirstRunLines)) && raised == None
        && Parsed(processes, pollingRate, timeFormat) == Initial()
        && total == 0 && totals == old(totals)
      ensures config.Some? ==> written == None
      ensures config.Some? && ParseConfig(config.value, parseFloat).Ok? ==>
        && raised == None
        && processes == ParseConfig(config.value, parseFloat).value.processes
        && pollingRate == ParseConfig(config.value, parseFloat).value.pollingRate
        && timeFormat == ParseConfig(config.value, parseFloat).value.timeFormat
        && total == GrandTotal(processes, logs, parse)
        && totals == old(totals) + Tally(processes, logs, parse)
      ensures config.Some? && ParseConfig(config.value, parseFloat).Err? ==>
        raised == Some(ParseConfig(config.value, parseFloat).error)
    {
      written, raised := ReadSettings(config, parseFloat);
      if config.None? {
        processes := [];
        pollingRate := DefaultRate;
        timeFormat := DefaultFormat;
      }
      if raised.None? {
        ReadLogs(logs, parse);
        assert Tally([], logs, parse) == map[];
      }
    }

    /**
     * `apply`: when the settings file exists, the text written in its place,
     * the header with the rate and the format, then each process name on its
     * own line. When it does not exist, nothing is written.
     */
    method Apply(fileExists: bool, showFloat: real -> string) returns (written: Option<string>)
      ensures fileExists ==> written == Some(ConfigText(showFloat(pollingRate), timeFormat, processes))
      ensures !fileExists ==> written == None
    {
      if !fileExists {
        return None;
      }
      var header := HeaderLines(showFloat(pollingRate), timeFormat);
      var text := Unlines(header);
      assert header + processes[..0] == header;
      for k := 0 to |processes|
        invariant text == Unlines(header + processes[..k])
      {
        UnlinesAppend(header + processes[..k], [processes[k]]);
        assert header + processes[..k + 1] == header + processes[..k] + [processes[k]];
        text := text + processes[k] + "\n";
      }
      assert processes[..|processes|] == processes;
      return Some(text);
    }

    /**
     * `remove`: take the name from the second word of the button's label and
     * delete the first entry equal to it. A label without a space raises
     * IndexError and changes nothing.
     */
    method Remove(buttonLabel: string) returns (raised: Option<Error>)
      modifies this`processes
      ensures Second(buttonLabel, ' ').None? ==> raised == Some(IndexError) && processes == old(processes)
      ensures Second(buttonLabel, ' ').Some? ==> raised == None && processes == RemoveFirst(old(processes), Second(buttonLabel, ' ').value)
    {
      var deathRow := Second(buttonLabel, ' ');
      if deathRow.None? {
        return Some(IndexError);
      }
      var name := deathRow.value;
      var n := |processes|;
      for each := 0 to n
        invariant processes == old(processes)
        invariant name !in processes[..each]
      {
        if processes[each] == name {
          RemoveFirstAt(processes, name, each);
          processes := Delete(processes, each);
          return None;
        }
        TakeNext(processes, each);
      }
      assert processes[..n] == processes;
      return None;
    }

    /**
     * `read_logs`: for each entry of the list, reset its total, add the number
     * on every line of its log that parses (a missing log adds nothing), and
     * add the entry's total to the grand total.
     */
    method ReadLogs(logs: map<string, string>, parse: string -> Option<int>)
      modifies this`total, this`totals
      ensures total == GrandTotal(processes, logs, parse)
      ensures totals == old(totals) + Tally(processes, logs, parse)
    {
      total := 0;
      for each := 0 to |processes|
        invariant total == GrandTotal(processes[..each], logs, parse)
        invariant totals == old(totals) + Tally(processes[..each], logs, parse)
      {
        var name := processes[each];
        ghost var prefix := processes[..each];
        ghost var entry := EntryTotal(name, logs, parse);
        ghost var before := totals;
        totals := totals[name := 0];
        if name in logs {
          AddLog(name, logs[name], parse);
          UpdateTwice(before, name, 0, entry);
        }
        assert totals == before[name := entry];
        total := total + totals[name];
        TakeNext(processes, each);
        assert totals == old(totals) + Tally(prefix + [name], logs, parse) by {
          TallyAppend(old(totals), prefix, name, logs, parse);
        }
        assert total == GrandTotal(prefix + [name], logs, parse) by {
          GrandTotalAppend(prefix, [name], logs, parse);
        }
      }
      assert processes[..|processes|] == processes;
    }

    /**
     * The inner loop of `read_logs`: add the number on each line of one log
     * that parses to the name's total, skipping the lines `float` rejects.
     */
    method AddLog(name: string, log: string, parse: string -> Option<int>)
      requires name in totals
      modifies this`totals
      ensures totals == old(totals)[name := old(totals)[name] + LinesTotal(Split(log, '\n'), parse)]
    {
      var numbers := Split(log, '\n');
      for line := 0 to |numbers|
        invariant totals == old(totals)[name := old(totals)[name] + LinesTotal(numbers[..line], parse)]
      {
        LinesTotalAppend(numbers[..line], [numbers[line]], parse);
        TakeNext(numbers, line);
        match parse(numbers[line])
        case Some(x) =>
          totals := totals[name := totals[name] + x];
        case None =>
      }
      assert numbers[..|numbers|] == numbers;
    }

    /**
     * `add_program`: when a file was chosen, append its base name to the list;
     * either way, add up the logs again.
     */
    method AddProgram(chosen: Option<string>, logs: map<string, string>, parse: string -> Option<int>)
      modifies this`processes, this`total, this`totals
      ensures chosen.Some? ==> processes == old(processes) + [Basename(chosen.value)]
      ensures chosen.None? ==> processes == old(processes)
      ensures total == GrandTotal(processes, logs, parse)
      ensures totals == old(totals) + Tally(processes, logs, parse)
    {
      if chosen.Some? {
        processes := processes + [Basename(chosen.value)];
      }
      ReadLogs(logs, parse);
    }
  }
}
