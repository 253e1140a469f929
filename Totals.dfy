/**
 * The list of tracked processes and the time totals, as values: the sums
 * `read_logs` adds up, the entry `remove` deletes, the name `remove` reads off
 * the button it was clicked from, and the name `add_program` appends. A log's
 * numbers are whole and `float` is given as the parameter `parse`.
 */
module Totals {
  import opened Wrappers
  import opened Strings

  // ---------------------------------------------------------------------------
  // Totals

  /** What one log line adds: its number, or nothing when `float` rejects it. */
  function LineValue(line: string, parse: string -> Option<int>): int
  {
    match parse(line)
    case Some(x) => x
    case None => 0
  }

  /** The sum of what the lines add, first line first. */
  function LinesTotal(lines: seq<string>, parse: string -> Option<int>): int
  {
    if lines == [] then 0 else LineValue(lines[0], parse) + LinesTotal(lines[1..], parse)
  }

  /** A process's total: the sum over the lines of its log, and 0 when it has no log. */
  function EntryTotal(name: string, logs: map<string, string>, parse: string -> Option<int>): int
  {
    if name in logs then LinesTotal(Split(logs[name], '\n'), parse) else 0
  }

  /** The grand total: the entry totals added up along the list, once per occurrence. */
  function GrandTotal(names: seq<string>, logs: map<string, string>, parse: string -> Option<int>): int
  {
    if names == [] then 0 else EntryTotal(names[0], logs, parse) + GrandTotal(names[1..], logs, parse)
  }

  /** The per-name totals `read_logs` leaves behind: every listed name mapped to its total. */
  function Tally(names: seq<string>, logs: map<string, string>, parse: string -> Option<int>): (m: map<string, int>)
    ensures forall name :: name in m <==> name in names
  {
    map name | name in names :: EntryTotal(name, logs, parse)
  }

  /** Setting the next entry's total on top of the earlier entries' totals extends the tally by that entry. */
  lemma TallyAppend(base: map<string, int>, names: seq<string>, x: string, logs: map<string, string>, parse: string -> Option<int>)
    ensures (base + Tally(names, logs, parse))[x := EntryTotal(x, logs, parse)] == base + Tally(names + [x], logs, parse)
  {
    var l := (base + Tally(names, logs, parse))[x := EntryTotal(x, logs, parse)];
    var r := base + Tally(names + [x], logs, parse);
    assert forall k :: k in names + [x] <==> k in names || k == x;
    assert l.Keys == r.Keys;
    forall k | k in l
      ensures l[k] == r[k]
    {
    }
  }

  /** Setting a key twice keeps the second value. */
  lemma UpdateTwice(m: map<string, int>, k: string, a: int, b: int)
    ensures m[k := a][k := b] == m[k := b]
  {
  }

  /** The numbers that parse, in order. */
  function Numbers(lines: seq<string>, parse: string -> Option<int>): seq<int>
  {
    if lines == [] then []
    else (if parse(lines[0]).Some? then [parse(lines[0]).value] else []) + Numbers(lines[1..], parse)
  }

  function SumOf(xs: seq<int>): int
  {
    if xs == [] then 0 else xs[0] + SumOf(xs[1..])
  }

  lemma {:induction false} SumOfAppend(a: seq<int>, b: seq<int>)
    ensures SumOf(a + b) == SumOf(a) + SumOf(b)
  {
    if a == [] {
      assert a + b == b;
    } else {
      assert (a + b)[1..] == a[1..] + b;
      SumOfAppend(a[1..], b);
    }
  }

  /** A log's total is the sum of exactly the numbers that parse: the lines that do not parse add nothing. */
  lemma {:induction false} LinesTotalIsSumOfNumbers(lines: seq<string>, parse: string -> Option<int>)
    ensures LinesTotal(lines, parse) == SumOf(Numbers(lines, parse))
  {
    if lines != [] {
      LinesTotalIsSumOfNumbers(lines[1..], parse);
      var head: seq<int> := if parse(lines[0]).Some? then [parse(lines[0]).value] else [];
      SumOfAppend(head, Numbers(lines[1..], parse));
    }
  }

  lemma {:induction false} LinesTotalAppend(a: seq<string>, b: seq<string>, parse: string -> Option<int>)
    ensures LinesTotal(a + b, parse) == LinesTotal(a, parse) + LinesTotal(b, parse)
  {
    if a == [] {
      assert a + b == b;
    } else {
      assert (a + b)[1..] == a[1..] + b;
      LinesTotalAppend(a[1..], b, parse);
    }
  }

  /** A line that does not parse can be taken out of a log without changing its total. */
  lemma UnparsableAddsNothing(a: seq<string>, bad: string, b: seq<string>, parse: string -> Option<int>)
    requires parse(bad) == None
    ensures LinesTotal(a + [bad] + b, parse) == LinesTotal(a + b, parse)
  {
    LinesTotalAppend(a + [bad], b, parse);
    LinesTotalAppend(a, [bad], parse);
    LinesTotalAppend(a, b, parse);
  }

  lemma {:induction false} GrandTotalAppend(a: seq<string>, b: seq<string>, logs: map<string, string>, parse: string -> Option<int>)
    ensures GrandTotal(a + b, logs, parse) == GrandTotal(a, logs, parse) + GrandTotal(b, logs, parse)
  {
    if a == [] {
      assert a + b == b;
    } else {
      assert (a + b)[1..] == a[1..] + b;
      GrandTotalAppend(a[1..], b, logs, parse);
    }
  }

  /** How often `x` occurs in the list. */
  function Count(names: seq<string>, x: string): nat
  {
    if names == [] then 0 else (if names[0] == x then 1 else 0) + Count(names[1..], x)
  }

  /** The list with every occurrence of `x` taken out. */
  function Without(names: seq<string>, x: string): seq<string>
  {
    if names == [] then [] else (if names[0] == x then [] else [names[0]]) + Without(names[1..], x)
  }

  /** A name listed several times is counted once per occurrence. */
  lemma {:induction false} GrandTotalByName(names: seq<string>, x: string, logs: map<string, string>, parse: string -> Option<int>)
    ensures GrandTotal(names, logs, parse) == GrandTotal(Without(names, x), logs, parse) + Count(names, x) * EntryTotal(x, logs, parse)
  {
    if names != [] {
      GrandTotalByName(names[1..], x, logs, parse);
      var rest := Without(names[1..], x);
      var e := EntryTotal(x, logs, parse);
      var c := Count(names[1..], x);
      if names[0] == x {
        assert [] + rest == rest;
        assert (c + 1) * e == c * e + e;
      } else {
        assert ([names[0]] + rest)[1..] == rest;
      }
    }
  }

  // ---------------------------------------------------------------------------
  // Removing an entry

  /** The list without its first entry equal to `x`; unchanged when there is none. */
  function RemoveFirst(names: seq<string>, x: string): (r: seq<string>)
    ensures x !in names ==> r == names
    ensures x in names ==> |r| == |names| - 1 && multiset(r) == multiset(names) - multiset{x}
  {
    if names == [] then []
    else if names[0] == x then
      assert names == [x] + names[1..];
      names[1..]
    else
      assert names == [names[0]] + names[1..];
      [names[0]] + RemoveFirst(names[1..], x)
  }

  /** When the first `x` is at `k`, exactly that entry goes, and the others keep their order. */
  lemma {:induction false} RemoveFirstAt(names: seq<string>, x: string, k: nat)
    requires k < |names| && names[k] == x && x !in names[..k]
    ensures RemoveFirst(names, x) == names[..k] + names[k + 1..]
  {
    if k > 0 {
      assert names[0] in names[..k];
      assert names[1..][..k - 1] == names[1..k];
      RemoveFirstAt(names[1..], x, k - 1);
      assert names[..k] == [names[0]] + names[1..k];
      assert names[1..][k..] == names[k + 1..];
    }
  }

  /** Removing an entry takes its total off the grand total once. */
  lemma {:induction false} RemoveFirstTotal(names: seq<string>, x: string, logs: map<string, string>, parse: string -> Option<int>)
    requires x in names
    ensures GrandTotal(RemoveFirst(names, x), logs, parse) + EntryTotal(x, logs, parse) == GrandTotal(names, logs, parse)
  {
    if names[0] != x {
      assert x in names[1..];
      RemoveFirstTotal(names[1..], x, logs, parse);
      var rest := RemoveFirst(names[1..], x);
      assert ([names[0]] + rest)[1..] == rest;
    }
  }

  /** The word the Remove buttons start with. */
  const RemoveWord := "Remove"

  /** The label of the button that removes `name`. */
  function RemoveLabel(name: string): string
  {
    RemoveWord + " " + name
  }

  /**
   * `remove` takes the second space-separated word of the label: the name
   * itself when it has no space, and only its first word when it has one.
   */
  lemma RemoveLabelTarget(name: string)
    ensures Second(RemoveLabel(name), ' ') == Some(Split(name, ' ')[0])
    ensures ' ' !in name ==> Second(RemoveLabel(name), ' ') == Some(name)
  {
    assert RemoveLabel(name) == RemoveWord + [' '] + name;
    SecondAfterKey(RemoveWord, ' ', name);
    if ' ' !in name {
      SplitWithoutSep(name, ' ');
    }
  }

  // ---------------------------------------------------------------------------
  // Adding an entry

  /** The last `/`-separated piece of a path: the file name `add_program` appends. */
  function Basename(path: string): (r: string)
    ensures '/' !in r
  {
    var parts := Split(path, '/');
    SplitPiecesLackSep(path, '/');
    parts[|parts| - 1]
  }

  /**
   * The base name is the longest end of the path without `/`: it ends the path,
   * and it is the whole path or follows a `/`.
   */
  lemma BasenameIsLastSegment(path: string)
    ensures var r := Basename(path);
      && |r| <= |path|
      && path[|path| - |r|..] == r
      && (|r| < |path| ==> path[|path| - |r| - 1] == '/')
  {
    var parts := Split(path, '/');
    JoinSplit(path, '/');
    if |parts| > 1 {
      JoinLast(parts, '/');
      var init := Join(parts[..|parts| - 1], '/');
      var r := parts[|parts| - 1];
      assert path == init + ['/'] + r;
      assert path[|path| - |r|..] == r;
      assert path[|path| - |r| - 1] == '/';
    }
  }

  /** The name of a file in a directory is its base name. */
  lemma BasenameOfPath(dir: string, name: string)
    requires '/' !in name
    ensures Basename(dir + "/" + name) == name
  {
    assert dir + "/" + name == dir + ['/'] + name;
    SplitAround(dir, '/', name);
    SplitWithoutSep(name, '/');
  }
}
