/**
 * The few pieces of Python's string handling that the settings window relies on:
 * `str.split(sep)` with a one-character separator, the slice `s[1:]`, and the
 * substring test `p in s`. Strings are sequences of characters.
 */
module Strings {
  import opened Wrappers

  /** Python's `s[1:]`: everything after the first character, empty for an empty string. */
  function Tail(s: string): (t: string)
    ensures |s| > 0 ==> s == [s[0]] + t
    ensures |s| == 0 ==> t == []
  {
    if |s| == 0 then s else s[1..]
  }

  /** Python's `del s[i]`: the list without its entry at `i`, the entries before and after it in place. */
  function Delete<T>(s: seq<T>, i: nat): (r: seq<T>)
    requires i < |s|
    ensures |r| == |s| - 1 && r[..i] == s[..i] && r[i..] == s[i + 1..]
  {
    s[..i] + s[i + 1..]
  }

  /** How the slices of a list around index `i` fit together. */
  lemma SliceAt<T>(s: seq<T>, i: nat)
    requires i < |s|
    ensures s[i..] == [s[i]] + s[i + 1..] && s[i..][0] == s[i] && s[i..][1..] == s[i + 1..]
    ensures s[..i + 1][..i] == s[..i] && s[..i + 1][i] == s[i]
  {
  }

  /** A prefix one entry longer is the prefix followed by that entry. */
  lemma TakeNext<T>(s: seq<T>, i: nat)
    requires i < |s|
    ensures s[..i + 1] == s[..i] + [s[i]]
  {
  }

  /** Python's `sep.join(parts)` for a one-character separator. */
  function Join(parts: seq<string>, sep: char): string
    requires |parts| > 0
  {
    if |parts| == 1 then parts[0] else parts[0] + [sep] + Join(parts[1..], sep)
  }

  /**
   * Python's `s.split(sep)`: the pieces between occurrences of `sep`, in order.
   * There is always at least one piece, and no piece holds the separator.
   */
  function Split(s: string, sep: char): (parts: seq<string>)
    ensures |parts| > 0
  {
    if |s| == 0 then [""]
    else
      var rest := Split(s[1..], sep);
      if s[0] == sep then [""] + rest
      else [[s[0]] + rest[0]] + rest[1..]
  }

  /** No piece of a split holds the separator. */
  lemma {:induction false} SplitPiecesLackSep(s: string, sep: char)
    ensures forall k :: 0 <= k < |Split(s, sep)| ==> sep !in Split(s, sep)[k]
  {
    if |s| > 0 {
      SplitPiecesLackSep(s[1..], sep);
      var rest := Split(s[1..], sep);
      if s[0] != sep {
        assert forall k :: 1 <= k < |rest| ==> rest[1..][k - 1] == rest[k];
      }
    }
  }

  /** Joining the pieces of a split gives back the text. */
  lemma {:induction false} JoinSplit(s: string, sep: char)
    ensures Join(Split(s, sep), sep) == s
  {
    if |s| > 0 {
      JoinSplit(s[1..], sep);
      var rest := Split(s[1..], sep);
      if s[0] != sep && |rest| > 1 {
        assert rest == [rest[0]] + rest[1..];
      }
    }
  }

  /** Joining several pieces puts a separator before the last one. */
  lemma {:induction false} JoinLast(parts: seq<string>, sep: char)
    requires |parts| >= 2
    ensures Join(parts, sep) == Join(parts[..|parts| - 1], sep) + [sep] + parts[|parts| - 1]
  {
    var n := |parts|;
    if n > 2 {
      JoinLast(parts[1..], sep);
      assert parts[1..][..n - 2] == parts[..n - 1][1..];
      assert parts[..n - 1][0] == parts[0];
    }
  }

  /** Text without the separator is one piece. */
  lemma {:induction false} SplitWithoutSep(s: string, sep: char)
    requires sep !in s
    ensures Split(s, sep) == [s]
  {
    if |s| > 0 {
      SplitWithoutSep(s[1..], sep);
      assert [s[0]] + s[1..] == s;
    }
  }

  /** Splitting text that starts with `c`: a separator opens a new empty piece, any other character joins the first piece. */
  lemma SplitCons(c: char, rest: string, sep: char)
    ensures var parts := Split(rest, sep);
      Split([c] + rest, sep) == if c == sep then [""] + parts else [[c] + parts[0]] + parts[1..]
  {
    assert ([c] + rest)[1..] == rest;
  }

  /** Splitting `a + sep + b` splits each side on its own. */
  lemma {:induction false} SplitAround(a: string, sep: char, b: string)
    ensures Split(a + [sep] + b, sep) == Split(a, sep) + Split(b, sep)
  {
    if |a| == 0 {
      assert a + [sep] + b == [sep] + b;
      SplitCons(sep, b, sep);
    } else {
      var tail := a[1..] + [sep] + b;
      SplitAround(a[1..], sep, b);
      SplitAroundStep(a[0], a[1..], tail, sep, b);
      FirstAndRest(a, sep, b);
    }
  }

  /** Text that starts with `a` starts with the first character of `a`. */
  lemma FirstAndRest(a: string, sep: char, b: string)
    requires |a| > 0
    ensures a == [a[0]] + a[1..] && a + [sep] + b == [a[0]] + (a[1..] + [sep] + b)
  {
  }

  /** The inductive step of `SplitAround`: put a character back in front of both texts. */
  lemma SplitAroundStep(c: char, a: string, tail: string, sep: char, b: string)
    requires Split(tail, sep) == Split(a, sep) + Split(b, sep)
    ensures Split([c] + tail, sep) == Split([c] + a, sep) + Split(b, sep)
  {
    SplitCons(c, tail, sep);
    SplitCons(c, a, sep);
    ConsPieces(c, sep, Split(a, sep), Split(b, sep));
  }

  /** Putting a character in front of the pieces `left + right` only touches `left`. */
  lemma ConsPieces(c: char, sep: char, left: seq<string>, right: seq<string>)
    requires |left| > 0
    ensures var parts := left + right;
      (if c == sep then [""] + parts else [[c] + parts[0]] + parts[1..])
      == (if c == sep then [""] + left else [[c] + left[0]] + left[1..]) + right
  {
    var parts := left + right;
    if c != sep {
      assert parts[1..] == left[1..] + right;
    }
  }

  /** Splitting the text made of pieces that hold no separator gives back those pieces. */
  lemma {:induction false} SplitJoin(parts: seq<string>, sep: char)
    requires |parts| > 0
    requires forall k :: 0 <= k < |parts| ==> sep !in parts[k]
    ensures Split(Join(parts, sep), sep) == parts
  {
    if |parts| == 1 {
      SplitWithoutSep(parts[0], sep);
    } else {
      SplitJoin(parts[1..], sep);
      SplitAround(parts[0], sep, Join(parts[1..], sep));
      SplitWithoutSep(parts[0], sep);
    }
  }

  /** Python's `s.split(sep)[1]`: the text between the first and second `sep`, or `None` where Python raises IndexError. */
  function Second(s: string, sep: char): (r: Option<string>)
    ensures r.Some? <==> sep in s
    ensures r.Some? ==> sep !in r.value
  {
    var parts := Split(s, sep);
    JoinSplit(s, sep);
    SplitPiecesLackSep(s, sep);
    if |parts| >= 2 then
      assert s == parts[0] + [sep] + Join(parts[1..], sep);
      assert s[|parts[0]|] == sep;
      Some(parts[1])
    else None
  }

  /** After a first piece without `sep`, the second field is the first piece of the rest. */
  lemma SecondAfterKey(key: string, sep: char, rest: string)
    requires sep !in key
    ensures Second(key + [sep] + rest, sep) == Some(Split(rest, sep)[0])
  {
    SplitAround(key, sep, rest);
    SplitWithoutSep(key, sep);
  }

  /** `p` occurs in `s` starting at index `i`. */
  ghost predicate OccursAt(s: string, p: string, i: int)
  {
    0 <= i && i + |p| <= |s| && s[i..i + |p|] == p
  }

  /** Python's substring test `p in s`. */
  function Contains(s: string, p: string): bool
  {
    if |p| > |s| then false
    else if s[..|p|] == p then true
    else Contains(s[1..], p)
  }

  /** `Contains` finds `p` exactly when `p` occurs somewhere in `s`. */
  lemma {:induction false} ContainsOccurs(s: string, p: string)
    ensures Contains(s, p) <==> exists i :: OccursAt(s, p, i)
  {
    if |p| <= |s| {
      if s[..|p|] == p {
        assert OccursAt(s, p, 0);
      } else {
        ContainsOccurs(s[1..], p);
        if Contains(s[1..], p) {
          var i :| OccursAt(s[1..], p, i);
          assert s[1..][i..i + |p|] == s[i + 1..i + 1 + |p|];
          assert OccursAt(s, p, i + 1);
        }
        if exists i :: OccursAt(s, p, i) {
          var i :| OccursAt(s, p, i);
          assert i != 0;
          assert s[1..][i - 1..i - 1 + |p|] == s[i..i + |p|];
          assert OccursAt(s[1..], p, i - 1);
        }
      }
    }
  }

  /** `p` is found wherever it is placed. */
  lemma ContainsInside(a: string, p: string, b: string)
    ensures Contains(a + p + b, p)
  {
    assert (a + p + b)[|a|..|a| + |p|] == p;
    assert OccursAt(a + p + b, p, |a|);
    ContainsOccurs(a + p + b, p);
  }

  /**
   * When `a` ends with a character that `p` never uses, an occurrence of `p` in
   * `a + b` cannot straddle the border: it lies inside `a` or inside `b`.
   */
  lemma ContainsAcrossBorder(a: string, b: string, p: string)
    requires |a| > 0 && a[|a| - 1] !in p
    ensures Contains(a + b, p) ==> Contains(a, p) || Contains(b, p)
  {
    ContainsOccurs(a + b, p);
    ContainsOccurs(a, p);
    ContainsOccurs(b, p);
    if Contains(a + b, p) {
      var i :| OccursAt(a + b, p, i);
      assert forall k :: i <= k < i + |p| ==> (a + b)[k] == p[k - i];
      assert (a + b)[|a| - 1] == a[|a| - 1];
      if i + |p| <= |a| {
        assert (a + b)[i..i + |p|] == a[i..i + |p|];
        assert OccursAt(a, p, i);
      } else if i >= |a| {
        assert (a + b)[i..i + |p|] == b[i - |a|..i - |a| + |p|];
        assert OccursAt(b, p, i - |a|);
      }
    }
  }
}
