/**
 * The report window's duration formatter, `format_time`, over whole seconds.
 * Instead of the finished text the formatter returns the components it would
 * print, one constructor per output shape.
 */
module Duration {

  /** The units a breakdown can lead with, smallest first. */
  datatype Unit = Sec | Min | Hour | Day | Week

  /** What `format_time` prints. */
  datatype Display =
    | Raw(n: nat)                                              // minutes mode below a minute: the number itself, no text
    | S(seconds: nat)                                          // "N seconds"
    | MS(minutes: nat, seconds: nat)                           // "M minutes, S seconds"
    | HMS(hours: nat, minutes: nat, seconds: nat)
    | DHMS(days: nat, hours: nat, minutes: nat, seconds: nat)
    | WDHMS(weeks: nat, days: nat, hours: nat, minutes: nat, seconds: nat)

  /** Seconds in one of each unit. */
  function UnitSeconds(u: Unit): nat
  {
    match u
    case Sec => 1
    case Min => 60
    case Hour => 3600
    case Day => 86400
    case Week => 604800
  }

  function Rank(u: Unit): nat
  {
    match u
    case Sec => 0
    case Min => 1
    case Hour => 2
    case Day => 3
    case Week => 4
  }

  /** The number of seconds the printed components stand for. */
  function Value(d: Display): nat
  {
    match d
    case Raw(n) => n
    case S(s) => s
    case MS(m, s) => 60 * m + s
    case HMS(h, m, s) => 3600 * h + 60 * m + s
    case DHMS(dd, h, m, s) => 86400 * dd + 3600 * h + 60 * m + s
    case WDHMS(w, dd, h, m, s) => 604800 * w + 86400 * dd + 3600 * h + 60 * m + s
  }

  /** The unit the display leads with. */
  function Leading(d: Display): Unit
  {
    match d
    case Raw(_) => Sec
    case S(_) => Sec
    case MS(_, _) => Min
    case HMS(_, _, _) => Hour
    case DHMS(_, _, _, _) => Day
    case WDHMS(_, _, _, _, _) => Week
  }

  /** The count printed for the leading unit. */
  function LeadingCount(d: Display): nat
  {
    match d
    case Raw(n) => n
    case S(s) => s
    case MS(m, _) => m
    case HMS(h, _, _) => h
    case DHMS(dd, _, _, _) => dd
    case WDHMS(w, _, _, _, _) => w
  }

  /** Every component after the leading one is below its radix (60, 60, 24, 7). */
  predicate BelowRadix(d: Display)
  {
    match d
    case Raw(_) => true
    case S(_) => true
    case MS(_, s) => s < 60
    case HMS(_, m, s) => m < 60 && s < 60
    case DHMS(_, h, m, s) => h < 24 && m < 60 && s < 60
    case WDHMS(_, dd, h, m, s) => dd < 7 && h < 24 && m < 60 && s < 60
  }

  /** The largest unit a selector lets the breakdown reach: `d`, `w`, and `h` for every other selector. */
  function Cap(format: string): Unit
  {
    if format == "d" then Day else if format == "w" then Week else Hour
  }

  /**
   * The hours, days and weeks breakdowns: divide down by 60, 60, 24 and 7, and
   * stop at the first count below one or at `cap`. Whole seconds make Python's
   * `round` the identity and `int(x / k)` the floor.
   */
  function Cascade(seconds: nat, cap: Unit): Display
    requires cap == Hour || cap == Day || cap == Week
  {
    var minutes := seconds / 60;
    if minutes >= 1 then
      var sec := seconds % 60;
      if minutes >= 60 then
        var hours := minutes / 60;
        var min := minutes % 60;
        if cap != Hour && hours >= 24 then
          var days := hours / 24;
          var hr := hours % 24;
          if cap == Week && days >= 7 then WDHMS(days / 7, days % 7, hr, min, sec)
          else DHMS(days, hr, min, sec)
        else HMS(hours, min, sec)
      else MS(minutes, sec)
    else S(seconds)
  }

  /**
   * `format_time(seconds, format_string)`. Every output stands for exactly the
   * input; seconds mode prints plain seconds; minutes mode prints the bare
   * number below a minute and otherwise minutes that never roll into hours.
   */
  function FormatTime(seconds: nat, format: string): (r: Display)
    ensures Value(r) == seconds
    ensures format == "s" ==> r == S(seconds)
    ensures format == "m" ==> (r.Raw? <==> seconds < 60) && (r.Raw? || r.MS?) && BelowRadix(r)
    decreases if format in ["s", "m", "h", "d", "w"] then 0 else 1
  {
    if format == "s" then S(seconds)
    else if format == "m" then
      var minutes := seconds / 60;
      if minutes >= 1 then MS(minutes, seconds % 60) else Raw(seconds)
    else if format == "h" then Cascade(seconds, Hour)
    else if format == "d" then Cascade(seconds, Day)
    else if format == "w" then Cascade(seconds, Week)
    else FormatTime(seconds, "h")
  }

  /** Any selector other than `s`, `m`, `h`, `d` or `w` prints what `h` prints. */
  lemma UnknownSelectorIsHours(seconds: nat, format: string)
    requires format !in ["s", "m", "h", "d", "w"]
    ensures FormatTime(seconds, format) == FormatTime(seconds, "h")
  {
  }

  /**
   * For the hours, days and weeks selectors (and every unknown one), the
   * breakdown leads with the largest unit, up to the selector's cap, of which
   * the input holds at least one; every lower component is below its radix;
   * and the components add back up to the input.
   */
  lemma {:induction false} BreakdownIsCanonical(seconds: nat, format: string)
    requires format !in ["s", "m"]
    ensures var r := FormatTime(seconds, format);
      && Value(r) == seconds
      && BelowRadix(r)
      && Rank(Leading(r)) <= Rank(Cap(format))
      && !r.Raw?
      && (Leading(r) == Sec <==> seconds < 60)
      && (Leading(r) != Sec ==> LeadingCount(r) >= 1 && UnitSeconds(Leading(r)) <= seconds)
      && (forall u: Unit :: Rank(Leading(r)) < Rank(u) <= Rank(Cap(format)) ==> seconds < UnitSeconds(u))
  {
    var cap := Cap(format);
    if format !in ["h", "d", "w"] {
      UnknownSelectorIsHours(seconds, format);
    }
    assert FormatTime(seconds, format) == Cascade(seconds, cap);
    CascadeIsCanonical(seconds, cap);
  }

  /** `BreakdownIsCanonical` for the breakdown capped at `cap`. */
  lemma CascadeIsCanonical(seconds: nat, cap: Unit)
    requires cap == Hour || cap == Day || cap == Week
    ensures var r := Cascade(seconds, cap);
      && Value(r) == seconds
      && BelowRadix(r)
      && Rank(Leading(r)) <= Rank(cap)
      && !r.Raw?
      && (Leading(r) == Sec <==> seconds < 60)
      && (Leading(r) != Sec ==> LeadingCount(r) >= 1 && UnitSeconds(Leading(r)) <= seconds)
      && (forall u: Unit :: Rank(Leading(r)) < Rank(u) <= Rank(cap) ==> seconds < UnitSeconds(u))
  {
    var minutes := seconds / 60;
    var sec := seconds % 60;
    if minutes >= 60 {
      var hours := minutes / 60;
      var min := minutes % 60;
      assert seconds == 3600 * hours + 60 * min + sec;
      if cap != Hour && hours >= 24 {
        var days := hours / 24;
        assert seconds == 86400 * days + 3600 * (hours % 24) + 60 * min + sec;
        if cap == Week && days >= 7 {
          assert seconds == 604800 * (days / 7) + 86400 * (days % 7) + 3600 * (hours % 24) + 60 * min + sec;
        }
      }
    }
  }

  /** The display leading with `u` whose components are the mixed-radix digits of `v`. */
  function Digits(v: nat, u: Unit): Display
  {
    match u
    case Sec => S(v)
    case Min => MS(v / 60, v % 60)
    case Hour => HMS(v / 3600, v / 60 % 60, v % 60)
    case Day => DHMS(v / 86400, v / 3600 % 24, v / 60 % 60, v % 60)
    case Week => WDHMS(v / 604800, v / 86400 % 7, v / 3600 % 24, v / 60 % 60, v % 60)
  }

  /**
   * A display whose lower components are below their radixes is the digit
   * expansion of its value: the breakdown is the mixed-radix representation
   * of the input, so `BreakdownIsCanonical` pins `FormatTime` down.
   */
  lemma BreakdownIsDigits(d: Display)
    requires !d.Raw? && BelowRadix(d)
    ensures d == Digits(Value(d), Leading(d))
  {
    match d
    case S(_) =>
    case MS(m, s) =>
      Digit(m, s, 60);
    case HMS(h, m, s) =>
      HoursDigits(h, m, s);
    case DHMS(dd, h, m, s) =>
      DaysDigits(dd, h, m, s);
    case WDHMS(w, dd, h, m, s) =>
      WeeksDigits(w, dd, h, m, s);
  }

  lemma HoursDigits(h: nat, m: nat, s: nat)
    requires m < 60 && s < 60
    ensures HMS(h, m, s) == Digits(Value(HMS(h, m, s)), Hour)
  {
    var v := Value(HMS(h, m, s));
    var minutes := 60 * h + m;
    assert v / 60 == minutes && v % 60 == s;
    assert minutes / 60 == h && minutes % 60 == m;
    assert v / 3600 == h;
  }

  lemma DaysDigits(dd: nat, h: nat, m: nat, s: nat)
    requires h < 24 && m < 60 && s < 60
    ensures DHMS(dd, h, m, s) == Digits(Value(DHMS(dd, h, m, s)), Day)
  {
    var v := Value(DHMS(dd, h, m, s));
    var hours := 24 * dd + h;
    var minutes := 60 * hours + m;
    assert v / 60 == minutes && v % 60 == s;
    assert minutes / 60 == hours && minutes % 60 == m;
    assert v / 3600 == hours;
    assert hours / 24 == dd && hours % 24 == h;
    assert v / 86400 == dd;
  }

  lemma WeeksDigits(w: nat, dd: nat, h: nat, m: nat, s: nat)
    requires dd < 7 && h < 24 && m < 60 && s < 60
    ensures WDHMS(w, dd, h, m, s) == Digits(Value(WDHMS(w, dd, h, m, s)), Week)
  {
    var v := Value(WDHMS(w, dd, h, m, s));
    var days := 7 * w + dd;
    var hours := 24 * days + h;
    var minutes := 60 * hours + m;
    assert v / 60 == minutes && v % 60 == s;
    assert minutes / 60 == hours && minutes % 60 == m;
    assert v / 3600 == hours;
    assert hours / 24 == days && hours % 24 == h;
    assert v / 86400 == days;
    assert days / 7 == w && days % 7 == dd;
    assert v / 604800 == w;
  }

  /** Dividing `q * k + r` by `k`, for a digit `r < k`, gives back `q` and `r`. */
  lemma Digit(q: nat, r: nat, k: nat)
    requires k in {60, 24, 7} && r < k
    ensures (q * k + r) / k == q && (q * k + r) % k == r
  {
    if k == 60 {
      assert q * k + r == 60 * q + r;
    } else if k == 24 {
      assert q * k + r == 24 * q + r;
    } else {
      assert q * k + r == 7 * q + r;
    }
  }

  /** The values the documentation gives, and the minutes-mode quirks. */
  lemma Examples()
    ensures FormatTime(3661, "h") == HMS(1, 1, 1)
    ensures FormatTime(3661, "m") == MS(61, 1)
    ensures FormatTime(59, "m") == Raw(59)
    ensures FormatTime(0, "w") == S(0)
    ensures FormatTime(700000, "w") == WDHMS(1, 1, 2, 26, 40)
    ensures FormatTime(700000, "x") == HMS(194, 26, 40)
  {
  }
}
