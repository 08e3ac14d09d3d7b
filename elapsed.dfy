/** `time_duration`, which both the ROI tool and the QC script use to report
    how long a run took, writing the text into the global `duration_string`. */
module ElapsedTime {
  import opened PyStr

  /** The first decimal digit of `n`: what `int(str(timedelta)[:1])` reads
      for the day count. */
  function LeadingDigit(n: nat): (d: nat)
    ensures d < 10
    ensures n > 0 ==> d > 0
    decreases n
  {
    if n < 10 then n else LeadingDigit(n / 10)
  }

  lemma {:induction false} LeadingDigitText(n: nat)
    ensures NatToStr(n)[0] == DigitChar(LeadingDigit(n))
    decreases n
  {
    if n >= 10 {
      LeadingDigitText(n / 10);
    }
  }

  /** `"<n> <unit>"`, with `s` appended unless `n` is 1. */
  function Phrase(n: nat, unit: string): string {
    NatToStr(n) + " " + unit + (if n != 1 then "s" else "")
  }

  datatype Parts = Parts(days: nat, hours: nat, minutes: nat, seconds: nat)

  /** The day, hour, minute and second figures the function reports for a
      difference of `elapsed` whole seconds. */
  function Breakdown(elapsed: nat): (p: Parts)
    ensures p.seconds < 60 && p.minutes < 60 && p.hours < 24
    ensures elapsed % 86400 == p.hours * 3600 + p.minutes * 60 + p.seconds
    ensures p.days == (if elapsed < 86400 then 0 else LeadingDigit(elapsed / 86400))
  {
    var s := elapsed % 86400;
    ClockParts(s);
    Parts(if elapsed < 86400 then 0 else LeadingDigit(elapsed / 86400), s / 3600, (s / 60) % 60, s % 60)
  }

  /** Hours, minutes and seconds of a time of day add back up to it. */
  lemma ClockParts(s: nat)
    requires s < 86400
    ensures s / 3600 < 24 && (s / 60) % 60 < 60 && s % 60 < 60
    ensures s == (s / 3600) * 3600 + ((s / 60) % 60) * 60 + s % 60
  {
    var hours, rest := s / 3600, s % 3600;
    var minutes, seconds := rest / 60, rest % 60;
    assert s == 60 * (60 * hours + minutes) + seconds;
    assert s / 60 == 60 * hours + minutes && s % 60 == seconds;
    assert (s / 60) % 60 == minutes;
  }

  /** The reported text: the larger units that apply, each followed by
      `, `, then ` and ` and the seconds. An hour or day figure forces the
      minutes to be shown and followed by `, ` as well. */
  function DurationText(elapsed: nat): string {
    var head := DurationHead(Breakdown(elapsed));
    (if head == "" then "" else head + " and ") + Phrase(Breakdown(elapsed).seconds, "second")
  }

  /** The part of the text before the seconds. */
  function DurationHead(p: Parts): string {
    var large := p.days > 0 || p.hours > 0;
    (if p.days > 0 then Phrase(p.days, "day") + ", " else "") +
    (if large then Phrase(p.hours, "hour") + ", " else "") +
    (if large || p.minutes > 0 then Phrase(p.minutes, "minute") + (if large then ", " else "") else "")
  }

  /** The figures `time_duration` computes step by step, from a number of
      seconds within one day, agree with `Breakdown`. */
  lemma DayClock(s: nat)
    requires s < 86400
    ensures (s - s % 60) / 60 == s / 60
    ensures s / 60 <= 59 <==> s / 3600 == 0
    ensures s / 60 > 59 ==> ((s / 60) - (s / 60) % 60) / 60 == s / 3600
    ensures s / 60 <= 59 ==> (s / 60) % 60 == s / 60
  {
    var m, r := s / 60, s % 60;
    assert s == 60 * m + r;
    var h, mm := m / 60, m % 60;
    assert m == 60 * h + mm;
    assert s == 3600 * h + (60 * mm + r);
  }

  /** The day, hour, minute and second counts as `time_duration` derives
      them from the `timedelta`. */
  method Figures(elapsed: nat) returns (days: nat, hours: nat, minutes: nat, seconds: nat)
    ensures Parts(days, hours, minutes, seconds) == Breakdown(elapsed)
  {
    days := 0;
    if elapsed >= 86400 {
      days := LeadingDigit(elapsed / 86400);
    }
    var daySeconds := elapsed % 86400;
    minutes := (daySeconds - daySeconds % 60) / 60;
    hours := 0;
    if minutes > 59 {
      var minutesLeft := minutes % 60;
      hours := (minutes - minutesLeft) / 60;
      minutes := minutesLeft;
    }
    seconds := daySeconds % 60;
    DayClock(daySeconds);
  }

  class Reporter {
    /** The global `duration_string`. */
    var durationString: string

    constructor ()
      ensures durationString == ""
    {
      durationString := "";
    }

    /** `time_duration(starttime, currenttime)`, given the whole seconds
        between the two times. */
    method TimeDuration(elapsed: nat)
      modifies this
      ensures durationString == DurationText(elapsed)
    {
      var days, hours, minutes, seconds := Figures(elapsed);
      var text := LargerUnits(days, hours, minutes, seconds);
      if text != "" {
        text := text + " and ";
      }
      text := AppendCount(text, seconds, "second");
      DurationOfParts(elapsed, Parts(days, hours, minutes, seconds));
      durationString := text;
    }
  }

  /** The steps of `time_duration` before the seconds: days, hours and
      minutes as they apply. */
  method LargerUnits(days: nat, hours: nat, minutes: nat, seconds: nat) returns (text: string)
    ensures text == DurationHead(Parts(days, hours, minutes, seconds))
  {
    text := "";
    ghost var large := days > 0 || hours > 0;
    if days > 0 {
      text := AppendCount(text, days, "day");
      text := text + ", ";
    }
    ghost var t1 := text;
    if days > 0 || hours > 0 {
      text := AppendCount(text, hours, "hour");
      text := text + ", ";
    }
    ghost var t2 := text;
    if days > 0 || hours > 0 || minutes > 0 {
      text := AppendCount(text, minutes, "minute");
      if days > 0 || hours > 0 {
        text := text + ", ";
      }
    }
    assert t1 == (if days > 0 then Phrase(days, "day") + ", " else "");
    assert t2 == t1 + (if large then Phrase(hours, "hour") + ", " else "");
  }

  /** One `str(n) + " unit"` step of `time_duration`, followed by its
      `if n != 1: ... + "s"` (for days the test is `n > 1`, the same for a
      positive count). */
  method AppendCount(text: string, n: nat, unit: string) returns (r: string)
    ensures r == text + Phrase(n, unit)
  {
    r := text + NatToStr(n) + " " + unit;
    if n != 1 {
      r := r + "s";
    }
  }

  /** The text always ends with the seconds (of the minute), in the plural
      unless there is exactly one. */
  lemma DurationEndsWithSeconds(elapsed: nat)
    ensures EndsWith(DurationText(elapsed), Phrase(elapsed % 60, "second"))
    ensures EndsWith(DurationText(elapsed), "s") <==> elapsed % 60 != 1
  {
    var t := DurationText(elapsed);
    var ph := Phrase(elapsed % 60, "second");
    assert Breakdown(elapsed).seconds == elapsed % 60;
    assert t[|t| - |ph|..] == ph;
    assert t[|t| - 1] == ph[|ph| - 1];
    assert ph[|ph| - 1] == if elapsed % 60 != 1 then 's' else 'd';
  }

  /** Under a minute only the seconds are reported. */
  lemma DurationUnderMinute(elapsed: nat)
    requires elapsed < 60
    ensures DurationText(elapsed) == Phrase(elapsed, "second")
  {
    var p := Parts(0, 0, 0, elapsed);
    BreakdownInDay(elapsed);
    assert elapsed / 3600 == 0 && (elapsed / 60) % 60 == 0 && elapsed % 60 == elapsed;
    DurationOfParts(elapsed, p);
    assert DurationHead(p) == "";
  }

  /** Within a day there is no day figure. */
  lemma BreakdownInDay(elapsed: nat)
    requires elapsed < 86400
    ensures Breakdown(elapsed) == Parts(0, elapsed / 3600, (elapsed / 60) % 60, elapsed % 60)
  {
  }

  /** The text in terms of the figures. */
  lemma DurationOfParts(elapsed: nat, p: Parts)
    requires Breakdown(elapsed) == p
    ensures DurationText(elapsed) == (if DurationHead(p) == "" then "" else DurationHead(p) + " and ") + Phrase(p.seconds, "second")
  {
  }

  /** Under an hour: minutes and seconds joined by ` and `. */
  lemma DurationUnderHour(elapsed: nat)
    requires 60 <= elapsed < 3600
    ensures DurationText(elapsed) == Phrase(elapsed / 60, "minute") + " and " + Phrase(elapsed % 60, "second")
  {
    DayClock(elapsed);
    assert Breakdown(elapsed) == Parts(0, 0, elapsed / 60, elapsed % 60);
  }

  /** With hours but no days the minutes are always shown, and the comma
      after them is followed by ` and `, giving `,  and `. */
  lemma DurationWithHours(elapsed: nat)
    requires 3600 <= elapsed < 86400
    ensures DurationText(elapsed) ==
      Phrase(elapsed / 3600, "hour") + ", " + Phrase((elapsed / 60) % 60, "minute") + ",  and " +
      Phrase(elapsed % 60, "second")
  {
    var p := Parts(0, elapsed / 3600, (elapsed / 60) % 60, elapsed % 60);
    BreakdownInDay(elapsed);
    DurationOfParts(elapsed, p);
    HoursHead(p);
  }

  /** The head with an hour figure and no day figure. */
  lemma HoursHead(p: Parts)
    requires p.days == 0 && p.hours > 0
    ensures (if DurationHead(p) == "" then "" else DurationHead(p) + " and ") ==
            Phrase(p.hours, "hour") + ", " + Phrase(p.minutes, "minute") + ",  and "
  {
    var hours, minutes := Phrase(p.hours, "hour"), Phrase(p.minutes, "minute");
    assert DurationHead(p) == hours + ", " + minutes + ", ";
    assert ", " + " and " == ",  and ";
    assert (hours + ", " + minutes + ", ") + " and " == hours + ", " + minutes + (", " + " and ");
  }

  /** With days, the hours and minutes are always shown, each followed by
      `, `, and the last comma by ` and `. */
  lemma DurationWithDays(elapsed: nat)
    requires elapsed >= 86400
    ensures var s := elapsed % 86400;
      DurationText(elapsed) ==
      Phrase(LeadingDigit(elapsed / 86400), "day") + ", " + Phrase(s / 3600, "hour") + ", " +
      Phrase((s / 60) % 60, "minute") + ",  and " + Phrase(s % 60, "second")
  {
    var p := Breakdown(elapsed);
    var days, hours, minutes := Phrase(p.days, "day"), Phrase(p.hours, "hour"), Phrase(p.minutes, "minute");
    assert DurationHead(p) == days + ", " + hours + ", " + minutes + ", ";
    assert ", " + " and " == ",  and ";
    assert (days + ", " + hours + ", " + minutes + ", ") + " and " == days + ", " + hours + ", " + minutes + (", " + " and ");
  }

  /** Only the first digit of the day count is reported: twelve days read
      as one day. */
  lemma DurationTwelveDays()
    ensures DurationText(12 * 86400) ==
      Phrase(1, "day") + ", " + Phrase(0, "hour") + ", " + Phrase(0, "minute") + ",  and " + Phrase(0, "second")
  {
    assert 12 * 86400 / 86400 == 12 && 12 * 86400 % 86400 == 0;
    assert LeadingDigit(12) == 1;
    DurationWithDays(12 * 86400);
  }

  /** Whenever there are days, the text opens with the leading digit of the
      day count. */
  lemma DurationDays(elapsed: nat)
    requires elapsed >= 86400
    ensures StartsWith(DurationText(elapsed), NatToStr(LeadingDigit(elapsed / 86400)) + " day")
  {
  }
}
