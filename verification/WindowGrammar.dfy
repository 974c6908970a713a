/** The window grammar as the config normaliser checks it
    (internal/protocol/types.go) and as the scheduler parses it
    (internal/measurement/measurement.go). Strings are byte strings. */
module WindowGrammar {
  import opened Wrappers
  import opened Schedule

  function Count(s: string, c: char): nat {
    if s == "" then 0 else (if s[0] == c then 1 else 0) + Count(s[1..], c)
  }

  datatype Halves = Halves(before: string, after: string)

  /** Cut at the first separator, if there is one. */
  function CutAt(s: string, c: char): (r: Option<Halves>)
    ensures r.Some? <==> Count(s, c) > 0
    ensures r.Some? ==> s == r.value.before + [c] + r.value.after && Count(r.value.before, c) == 0
    ensures r.Some? ==> Count(r.value.after, c) == Count(s, c) - 1
  {
    if s == "" then None
    else if s[0] == c then Some(Halves("", s[1..]))
    else
      var rest := CutAt(s[1..], c);
      if rest.None? then None else Some(Halves([s[0]] + rest.value.before, rest.value.after))
  }

  /** Split at every separator. */
  function Split(s: string, c: char): (r: seq<string>)
    ensures |r| == Count(s, c) + 1
    decreases |s|
  {
    var cut := CutAt(s, c);
    if cut.None? then [s] else [cut.value.before] + Split(cut.value.after, c)
  }

  predicate IsDigit(c: char) { '0' <= c <= '9' }

  function Digits(s: string): Option<nat> {
    if s == "" then Some(0)
    else
      var high, last := Digits(s[..|s| - 1]), s[|s| - 1];
      if high.None? || !IsDigit(last) then None else Some(high.value * 10 + (last as int - '0' as int))
  }

  /** A decimal number with an optional sign. Too large a number is refused by
      its range below instead of by overflow. */
  function Atoi(s: string): Option<int> {
    if s == "" then None
    else if s[0] == '-' || s[0] == '+' then
      var n := Digits(s[1..]);
      if s[1..] == "" || n.None? then None
      else
        var value: int := n.value;
        Some(if s[0] == '-' then -value else value)
    else
      var n := Digits(s);
      if n.None? then None else Some(n.value)
  }

  function Clock(hour: Option<int>, minute: Option<int>): (r: Option<int>)
    ensures r.Some? ==> 0 <= r.value <= DAY_MINUTES
  {
    if hour.None? || minute.None? then None
    else
      var h, m := hour.value, minute.value;
      if m < 0 || m > 59 || h < 0 || h > 24 || (h == 24 && m != 0) then None else Some(h * 60 + m)
  }

  /** windowClockMinutes, of the normaliser. */
  function ClockByCut(s: string): Option<int> {
    var cut := CutAt(s, ':');
    if cut.None? then None else Clock(Atoi(cut.value.before), Atoi(cut.value.after))
  }

  /** clockMinutes, of the scheduler. */
  function ClockBySplit(s: string): Option<int> {
    var parts := Split(s, ':');
    if |parts| != 2 then None else Clock(Atoi(parts[0]), Atoi(parts[1]))
  }

  /** validSpeedWindow. */
  predicate Accepted(s: string) {
    if s == "never" then true
    else
      var cut := CutAt(s, '-');
      cut.Some? && (
        var start, end := ClockByCut(cut.value.before), ClockByCut(cut.value.after);
        start.Some? && end.Some? && start.value != end.value)
  }

  /** The window that cadenceSchedule reads from a string. */
  function Parsed(s: string): (r: Option<Window>)
    ensures r.Some? ==> r.value.Valid()
  {
    var parts := Split(s, '-');
    if |parts| != 2 then None
    else
      var start, end := ClockBySplit(parts[0]), ClockBySplit(parts[1]);
      if start.None? || end.None? || start.value == end.value then None else Some(Window(start.value, end.value))
  }

  // ---- the two readings -----------------------------------------------------

  lemma {:induction false} DigitsHaveNo(s: string, c: char)
    requires !IsDigit(c) && Count(s, c) > 0
    ensures Digits(s).None?
  {
    var init, last := s[..|s| - 1], s[|s| - 1];
    CountAppend(init, [last], c);
    assert s == init + [last];
    if last != c {
      DigitsHaveNo(init, c);
    }
  }

  lemma {:induction false} CountAppend(a: string, b: string, c: char)
    ensures Count(a + b, c) == Count(a, c) + Count(b, c)
  {
    if a == "" {
      assert a + b == b;
    } else {
      assert (a + b)[1..] == a[1..] + b;
      CountAppend(a[1..], b, c);
    }
  }

  lemma NumbersHaveNoColon(s: string)
    requires Count(s, ':') > 0
    ensures Atoi(s).None?
  {
    DigitsHaveNo(s, ':');
    if s[0] != ':' {
      DigitsHaveNo(s[1..], ':');
    }
  }

  /** Cutting and splitting a clock time read the same instant. */
  lemma ClocksAgree(s: string)
    ensures ClockByCut(s) == ClockBySplit(s)
  {
    var cut := CutAt(s, ':');
    if cut.Some? {
      if Count(cut.value.after, ':') > 0 {
        NumbersHaveNoColon(cut.value.after);
      } else {
        assert Split(cut.value.after, ':') == [cut.value.after];
      }
    }
  }

  lemma SplitInTwo(s: string, c: char)
    requires Count(s, c) == 1
    ensures Split(s, c) == [CutAt(s, c).value.before, CutAt(s, c).value.after]
  {
    assert Split(CutAt(s, c).value.after, c) == [CutAt(s, c).value.after];
  }

  /** The scheduler runs an accepted window exactly when it holds a single dash;
      it never runs one the normaliser refuses. */
  lemma AcceptedRunsWithOneDash(s: string)
    ensures Parsed(s).Some? <==> Accepted(s) && s != "never" && Count(s, '-') == 1
  {
    assert Count("never", '-') == 0 by {
      assert "never"[1..] == "ever" && "ever"[1..] == "ver" && "ver"[1..] == "er" && "er"[1..] == "r";
    }
    if Count(s, '-') == 1 {
      SplitInTwo(s, '-');
      ClocksAgree(CutAt(s, '-').value.before);
      ClocksAgree(CutAt(s, '-').value.after);
    }
  }

  lemma {:induction false} CutAfter(before: string, after: string, c: char)
    requires Count(before, c) == 0
    ensures CutAt(before + [c] + after, c) == Some(Halves(before, after))
    ensures Count(before + [c] + after, c) == 1 + Count(after, c)
  {
    var s := before + [c] + after;
    if before == "" {
      assert s[0] == c && s[1..] == after;
    } else {
      var rest := before[1..] + [c] + after;
      assert s[0] == before[0] && s[1..] == rest;
      CutAfter(before[1..], after, c);
      assert CutAt(s, c) == Some(Halves([before[0]] + before[1..], after));
      assert before == [before[0]] + before[1..];
    }
  }

  lemma PairIsAccepted(start: string, end: string)
    requires Count(start, '-') == 0
    requires ClockByCut(start).Some? && ClockByCut(end).Some? && ClockByCut(start) != ClockByCut(end)
    ensures Accepted(start + ['-'] + end)
  {
    CutAfter(start, end, '-');
  }

  lemma OneDigit(d: char)
    requires IsDigit(d)
    ensures Digits([d]) == Some(d as int - '0' as int) && Atoi([d]) == Some(d as int - '0' as int)
    ensures Atoi("-" + [d]) == Some('0' as int - d as int)
  {
    assert [d][..0] == "";
    assert ("-" + [d])[1..] == [d];
  }

  lemma TwoDigits(d: char, e: char)
    requires IsDigit(d) && IsDigit(e)
    ensures Atoi([d] + [e]) == Some((d as int - '0' as int) * 10 + (e as int - '0' as int))
  {
    OneDigit(d);
    assert ([d] + [e])[..1] == [d];
  }

  /** "HH:MM" with two digits each reads as its minutes. */
  lemma ClockReads(a: char, b: char, c: char, d: char)
    requires IsDigit(a) && IsDigit(b)
    requires IsDigit(c) && IsDigit(d)
    ensures
      var hour := (a as int - '0' as int) * 10 + (b as int - '0' as int);
      var minute := (c as int - '0' as int) * 10 + (d as int - '0' as int);
      ClockByCut([a, b, ':', c, d]) == Clock(Some(hour), Some(minute))
    ensures Count([a, b, ':', c, d], '-') == 0
  {
    var before, after := [a] + [b], [c] + [d];
    var s := [a, b, ':', c, d];
    assert s == before + [':'] + after;
    NoneOf(before, ':');
    CutAfter(before, after, ':');
    TwoDigits(a, b);
    TwoDigits(c, d);
    NoneOf(before, '-');
    NoneOf(after, '-');
    CountAppend(before + [':'], after, '-');
    CountAppend(before, [':'], '-');
  }

  lemma NoneOf(s: string, c: char)
    requires |s| == 2 && s[0] != c && s[1] != c
    ensures Count(s, c) == 0
  {
    assert s[1..][0] == s[1] && s[1..][1..] == "";
    assert Count(s[1..], c) == 0;
  }

  function TwoDigitText(n: int): string
    requires 0 <= n < 100
  {
    [Digit(n / 10)] + [Digit(n % 10)]
  }

  function Digit(n: int): (d: char)
    requires 0 <= n < 10
    ensures IsDigit(d) && d as int - '0' as int == n
  {
    ('0' as int + n) as char
  }

  /** A minute of the day as HH:MM. */
  function ClockText(minutes: int): string
    requires 0 <= minutes <= DAY_MINUTES
  {
    TwoDigitText(minutes / 60) + [':'] + TwoDigitText(minutes % 60)
  }

  lemma ClockTextReads(minutes: int)
    requires 0 <= minutes <= DAY_MINUTES
    ensures ClockByCut(ClockText(minutes)) == Some(minutes) && Count(ClockText(minutes), '-') == 0
  {
    var a, b := Digit(minutes / 60 / 10), Digit(minutes / 60 % 10);
    var c, d := Digit(minutes % 60 / 10), Digit(minutes % 60 % 10);
    assert ClockText(minutes) == [a, b, ':', c, d];
    ClockReads(a, b, c, d);
  }

  /** Every window written as HH:MM-HH:MM is accepted, and the scheduler reads it
      back. */
  lemma WrittenWindowIsRead(w: Window)
    requires w.Valid()
    ensures
      var s := ClockText(w.start) + ['-'] + ClockText(w.end);
      Accepted(s) && Parsed(s) == Some(w)
  {
    var start, end := ClockText(w.start), ClockText(w.end);
    ClockTextReads(w.start);
    ClockTextReads(w.end);
    PairIsAccepted(start, end);
    CutAfter(start, end, '-');
    SplitInTwo(start + ['-'] + end, '-');
    ClocksAgree(start);
    ClocksAgree(end);
  }

  lemma OneOClock()
    ensures ClockByCut("1:00") == Some(60)
  {
    CutAfter("1", "00", ':');
    assert "1:00" == "1" + [':'] + "00";
    OneDigit('1');
    TwoDigits('0', '0');
    assert "00" == ['0'] + ['0'];
  }

  lemma MinusZeroThirty()
    ensures ClockByCut("-0:30") == Some(30)
  {
    assert "-0"[1..] == "0";
    CutAfter("-0", "30", ':');
    assert "-0:30" == "-0" + [':'] + "30";
    OneDigit('0');
    TwoDigits('3', '0');
    assert "30" == ['3'] + ['0'] && "-0" == "-" + ['0'];
  }

  /** A second dash can be accepted: minus zero is a number. The scheduler then
      ignores the window. */
  lemma MinusZeroIsAcceptedButNeverRuns()
    ensures Accepted("1:00--0:30") && Parsed("1:00--0:30").None?
  {
    assert Count("1:00", '-') == 0 by {
      assert "1:00"[1..] == ":00" && ":00"[1..] == "00" && "00"[1..] == "0";
    }
    assert Count("-0:30", '-') > 0;
    assert "1:00--0:30" == "1:00" + ['-'] + "-0:30";
    OneOClock();
    MinusZeroThirty();
    PairIsAccepted("1:00", "-0:30");
    CutAfter("1:00", "-0:30", '-');
    AcceptedRunsWithOneDash("1:00--0:30");
  }
}
