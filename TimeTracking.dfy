/**
 * The time tracker page (`TimeTracker.tsx`): the attendance log, the
 * clock-in / clock-out flags, which logs each role may see, and the
 * "Average Clock-In Time" statistic.
 *
 * Clock times are texts such as "07:45". The statistic reads them back with
 * `split(':')` and `parseInt`, which is modelled on texts: `parseInt` reads
 * the longest run of leading decimal digits and gives NaN (`None` here) when
 * there is none. A NaN minute count poisons the running total, as it does
 * in JavaScript.
 */
module TimeTracking {
  import opened Options
  import Seqs

  datatype TimeLog = TimeLog(
    id: string,
    date: string,
    name: string,
    role: string,
    clockInTime: string,
    clockOutTime: Option<string>,
    totalHours: Option<string>)

  // ---------------------------------------------------------------------
  // Decimal text

  predicate IsDigit(c: char)
  {
    '0' <= c <= '9'
  }

  predicate AllDigits(s: string)
  {
    forall i :: 0 <= i < |s| ==> IsDigit(s[i])
  }

  function DigitValue(c: char): (d: nat)
    requires IsDigit(c)
    ensures d < 10
  {
    c as int - '0' as int
  }

  function DigitChar(d: nat): (c: char)
    requires d < 10
    ensures IsDigit(c) && DigitValue(c) == d
  {
    ('0' as int + d) as char
  }

  /** The number a run of decimal digits denotes. */
  function DecimalValue(s: string): nat
    requires AllDigits(s)
  {
    if s == [] then 0 else 10 * DecimalValue(s[..|s| - 1]) + DigitValue(s[|s| - 1])
  }

  /** `String(n)` for a non-negative integer: its decimal digits, no leading zero. */
  function NatToDecimal(n: nat): (r: string)
    ensures |r| >= 1 && AllDigits(r)
    ensures DecimalValue(r) == n
    ensures |r| == 1 <==> n < 10
    ensures |r| > 1 ==> r[0] != '0'
  {
    if n < 10 then [DigitChar(n)]
    else
      var p := NatToDecimal(n / 10);
      var r := p + [DigitChar(n % 10)];
      assert r[..|r| - 1] == p;
      r
  }

  /** A zero in front does not change the value. */
  lemma {:induction false} LeadingZero(s: string)
    requires AllDigits(s)
    ensures AllDigits(['0'] + s) && DecimalValue(['0'] + s) == DecimalValue(s)
  {
    if s != [] {
      var t := ['0'] + s;
      assert t[..|t| - 1] == ['0'] + s[..|s| - 1];
      LeadingZero(s[..|s| - 1]);
    }
  }

  /** `s.padStart(2, '0')` */
  function Pad2(s: string): (r: string)
    ensures |r| == if |s| < 2 then 2 else |s|
    ensures |s| >= 2 ==> r == s
    ensures |s| < 2 ==> r[2 - |s|..] == s && forall i :: 0 <= i < 2 - |s| ==> r[i] == '0'
  {
    if |s| == 0 then "00"
    else if |s| == 1 then ['0'] + s
    else s
  }

  /** Padding a run of digits keeps it a run of digits with the same value. */
  lemma Pad2Value(s: string)
    requires AllDigits(s)
    ensures AllDigits(Pad2(s)) && DecimalValue(Pad2(s)) == DecimalValue(s)
  {
    if |s| == 0 {
      assert DecimalValue("0") == 0;
    } else if |s| == 1 {
      LeadingZero(s);
    }
  }

  // ---------------------------------------------------------------------
  // Reading a clock text back: `split(':')` and `parseInt`
  //
  // The pieces of `t.split(':')` are the stretches of `t` between colons, so
  // they are described here by index ranges of `t` rather than as new texts.

  /** `s.indexOf(c, from)`: the first position at or after `from` holding `c`, or none. */
  function IndexFrom(s: string, c: char, from: nat): (r: Option<nat>)
    ensures r.Some? ==> from <= r.value < |s| && s[r.value] == c
    decreases |s| - from
  {
    if from >= |s| then None else if s[from] == c then Some(from) else IndexFrom(s, c, from + 1)
  }

  /** Reads the digits of `s[from..stop]` from the front into `acc`, stopping at a non-digit. */
  function DigitsFrom(s: string, from: nat, stop: nat, acc: nat): nat
    requires from <= stop <= |s|
    decreases stop - from
  {
    if from == stop || !IsDigit(s[from]) then acc else DigitsFrom(s, from + 1, stop, 10 * acc + DigitValue(s[from]))
  }

  /**
   * `parseInt(s.slice(from, stop))` on unsigned decimal text: the value of the
   * run of digits the piece starts with; none (NaN) when it starts with none.
   */
  function ParseInt(s: string, from: nat, stop: nat): (r: Option<nat>)
    requires from <= stop <= |s|
    ensures r.None? <==> (from == stop || !IsDigit(s[from]))
  {
    if from == stop || !IsDigit(s[from]) then None else Some(DigitsFrom(s, from, stop, 0))
  }

  /**
   * `parseInt(parts[0]) * 60 + parseInt(parts[1])` for `parts = t.split(':')`;
   * none when either is NaN, which includes a text without a colon
   * (`parts[1]` is then `undefined`).
   */
  function ClockMinutes(t: string): Option<nat>
  {
    match IndexFrom(t, ':', 0)
    case None => None
    case Some(k) =>
      var end := match IndexFrom(t, ':', k + 1) case None => |t| case Some(j) => j;
      var h := ParseInt(t, 0, k);
      var m := ParseInt(t, k + 1, end);
      if h.Some? && m.Some? then Some(h.value * 60 + m.value) else None
  }

  lemma {:induction false} IndexFromFound(s: string, c: char, from: nat, k: nat)
    requires from <= k < |s| && s[k] == c
    requires forall j :: from <= j < k ==> s[j] != c
    ensures IndexFrom(s, c, from) == Some(k)
    decreases k - from
  {
    if from < k {
      IndexFromFound(s, c, from + 1, k);
    }
  }

  lemma {:induction false} IndexFromAbsent(s: string, c: char, from: nat)
    requires forall j :: from <= j < |s| ==> s[j] != c
    ensures IndexFrom(s, c, from) == None
    decreases |s| - from
  {
    if from < |s| {
      IndexFromAbsent(s, c, from + 1);
    }
  }

  lemma {:induction false} DigitsFromSnoc(s: string, from: nat, stop: nat, acc: nat)
    requires from <= stop < |s|
    requires forall j :: from <= j <= stop ==> IsDigit(s[j])
    ensures DigitsFrom(s, from, stop + 1, acc) == 10 * DigitsFrom(s, from, stop, acc) + DigitValue(s[stop])
    decreases stop - from
  {
    if from < stop {
      DigitsFromSnoc(s, from + 1, stop, 10 * acc + DigitValue(s[from]));
    }
  }

  /** A piece made only of digits parses to its decimal value. */
  lemma {:induction false} DigitsFromValue(s: string, from: nat, stop: nat)
    requires from <= stop <= |s|
    requires forall j :: from <= j < stop ==> IsDigit(s[j])
    ensures AllDigits(s[from..stop]) && DigitsFrom(s, from, stop, 0) == DecimalValue(s[from..stop])
    decreases stop - from
  {
    assert forall i :: 0 <= i < stop - from ==> s[from..stop][i] == s[from + i];
    if from < stop {
      DigitsFromValue(s, from, stop - 1);
      DigitsFromSnoc(s, from, stop - 1, 0);
      assert s[from..stop][..stop - 1 - from] == s[from..stop - 1];
    }
  }

  /** In `a + ":" + b` with `a` and `b` digits, the first colon is at `|a|` and there is no second one. */
  lemma ColonsOfJoined(a: string, b: string)
    requires AllDigits(a) && AllDigits(b)
    ensures IndexFrom(a + ":" + b, ':', 0) == Some(|a|)
    ensures IndexFrom(a + ":" + b, ':', |a| + 1) == None
  {
    var t := a + ":" + b;
    forall j | 0 <= j < |a|
      ensures t[j] != ':'
    {
      assert t[j] == a[j] && IsDigit(a[j]);
    }
    IndexFromFound(t, ':', 0, |a|);
    forall j | |a| + 1 <= j < |t|
      ensures t[j] != ':'
    {
      assert t[j] == b[j - |a| - 1] && IsDigit(b[j - |a| - 1]);
    }
    IndexFromAbsent(t, ':', |a| + 1);
  }

  /** The pieces of `a + ":" + b` parse to the values of `a` and `b`. */
  lemma PiecesOfJoined(a: string, b: string)
    requires a != [] && b != [] && AllDigits(a) && AllDigits(b)
    ensures ParseInt(a + ":" + b, 0, |a|) == Some(DecimalValue(a))
    ensures ParseInt(a + ":" + b, |a| + 1, |a| + 1 + |b|) == Some(DecimalValue(b))
  {
    var t := a + ":" + b;
    assert t[0..|a|] == a;
    assert t[|a| + 1..|t|] == b;
    forall j | 0 <= j < |a|
      ensures IsDigit(t[j])
    {
      assert t[j] == a[j];
    }
    forall j | |a| + 1 <= j < |t|
      ensures IsDigit(t[j])
    {
      assert t[j] == b[j - |a| - 1];
    }
    DigitsFromValue(t, 0, |a|);
    DigitsFromValue(t, |a| + 1, |t|);
  }

  /** Two runs of digits joined by a colon read back as hours and minutes. */
  lemma ClockMinutesOfDigits(a: string, b: string)
    requires a != [] && b != [] && AllDigits(a) && AllDigits(b)
    ensures ClockMinutes(a + ":" + b) == Some(DecimalValue(a) * 60 + DecimalValue(b))
  {
    ColonsOfJoined(a, b);
    PiecesOfJoined(a, b);
    ClockMinutesOfOneColon(a + ":" + b, |a|, DecimalValue(a), DecimalValue(b));
  }

  /** A text with a single colon reads as its two pieces. */
  lemma ClockMinutesOfOneColon(t: string, k: nat, h: nat, m: nat)
    requires k < |t|
    requires IndexFrom(t, ':', 0) == Some(k) && IndexFrom(t, ':', k + 1) == None
    requires ParseInt(t, 0, k) == Some(h) && ParseInt(t, k + 1, |t|) == Some(m)
    ensures ClockMinutes(t) == Some(h * 60 + m)
  {
  }

  // ---------------------------------------------------------------------
  // Average clock-in time

  /** Math.round(t / c) for non-negative t and positive c: halves round up. */
  function RoundDiv(t: nat, c: nat): (r: nat)
    requires c > 0
    ensures 2 * c * r <= 2 * t + c < 2 * c * r + 2 * c
  {
    (2 * t + c) / (2 * c)
  }

  /** `${String(h).padStart(2,'0')}:${String(m).padStart(2,'0')}` for m minutes after midnight. */
  function FormatClock(minutes: nat): string
  {
    Pad2(NatToDecimal(minutes / 60)) + ":" + Pad2(NatToDecimal(minutes % 60))
  }

  /** A formatted clock is at least two hour digits, a colon and exactly two minute digits. */
  lemma FormatClockShape(minutes: nat)
    ensures var r := FormatClock(minutes);
      && |r| >= 5 && r[|r| - 3] == ':'
      && AllDigits(r[..|r| - 3]) && AllDigits(r[|r| - 2..])
      && DecimalValue(r[..|r| - 3]) == minutes / 60
      && DecimalValue(r[|r| - 2..]) == minutes % 60
  {
    var h := Pad2(NatToDecimal(minutes / 60));
    var m := Pad2(NatToDecimal(minutes % 60));
    var r := h + ":" + m;
    Pad2Value(NatToDecimal(minutes / 60));
    Pad2Value(NatToDecimal(minutes % 60));
    assert r[..|r| - 3] == h;
    assert r[|r| - 2..] == m;
  }

  /** A formatted clock reads back as the same number of minutes. */
  lemma FormatClockReadsBack(minutes: nat)
    ensures ClockMinutes(FormatClock(minutes)) == Some(minutes)
  {
    var h := Pad2(NatToDecimal(minutes / 60));
    var m := Pad2(NatToDecimal(minutes % 60));
    Pad2Value(NatToDecimal(minutes / 60));
    Pad2Value(NatToDecimal(minutes % 60));
    ClockMinutesOfDigits(h, m);
    assert FormatClock(minutes) == h + ":" + m;
    assert minutes == (minutes / 60) * 60 + minutes % 60;
  }

  /**
   * The minute counts read from those of the first `n` logs that have a
   * (truthy) clock-in text, in log order; these are the logs the average
   * counts.
   */
  function Readings(logs: seq<TimeLog>, n: nat): (r: seq<Option<nat>>)
    requires n <= |logs|
    ensures |r| <= n
  {
    if n == 0 then []
    else
      var log := logs[n - 1];
      Readings(logs, n - 1) + (if log.clockInTime != "" then [ClockMinutes(log.clockInTime)] else [])
  }

  /** `totalMinutes += ...` for one reading; NaN absorbs. */
  function AddMinutes(total: Option<nat>, m: Option<nat>): (r: Option<nat>)
    ensures r.Some? <==> total.Some? && m.Some?
    ensures r.Some? ==> r.value == total.value + m.value
  {
    if total.Some? && m.Some? then Some(total.value + m.value) else None
  }

  /** The sum of the readings; none once a NaN has been added. */
  function Sum(ms: seq<Option<nat>>): Option<nat>
  {
    if ms == [] then Some(0) else AddMinutes(Sum(ms[..|ms| - 1]), ms[|ms| - 1])
  }

  /** The number of logs with a clock-in text (`count`). */
  function CountClockIns(logs: seq<TimeLog>): nat
  {
    |Readings(logs, |logs|)|
  }

  /** The final `totalMinutes`. */
  function TotalMinutes(logs: seq<TimeLog>): Option<nat>
  {
    Sum(Readings(logs, |logs|))
  }

  lemma SumAppend(ms: seq<Option<nat>>, m: Option<nat>)
    ensures Sum(ms + [m]) == AddMinutes(Sum(ms), m)
  {
    assert (ms + [m])[..|ms|] == ms;
  }

  /**
   * `calculateAvgClockIn`: "00:00" when no log has a clock-in time, "NaN:NaN"
   * when one of them does not read as a number, and otherwise the rounded
   * mean number of minutes formatted as a clock.
   */
  method AverageClockIn(logs: seq<TimeLog>) returns (r: string)
    ensures CountClockIns(logs) == 0 ==> r == "00:00"
    ensures CountClockIns(logs) > 0 && TotalMinutes(logs).None? ==> r == "NaN:NaN"
    ensures CountClockIns(logs) > 0 && TotalMinutes(logs).Some? ==>
      r == FormatClock(RoundDiv(TotalMinutes(logs).value, CountClockIns(logs)))
  {
    var totalMinutes: Option<nat> := Some(0);
    var count: nat := 0;
    var i := 0;
    while i < |logs|
      invariant 0 <= i <= |logs|
      invariant totalMinutes == Sum(Readings(logs, i))
      invariant count == |Readings(logs, i)|
    {
      var log := logs[i];
      if log.clockInTime != "" {
        assert Readings(logs, i + 1) == Readings(logs, i) + [ClockMinutes(log.clockInTime)];
        SumAppend(Readings(logs, i), ClockMinutes(log.clockInTime));
        totalMinutes := AddMinutes(totalMinutes, ClockMinutes(log.clockInTime));
        count := count + 1;
      } else {
        assert Readings(logs, i) + [] == Readings(logs, i);
        assert Readings(logs, i + 1) == Readings(logs, i);
      }
      i := i + 1;
    }
    if count == 0 {
      r := "00:00";
    } else if totalMinutes.None? {
      r := "NaN:NaN";
    } else {
      r := FormatClock(RoundDiv(totalMinutes.value, count));
    }
  }

  /** The average falls back to "00:00" exactly when no log has a clock-in text. */
  lemma NoClockIns(logs: seq<TimeLog>)
    ensures CountClockIns(logs) == 0 <==> forall i :: 0 <= i < |logs| ==> logs[i].clockInTime == ""
  {
    NoReadings(logs, |logs|);
  }

  lemma {:induction false} NoReadings(logs: seq<TimeLog>, n: nat)
    requires n <= |logs|
    ensures |Readings(logs, n)| == 0 <==> forall i :: 0 <= i < n ==> logs[i].clockInTime == ""
  {
    if n > 0 {
      NoReadings(logs, n - 1);
    }
  }

  /** Every log with a clock-in text reads as a minute count between `lo` and `hi`. */
  predicate ClockInsWithin(logs: seq<TimeLog>, lo: nat, hi: nat)
  {
    forall i :: 0 <= i < |logs| && logs[i].clockInTime != "" ==> MinutesWithin(ClockMinutes(logs[i].clockInTime), lo, hi)
  }

  predicate MinutesWithin(m: Option<nat>, lo: nat, hi: nat)
  {
    m.Some? && lo <= m.value <= hi
  }

  lemma {:induction false} ReadingsWithin(logs: seq<TimeLog>, n: nat, lo: nat, hi: nat)
    requires n <= |logs| && ClockInsWithin(logs, lo, hi)
    ensures forall k :: 0 <= k < |Readings(logs, n)| ==> MinutesWithin(Readings(logs, n)[k], lo, hi)
  {
    if n > 0 {
      ReadingsWithin(logs, n - 1, lo, hi);
    }
  }

  lemma {:induction false} SumBounds(ms: seq<Option<nat>>, lo: nat, hi: nat)
    requires forall k :: 0 <= k < |ms| ==> MinutesWithin(ms[k], lo, hi)
    ensures Sum(ms).Some?
    ensures |ms| * lo <= Sum(ms).value <= |ms| * hi
  {
    if ms != [] {
      var p := ms[..|ms| - 1];
      assert forall k :: 0 <= k < |p| ==> p[k] == ms[k];
      SumBounds(p, lo, hi);
      AddWithin(|p|, Sum(p).value, ms[|ms| - 1].value, lo, hi);
    }
  }

  lemma AddWithin(c: nat, prev: nat, m: nat, lo: nat, hi: nat)
    requires c * lo <= prev <= c * hi && lo <= m <= hi
    ensures (c + 1) * lo <= prev + m <= (c + 1) * hi
  {
    assert (c + 1) * lo == c * lo + lo;
    assert (c + 1) * hi == c * hi + hi;
  }

  lemma MulLtCancel(k: nat, a: nat, b: nat)
    requires k * a < k * b
    ensures a < b
  {
    if b <= a {
      MulLe(k, b, a);
    }
  }

  lemma MulLe(k: nat, a: nat, b: nat)
    requires a <= b
    ensures k * a <= k * b
  {
  }

  /** The rounded mean of values between `lo` and `hi` is between them. */
  lemma RoundDivWithin(t: nat, c: nat, lo: nat, hi: nat)
    requires c > 0 && c * lo <= t <= c * hi
    ensures lo <= RoundDiv(t, c) <= hi
  {
    var r := RoundDiv(t, c);
    // 2c·lo <= 2t < 2c·r + c < 2c·(r + 1), so lo < r + 1
    assert 2 * c * lo <= 2 * t;
    assert 2 * c * lo < 2 * c * (r + 1);
    MulLtCancel(2 * c, lo, r + 1);
    // 2c·r <= 2t + c <= 2c·hi + c < 2c·(hi + 1), so r < hi + 1
    assert 2 * t <= 2 * c * hi;
    assert 2 * c * r < 2 * c * (hi + 1);
    MulLtCancel(2 * c, r, hi + 1);
  }

  /**
   * When every clock-in time reads as a number of minutes between `lo` and
   * `hi`, the average clock-in is defined and lies between them too.
   */
  lemma AverageWithinRange(logs: seq<TimeLog>, lo: nat, hi: nat)
    requires ClockInsWithin(logs, lo, hi)
    requires CountClockIns(logs) > 0
    ensures TotalMinutes(logs).Some?
    ensures lo <= RoundDiv(TotalMinutes(logs).value, CountClockIns(logs)) <= hi
  {
    ReadingsWithin(logs, |logs|, lo, hi);
    SumBounds(Readings(logs, |logs|), lo, hi);
    RoundDivWithin(TotalMinutes(logs).value, CountClockIns(logs), lo, hi);
  }

  // ---------------------------------------------------------------------
  // Roles and visibility

  /** The role column of a new log. */
  function RoleLabel(userRole: string): (r: string)
    ensures r == "Site Manager" <==> userRole == "site-manager"
    ensures r == "Crew Member" <==> userRole != "site-manager"
  {
    if userRole == "site-manager" then "Site Manager" else "Crew Member"
  }

  /** `getFilteredLogs`: an administrator sees every log, anyone else only their own. */
  function VisibleLogs(logs: seq<TimeLog>, userRole: string, userName: string): seq<TimeLog>
  {
    if userRole == "admin" then logs else Seqs.Filter(logs, (l: TimeLog) => l.name == userName)
  }

  /**
   * An administrator sees the list itself; anyone else sees each log with
   * their own name as many times as it is listed, and no other log; either
   * way in list order.
   */
  lemma VisibleLogsSpec(logs: seq<TimeLog>, userRole: string, userName: string)
    ensures userRole == "admin" ==> VisibleLogs(logs, userRole, userName) == logs
    ensures userRole != "admin" ==>
      forall l :: l in VisibleLogs(logs, userRole, userName) <==> l in logs && l.name == userName
    ensures userRole != "admin" ==>
      forall l :: multiset(VisibleLogs(logs, userRole, userName))[l] ==
        (if l.name == userName then multiset(logs)[l] else 0)
    ensures Seqs.IsSubseq(VisibleLogs(logs, userRole, userName), logs)
  {
    Seqs.FilterCount(logs, (l: TimeLog) => l.name == userName);
    Seqs.FilterIsSubseq(logs, (l: TimeLog) => l.name == userName);
    Seqs.IsSubseqOfSelf(logs);
  }

  /** A log of one's own put at the head of the list heads one's visible logs too. */
  lemma VisibleAfterPrepend(log: TimeLog, logs: seq<TimeLog>, userRole: string, userName: string)
    requires log.name == userName
    ensures VisibleLogs([log] + logs, userRole, userName) == [log] + VisibleLogs(logs, userRole, userName)
  {
    assert ([log] + logs)[1..] == logs;
  }

  /** `localStorage.getItem(key) || fallback` */
  function OrDefault(stored: Option<string>, fallback: string): (r: string)
    ensures stored.Some? && stored.value != "" ==> r == stored.value
    ensures stored.None? || stored.value == "" ==> r == fallback
  {
    if stored.Some? && stored.value != "" then stored.value else fallback
  }

  /** The page's state. */
  class TimeTracker {
    var userRole: string
    var userName: string
    var clockedIn: bool
    var clockInTime: Option<string>
    var timeLogs: seq<TimeLog>

    constructor ()
      ensures userRole == "" && userName == "" && !clockedIn && clockInTime == None && timeLogs == []
    {
      userRole := "";
      userName := "";
      clockedIn := false;
      clockInTime := None;
      timeLogs := [];
    }

    /**
     * The mount effect: the stored role (or "") and name (or "User"), the
     * generated logs, and, when a log for today is stored, its clock-in time
     * with the flag set.
     */
    method Load(storedRole: Option<string>, storedName: Option<string>, mockLogs: seq<TimeLog>,
                todayClockIn: Option<string>)
      modifies this
      ensures userRole == OrDefault(storedRole, "") && userName == OrDefault(storedName, "User")
      ensures timeLogs == mockLogs
      ensures todayClockIn.Some? ==> clockedIn && clockInTime == todayClockIn
      ensures todayClockIn.None? ==> clockedIn == old(clockedIn) && clockInTime == old(clockInTime)
    {
      userRole := OrDefault(storedRole, "");
      userName := OrDefault(storedName, "User");
      timeLogs := mockLogs;
      if todayClockIn.Some? {
        clockedIn := true;
        clockInTime := todayClockIn;
      }
    }

    /** `handleClockIn` at the clock text `now`. */
    method ClockIn(now: string)
      modifies this
      ensures clockedIn && clockInTime == Some(now)
      ensures userRole == old(userRole) && userName == old(userName) && timeLogs == old(timeLogs)
    {
      clockedIn := true;
      clockInTime := Some(now);
    }

    /**
     * `handleClockOut` at the clock text `now` on day `today`; `hoursText` is
     * the one-decimal rendering of the hours worked. Without a (non-empty)
     * clock-in time nothing happens; otherwise one log is put at the head of
     * the list and the user is clocked out.
     */
    method ClockOut(now: string, today: string, hoursText: string)
      modifies this
      ensures old(clockInTime).None? || old(clockInTime).value == "" ==>
        clockedIn == old(clockedIn) && clockInTime == old(clockInTime) && timeLogs == old(timeLogs)
      ensures old(clockInTime).Some? && old(clockInTime).value != "" ==>
        && timeLogs == [TimeLog(today + "-new", today, userName, RoleLabel(userRole),
                                old(clockInTime).value, Some(now), Some(hoursText + " hrs"))] + old(timeLogs)
        && !clockedIn && clockInTime == None
        && FilteredLogs() == [timeLogs[0]] + old(FilteredLogs())
      ensures userRole == old(userRole) && userName == old(userName)
    {
      if clockInTime.Some? && clockInTime.value != "" {
        var newLog := TimeLog(today + "-new", today, userName, RoleLabel(userRole),
                              clockInTime.value, Some(now), Some(hoursText + " hrs"));
        VisibleAfterPrepend(newLog, timeLogs, userRole, userName);
        timeLogs := [newLog] + timeLogs;
        clockedIn := false;
        clockInTime := None;
      }
    }

    /** The logs the table shows (`getFilteredLogs()`). */
    function FilteredLogs(): seq<TimeLog>
      reads this
    {
      VisibleLogs(timeLogs, userRole, userName)
    }
  }
}
