/** What a schedule's text means: the number it spells, the days of the Gregorian calendar, and the due times that
    follow. */
module Calendar {
  import opened Values
  import opened Transitions
  import opened Store
  import opened Schedules
  import opened IssueSpec
  import opened AdminSpec
  import opened Runs
  import opened Shapes
  import opened SpawnSpec
  import opened SpawnRate

  // ---------- numbers ----------

  /** The usual decimal notation. */
  function Decimal(n: nat): (s: string)
    ensures s != "" && forall i :: 0 <= i < |s| ==> s[i] in "0123456789"
  {
    if n < 10 then ["0123456789"[n]] else Decimal(n / 10) + ["0123456789"[n % 10]]
  }

  lemma DigitsAreDigits(s: string)
    requires forall i :: 0 <= i < |s| ==> s[i] in "0123456789"
    ensures forall i :: 0 <= i < |s| ==> IsDigit(s[i])
  {
  }

  lemma {:induction false} DecimalParses(n: nat)
    ensures DigitsOnly(Decimal(n)) && ParseNat(Decimal(n)) == n
    decreases n
  {
    DigitsAreDigits(Decimal(n));
    var s := Decimal(n);
    var d := s[|s| - 1];
    assert d == "0123456789"[n % 10] && d as int - '0' as int == n % 10;
    if n < 10 {
      assert s[..0] == "";
    } else {
      DecimalParses(n / 10);
      assert s[..|s| - 1] == Decimal(n / 10);
    }
  }

  /** Leading zeros change nothing. */
  lemma {:induction false} LeadingZeroParses(s: string)
    requires DigitsOnly(s)
    ensures DigitsOnly("0" + s) && ParseNat("0" + s) == ParseNat(s)
  {
    if s != "" {
      LeadingZeroParses(s[..|s| - 1]);
      assert ("0" + s)[..|s|] == "0" + s[..|s| - 1];
    } else {
      assert ("0" + s)[..0] == "";
    }
  }

  lemma PeriodOf(digits: string, u: char)
    requires digits != "" && DigitsOnly(digits) && u in "dwm"
    ensures ParseInterval(digits + [u])
      == Some(Period(ParseNat(digits), if u == 'd' then Days else if u == 'w' then Weeks else Months))
    ensures ParseInterval(digits + [u] + "\n") == ParseInterval(digits + [u])
  {
    var e := digits + [u];
    assert e[..|e| - 1] == digits;
    assert (e + "\n")[..|e|] == e;
  }

  ghost predicate Spells(expr: string, digits: string, u: char) {
    && digits != "" && DigitsOnly(digits) && u in "dwm"
    && (expr == digits + [u] || expr == digits + [u] + "\n")
  }

  /** An interval is digits and one of the three letters, with perhaps a final newline. */
  lemma IntervalsAreExactly(expr: string)
    ensures ParseInterval(expr).Some? <==> exists digits, u :: Spells(expr, digits, u)
  {
    if ParseInterval(expr).Some? {
      var e := if expr[|expr| - 1] == '\n' then expr[..|expr| - 1] else expr;
      assert e == e[..|e| - 1] + [e[|e| - 1]] && (expr == e || expr == e + "\n");
      assert Spells(expr, e[..|e| - 1], e[|e| - 1]);
    }
    if digits, u :| Spells(expr, digits, u) {
      PeriodOf(digits, u);
    }
  }

  /** Which schedules requests may name, and what a cron expression gives. */
  lemma SchedulesAcceptedExactly(lib: Lib, expr: string, t: Time)
    ensures ValidSchedule(lib, Cron(expr)) <==> lib.cronValid(expr)
    ensures ValidSchedule(lib, Interval(expr)) <==> exists digits, u :: Spells(expr, digits, u)
    ensures NextDue(lib, Cron(expr), t)
      == if lib.cron(expr, t) == None then Err(BadSchedule) else Ok(lib.cron(expr, t).value)
  {
    IntervalsAreExactly(expr);
    hide ParseInterval, Spells;
  }

  /** The interval of n days, weeks or months. */
  function Every(n: nat, u: char): Schedule {
    Interval(Decimal(n) + [u])
  }

  lemma EveryParses(n: nat)
    ensures ParseInterval(Every(n, 'd').expr) == Some(Period(n, Days))
    ensures ParseInterval(Every(n, 'w').expr) == Some(Period(n, Weeks))
    ensures ParseInterval(Every(n, 'm').expr) == Some(Period(n, Months))
  {
    DecimalParses(n);
    PeriodOf(Decimal(n), 'd');
    PeriodOf(Decimal(n), 'w');
    PeriodOf(Decimal(n), 'm');
  }

  // ---------- due times ----------

  function Within(t: Time): Result<Time> {
    if t < END_OF_TIME then Ok(t) else Err(Overflow)
  }

  /** n days, n weeks or n months after the instant, unless the calendar ends before. */
  lemma NextDueOf(lib: Lib, n: nat, t: Time)
    ensures NextDue(lib, Every(n, 'd'), t) == Within(t + n * DAY)
    ensures NextDue(lib, Every(n, 'w'), t) == Within(t + 7 * n * DAY)
    ensures NextDue(lib, Every(n, 'm'), t) == Within(AddMonths(t, n))
  {
    EveryParses(n);
    hide ParseInterval;
    assert n * 7 * DAY == 7 * n * DAY;
  }

  /** Whatever text is stored, a recurrence created or rescheduled with no due time of its own is due one step from now:
      for an interval of n days, n days from now. */
  lemma RequestsAreDueAfterOnePeriod(lib: Lib, db: Db, team: Id, data: NewRecurrence, id: Id,
    p: RecurrencePatch, user: Id,
                                     now: Time, n: nat, days: nat)
    requires (days == 1 && data.schedule == Every(n, 'd')) || (days == 7 && data.schedule == Every(n, 'w'))
    requires p.schedule == Some(data.schedule)
    requires data.nextDue.None? && p.nextDue.None? && now + days * n * DAY < END_OF_TIME
    ensures var t := CreateRecurrenceSpec(lib, db, team, data, user, now);
      && t.Committed? && t.id in t.db.recurrences && t.db.recurrences[t.id].nextDue == now + days * n * DAY
      && t.db.recurrences[t.id].active && t.db.recurrences[t.id].schedule == data.schedule
    ensures id in db.recurrences ==>
      var t := UpdateRecurrenceSpec(lib, db, id, p, user, now);
      t.Committed? && id in t.db.recurrences && t.db.recurrences[id].nextDue == now + days * n * DAY
  {
    NextDueOf(lib, n, now);
    EveryParses(n);
    hide ParseInterval, NextDue;
  }

  /** A recurrence of n days, unedited over a run, spawns at least n days apart. */
  lemma DailySpawnsAreSpaced(lib: Lib, db: Db, ops: seq<Op>, r: Id, n: nat)
    requires FreshIds(db) && r in db.recurrences && NeverEdited(ops, r) && n > 0
    ensures db.recurrences[r].schedule == Every(n, 'd') ==> SpacedBy(SpawnTimes(lib, db, ops, r), n * DAY)
    ensures db.recurrences[r].schedule == Every(n, 'w') ==> SpacedBy(SpawnTimes(lib, db, ops, r), 7 * n * DAY)
  {
    hide SpawnTimes, FreshIds, NeverEdited, SpacedBy, ParseInterval;
    EveryParses(n);
    assert n * DAY > 0 && n * 7 * DAY == 7 * n * DAY;
    if db.recurrences[r].schedule == Every(n, 'd') {
      SpawnsAreSpaced(lib, db, ops, r, n * DAY);
    }
    if db.recurrences[r].schedule == Every(n, 'w') {
      SpawnsAreSpaced(lib, db, ops, r, 7 * n * DAY);
    }
  }

  // ---------- the calendar ----------

  lemma QuotientSteps(y: nat, d: nat)
    requires d > 0
    ensures (y + 1) / d == y / d + if (y + 1) % d == 0 then 1 else 0
  {
    var q, r := y / d, y % d;
    assert y == q * d + r;
    if r + 1 == d {
      assert y + 1 == (q + 1) * d;
      Divided(y + 1, d, q + 1, 0);
    } else {
      Divided(y + 1, d, q, r + 1);
    }
  }

  lemma Divided(n: nat, d: nat, q: nat, r: nat)
    requires d > 0 && n == q * d + r && r < d
    ensures n / d == q && n % d == r
  {
    var k := n / d - q;
    assert n == (n / d) * d + n % d;
    assert (q + k) * d == q * d + k * d;
    assert k * d == r - n % d;
    assert k >= 1 ==> k * d >= d;
    assert k <= -1 ==> k * d + d <= 0;
  }

  /** The days before each month of a common year. */
  const BEFORE: seq<nat> := [0, 31, 59, 90, 120, 151, 181, 212, 243, 273, 304, 334, 365]

  lemma NextMonthStarts(month: nat)
    ensures MonthStart(month + 1) == MonthStart(month) + DaysIn(month)
  {
  }

  /** The day on which a month of a year starts, counted from the start of the year. */
  lemma {:induction false} MonthsOfAYear(y: nat, m: nat)
    requires m <= 12
    ensures MonthStart(12 * y + m) == MonthStart(12 * y) + BEFORE[m] + if m >= 2 && IsLeap(y + 1) then 1 else 0
  {
    if m > 0 {
      MonthsOfAYear(y, m - 1);
      Divided(12 * y + (m - 1), 12, y, m - 1);
      NextMonthStarts(12 * y + (m - 1));
      hide IsLeap, MonthStart;
    }
  }

  /** A leap day every fourth year, except in centuries that 400 does not divide. */
  function LeapDays(years: nat): int {
    years / 4 - years / 100 + years / 400
  }

  lemma LeapDaysStep(y: nat)
    ensures LeapDays(y + 1) == LeapDays(y) + if IsLeap(y + 1) then 1 else 0
  {
    QuotientSteps(y, 4);
    QuotientSteps(y, 100);
    QuotientSteps(y, 400);
    LeapRule(y + 1);
  }

  lemma LeapRule(y: nat)
    ensures (y % 400 == 0 ==> y % 100 == 0) && (y % 100 == 0 ==> y % 4 == 0)
  {
    if y % 400 == 0 {
      Divided(y, 100, y / 400 * 4, 0);
    }
    if y % 100 == 0 {
      Divided(y, 4, y / 100 * 25, 0);
    }
  }

  lemma {:induction false} YearsStart(y: nat)
    ensures MonthStart(12 * y) == 365 * y + LeapDays(y)
  {
    if y > 0 {
      YearsStart(y - 1);
      MonthsOfAYear(y - 1, 12);
      LeapDaysStep(y - 1);
      hide MonthStart, LeapDays, IsLeap;
      assert 12 * (y - 1) + 12 == 12 * y;
    }
  }

  /** Every month starts on the day on which the Gregorian calendar has it, leap days included. */
  lemma CalendarIsGregorian(y: nat, m: nat)
    requires m < 12
    ensures MonthStart(12 * y + m) == 365 * y + BEFORE[m] + LeapDays(if m >= 2 then y + 1 else y)
  {
    YearsStart(y);
    MonthsOfAYear(y, m);
    LeapDaysStep(y);
    hide MonthStart, LeapDays, IsLeap;
  }

  /** And it ends with the year 9999. */
  lemma CalendarEnds()
    ensures END_OF_TIME == MonthStart(12 * 9999) * DAY
  {
    YearsStart(9999);
    assert 365 * 9999 + LeapDays(9999) == 3_652_059;
    hide MonthStart, LeapDays;
  }
}
