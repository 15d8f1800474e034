/** The schedule arithmetic of services/recurrence_service.py: intervals, calendar months and the next due time. */
module Schedules {
  import opened Values
  import opened Store

  const DAY: Time := 86_400_000_000

  /** The first instant that datetime cannot represent: 10000-01-01T00:00, day 3652059. */
  const END_OF_TIME: Time := 3_652_059 * DAY

  // ---------- calendar ----------

  predicate IsLeap(year: nat) {
    year % 4 == 0 && (year % 100 != 0 || year % 400 == 0)
  }

  /** Days in a month, months being counted from January of year 1. */
  function DaysIn(month: nat): (n: nat)
    ensures 28 <= n <= 31
  {
    var inYear := month % 12;
    if inYear == 1 then (if IsLeap(month / 12 + 1) then 29 else 28)
    else if inYear == 3 || inYear == 5 || inYear == 8 || inYear == 10 then 30
    else 31
  }

  /** The day number of the first of the month. */
  function MonthStart(month: nat): nat {
    if month == 0 then 0 else MonthStart(month - 1) + DaysIn(month - 1)
  }

  lemma {:induction false} MonthStartsGrow(a: nat, b: nat)
    requires a < b
    ensures MonthStart(a) + DaysIn(a) <= MonthStart(b)
    decreases b - a
  {
    if a + 1 < b {
      MonthStartsGrow(a, b - 1);
    }
  }

  function MonthFrom(day: nat, month: nat): (m: nat)
    requires MonthStart(month) <= day
    ensures MonthStart(m) <= day < MonthStart(m) + DaysIn(m)
    decreases day - MonthStart(month)
  {
    if day < MonthStart(month) + DaysIn(month) then month else MonthFrom(day, month + 1)
  }

  /** The month a day lies in. */
  function MonthOf(day: nat): nat {
    MonthFrom(day, 0)
  }

  lemma MonthIsUnique(day: nat, m: nat)
    ensures MonthOf(day) == m <==> MonthStart(m) <= day < MonthStart(m) + DaysIn(m)
  {
    var found := MonthFrom(day, 0);
    if m < found {
      MonthStartsGrow(m, found);
    } else if found < m {
      MonthStartsGrow(found, m);
    }
  }

  /** `t + relativedelta(months=n)`: same day of the month and time of day, clamped to the month's last day. */
  function AddMonths(t: Time, n: nat): Time {
    var day := t / DAY;
    var month := MonthOf(day);
    var dayOfMonth := day - MonthStart(month);
    var clamped := if dayOfMonth < DaysIn(month + n) then dayOfMonth else DaysIn(month + n) - 1;
    (MonthStart(month + n) + clamped) * DAY + t % DAY
  }

  lemma DayOf(day: nat, rest: nat)
    requires rest < DAY
    ensures (day * DAY + rest) / DAY == day && (day * DAY + rest) % DAY == rest
  {
  }

  /** Adding months lands in the month that many later, at the same time of day, on the same day of the month
      or on the last day when the month is too short. */
  lemma AddMonthsLands(t: Time, n: nat)
    ensures var from, to := t / DAY, AddMonths(t, n) / DAY;
      && MonthOf(to) == MonthOf(from) + n
      && AddMonths(t, n) % DAY == t % DAY
      && var d, e := from - MonthStart(MonthOf(from)), to - MonthStart(MonthOf(to));
         e == d || (e < d && e == DaysIn(MonthOf(to)) - 1)
  {
    var day := t / DAY;
    var month := MonthOf(day);
    var dayOfMonth := day - MonthStart(month);
    var clamped := if dayOfMonth < DaysIn(month + n) then dayOfMonth else DaysIn(month + n) - 1;
    DayOf(MonthStart(month + n) + clamped, t % DAY);
    MonthIsUnique(MonthStart(month + n) + clamped, month + n);
  }

  lemma AddMonthsAdvances(t: Time, n: nat)
    ensures n > 0 ==> AddMonths(t, n) >= t + DAY
    ensures AddMonths(t, 0) == t
  {
    var day := t / DAY;
    var month := MonthOf(day);
    assert t == day * DAY + t % DAY;
    if n > 0 {
      MonthStartsGrow(month, month + n);
      var dayOfMonth := day - MonthStart(month);
      var to := MonthStart(month + n) + if dayOfMonth < DaysIn(month + n) then dayOfMonth else DaysIn(month + n) - 1;
      assert to >= day + 1;
      assert to * DAY >= (day + 1) * DAY;
    }
  }

  // ---------- intervals ----------

  datatype Unit = Days | Weeks | Months
  datatype Period = Period(n: nat, per: Unit)

  predicate IsDigit(c: char) {
    '0' <= c <= '9'
  }

  predicate DigitsOnly(s: string) {
    forall i :: 0 <= i < |s| ==> IsDigit(s[i])
  }

  function ParseNat(digits: string): nat
    requires DigitsOnly(digits)
  {
    if digits == "" then 0 else
      var last := digits[|digits| - 1];
      assert IsDigit(last);
      ParseNat(digits[..|digits| - 1]) * 10 + (last as int - '0' as int)
  }

  /** The pattern ^(\d+)([dwm])$, whose `$` lets one final newline pass. */
  function ParseInterval(expr: string): Option<Period> {
    var e := if expr != "" && expr[|expr| - 1] == '\n' then expr[..|expr| - 1] else expr;
    if |e| < 2 || !DigitsOnly(e[..|e| - 1]) then None
    else
      var n := ParseNat(e[..|e| - 1]);
      match e[|e| - 1]
      case 'd' => Some(Period(n, Days))
      case 'w' => Some(Period(n, Weeks))
      case 'm' => Some(Period(n, Months))
      case _ => None
  }

  function AddPeriod(t: Time, p: Period): Time {
    match p.per
    case Days => t + p.n * DAY
    case Weeks => t + p.n * 7 * DAY
    case Months => AddMonths(t, p.n)
  }

  /** `compute_next_due`. */
  function NextDue(lib: Lib, s: Schedule, after: Time): Result<Time> {
    match s
    case Cron(expr) =>
      (match lib.cron(expr, after)
       case None => Err(BadSchedule)
       case Some(t) => Ok(t))
    case Interval(expr) =>
      match ParseInterval(expr)
      case None => Err(BadSchedule)
      case Some(p) => if AddPeriod(after, p) < END_OF_TIME then Ok(AddPeriod(after, p)) else Err(Overflow)
  }

  predicate ValidSchedule(lib: Lib, s: Schedule) {
    match s
    case Cron(expr) => lib.cronValid(expr)
    case Interval(expr) => ParseInterval(expr).Some?
  }

  ghost predicate StrictlyAdvances(lib: Lib, s: Schedule) {
    forall t: Time :: NextDue(lib, s, t).Ok? ==> NextDue(lib, s, t).value > t
  }

  /** croniter's promise. */
  ghost predicate CronAdvances(lib: Lib) {
    forall e: string, t: Time :: lib.cron(e, t).Some? ==> lib.cron(e, t).value > t
  }

  lemma AddPeriodAdvances(t: Time, p: Period)
    ensures p.n > 0 ==> AddPeriod(t, p) >= t + DAY
    ensures p.n == 0 ==> AddPeriod(t, p) == t
  {
    AddMonthsAdvances(t, p.n);
    if p.n > 0 {
      assert p.n * DAY >= DAY;
      assert p.n * 7 * DAY >= DAY;
    }
  }

  /** An accepted schedule advances strictly, for every instant, exactly when it is not a zero-length interval. */
  lemma AdvancesExactlyWhenNotZero(lib: Lib, s: Schedule)
    requires CronAdvances(lib) && ValidSchedule(lib, s)
    ensures StrictlyAdvances(lib, s) <==> (s.Interval? ==> ParseInterval(s.expr).value.n > 0)
  {
    if s.Interval? {
      var p := ParseInterval(s.expr).value;
      forall t: Time ensures NextDue(lib, s, t).Ok? && p.n > 0 ==> NextDue(lib, s, t).value > t {
        AddPeriodAdvances(t, p);
      }
      AddPeriodAdvances(0, p);
      assert p.n == 0 ==> NextDue(lib, s, 0) == Ok(0);
    }
  }

  // ---------- the advance loop ----------

  /** The first due time past `now` that repeated `compute_next_due` reaches from t. */
  function FirstPast(lib: Lib, s: Schedule, t: Time, now: Time): (r: Result<Time>)
    requires StrictlyAdvances(lib, s)
    ensures r.Ok? ==> r.value > now
    decreases if t <= now then now - t + 1 else 0
  {
    if t > now then Ok(t) else
      var next :- NextDue(lib, s, t);
      FirstPast(lib, s, next, now)
  }

  /** The `while rec.next_due_at <= now` loop. */
  method AdvancePast(lib: Lib, s: Schedule, start: Time, now: Time) returns (due: Result<Time>)
    requires StrictlyAdvances(lib, s)
    ensures due == FirstPast(lib, s, start, now)
    ensures due.Ok? ==> due.value > now
  {
    var next := start;
    while next <= now
      invariant FirstPast(lib, s, start, now) == FirstPast(lib, s, next, now)
      decreases now - next
    {
      var r := NextDue(lib, s, next);
      if r.Err? {
        return r;
      }
      next := r.value;
    }
    due := Ok(next);
  }

  /** The fixed length of a period of days or weeks. */
  function StepOf(p: Period): nat {
    if p.per.Weeks? then p.n * 7 * DAY else p.n * DAY
  }

  lemma NextDueIsOneStep(lib: Lib, expr: string, t: Time)
    requires ParseInterval(expr).Some? && !ParseInterval(expr).value.per.Months?
    ensures var next := t + StepOf(ParseInterval(expr).value);
      NextDue(lib, Interval(expr), t) == if next < END_OF_TIME then Ok(next) else Err(Overflow)
  {
  }

  /** In days or weeks the loop lands on the first point past `now` of the grid through its start. */
  lemma {:induction false} FirstPastOnTheGrid(lib: Lib, expr: string, t: Time, now: Time)
    requires ParseInterval(expr).Some? && !ParseInterval(expr).value.per.Months?
    requires StrictlyAdvances(lib, Interval(expr)) && t <= now
    ensures var step, r := StepOf(ParseInterval(expr).value), FirstPast(lib, Interval(expr), t, now);
      && step > 0
      && (now + step < END_OF_TIME ==> r.Ok?)
      && (r.Ok? ==> r.value - step <= now < r.value && (r.value - t) % step == 0)
    decreases now - t
  {
    hide NextDue;
    var step := StepOf(ParseInterval(expr).value);
    NextDueIsOneStep(lib, expr, t);
    NextDueIsOneStep(lib, expr, 0);
    var next := t + step;
    if next < END_OF_TIME {
      assert NextDue(lib, Interval(expr), t).Ok?;
      if next <= now {
        FirstPastOnTheGrid(lib, expr, next, now);
        var r := FirstPast(lib, Interval(expr), next, now);
        if r.Ok? {
          MoreByOneStep(r.value - next, step);
        }
      } else {
        MoreByOneStep(0, step);
      }
    } else {
      StepIsPositive(lib, expr);
    }
  }

  lemma StepIsPositive(lib: Lib, expr: string)
    requires ParseInterval(expr).Some? && !ParseInterval(expr).value.per.Months?
    requires StrictlyAdvances(lib, Interval(expr))
    ensures StepOf(ParseInterval(expr).value) > 0
  {
    NextDueIsOneStep(lib, expr, 0);
    assert NextDue(lib, Interval(expr), 0).Ok? ==> NextDue(lib, Interval(expr), 0).value > 0;
  }

  lemma MoreByOneStep(d: int, step: nat)
    requires step > 0 && d % step == 0
    ensures (d + step) % step == 0
  {
    var q, r := (d + step) / step, (d + step) % step;
    var k := d / step + 1 - q;
    assert k * step == r;
    assert k >= 1 ==> k * step >= step;
    assert k < 0 ==> k * step < 0;
  }

  /** A zero-length interval never leaves the loop: every further due time is the same one, still due. */
  lemma ZeroIntervalStaysDue(lib: Lib, expr: string, t: Time, now: Time)
    requires ParseInterval(expr).Some? && ParseInterval(expr).value.n == 0 && t <= now < END_OF_TIME
    ensures NextDue(lib, Interval(expr), t) == Ok(t)
  {
    AddPeriodAdvances(t, ParseInterval(expr).value);
  }
}
