/** services/recurrence_service.py: schedules are validated when they are written, so a tick meets only schedules that
    it can advance, unless a zero-length interval was asked for. */
module RecurrenceService {
  import opened Values
  import opened Store
  import opened IssueSpec
  import opened AdminSpec
  import opened SpawnSpec
  import opened Schedules
  import opened Sessions
  import opened IssueService
  import opened Runs
  import opened Shapes
  import opened Scheduler
  import SpawnRate

  // ---------- the service ----------

  method CreateRecurrence(lib: Lib, s: Session, team: Id, data: NewRecurrence, user: Id, now: Time)
    returns (reply: Reply)
    requires s.Idle()
    modifies s
    ensures var t := CreateRecurrenceSpec(lib, old(s.committed), team, data, user, now);
      s.Idle() && s.committed == Outcome(old(s.committed), t) && reply == ReplyTo(t)
  {
    hide ValidSchedule, NextDue;
    if !ValidSchedule(lib, data.schedule) {
      return Refuse(Invalid);
    }
    var due: Time;
    if data.nextDue.Some? {
      due := data.nextDue.value;
    } else {
      match NextDue(lib, data.schedule, now) {
        case Err(e) => return Crash(e);
        case Ok(t) => due := t;
      }
    }
    var id := s.working.nextId;
    var rec := Recurrence(team, user, data.title, data.description, data.defaults, data.schedule, due, None,
      None, true);
    s.working := s.working.(nextId := id + 1, recurrences := s.working.recurrences[id := rec]);
    s.working := Logged(s.working, Entry(team, RecurrenceEntity, id, Create, user));
    s.Commit();
    reply := Done(id);
  }

  /** The edits and the due time, field by field as `setattr` writes them. */
  method SetRecurrenceFields(rec: Recurrence, p: RecurrencePatch, due: Option<Time>) returns (updated: Recurrence)
    ensures updated == rec.(
      titleTemplate := Or(p.title, rec.titleTemplate), description := Or(p.description, rec.description),
      defaults := Or(p.defaults, rec.defaults), schedule := Or(p.schedule, rec.schedule),
      nextDue := Or(due, rec.nextDue), active := Or(p.active, rec.active))
  {
    updated := rec;
    if p.title.Some? {
      updated := updated.(titleTemplate := p.title.value);
    }
    if p.description.Some? {
      updated := updated.(description := p.description.value);
    }
    if p.defaults.Some? {
      updated := updated.(defaults := p.defaults.value);
    }
    if p.schedule.Some? {
      updated := updated.(schedule := p.schedule.value);
    }
    if p.active.Some? {
      updated := updated.(active := p.active.value);
    }
    if due.Some? {
      updated := updated.(nextDue := due.value);
    }
  }

  method UpdateRecurrence(lib: Lib, s: Session, id: Id, p: RecurrencePatch, user: Id, now: Time) returns (reply: Reply)
    requires s.Idle()
    modifies s
    ensures var t := UpdateRecurrenceSpec(lib, old(s.committed), id, p, user, now);
      s.Idle() && s.committed == Outcome(old(s.committed), t) && reply == ReplyTo(t)
  {
    hide ValidSchedule, NextDue;
    if id !in s.working.recurrences {
      return Refuse(NotFound);
    }
    var rec := s.working.recurrences[id];
    var due := p.nextDue;
    if p.schedule.Some? {
      if !ValidSchedule(lib, p.schedule.value) {
        return Refuse(Invalid);
      }
      if due.None? {
        match NextDue(lib, p.schedule.value, now) {
          case Err(e) => return Crash(e);
          case Ok(t) => due := Some(t);
        }
      }
    }
    var updated := SetRecurrenceFields(rec, p, due);
    s.working := s.working.(recurrences := s.working.recurrences[id := updated]);
    s.working := Logged(s.working, Entry(rec.team, RecurrenceEntity, id, Update, user));
    s.Commit();
    reply := Done(id);
  }

  method DeleteRecurrence(s: Session, id: Id, user: Id) returns (reply: Reply)
    requires s.Idle()
    modifies s
    ensures var t := DeleteRecurrenceSpec(old(s.committed), id, user);
      s.Idle() && s.committed == Outcome(old(s.committed), t) && reply == ReplyTo(t)
  {
    if id !in s.working.recurrences {
      return Refuse(NotFound);
    }
    s.working := Logged(s.working, Entry(s.working.recurrences[id].team, RecurrenceEntity, id, Delete, user));
    s.working := s.working.(recurrences := s.working.recurrences - {id});
    s.Commit();
    reply := Done(id);
  }

  // ---------- which schedules the tables can hold ----------

  /** An accepted schedule that is not a zero-length interval. */
  predicate Advancing(lib: Lib, s: Schedule) {
    ValidSchedule(lib, s) && (s.Interval? ==> ParseInterval(s.expr).value.n > 0)
  }

  ghost predicate AllAdvancing(lib: Lib, db: Db) {
    forall r :: r in db.recurrences ==> Advancing(lib, db.recurrences[r].schedule)
  }

  predicate ZeroLength(s: Schedule) {
    s.Interval? && ParseInterval(s.expr).Some? && ParseInterval(s.expr).value.n == 0
  }

  /** The request does not ask for a zero-length interval. */
  predicate AsksForNoZero(op: Op) {
    op.Admin? ==>
      && (op.request.CreateRecurrence? ==> !ZeroLength(op.request.newRecurrence.schedule))
      && (op.request.UpdateRecurrence? && op.request.recurrencePatch.schedule.Some? ==>
            !ZeroLength(op.request.recurrencePatch.schedule.value))
  }

  /** No recurrence is new and none has a new schedule. */
  ghost predicate SchedulesKept(db: Db, next: Db) {
    forall r :: r in next.recurrences ==>
      r in db.recurrences && next.recurrences[r].schedule == db.recurrences[r].schedule
  }

  lemma RequestsKeepAdvancing(lib: Lib, db: Db, op: AdminOp)
    requires AllAdvancing(lib, db) && AsksForNoZero(Op.Admin(op))
    requires op.CreateRecurrence? || op.UpdateRecurrence? || op.DeleteRecurrence?
    ensures AllAdvancing(lib, Outcome(db, AdminTxn(lib, db, op)))
  {
    hide NextDue, ParseInterval;
    if op.CreateRecurrence? {
      if CreateRecurrenceSpec(lib, db, op.team, op.newRecurrence, op.user, op.now).Committed? {
        assert Advancing(lib, op.newRecurrence.schedule);
      }
    } else if op.UpdateRecurrence? {
      if UpdateRecurrenceSpec(lib, db, op.id, op.recurrencePatch, op.user, op.now).Committed? {
        assert op.recurrencePatch.schedule.Some? ==> Advancing(lib, op.recurrencePatch.schedule.value);
      }
    } else {
      if op.id in db.recurrences {
      }
    }
  }

  lemma OtherRequestsKeepSchedules(lib: Lib, db: Db, op: AdminOp)
    requires !op.CreateRecurrence? && !op.UpdateRecurrence? && !op.DeleteRecurrence?
    ensures SchedulesKept(db, Outcome(db, AdminTxn(lib, db, op)))
  {
    if op.CreateRule? || op.UpdateRule? || op.DeleteRule? {
      hide AdminTxn;
      SpawnRate.RuleRequestsLeave(db, op, lib);
    } else if op.CreateTeam? || op.AddUser? || op.ChangeRole? {
      hide AdminTxn;
      SpawnRate.TeamRequestsLeave(db, op, lib);
    } else {
      if AdminTxn(lib, db, op).Committed? {
      }
    }
  }

  lemma WritesKeepSchedules(lib: Lib, db: Db, op: Op)
    requires op.CreateIssue? || op.UpdateIssue?
    ensures SchedulesKept(db, Step(lib, db, op))
  {
    hide CreateIssueSpec, UpdateIssueSpec, UpdateBody, CreateProblem, CreateStateOf, UpdateProblem, TransitionProblem;
    hide RowOk, RollUp;
    if op.CreateIssue? {
      if CreateIssueSpec(lib, db, op.team, op.data, op.user).Committed? {
        var _, _ := CreateShape(lib, db, op.team, op.data, op.user);
      }
    } else {
      if UpdateIssueSpec(lib, db, op.id, op.patch, Some(op.user)).Committed? {
        var mid, _, _ := UpdateShape(lib, db, op.id, op.patch, op.user);
        RollUpOnlyMarks(mid, op.id, TargetKind(db, db.issues[op.id], op.patch));
      }
    }
  }

  lemma OthersKeepSchedules(lib: Lib, db: Db, op: Op)
    requires op.DeleteIssue? || op.Convert? || op.Spawn?
    ensures SchedulesKept(db, Step(lib, db, op))
  {
    hide NextDue, RowOk, SpawnRow, Referenced, ActiveChildren;
    if op.DeleteIssue? {
      if DeleteIssueSpec(db, op.id).Committed? {
      }
    } else if op.Convert? {
      if ConvertSpec(db, op.id).Committed? {
      }
    } else {
      if SpawnDue(lib, db, op.recurrence, op.now).Spawned? {
      }
    }
  }

  lemma StepKeepsAdvancing(lib: Lib, db: Db, op: Op)
    requires AllAdvancing(lib, db) && AsksForNoZero(op)
    ensures AllAdvancing(lib, Step(lib, db, op))
  {
    hide Advancing, AdminTxn;
    if op.Admin? {
      if op.request.CreateRecurrence? || op.request.UpdateRecurrence? || op.request.DeleteRecurrence? {
        RequestsKeepAdvancing(lib, db, op.request);
      } else {
        OtherRequestsKeepSchedules(lib, db, op.request);
      }
    } else {
      hide Step;
      if op.CreateIssue? || op.UpdateIssue? {
        WritesKeepSchedules(lib, db, op);
      } else {
        OthersKeepSchedules(lib, db, op);
      }
    }
  }

  predicate RequestsNoZero(ops: seq<Op>) {
    forall k :: 0 <= k < |ops| ==> AsksForNoZero(ops[k])
  }

  /** While no request asks for a zero-length interval, every stored schedule of every run is valid and not of
      length zero. */
  lemma {:induction false} SchedulesKeepAdvancing(lib: Lib, db: Db, ops: seq<Op>)
    requires AllAdvancing(lib, db) && RequestsNoZero(ops)
    ensures AllAdvancing(lib, Run(lib, db, ops))
    decreases |ops|
  {
    if ops != [] {
      hide Step, AllAdvancing, AsksForNoZero;
      StepKeepsAdvancing(lib, db, ops[0]);
      SchedulesKeepAdvancing(lib, Step(lib, db, ops[0]), ops[1..]);
    }
  }

  lemma AdvancingSchedulesAdvance(lib: Lib, db: Db, r: Id, now: Time)
    requires CronAdvances(lib) && AllAdvancing(lib, db)
    ensures Advances(lib, db, r, now)
  {
    hide StrictlyAdvances, ParseInterval, CronAdvances;
    if IsDue(db, r, now) {
      assert Advancing(lib, db.recurrences[r].schedule);
      AdvancesExactlyWhenNotZero(lib, db.recurrences[r].schedule);
    }
  }

  /** So every tick's advance loops end, whatever requests come between its transactions. */
  lemma {:induction false} TicksEnd(lib: Lib, db: Db, due: seq<Id>, now: Time, others: seq<seq<Op>>)
    requires CronAdvances(lib) && AllAdvancing(lib, db)
    requires forall k :: 0 <= k < |others| ==> RequestsNoZero(others[k])
    ensures TickAdvances(lib, db, due, now, others)
    decreases |due|
  {
    if due != [] {
      hide AllAdvancing, RequestsNoZero, Run, Advances, SpawnDue, CronAdvances;
      assert RequestsNoZero(Head(others)) by { NoRequestsAskForNoZero(); }
      var before := Run(lib, db, Head(others));
      SchedulesKeepAdvancing(lib, db, Head(others));
      AdvancingSchedulesAdvance(lib, before, due[0], now);
      StepKeepsAdvancing(lib, before, Spawn(due[0], now));
      TicksEnd(lib, SpawnOutcome(before, SpawnDue(lib, before, due[0], now)), due[1..], now, Tail(others));
    }
  }

  lemma NoRequestsAskForNoZero()
    ensures RequestsNoZero([])
  {
  }

  /** After a schedule edit that names no due time the recurrence is due at once exactly when it is active and its
      interval has length zero. */
  lemma RescheduledPastNow(lib: Lib, db: Db, id: Id, p: RecurrencePatch, user: Id, now: Time)
    requires CronAdvances(lib) && p.schedule.Some? && p.nextDue.None?
    requires UpdateRecurrenceSpec(lib, db, id, p, user, now).Committed?
    ensures var next := UpdateRecurrenceSpec(lib, db, id, p, user, now).db;
      && id in next.recurrences
      && (IsDue(next, id, now) <==> next.recurrences[id].active && ZeroLength(p.schedule.value))
  {
    hide ParseInterval;
    var s := p.schedule.value;
    if s.Interval? {
      AddPeriodAdvances(now, ParseInterval(s.expr).value);
      hide AddPeriod;
    } else {
      assert lib.cron(s.expr, now).Some? ==> lib.cron(s.expr, now).value > now;
    }
  }
}
