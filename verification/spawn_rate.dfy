/** How often one unedited recurrence can spawn, whatever ticks and other requests a run holds. */
module SpawnRate {
  import opened Values
  import opened Store
  import opened Queries
  import opened IssueSpec
  import opened AdminSpec
  import opened SpawnSpec
  import opened Schedules
  import opened Runs
  import opened Shapes

  /** The times at which the run spawns from r. */
  function SpawnTimes(lib: Lib, db: Db, ops: seq<Op>, r: Id): seq<Time>
    decreases |ops|
  {
    if ops == [] then [] else
      var spawns := ops[0].Spawn? && ops[0].recurrence == r && SpawnDue(lib, db, r, ops[0].now).Spawned?;
      (if spawns then [ops[0].now] else []) + SpawnTimes(lib, Step(lib, db, ops[0]), ops[1..], r)
  }

  /** The request neither edits nor deletes r. */
  predicate LeavesAlone(op: Op, r: Id) {
    op.Admin? ==>
      && !(op.request.UpdateRecurrence? && op.request.id == r)
      && !(op.request.DeleteRecurrence? && op.request.id == r)
  }

  predicate NeverEdited(ops: seq<Op>, r: Id) {
    forall k :: 0 <= k < |ops| ==> LeavesAlone(ops[k], r)
  }

  lemma RecurrenceRequestsLeave(lib: Lib, db: Db, op: AdminOp, r: Id)
    requires FreshIds(db) && r in db.recurrences && LeavesAlone(Op.Admin(op), r)
    requires op.CreateRecurrence? || op.UpdateRecurrence? || op.DeleteRecurrence?
    ensures var next := Outcome(db, AdminTxn(lib, db, op));
      r in next.recurrences && next.recurrences[r] == db.recurrences[r]
  {
    hide NextDue, ValidSchedule;
    if op.CreateRecurrence? {
      if CreateRecurrenceSpec(lib, db, op.team, op.newRecurrence, op.user, op.now).Committed? {
      }
    } else if op.UpdateRecurrence? {
      if UpdateRecurrenceSpec(lib, db, op.id, op.recurrencePatch, op.user, op.now).Committed? {
      }
    } else {
      if op.id in db.recurrences {
      }
    }
  }

  lemma RuleRequestsLeave(db: Db, op: AdminOp, lib: Lib)
    requires op.CreateRule? || op.UpdateRule? || op.DeleteRule?
    ensures Outcome(db, AdminTxn(lib, db, op)).recurrences == db.recurrences
  {
    hide ValidActions, RuleAt, PatchedRule;
    if AdminTxn(lib, db, op).Committed? {
      if op.actor.Some? {
      }
    }
  }

  lemma JoinLeaves(db: Db, team: Id, user: Id, actor: Option<Id>)
    ensures JoinTeam(db, team, user, actor).recurrences == db.recurrences
  {
    if (team, user) !in db.members {
      if actor.Some? {
      }
    }
  }

  lemma {:induction false} SeedLeaves(db: Db, team: Id, seeds: seq<(string, Transitions.StateType)>)
    ensures SeedStates(db, team, seeds).recurrences == db.recurrences
    decreases |seeds|
  {
    if seeds != [] {
      SeedLeaves(db.(nextId := db.nextId + 1,
                     states := db.states[db.nextId := WorkflowState(team, seeds[0].0, seeds[0].1, 0)]), team,
                       seeds[1..]);
    }
  }

  lemma TeamRequestsLeave(db: Db, op: AdminOp, lib: Lib)
    requires (op.CreateTeam? || op.AddUser? || op.ChangeRole?)
    ensures Outcome(db, AdminTxn(lib, db, op)).recurrences == db.recurrences
  {
    hide SeedStates, JoinTeam;
    if op.CreateTeam? {
      SeedLeaves(db.(nextId := db.nextId + 1, teams := db.teams[db.nextId := Team(op.key, true)]), db.nextId,
        DEFAULT_STATES);
      if CreateTeamSpec(db, op.key, op.creator).Committed? {
        if op.creator.Some? {
        }
      }
    } else if op.AddUser? {
      var known := UsersWithEmail(db, op.email);
      if !AddUserSpec(db, op.team, op.name, op.email, op.actor).Committed? {
      } else if known == {} {
        JoinLeaves(db.(nextId := db.nextId + 1, users := db.users[db.nextId := User(op.name, op.email)]), op.team,
          db.nextId, op.actor);
      } else {
        JoinLeaves(db, op.team, Least(known), op.actor);
      }
    } else {
      if ChangeRoleSpec(db, op.team, op.user, op.role, op.acting).Committed? {
      }
    }
  }

  lemma AdminLeavesRecurrence(lib: Lib, db: Db, op: AdminOp, r: Id)
    requires FreshIds(db) && r in db.recurrences && LeavesAlone(Op.Admin(op), r)
    ensures var next := Outcome(db, AdminTxn(lib, db, op));
      r in next.recurrences && next.recurrences[r] == db.recurrences[r]
  {
    if op.CreateRecurrence? || op.UpdateRecurrence? || op.DeleteRecurrence? {
      hide AdminTxn;
      RecurrenceRequestsLeave(lib, db, op, r);
    } else if op.CreateRule? || op.UpdateRule? || op.DeleteRule? {
      hide AdminTxn;
      RuleRequestsLeave(db, op, lib);
    } else if op.CreateTeam? || op.AddUser? || op.ChangeRole? {
      hide AdminTxn;
      TeamRequestsLeave(db, op, lib);
    } else {
      if AdminTxn(lib, db, op).Committed? {
      }
    }
  }

  lemma OthersLeaveRecurrence(lib: Lib, db: Db, op: Op, r: Id)
    requires FreshIds(db) && r in db.recurrences && LeavesAlone(op, r)
    requires !(op.Spawn? && op.recurrence == r)
    ensures var next := Step(lib, db, op); r in next.recurrences && next.recurrences[r] == db.recurrences[r]
  {
    hide NextDue, RowOk, AdminTxn, SpawnRow, Referenced, CreateIssueSpec, CreateProblem, CreateStateOf, UpdateIssueSpec;
    hide UpdateBody, UpdateProblem, TransitionProblem, RollUp;
    if op.Admin? {
      AdminLeavesRecurrence(lib, db, op.request, r);
    } else if op.DeleteIssue? {
      if DeleteIssueSpec(db, op.id).Committed? {
      }
    } else if op.Convert? {
      if ConvertSpec(db, op.id).Committed? {
      }
    } else if op.Spawn? {
      if SpawnDue(lib, db, op.recurrence, op.now).Spawned? {
      }
    } else if op.UpdateIssue? {
      if UpdateIssueSpec(lib, db, op.id, op.patch, Some(op.user)).Committed? {
        var mid, _, _ := UpdateShape(lib, db, op.id, op.patch, op.user);
        RollUpOnlyMarks(mid, op.id, TargetKind(db, db.issues[op.id], op.patch));
      }
    } else {
      if CreateIssueSpec(lib, db, op.team, op.data, op.user).Committed? {
        var _, _ := CreateShape(lib, db, op.team, op.data, op.user);
      }
    }
  }

  /** The interval's expression stands for a fixed, positive number of days or weeks. */
  predicate FixedPeriod(s: Schedule, p: Time) {
    s.Interval? && ParseInterval(s.expr).Some? && !ParseInterval(s.expr).value.per.Months? &&
    p == StepOf(ParseInterval(s.expr).value) && p > 0
  }

  /** A spawn sets the next due time one period after now; any other step leaves the recurrence as it was. */
  lemma StepOnRecurrence(lib: Lib, db: Db, op: Op, r: Id, p: Time)
    requires FreshIds(db) && r in db.recurrences && LeavesAlone(op, r) && FixedPeriod(db.recurrences[r].schedule, p)
    ensures r in Step(lib, db, op).recurrences
    ensures var rec, next := db.recurrences[r], Step(lib, db, op).recurrences[r];
      next.schedule == rec.schedule &&
      if op.Spawn? && op.recurrence == r && SpawnDue(lib, db, r, op.now).Spawned?
      then rec.nextDue <= op.now && next.nextDue == op.now + p
      else next.nextDue == rec.nextDue
  {
    if op.Spawn? && op.recurrence == r {
      hide RowOk, SpawnRow;
      NextDueIsOneStep(lib, db.recurrences[r].schedule.expr, op.now);
      if SpawnDue(lib, db, r, op.now).Spawned? {
      }
    } else {
      hide Step;
      OthersLeaveRecurrence(lib, db, op, r);
    }
  }

  predicate SpacedBy(ts: seq<Time>, p: Time) {
    forall k :: 0 < k < |ts| ==> ts[k - 1] + p <= ts[k]
  }

  /** Consecutive spawns of an unedited recurrence of period p are at least p apart, and none comes before its due
      time: over every run, in whatever order the clock readings come and however many periods were missed. */
  lemma {:induction false} SpawnsAreSpaced(lib: Lib, db: Db, ops: seq<Op>, r: Id, p: Time)
    requires FreshIds(db) && r in db.recurrences && NeverEdited(ops, r) && FixedPeriod(db.recurrences[r].schedule, p)
    ensures SpacedBy(SpawnTimes(lib, db, ops, r), p)
    ensures var ts := SpawnTimes(lib, db, ops, r); ts != [] ==> db.recurrences[r].nextDue <= ts[0]
    decreases |ops|
  {
    if ops != [] {
      hide Step, FreshIds, SpawnDue, FixedPeriod;
      assert LeavesAlone(ops[0], r);
      var next := Step(lib, db, ops[0]);
      StepOnRecurrence(lib, db, ops[0], r, p);
      StepIds(lib, db, ops[0]);
      TailNeverEdited(ops, r);
      SpawnsAreSpaced(lib, next, ops[1..], r, p);
      var rest := SpawnTimes(lib, next, ops[1..], r);
      if ops[0].Spawn? && ops[0].recurrence == r && SpawnDue(lib, db, r, ops[0].now).Spawned? {
        SpacedCons(ops[0].now, rest, p);
      } else {
        assert [] + rest == rest;
      }
    }
  }

  lemma TailNeverEdited(ops: seq<Op>, r: Id)
    requires NeverEdited(ops, r) && ops != []
    ensures NeverEdited(ops[1..], r)
  {
  }

  lemma SpacedCons(t: Time, rest: seq<Time>, p: Time)
    requires SpacedBy(rest, p) && (rest != [] ==> t + p <= rest[0])
    ensures SpacedBy([t] + rest, p)
  {
    var ts := [t] + rest;
    forall k | 0 < k < |ts| ensures ts[k - 1] + p <= ts[k] {
      assert ts[k] == rest[k - 1] && (k > 1 ==> ts[k - 1] == rest[k - 2]);
    }
  }

  lemma {:induction false} SpacedFar(ts: seq<Time>, p: Time, i: nat, j: nat)
    requires SpacedBy(ts, p) && i <= j < |ts|
    ensures ts[i] + (j - i) * p <= ts[j]
    decreases j - i
  {
    if i < j {
      SpacedFar(ts, p, i, j - 1);
      assert (j - i) * p == (j - 1 - i) * p + p;
    }
  }

  /** Any window of length L holds at most floor(L / p) + 1 spawns: those numbered i to j all lie in it. */
  lemma SpawnsPerWindow(lib: Lib, db: Db, ops: seq<Op>, r: Id, p: Time, i: nat, j: nat, L: nat)
    requires FreshIds(db) && r in db.recurrences && NeverEdited(ops, r) && FixedPeriod(db.recurrences[r].schedule, p)
    requires i <= j < |SpawnTimes(lib, db, ops, r)|
    requires SpawnTimes(lib, db, ops, r)[j] <= SpawnTimes(lib, db, ops, r)[i] + L
    ensures j - i + 1 <= L / p + 1
  {
    hide SpawnTimes, FreshIds, NeverEdited, SpacedBy;
    SpawnsAreSpaced(lib, db, ops, r, p);
    SpacedFar(SpawnTimes(lib, db, ops, r), p, i, j);
    QuotientAtLeast(j - i, L, p);
  }

  lemma QuotientAtLeast(n: nat, L: nat, p: nat)
    requires p > 0 && n * p <= L
    ensures n <= L / p
  {
    var q := L / p;
    assert L < (q + 1) * p;
    var more := n - (q + 1);
    assert n * p == (q + 1) * p + more * p;
    assert more >= 0 ==> more * p >= 0;
  }
}
