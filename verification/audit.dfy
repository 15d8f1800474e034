/** The audit log replays: folding an issue's UPDATE diffs forwards gives its later values, backwards its earlier
    ones. */
module Audit {
  import opened Values
  import opened Store
  import opened Evaluator
  import opened IssueSpec
  import opened SpawnSpec
  import opened Schedules
  import opened Runs
  import opened Shapes
  import opened Tenancy

  predicate Concerns(e: AuditEntry, i: Id, c: Column) {
    e.entity.IssueEntity? && e.action.Update? && e.entityId == i && c in e.diff
  }

  /** The value of a column after the logged updates, from its value before them. */
  function Replay(v: Value, log: seq<AuditEntry>, i: Id, c: Column): Value
    decreases |log|
  {
    if log == [] then v
    else Replay(if Concerns(log[0], i, c) then log[0].diff[c].after else v, log[1..], i, c)
  }

  /** The value of a column before the logged updates, from its value after them. */
  function Undo(v: Value, log: seq<AuditEntry>, i: Id, c: Column): Value {
    if log == [] then v
    else if Concerns(log[0], i, c) then log[0].diff[c].before
    else Undo(v, log[1..], i, c)
  }

  /** The columns the log covers by itself, and those it covers as long as no rule of the issue's team sets them. */
  predicate AlwaysReplayable(c: Column) {
    c == Title || c == Description || c == Kind || c == ParentId || c == CustomFields || c == Position
  }

  predicate ReplayableUnlessSet(c: Column) {
    c == StateId || c == Priority || c == Estimate || c == AssigneeId || c == ProjectId
  }

  /** Converting an issue to a project is the one request that writes a column of an issue, its project, and logs
      nothing. */
  predicate Converts(op: Op, i: Id) {
    op.Convert? && op.id == i
  }

  predicate NeverConverted(ops: seq<Op>, i: Id) {
    forall k :: 0 <= k < |ops| ==> !Converts(ops[k], i)
  }

  ghost predicate Replayable(db: Db, team: Id, c: Column) {
    AlwaysReplayable(c) || (ReplayableUnlessSet(c) && TeamSetsNone(db.rules, team, c))
  }

  /** The log only grew, and what it grew by takes the issue's old value to the new one and back. */
  ghost predicate Replays(db: Db, next: Db, i: Id, c: Column)
    requires i in db.issues && i in next.issues
  {
    db.audit <= next.audit &&
    var log := next.audit[|db.audit|..];
    && Replay(db.issues[i].Get(c), log, i, c) == next.issues[i].Get(c)
    && Undo(next.issues[i].Get(c), log, i, c) == db.issues[i].Get(c)
  }

  lemma {:induction false} QuietReplay(v: Value, log: seq<AuditEntry>, i: Id, c: Column)
    requires forall k :: 0 <= k < |log| ==> !Concerns(log[k], i, c)
    ensures Replay(v, log, i, c) == v && Undo(v, log, i, c) == v
  {
    if log != [] {
      QuietReplay(v, log[1..], i, c);
    }
  }

  lemma {:induction false} ReplayConcat(v: Value, a: seq<AuditEntry>, b: seq<AuditEntry>, i: Id, c: Column)
    ensures Replay(v, a + b, i, c) == Replay(Replay(v, a, i, c), b, i, c)
    ensures Undo(v, a + b, i, c) == Undo(Undo(v, b, i, c), a, i, c)
    decreases |a|
  {
    if a == [] {
      assert a + b == b;
    } else {
      assert (a + b)[0] == a[0] && (a + b)[1..] == a[1..] + b;
      ReplayConcat(if Concerns(a[0], i, c) then a[0].diff[c].after else v, a[1..], b, i, c);
      ReplayConcat(v, a[1..], b, i, c);
    }
  }

  lemma ReplaysCompose(db: Db, mid: Db, next: Db, i: Id, c: Column)
    requires i in db.issues && i in mid.issues && i in next.issues
    requires Replays(db, mid, i, c) && Replays(mid, next, i, c)
    ensures Replays(db, next, i, c)
  {
    var a, b := mid.audit[|db.audit|..], next.audit[|mid.audit|..];
    assert next.audit[|db.audit|..] == a + b;
    ReplayConcat(db.issues[i].Get(c), a, b, i, c);
    ReplayConcat(next.issues[i].Get(c), a, b, i, c);
  }

  /** A step that leaves the column alone and logs nothing about it. */
  lemma Untouched(db: Db, next: Db, i: Id, c: Column)
    requires i in db.issues && i in next.issues && next.issues[i].Get(c) == db.issues[i].Get(c)
    requires db.audit <= next.audit
    requires forall k :: |db.audit| <= k < |next.audit| ==> !Concerns(next.audit[k], i, c)
    ensures Replays(db, next, i, c)
  {
    var log := next.audit[|db.audit|..];
    assert forall k :: 0 <= k < |log| ==> log[k] == next.audit[|db.audit| + k];
    QuietReplay(db.issues[i].Get(c), log, i, c);
  }

  // ---------- update ----------

  lemma BodyReplays(db: Db, mid: Db, id: Id, patch: Patch, user: Id, fields: map<Column, Value>, labels: set<Id>, i: Id,
                    c: Column)
    requires i in db.issues && id in db.issues && (i == id ==> c !in fields)
    requires ChangesIssue(db, mid, id, db.issues[id].cells + patch + fields, labels)
    requires mid.audit == db.audit + [IssueEntry(db.issues[id].team, id, Update, user, DiffOf(db.issues[id], patch))]
    ensures i in mid.issues && Replays(db, mid, i, c)
  {
    var row := db.issues[id];
    var entry := IssueEntry(row.team, id, Update, user, DiffOf(row, patch));
    OverlaidCell(row.cells + patch, fields, row, c);
    OverlaidCell(row.cells, patch, row, c);
    assert i != id ==> mid.issues[i] == db.issues[i];
    if i == id && c in DiffOf(row, patch) {
      var log := mid.audit[|db.audit|..];
      assert log == [entry] && log[1..] == [];
    } else {
      Untouched(db, mid, i, c);
    }
  }

  lemma NotWrittenByRules(db: Db, team: Id, fields: map<Column, Value>, c: Column)
    requires Replayable(db, team, c) && FieldsAllowed(db, team, fields)
    ensures c !in fields
  {
  }

  lemma UpdateReplays(lib: Lib, db: Db, id: Id, patch: Patch, user: Id, i: Id, c: Column)
    requires i in db.issues && Replayable(db, db.issues[i].team, c)
    requires UpdateIssueSpec(lib, db, id, patch, Some(user)).Committed?
    ensures var next := UpdateIssueSpec(lib, db, id, patch, Some(user)).db; i in next.issues && Replays(db, next, i, c)
  {
    hide UpdateIssueSpec, UpdateBody, UpdateProblem, TransitionProblem, RowOk, RollUp, Replays, FieldsAllowed;
    var mid, fields, labels := UpdateShape(lib, db, id, patch, user);
    var target := TargetKind(db, db.issues[id], patch);
    if i == id {
      NotWrittenByRules(db, db.issues[id].team, fields, c);
    }
    BodyReplays(db, mid, id, patch, user, fields, labels, i, c);
    RollUpOnlyMarks(mid, id, target);
    MarkReplays(mid, RollUp(mid, id, target), i, c);
    hide ChangesIssue, DiffOf;
    ReplaysCompose(db, mid, RollUp(mid, id, target), i, c);
  }

  lemma MarkReplays(db: Db, next: Db, i: Id, c: Column)
    requires i in db.issues && c != TriageContext
    requires OnlyMarks(db, next)
    ensures i in next.issues && Replays(db, next, i, c)
  {
    Untouched(db, next, i, c);
  }

  // ---------- the other steps ----------

  lemma CreateReplays(lib: Lib, db: Db, team: Id, data: NewIssue, user: Id, i: Id, c: Column)
    requires FreshIds(db) && i in db.issues && CreateIssueSpec(lib, db, team, data, user).Committed?
    ensures var next := CreateIssueSpec(lib, db, team, data, user).db; i in next.issues && Replays(db, next, i, c)
  {
    hide CreateIssueSpec, CreateProblem, RowOk, CreateStateOf;
    var fields, labels := CreateShape(lib, db, team, data, user);
    Untouched(db, CreateIssueSpec(lib, db, team, data, user).db, i, c);
  }

  lemma OtherStepsKeepProject(lib: Lib, db: Db, op: Op, i: Id)
    requires FreshIds(db) && i in db.issues && !op.CreateIssue? && !op.UpdateIssue? && !Converts(op, i)
    requires i in Step(lib, db, op).issues
    ensures Step(lib, db, op).issues[i].Get(ProjectId) == db.issues[i].Get(ProjectId)
  {
    hide AdminTxn, NextDue, RowOk, SpawnRow, Referenced, ActiveChildren;
    if op.Admin? {
      AdminStepShape(lib, db, op.request);
    } else if op.DeleteIssue? {
      if DeleteIssueSpec(db, op.id).Committed? {
      }
    } else if op.Convert? {
      if ConvertSpec(db, op.id).Committed? {
      }
    } else {
      if SpawnDue(lib, db, op.recurrence, op.now).Spawned? {
      }
    }
  }

  lemma OtherStepsReplay(lib: Lib, db: Db, op: Op, i: Id, c: Column)
    requires FreshIds(db) && i in db.issues && (c == ProjectId ==> !Converts(op, i)) && !op.CreateIssue?
      && !op.UpdateIssue?
    requires i in Step(lib, db, op).issues
    ensures Replays(db, Step(lib, db, op), i, c)
  {
    hide Step, Replays, Replay, Undo;
    OtherSteps(lib, db, op);
    if c == ProjectId {
      OtherStepsKeepProject(lib, db, op, i);
    }
    Untouched(db, Step(lib, db, op), i, c);
  }

  lemma StepReplays(lib: Lib, db: Db, op: Op, i: Id, c: Column)
    requires FreshIds(db) && i in db.issues && i in Step(lib, db, op).issues && Replayable(db, db.issues[i].team, c)
    requires c == ProjectId ==> !Converts(op, i)
    ensures Replays(db, Step(lib, db, op), i, c)
  {
    hide CreateIssueSpec, UpdateIssueSpec, Replays;
    match op
    case CreateIssue(team, data, user) =>
      if CreateIssueSpec(lib, db, team, data, user).Committed? {
        CreateReplays(lib, db, team, data, user, i, c);
      } else {
        Untouched(db, db, i, c);
      }
    case UpdateIssue(id, patch, user) =>
      if UpdateIssueSpec(lib, db, id, patch, Some(user)).Committed? {
        UpdateReplays(lib, db, id, patch, user, i, c);
      } else {
        Untouched(db, db, i, c);
      }
    case _ =>
      hide Step;
      OtherStepsReplay(lib, db, op, i, c);
  }

  /** Between any two points of any run at which the issue exists: title, description, type, parent, custom fields and
      position always; state, priority, estimate, assignee and project while no rule of the issue's team sets them,
      the project if the issue is not converted. */
  lemma {:induction false} RunReplays(lib: Lib, db: Db, ops: seq<Op>, i: Id, c: Column)
    requires FreshIds(db) && i in db.issues && i in Run(lib, db, ops).issues
    requires var team := db.issues[i].team;
      AlwaysReplayable(c) || (ReplayableUnlessSet(c)
        && Throughout(lib, db, ops, (d: Db) => TeamSetsNone(d.rules, team, c)))
    requires c == ProjectId ==> NeverConverted(ops, i)
    ensures Replays(db, Run(lib, db, ops), i, c)
    decreases |ops|
  {
    if ops == [] {
      Untouched(db, db, i, c);
    } else {
      hide Step, Replays;
      var mid := Step(lib, db, ops[0]);
      StepIds(lib, db, ops[0]);
      TeamNeverChanges(lib, mid, ops[1..], i);
      assert c == ProjectId ==> !Converts(ops[0], i) && NeverConverted(ops[1..], i);
      StepReplays(lib, db, ops[0], i, c);
      RunReplays(lib, mid, ops[1..], i, c);
      ReplaysCompose(db, mid, Run(lib, db, ops), i, c);
    }
  }

  /** A conversion is not in the log: neither direction of the fold connects the issue's project before and after it. */
  lemma ConversionIsNotLogged(db: Db, i: Id)
    requires FreshIds(db) && i in db.issues && Fits(db, ProjectId, db.issues[i].Get(ProjectId))
    requires ConvertSpec(db, i).Committed?
    ensures var next := ConvertSpec(db, i).db;
      && i in next.issues && next.audit == db.audit && next.issues[i].Get(ProjectId) != db.issues[i].Get(ProjectId)
      && !Replays(db, next, i, ProjectId)
  {
    var next := ConvertSpec(db, i).db;
    assert next.audit[|db.audit|..] == [];
  }

  // ---------- what the log cannot hold ----------

  /** An acting user's change of the due date never commits: the diff would hold a date, and JSON has none. */
  lemma DueDateChangeNeverCommits(lib: Lib, db: Db, id: Id, patch: Patch, user: Id)
    requires id in db.issues && DueDate in patch
    requires patch[DueDate] != db.issues[id].Get(DueDate) && (patch[DueDate].Date? || db.issues[id].Get(DueDate).Date?)
    ensures !UpdateIssueSpec(lib, db, id, patch, Some(user)).Committed?
    ensures Outcome(db, UpdateIssueSpec(lib, db, id, patch, Some(user))) == db
  {
    hide EvaluateInOrder, RowOk, ApplyFirings, UpdateProblem, TransitionProblem, RollUp;
    assert DueDate in DiffOf(db.issues[id], patch);
  }

  predicate ChangesDueDate(row: Issue, patch: Patch) {
    DueDate in patch && patch[DueDate] != row.Get(DueDate)
  }

  /** For rows that fit before and after the patch, the diff can be logged exactly when the due date stays as it is. */
  lemma OnlyDueDatesCannotBeLogged(db: Db, id: Id, patch: Patch)
    requires id in db.issues && RowOk(db, db.issues[id])
    requires RowOk(Patched(db, id, patch), Patched(db, id, patch).issues[id])
    ensures Serializable(DiffOf(db.issues[id], patch)) <==> !ChangesDueDate(db.issues[id], patch)
  {
    var row, mid := db.issues[id], Patched(db, id, patch);
    assert ChangesDueDate(row, patch) <==> DueDate in DiffOf(row, patch);
    forall c | c in DiffOf(row, patch)
      ensures c == DueDate <==> DiffOf(row, patch)[c].before.Date? || DiffOf(row, patch)[c].after.Date?
    {
      OverlaidCell(row.cells, patch, row, c);
      assert Fits(db, c, row.Get(c)) && Fits(mid, c, mid.issues[id].Get(c));
    }
  }

  /** An acting user's update that the rules accept and whose effects apply commits exactly when it leaves the due date
      as it is. */
  lemma AcceptedUpdateCommitsUnlessDueDateChanges(lib: Lib, db: Db, id: Id, patch: Patch, user: Id,
    firings: seq<Firing>)
    requires id in db.issues && RowOk(db, db.issues[id])
    requires RowOk(Patched(db, id, patch), Patched(db, id, patch).issues[id])
    requires ApplyFirings(lib, Patched(db, id, patch), id, firings, user).Ok?
    ensures var t := UpdateAccepted(lib, db, id, patch, Some(user), firings);
      && (t.Committed? <==> !ChangesDueDate(db.issues[id], patch))
      && (ChangesDueDate(db.issues[id], patch) ==> t == Crashed(NotSerializable))
  {
    OnlyDueDatesCannotBeLogged(db, id, patch);
    hide RowOk, ApplyFirings, Serializable, DiffOf;
  }
}
