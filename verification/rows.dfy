/** Every stored issue row fits its columns: types, widths, NOT NULL and foreign keys, in every state of every run. */
module Rows {
  import opened Values
  import opened Transitions
  import opened Store
  import opened IssueSpec
  import opened AdminSpec
  import opened SpawnSpec
  import opened Schedules
  import opened Runs
  import opened Shapes

  ghost predicate RowsFit(db: Db) {
    forall i :: i in db.issues ==> RowOk(db, db.issues[i])
  }

  lemma FittingRow(db: Db, i: Id, c: Column)
    requires i in db.issues && RowsFit(db)
    ensures Fits(db, c, db.issues[i].Get(c))
  {
    assert RowOk(db, db.issues[i]);
  }

  /** A stored row keeps fitting while what it refers to stays. */
  lemma RowFitsLater(db: Db, next: Db, i: Id)
    requires i in db.issues && RowOk(db, db.issues[i]) && GrownReferences(db, next)
    requires db.issues[i].Link(ParentId).Some? && db.issues[i].Link(ParentId).value in db.issues ==>
      db.issues[i].Link(ParentId).value in next.issues
    ensures RowOk(next, db.issues[i])
  {
    var row := db.issues[i];
    forall c: Column ensures Fits(next, c, row.Get(c)) {
      assert Fits(db, c, row.Get(c));
      assert row.Link(ProjectId).Some? ==> ProjectInUse(db, row.Link(ProjectId).value);
    }
  }

  lemma SameIsGrown(db: Db, next: Db)
    requires SameReferences(db, next) && db.nextId <= next.nextId
    ensures GrownReferences(db, next)
  {
    hide ProjectInUse;
  }

  lemma CreatedRowsFit(lib: Lib, db: Db, team: Id, data: NewIssue, user: Id)
    requires RowsFit(db) && FreshIds(db) && CreateIssueSpec(lib, db, team, data, user).Committed?
    ensures RowsFit(CreateIssueSpec(lib, db, team, data, user).db)
  {
    hide CreateIssueSpec, CreateProblem, CreateStateOf, RowOk, FieldsAllowed, NewRow;
    var _, _ := CreateShape(lib, db, team, data, user);
    var next := CreateIssueSpec(lib, db, team, data, user).db;
    SameIsGrown(db, next);
    forall i | i in next.issues ensures RowOk(next, next.issues[i]) {
      if i != db.nextId {
        RowFitsLater(db, next, i);
      }
    }
  }

  lemma UpdatedRowsFit(lib: Lib, db: Db, id: Id, patch: Patch, user: Id)
    requires RowsFit(db) && UpdateIssueSpec(lib, db, id, patch, Some(user)).Committed?
    ensures RowsFit(UpdateIssueSpec(lib, db, id, patch, Some(user)).db)
  {
    hide UpdateIssueSpec, UpdateBody, UpdateProblem, TransitionProblem, RowOk, RollUp, FieldsAllowed, RowsFit;
    hide TargetKind, DiffOf;
    var mid, fields, labels := UpdateShape(lib, db, id, patch, user);
    BodyRowsFit(db, mid, id, db.issues[id].cells + patch + fields, labels);
    RollUpRowsFit(mid, id, TargetKind(db, db.issues[id], patch));
  }

  lemma BodyRowsFit(db: Db, mid: Db, id: Id, cells: map<Column, Value>, labels: set<Id>)
    requires RowsFit(db) && id in db.issues && ChangesIssue(db, mid, id, cells, labels) && RowOk(mid, mid.issues[id])
    ensures RowsFit(mid)
  {
    hide RowOk;
    SameIsGrown(db, mid);
    forall i | i in mid.issues ensures RowOk(mid, mid.issues[i]) {
      if i != id {
        RowFitsLater(db, mid, i);
      }
    }
  }

  lemma RollUpRowsFit(db: Db, id: Id, target: Option<StateType>)
    requires RowsFit(db) && id in db.issues
    ensures RowsFit(RollUp(db, id, target))
  {
    RollUpShape(db, id, target);
    var next := RollUp(db, id, target);
    hide RollUp;
    if next != db {
      var p :| p in db.issues && next == db.(issues := db.issues[p := MarkDone(db.issues[p])]);
      MarkedRowsFit(db, p);
    }
  }

  lemma MarkedRowsFit(db: Db, p: Id)
    requires RowsFit(db) && p in db.issues
    ensures RowsFit(db.(issues := db.issues[p := MarkDone(db.issues[p])]))
  {
    var next := db.(issues := db.issues[p := MarkDone(db.issues[p])]);
    forall i, c: Column | i in next.issues ensures Fits(next, c, next.issues[i].Get(c)) {
      FittingRow(db, i, c);
    }
  }

  lemma DeletedRowsFit(db: Db, id: Id)
    requires RowsFit(db)
    ensures RowsFit(Outcome(db, DeleteIssueSpec(db, id)))
  {
    hide ActiveChildren, RowOk;
    var next := Outcome(db, DeleteIssueSpec(db, id));
    if DeleteIssueSpec(db, id).Committed? {
      SameIsGrown(db, next);
      forall i | i in next.issues ensures RowOk(next, next.issues[i]) {
        assert db.issues[i].Link(ParentId) != Some(id);
        RowFitsLater(db, next, i);
      }
    }
  }

  lemma ConvertedRowsFit(db: Db, id: Id)
    requires RowsFit(db)
    ensures RowsFit(Outcome(db, ConvertSpec(db, id)))
  {
    hide RowOk;
    var next := Outcome(db, ConvertSpec(db, id));
    if ConvertSpec(db, id).Committed? {
      forall i | i in next.issues ensures RowOk(next, next.issues[i]) {
        ConvertedRowFits(db, next, i);
      }
    }
  }

  lemma ConvertedRowFits(db: Db, next: Db, i: Id)
    requires RowsFit(db) && i in db.issues && next.states == db.states && next.users == db.users
    requires next.issues.Keys == db.issues.Keys && db.projects.Keys <= next.projects.Keys
    requires forall c :: c != ProjectId ==> next.issues[i].Get(c) == db.issues[i].Get(c)
    requires var project := next.issues[i].Get(ProjectId);
      project == db.issues[i].Get(ProjectId) || Fits(next, ProjectId, project)
    ensures RowOk(next, next.issues[i])
  {
    forall c: Column ensures Fits(next, c, next.issues[i].Get(c)) {
      FittingRow(db, i, c);
    }
  }

  lemma SpawnedRowsFit(lib: Lib, db: Db, r: Id, now: Time)
    requires RowsFit(db) && FreshIds(db)
    ensures RowsFit(SpawnOutcome(db, SpawnDue(lib, db, r, now)))
  {
    hide NextDue, SpawnRow, RowOk;
    var t := SpawnDue(lib, db, r, now);
    if t.Spawned? {
      SameIsGrown(db, t.db);
      forall i | i in t.db.issues ensures RowOk(t.db, t.db.issues[i]) {
        if i == db.nextId {
          NewRowFitsAfterwards(db, t.db, t.db.issues[i]);
        } else {
          RowFitsLater(db, t.db, i);
        }
      }
    }
  }

  lemma NewRowFitsAfterwards(db: Db, next: Db, row: Issue)
    requires RowOk(db, row) && SameReferences(db, next) && db.issues.Keys <= next.issues.Keys
    ensures RowOk(next, row)
  {
    forall c: Column ensures Fits(next, c, row.Get(c)) {
      assert Fits(db, c, row.Get(c));
    }
  }

  lemma AdminRowsFit(db: Db, next: Db)
    requires RowsFit(db) && AdminShape(db, next)
    ensures RowsFit(next)
  {
    hide RowOk, GrownReferences;
    forall i | i in next.issues ensures RowOk(next, next.issues[i]) {
      RowFitsLater(db, next, i);
    }
  }

  lemma StepRowsFit(lib: Lib, db: Db, op: Op)
    requires RowsFit(db) && FreshIds(db)
    ensures RowsFit(Step(lib, db, op))
  {
    hide RowsFit, FreshIds, CreateIssueSpec, UpdateIssueSpec, DeleteIssueSpec, ConvertSpec, SpawnDue, AdminTxn;
    match op
    case CreateIssue(team, data, user) =>
      if CreateIssueSpec(lib, db, team, data, user).Committed? {
        CreatedRowsFit(lib, db, team, data, user);
      }
    case UpdateIssue(id, patch, user) =>
      if UpdateIssueSpec(lib, db, id, patch, Some(user)).Committed? {
        UpdatedRowsFit(lib, db, id, patch, user);
      }
    case DeleteIssue(id) => DeletedRowsFit(db, id);
    case Convert(id) => ConvertedRowsFit(db, id);
    case Spawn(r, now) => SpawnedRowsFit(lib, db, r, now);
    case Admin(request) =>
      AdminStepShape(lib, db, request);
      AdminRowsFit(db, Step(lib, db, op));
  }

  /** In particular no run leaves an issue without a state, or with a parent, project or assignee that is gone. */
  lemma {:induction false} RowsStayFit(lib: Lib, db: Db, ops: seq<Op>)
    requires RowsFit(db) && FreshIds(db)
    ensures RowsFit(Run(lib, db, ops))
    decreases |ops|
  {
    if ops != [] {
      hide Step, RowsFit;
      StepRowsFit(lib, db, ops[0]);
      StepIds(lib, db, ops[0]);
      RowsStayFit(lib, Step(lib, db, ops[0]), ops[1..]);
    }
  }
}
