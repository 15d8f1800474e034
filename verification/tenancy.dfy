/** Tenant isolation: what an issue refers to belongs to its team, in every state of every run. */
module Tenancy {
  import opened Values
  import opened Transitions
  import opened Store
  import opened Effects
  import opened IssueSpec
  import opened SpawnSpec
  import opened Schedules
  import opened Evaluator
  import opened Runs
  import opened Shapes

  /** The columns that refer to another row of the team. */
  predicate IsReference(c: Column) {
    c == ParentId || c == StateId || c == ProjectId || c == AssigneeId
  }

  ghost predicate RefersInside(db: Db, id: Id, row: Issue, c: Column) {
    match c
    case ParentId => row.Link(c).Some? ==>
      var p := row.Link(c).value; p in db.issues && db.issues[p].team == row.team && p != id
    case StateId => row.Link(c).Some? && row.Link(c).value in db.states && db.states[row.Link(c).value].team == row.team
    case ProjectId => row.Link(c).Some? ==>
      row.Link(c).value in db.projects && db.projects[row.Link(c).value].team == row.team
    case AssigneeId => row.Link(c).Some? ==> (row.team, row.Link(c).value) in db.members
    case _ => true
  }

  /** The column of the team's issues refers to nothing outside the team. */
  ghost predicate IsolatedIn(db: Db, team: Id, c: Column) {
    forall i :: i in db.issues && db.issues[i].team == team ==> RefersInside(db, i, db.issues[i], c)
  }

  ghost predicate Isolated(db: Db, c: Column) {
    forall i :: i in db.issues ==> RefersInside(db, i, db.issues[i], c)
  }

  lemma IsolatedEverywhere(db: Db, c: Column)
    ensures Isolated(db, c) <==> forall team :: IsolatedIn(db, team, c)
  {
    if forall team :: IsolatedIn(db, team, c) {
      forall i | i in db.issues ensures RefersInside(db, i, db.issues[i], c) {
        assert IsolatedIn(db, db.issues[i].team, c);
      }
    }
  }

  /** Attached labels are the issue's team's. */
  ghost predicate LabelsIsolated(db: Db) {
    forall p :: p in db.issueLabels ==>
      p.0 in db.issues && p.1 in db.labels && db.labels[p.1].team == db.issues[p.0].team
  }

  function DefaultKey(c: Column): string {
    if c == AssigneeId then "assignee_id" else "project_id"
  }

  /** The two ways around the reference checks are closed for this column in the team: none of its rules sets it, and
      none of its recurrences carries it as an issue default. The parent can be reached by neither. */
  ghost predicate Closed(db: Db, team: Id, c: Column) {
    && (c != ParentId ==> TeamSetsNone(db.rules, team, c))
    && (c == AssigneeId || c == ProjectId ==>
          forall r :: r in db.recurrences && db.recurrences[r].team == team ==>
            DefaultKey(c) !in db.recurrences[r].defaults)
  }

  // ---------- shapes keep isolation ----------

  lemma AddedIssueIsolated(db: Db, next: Db, row: Issue, labels: set<Id>, team: Id, c: Column)
    requires FreshIds(db) && IsolatedIn(db, team, c) && AddsIssue(db, next, row, labels)
    requires row.team == team ==> RefersInside(db, db.nextId, row, c)
    ensures IsolatedIn(next, team, c)
  {
    forall i | i in next.issues && next.issues[i].team == team ensures RefersInside(next, i, next.issues[i], c) {
      assert i != db.nextId ==> RefersInside(db, i, db.issues[i], c);
    }
  }

  lemma ChangedIssueIsolated(db: Db, next: Db, id: Id, cells: map<Column, Value>, labels: set<Id>, team: Id, c: Column)
    requires id in db.issues && IsolatedIn(db, team, c) && ChangesIssue(db, next, id, cells, labels)
    requires db.issues[id].team == team ==> RefersInside(db, id, db.issues[id].(cells := cells), c)
    ensures IsolatedIn(next, team, c)
  {
    forall i | i in next.issues && next.issues[i].team == team ensures RefersInside(next, i, next.issues[i], c) {
      assert i != id ==> RefersInside(db, i, db.issues[i], c);
    }
  }

  lemma LabelsStayIsolated(db: Db, next: Db, id: Id, labels: set<Id>)
    requires LabelsIsolated(db)
    requires next.issueLabels == db.issueLabels + Attach(id, labels) && next.labels == db.labels
    requires id in next.issues && TeamLabelIds(db, next.issues[id].team, labels)
    requires forall i :: i in db.issues ==> i in next.issues && next.issues[i].team == db.issues[i].team
    ensures LabelsIsolated(next)
  {
  }

  lemma OverlaidCell(cells: map<Column, Value>, fields: map<Column, Value>, row: Issue, c: Column)
    ensures row.(cells := cells + fields).Get(c) == if c in fields then fields[c] else row.(cells := cells).Get(c)
  {
  }

  // ---------- create, update ----------

  lemma CreatedRowInTeam(db: Db, team: Id, data: NewIssue, user: Id, c: Column)
    requires IsReference(c) && FreshIds(db)
    requires CreateProblem(db, team, data).None? && CreateStateOf(db, team, data).Some?
    ensures RefersInside(db, db.nextId, NewRow(db, team, data, user), c)
  {
    var row := NewRow(db, team, data, user);
    assert row.Get(StateId) == Ref(CreateStateOf(db, team, data).value);
    assert c != StateId ==> row.Get(c) == Cell(data.cells, c);
  }

  lemma CreateIsolates(lib: Lib, db: Db, to: Id, data: NewIssue, user: Id, team: Id, c: Column)
    requires IsReference(c) && FreshIds(db) && IsolatedIn(db, team, c) && Closed(db, team, c)
    requires CreateIssueSpec(lib, db, to, data, user).Committed?
    ensures IsolatedIn(CreateIssueSpec(lib, db, to, data, user).db, team, c)
  {
    hide CreateIssueSpec, CreateProblem, RowOk, NewRow, CreateStateOf, IsolatedIn, RefersInside;
    var fields, labels := CreateShape(lib, db, to, data, user);
    var row, next := NewRow(db, to, data, user), CreateIssueSpec(lib, db, to, data, user).db;
    assert row.team == to by { NewRowTeam(db, to, data, user); }
    if to == team {
      CreatedRowInTeam(db, to, data, user, c);
      assert c !in fields;
      UnwrittenReference(db, db.nextId, row, row.cells, fields, c);
    }
    AddedIssueIsolated(db, next, row.(cells := row.cells + fields), labels, team, c);
  }

  lemma NewRowTeam(db: Db, team: Id, data: NewIssue, user: Id)
    requires CreateStateOf(db, team, data).Some?
    ensures NewRow(db, team, data, user).team == team
  {
  }

  /** Writing other columns does not move the reference. */
  lemma UnwrittenReference(db: Db, id: Id, row: Issue, cells: map<Column, Value>, fields: map<Column, Value>, c: Column)
    requires IsReference(c) && c !in fields && RefersInside(db, id, row.(cells := cells), c)
    ensures RefersInside(db, id, row.(cells := cells + fields), c)
  {
    OverlaidCell(cells, fields, row, c);
  }

  lemma PatchedRowInTeam(db: Db, id: Id, patch: Patch, c: Column)
    requires IsReference(c) && id in db.issues && RefersInside(db, id, db.issues[id], c)
    requires UpdateProblem(db, id, patch).None? && StateRow(db, db.issues[id].Get(StateId)).Some?
    requires TransitionProblem(db, db.issues[id], patch, StateRow(db, db.issues[id].Get(StateId)).value).None?
    ensures RefersInside(db, id, db.issues[id].(cells := db.issues[id].cells + patch), c)
  {
    var row := db.issues[id];
    OverlaidCell(row.cells, patch, row, c);
    if c in patch {
      assert Cell(patch, c) == patch[c];
    }
  }

  /** The tables at the update's commit, before its rollup. */
  lemma BodyIsolates(lib: Lib, db: Db, id: Id, patch: Patch, user: Id, team: Id, c: Column)
    requires IsReference(c) && IsolatedIn(db, team, c) && Closed(db, team, c)
    requires UpdateIssueSpec(lib, db, id, patch, Some(user)).Committed?
    ensures UpdateBody(lib, db, id, patch, Some(user)).Committed?
    ensures IsolatedIn(UpdateBody(lib, db, id, patch, Some(user)).db, team, c)
  {
    hide UpdateIssueSpec, UpdateBody, UpdateProblem, TransitionProblem, RowOk, RollUp, RefersInside, IsolatedIn;
    hide ChangesIssue, TargetKind, DiffOf;
    var mid, fields, labels := UpdateShape(lib, db, id, patch, user);
    var row := db.issues[id];
    if row.team == team {
      assert RefersInside(db, id, row, c) by { IsolatedRow(db, id, c); }
      PatchedRowInTeam(db, id, patch, c);
      assert c !in fields;
      UnwrittenReference(db, id, row, row.cells + patch, fields, c);
    }
    ChangedIssueIsolated(db, mid, id, row.cells + patch + fields, labels, team, c);
  }

  lemma IsolatedRow(db: Db, id: Id, c: Column)
    requires id in db.issues && IsolatedIn(db, db.issues[id].team, c)
    ensures RefersInside(db, id, db.issues[id], c)
  {
  }

  lemma UpdateIsolates(lib: Lib, db: Db, id: Id, patch: Patch, user: Id, team: Id, c: Column)
    requires IsReference(c) && IsolatedIn(db, team, c) && Closed(db, team, c)
    requires UpdateIssueSpec(lib, db, id, patch, Some(user)).Committed?
    ensures IsolatedIn(UpdateIssueSpec(lib, db, id, patch, Some(user)).db, team, c)
  {
    hide UpdateIssueSpec, UpdateBody, UpdateProblem, TransitionProblem, RowOk, RollUp, IsolatedIn;
    var mid, _, _ := UpdateShape(lib, db, id, patch, user);
    BodyIsolates(lib, db, id, patch, user, team, c);
    RollUpOnlyMarks(mid, id, TargetKind(db, db.issues[id], patch));
    MarkIsolates(mid, RollUp(mid, id, TargetKind(db, db.issues[id], patch)), team, c);
  }

  lemma MarkIsolates(db: Db, next: Db, team: Id, c: Column)
    requires IsReference(c) && IsolatedIn(db, team, c)
    requires OnlyMarks(db, next)
    ensures IsolatedIn(next, team, c)
  {
    forall i | i in next.issues && next.issues[i].team == team ensures RefersInside(next, i, next.issues[i], c) {
      assert RefersInside(db, i, db.issues[i], c);
      assert next.issues[i].Get(c) == db.issues[i].Get(c);
    }
  }

  /** The category an accepted update leaves the issue in, when no effect writes the state. */
  lemma StateAfterUpdate(db: Db, id: Id, patch: Patch, fields: map<Column, Value>)
    requires id in db.issues && StateId !in fields
    requires StateRow(db, db.issues[id].Get(StateId)).Some?
    requires TransitionProblem(db, db.issues[id], patch, StateRow(db, db.issues[id].Get(StateId)).value).None?
    ensures var row := db.issues[id];
      KindOf(db, row.(cells := row.cells + patch + fields))
        == if TargetKind(db, row, patch).Some? then TargetKind(db, row, patch) else KindOf(db, row)
  {
    var row := db.issues[id];
    OverlaidCell(row.cells + patch, fields, row, StateId);
    OverlaidCell(row.cells, patch, row, StateId);
  }

  // ---------- the other steps ----------

  lemma DeleteIsolates(db: Db, id: Id, team: Id, c: Column)
    requires IsolatedIn(db, team, c)
    ensures IsolatedIn(Outcome(db, DeleteIssueSpec(db, id)), team, c)
  {
    var next := Outcome(db, DeleteIssueSpec(db, id));
    if DeleteIssueSpec(db, id).Committed? {
      forall i | i in next.issues && next.issues[i].team == team ensures RefersInside(next, i, next.issues[i], c) {
        assert RefersInside(db, i, db.issues[i], c);
        assert db.issues[i].Link(ParentId) != Some(id);
      }
    }
  }

  lemma ConvertIsolates(db: Db, id: Id, team: Id, c: Column)
    requires FreshIds(db) && IsolatedIn(db, team, c)
    ensures IsolatedIn(Outcome(db, ConvertSpec(db, id)), team, c)
  {
    var next := Outcome(db, ConvertSpec(db, id));
    if ConvertSpec(db, id).Committed? {
      forall i | i in next.issues && next.issues[i].team == team ensures RefersInside(next, i, next.issues[i], c) {
        assert RefersInside(db, i, db.issues[i], c);
      }
    }
  }

  lemma SpawnedRowInTeam(lib: Lib, db: Db, rec: Recurrence, state: Id, c: Column)
    requires IsReference(c) && state in db.states && db.states[state].team == rec.team
    requires c == AssigneeId || c == ProjectId ==> DefaultKey(c) !in rec.defaults
    ensures RefersInside(db, db.nextId, SpawnRow(lib, rec, state), c)
  {
  }

  lemma SpawnIsolates(lib: Lib, db: Db, r: Id, now: Time, team: Id, c: Column)
    requires IsReference(c) && FreshIds(db) && IsolatedIn(db, team, c) && Closed(db, team, c)
    ensures IsolatedIn(SpawnOutcome(db, SpawnDue(lib, db, r, now)), team, c)
  {
    hide NextDue, RowOk, SpawnRow, RefersInside, FreshIds, IsolatedIn;
    var t := SpawnDue(lib, db, r, now);
    if t.Spawned? {
      var rec := db.recurrences[r];
      var state := FirstState(db, rec.team, Backlog).value;
      assert SpawnRow(lib, rec, state).team == rec.team by { SpawnRowTeam(lib, rec, state); }
      if rec.team == team {
        SpawnedRowInTeam(lib, db, rec, state, c);
      }
      assert db.issueLabels + Attach(db.nextId, {}) == db.issueLabels;
      AddedIssueIsolated(db, t.db, SpawnRow(lib, rec, state), {}, team, c);
    }
  }

  lemma SpawnRowTeam(lib: Lib, rec: Recurrence, state: Id)
    ensures SpawnRow(lib, rec, state).team == rec.team
  {
  }

  lemma AdminIsolates(db: Db, next: Db, team: Id, c: Column)
    requires FreshIds(db) && IsolatedIn(db, team, c) && AdminShape(db, next)
    ensures IsolatedIn(next, team, c)
  {
    forall i | i in next.issues && next.issues[i].team == team ensures RefersInside(next, i, next.issues[i], c) {
      assert RefersInside(db, i, db.issues[i], c);
    }
  }

  lemma StepIsolates(lib: Lib, db: Db, op: Op, team: Id, c: Column)
    requires IsReference(c) && FreshIds(db) && IsolatedIn(db, team, c) && Closed(db, team, c)
    ensures IsolatedIn(Step(lib, db, op), team, c)
  {
    hide IsolatedIn, Closed, FreshIds, CreateIssueSpec, UpdateIssueSpec, DeleteIssueSpec, ConvertSpec, SpawnDue;
    hide AdminTxn;
    match op
    case CreateIssue(to, data, user) =>
      if CreateIssueSpec(lib, db, to, data, user).Committed? {
        CreateIsolates(lib, db, to, data, user, team, c);
      }
    case UpdateIssue(id, patch, user) =>
      if UpdateIssueSpec(lib, db, id, patch, Some(user)).Committed? {
        UpdateIsolates(lib, db, id, patch, user, team, c);
      }
    case DeleteIssue(id) => DeleteIsolates(db, id, team, c);
    case Convert(id) => ConvertIsolates(db, id, team, c);
    case Spawn(r, now) => SpawnIsolates(lib, db, r, now, team, c);
    case Admin(request) =>
      AdminStepShape(lib, db, request);
      AdminIsolates(db, Step(lib, db, op), team, c);
  }

  /** A reference column of a team's issues stays inside the team over every run in which the two unchecked ways to
      write it stay closed in that team. For the parent nothing is assumed: an issue's parent exists, is of its team and
      is not itself. */
  lemma {:induction false} RunIsolates(lib: Lib, db: Db, ops: seq<Op>, team: Id, c: Column)
    requires IsReference(c) && FreshIds(db) && IsolatedIn(db, team, c)
    requires c != ParentId ==> Throughout(lib, db, ops, d => Closed(d, team, c))
    ensures IsolatedIn(Run(lib, db, ops), team, c)
    decreases |ops|
  {
    if ops != [] {
      hide Step, IsolatedIn;
      assert Closed(db, team, c);
      StepIsolates(lib, db, ops[0], team, c);
      StepIds(lib, db, ops[0]);
      RunIsolates(lib, Step(lib, db, ops[0]), ops[1..], team, c);
    }
  }

  // ---------- labels ----------

  lemma StepIsolatesLabels(lib: Lib, db: Db, op: Op)
    requires FreshIds(db) && LabelsIsolated(db)
    ensures LabelsIsolated(Step(lib, db, op))
  {
    hide LabelsIsolated, CreateIssueSpec, UpdateIssueSpec, SpawnDue, AdminTxn, RowOk;
    match op
    case CreateIssue(team, data, user) =>
      if CreateIssueSpec(lib, db, team, data, user).Committed? {
        CreateIsolatesLabels(lib, db, team, data, user);
      }
    case UpdateIssue(id, patch, user) =>
      if UpdateIssueSpec(lib, db, id, patch, Some(user)).Committed? {
        UpdateIsolatesLabels(lib, db, id, patch, user);
      }
    case _ =>
      OtherStepsIsolateLabels(lib, db, op);
  }

  lemma CreateIsolatesLabels(lib: Lib, db: Db, team: Id, data: NewIssue, user: Id)
    requires FreshIds(db) && LabelsIsolated(db) && CreateIssueSpec(lib, db, team, data, user).Committed?
    ensures LabelsIsolated(CreateIssueSpec(lib, db, team, data, user).db)
  {
    hide CreateIssueSpec, CreateProblem, RowOk, CreateStateOf;
    var fields, labels := CreateShape(lib, db, team, data, user);
    LabelsStayIsolated(db, CreateIssueSpec(lib, db, team, data, user).db, db.nextId, labels);
  }

  lemma UpdateIsolatesLabels(lib: Lib, db: Db, id: Id, patch: Patch, user: Id)
    requires LabelsIsolated(db) && UpdateIssueSpec(lib, db, id, patch, Some(user)).Committed?
    ensures LabelsIsolated(UpdateIssueSpec(lib, db, id, patch, Some(user)).db)
  {
    hide UpdateIssueSpec, UpdateBody, UpdateProblem, TransitionProblem, RowOk, RollUp;
    var mid, fields, labels := UpdateShape(lib, db, id, patch, user);
    LabelsStayIsolated(db, mid, id, labels);
    RollUpOnlyMarks(mid, id, TargetKind(db, db.issues[id], patch));
    MarkKeepsLabels(mid, RollUp(mid, id, TargetKind(db, db.issues[id], patch)));
  }

  lemma MarkKeepsLabels(db: Db, next: Db)
    requires LabelsIsolated(db)
    requires OnlyMarks(db, next)
    ensures LabelsIsolated(next)
  {
  }

  lemma OtherStepsIsolateLabels(lib: Lib, db: Db, op: Op)
    requires FreshIds(db) && LabelsIsolated(db) && !op.CreateIssue? && !op.UpdateIssue?
    ensures LabelsIsolated(Step(lib, db, op))
  {
    hide NextDue, RowOk, AdminTxn, SpawnRow, Referenced;
    match op
    case DeleteIssue(id) =>
      if DeleteIssueSpec(db, id).Committed? {
      }
    case Convert(id) =>
      if ConvertSpec(db, id).Committed? {
      }
    case Spawn(r, now) =>
      if SpawnDue(lib, db, r, now).Spawned? {
      }
    case Admin(request) =>
      AdminStepShape(lib, db, request);
  }

  /** Over every run, without any assumption on rules, attached labels are the issue's team's. */
  lemma {:induction false} RunIsolatesLabels(lib: Lib, db: Db, ops: seq<Op>)
    requires FreshIds(db) && LabelsIsolated(db)
    ensures LabelsIsolated(Run(lib, db, ops))
    decreases |ops|
  {
    if ops != [] {
      hide Step, LabelsIsolated;
      StepIsolatesLabels(lib, db, ops[0]);
      StepIds(lib, db, ops[0]);
      RunIsolatesLabels(lib, Step(lib, db, ops[0]), ops[1..]);
    }
  }
}
