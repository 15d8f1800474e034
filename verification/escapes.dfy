/** The two unchecked ways out of a team, exactly: a rule's set_field, on creation and on update, and a recurrence's
    issue defaults. Each leaves the team exactly when the value it writes would have been refused in a request. */
module Escapes {
  import opened Values
  import opened Transitions
  import opened Actions
  import opened Context
  import opened Store
  import opened Evaluator
  import opened Effects
  import opened IssueSpec
  import opened IssueFacts
  import opened SpawnSpec
  import opened Schedules
  import opened Shapes
  import opened Tenancy

  /** The references that rules or recurrences can write. */
  predicate IsWritable(c: Column) {
    c == StateId || c == ProjectId || c == AssigneeId
  }

  /** `_validate_references` for a request that names this value and nothing else. */
  predicate PassesReferenceCheck(db: Db, team: Id, c: Column, v: Value) {
    match c
    case StateId => ReferenceProblem(db, team, v, Null, Null, [], Null).None?
    case ProjectId => ReferenceProblem(db, team, Null, v, Null, [], Null).None?
    case ParentId => ReferenceProblem(db, team, Null, Null, v, [], Null).None?
    case AssigneeId => ReferenceProblem(db, team, Null, Null, Null, [], v).None?
    case _ => true
  }

  /** For a value that the column can hold, the request's check is isolation. */
  lemma CheckDecidesIsolation(db: Db, id: Id, row: Issue, c: Column)
    requires IsWritable(c) && Fits(db, c, row.Get(c))
    ensures RefersInside(db, id, row, c) <==> PassesReferenceCheck(db, row.team, c, row.Get(c))
  {
  }

  lemma SameReferencesFitAlike(db: Db, next: Db, c: Column, v: Value)
    requires SameReferences(db, next) && IsWritable(c)
    ensures Fits(next, c, v) <==> Fits(db, c, v)
  {
  }

  // ---------- rules ----------

  /** A row overlaid with what rules wrote, seen from the tables before: it stays inside exactly when what they wrote
      would have passed. */
  lemma WrittenRowInTeamIf(db: Db, next: Db, id: Id, row: Issue, cells: map<Column, Value>, fields: map<Column, Value>,
                           c: Column)
    requires IsWritable(c) && SameReferences(db, next)
    requires RefersInside(db, id, row.(cells := cells), c) && RowOk(next, row.(cells := cells + fields))
    ensures RefersInside(db, id, row.(cells := cells + fields), c)
      <==> (c in fields ==> PassesReferenceCheck(db, row.team, c, fields[c]))
  {
    var written := row.(cells := cells + fields);
    OverlaidCell(cells, fields, row, c);
    assert Fits(next, c, written.Get(c));
    SameReferencesFitAlike(db, next, c, written.Get(c));
    CheckDecidesIsolation(db, id, written, c);
    hide PassesReferenceCheck, SameReferences, RowOk;
  }

  /** After an accepted update the column of the team's issues is still inside the team exactly when the value that the
      rules left in it, if they wrote it at all, would have passed the reference check. */
  lemma UpdateIsolatesExactly(lib: Lib, db: Db, id: Id, patch: Patch, user: Id, c: Column)
    returns (firings: seq<Firing>)
    requires IsWritable(c) && id in db.issues && IsolatedIn(db, db.issues[id].team, c)
    requires UpdateIssueSpec(lib, db, id, patch, Some(user)).Committed?
    ensures StateRow(db, db.issues[id].Get(StateId)).Some?
    ensures var row := db.issues[id];
      EvaluateInOrder(lib, db, UpdateRules(db, row, patch),
        UpdateContext(lib, db, row, patch, StateRow(db, row.Get(StateId)).value, Some(user)), row.team)
          == Accepted(firings)
    ensures IsolatedIn(UpdateIssueSpec(lib, db, id, patch, Some(user)).db, db.issues[id].team, c)
      <==> (c in FieldsOf(lib, firings) ==> PassesReferenceCheck(db, db.issues[id].team, c, FieldsOf(lib, firings)[c]))
  {
    hide UpdateIssueSpec, UpdateBody, UpdateProblem, TransitionProblem, RowOk, RollUp, EvaluateInOrder, UpdateRules;
    hide UpdateContext;
    hide IsolatedIn, RefersInside, PassesReferenceCheck, FieldsOf, LabelsOf, DiffOf, TargetKind, StateRow;
    hide ReferenceProblem;
    UpdateCommitsItsBody(lib, db, id, patch, user);
    firings := UpdateIsAnOverlay(lib, db, id, patch, Some(user));
    var row, fields, mid := db.issues[id], FieldsOf(lib, firings), UpdateBody(lib, db, id, patch, Some(user)).db;
    var cells := row.cells + patch;
    OverlayChangesIssue(db, id, patch, user, fields, LabelsOf(Patched(db, id, patch), row.team, firings),
      CommentsOf(Flatten(firings), id, user), NotesOf(lib, Flatten(firings), row.team, id));
    hide Overlay, Patched, LoggedUpdate;
    assert RefersInside(db, id, row, c) by { IsolatedRow(db, id, c); }
    PatchedRowInTeam(db, id, patch, c);
    WrittenRowInTeamIf(db, mid, id, row, cells, fields, c);
    IsolatedIffChangedRow(db, mid, id, cells + fields, c);
    RollUpOnlyMarks(mid, id, TargetKind(db, row, patch));
    MarksDecideNothing(mid, RollUp(mid, id, TargetKind(db, row, patch)), row.team, c);
  }

  lemma IsolatedIffChangedRow(db: Db, next: Db, id: Id, cells: map<Column, Value>, c: Column)
    requires id in db.issues && IsolatedIn(db, db.issues[id].team, c) && SameReferences(db, next)
    requires next.issues == db.issues[id := db.issues[id].(cells := cells)]
    ensures IsolatedIn(next, db.issues[id].team, c) <==> RefersInside(db, id, db.issues[id].(cells := cells), c)
  {
    var team := db.issues[id].team;
    forall i | i in next.issues && next.issues[i].team == team
      ensures RefersInside(next, i, next.issues[i], c)
        <==> (i == id ==> RefersInside(db, id, db.issues[id].(cells := cells), c))
    {
      assert RefersInside(db, i, db.issues[i], c);
    }
    assert IsolatedIn(next, team, c) ==> RefersInside(next, id, next.issues[id], c);
  }

  lemma MarksDecideNothing(db: Db, next: Db, team: Id, c: Column)
    requires IsReference(c) && OnlyMarks(db, next)
    ensures IsolatedIn(next, team, c) <==> IsolatedIn(db, team, c)
  {
    forall i | i in db.issues
      ensures RefersInside(next, i, next.issues[i], c) <==> RefersInside(db, i, db.issues[i], c)
    {
      assert next.issues[i].Get(c) == db.issues[i].Get(c);
    }
  }

  /** The same for an accepted creation and its issue.created rules. */
  lemma CreateIsolatesExactly(lib: Lib, db: Db, team: Id, data: NewIssue, user: Id, c: Column)
    returns (firings: seq<Firing>)
    requires IsWritable(c) && FreshIds(db) && IsolatedIn(db, team, c)
    requires CreateIssueSpec(lib, db, team, data, user).Committed?
    ensures CreateStateOf(db, team, data).Some? && NewRow(db, team, data, user).Get(StateId).Ref?
    ensures var row := NewRow(db, team, data, user);
      && row.Get(StateId).id in db.states
      && EvaluateInOrder(lib, InsertIssue(db, row, data.labels), MatchingRules(db.rules, team, IssueCreated),
           CreateContext(lib, row, db.states[row.Get(StateId).id], user), team) == Accepted(firings)
    ensures IsolatedIn(CreateIssueSpec(lib, db, team, data, user).db, team, c)
      <==> (c in FieldsOf(lib, firings) ==> PassesReferenceCheck(db, team, c, FieldsOf(lib, firings)[c]))
  {
    hide CreateIssueSpec, CreateProblem, RowOk, CreateStateOf, EvaluateInOrder, MatchingRules, CreateContext;
    hide IsolatedIn, RefersInside, PassesReferenceCheck, FieldsOf, LabelsOf, ReferenceProblem, FreshIds;
    firings := CreateIsAnOverlay(lib, db, team, data, user);
    var row, fields, next := NewRow(db, team, data, user), FieldsOf(lib, firings),
      CreateIssueSpec(lib, db, team, data, user).db;
    CreatedRowInTeam(db, team, data, user, c);
    assert next.issues == db.issues[db.nextId := row.(cells := row.cells + fields)] && SameReferences(db, next) by {
      UpdateTwice(db.issues, db.nextId, row, row.(cells := row.cells + fields));
    }
    assert next.issues[db.nextId] == row.(cells := row.cells + fields);
    WrittenRowInTeamIf(db, next, db.nextId, row, row.cells, fields, c);
    IsolatedIffAddedRow(db, next, row.(cells := row.cells + fields), c);
  }

  lemma IsolatedIffAddedRow(db: Db, next: Db, row: Issue, c: Column)
    requires FreshIds(db) && IsolatedIn(db, row.team, c) && SameReferences(db, next)
    requires next.issues == db.issues[db.nextId := row]
    ensures IsolatedIn(next, row.team, c) <==> RefersInside(db, db.nextId, row, c)
  {
    forall i | i in next.issues && next.issues[i].team == row.team
      ensures RefersInside(next, i, next.issues[i], c) <==> (i == db.nextId ==> RefersInside(db, db.nextId, row, c))
    {
      assert i != db.nextId ==> RefersInside(db, i, db.issues[i], c);
    }
    assert IsolatedIn(next, row.team, c) ==> RefersInside(next, db.nextId, next.issues[db.nextId], c);
  }

  // ---------- recurrence defaults ----------

  /** The recurrence's default for the column, as the driver binds it, would have passed the reference check. */
  predicate DefaultPasses(lib: Lib, db: Db, rec: Recurrence, c: Column) {
    (c == AssigneeId || c == ProjectId) && DefaultKey(c) in rec.defaults && !rec.defaults[DefaultKey(c)].Null? ==>
      PassesReferenceCheck(db, rec.team, c, lib.bind(c, rec.defaults[DefaultKey(c)]))
  }

  /** A spawned issue leaves the column inside the team exactly when its recurrence's default would have passed. */
  lemma SpawnIsolatesExactly(lib: Lib, db: Db, r: Id, now: Time, c: Column)
    requires IsWritable(c) && FreshIds(db) && r in db.recurrences && IsolatedIn(db, db.recurrences[r].team, c)
    requires SpawnDue(lib, db, r, now).Spawned?
    ensures IsolatedIn(SpawnDue(lib, db, r, now).db, db.recurrences[r].team, c)
      <==> DefaultPasses(lib, db, db.recurrences[r], c)
  {
    hide NextDue, RowOk, SpawnRow, RefersInside, FreshIds, IsolatedIn, DefaultPasses;
    var rec := db.recurrences[r];
    var state := FirstState(db, rec.team, Backlog).value;
    SpawnRowTeam(lib, rec, state);
    SpawnedRowInTeamIff(lib, db, rec, state, c);
    IsolatedIffAddedRow(db, SpawnDue(lib, db, r, now).db, SpawnRow(lib, rec, state), c);
  }

  lemma SpawnedRowInTeamIff(lib: Lib, db: Db, rec: Recurrence, state: Id, c: Column)
    requires IsWritable(c) && state in db.states && db.states[state].team == rec.team
    requires RowOk(db, SpawnRow(lib, rec, state))
    ensures RefersInside(db, db.nextId, SpawnRow(lib, rec, state), c) <==> DefaultPasses(lib, db, rec, c)
  {
    var row := SpawnRow(lib, rec, state);
    assert Fits(db, c, row.Get(c));
    CheckDecidesIsolation(db, db.nextId, row, c);
  }

  // ---------- both ways are open ----------

  const HOME: Id := 2

  /** Users 0 and 1 exist, user 0 is the team's only member, the team has one backlog state, and ids up to 6 are
      taken. */
  const ONE_MEMBER: Db := EMPTY.(
    nextId := 7, users := map[0 := User("a", "a"), 1 := User("b", "b")], teams := map[HOME := Team("A", true)],
    members := map[(HOME, 0) := Owner], states := map[3 := WorkflowState(HOME, "Backlog", Backlog, 0)])

  /** A daily recurrence with an assignee from outside. */
  const DAILY: Recurrence :=
    Recurrence(HOME, 0, "t", Null, map["assignee_id" := Str("u")], Interval("1d"), 0, None, None, true)

  const ONE_RECURRENCE: Db := ONE_MEMBER.(recurrences := map[4 := DAILY])

  lemma DailyIsDueTomorrow(lib: Lib)
    ensures NextDue(lib, Interval("1d"), 0) == Ok(DAY)
  {
    assert "1d"[..1] == "1" && "1"[..0] == "";
    assert ParseNat("1") == 1;
    assert ParseInterval("1d") == Some(Period(1, Days));
  }

  lemma OutsiderRowIsAccepted(lib: Lib)
    requires lib.bind(AssigneeId, Str("u")) == Ref(1)
    ensures RowOk(ONE_RECURRENCE, SpawnRow(lib, DAILY, 3))
  {
    var row := SpawnRow(lib, DAILY, 3);
    assert ReplaceDate("t", lib.dateText(0)) == "t";
    forall c: Column ensures Fits(ONE_RECURRENCE, c, row.Get(c)) {
    }
  }

  lemma DailySpawns(lib: Lib)
    requires lib.bind(AssigneeId, Str("u")) == Ref(1)
    ensures SpawnDue(lib, ONE_RECURRENCE, 4, 0).Spawned?
  {
    assert 3 in StatesOfKind(ONE_RECURRENCE, HOME, Backlog);
    assert FirstState(ONE_RECURRENCE, HOME, Backlog) == Some(3);
    OutsiderRowIsAccepted(lib);
    DailyIsDueTomorrow(lib);
    hide RowOk, NextDue, SpawnRow, FirstState, StatesOfKind, SpawnInto;
  }

  lemma DailyDoesNotPass(lib: Lib)
    requires lib.bind(AssigneeId, Str("u")) == Ref(1)
    ensures FreshIds(ONE_RECURRENCE) && IsolatedIn(ONE_RECURRENCE, HOME, AssigneeId)
    ensures 4 in ONE_RECURRENCE.recurrences && ONE_RECURRENCE.recurrences[4] == DAILY && DAILY.team == HOME
    ensures !DefaultPasses(lib, ONE_RECURRENCE, DAILY, AssigneeId)
  {
  }

  /** A recurrence whose default assignee is not a member spawns an issue assigned outside the team. */
  lemma DefaultCanLeaveTheTeam(lib: Lib)
    requires lib.bind(AssigneeId, Str("u")) == Ref(1)
    ensures FreshIds(ONE_RECURRENCE) && IsolatedIn(ONE_RECURRENCE, HOME, AssigneeId)
    ensures SpawnDue(lib, ONE_RECURRENCE, 4, 0).Spawned?
    ensures !IsolatedIn(SpawnDue(lib, ONE_RECURRENCE, 4, 0).db, HOME, AssigneeId)
  {
    DailyDoesNotPass(lib);
    hide *;
    DailySpawns(lib);
    SpawnIsolatesExactly(lib, ONE_RECURRENCE, 4, 0, AssigneeId);
  }

  /** A rule that assigns every updated issue to user 1, an issue of the team, and a request that renames it. */
  const ASSIGNING: Rule := Rule(6, HOME, "hand over", true, IssueUpdated, None,
    [SetField(Some("assignee_id"), Some(Str("u")))], 0)

  const PLAIN: Issue := Issue(HOME, 0, false,
    map[Title := Str("t"), Kind := Str("task"), Priority := Int(0), StateId := Ref(3)])

  const ONE_RULE: Db := ONE_MEMBER.(issues := map[5 := PLAIN], rules := [ASSIGNING])

  const RENAMING: Patch := map[Title := Str("s")]

  const HANDED_OVER: seq<Firing> := [Firing(6, [Sets("assignee_id", Str("u"))])]

  lemma OnlyTheAssigningRuleIsAsked()
    ensures UpdateRules(ONE_RULE, PLAIN, RENAMING) == [ASSIGNING]
  {
    assert [ASSIGNING][1..] == [] && ONE_RULE.rules == [ASSIGNING];
    assert MatchingRules(ONE_RULE.rules, HOME, IssueUpdated) == [ASSIGNING];
  }

  lemma AssigningRuleFires(lib: Lib, ctx: RuleContext)
    ensures EvaluateInOrder(lib, ONE_RULE, [ASSIGNING], ctx, HOME) == Accepted(HANDED_OVER)
  {
    assert ASSIGNING.actions[1..] == [] && PrepareAll(lib, [], ctx) == Ok([]);
    assert "u"[0] != '$';
    assert Prepare(lib, ASSIGNING.actions[0], ctx) == Ok(Sets("assignee_id", Str("u")));
    assert PrepareAll(lib, ASSIGNING.actions, ctx) == Ok([Sets("assignee_id", Str("u"))] + []);
    assert [Sets("assignee_id", Str("u"))] + [] == [Sets("assignee_id", Str("u"))];
    assert [Sets("assignee_id", Str("u"))][1..] == [] && [ASSIGNING][1..] == [];
    assert EvaluateInOrder(lib, ONE_RULE, [], ctx, HOME) == Accepted([]);
  }

  lemma RenamedRowsFit(db: Db)
    requires db == Patched(ONE_RULE, 5, RENAMING)
    ensures RowOk(ONE_RULE, PLAIN) && RowOk(db, db.issues[5])
    ensures var next := SetCell(db, 5, AssigneeId, Ref(1)); RowOk(next, next.issues[5])
  {
    PlainRowFits(ONE_RULE, PLAIN);
    PlainRowFits(db, db.issues[5]);
    PlainRowFits(SetCell(db, 5, AssigneeId, Ref(1)), SetCell(db, 5, AssigneeId, Ref(1)).issues[5]);
    hide RowOk;
  }

  /** PLAIN, with another title or assigned to user 1. */
  lemma PlainRowFits(db: Db, row: Issue)
    requires db.states == ONE_MEMBER.states && db.users == ONE_MEMBER.users
    requires row.Get(Title) == Str("t") || row.Get(Title) == Str("s")
    requires row.Get(AssigneeId) == Null || row.Get(AssigneeId) == Ref(1)
    requires forall c: Column :: c != Title && c != AssigneeId ==> row.Get(c) == PLAIN.Get(c)
    ensures RowOk(db, row)
  {
    forall c: Column ensures Fits(db, c, row.Get(c)) {
    }
  }

  lemma HandOverApplies(lib: Lib, db: Db)
    requires lib.bind(AssigneeId, Str("u")) == Ref(1) && db == Patched(ONE_RULE, 5, RENAMING)
    ensures ApplyFirings(lib, db, 5, HANDED_OVER, 0) == Ok(SetCell(db, 5, AssigneeId, Ref(1)))
  {
    var p := Pending(6, Sets("assignee_id", Str("u")));
    assert Flatten(HANDED_OVER) == [p] && [p][1..] == [] by {
      assert HANDED_OVER[1..] == [];
    }
    var next := SetCell(db, 5, AssigneeId, Ref(1));
    assert ApplyOne(lib, db, 5, p, 0) == Ok(next);
    assert ApplyAll(lib, db, 5, [p], 0) == Ok(next) by {
      assert ApplyAll(lib, next, 5, [], 0) == Ok(next);
    }
    RenamedRowsFit(db);
    hide RowOk;
  }

  lemma RenamingIsAllowed()
    ensures UpdateProblem(ONE_RULE, 5, RENAMING).None?
    ensures StateRow(ONE_RULE, PLAIN.Get(StateId)) == Some(ONE_RULE.states[3])
    ensures TransitionProblem(ONE_RULE, PLAIN, RENAMING, ONE_RULE.states[3]).None?
    ensures TargetKind(ONE_RULE, PLAIN, RENAMING).None?
    ensures Serializable(DiffOf(PLAIN, RENAMING))
  {
  }

  /** An accepted renaming ends with the issue assigned outside the team, through a rule that passes validation. */
  lemma RuleCanLeaveTheTeam(lib: Lib)
    requires lib.bind(AssigneeId, Str("u")) == Ref(1)
    ensures FreshIds(ONE_RULE) && IsolatedIn(ONE_RULE, HOME, AssigneeId) && ValidAction(ASSIGNING.actions[0])
    ensures UpdateIssueSpec(lib, ONE_RULE, 5, RENAMING, Some(0)).Committed?
    ensures !IsolatedIn(UpdateIssueSpec(lib, ONE_RULE, 5, RENAMING, Some(0)).db, HOME, AssigneeId)
  {
    TheExampleIsIsolated();
    hide *;
    RenamingCommits(lib);
    OutsiderIsOutside(UpdateIssueSpec(lib, ONE_RULE, 5, RENAMING, Some(0)).db);
  }

  lemma TheExampleIsIsolated()
    ensures FreshIds(ONE_RULE) && IsolatedIn(ONE_RULE, HOME, AssigneeId) && ValidAction(ASSIGNING.actions[0])
  {
  }

  lemma OutsiderIsOutside(db: Db)
    requires 5 in db.issues && db.issues[5].Get(AssigneeId) == Ref(1) && db.issues[5].team == HOME
    requires (HOME, 1) !in db.members
    ensures !IsolatedIn(db, HOME, AssigneeId)
  {
    assert !RefersInside(db, 5, db.issues[5], AssigneeId);
  }

  lemma RenamingCommits(lib: Lib)
    requires lib.bind(AssigneeId, Str("u")) == Ref(1)
    ensures var t := UpdateIssueSpec(lib, ONE_RULE, 5, RENAMING, Some(0));
      && t.Committed? && 5 in t.db.issues && t.db.issues[5].Get(AssigneeId) == Ref(1) && t.db.issues[5].team == HOME
      && (HOME, 1) !in t.db.members
  {
    assert 5 in ONE_RULE.issues && ONE_RULE.issues[5] == PLAIN;
    var mid := Patched(ONE_RULE, 5, RENAMING);
    RenamingIsAllowed();
    OnlyTheAssigningRuleIsAsked();
    AssigningRuleFires(lib, UpdateContext(lib, ONE_RULE, PLAIN, RENAMING, ONE_RULE.states[3], Some(0)));
    HandOverApplies(lib, mid);
    RenamedRowsFit(mid);
    hide EvaluateInOrder, UpdateRules, UpdateContext, UpdateProblem, TransitionProblem, TargetKind, StateRow, RowOk;
    hide ApplyFirings, DiffOf, Serializable;
  }
}
