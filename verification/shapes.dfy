/** What each step does to the tables, stated once for all invariants. */
module Shapes {
  import opened Values
  import opened Transitions
  import opened Context
  import opened Store
  import opened Queries
  import opened Evaluator
  import opened Effects
  import opened IssueSpec
  import opened IssueFacts
  import opened AdminSpec
  import opened SpawnSpec
  import opened Schedules
  import opened Runs

  /** Every key was handed out by the counter. */
  ghost predicate FreshIds(db: Db) {
    && (forall i :: i in db.issues ==> i < db.nextId)
    && (forall i :: i in db.states ==> i < db.nextId)
    && (forall i :: i in db.projects ==> i < db.nextId)
    && (forall i :: i in db.labels ==> i < db.nextId)
    && (forall i :: i in db.users ==> i < db.nextId)
    && (forall i :: i in db.teams ==> i < db.nextId)
    && (forall i :: i in db.recurrences ==> i < db.nextId)
  }

  /** The tables issues refer to, and the rules, are unchanged. */
  ghost predicate SameReferences(db: Db, next: Db) {
    && next.states == db.states && next.projects == db.projects && next.labels == db.labels
    && next.members == db.members
    && next.users == db.users && next.teams == db.teams && next.rules == db.rules
  }

  /** The tables issues refer to keep the rows in use and their teams; labels may go, but then from issues too. */
  ghost predicate GrownReferences(db: Db, next: Db) {
    && db.nextId <= next.nextId
    && (forall s :: s in db.states ==> s in next.states && next.states[s] == db.states[s])
    && (forall s :: s in next.states && s !in db.states ==> s >= db.nextId)
    && (forall p :: p in db.projects && p in next.projects ==> next.projects[p].team == db.projects[p].team)
    && (forall p :: p in next.projects && p !in db.projects ==> p >= db.nextId)
    && (forall p :: p in db.projects && p !in next.projects ==> !ProjectInUse(db, p))
    && (forall m :: m in db.members ==> m in next.members)
    && (forall u :: u in db.users ==> u in next.users)
    && (forall l :: l in next.labels && l in db.labels ==> next.labels[l].team == db.labels[l].team)
    && (forall l :: l in next.labels && l !in db.labels ==> l >= db.nextId)
  }

  /** No issue entry and no spawn entry is added. */
  ghost predicate QuietLog(db: Db, next: Db) {
    && db.audit <= next.audit
    && forall k :: |db.audit| <= k < |next.audit| ==>
         !next.audit[k].entity.IssueEntity? && !next.audit[k].entity.SpawnEntity?
  }

  ghost predicate AdminShape(db: Db, next: Db) {
    && next.issues == db.issues
    && GrownReferences(db, next)
    && next.issueLabels <= db.issueLabels
    && (forall p :: p in next.issueLabels && p.1 in db.labels ==> p.1 in next.labels)
    && QuietLog(db, next)
  }

  ghost predicate AddsIssue(db: Db, next: Db, row: Issue, labels: set<Id>) {
    && next.nextId == db.nextId + 1
    && next.issues == db.issues[db.nextId := row]
    && next.issueLabels == db.issueLabels + Attach(db.nextId, labels)
    && SameReferences(db, next)
  }

  ghost predicate ChangesIssue(db: Db, next: Db, id: Id, cells: map<Column, Value>, labels: set<Id>)
    requires id in db.issues
  {
    && next.nextId == db.nextId
    && next.issues == db.issues[id := db.issues[id].(cells := cells)]
    && next.issueLabels == db.issueLabels + Attach(id, labels)
    && SameReferences(db, next)
  }

  // ---------- create ----------

  /** The columns rules may write. */
  const WHITELIST: set<Column> := {Priority, Estimate, AssigneeId, ProjectId, DueDate, StateId}

  ghost predicate FieldsAllowed(db: Db, team: Id, fields: map<Column, Value>) {
    fields.Keys <= WHITELIST && forall c :: TeamSetsNone(db.rules, team, c) ==> c !in fields
  }

  ghost predicate TeamLabelIds(db: Db, team: Id, labels: set<Id>) {
    forall l :: l in labels ==> l in db.labels && db.labels[l].team == team
  }

  lemma CreateShape(lib: Lib, db: Db, team: Id, data: NewIssue, user: Id)
    returns (fields: map<Column, Value>, labels: set<Id>)
    requires CreateIssueSpec(lib, db, team, data, user).Committed?
    ensures CreateProblem(db, team, data).None? && CreateStateOf(db, team, data).Some?
    ensures var next, row := CreateIssueSpec(lib, db, team, data, user).db, NewRow(db, team, data, user);
      && AddsIssue(db, next, row.(cells := row.cells + fields), labels)
      && next.recurrences == db.recurrences
      && next.audit == db.audit + [IssueEntry(team, db.nextId, Create, user, map[])]
      && RowOk(db, row) && RowOk(next, next.issues[db.nextId])
    ensures FieldsAllowed(db, team, fields) && TeamLabelIds(db, team, labels)
  {
    hide EvaluateInOrder;
    hide RowOk;
    hide CreateIssueSpec;
    hide CreateStateOf;
    var firings := CreateIsAnOverlay(lib, db, team, data, user);
    var row, id := NewRow(db, team, data, user), db.nextId;
    var mid := InsertIssue(db, row, data.labels);
    fields, labels := FieldsOf(lib, firings), LabelSet(data.labels) + LabelsOf(mid, team, firings);
    forall c ensures TeamSetsNone(db.rules, team, c) ==> c !in fields {
      CreateSetsOnlyWhatRulesSet(lib, db, mid, CreateContext(lib, row, db.states[row.Get(StateId).id], user), team,
        firings, c);
    }
    CreateSetsOnlyWhatRulesSet(lib, db, mid, CreateContext(lib, row, db.states[row.Get(StateId).id], user), team,
      firings, Title);
    AttachUnion(db.issueLabels, id, LabelSet(data.labels), LabelsOf(mid, team, firings));
    RequestedLabelsAreTheTeams(db, team, data);
    UpdateTwice(db.issues, id, row, row.(cells := row.cells + fields));
  }

  lemma RequestedLabelsAreTheTeams(db: Db, team: Id, data: NewIssue)
    requires CreateProblem(db, team, data).None?
    ensures TeamLabelIds(db, team, LabelSet(data.labels))
  {
  }

  // ---------- update ----------

  lemma UpdateFieldsAllowed(lib: Lib, db: Db, row: Issue, patch: Patch, ctx: RuleContext, firings: seq<Firing>)
    requires EvaluateInOrder(lib, db, UpdateRules(db, row, patch), ctx, row.team) == Accepted(firings)
    ensures FieldsAllowed(db, row.team, FieldsOf(lib, firings))
  {
    hide EvaluateInOrder, UpdateRules, TeamSetsNone, FieldsOf;
    forall c ensures TeamSetsNone(db.rules, row.team, c) ==> c !in FieldsOf(lib, firings) {
      UpdateSetsOnlyWhatRulesSet(lib, db, row, patch, ctx, firings, c);
    }
    UpdateSetsOnlyWhatRulesSet(lib, db, row, patch, ctx, firings, Title);
  }

  lemma UpdateShape(lib: Lib, db: Db, id: Id, patch: Patch, user: Id)
    returns (mid: Db, fields: map<Column, Value>, labels: set<Id>)
    requires UpdateIssueSpec(lib, db, id, patch, Some(user)).Committed?
    ensures id in db.issues && UpdateProblem(db, id, patch).None? && StateRow(db, db.issues[id].Get(StateId)).Some?
    ensures var row := db.issues[id];
      && TransitionProblem(db, row, patch, StateRow(db, row.Get(StateId)).value).None?
      && UpdateBody(lib, db, id, patch, Some(user)) == Committed(mid, id)
      && ChangesIssue(db, mid, id, row.cells + patch + fields, labels)
      && mid.recurrences == db.recurrences
      && mid.audit == db.audit + [IssueEntry(row.team, id, Update, user, DiffOf(row, patch))]
      && RowOk(mid, mid.issues[id])
      && UpdateIssueSpec(lib, db, id, patch, Some(user)) == Committed(RollUp(mid, id, TargetKind(db, row, patch)), id)
    ensures FieldsAllowed(db, db.issues[id].team, fields) && TeamLabelIds(db, db.issues[id].team, labels)
  {
    hide EvaluateInOrder;
    hide RowOk;
    hide RollUp;
    UpdateCommitsItsBody(lib, db, id, patch, user);
    hide UpdateIssueSpec;
    var firings := UpdateIsAnOverlay(lib, db, id, patch, Some(user));
    hide UpdateBody;
    mid := UpdateBody(lib, db, id, patch, Some(user)).db;
    var row, patched := db.issues[id], Patched(db, id, patch);
    var ctx := UpdateContext(lib, db, row, patch, StateRow(db, row.Get(StateId)).value, Some(user));
    fields, labels := FieldsOf(lib, firings), LabelsOf(patched, row.team, firings);
    UpdateFieldsAllowed(lib, db, row, patch, ctx, firings);
    OverlayChangesIssue(db, id, patch, user, fields, labels, CommentsOf(Flatten(firings), id, user),
      NotesOf(lib, Flatten(firings), row.team, id));
    hide FieldsAllowed, FieldsOf, LabelsOf, DiffOf, UpdateContext, UpdateRules, ChangesIssue, Overlay, Patched;
    hide LoggedUpdate;
  }

  /** The update's overlay changes the one issue, attaches labels and logs one entry. */
  lemma OverlayChangesIssue(db: Db, id: Id, patch: Patch, user: Id, fields: map<Column, Value>, labels: set<Id>,
                            comments: seq<Comment>, notes: seq<Notification>)
    requires id in db.issues
    ensures var row, patched := db.issues[id], Patched(db, id, patch);
      var mid := LoggedUpdate(Overlay(patched, id, fields, labels, comments, notes), id, Some(user), row, patch);
      && ChangesIssue(db, mid, id, row.cells + patch + fields, labels)
      && mid.recurrences == db.recurrences
      && mid.audit == db.audit + [IssueEntry(row.team, id, Update, user, DiffOf(row, patch))]
  {
    hide DiffOf;
    var row := db.issues[id];
    UpdateTwice(db.issues, id, Patched(db, id, patch).issues[id], row.(cells := row.cells + patch + fields));
  }

  lemma UpdateCommitsItsBody(lib: Lib, db: Db, id: Id, patch: Patch, user: Id)
    requires UpdateIssueSpec(lib, db, id, patch, Some(user)).Committed?
    ensures UpdateBody(lib, db, id, patch, Some(user)).Committed? && UpdateBody(lib, db, id, patch, Some(user)).id == id
    ensures id in db.issues
      && UpdateIssueSpec(lib, db, id, patch, Some(user))
         == Committed(RollUp(UpdateBody(lib, db, id, patch, Some(user)).db, id,
           TargetKind(db, db.issues[id], patch)), id)
  {
    hide UpdateAccepted;
    hide EvaluateInOrder;
    hide RollUp;
  }

  /** A rollup writes one cell of one row. */
  lemma RollUpShape(db: Db, id: Id, target: Option<StateType>)
    requires id in db.issues
    ensures var next := RollUp(db, id, target);
      next == db || exists p :: p in db.issues && next == db.(issues := db.issues[p := MarkDone(db.issues[p])])
  {
    hide SiblingsDone;
  }

  // ---------- admin ----------

  lemma OneStateShape(db: Db, state: WorkflowState)
    requires FreshIds(db)
    ensures var next := db.(nextId := db.nextId + 1, states := db.states[db.nextId := state]);
      FreshIds(next) && GrownReferences(db, next)
  {
    hide ProjectInUse;
  }

  lemma GrownTwice(db: Db, mid: Db, next: Db)
    requires FreshIds(db) && mid.issues == db.issues && GrownReferences(db, mid) && GrownReferences(mid, next)
    ensures GrownReferences(db, next)
  {
    assert forall p :: ProjectInUse(mid, p) == ProjectInUse(db, p);
    hide ProjectInUse;
  }

  lemma {:induction false} SeedShape(db: Db, team: Id, seeds: seq<(string, StateType)>)
    requires FreshIds(db)
    ensures var next := SeedStates(db, team, seeds);
      && FreshIds(next) && GrownReferences(db, next)
      && next == db.(nextId := next.nextId, states := next.states)
    decreases |seeds|
  {
    if seeds != [] {
      var mid := db.(nextId := db.nextId + 1,
        states := db.states[db.nextId := WorkflowState(team, seeds[0].0, seeds[0].1, 0)]);
      OneStateShape(db, WorkflowState(team, seeds[0].0, seeds[0].1, 0));
      hide GrownReferences, FreshIds;
      SeedShape(mid, team, seeds[1..]);
      GrownTwice(db, mid, SeedStates(mid, team, seeds[1..]));
    }
  }

  ghost predicate AdminOk(db: Db, next: Db) {
    FreshIds(next) && AdminShape(db, next)
  }

  lemma CreateRuleShape(db: Db, team: Id, data: NewRule, actor: Option<Id>)
    requires FreshIds(db)
    ensures AdminOk(db, Outcome(db, CreateRuleSpec(db, team, data, actor)))
  {
    hide ProjectInUse;
    if ValidActions(data.actions) {
      if actor.Some? {
      }
    }
  }

  lemma UpdateRuleShape(db: Db, id: Id, p: RulePatch, actor: Option<Id>)
    requires FreshIds(db)
    ensures AdminOk(db, Outcome(db, UpdateRuleSpec(db, id, p, actor)))
  {
    hide ProjectInUse;
    if UpdateRuleSpec(db, id, p, actor).Committed? {
      if actor.Some? {
      }
    }
  }

  lemma DeleteRuleShape(db: Db, id: Id, actor: Option<Id>)
    requires FreshIds(db)
    ensures AdminOk(db, Outcome(db, DeleteRuleSpec(db, id, actor)))
  {
    hide ProjectInUse;
    if DeleteRuleSpec(db, id, actor).Committed? {
      if actor.Some? {
      }
    }
  }

  lemma ChangeRoleShape(db: Db, team: Id, user: Id, role: Role, actor: Id)
    requires FreshIds(db)
    ensures AdminOk(db, Outcome(db, ChangeRoleSpec(db, team, user, role, actor)))
  {
    hide ProjectInUse;
    if ChangeRoleSpec(db, team, user, role, actor).Committed? {
    }
  }

  lemma CreateLabelShape(db: Db, team: Id, name: string)
    requires FreshIds(db)
    ensures AdminOk(db, Outcome(db, CreateLabelSpec(db, team, name)))
  {
    hide ProjectInUse;
  }

  lemma DeleteLabelShape(db: Db, id: Id)
    requires FreshIds(db)
    ensures AdminOk(db, Outcome(db, DeleteLabelSpec(db, id)))
  {
    hide ProjectInUse;
    if id in db.labels {
    }
  }

  lemma CreateStateShape(db: Db, team: Id, name: string, kind: StateType, position: int)
    requires FreshIds(db)
    ensures AdminOk(db, Outcome(db, CreateStateSpec(db, team, name, kind, position)))
  {
    hide ProjectInUse;
  }

  lemma CreateProjectShape(db: Db, team: Id, name: string, description: Value)
    requires FreshIds(db)
    ensures AdminOk(db, Outcome(db, CreateProjectSpec(db, team, name, description)))
  {
    hide ProjectInUse;
  }

  lemma UpdateLabelShape(db: Db, id: Id, name: string)
    requires FreshIds(db)
    ensures AdminOk(db, Outcome(db, UpdateLabelSpec(db, id, name)))
  {
    hide ProjectInUse;
    hide NameTaken;
    if UpdateLabelSpec(db, id, name).Committed? {
    }
  }

  lemma UpdateProjectShape(db: Db, id: Id, name: Option<string>, state: Option<string>)
    requires FreshIds(db)
    ensures AdminOk(db, Outcome(db, UpdateProjectSpec(db, id, name, state)))
  {
    if id in db.projects {
      ProjectRowShape(db, id,
        db.projects[id].(name := Or(name, db.projects[id].name), state := Or(state, db.projects[id].state)));
    }
  }

  lemma ProjectRowShape(db: Db, id: Id, project: Project)
    requires FreshIds(db) && id in db.projects && project.team == db.projects[id].team
    ensures AdminOk(db, db.(projects := db.projects[id := project]))
  {
    hide ProjectInUse;
  }

  lemma DeleteProjectShape(db: Db, id: Id)
    requires FreshIds(db)
    ensures AdminOk(db, Outcome(db, DeleteProjectSpec(db, id)))
  {
    hide ProjectInUse;
  }

  lemma UpdateTeamShape(db: Db, id: Id, triageEnabled: Option<bool>)
    requires FreshIds(db)
    ensures AdminOk(db, Outcome(db, UpdateTeamSpec(db, id, triageEnabled)))
  {
    hide ProjectInUse;
  }

  lemma AddCommentShape(db: Db, issue: Id, user: Id, body: string)
    requires FreshIds(db)
    ensures AdminOk(db, Outcome(db, AddCommentSpec(db, issue, user, body)))
  {
    hide ProjectInUse;
    if AddCommentSpec(db, issue, user, body).Committed? {
    }
  }

  lemma DeleteRecurrenceShape(db: Db, id: Id, user: Id)
    requires FreshIds(db)
    ensures AdminOk(db, Outcome(db, DeleteRecurrenceSpec(db, id, user)))
  {
    hide ProjectInUse;
  }

  lemma CreateRecurrenceShape(lib: Lib, db: Db, team: Id, data: NewRecurrence, user: Id, now: Time)
    requires FreshIds(db)
    ensures AdminOk(db, Outcome(db, CreateRecurrenceSpec(lib, db, team, data, user, now)))
  {
    hide ProjectInUse;
    hide NextDue;
    hide ValidSchedule;
  }

  lemma UpdateRecurrenceShape(lib: Lib, db: Db, id: Id, p: RecurrencePatch, user: Id, now: Time)
    requires FreshIds(db)
    ensures AdminOk(db, Outcome(db, UpdateRecurrenceSpec(lib, db, id, p, user, now)))
  {
    hide ProjectInUse;
    hide NextDue;
    hide ValidSchedule;
  }

  lemma AdminOkComposes(db: Db, mid: Db, next: Db)
    requires FreshIds(db) && AdminOk(db, mid) && AdminOk(mid, next)
    ensures AdminOk(db, next)
  {
    GrownTwice(db, mid, next);
    hide GrownReferences;
  }

  lemma NoChangeIsAdmin(db: Db)
    requires FreshIds(db)
    ensures AdminOk(db, db)
  {
    hide ProjectInUse;
  }

  lemma MemberShape(db: Db, member: (Id, Id), role: Role)
    requires FreshIds(db)
    ensures AdminOk(db, db.(members := db.members[member := role]))
  {
    hide ProjectInUse;
  }

  lemma TeamRowShape(db: Db, team: Team)
    requires FreshIds(db)
    ensures AdminOk(db, db.(nextId := db.nextId + 1, teams := db.teams[db.nextId := team]))
  {
    hide ProjectInUse;
  }

  lemma SeedIsAdmin(db: Db, team: Id)
    requires FreshIds(db)
    ensures AdminOk(db, SeedStates(db, team, DEFAULT_STATES))
  {
    hide SeedStates;
    SeedShape(db, team, DEFAULT_STATES);
  }

  lemma CreateTeamShape(db: Db, key: string, creator: Option<Id>)
    requires FreshIds(db)
    ensures AdminOk(db, Outcome(db, CreateTeamSpec(db, key, creator)))
  {
    hide SeedStates, AdminShape;
    if CreateTeamSpec(db, key, creator).Committed? {
      var withTeam := db.(nextId := db.nextId + 1, teams := db.teams[db.nextId := Team(key, true)]);
      var seeded := SeedStates(withTeam, db.nextId, DEFAULT_STATES);
      TeamRowShape(db, Team(key, true));
      SeedIsAdmin(withTeam, db.nextId);
      AdminOkComposes(db, withTeam, seeded);
      if creator.Some? {
        MemberShape(seeded, (db.nextId, creator.value), Owner);
        AdminOkComposes(db, seeded, seeded.(members := seeded.members[(db.nextId, creator.value) := Owner]));
      }
    } else {
      NoChangeIsAdmin(db);
    }
  }

  lemma JoinShape(db: Db, team: Id, user: Id, actor: Option<Id>)
    requires FreshIds(db)
    ensures AdminOk(db, JoinTeam(db, team, user, actor))
  {
    hide ProjectInUse;
    if (team, user) !in db.members {
      if actor.Some? {
      }
    }
  }

  lemma UserShape(db: Db, user: User)
    requires FreshIds(db)
    ensures AdminOk(db, db.(nextId := db.nextId + 1, users := db.users[db.nextId := user]))
  {
    hide ProjectInUse;
  }

  lemma AddUserShape(db: Db, team: Id, name: string, email: string, actor: Option<Id>)
    requires FreshIds(db)
    ensures AdminOk(db, Outcome(db, AddUserSpec(db, team, name, email, actor)))
  {
    hide JoinTeam, AdminShape;
    var known := UsersWithEmail(db, email);
    if !AddUserSpec(db, team, name, email, actor).Committed? {
      NoChangeIsAdmin(db);
    } else if known == {} {
      var withUser := db.(nextId := db.nextId + 1, users := db.users[db.nextId := User(name, email)]);
      UserShape(db, User(name, email));
      JoinShape(withUser, team, db.nextId, actor);
      AdminOkComposes(db, withUser, JoinTeam(withUser, team, db.nextId, actor));
    } else {
      JoinShape(db, team, Least(known), actor);
    }
  }

  /** No administrative request touches an issue, drops a reference an issue uses, or writes an issue entry. */
  lemma AdminStepShape(lib: Lib, db: Db, op: AdminOp)
    requires FreshIds(db)
    ensures AdminOk(db, Outcome(db, AdminTxn(lib, db, op)))
  {
    hide AdminOk;
    hide FreshIds;
    hide CreateRuleSpec, UpdateRuleSpec, DeleteRuleSpec, CreateRecurrenceSpec, UpdateRecurrenceSpec;
    hide DeleteRecurrenceSpec;
    hide CreateTeamSpec, AddUserSpec, ChangeRoleSpec, CreateLabelSpec, DeleteLabelSpec, CreateStateSpec;
    hide CreateProjectSpec;
    hide UpdateLabelSpec, UpdateProjectSpec, DeleteProjectSpec, UpdateTeamSpec, AddCommentSpec;
    match op
    case CreateRule(team, data, actor) => CreateRuleShape(db, team, data, actor);
    case UpdateRule(id, p, actor) => UpdateRuleShape(db, id, p, actor);
    case DeleteRule(id, actor) => DeleteRuleShape(db, id, actor);
    case CreateRecurrence(team, data, user, now) => CreateRecurrenceShape(lib, db, team, data, user, now);
    case UpdateRecurrence(id, p, user, now) => UpdateRecurrenceShape(lib, db, id, p, user, now);
    case DeleteRecurrence(id, user) => DeleteRecurrenceShape(db, id, user);
    case CreateTeam(key, creator) => CreateTeamShape(db, key, creator);
    case AddUser(team, name, email, actor) => AddUserShape(db, team, name, email, actor);
    case ChangeRole(team, user, role, actor) => ChangeRoleShape(db, team, user, role, actor);
    case CreateLabel(team, name) => CreateLabelShape(db, team, name);
    case DeleteLabel(id) => DeleteLabelShape(db, id);
    case CreateState(team, name, kind, position) => CreateStateShape(db, team, name, kind, position);
    case CreateProject(team, name, description) => CreateProjectShape(db, team, name, description);
    case UpdateLabel(id, name) => UpdateLabelShape(db, id, name);
    case UpdateProject(id, name, state) => UpdateProjectShape(db, id, name, state);
    case DeleteProject(id) => DeleteProjectShape(db, id);
    case UpdateTeam(id, enabled) => UpdateTeamShape(db, id, enabled);
    case AddComment(issue, user, body) => AddCommentShape(db, issue, user, body);
  }

  // ---------- delete, convert, spawn, admin: what they have in common ----------

  /** Existing issues keep every column but the project, new ones start in a backlog state, references only grow,
      and no issue entry is logged. */
  ghost predicate OtherShape(db: Db, next: Db) {
    && GrownReferences(db, next)
    && (forall i, c :: i in db.issues && i in next.issues && c != ProjectId ==>
         next.issues[i].Get(c) == db.issues[i].Get(c))
    && (forall i :: i in db.issues && i in next.issues ==>
          next.issues[i].team == db.issues[i].team && next.issues[i].archived == db.issues[i].archived)
    && (forall i :: i in next.issues && i !in db.issues ==>
         i >= db.nextId && KindOf(next, next.issues[i]) == Some(Backlog))
    && db.audit <= next.audit
    && (forall k :: |db.audit| <= k < |next.audit| ==> !next.audit[k].entity.IssueEntity?)
  }

  lemma DeleteOther(db: Db, id: Id)
    requires FreshIds(db)
    ensures OtherShape(db, Outcome(db, DeleteIssueSpec(db, id)))
  {
    hide ProjectInUse;
    hide Referenced, ActiveChildren;
    if DeleteIssueSpec(db, id).Committed? {
    }
  }

  lemma ConvertOther(db: Db, id: Id)
    requires FreshIds(db)
    ensures OtherShape(db, Outcome(db, ConvertSpec(db, id)))
  {
    hide ProjectInUse;
    if ConvertSpec(db, id).Committed? {
    }
  }

  lemma SpawnOther(lib: Lib, db: Db, r: Id, now: Time)
    requires FreshIds(db)
    ensures OtherShape(db, SpawnOutcome(db, SpawnDue(lib, db, r, now)))
  {
    hide RowOk, NextDue, SpawnRow, OtherShape;
    if SpawnDue(lib, db, r, now).Spawned? {
      var rec := db.recurrences[r];
      var row, next := SpawnRow(lib, rec, FirstState(db, rec.team, Backlog).value), SpawnDue(lib, db, r, now).db;
      SpawnRowState(lib, rec, FirstState(db, rec.team, Backlog).value);
      NewBacklogRowIsOther(db, next, row);
    } else {
      NoChangeIsOther(db);
    }
  }

  lemma SpawnRowState(lib: Lib, rec: Recurrence, state: Id)
    ensures SpawnRow(lib, rec, state).Get(StateId) == Ref(state)
  {
    hide Default, ReplaceDate;
  }

  lemma NoChangeIsOther(db: Db)
    ensures OtherShape(db, db)
  {
    hide ProjectInUse;
  }

  lemma NewBacklogRowIsOther(db: Db, next: Db, row: Issue)
    requires FreshIds(db) && KindOf(db, row) == Some(Backlog)
    requires next == db.(nextId := db.nextId + 1, issues := db.issues[db.nextId := row],
                         audit := next.audit, recurrences := next.recurrences)
    requires |next.audit| == |db.audit| + 1 && db.audit <= next.audit && !next.audit[|db.audit|].entity.IssueEntity?
    ensures OtherShape(db, next)
  {
    hide ProjectInUse;
  }

  lemma AdminOther(db: Db, next: Db)
    requires FreshIds(db) && AdminShape(db, next)
    ensures OtherShape(db, next)
  {
    hide ProjectInUse;
  }

  lemma OtherSteps(lib: Lib, db: Db, op: Op)
    requires FreshIds(db) && !op.CreateIssue? && !op.UpdateIssue?
    ensures OtherShape(db, Step(lib, db, op))
  {
    hide DeleteIssueSpec, ConvertSpec, SpawnDue, AdminTxn, OtherShape;
    match op
    case DeleteIssue(id) => DeleteOther(db, id);
    case Convert(id) => ConvertOther(db, id);
    case Spawn(r, now) => SpawnOther(lib, db, r, now);
    case Admin(request) =>
      AdminStepShape(lib, db, request);
      AdminOther(db, Step(lib, db, op));
  }

  /** Marking a parent changes its triage context only. */
  ghost predicate OnlyMarks(db: Db, next: Db) {
    && next == db.(issues := next.issues) && next.issues.Keys == db.issues.Keys
    && (forall i :: i in db.issues ==>
          next.issues[i].team == db.issues[i].team && next.issues[i].archived == db.issues[i].archived)
    && (forall i, c :: i in db.issues && c != TriageContext ==> next.issues[i].Get(c) == db.issues[i].Get(c))
  }

  lemma MarkIsOneCell(row: Issue)
    ensures MarkDone(row).team == row.team && MarkDone(row).archived == row.archived
    ensures forall c :: c != TriageContext ==> MarkDone(row).Get(c) == row.Get(c)
  {
  }

  lemma MarkingOnlyMarks(db: Db, p: Id)
    requires p in db.issues
    ensures OnlyMarks(db, db.(issues := db.issues[p := MarkDone(db.issues[p])]))
  {
    hide MarkDone;
    MarkIsOneCell(db.issues[p]);
  }

  lemma RollUpOnlyMarks(db: Db, id: Id, target: Option<StateType>)
    requires id in db.issues
    ensures OnlyMarks(db, RollUp(db, id, target))
  {
    RollUpShape(db, id, target);
    var next := RollUp(db, id, target);
    hide RollUp, MarkDone;
    if next != db {
      hide OnlyMarks;
      var p :| p in db.issues && next == db.(issues := db.issues[p := MarkDone(db.issues[p])]);
      MarkingOnlyMarks(db, p);
    }
  }

  // ---------- ids ----------

  ghost predicate IdsKept(db: Db, next: Db) {
    && FreshIds(next) && db.nextId <= next.nextId
    && (forall i :: i in next.issues && i !in db.issues ==> i >= db.nextId)
    && (forall i :: i in next.issues && i in db.issues ==> next.issues[i].(cells := db.issues[i].cells) == db.issues[i])
  }

  lemma CreateIds(lib: Lib, db: Db, team: Id, data: NewIssue, user: Id)
    requires FreshIds(db) && CreateIssueSpec(lib, db, team, data, user).Committed?
    ensures IdsKept(db, CreateIssueSpec(lib, db, team, data, user).db)
  {
    hide CreateIssueSpec;
    hide RowOk;
    hide CreateProblem;
    var _, _ := CreateShape(lib, db, team, data, user);
  }

  lemma ChangeIds(db: Db, next: Db, id: Id, cells: map<Column, Value>)
    requires FreshIds(db) && id in db.issues
    requires next.nextId == db.nextId && SameReferences(db, next) && next.recurrences == db.recurrences
    requires next.issues == db.issues[id := db.issues[id].(cells := cells)]
    ensures IdsKept(db, next)
  {
  }

  lemma MarkIds(db: Db, id: Id, target: Option<StateType>)
    requires FreshIds(db) && id in db.issues
    ensures IdsKept(db, RollUp(db, id, target)) && RollUp(db, id, target).issues.Keys == db.issues.Keys
  {
    RollUpShape(db, id, target);
    hide RollUp;
    var next := RollUp(db, id, target);
    if next != db {
      var p :| p in db.issues && next == db.(issues := db.issues[p := MarkDone(db.issues[p])]);
      ChangeIds(db, next, p, MarkDone(db.issues[p]).cells);
    }
  }

  lemma IdsKeptComposes(db: Db, mid: Db, next: Db)
    requires IdsKept(db, mid) && IdsKept(mid, next) && mid.issues.Keys == db.issues.Keys
    ensures IdsKept(db, next)
  {
  }

  lemma UpdateIds(lib: Lib, db: Db, id: Id, patch: Patch, user: Id)
    requires FreshIds(db) && UpdateIssueSpec(lib, db, id, patch, Some(user)).Committed?
    ensures IdsKept(db, UpdateIssueSpec(lib, db, id, patch, Some(user)).db)
  {
    hide UpdateIssueSpec, UpdateBody, RowOk, RollUp, UpdateProblem, TransitionProblem, IdsKept, FieldsAllowed;
    hide TargetKind, DiffOf;
    var mid, fields, labels := UpdateShape(lib, db, id, patch, user);
    BodyIds(db, mid, id, db.issues[id].cells + patch + fields, labels);
    hide ChangesIssue;
    MarkIds(mid, id, TargetKind(db, db.issues[id], patch));
    IdsKeptComposes(db, mid, RollUp(mid, id, TargetKind(db, db.issues[id], patch)));
  }

  lemma BodyIds(db: Db, mid: Db, id: Id, cells: map<Column, Value>, labels: set<Id>)
    requires FreshIds(db) && id in db.issues && ChangesIssue(db, mid, id, cells, labels)
    requires mid.recurrences == db.recurrences
    ensures IdsKept(db, mid) && FreshIds(mid) && mid.issues.Keys == db.issues.Keys
  {
    ChangeIds(db, mid, id, cells);
  }

  lemma DeleteIds(db: Db, id: Id)
    requires FreshIds(db)
    ensures IdsKept(db, Outcome(db, DeleteIssueSpec(db, id)))
  {
    hide Referenced;
  }

  lemma ConvertIds(db: Db, id: Id)
    requires FreshIds(db)
    ensures IdsKept(db, Outcome(db, ConvertSpec(db, id)))
  {
    if ConvertSpec(db, id).Committed? {
    }
  }

  lemma SpawnIds(lib: Lib, db: Db, r: Id, now: Time)
    requires FreshIds(db)
    ensures IdsKept(db, SpawnOutcome(db, SpawnDue(lib, db, r, now)))
  {
    hide NextDue;
    hide RowOk;
    hide SpawnRow;
  }

  lemma AdminIds(db: Db, next: Db)
    requires FreshIds(db) && AdminOk(db, next)
    ensures IdsKept(db, next)
  {
    hide GrownReferences;
    assert db.nextId <= next.nextId by { GrownCounter(db, next); }
  }

  lemma GrownCounter(db: Db, next: Db)
    requires GrownReferences(db, next)
    ensures db.nextId <= next.nextId
  {
  }

  lemma NoChangeIds(db: Db)
    requires FreshIds(db)
    ensures IdsKept(db, db)
  {
  }

  /** Every step keeps the ids fresh and never hands one out again; issues keep their team and creator. */
  lemma StepIds(lib: Lib, db: Db, op: Op)
    requires FreshIds(db)
    ensures IdsKept(db, Step(lib, db, op))
  {
    hide CreateIssueSpec, UpdateIssueSpec, DeleteIssueSpec, ConvertSpec, SpawnDue, AdminTxn, IdsKept, FreshIds, AdminOk;
    NoChangeIds(db);
    match op
    case CreateIssue(team, data, user) =>
      if CreateIssueSpec(lib, db, team, data, user).Committed? {
        CreateIds(lib, db, team, data, user);
      }
    case UpdateIssue(id, patch, user) =>
      if UpdateIssueSpec(lib, db, id, patch, Some(user)).Committed? {
        UpdateIds(lib, db, id, patch, user);
      }
    case Admin(request) =>
      AdminStepShape(lib, db, request);
      AdminIds(db, Step(lib, db, op));
    case DeleteIssue(id) => DeleteIds(db, id);
    case Convert(id) => ConvertIds(db, id);
    case Spawn(r, now) => SpawnIds(lib, db, r, now);
  }

  /** An issue present at both ends of a run was there throughout, with the same team and creator. */
  lemma {:induction false} TeamNeverChanges(lib: Lib, db: Db, ops: seq<Op>, i: Id)
    requires FreshIds(db) && i < db.nextId && i in Run(lib, db, ops).issues
    ensures i in db.issues && Run(lib, db, ops).issues[i].(cells := db.issues[i].cells) == db.issues[i]
    decreases |ops|
  {
    hide Step;
    if ops != [] {
      StepIds(lib, db, ops[0]);
      TeamNeverChanges(lib, Step(lib, db, ops[0]), ops[1..], i);
    }
  }

  // ---------- rules and membership ----------

  ghost predicate SameSettings(db: Db, next: Db) {
    next.rules == db.rules && next.members == db.members && next.users == db.users && next.teams == db.teams
  }

  lemma WritesKeepSettings(lib: Lib, db: Db, op: Op)
    requires op.CreateIssue? || op.UpdateIssue?
    ensures SameSettings(db, Step(lib, db, op))
  {
    hide CreateIssueSpec, UpdateIssueSpec, UpdateBody, CreateProblem, CreateStateOf, UpdateProblem, TransitionProblem;
    hide RowOk, RollUp;
    if op.CreateIssue? {
      if CreateIssueSpec(lib, db, op.team, op.data, op.user).Committed? {
        var _, _ := CreateShape(lib, db, op.team, op.data, op.user);
      }
    } else {
      if UpdateIssueSpec(lib, db, op.id, op.patch, Some(op.user)).Committed? {
        var mid, _, _ := UpdateShape(lib, db, op.id, op.patch, op.user);
        RollUpOnlyMarks(mid, op.id, TargetKind(db, db.issues[op.id], op.patch));
      }
    }
  }

  lemma OthersKeepSettings(lib: Lib, db: Db, op: Op)
    requires op.DeleteIssue? || op.Convert? || op.Spawn?
    ensures SameSettings(db, Step(lib, db, op))
  {
    hide NextDue, RowOk, SpawnRow, Referenced, ActiveChildren;
    if op.DeleteIssue? {
      if DeleteIssueSpec(db, op.id).Committed? {
      }
    } else if op.Convert? {
      if ConvertSpec(db, op.id).Committed? {
      }
    } else {
      if SpawnDue(lib, db, op.recurrence, op.now).Spawned? {
      }
    }
  }

  /** Only administrative requests change rules, teams, users and memberships. */
  lemma IssueStepsKeepSettings(lib: Lib, db: Db, op: Op)
    requires !op.Admin?
    ensures SameSettings(db, Step(lib, db, op))
  {
    hide Step;
    if op.CreateIssue? || op.UpdateIssue? {
      WritesKeepSettings(lib, db, op);
    } else {
      OthersKeepSettings(lib, db, op);
    }
  }
}
