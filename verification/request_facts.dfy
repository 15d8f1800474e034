/** Which issue requests are refused, and what the others start from, said of the tables. */
module RequestFacts {
  import opened Values
  import opened Transitions
  import opened Store
  import opened Queries
  import opened Evaluator
  import opened Effects
  import opened IssueSpec
  import opened IssueFacts
  import opened AdminSpec
  import opened Schedules

  // ---------- references ----------

  ghost predicate StateInside(db: Db, team: Id, v: Value) {
    v == Null || exists s: Id :: v == Ref(s) && s in db.states && db.states[s].team == team
  }

  ghost predicate ProjectInside(db: Db, team: Id, v: Value) {
    v == Null || exists p: Id :: v == Ref(p) && p in db.projects && db.projects[p].team == team
  }

  ghost predicate ParentInside(db: Db, team: Id, v: Value) {
    v == Null || exists i: Id :: v == Ref(i) && i in db.issues && db.issues[i].team == team
  }

  ghost predicate LabelsInside(db: Db, team: Id, labels: seq<Id>) {
    forall l :: l in labels ==> l in db.labels && db.labels[l].team == team
  }

  ghost predicate AssigneeInside(db: Db, team: Id, v: Value) {
    v == Null || exists u: Id :: v == Ref(u) && (team, u) in db.members
  }

  /** The reference check names the first of the five references that is not the team's. */
  lemma ReferencesRefusedExactly(db: Db, team: Id, state: Value, project: Value, parent: Value, labels: seq<Id>,
                                 assignee: Value)
    ensures ReferenceProblem(db, team, state, project, parent, labels, assignee)
      == if !StateInside(db, team, state) then Some(StateNotInTeam)
         else if !ProjectInside(db, team, project) then Some(ProjectNotInTeam)
         else if !ParentInside(db, team, parent) then Some(ParentNotInTeam)
         else if !LabelsInside(db, team, labels) then Some(LabelNotInTeam)
         else if !AssigneeInside(db, team, assignee) then Some(NotAMember)
         else None
  {
  }

  // ---------- creation ----------

  /** The state comes first among the team's states of the category, by position. */
  ghost predicate FirstOfKind(db: Db, team: Id, kind: StateType, s: Id) {
    && s in db.states && db.states[s].team == team && db.states[s].kind == kind
    && forall t :: t in db.states && db.states[t].team == team && db.states[t].kind == kind ==>
         db.states[s].position <= db.states[t].position
  }

  ghost predicate HasKind(db: Db, team: Id, kind: StateType) {
    exists s :: s in db.states && db.states[s].team == team && db.states[s].kind == kind
  }

  /** A new issue without a state starts in triage where the team uses it and has such a state, else in the backlog;
      only a team with neither has no default. */
  lemma DefaultStateIs(db: Db, team: Id)
    ensures var triage := HasKind(db, team, Triage) && (team in db.teams ==> db.teams[team].triageEnabled);
      match DefaultState(db, team)
      case Some(s) => FirstOfKind(db, team, if triage then Triage else Backlog, s)
      case None => !triage && !HasKind(db, team, Backlog)
  {
    forall kind: StateType, s: Id | s in db.states && db.states[s].team == team && db.states[s].kind == kind
      ensures s in StatesOfKind(db, team, kind)
    {
    }
  }

  /** A creation passes its checks exactly when it names or has a default state and its references are the team's. */
  lemma CreateRefusedExactly(db: Db, team: Id, data: NewIssue)
    ensures var state := Cell(data.cells, StateId);
      CreateProblem(db, team, data)
      == if state == Null && DefaultState(db, team).None? then Some(NoDefaultState)
         else if !StateInside(db, team, state) then Some(StateNotInTeam)
         else if !ProjectInside(db, team, Cell(data.cells, ProjectId)) then Some(ProjectNotInTeam)
         else if !ParentInside(db, team, Cell(data.cells, ParentId)) then Some(ParentNotInTeam)
         else if !LabelsInside(db, team, data.labels) then Some(LabelNotInTeam)
         else if !AssigneeInside(db, team, Cell(data.cells, AssigneeId)) then Some(NotAMember)
         else None
  {
    ReferencesRefusedExactly(db, team, Cell(data.cells, StateId), Null, Null, [], Null);
    ReferencesRefusedExactly(db, team, Null, Cell(data.cells, ProjectId), Cell(data.cells, ParentId), data.labels,
      Cell(data.cells, AssigneeId));
    hide ReferenceProblem, DefaultState;
  }

  /** The row a creation inserts: the requested values, and the default state where none is named. */
  lemma NewRowHoldsTheRequest(db: Db, team: Id, data: NewIssue, user: Id)
    requires CreateProblem(db, team, data).None?
    ensures CreateStateOf(db, team, data).Some?
    ensures var row := NewRow(db, team, data, user);
      && row.team == team && row.createdBy == user && !row.archived
      && (forall c :: c != StateId ==> row.Get(c) == Cell(data.cells, c))
      && (Cell(data.cells, StateId) != Null ==> row.Get(StateId) == Cell(data.cells, StateId))
      && (Cell(data.cells, StateId) == Null ==>
            DefaultState(db, team).Some? && row.Get(StateId) == Ref(DefaultState(db, team).value))
  {
    hide DefaultState;
  }

  // ---------- update ----------

  /** The checks of an update, in their order. */
  lemma UpdateRefusedExactly(db: Db, id: Id, patch: Patch)
    requires id in db.issues
    ensures var team := db.issues[id].team;
      UpdateProblem(db, id, patch)
      == if ParentId in patch && patch[ParentId] == Ref(id) then Some(OwnParent)
         else if !StateInside(db, team, Cell(patch, StateId)) then Some(StateNotInTeam)
         else if !ProjectInside(db, team, Cell(patch, ProjectId)) then Some(ProjectNotInTeam)
         else if !ParentInside(db, team, Cell(patch, ParentId)) then Some(ParentNotInTeam)
         else if !AssigneeInside(db, team, Cell(patch, AssigneeId)) then Some(NotAMember)
         else None
  {
    ReferencesRefusedExactly(db, db.issues[id].team, Cell(patch, StateId), Cell(patch, ProjectId),
      Cell(patch, ParentId),
      [], Cell(patch, AssigneeId));
    hide ReferenceProblem;
  }

  /** A move is refused exactly when the table does not join the two categories; anything but a move passes. */
  lemma MoveRefusedExactly(db: Db, row: Issue, patch: Patch, current: WorkflowState)
    ensures match TransitionProblem(db, row, patch, current)
      case None =>
        || StateId !in patch || patch[StateId] == row.Get(StateId)
        || exists s: Id :: patch[StateId] == Ref(s) && s in db.states && Joined(current.kind, db.states[s].kind)
      case Some(BadTransition(from, to)) =>
        && StateId in patch && patch[StateId] != row.Get(StateId) && from == current.kind && !Joined(from, to)
        && exists s: Id :: patch[StateId] == Ref(s) && s in db.states && db.states[s].kind == to
      case Some(why) =>
        && why == TargetStateNotFound && StateId in patch
        && forall s: Id :: patch[StateId] == Ref(s) ==> s !in db.states
  {
    if StateId in patch && StateRow(db, patch[StateId]).Some? {
      TableByTarget(current.kind, db.states[patch[StateId].id].kind);
    }
    hide IsValidTransition;
  }

  /** An assignment rule is asked about an update exactly when the patch names another assignee, an update rule
      always. */
  lemma OtherTriggersFire(db: Db, row: Issue, patch: Patch, r: Rule)
    requires r in db.rules
    ensures Applies(r, row.team, IssueAssigned) ==>
      (r in UpdateRules(db, row, patch) <==> AssigneeId in patch && patch[AssigneeId] != row.Get(AssigneeId))
    ensures Applies(r, row.team, IssueUpdated) ==> r in UpdateRules(db, row, patch)
    ensures r.trigger == IssueCreated || r.trigger == OtherTrigger || !r.enabled || r.team != row.team ==>
      r !in UpdateRules(db, row, patch)
  {
    hide MatchingRules;
    LoadedRulesApply(db.rules, row.team, IssueStateChanged, r);
    LoadedRulesApply(db.rules, row.team, IssueAssigned, r);
    LoadedRulesApply(db.rules, row.team, IssueUpdated, r);
  }

  // ---------- deletion and conversion ----------

  /** Of each comment as many remain as there were, except those on the deleted issue, and those in their order. */
  lemma {:induction false} CommentsOnOthersStay(comments: seq<Comment>, id: Id)
    ensures forall c :: multiset(CommentsWithout(comments, id))[c] == if c.issue == id then 0 else multiset(comments)[c]
  {
    if comments != [] {
      assert comments == [comments[0]] + comments[1..];
      CommentsOnOthersStay(comments[1..], id);
    }
  }

  lemma {:induction false} CommentsKeepTheirOrder(xs: seq<Comment>, ys: seq<Comment>, id: Id)
    ensures CommentsWithout(xs + ys, id) == CommentsWithout(xs, id) + CommentsWithout(ys, id)
  {
    if xs == [] {
      assert xs + ys == ys;
    } else {
      assert (xs + ys)[0] == xs[0] && (xs + ys)[1..] == xs[1..] + ys;
      CommentsKeepTheirOrder(xs[1..], ys, id);
    }
  }

  /** What a delete removes: the row, its labels and its comments. */
  lemma DeleteRemovesTheIssue(db: Db, id: Id)
    requires DeleteIssueSpec(db, id).Committed?
    ensures var next := DeleteIssueSpec(db, id).db;
      && next == db.(issues := next.issues, issueLabels := next.issueLabels, comments := next.comments)
      && next.issues.Keys == db.issues.Keys - {id} && (forall i :: i in next.issues ==> next.issues[i] == db.issues[i])
      && (forall i, l :: (i, l) in next.issueLabels <==> (i, l) in db.issueLabels && i != id)
      && (forall c :: multiset(next.comments)[c] == if c.issue == id then 0 else multiset(db.comments)[c])
  {
    CommentsOnOthersStay(db.comments, id);
    hide Referenced, ActiveChildren, CommentsWithout;
  }

  /** A conversion makes a planned project of the issue's team with its title and description, and links the issue to
      it; it fails only for a title that is too long for a project's name. */
  lemma ConvertMakesTheProject(db: Db, id: Id)
    requires id in db.issues && db.issues[id].Get(Title).Str?
    ensures ConvertSpec(db, id).Committed? <==> |db.issues[id].Get(Title).s| <= 255
    ensures ConvertSpec(db, id).Committed? ==>
      var next, project, row := ConvertSpec(db, id).db, ConvertSpec(db, id).id, db.issues[id];
      && project == db.nextId && next.projects.Keys == db.projects.Keys + {project}
      && (forall p :: p in db.projects && p != project ==> next.projects[p] == db.projects[p])
      && next.projects[project].team == row.team && Str(next.projects[project].name) == row.Get(Title)
      && next.projects[project].description == row.Get(Description) && next.projects[project].state == "planned"
      && next.issues.Keys == db.issues.Keys && next.issues[id].Get(ProjectId) == Ref(project)
      && (forall c :: c != ProjectId ==> next.issues[id].Get(c) == row.Get(c))
      && (forall i :: i in db.issues && i != id ==> next.issues[i] == db.issues[i])
      && next == db.(nextId := project + 1, projects := next.projects, issues := next.issues)
  {
  }

  // ---------- refused by a rule, and batches ----------

  /** A request stopped by a rule is refused in the rule's name if the rule rejects or is malformed, and crashes with
      the error if nobody catches it. */
  lemma StoppedRequestsEnd(lib: Lib, db: Db, id: Id, user: Id, state: WorkflowState, stop: Stop)
    requires id in db.issues
    requires EvaluateInOrder(lib, db, MatchingRules(db.rules, db.issues[id].team, IssueCreated),
      CreateContext(lib, db.issues[id], state, user), db.issues[id].team) == Stopped(stop)
    ensures CreateFlushed(lib, db, db.issues[id].team, id, user, state) == EndOf(stop)
  {
    hide EvaluateInOrder, MatchingRules, CreateContext;
  }

  function EndOf(stop: Stop): Txn {
    if stop.Uncaught? then Crashed(stop.error) else Refused(RuleRefused(stop.rule))
  }

  lemma StoppedUpdatesEnd(lib: Lib, db: Db, id: Id, patch: Patch, user: Option<Id>, current: WorkflowState, stop: Stop)
    requires id in db.issues && StateRow(db, db.issues[id].Get(StateId)) == Some(current)
    requires UpdateProblem(db, id, patch).None? && TransitionProblem(db, db.issues[id], patch, current).None?
    requires EvaluateInOrder(lib, db, UpdateRules(db, db.issues[id], patch),
      UpdateContext(lib, db, db.issues[id], patch, current, user), db.issues[id].team) == Stopped(stop)
    ensures UpdateIssueSpec(lib, db, id, patch, user) == EndOf(stop)
  {
    hide EvaluateInOrder, UpdateRules, UpdateContext, UpdateProblem, TransitionProblem, StateRow, RollUp;
  }

  /** What the issues table stores: a title of at most 500 characters, one of three types, 32-bit numbers, and
      references to existing rows, of which only the state is required. */
  lemma StoredRowsAreExactly(db: Db, i: Issue)
    ensures RowOk(db, i)
      <==>
        && (exists t: string :: i.Get(Title) == Str(t) && |t| <= 500)
        && i.Get(Kind) in [Str("task"), Str("reference"), Str("idea")]
        && IsStored(i.Get(Priority)) && (i.Get(Estimate) == Null || IsStored(i.Get(Estimate)))
        && (i.Get(Position) == Null || IsStored(i.Get(Position)))
        && (exists s: Id :: i.Get(StateId) == Ref(s) && s in db.states)
        && (i.Get(AssigneeId) == Null || exists u: Id :: i.Get(AssigneeId) == Ref(u) && u in db.users)
        && (i.Get(ProjectId) == Null || exists p: Id :: i.Get(ProjectId) == Ref(p) && p in db.projects)
        && (i.Get(ParentId) == Null || exists o: Id :: i.Get(ParentId) == Ref(o) && o in db.issues)
        && (i.Get(Description) == Null || i.Get(Description).Str?) && (i.Get(DueDate) == Null || i.Get(DueDate).Date?)
        && (i.Get(CustomFields) == Null || i.Get(CustomFields).Obj?)
        && (i.Get(TriageContext) == Null || i.Get(TriageContext).Obj?)
  {
    FitsByColumn(db, i);
    ReferencesFit(db, i);
    if Fits(db, Title, i.Get(Title)) && Fits(db, Kind, i.Get(Kind)) && Fits(db, Priority, i.Get(Priority))
      && Fits(db, Estimate, i.Get(Estimate)) && Fits(db, Position, i.Get(Position)) && Fits(db, StateId, i.Get(StateId))
      && Fits(db, AssigneeId, i.Get(AssigneeId)) && Fits(db, ProjectId, i.Get(ProjectId))
      && Fits(db, ParentId, i.Get(ParentId)) && Fits(db, Description, i.Get(Description))
      && Fits(db, DueDate, i.Get(DueDate)) && Fits(db, CustomFields, i.Get(CustomFields))
      && Fits(db, TriageContext, i.Get(TriageContext))
    {
      forall c: Column ensures Fits(db, c, i.Get(c)) {
        match c
        case _ =>
      }
    }
    hide Fits, Issue.Get;
  }

  predicate IsStored(v: Value) {
    v.Int? && -2_147_483_648 <= v.n <= 2_147_483_647
  }

  lemma FitsByColumn(db: Db, i: Issue)
    ensures Fits(db, Title, i.Get(Title)) <==> exists t: string :: i.Get(Title) == Str(t) && |t| <= 500
    ensures Fits(db, Kind, i.Get(Kind)) <==> i.Get(Kind) in [Str("task"), Str("reference"), Str("idea")]
    ensures Fits(db, Priority, i.Get(Priority)) <==> IsStored(i.Get(Priority))
    ensures Fits(db, Estimate, i.Get(Estimate)) <==> i.Get(Estimate) == Null || IsStored(i.Get(Estimate))
    ensures Fits(db, Position, i.Get(Position)) <==> i.Get(Position) == Null || IsStored(i.Get(Position))
    ensures Fits(db, Description, i.Get(Description)) <==> i.Get(Description) == Null || i.Get(Description).Str?
    ensures Fits(db, DueDate, i.Get(DueDate)) <==> i.Get(DueDate) == Null || i.Get(DueDate).Date?
    ensures Fits(db, CustomFields, i.Get(CustomFields)) <==> i.Get(CustomFields) == Null || i.Get(CustomFields).Obj?
    ensures Fits(db, TriageContext, i.Get(TriageContext)) <==> i.Get(TriageContext) == Null || i.Get(TriageContext).Obj?
  {
    hide Issue.Get;
  }

  lemma ReferencesFit(db: Db, i: Issue)
    ensures Fits(db, StateId, i.Get(StateId)) <==> exists s: Id :: i.Get(StateId) == Ref(s) && s in db.states
    ensures Fits(db, AssigneeId, i.Get(AssigneeId))
      <==> i.Get(AssigneeId) == Null || exists u: Id :: i.Get(AssigneeId) == Ref(u) && u in db.users
    ensures Fits(db, ProjectId, i.Get(ProjectId))
      <==> i.Get(ProjectId) == Null || exists p: Id :: i.Get(ProjectId) == Ref(p) && p in db.projects
    ensures Fits(db, ParentId, i.Get(ParentId))
      <==> i.Get(ParentId) == Null || exists o: Id :: i.Get(ParentId) == Ref(o) && o in db.issues
  {
    hide Issue.Get;
  }

  // ---------- rules and recurrences ----------

  /** One entry by the acting user, none without one. */
  ghost predicate LogsOnce(db: Db, next: Db, team: Id, entity: Entity, id: Id, action: AuditAction, user: Option<Id>) {
    match user
    case None => next.audit == db.audit
    case Some(u) =>
      && |next.audit| == |db.audit| + 1 && next.audit[..|db.audit|] == db.audit
      && var e := next.audit[|db.audit|];
         e.team == team && e.entity == entity && e.entityId == id && e.action == action && e.user == u
  }

  /** The value the patch sets, or the old one. */
  ghost predicate IsSet<T>(patch: Option<T>, before: T, after: T) {
    (patch == None ==> after == before) && (patch.Some? ==> after == patch.value)
  }

  /** A rule is stored as requested. */
  lemma CreatedRuleIsTheRequest(db: Db, team: Id, data: NewRule, user: Option<Id>)
    ensures CreateRuleSpec(db, team, data, user) == Refused(Invalid) <==> !ValidActions(data.actions)
    ensures ValidActions(data.actions) ==>
      var t := CreateRuleSpec(db, team, data, user);
      && t.Committed? && t.id == db.nextId && |t.db.rules| == |db.rules| + 1 && t.db.rules[..|db.rules|] == db.rules
      && var r := t.db.rules[|db.rules|];
         && r.id == t.id && r.team == team && r.name == data.name && r.trigger == data.trigger
         && r.conditions == data.conditions && r.actions == data.actions && r.priority == data.priority
         && r.enabled == data.enabled && LogsOnce(db, t.db, team, RuleEntity, t.id, Create, user)
  {
    hide ValidActions;
  }

  /** An update changes the fields it sets, of the one rule. */
  lemma UpdatedRuleKeepsTheRest(db: Db, id: Id, p: RulePatch, user: Option<Id>) returns (k: nat)
    requires UpdateRuleSpec(db, id, p, user).Committed?
    ensures var next := UpdateRuleSpec(db, id, p, user).db;
      && |next.rules| == |db.rules| && k < |db.rules| && db.rules[k].id == id
      && (forall j :: 0 <= j < |db.rules| && j != k ==> next.rules[j] == db.rules[j])
      && RulePatched(db.rules[k], p, next.rules[k])
      && LogsOnce(db, next, db.rules[k].team, RuleEntity, id, Update, user)
  {
    k := RuleAt(db.rules, id).value;
    assert RulePatched(db.rules[k], p, UpdateRuleSpec(db, id, p, user).db.rules[k]);
    hide RuleAt, ValidActions, PatchedRule;
  }

  ghost predicate RulePatched(r: Rule, p: RulePatch, after: Rule) {
    && after.id == r.id && after.team == r.team
    && IsSet(p.name, r.name, after.name) && IsSet(p.trigger, r.trigger, after.trigger)
    && IsSet(p.conditions, r.conditions, after.conditions) && IsSet(p.actions, r.actions, after.actions)
    && IsSet(p.priority, r.priority, after.priority) && IsSet(p.enabled, r.enabled, after.enabled)
  }

  /** A recurrence is stored as requested, active, with the due time asked for or one step from now. */
  lemma CreatedRecurrenceIsTheRequest(lib: Lib, db: Db, team: Id, data: NewRecurrence, user: Id, now: Time)
    ensures CreateRecurrenceSpec(lib, db, team, data, user, now) == Refused(Invalid)
      <==> !ValidSchedule(lib, data.schedule)
    ensures CreateRecurrenceSpec(lib, db, team, data, user, now).Committed? ==>
      var t := CreateRecurrenceSpec(lib, db, team, data, user, now);
      && t.id == db.nextId && t.db.recurrences.Keys == db.recurrences.Keys + {t.id}
      && (forall r :: r in db.recurrences && r != t.id ==> t.db.recurrences[r] == db.recurrences[r])
      && var rec := t.db.recurrences[t.id];
         && rec.team == team && rec.createdBy == user && rec.titleTemplate == data.title && rec.active
         && rec.description == data.description && rec.defaults == data.defaults && rec.schedule == data.schedule
         && rec.lastSpawned == None && rec.lastIssue == None
         && Ok(rec.nextDue) == (if data.nextDue.Some? then Ok(data.nextDue.value) else NextDue(lib, data.schedule, now))
         && LogsOnce(db, t.db, team, RecurrenceEntity, t.id, Create, Some(user))
  {
    hide ValidSchedule, NextDue;
  }

  /** An update changes the fields it sets, of the one recurrence; its due time is the one asked for, else one step from
      now if the schedule is set, else the old one. */
  lemma UpdatedRecurrenceKeepsTheRest(lib: Lib, db: Db, id: Id, p: RecurrencePatch, user: Id, now: Time)
    requires UpdateRecurrenceSpec(lib, db, id, p, user, now).Committed?
    ensures var next := UpdateRecurrenceSpec(lib, db, id, p, user, now).db;
      && id in db.recurrences && next.recurrences.Keys == db.recurrences.Keys
      && (forall r :: r in db.recurrences && r != id ==> next.recurrences[r] == db.recurrences[r])
      && var rec, after := db.recurrences[id], next.recurrences[id];
         && after.team == rec.team && after.createdBy == rec.createdBy
         && after.lastSpawned == rec.lastSpawned && after.lastIssue == rec.lastIssue
         && IsSet(p.title, rec.titleTemplate, after.titleTemplate)
              && IsSet(p.description, rec.description, after.description)
         && IsSet(p.defaults, rec.defaults, after.defaults) && IsSet(p.schedule, rec.schedule, after.schedule)
         && IsSet(p.active, rec.active, after.active)
         && Ok(after.nextDue) == (if p.nextDue.Some? then Ok(p.nextDue.value)
                                  else if p.schedule.Some? then NextDue(lib, p.schedule.value, now)
                                    else Ok(rec.nextDue))
         && LogsOnce(db, next, rec.team, RecurrenceEntity, id, Update, Some(user))
  {
    hide ValidSchedule, NextDue;
  }

  // ---------- the log of issue writes ----------

  /** A committed creation, and a committed update by a user, adds one entry under its own action, and the update's
      holds exactly the columns that the patch changes, with both values. */
  lemma CreationsAreLogged(lib: Lib, db: Db, team: Id, data: NewIssue, user: Id)
    requires CreateIssueSpec(lib, db, team, data, user).Committed?
    ensures var t := CreateIssueSpec(lib, db, team, data, user);
      t.id == db.nextId && LogsOnce(db, t.db, team, IssueEntity, t.id, Create, Some(user))
  {
    hide CreateIssueSpec, CreateProblem, CreateStateOf, NewRow, RowOk, EvaluateInOrder, MatchingRules, CreateContext;
    var _ := CreateIsAnOverlay(lib, db, team, data, user);
    hide FieldsOf, LabelsOf, CommentsOf, NotesOf;
  }

  lemma UpdatesAreLogged(lib: Lib, db: Db, id: Id, patch: Patch, user: Id)
    requires UpdateBody(lib, db, id, patch, Some(user)).Committed?
    ensures id in db.issues
    ensures var row, next := db.issues[id], UpdateBody(lib, db, id, patch, Some(user)).db;
      && LogsOnce(db, next, row.team, IssueEntity, id, Update, Some(user))
      && var diff := next.audit[|db.audit|].diff;
         && (forall c :: c in diff <==> c in patch && patch[c] != row.Get(c))
         && (forall c :: c in diff ==> diff[c].before == row.Get(c) && diff[c].after == patch[c])
  {
    hide UpdateBody, UpdateProblem, TransitionProblem, RowOk, EvaluateInOrder, UpdateRules, UpdateContext, StateRow;
    var _ := UpdateIsAnOverlay(lib, db, id, patch, Some(user));
    hide FieldsOf, LabelsOf, CommentsOf, NotesOf;
  }
}
