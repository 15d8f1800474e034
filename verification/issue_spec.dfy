/** What the requests of services/issue_service.py do to the committed tables, as functions. */
module IssueSpec {
  import opened Values
  import opened Transitions
  import opened Context
  import opened Store
  import opened Queries
  import opened Evaluator
  import opened Effects

  /** The HTTPExceptions of the issue services. */
  datatype Refusal =
    | NotFound | OwnParent | StateNotInTeam | ProjectNotInTeam | ParentNotInTeam | LabelNotInTeam | NotAMember
    | NoDefaultState | TargetStateNotFound | BadTransition(from: StateType, to: StateType)
    | RuleRefused(rule: Id) | ActiveSubtasks | Invalid

  /** How a request ends. Only a committed one changes the stored tables. */
  datatype Txn = Committed(db: Db, id: Id) | Refused(why: Refusal) | Crashed(error: Error)

  /** The tables after the request. */
  function Outcome(db: Db, t: Txn): Db {
    if t.Committed? then t.db else db
  }

  function Cell(cells: map<Column, Value>, c: Column): Value {
    if c in cells then cells[c] else Null
  }

  // ---------- _validate_references ----------

  function ReferenceProblem(db: Db, team: Id, state: Value, project: Value, parent: Value, labels: seq<Id>,
                            assignee: Value): Option<Refusal> {
    if !state.Null? && !(state.Ref? && state.id in db.states && db.states[state.id].team == team)
    then Some(StateNotInTeam)
    else if !project.Null? && !(project.Ref? && project.id in db.projects && db.projects[project.id].team == team)
    then Some(ProjectNotInTeam)
    else if !parent.Null? && !(parent.Ref? && parent.id in db.issues && db.issues[parent.id].team == team)
    then Some(ParentNotInTeam)
    else if exists k :: 0 <= k < |labels| && !(labels[k] in db.labels && db.labels[labels[k]].team == team)
    then Some(LabelNotInTeam)
    else if !assignee.Null? && !(assignee.Ref? && (team, assignee.id) in db.members) then Some(NotAMember)
    else None
  }

  // ---------- create ----------

  /** The body of a create request, its schema's defaults filled in. */
  datatype NewIssue = NewIssue(cells: map<Column, Value>, labels: seq<Id>)

  function DefaultState(db: Db, team: Id): Option<Id> {
    var triage := FirstState(db, team, Triage);
    if (team in db.teams ==> db.teams[team].triageEnabled) && triage.Some? then triage
    else FirstState(db, team, Backlog)
  }

  function IdText(lib: Lib, v: Value): Value {
    if v.Ref? then Str(Show(lib, v)) else Null
  }

  /** The issue fields a rule sees. */
  function IssueFields(lib: Lib, row: Issue, state: WorkflowState): map<string, Value> {
    map[
      "title" := row.Get(Title), "description" := row.Get(Description), "type" := row.Get(Kind),
      "priority" := row.Get(Priority), "estimate" := row.Get(Estimate),
      "assignee_id" := IdText(lib, row.Get(AssigneeId)), "project_id" := IdText(lib, row.Get(ProjectId)),
      "parent_id" := IdText(lib, row.Get(ParentId)),
      "state" := Str(state.name), "state_type" := Str(StateTypeText(state.kind))
    ]
  }

  function CreateContext(lib: Lib, row: Issue, state: WorkflowState, user: Id): RuleContext {
    RuleContext(IssueFields(lib, row, state)["labels" := Arr([])], Show(lib, Ref(user)), "", "",
                state.name, StateTypeText(state.kind), Null, Null, {})
  }

  predicate Distinct(ids: seq<Id>) {
    forall i, j :: 0 <= i < j < |ids| ==> ids[i] != ids[j]
  }

  function LabelSet(ids: seq<Id>): set<Id> {
    set k | 0 <= k < |ids| :: ids[k]
  }

  /** The flushed row with its labels, before any rule is asked. */
  function InsertIssue(db: Db, row: Issue, labels: seq<Id>): Db {
    db.(nextId := db.nextId + 1,
        issues := db.issues[db.nextId := row],
        issueLabels := db.issueLabels + Attach(db.nextId, LabelSet(labels)))
  }

  function CreateStateOf(db: Db, team: Id, data: NewIssue): Option<Id> {
    match Cell(data.cells, StateId)
    case Ref(s) => Some(s)
    case _ => DefaultState(db, team)
  }

  function CreateProblem(db: Db, team: Id, data: NewIssue): Option<Refusal> {
    var state := Cell(data.cells, StateId);
    if state.Null? && DefaultState(db, team).None? then Some(NoDefaultState)
    else if ReferenceProblem(db, team, state, Null, Null, [], Null).Some? then Some(StateNotInTeam)
    else
      ReferenceProblem(db, team, Null, Cell(data.cells, ProjectId), Cell(data.cells, ParentId), data.labels,
                       Cell(data.cells, AssigneeId))
  }

  function NewRow(db: Db, team: Id, data: NewIssue, user: Id): Issue
    requires CreateStateOf(db, team, data).Some?
  {
    Issue(team, user, false, data.cells[StateId := Ref(CreateStateOf(db, team, data).value)])
  }

  function StopTxn(stop: Stop): Txn {
    match stop
    case Rejected(rule, _) => Refused(RuleRefused(rule))
    case Malformed(rule, _) => Refused(RuleRefused(rule))
    case Uncaught(e) => Crashed(e)
  }

  function IssueEntry(team: Id, id: Id, action: AuditAction, user: Id, diff: map<Column, Change>): AuditEntry {
    AuditEntry(team, IssueEntity, id, action, user, diff, None)
  }

  function Logged(db: Db, entry: AuditEntry): Db {
    db.(audit := db.audit + [entry])
  }

  /** Rules are judged against the tables that already hold the new row; then their effects are applied. */
  function CreateFlushed(lib: Lib, db: Db, team: Id, id: Id, user: Id, state: WorkflowState): Txn
    requires id in db.issues
  {
    var ctx := CreateContext(lib, db.issues[id], state, user);
    match EvaluateInOrder(lib, db, MatchingRules(db.rules, team, IssueCreated), ctx, team)
    case Stopped(stop) => StopTxn(stop)
    case Accepted(firings) =>
      match ApplyFirings(lib, db, id, firings, user)
      case Err(e) => Crashed(e)
      case Ok(next) => Committed(Logged(next, IssueEntry(team, id, Create, user, map[])), id)
  }

  /** `if effects: await apply_effects(...)`. */
  function ApplyFirings(lib: Lib, db: Db, id: Id, firings: seq<Firing>, user: Id): (r: Result<Db>)
    requires id in db.issues
    ensures r.Ok? ==> r.value.issues.Keys == db.issues.Keys
  {
    if firings == [] then Ok(db) else ApplyEffects(lib, db, id, firings, user)
  }

  /** `_create_issue_impl`, seen from the tables it starts on. */
  function CreateIssueSpec(lib: Lib, db: Db, team: Id, data: NewIssue, user: Id): Txn {
    var problem := CreateProblem(db, team, data);
    if problem.Some? then Refused(problem.value)
    else if CreateStateOf(db, team, data).None? then Crashed(BadRow)
    else
      var row := NewRow(db, team, data, user);
      if !RowOk(db, row) || !Distinct(data.labels) then Crashed(BadRow)
      else
        assert Fits(db, StateId, row.Get(StateId));
        CreateFlushed(lib, InsertIssue(db, row, data.labels), team, db.nextId, user,
          db.states[CreateStateOf(db, team, data).value])
  }

  // ---------- update ----------

  type Patch = map<Column, Value>

  function StateRow(db: Db, v: Value): Option<WorkflowState> {
    if v.Ref? && v.id in db.states then Some(db.states[v.id]) else None
  }

  /** The patch names a state other than the current one. */
  predicate Moves(row: Issue, patch: Patch) {
    StateId in patch && patch[StateId] != row.Get(StateId)
  }

  predicate Reassigns(row: Issue, patch: Patch) {
    AssigneeId in patch && patch[AssigneeId] != row.Get(AssigneeId)
  }

  function UpdateProblem(db: Db, id: Id, patch: Patch): Option<Refusal>
    requires id in db.issues
  {
    if Cell(patch, ParentId) == Ref(id) then Some(OwnParent)
    else
      ReferenceProblem(db, db.issues[id].team, Cell(patch, StateId), Cell(patch, ProjectId), Cell(patch, ParentId), [],
                       Cell(patch, AssigneeId))
  }

  function TransitionProblem(db: Db, row: Issue, patch: Patch, current: WorkflowState): Option<Refusal> {
    if !Moves(row, patch) then None
    else match StateRow(db, patch[StateId])
      case None => Some(TargetStateNotFound)
      case Some(target) => if IsValidTransition(current.kind, target.kind) then None
        else Some(BadTransition(current.kind, target.kind))
  }

  /** The category the patch moves the issue into. */
  function TargetKind(db: Db, row: Issue, patch: Patch): Option<StateType> {
    if !Moves(row, patch) then None
    else match StateRow(db, patch[StateId])
      case None => None
      case Some(target) => Some(target.kind)
  }

  function UpdateContext(lib: Lib, db: Db, row: Issue, patch: Patch, current: WorkflowState, user: Option<Id>)
    : RuleContext
  {
    var target := if Moves(row, patch) then StateRow(db, patch[StateId]) else None;
    RuleContext(
      IssueFields(lib, row, current),
      if user.Some? then Show(lib, Ref(user.value)) else "",
      if target.Some? then current.name else "",
      if target.Some? then StateTypeText(current.kind) else "",
      if target.Some? then target.value.name else "",
      if target.Some? then StateTypeText(target.value.kind) else "",
      IdText(lib, row.Get(AssigneeId)),
      if AssigneeId in patch then Str(Show(lib, patch[AssigneeId])) else Null,
      patch.Keys
    )
  }

  /** The rules asked about an update: state change, then assignment, then the general trigger. */
  function UpdateRules(db: Db, row: Issue, patch: Patch): seq<Rule> {
    (if Moves(row, patch) then MatchingRules(db.rules, row.team, IssueStateChanged) else [])
    + (if Reassigns(row, patch) then MatchingRules(db.rules, row.team, IssueAssigned) else [])
    + MatchingRules(db.rules, row.team, IssueUpdated)
  }

  /** `compute_diff` of the old row and the row under the patch. */
  function DiffOf(row: Issue, patch: Patch): map<Column, Change> {
    map c | c in patch && row.Get(c) != patch[c] :: Change(row.Get(c), patch[c])
  }

  /** JSON has no dates: serialising a diff with one raises. */
  predicate Serializable(diff: map<Column, Change>) {
    forall c :: c in diff ==> !diff[c].before.Date? && !diff[c].after.Date?
  }

  function Patched(db: Db, id: Id, patch: Patch): Db
    requires id in db.issues
  {
    db.(issues := db.issues[id := db.issues[id].(cells := db.issues[id].cells + patch)])
  }

  /** The part of `update_issue` after the rules have accepted it, up to the commit. */
  function UpdateAccepted(lib: Lib, db: Db, id: Id, patch: Patch, user: Option<Id>, firings: seq<Firing>): (t: Txn)
    requires id in db.issues
    ensures t.Committed? ==> t.id == id && id in t.db.issues
  {
    var row, mid := db.issues[id], Patched(db, id, patch);
    if !RowOk(mid, mid.issues[id]) then Crashed(BadRow)
    else match ApplyFirings(lib, mid, id, firings, if user.Some? then user.value else row.createdBy)
      case Err(e) => Crashed(e)
      case Ok(next) =>
        if user.None? then Committed(next, id)
        else if !Serializable(DiffOf(row, patch)) then Crashed(NotSerializable)
        else Committed(Logged(next, IssueEntry(row.team, id, Update, user.value, DiffOf(row, patch))), id)
  }

  /** `update_issue` up to its commit. */
  function UpdateBody(lib: Lib, db: Db, id: Id, patch: Patch, user: Option<Id>): (t: Txn)
    ensures t.Committed? ==> id in db.issues && id in t.db.issues
  {
    if id !in db.issues then Refused(NotFound)
    else
      var row := db.issues[id];
      var problem := UpdateProblem(db, id, patch);
      var current := StateRow(db, row.Get(StateId));
      if problem.Some? then Refused(problem.value)
      else if current.None? then Crashed(NoSuchRow)
      else
        var refused := TransitionProblem(db, row, patch, current.value);
        if refused.Some? then Refused(refused.value)
        else match EvaluateInOrder(lib, db, UpdateRules(db, row, patch),
          UpdateContext(lib, db, row, patch, current.value, user), row.team)
          case Stopped(stop) => StopTxn(stop)
          case Accepted(firings) => UpdateAccepted(lib, db, id, patch, user, firings)
  }

  // ---------- completion rollup ----------

  function SiblingsOf(db: Db, id: Id, parent: Id): set<Id> {
    set s | s in db.issues && s != id && db.issues[s].Link(ParentId) == Some(parent)
  }

  function MarkDone(row: Issue): Issue {
    var ctx := if row.Get(TriageContext).Obj? then row.Get(TriageContext).entries else map[];
    row.(cells := row.cells[TriageContext := Obj(ctx["children_all_done" := Bool(true)])])
  }

  /** The context says that all children are done, and otherwise what it said before. */
  ghost predicate SaysDone(before: Value, after: Value) {
    && after.Obj? && "children_all_done" in after.entries && after.entries["children_all_done"] == Bool(true)
    && (forall key :: key != "children_all_done" ==>
          (key in after.entries <==> before.Obj? && key in before.entries)
          && (key in after.entries ==> after.entries[key] == before.entries[key]))
  }

  /** One issue's triage context says that its children are done; every other column, row and table is the same. */
  ghost predicate Marked(db: Db, next: Db, p: Id) {
    && p in db.issues && next.issues.Keys == db.issues.Keys && next == db.(issues := next.issues)
    && (forall i :: i in db.issues && i != p ==> next.issues[i] == db.issues[i])
    && next.issues[p].(cells := db.issues[p].cells) == db.issues[p]
    && (forall c :: c != TriageContext ==> next.issues[p].Get(c) == db.issues[p].Get(c))
    && SaysDone(db.issues[p].Get(TriageContext), next.issues[p].Get(TriageContext))
  }

  lemma MarkDoneMarks(db: Db, p: Id)
    requires p in db.issues
    ensures Marked(db, db.(issues := db.issues[p := MarkDone(db.issues[p])]), p)
  {
  }

  /** Whether the code finds all siblings in the team's terminal states. */
  predicate SiblingsDone(db: Db, team: Id, siblings: set<Id>)
    requires siblings <= db.issues.Keys
  {
    var terminal := StateIds(db, team, {Completed, Canceled});
    siblings != {} && forall s :: s in siblings ==>
      db.issues[s].Link(StateId).Some? && db.issues[s].Link(StateId).value in terminal
  }

  /** What runs after the commit: mark the parent once its children are all done. */
  function RollUp(db: Db, id: Id, target: Option<StateType>): Db
    requires id in db.issues
  {
    if target.None? || !target.value.Terminal() then db
    else match db.issues[id].Link(ParentId)
      case None => db
      case Some(p) =>
        if SiblingsDone(db, db.issues[id].team, SiblingsOf(db, id, p)) && p in db.issues
        then db.(issues := db.issues[p := MarkDone(db.issues[p])])
        else db
  }

  /** `update_issue`. */
  function UpdateIssueSpec(lib: Lib, db: Db, id: Id, patch: Patch, user: Option<Id>): Txn {
    match UpdateBody(lib, db, id, patch, user)
    case Committed(next, _) => Committed(RollUp(next, id, TargetKind(db, db.issues[id], patch)), id)
    case other => other
  }

  // ---------- delete, convert ----------

  function ActiveChildren(db: Db, id: Id): set<Id> {
    set c | c in db.issues && db.issues[c].Link(ParentId) == Some(id)
            && KindOf(db, db.issues[c]).Some? && !KindOf(db, db.issues[c]).value.Terminal()
  }

  /** Rows whose foreign key to the issue does not cascade. */
  predicate Referenced(db: Db, id: Id) {
    || (exists c :: c in db.issues && db.issues[c].Link(ParentId) == Some(id))
    || (exists k :: 0 <= k < |db.notifications| && db.notifications[k].issue == id)
    || (exists r :: r in db.recurrences && db.recurrences[r].lastIssue == Some(id))
  }

  function CommentsWithout(comments: seq<Comment>, id: Id): seq<Comment> {
    if comments == [] then []
    else (if comments[0].issue == id then [] else [comments[0]]) + CommentsWithout(comments[1..], id)
  }

  function DeleteIssueSpec(db: Db, id: Id): Txn {
    if id !in db.issues then Refused(NotFound)
    else if ActiveChildren(db, id) != {} then Refused(ActiveSubtasks)
    else if Referenced(db, id) then Crashed(BrokenReference)
    else Committed(db.(issues := db.issues - {id},
                       issueLabels := (set p | p in db.issueLabels && p.0 != id),
                       comments := CommentsWithout(db.comments, id)), id)
  }

  function ConvertSpec(db: Db, id: Id): Txn {
    if id !in db.issues then Refused(NotFound)
    else
      var row := db.issues[id];
      if !row.Get(Title).Str? || |row.Get(Title).s| > 255 then Crashed(BadRow)
      else
        var project := Project(row.team, row.Get(Title).s, row.Get(Description), "planned");
        Committed(db.(nextId := db.nextId + 1,
                      projects := db.projects[db.nextId := project],
                      issues := db.issues[id := row.(cells := row.cells[ProjectId := Ref(db.nextId)])]), db.nextId)
  }

  // ---------- batches ----------

  /** A left fold of single creates that ignores refusals. */
  function CreateEach(lib: Lib, db: Db, team: Id, items: seq<NewIssue>, user: Id): Db
    decreases |items|
  {
    if items == [] then db
    else CreateEach(lib, Outcome(db, CreateIssueSpec(lib, db, team, items[0], user)), team, items[1..], user)
  }

  /** One update after another, each committing, until the first that fails. */
  function UpdateEach(lib: Lib, db: Db, ids: seq<Id>, patch: Patch, user: Option<Id>): Db
    decreases |ids|
  {
    if ids == [] then db
    else match UpdateIssueSpec(lib, db, ids[0], patch, user)
      case Committed(next, _) => UpdateEach(lib, next, ids[1..], patch, user)
      case _ => db
  }
}
