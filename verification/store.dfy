/** The tables that the issue write path, the rules engine and the scheduler share. */
module Store {
  import opened Values
  import opened Transitions
  import opened Conditions
  import opened Actions

  datatype Team = Team(key: string, triageEnabled: bool)
  datatype User = User(name: string, email: string)
  datatype Role = Owner | Admin | Member
  datatype WorkflowState = WorkflowState(team: Id, name: string, kind: StateType, position: int)
  datatype Project = Project(team: Id, name: string, description: Value, state: string)
  datatype Label = Label(team: Id, name: string)
  datatype Comment = Comment(issue: Id, user: Id, body: string)
  datatype Notification = Notification(team: Id, user: Option<Id>, rule: Id, issue: Id, message: string)

  /** An issue row: what no write changes, and the writable columns by name. A column without a value is NULL. */
  datatype Issue = Issue(team: Id, createdBy: Id, archived: bool, cells: map<Column, Value>) {
    function Get(c: Column): Value {
      if c in cells then cells[c] else Null
    }

    function Link(c: Column): Option<Id> {
      match Get(c)
      case Ref(id) => Some(id)
      case _ => None
    }
  }

  datatype Trigger = IssueCreated | IssueStateChanged | IssueAssigned | IssueUpdated | OtherTrigger

  /** A rule row; `conditions` None is the empty object, which always matches. */
  datatype Rule = Rule(
    id: Id,
    team: Id,
    name: string,
    enabled: bool,
    trigger: Trigger,
    conditions: Option<Cond>,
    actions: seq<Action>,
    priority: int
  )

  datatype Entity = IssueEntity | SpawnEntity | RuleEntity | MembershipEntity | RecurrenceEntity
  datatype AuditAction = Create | Update | Delete
  datatype Change = Change(before: Value, after: Value)

  datatype AuditEntry = AuditEntry(
    team: Id,
    entity: Entity,
    entityId: Id,
    action: AuditAction,
    user: Id,
    diff: map<Column, Change>,
    recurrence: Option<Id>
  )

  datatype Schedule = Cron(expr: string) | Interval(expr: string)

  datatype Recurrence = Recurrence(
    team: Id,
    createdBy: Id,
    titleTemplate: string,
    description: Value,
    defaults: map<string, Value>,
    schedule: Schedule,
    nextDue: Time,
    lastSpawned: Option<Time>,
    lastIssue: Option<Id>,
    active: bool
  )

  /** `rules` and the logs are in physical row order, which is arbitrary for rules. */
  datatype Db = Db(
    nextId: Id,
    teams: map<Id, Team>,
    users: map<Id, User>,
    members: map<(Id, Id), Role>,       // (team, user)
    states: map<Id, WorkflowState>,
    projects: map<Id, Project>,
    labels: map<Id, Label>,
    issues: map<Id, Issue>,
    issueLabels: set<(Id, Id)>,         // (issue, label)
    rules: seq<Rule>,
    comments: seq<Comment>,
    notifications: seq<Notification>,
    audit: seq<AuditEntry>,
    recurrences: map<Id, Recurrence>
  )

  const EMPTY: Db := Db(0, map[], map[], map[], map[], map[], map[], map[], {}, [], [], [], [], map[])

  /** The category of the state an issue is in. */
  function KindOf(db: Db, i: Issue): Option<StateType> {
    match i.Link(StateId)
    case Some(s) => if s in db.states then Some(db.states[s].kind) else None
    case None => None
  }

  predicate FitsInteger(n: int) {
    -0x8000_0000 <= n < 0x8000_0000
  }

  /** What the issues table accepts in a column: type, width, NOT NULL and foreign key. */
  predicate Fits(db: Db, c: Column, v: Value) {
    match c
    case Title => v.Str? && |v.s| <= 500
    case Description => v.Null? || v.Str?
    case Kind => v == Str("task") || v == Str("reference") || v == Str("idea")
    case Priority => v.Int? && FitsInteger(v.n)
    case Estimate => v.Null? || (v.Int? && FitsInteger(v.n))
    case Position => v.Null? || (v.Int? && FitsInteger(v.n))
    case StateId => v.Ref? && v.id in db.states
    case AssigneeId => v.Null? || (v.Ref? && v.id in db.users)
    case ProjectId => v.Null? || (v.Ref? && v.id in db.projects)
    case ParentId => v.Null? || (v.Ref? && v.id in db.issues)
    case DueDate => v.Null? || v.Date?
    case CustomFields => v.Null? || v.Obj?
    case TriageContext => v.Null? || v.Obj?
  }

  /** A flush of this row raises no database error. */
  predicate RowOk(db: Db, i: Issue) {
    forall c: Column :: Fits(db, c, i.Get(c))
  }

  /** `select(...).where(team, type).order_by(position).limit(1)`; ties go to the smallest id. */
  function StatesOfKind(db: Db, team: Id, kind: StateType): set<Id> {
    set s | s in db.states && db.states[s].team == team && db.states[s].kind == kind
  }

  predicate Precedes(db: Db, s: Id, other: Id)
    requires s in db.states && other in db.states
  {
    db.states[s].position < db.states[other].position ||
    (db.states[s].position == db.states[other].position && s <= other)
  }

  ghost predicate IsFirst(db: Db, s: Id, ids: set<Id>)
    requires ids <= db.states.Keys
  {
    s in ids && forall other :: other in ids ==> Precedes(db, s, other)
  }

  lemma {:induction false} FirstExists(db: Db, ids: set<Id>) returns (first: Id)
    requires ids != {} && ids <= db.states.Keys
    ensures IsFirst(db, first, ids)
    decreases |ids|
  {
    var x :| x in ids;
    var rest := ids - {x};
    assert ids == rest + {x};
    first := x;
    if rest != {} {
      var other := FirstExists(db, rest);
      if !Precedes(db, x, other) {
        first := other;
      }
    }
  }

  function FirstState(db: Db, team: Id, kind: StateType): (s: Option<Id>)
    ensures s.None? <==> forall id :: id in db.states ==> !(db.states[id].team == team && db.states[id].kind == kind)
    ensures s.Some? ==> s.value in db.states && db.states[s.value].team == team && db.states[s.value].kind == kind
    ensures s.Some? ==> forall id :: id in StatesOfKind(db, team, kind) ==> Precedes(db, s.value, id)
  {
    var ids := StatesOfKind(db, team, kind);
    if ids == {} then
      assert forall id :: id in db.states && db.states[id].team == team && db.states[id].kind == kind ==> id in ids;
      None
    else
      assert exists first :: IsFirst(db, first, ids) by {
        var _ := FirstExists(db, ids);
      }
      var first :| first in ids && forall other :: other in ids ==> Precedes(db, first, other);
      Some(first)
  }
}
