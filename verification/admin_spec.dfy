/** The other writes to the shared tables: rules, recurrences, teams, members, and the rows issues refer to. */
module AdminSpec {
  import opened Values
  import opened Transitions
  import opened Conditions
  import opened Actions
  import opened Store
  import opened Queries
  import opened IssueSpec
  import opened Schedules

  function Entry(team: Id, entity: Entity, id: Id, action: AuditAction, user: Id): AuditEntry {
    AuditEntry(team, entity, id, action, user, map[], None)
  }

  /** `if user_id is not None: record_audit(...)`. */
  function LoggedBy(db: Db, team: Id, entity: Entity, id: Id, action: AuditAction, user: Option<Id>): Db {
    if user.None? then db else Logged(db, Entry(team, entity, id, action, user.value))
  }

  // ---------- rules ----------

  datatype NewRule = NewRule(name: string, trigger: Trigger, conditions: Option<Cond>, actions: seq<Action>,
                             priority: int, enabled: bool)

  /** The fields of a rule update that are set. */
  datatype RulePatch = RulePatch(name: Option<string>, trigger: Option<Trigger>, conditions: Option<Option<Cond>>,
                                 actions: Option<seq<Action>>, priority: Option<int>, enabled: Option<bool>)

  predicate ValidActions(actions: seq<Action>) {
    forall k :: 0 <= k < |actions| ==> ValidAction(actions[k])
  }

  function CreateRuleSpec(db: Db, team: Id, data: NewRule, user: Option<Id>): Txn {
    if !ValidActions(data.actions) then Refused(Invalid)
    else
      var rule := Rule(db.nextId, team, data.name, data.enabled, data.trigger, data.conditions, data.actions,
        data.priority);
      Committed(LoggedBy(db.(nextId := db.nextId + 1, rules := db.rules + [rule]), team, RuleEntity, db.nextId, Create,
        user), db.nextId)
  }

  function Or<T>(o: Option<T>, fallback: T): T {
    if o.Some? then o.value else fallback
  }

  function PatchedRule(r: Rule, p: RulePatch): Rule {
    r.(name := Or(p.name, r.name), trigger := Or(p.trigger, r.trigger), conditions := Or(p.conditions, r.conditions),
       actions := Or(p.actions, r.actions), priority := Or(p.priority, r.priority), enabled := Or(p.enabled, r.enabled))
  }

  /** The position of the rule row with this id. */
  function RuleAt(rules: seq<Rule>, id: Id): (k: Option<nat>)
    ensures k.Some? ==> k.value < |rules| && rules[k.value].id == id
    ensures k.Some? ==> forall j :: 0 <= j < k.value ==> rules[j].id != id
    ensures k.None? ==> forall r :: r in rules ==> r.id != id
  {
    if rules == [] then None
    else if rules[0].id == id then Some(0)
    else
      var k := RuleAt(rules[1..], id);
      if k.Some? then Some(k.value + 1) else None
  }

  function UpdateRuleSpec(db: Db, id: Id, p: RulePatch, user: Option<Id>): Txn {
    var k := RuleAt(db.rules, id);
    if k.None? then Refused(NotFound)
    else if p.actions.Some? && !ValidActions(p.actions.value) then Refused(Invalid)
    else
      var rule := PatchedRule(db.rules[k.value], p);
      Committed(LoggedBy(db.(rules := db.rules[k.value := rule]), rule.team, RuleEntity, id, Update, user), id)
  }

  /** A rule that a notification refers to cannot be deleted. */
  function DeleteRuleSpec(db: Db, id: Id, user: Option<Id>): Txn {
    var k := RuleAt(db.rules, id);
    if k.None? then Refused(NotFound)
    else if exists n :: 0 <= n < |db.notifications| && db.notifications[n].rule == id then Crashed(BrokenReference)
    else
      var team := db.rules[k.value].team;
      Committed(LoggedBy(db.(rules := db.rules[..k.value] + db.rules[k.value + 1..]), team, RuleEntity, id,
        Delete, user), id)
  }

  // ---------- recurrences ----------

  datatype NewRecurrence = NewRecurrence(title: string, description: Value, defaults: map<string, Value>,
                                         schedule: Schedule, nextDue: Option<Time>)

  datatype RecurrencePatch = RecurrencePatch(
    title: Option<string>,
    description: Option<Value>,
    defaults: Option<map<string, Value>>,
    schedule: Option<Schedule>,
    nextDue: Option<Time>,
    active: Option<bool>
  )

  function CreateRecurrenceSpec(lib: Lib, db: Db, team: Id, data: NewRecurrence, user: Id, now: Time): Txn {
    if !ValidSchedule(lib, data.schedule) then Refused(Invalid)
    else
      var due := if data.nextDue.Some? then Ok(data.nextDue.value) else NextDue(lib, data.schedule, now);
      match due
      case Err(e) => Crashed(e)
      case Ok(t) =>
        var rec := Recurrence(team, user, data.title, data.description, data.defaults, data.schedule, t, None,
          None, true);
        Committed(Logged(db.(nextId := db.nextId + 1, recurrences := db.recurrences[db.nextId := rec]),
                         Entry(team, RecurrenceEntity, db.nextId, Create, user)), db.nextId)
  }

  /** A changed schedule is rescheduled from now unless the request carries its own due time. */
  function UpdateRecurrenceSpec(lib: Lib, db: Db, id: Id, p: RecurrencePatch, user: Id, now: Time): Txn {
    if id !in db.recurrences then Refused(NotFound)
    else if p.schedule.Some? && !ValidSchedule(lib, p.schedule.value) then Refused(Invalid)
    else
      var rec := db.recurrences[id];
      var due := if p.nextDue.Some? then Ok(p.nextDue.value)
                 else if p.schedule.Some? then NextDue(lib, p.schedule.value, now)
                 else Ok(rec.nextDue);
      match due
      case Err(e) => Crashed(e)
      case Ok(t) =>
        var updated := rec.(
          titleTemplate := Or(p.title, rec.titleTemplate), description := Or(p.description, rec.description),
          defaults := Or(p.defaults, rec.defaults), schedule := Or(p.schedule, rec.schedule),
          nextDue := t, active := Or(p.active, rec.active));
        Committed(Logged(db.(recurrences := db.recurrences[id := updated]),
          Entry(rec.team, RecurrenceEntity, id, Update, user)), id)
  }

  function DeleteRecurrenceSpec(db: Db, id: Id, user: Id): Txn {
    if id !in db.recurrences then Refused(NotFound)
    else
      var entry := Entry(db.recurrences[id].team, RecurrenceEntity, id, Delete, user);
      Committed(Logged(db, entry).(recurrences := db.recurrences - {id}), id)
  }

  // ---------- teams, members, labels, states, projects ----------

  const DEFAULT_STATES: seq<(string, StateType)> := [
    ("Triage", Triage), ("Backlog", Backlog), ("Todo", Unstarted),
    ("In Progress", Started), ("Done", Completed), ("Canceled", Canceled)
  ]

  function SeedStates(db: Db, team: Id, seeds: seq<(string, StateType)>): Db
    decreases |seeds|
  {
    if seeds == [] then db
    else
      var state := WorkflowState(team, seeds[0].0, seeds[0].1, 0);
      SeedStates(db.(nextId := db.nextId + 1, states := db.states[db.nextId := state]), team, seeds[1..])
  }

  /** A team with its six default states; the creator, if known, becomes its OWNER. */
  function CreateTeamSpec(db: Db, key: string, creator: Option<Id>): Txn {
    if exists t :: t in db.teams && db.teams[t].key == key then Refused(Invalid)
    else if creator.Some? && creator.value !in db.users then Crashed(BrokenReference)
    else
      var team := db.nextId;
      var seeded := SeedStates(db.(nextId := team + 1, teams := db.teams[team := Team(key, true)]), team,
        DEFAULT_STATES);
      Committed(if creator.None? then seeded
        else seeded.(members := seeded.members[(team, creator.value) := Owner]), team)
  }

  function UsersWithEmail(db: Db, email: string): set<Id> {
    set u | u in db.users && db.users[u].email == email
  }

  function MembersOf(db: Db, team: Id): set<(Id, Id)> {
    set m | m in db.members && m.0 == team
  }

  function OwnersOf(db: Db, team: Id): set<(Id, Id)> {
    set m | m in db.members && m.0 == team && db.members[m] == Owner
  }

  /** The membership row for this user, the first member of a team becoming its OWNER. */
  function JoinTeam(db: Db, team: Id, user: Id, actor: Option<Id>): Db {
    if (team, user) in db.members then db
    else
      var role := if MembersOf(db, team) == {} then Owner else Member;
      LoggedBy(db.(members := db.members[(team, user) := role]), team, MembershipEntity, user, Create, actor)
  }

  /** A new membership needs an existing team. */
  function JoinTxn(db: Db, team: Id, user: Id, actor: Option<Id>): Txn {
    if (team, user) !in db.members && team !in db.teams then Crashed(BrokenReference)
    else Committed(JoinTeam(db, team, user, actor), user)
  }

  /** The row with this email if there is one, and otherwise a new row, joins the team. */
  function AddUserSpec(db: Db, team: Id, name: string, email: string, actor: Option<Id>): Txn {
    var known := UsersWithEmail(db, email);
    if |known| > 1 then Crashed(TooManyRows)
    else if known == {} then
      JoinTxn(db.(nextId := db.nextId + 1, users := db.users[db.nextId := User(name, email)]), team, db.nextId, actor)
    else
      JoinTxn(db, team, Least(known), actor)
  }

  function ChangeRoleSpec(db: Db, team: Id, user: Id, role: Role, actor: Id): Txn {
    if (team, user) !in db.members then Refused(NotFound)
    else if db.members[(team, user)] == Owner && role != Owner && |OwnersOf(db, team)| <= 1 then Refused(Invalid)
    else Committed(Logged(db.(members := db.members[(team, user) := role]),
      Entry(team, MembershipEntity, user, Update, actor)), user)
  }

  function CreateLabelSpec(db: Db, team: Id, name: string): Txn {
    if exists l :: l in db.labels && db.labels[l].team == team && db.labels[l].name == name then Refused(Invalid)
    else Committed(db.(nextId := db.nextId + 1, labels := db.labels[db.nextId := Label(team, name)]), db.nextId)
  }

  /** Deleting a label cascades to its attachments. */
  function DeleteLabelSpec(db: Db, id: Id): Txn {
    if id !in db.labels then Refused(NotFound)
    else Committed(db.(labels := db.labels - {id}, issueLabels := (set p | p in db.issueLabels && p.1 != id)), id)
  }

  predicate NameTaken(db: Db, id: Id, name: string)
    requires id in db.labels
  {
    exists l :: l in db.labels && l != id && db.labels[l].team == db.labels[id].team && db.labels[l].name == name
  }

  /** A label takes a new name unless another label of its team has it. */
  function UpdateLabelSpec(db: Db, id: Id, name: string): Txn {
    if id !in db.labels then Refused(NotFound)
    else if NameTaken(db, id, name) then Crashed(BadRow)
    else Committed(db.(labels := db.labels[id := db.labels[id].(name := name)]), id)
  }

  function CreateStateSpec(db: Db, team: Id, name: string, kind: StateType, position: int): Txn {
    if exists s :: s in db.states && db.states[s].team == team && db.states[s].name == name then Crashed(BadRow)
    else Committed(db.(nextId := db.nextId + 1,
      states := db.states[db.nextId := WorkflowState(team, name, kind, position)]), db.nextId)
  }

  function CreateProjectSpec(db: Db, team: Id, name: string, description: Value): Txn {
    Committed(db.(nextId := db.nextId + 1,
      projects := db.projects[db.nextId := Project(team, name, description, "planned")]), db.nextId)
  }

  function UpdateProjectSpec(db: Db, id: Id, name: Option<string>, state: Option<string>): Txn {
    if id !in db.projects then Refused(NotFound)
    else
      var project := db.projects[id];
      Committed(db.(projects := db.projects[id :=
        project.(name := Or(name, project.name), state := Or(state, project.state))]), id)
  }

  predicate ProjectInUse(db: Db, id: Id) {
    exists i :: i in db.issues && db.issues[i].Link(ProjectId) == Some(id)
  }

  /** A project with issues, archived or not, cannot be deleted. */
  function DeleteProjectSpec(db: Db, id: Id): Txn {
    if id !in db.projects then Refused(NotFound)
    else if ProjectInUse(db, id) then Refused(Invalid)
    else Committed(db.(projects := db.projects - {id}), id)
  }

  function UpdateTeamSpec(db: Db, id: Id, triageEnabled: Option<bool>): Txn {
    if id !in db.teams then Refused(NotFound)
    else Committed(db.(teams := db.teams[id :=
      db.teams[id].(triageEnabled := Or(triageEnabled, db.teams[id].triageEnabled))]), id)
  }

  function AddCommentSpec(db: Db, issue: Id, user: Id, body: string): Txn {
    if issue !in db.issues || user !in db.users then Crashed(BrokenReference)
    else Committed(db.(comments := db.comments + [Comment(issue, user, body)]), issue)
  }
}
