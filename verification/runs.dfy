/** Requests as atomic steps on the stored tables, and runs of them. */
module Runs {
  import opened Values
  import opened Transitions
  import opened Store
  import opened IssueSpec
  import opened AdminSpec
  import opened SpawnSpec

  /** What writes the columns of the shared tables that are modelled, except for `DELETE /teams/{id}/audit`, which
      prunes old audit entries: runs only append to the log. The two batch requests are runs of single ones, a
      scheduler tick is a run of `Spawn` steps with other requests between them, and the setup request is a run that
      creates a team, its first member and labels. */
  datatype Op =
    | CreateIssue(team: Id, data: NewIssue, user: Id)
    | UpdateIssue(id: Id, patch: Patch, user: Id)
    | DeleteIssue(id: Id)
    | Convert(id: Id)
    | Spawn(recurrence: Id, now: Time)
    | Admin(request: AdminOp)

  datatype AdminOp =
    | CreateRule(team: Id, newRule: NewRule, actor: Option<Id>)
    | UpdateRule(id: Id, rulePatch: RulePatch, actor: Option<Id>)
    | DeleteRule(id: Id, actor: Option<Id>)
    | CreateRecurrence(team: Id, newRecurrence: NewRecurrence, user: Id, now: Time)
    | UpdateRecurrence(id: Id, recurrencePatch: RecurrencePatch, user: Id, now: Time)
    | DeleteRecurrence(id: Id, user: Id)
    | CreateTeam(key: string, creator: Option<Id>)
    | AddUser(team: Id, name: string, email: string, actor: Option<Id>)
    | ChangeRole(team: Id, user: Id, role: Role, acting: Id)
    | CreateLabel(team: Id, name: string)
    | DeleteLabel(id: Id)
    | CreateState(team: Id, name: string, kind: StateType, position: int)
    | CreateProject(team: Id, name: string, description: Value)
    | UpdateLabel(id: Id, newName: string)
    | UpdateProject(id: Id, rename: Option<string>, state: Option<string>)
    | DeleteProject(id: Id)
    | UpdateTeam(id: Id, triageEnabled: Option<bool>)
    | AddComment(issue: Id, user: Id, body: string)

  function AdminTxn(lib: Lib, db: Db, op: AdminOp): Txn {
    match op
    case CreateRule(team, data, actor) => CreateRuleSpec(db, team, data, actor)
    case UpdateRule(id, p, actor) => UpdateRuleSpec(db, id, p, actor)
    case DeleteRule(id, actor) => DeleteRuleSpec(db, id, actor)
    case CreateRecurrence(team, data, user, now) => CreateRecurrenceSpec(lib, db, team, data, user, now)
    case UpdateRecurrence(id, p, user, now) => UpdateRecurrenceSpec(lib, db, id, p, user, now)
    case DeleteRecurrence(id, user) => DeleteRecurrenceSpec(db, id, user)
    case CreateTeam(key, creator) => CreateTeamSpec(db, key, creator)
    case AddUser(team, name, email, actor) => AddUserSpec(db, team, name, email, actor)
    case ChangeRole(team, user, role, actor) => ChangeRoleSpec(db, team, user, role, actor)
    case CreateLabel(team, name) => CreateLabelSpec(db, team, name)
    case DeleteLabel(id) => DeleteLabelSpec(db, id)
    case CreateState(team, name, kind, position) => CreateStateSpec(db, team, name, kind, position)
    case CreateProject(team, name, description) => CreateProjectSpec(db, team, name, description)
    case UpdateLabel(id, name) => UpdateLabelSpec(db, id, name)
    case UpdateProject(id, name, state) => UpdateProjectSpec(db, id, name, state)
    case DeleteProject(id) => DeleteProjectSpec(db, id)
    case UpdateTeam(id, enabled) => UpdateTeamSpec(db, id, enabled)
    case AddComment(issue, user, body) => AddCommentSpec(db, issue, user, body)
  }

  function Step(lib: Lib, db: Db, op: Op): Db {
    match op
    case CreateIssue(team, data, user) => Outcome(db, CreateIssueSpec(lib, db, team, data, user))
    case UpdateIssue(id, patch, user) => Outcome(db, UpdateIssueSpec(lib, db, id, patch, Some(user)))
    case DeleteIssue(id) => Outcome(db, DeleteIssueSpec(db, id))
    case Convert(id) => Outcome(db, ConvertSpec(db, id))
    case Spawn(r, now) => SpawnOutcome(db, SpawnDue(lib, db, r, now))
    case Admin(request) => Outcome(db, AdminTxn(lib, db, request))
  }

  function Run(lib: Lib, db: Db, ops: seq<Op>): Db
    decreases |ops|
  {
    if ops == [] then db else Run(lib, Step(lib, db, ops[0]), ops[1..])
  }

  /** p holds before every step of the run and at its end. */
  ghost predicate Throughout(lib: Lib, db: Db, ops: seq<Op>, p: Db -> bool)
    decreases |ops|
  {
    p(db) && (ops != [] ==> Throughout(lib, Step(lib, db, ops[0]), ops[1..], p))
  }

  lemma {:induction false} RunConcat(lib: Lib, db: Db, xs: seq<Op>, ys: seq<Op>)
    ensures Run(lib, db, xs + ys) == Run(lib, Run(lib, db, xs), ys)
    decreases |xs|
  {
    hide Step;
    if xs == [] {
      assert xs + ys == ys;
    } else {
      assert (xs + ys)[0] == xs[0] && (xs + ys)[1..] == xs[1..] + ys;
      RunConcat(lib, Step(lib, db, xs[0]), xs[1..], ys);
    }
  }

  // ---------- batches are runs ----------

  function CreateOps(team: Id, items: seq<NewIssue>, user: Id): seq<Op> {
    seq(|items|, k requires 0 <= k < |items| => CreateIssue(team, items[k], user))
  }

  function UpdateOps(ids: seq<Id>, patch: Patch, user: Id): seq<Op> {
    seq(|ids|, k requires 0 <= k < |ids| => UpdateIssue(ids[k], patch, user))
  }

  /** The tables a batch create without a crash commits are those of the run of its items as single creates. */
  lemma {:induction false} BatchCreateIsARun(lib: Lib, db: Db, team: Id, items: seq<NewIssue>, user: Id)
    ensures CreateEach(lib, db, team, items, user) == Run(lib, db, CreateOps(team, items, user))
    decreases |items|
  {
    hide CreateIssueSpec;
    if items != [] {
      assert CreateOps(team, items, user)[1..] == CreateOps(team, items[1..], user);
      BatchCreateIsARun(lib, Outcome(db, CreateIssueSpec(lib, db, team, items[0], user)), team, items[1..], user);
    }
  }

  /** How many updates of the sequence are attempted: up to and including the first that fails. */
  function Attempted(lib: Lib, db: Db, ids: seq<Id>, patch: Patch, user: Id): (n: nat)
    ensures n <= |ids|
    decreases |ids|
  {
    if ids == [] then 0
    else match UpdateIssueSpec(lib, db, ids[0], patch, Some(user))
      case Committed(next, _) => 1 + Attempted(lib, next, ids[1..], patch, user)
      case _ => 1
  }

  /** A batch update commits what the run of its attempted updates does. */
  lemma {:induction false} BatchUpdateIsARun(lib: Lib, db: Db, ids: seq<Id>, patch: Patch, user: Id)
    ensures UpdateEach(lib, db, ids, patch, Some(user))
      == Run(lib, db, UpdateOps(ids[..Attempted(lib, db, ids, patch, user)], patch, user))
    decreases |ids|
  {
    hide UpdateIssueSpec;
    if ids != [] {
      var n := Attempted(lib, db, ids, patch, user);
      var ops := UpdateOps(ids[..n], patch, user);
      var t := UpdateIssueSpec(lib, db, ids[0], patch, Some(user));
      if t.Committed? {
        assert ops[1..] == UpdateOps(ids[1..][..n - 1], patch, user);
        BatchUpdateIsARun(lib, t.db, ids[1..], patch, user);
      } else {
        assert ops[1..] == [];
      }
    }
  }
}
