/** services/issue_service.py and `apply_effects`, statement by statement, each method proved to end in the
    tables that its function in IssueSpec gives. */
module IssueService {
  import opened Values
  import opened Transitions
  import opened Context
  import opened Store
  import opened Queries
  import opened Evaluator
  import opened Effects
  import opened IssueSpec
  import opened Sessions

  /** The answer to a request. */
  datatype Reply = Done(id: Id) | Refuse(why: Refusal) | Crash(error: Error)

  function ReplyTo(t: Txn): Reply {
    match t
    case Committed(_, id) => Done(id)
    case Refused(why) => Refuse(why)
    case Crashed(e) => Crash(e)
  }

  // ---------- effects and diff ----------

  method ApplyRuleEffects(lib: Lib, s: Session, id: Id, firings: seq<Firing>, user: Id) returns (failure: Option<Error>)
    requires id in s.working.issues
    modifies s`working
    ensures match ApplyEffects(lib, old(s.working), id, firings, user)
      case Ok(next) => failure == None && s.working == next
      case Err(e) => failure == Some(e)
  {
    hide ApplyOne;
    ghost var start := s.working;
    var i := 0;
    while i < |firings|
      invariant i <= |firings|
      invariant id in s.working.issues
      invariant ApplyAll(lib, start, id, Flatten(firings), user)
             == ApplyAll(lib, s.working, id, Flatten(firings[i..]), user)
    {
      var effects := Tag(firings[i].rule, firings[i].effects);
      var j := 0;
      while j < |effects|
        invariant j <= |effects|
        invariant id in s.working.issues
        invariant ApplyAll(lib, start, id, Flatten(firings), user)
               == ApplyAll(lib, s.working, id, effects[j..] + Flatten(firings[i + 1..]), user)
      {
        ghost var todo := effects[j..] + Flatten(firings[i + 1..]);
        assert todo[0] == effects[j] && todo[1..] == effects[j + 1..] + Flatten(firings[i + 1..]);
        match ApplyOne(lib, s.working, id, effects[j], user) {
          case Err(e) => return Some(e);
          case Ok(next) => s.working := next;
        }
        j := j + 1;
      }
      assert effects[j..] + Flatten(firings[i + 1..]) == Flatten(firings[i + 1..]);
      i := i + 1;
    }
    failure := if RowOk(s.working, s.working.issues[id]) then None else Some(BadRow);
  }

  /** The loop of `compute_diff` over the tracked fields. */
  method ComputeDiff(before: map<Column, Value>, after: map<Column, Value>, fields: seq<Column>)
    returns (changes: map<Column, Change>)
    ensures forall c :: c in changes <==> c in fields && Cell(before, c) != Cell(after, c)
    ensures forall c :: c in changes ==> changes[c] == Change(Cell(before, c), Cell(after, c))
  {
    changes := map[];
    for i := 0 to |fields|
      invariant forall c :: c in changes <==> c in fields[..i] && Cell(before, c) != Cell(after, c)
      invariant forall c :: c in changes ==> changes[c] == Change(Cell(before, c), Cell(after, c))
    {
      var c := fields[i];
      if Cell(before, c) != Cell(after, c) {
        changes := changes[c := Change(Cell(before, c), Cell(after, c))];
      }
    }
  }

  const TRACKED_FIELDS: seq<Column> := [
    Title, Description, Priority, Estimate, StateId, AssigneeId, ProjectId, ParentId, DueDate, Kind, CustomFields,
    TriageContext, Position
  ]

  lemma AllFieldsAreTracked(c: Column)
    ensures c in TRACKED_FIELDS
  {
    var at := match c
      case Title => 0 case Description => 1 case Priority => 2 case Estimate => 3 case StateId => 4 case AssigneeId => 5
      case ProjectId => 6 case ParentId => 7 case DueDate => 8 case Kind => 9 case CustomFields => 10
      case TriageContext => 11 case Position => 12;
    assert TRACKED_FIELDS[at] == c;
  }

  /** The part of the patch already written. */
  function Written(patch: Patch, todo: set<Column>): Patch {
    map c | c in patch && c !in todo :: patch[c]
  }

  lemma WriteOne(db: Db, id: Id, patch: Patch, todo: set<Column>, c: Column)
    requires id in db.issues && c in todo && todo <= patch.Keys
    ensures SetCell(Patched(db, id, Written(patch, todo)), id, c, patch[c])
      == Patched(db, id, Written(patch, todo - {c}))
  {
    var row := db.issues[id];
    var before, after := row.cells + Written(patch, todo), row.cells + Written(patch, todo - {c});
    assert after == before[c := patch[c]];
    assert db.issues[id := row.(cells := before)][id := row.(cells := after)] == db.issues[id := row.(cells := after)];
  }

  lemma WriteNone(db: Db, id: Id, patch: Patch)
    requires id in db.issues
    ensures Patched(db, id, Written(patch, patch.Keys)) == db
    ensures Written(patch, {}) == patch
  {
    assert Written(patch, patch.Keys) == map[];
    assert db.issues[id].cells + map[] == db.issues[id].cells;
    assert db.issues[id := db.issues[id]] == db.issues;
  }

  /** `for field, value in update_data.items(): setattr(issue, field, value)`. */
  method SetAttributes(s: Session, id: Id, patch: Patch)
    requires id in s.working.issues
    modifies s`working
    ensures s.working == Patched(old(s.working), id, patch)
  {
    hide Written;
    ghost var start := s.working;
    var todo := patch.Keys;
    WriteNone(start, id, patch);
    while todo != {}
      invariant todo <= patch.Keys && id in s.working.issues
      invariant s.working == Patched(start, id, Written(patch, todo))
    {
      var c :| c in todo;
      WriteOne(start, id, patch, todo, c);
      s.working := SetCell(s.working, id, c, patch[c]);
      todo := todo - {c};
    }
  }

  // ---------- create ----------

  /** `_create_issue_impl`: does not commit, and may leave pending writes behind when it raises. */
  method CreateIssueImpl(lib: Lib, s: Session, team: Id, data: NewIssue, user: Id) returns (reply: Reply)
    modifies s`working
    ensures var t := CreateIssueSpec(lib, old(s.working), team, data, user);
      reply == ReplyTo(t) && (t.Committed? ==> s.working == t.db)
  {
    hide EvaluateInOrder;
    hide ApplyEffects;
    hide RowOk;
    var problem := CreateProblem(s.working, team, data);
    if problem.Some? {
      return Refuse(problem.value);
    }
    var stateId := CreateStateOf(s.working, team, data);
    if stateId.None? {
      return Crash(BadRow);
    }
    var row, id := NewRow(s.working, team, data, user), s.working.nextId;
    if !RowOk(s.working, row) || !Distinct(data.labels) {
      return Crash(BadRow);
    }
    StateOfGoodRow(s.working, row, stateId.value);
    var state := s.working.states[stateId.value];
    s.working := InsertIssue(s.working, row, data.labels);

    var verdict := EvaluateRules(lib, s.working, team, IssueCreated, CreateContext(lib, row, state, user));
    if verdict.Stopped? {
      return ReplyTo(StopTxn(verdict.stop));
    }
    if verdict.firings != [] {
      var failure := ApplyRuleEffects(lib, s, id, verdict.firings, user);
      if failure.Some? {
        return Crash(failure.value);
      }
    }
    s.working := Logged(s.working, IssueEntry(team, id, Create, user, map[]));
    reply := Done(id);
  }

  lemma StateOfGoodRow(db: Db, row: Issue, state: Id)
    requires RowOk(db, row) && row.Get(StateId) == Ref(state)
    ensures state in db.states
  {
    assert Fits(db, StateId, row.Get(StateId));
  }

  method CreateIssue(lib: Lib, s: Session, team: Id, data: NewIssue, user: Id) returns (reply: Reply)
    requires s.Idle()
    modifies s
    ensures var t := CreateIssueSpec(lib, old(s.committed), team, data, user);
      s.Idle() && s.committed == Outcome(old(s.committed), t) && reply == ReplyTo(t)
  {
    reply := CreateIssueImpl(lib, s, team, data, user);
    if reply.Done? {
      s.Commit();
    } else {
      s.Rollback();
    }
  }

  datatype ItemResult = Created(id: Id) | Failed(why: Refusal)

  function ItemResultOf(t: Txn): ItemResult
    requires !t.Crashed?
  {
    match t
    case Committed(_, id) => Created(id)
    case Refused(why) => Failed(why)
  }

  /** The k-th item, seen from the tables that the single creates before it leave. */
  function ItemTxn(lib: Lib, db: Db, team: Id, items: seq<NewIssue>, user: Id, k: nat): Txn
    requires k < |items|
  {
    CreateIssueSpec(lib, CreateEach(lib, db, team, items[..k], user), team, items[k], user)
  }

  lemma {:induction false} CreateEachSnoc(lib: Lib, db: Db, team: Id, items: seq<NewIssue>, user: Id, k: nat)
    requires k < |items|
    ensures CreateEach(lib, db, team, items[..k + 1], user)
      == Outcome(CreateEach(lib, db, team, items[..k], user), ItemTxn(lib, db, team, items, user, k))
    decreases k
  {
    hide CreateIssueSpec;
    assert items[..k + 1][0] == items[0] && items[..k + 1][1..] == items[1..][..k];
    if k == 0 {
      assert items[1..][..0] == [] && items[..0] == [];
    } else {
      assert items[..k][0] == items[0] && items[..k][1..] == items[1..][..k - 1];
      CreateEachSnoc(lib, Outcome(db, CreateIssueSpec(lib, db, team, items[0], user)), team, items[1..], user, k - 1);
    }
  }

  /** One transaction with a savepoint per item. When no item crashes, the tables end as if the items had been
      created by single requests in order, refusals ignored; when one crashes, the whole batch is undone. */
  method BatchCreateIssues(lib: Lib, s: Session, team: Id, items: seq<NewIssue>, user: Id)
    returns (results: seq<ItemResult>, crash: Option<Error>)
    requires s.Idle()
    modifies s
    ensures s.Idle()
    ensures crash.None? <==> forall k :: 0 <= k < |items| ==>
      !ItemTxn(lib, old(s.committed), team, items, user, k).Crashed?
    ensures crash.Some? ==> s.committed == old(s.committed)
    ensures crash.None? ==>
      && s.committed == CreateEach(lib, old(s.committed), team, items, user)
      && |results| == |items|
      && forall k :: 0 <= k < |items| ==>
           results[k] == ItemResultOf(ItemTxn(lib, old(s.committed), team, items, user, k))
  {
    hide CreateIssueSpec;
    ghost var start := s.committed;
    results, crash := [], None;
    var i := 0;
    while i < |items|
      invariant i <= |items| && |results| == i
      invariant s.committed == start
      invariant s.working == CreateEach(lib, start, team, items[..i], user)
      invariant forall k :: 0 <= k < i ==> !ItemTxn(lib, start, team, items, user, k).Crashed?
      invariant forall k :: 0 <= k < i ==> results[k] == ItemResultOf(ItemTxn(lib, start, team, items, user, k))
    {
      CreateEachSnoc(lib, start, team, items, user, i);
      var saved := s.Savepoint();
      var reply := CreateIssueImpl(lib, s, team, items[i], user);
      match reply {
        case Done(id) =>
          results := results + [Created(id)];
        case Refuse(why) =>
          s.RollbackTo(saved);
          results := results + [Failed(why)];
        case Crash(e) =>
          assert ItemTxn(lib, start, team, items, user, i).Crashed?;
          s.Rollback();
          return results, Some(e);
      }
      i := i + 1;
    }
    assert items[..i] == items;
    s.Commit();
  }

  // ---------- update ----------

  method RollUpParent(s: Session, id: Id, target: Option<StateType>)
    requires s.Idle() && id in s.committed.issues
    modifies s
    ensures s.Idle() && s.committed == RollUp(old(s.committed), id, target)
    ensures s.committed == old(s.committed)
      || (var p := old(s.committed).issues[id].Link(ParentId);
          p.Some? && Marked(old(s.committed), s.committed, p.value))
  {
    if target.Some? && target.value.Terminal() && s.working.issues[id].Link(ParentId).Some? {
      var parent := s.working.issues[id].Link(ParentId).value;
      var siblings := SiblingsOf(s.working, id, parent);
      if siblings != {} {
        var terminal := StateIds(s.working, s.working.issues[id].team, {Completed, Canceled});
        var allDone := forall k :: k in siblings ==>
          s.working.issues[k].Link(StateId).Some? && s.working.issues[k].Link(StateId).value in terminal;
        if allDone && parent in s.working.issues {
          var row := s.working.issues[parent];
          var context := if row.Get(TriageContext).Obj? then row.Get(TriageContext).entries else map[];
          context := context["children_all_done" := Bool(true)];
          MarkDoneMarks(s.working, parent);
          s.working := SetCell(s.working, parent, TriageContext, Obj(context));
          s.Commit();
        }
      }
    }
  }

  /** The three calls of `evaluate_rules`, none made after one has stopped the write. */
  method EvaluateUpdateRules(lib: Lib, db: Db, row: Issue, patch: Patch, ctx: RuleContext) returns (v: Verdict)
    ensures v == EvaluateInOrder(lib, db, UpdateRules(db, row, patch), ctx, row.team)
  {
    hide EvaluateInOrder;
    ghost var moved := if Moves(row, patch) then MatchingRules(db.rules, row.team, IssueStateChanged) else [];
    ghost var given := if Reassigns(row, patch) then MatchingRules(db.rules, row.team, IssueAssigned) else [];
    ghost var general := MatchingRules(db.rules, row.team, IssueUpdated);
    EvaluateConcat(lib, db, moved + given, general, ctx, row.team);
    EvaluateConcat(lib, db, moved, given, ctx, row.team);
    EvaluateNone(lib, db, ctx, row.team);

    var effects: seq<Firing> := [];
    if Moves(row, patch) {
      v := EvaluateRules(lib, db, row.team, IssueStateChanged, ctx);
      if v.Stopped? {
        return;
      }
      effects := effects + v.firings;
    }
    if Reassigns(row, patch) {
      v := EvaluateRules(lib, db, row.team, IssueAssigned, ctx);
      if v.Stopped? {
        return;
      }
      effects := effects + v.firings;
    }
    v := EvaluateRules(lib, db, row.team, IssueUpdated, ctx);
    if v.Accepted? {
      v := Accepted(effects + v.firings);
    }
  }

  lemma EvaluateNone(lib: Lib, db: Db, ctx: RuleContext, team: Id)
    ensures EvaluateInOrder(lib, db, [], ctx, team) == Accepted([])
  {
  }

  /** `update_issue` from the accepted rules to its commit; pending writes are left behind on a crash. */
  method WriteUpdate(lib: Lib, s: Session, id: Id, patch: Patch, user: Option<Id>, firings: seq<Firing>)
    returns (reply: Reply)
    requires id in s.working.issues
    modifies s`working
    ensures var t := UpdateAccepted(lib, old(s.working), id, patch, user, firings);
      reply == ReplyTo(t) && (t.Committed? ==> s.working == t.db)
  {
    hide ApplyEffects;
    hide RowOk;
    var row := s.working.issues[id];
    SetAttributes(s, id, patch);
    var diff := ComputeDiff(row.cells, row.cells + patch, TRACKED_FIELDS);
    DiffIsDiffOf(row, patch, diff);
    if !RowOk(s.working, s.working.issues[id]) {
      return Crash(BadRow);
    }
    if firings != [] {
      var failure := ApplyRuleEffects(lib, s, id, firings, if user.Some? then user.value else row.createdBy);
      if failure.Some? {
        return Crash(failure.value);
      }
    }
    if user.Some? {
      if !Serializable(diff) {
        return Crash(NotSerializable);
      }
      s.working := Logged(s.working, IssueEntry(row.team, id, Update, user.value, diff));
    }
    reply := Done(id);
  }

  lemma DiffIsDiffOf(row: Issue, patch: Patch, diff: map<Column, Change>)
    requires forall c :: c in diff <==> c in TRACKED_FIELDS && Cell(row.cells, c) != Cell(row.cells + patch, c)
    requires forall c :: c in diff ==> diff[c] == Change(Cell(row.cells, c), Cell(row.cells + patch, c))
    ensures diff == DiffOf(row, patch)
  {
    forall c: Column ensures c in diff <==> c in DiffOf(row, patch) {
      AllFieldsAreTracked(c);
    }
  }

  method UpdateIssue(lib: Lib, s: Session, id: Id, patch: Patch, user: Option<Id>) returns (reply: Reply)
    requires s.Idle()
    modifies s
    ensures var t := UpdateIssueSpec(lib, old(s.committed), id, patch, user);
      s.Idle() && s.committed == Outcome(old(s.committed), t) && reply == ReplyTo(t)
  {
    hide EvaluateInOrder;
    hide UpdateAccepted;
    hide RollUp;
    if id !in s.working.issues {
      return Refuse(NotFound);
    }
    var row := s.working.issues[id];
    var problem := UpdateProblem(s.working, id, patch);
    if problem.Some? {
      return Refuse(problem.value);
    }
    var current := StateRow(s.working, row.Get(StateId));
    if current.None? {
      return Crash(NoSuchRow);
    }
    var refused := TransitionProblem(s.working, row, patch, current.value);
    if refused.Some? {
      return Refuse(refused.value);
    }
    var target := TargetKind(s.working, row, patch);
    var ctx := UpdateContext(lib, s.working, row, patch, current.value, user);
    var verdict := EvaluateUpdateRules(lib, s.working, row, patch, ctx);
    if verdict.Stopped? {
      s.Rollback();
      return ReplyTo(StopTxn(verdict.stop));
    }
    reply := WriteUpdate(lib, s, id, patch, user, verdict.firings);
    if !reply.Done? {
      s.Rollback();
      return;
    }
    s.Commit();
    RollUpParent(s, id, target);
  }

  /** The filter of a batch update, its texts parsed. */
  datatype BatchFilter = BatchFilter(kinds: Option<set<StateType>>, assignee: Option<Id>, project: Option<Id>,
    priority: Option<int>)

  function BatchTargets(db: Db, team: Id, f: BatchFilter): set<Id> {
    set i | i in db.issues && db.issues[i].team == team
      && (f.kinds.Some? ==>
            db.issues[i].Link(StateId).Some? && db.issues[i].Link(StateId).value in StateIds(db, team, f.kinds.value))
      && (f.assignee.Some? ==> db.issues[i].Link(AssigneeId) == f.assignee)
      && (f.project.Some? ==> db.issues[i].Link(ProjectId) == f.project)
      && (f.priority.Some? ==> db.issues[i].Get(Priority) == Int(f.priority.value))
  }

  lemma {:induction false} UpdateEachConcat(lib: Lib, db: Db, ids: seq<Id>, id: Id, patch: Patch, user: Option<Id>)
    requires UpdatesAll(lib, db, ids, patch, user)
    ensures UpdateEach(lib, db, ids + [id], patch, user)
      == Outcome(UpdateEach(lib, db, ids, patch, user),
        UpdateIssueSpec(lib, UpdateEach(lib, db, ids, patch, user), id, patch, user))
    ensures UpdatesAll(lib, db, ids + [id], patch, user)
      <==> UpdateIssueSpec(lib, UpdateEach(lib, db, ids, patch, user), id, patch, user).Committed?
    decreases |ids|
  {
    hide UpdateIssueSpec;
    if ids == [] {
      assert ids + [id] == [id] && [id][1..] == [];
    } else {
      assert (ids + [id])[0] == ids[0] && (ids + [id])[1..] == ids[1..] + [id];
      UpdateEachConcat(lib, UpdateIssueSpec(lib, db, ids[0], patch, user).db, ids[1..], id, patch, user);
    }
  }

  /** Every update of the sequence commits. */
  predicate UpdatesAll(lib: Lib, db: Db, ids: seq<Id>, patch: Patch, user: Option<Id>)
    decreases |ids|
  {
    ids == [] ||
    var t := UpdateIssueSpec(lib, db, ids[0], patch, user);
    t.Committed? && UpdatesAll(lib, t.db, ids[1..], patch, user)
  }

  /** Updates the selected issues one by one in the order the query returns them. Each commits on its own, so a
      failure keeps the earlier ones; without a failure every selected issue was updated exactly once. */
  method BatchUpdateIssues(lib: Lib, s: Session, team: Id, filter: BatchFilter, patch: Patch, user: Option<Id>)
    returns (order: seq<Id>, failure: Option<Reply>)
    requires s.Idle()
    modifies s
    ensures s.Idle() && s.committed == UpdateEach(lib, old(s.committed), order, patch, user)
    ensures Distinct(order) && LabelSet(order) <= BatchTargets(old(s.committed), team, filter)
    ensures failure.None? ==> LabelSet(order) == BatchTargets(old(s.committed), team, filter)
    ensures failure.None? <==> UpdatesAll(lib, old(s.committed), order, patch, user)
  {
    hide UpdateIssueSpec;
    ghost var start := s.committed;
    var targets := BatchTargets(s.working, team, filter);
    var todo := targets;
    order, failure := [], None;
    while todo != {}
      invariant s.Idle() && s.committed == UpdateEach(lib, start, order, patch, user)
      invariant UpdatesAll(lib, start, order, patch, user)
      invariant todo <= targets && Distinct(order) && LabelSet(order) == targets - todo
    {
      var id :| id in todo;
      UpdateEachConcat(lib, start, order, id, patch, user);
      var reply := UpdateIssue(lib, s, id, patch, user);
      assert LabelSet(order + [id]) == LabelSet(order) + {id} by {
        assert forall k :: 0 <= k < |order| ==> (order + [id])[k] == order[k];
        assert (order + [id])[|order|] == id;
      }
      assert forall k :: 0 <= k < |order| ==> order[k] in LabelSet(order);
      order := order + [id];
      todo := todo - {id};
      if !reply.Done? {
        return order, Some(reply);
      }
    }
  }

  // ---------- delete, convert ----------

  method DeleteIssue(s: Session, id: Id) returns (reply: Reply)
    requires s.Idle()
    modifies s
    ensures var t := DeleteIssueSpec(old(s.committed), id);
      s.Idle() && s.committed == Outcome(old(s.committed), t) && reply == ReplyTo(t)
  {
    if id !in s.working.issues {
      return Refuse(NotFound);
    }
    var active := |ActiveChildren(s.working, id)|;
    if active > 0 {
      return Refuse(ActiveSubtasks);
    }
    if Referenced(s.working, id) {
      s.Rollback();
      return Crash(BrokenReference);
    }
    s.working := s.working.(
      issues := s.working.issues - {id},
      issueLabels := (set p | p in s.working.issueLabels && p.0 != id),
      comments := CommentsWithout(s.working.comments, id));
    s.Commit();
    reply := Done(id);
  }

  method ConvertToProject(s: Session, id: Id) returns (reply: Reply)
    requires s.Idle()
    modifies s
    ensures var t := ConvertSpec(old(s.committed), id);
      s.Idle() && s.committed == Outcome(old(s.committed), t) && reply == ReplyTo(t)
  {
    if id !in s.working.issues {
      return Refuse(NotFound);
    }
    var row := s.working.issues[id];
    if !row.Get(Title).Str? || |row.Get(Title).s| > 255 {
      return Crash(BadRow);
    }
    var projectId := s.working.nextId;
    s.working := s.working.(
      nextId := projectId + 1,
      projects := s.working.projects[projectId :=
        Project(row.team, row.Get(Title).s, row.Get(Description), "planned")]);
    s.working := s.working.(issues := s.working.issues[id := row.(cells := row.cells[ProjectId := Ref(projectId)])]);
    s.Commit();
    reply := Done(projectId);
  }

  /** With its team's states inside it, a batch update selects an issue of the team exactly when it has what each filter
      that is there names. */
  lemma BatchSelects(db: Db, team: Id, f: BatchFilter, i: Id)
    requires i in db.issues && KindOf(db, db.issues[i]).Some? && db.states[db.issues[i].Get(StateId).id].team == team
    ensures i in BatchTargets(db, team, f)
      <==>
        && db.issues[i].team == team
        && (f.kinds == None || KindOf(db, db.issues[i]).value in f.kinds.value)
        && (f.assignee == None || db.issues[i].Get(AssigneeId) == Ref(f.assignee.value))
        && (f.project == None || db.issues[i].Get(ProjectId) == Ref(f.project.value))
        && (f.priority == None || db.issues[i].Get(Priority) == Int(f.priority.value))
  {
  }
}
