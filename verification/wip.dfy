/** A WIP limit made of two rejecting rules holds over every run. */
module Wip {
  import opened Values
  import opened Transitions
  import opened Context
  import opened Conditions
  import opened Store
  import opened Queries
  import opened Evaluator
  import opened IssueSpec
  import opened IssueFacts
  import opened Runs
  import opened Shapes
  import opened Tenancy

  const STARTED: Where := Where(false, Some([Str("started")]), None, None, None, None)

  predicate Rejects(r: Rule) {
    exists k :: 0 <= k < |r.actions| && r.actions[k].Reject?
  }

  /** Rejects a creation that leaves `bound` or more started issues. */
  predicate CapsCreation(r: Rule, team: Id, bound: int) {
    r.team == team && r.enabled && r.trigger == IssueCreated && Rejects(r) &&
    r.conditions == Some(CountQuery(STARTED, ">=", Int(bound)))
  }

  /** Rejects a move to a started state when `bound` or more issues are started already. */
  predicate CapsMoves(r: Rule, team: Id, bound: int) {
    r.team == team && r.enabled && r.trigger == IssueStateChanged && Rejects(r) &&
    r.conditions == Some(And([FieldEquals(Some("to_state_type"), Some(Str("started"))),
      CountQuery(STARTED, ">=", Int(bound))]))
  }

  /** The team keeps both rules for a limit of n, and none of its rules writes states behind the checks. */
  ghost predicate Policy(db: Db, team: Id, n: nat) {
    && (exists r, b :: r in db.rules && b <= n + 1 && CapsCreation(r, team, b))
    && (exists r, b :: r in db.rules && b <= n && CapsMoves(r, team, b))
    && TeamSetsNone(db.rules, team, StateId)
  }

  predicate IsStarted(db: Db, row: Issue, team: Id) {
    row.team == team && !row.archived && KindOf(db, row) == Some(Started)
  }

  /** The team's unarchived started issues. */
  function StartedIssues(db: Db, team: Id): set<Id> {
    set i | i in db.issues && IsStarted(db, db.issues[i], team)
  }

  // ---------- the query counts them ----------

  lemma StartedFilters(lib: Lib, db: Db, ctx: RuleContext, team: Id)
    ensures BuildFilters(lib, db, STARTED, ctx, team)
      == Ok([Filter.InTeam(team), NotArchived, StateIn(StateIds(db, team, {Started}))])
  {
    ParseInvertsText(Started);
    assert [Str("started")][1..] == [];
    assert ParseTypes([Str("started")]) == Ok({Started} + {});
    assert {Started} + {} == {Started};
    var started := StateIn(StateIds(db, team, {Started}));
    assert TypeFilter(db, team, STARTED.stateType, false) == Ok([started]);
    assert OtherFilters(lib, STARTED, ctx) == Ok([] + [] + []);
    assert [Filter.InTeam(team)] + [NotArchived] + [started] + [] + ([] + [] + [])
      == [Filter.InTeam(team), NotArchived, started];
  }

  /** With the team's states inside it, the query counts exactly the team's started issues. */
  lemma QueryCountsStarted(lib: Lib, db: Db, ctx: RuleContext, team: Id)
    requires IsolatedIn(db, team, StateId)
    ensures CountOf(lib, db, STARTED, ctx, team) == Ok(|StartedIssues(db, team)|)
  {
    StartedFilters(lib, db, ctx, team);
    var fs := [Filter.InTeam(team), NotArchived, StateIn(StateIds(db, team, {Started}))];
    hide BuildFilters;
    forall i | i in db.issues ensures Accepts(fs, db.issues[i]) <==> IsStarted(db, db.issues[i], team) {
      assert db.issues[i].team == team ==> RefersInside(db, i, db.issues[i], StateId);
      assert Accepts(fs, db.issues[i])
        <==> fs[0].Passes(db.issues[i]) && fs[1].Passes(db.issues[i]) && fs[2].Passes(db.issues[i]);
    }
    assert Selected(db, fs) == StartedIssues(db, team);
  }

  lemma ComparedAtLeast(n: nat, bound: int)
    ensures Compare(n, ">=", Int(bound)) == Ok(n >= bound)
  {
    assert (n as real < bound as real) <==> n < bound;
  }

  // ---------- create ----------

  lemma AcceptedCreationIsWithinBound(lib: Lib, db: Db, ctx: RuleContext, team: Id, n: nat)
    requires IsolatedIn(db, team, StateId) && Policy(db, team, n)
    requires EvaluateInOrder(lib, db, MatchingRules(db.rules, team, IssueCreated), ctx, team).Accepted?
    ensures |StartedIssues(db, team)| <= n
  {
    hide EvaluateInOrder, MatchingRules, CountOf, IsolatedIn;
    var r, b :| r in db.rules && b <= n + 1 && CapsCreation(r, team, b);
    AcceptedMeansNotRejected(lib, db, r, IssueCreated, ctx, team);
    QueryCountsStarted(lib, db, ctx, team);
    ComparedAtLeast(|StartedIssues(db, team)|, b);
  }

  lemma EffectsKeepStarted(db: Db, next: Db, id: Id, row: Issue, fields: map<Column, Value>, team: Id)
    requires row.team == team ==> StateId !in fields
    requires next.states == db.states && id in db.issues && db.issues[id] == row
    requires next.issues == db.issues[id := row.(cells := row.cells + fields)]
    ensures StartedIssues(next, team) == StartedIssues(db, team)
  {
    OverlaidCell(row.cells, fields, row, StateId);
  }

  /** After the new row is flushed and the rules have accepted it, the limit holds. */
  lemma AcceptedRowIsWithinLimit(lib: Lib, db: Db, team: Id, data: NewIssue, user: Id, ctx: RuleContext, capped: Id,
                                 n: nat)
    requires FreshIds(db) && IsolatedIn(db, capped, StateId) && Policy(db, capped, n)
    requires |StartedIssues(db, capped)| <= n
    requires CreateProblem(db, team, data).None? && CreateStateOf(db, team, data).Some?
    requires var mid := InsertIssue(db, NewRow(db, team, data, user), data.labels);
      EvaluateInOrder(lib, mid, MatchingRules(db.rules, team, IssueCreated), ctx, team).Accepted?
    ensures |StartedIssues(InsertIssue(db, NewRow(db, team, data, user), data.labels), capped)| <= n
  {
    hide EvaluateInOrder, MatchingRules, CreateProblem, IsolatedIn, Policy, CreateStateOf, StartedIssues;
    var row := NewRow(db, team, data, user);
    var mid := InsertIssue(db, row, data.labels);
    if team == capped {
      CreatedRowInTeam(db, team, data, user, StateId);
      AddedIssueIsolated(db, mid, row, LabelSet(data.labels), team, StateId);
      PolicyIsAboutRules(db, mid, capped, n);
      AcceptedCreationIsWithinBound(lib, mid, ctx, team, n);
    } else {
      StartedInOtherTeam(db, mid, row, capped);
    }
  }

  lemma CreateKeepsLimit(lib: Lib, db: Db, team: Id, data: NewIssue, user: Id, capped: Id, n: nat)
    requires FreshIds(db) && IsolatedIn(db, capped, StateId) && Policy(db, capped, n)
    requires |StartedIssues(db, capped)| <= n
    requires CreateIssueSpec(lib, db, team, data, user).Committed?
    ensures |StartedIssues(CreateIssueSpec(lib, db, team, data, user).db, capped)| <= n
  {
    hide EvaluateInOrder, MatchingRules, RowOk, CreateProblem, IsolatedIn, Policy, CreateStateOf, FieldsOf;
    hide StartedIssues, FreshIds;
    var firings := CreateIsAnOverlay(lib, db, team, data, user);
    var row, next, id := NewRow(db, team, data, user), CreateIssueSpec(lib, db, team, data, user).db, db.nextId;
    hide CreateIssueSpec;
    var mid := InsertIssue(db, row, data.labels);
    var ctx := CreateContext(lib, row, db.states[row.Get(StateId).id], user);
    PolicySetsNoState(db, capped, n);
    CreateSetsOnlyWhatRulesSet(lib, db, mid, ctx, team, firings, StateId);
    NewRowTeam(db, team, data, user);
    EffectsKeepStarted(mid, next, id, row, FieldsOf(lib, firings), capped);
    AcceptedRowIsWithinLimit(lib, db, team, data, user, ctx, capped, n);
  }

  lemma PolicySetsNoState(db: Db, team: Id, n: nat)
    requires Policy(db, team, n)
    ensures TeamSetsNone(db.rules, team, StateId)
  {
  }

  lemma PolicyIsAboutRules(db: Db, next: Db, team: Id, n: nat)
    requires Policy(db, team, n) && next.rules == db.rules
    ensures Policy(next, team, n)
  {
  }

  lemma StartedInOtherTeam(db: Db, next: Db, row: Issue, team: Id)
    requires FreshIds(db) && next.states == db.states && next.issues == db.issues[db.nextId := row] && row.team != team
    ensures StartedIssues(next, team) == StartedIssues(db, team)
  {
  }

  // ---------- update ----------

  lemma AcceptedPrefix(lib: Lib, db: Db, xs: seq<Rule>, ys: seq<Rule>, ctx: RuleContext, team: Id)
    requires EvaluateInOrder(lib, db, xs + ys, ctx, team).Accepted?
    ensures EvaluateInOrder(lib, db, xs, ctx, team).Accepted?
  {
    hide EvaluateInOrder;
    EvaluateConcat(lib, db, xs, ys, ctx, team);
  }

  lemma AcceptedMoveLeavesRoom(lib: Lib, db: Db, row: Issue, patch: Patch, ctx: RuleContext, n: nat)
    requires IsolatedIn(db, row.team, StateId) && Policy(db, row.team, n)
    requires Moves(row, patch) && ctx.toStateType == "started"
    requires EvaluateInOrder(lib, db, UpdateRules(db, row, patch), ctx, row.team).Accepted?
    ensures |StartedIssues(db, row.team)| < n
  {
    hide EvaluateInOrder, MatchingRules, CountOf, IsolatedIn;
    var team := row.team;
    var moved := MatchingRules(db.rules, team, IssueStateChanged);
    var rest := if Reassigns(row, patch) then MatchingRules(db.rules, team, IssueAssigned) else [];
    assert UpdateRules(db, row, patch) == moved + (rest + MatchingRules(db.rules, team, IssueUpdated));
    AcceptedPrefix(lib, db, moved, rest + MatchingRules(db.rules, team, IssueUpdated), ctx, team);
    var r, b :| r in db.rules && b <= n && CapsMoves(r, team, b);
    AcceptedMeansNotRejected(lib, db, r, IssueStateChanged, ctx, team);
    QueryCountsStarted(lib, db, ctx, team);
    ComparedAtLeast(|StartedIssues(db, team)|, b);
    ConditionOfMoveCap(lib, db, ctx, team, b);
  }

  /** What the move rule's condition says when the target is a started state. */
  lemma ConditionOfMoveCap(lib: Lib, db: Db, ctx: RuleContext, team: Id, b: int)
    requires ctx.toStateType == "started"
    ensures var here := FieldEquals(Some("to_state_type"), Some(Str("started")));
      var cap := CountQuery(STARTED, ">=", Int(b));
      EvaluateWithDb(lib, db, And([here, cap]), ctx, team) == EvaluateWithDb(lib, db, cap, ctx, team)
  {
    hide CountOf, Compare;
    var here, cap := FieldEquals(Some("to_state_type"), Some(Str("started"))), CountQuery(STARTED, ">=", Int(b));
    assert ctx.ResolveField("to_state_type") == Str("started");
    assert ctx.ResolveValue(Str("started")) == Str("started") by {
      assert "started"[0] == 's';
    }
    assert EvaluateWithDb(lib, db, here, ctx, team) == Ok(true);
    assert [here, cap][1..] == [cap] && [cap][1..] == [];
    assert EvaluateAllWithDb(lib, db, [cap], ctx, team) == EvaluateWithDb(lib, db, cap, ctx, team);
  }

  lemma UpdateKeepsLimit(lib: Lib, db: Db, id: Id, patch: Patch, user: Id, capped: Id, n: nat)
    requires IsolatedIn(db, capped, StateId) && Policy(db, capped, n)
    requires |StartedIssues(db, capped)| <= n
    requires UpdateIssueSpec(lib, db, id, patch, Some(user)).Committed?
    ensures |StartedIssues(UpdateIssueSpec(lib, db, id, patch, Some(user)).db, capped)| <= n
  {
    hide UpdateIssueSpec, UpdateBody, UpdateProblem, TransitionProblem, EvaluateInOrder, RowOk, RollUp, IsolatedIn;
    hide UpdateRules, UpdateContext;
    var mid, fields, labels := UpdateShape(lib, db, id, patch, user);
    var row := db.issues[id];
    assert row.team == capped ==> StateId !in fields by { PolicySetsNoState(db, capped, n); }
    RollUpOnlyMarks(mid, id, TargetKind(db, row, patch));
    MarkKeepsStarted(mid, RollUp(mid, id, TargetKind(db, row, patch)), capped);
    ChangeKeepsStarted(db, mid, id, row.cells + patch + fields, capped);
    if row.team == capped {
      StateAfterUpdate(db, id, patch, fields);
    }
    if row.team == capped && TargetKind(db, row, patch) == Some(Started) {
      var firings := UpdateIsAnOverlay(lib, db, id, patch, Some(user));
      var ctx := UpdateContext(lib, db, row, patch, StateRow(db, row.Get(StateId)).value, Some(user));
      MoveContext(lib, db, row, patch, StateRow(db, row.Get(StateId)).value, Some(user));
      AcceptedMoveLeavesRoom(lib, db, row, patch, ctx, n);
      CardinalityOfOneMore(StartedIssues(db, capped), StartedIssues(mid, capped), id);
    } else {
      assert StartedIssues(mid, capped) <= StartedIssues(db, capped);
      CardinalityOfSubset(StartedIssues(mid, capped), StartedIssues(db, capped));
    }
  }

  lemma MoveContext(lib: Lib, db: Db, row: Issue, patch: Patch, current: WorkflowState, user: Option<Id>)
    requires TargetKind(db, row, patch) == Some(Started)
    ensures Moves(row, patch) && UpdateContext(lib, db, row, patch, current, user).toStateType == "started"
  {
  }

  lemma ChangeKeepsStarted(db: Db, mid: Db, id: Id, cells: map<Column, Value>, team: Id)
    requires id in db.issues && mid.states == db.states
    requires mid.issues == db.issues[id := db.issues[id].(cells := cells)]
    ensures forall i :: i != id ==> (i in StartedIssues(mid, team) <==> i in StartedIssues(db, team))
    ensures id in StartedIssues(mid, team) <==>
      db.issues[id].team == team && !db.issues[id].archived
        && KindOf(db, db.issues[id].(cells := cells)) == Some(Started)
  {
  }

  lemma MarkKeepsStarted(db: Db, next: Db, team: Id)
    requires OnlyMarks(db, next)
    ensures StartedIssues(next, team) == StartedIssues(db, team)
  {
    forall i | i in db.issues ensures IsStarted(next, next.issues[i], team) == IsStarted(db, db.issues[i], team) {
      assert next.issues[i].Get(StateId) == db.issues[i].Get(StateId);
    }
  }

  lemma CardinalityOfSubset(a: set<Id>, b: set<Id>)
    requires a <= b
    ensures |a| <= |b|
  {
    assert b == a + (b - a);
  }

  lemma CardinalityOfOneMore(a: set<Id>, b: set<Id>, x: Id)
    requires forall i :: i != x ==> (i in b <==> i in a)
    ensures |b| <= |a| + 1
  {
    CardinalityOfSubset(b, a + {x});
  }

  // ---------- every step, every run ----------

  lemma OtherStepsKeepLimit(lib: Lib, db: Db, op: Op, team: Id)
    requires FreshIds(db) && IsolatedIn(db, team, StateId) && !op.CreateIssue? && !op.UpdateIssue?
    ensures StartedIssues(Step(lib, db, op), team) <= StartedIssues(db, team)
  {
    hide Step;
    OtherSteps(lib, db, op);
    var next := Step(lib, db, op);
    forall i | i in StartedIssues(next, team) ensures i in StartedIssues(db, team) {
      assert i in db.issues ==> db.issues[i].team == team;
      assert i in db.issues ==> RefersInside(db, i, db.issues[i], StateId);
      assert next.issues[i].Get(StateId) == db.issues[i].Get(StateId);
    }
  }

  lemma StepKeepsLimit(lib: Lib, db: Db, op: Op, team: Id, n: nat)
    requires FreshIds(db) && IsolatedIn(db, team, StateId) && Policy(db, team, n) && |StartedIssues(db, team)| <= n
    ensures |StartedIssues(Step(lib, db, op), team)| <= n
  {
    hide IsolatedIn, Policy, StartedIssues, CreateIssueSpec, UpdateIssueSpec;
    match op
    case CreateIssue(t, data, user) =>
      if CreateIssueSpec(lib, db, t, data, user).Committed? {
        CreateKeepsLimit(lib, db, t, data, user, team, n);
      }
    case UpdateIssue(id, patch, user) =>
      if UpdateIssueSpec(lib, db, id, patch, Some(user)).Committed? {
        UpdateKeepsLimit(lib, db, id, patch, user, team, n);
      }
    case _ =>
      hide Step;
      OtherStepsKeepLimit(lib, db, op, team);
      CardinalityOfSubset(StartedIssues(Step(lib, db, op), team), StartedIssues(db, team));
  }

  /** While the team keeps its two rules and none of its rules sets states, at most n of its unarchived issues are
      started in every state of every run that starts so. */
  lemma {:induction false} WipLimitHolds(lib: Lib, db: Db, ops: seq<Op>, team: Id, n: nat)
    requires FreshIds(db) && IsolatedIn(db, team, StateId) && |StartedIssues(db, team)| <= n
    requires Throughout(lib, db, ops, d => Policy(d, team, n))
    ensures |StartedIssues(Run(lib, db, ops), team)| <= n
    decreases |ops|
  {
    if ops != [] {
      hide Step, IsolatedIn, StartedIssues, Policy;
      assert Policy(db, team, n);
      StepKeepsLimit(lib, db, ops[0], team, n);
      StepIds(lib, db, ops[0]);
      assert Closed(db, team, StateId) by { PolicySetsNoState(db, team, n); }
      StepIsolates(lib, db, ops[0], team, StateId);
      WipLimitHolds(lib, Step(lib, db, ops[0]), ops[1..], team, n);
    }
  }
}
