/** What a committed create or update has written, in closed form. */
module IssueFacts {
  import opened Values
  import opened Transitions
  import opened Context
  import opened Conditions
  import opened Actions
  import opened Store
  import opened Queries
  import opened Evaluator
  import opened Effects
  import opened IssueSpec

  /** The columns, labels and comments that a list of firings writes. */
  function FieldsOf(lib: Lib, firings: seq<Firing>): map<Column, Value> {
    SetFields(lib, Flatten(firings))
  }

  function LabelsOf(db: Db, team: Id, firings: seq<Firing>): set<Id> {
    TeamLabels(db, team, LabelNames(Flatten(firings)))
  }

  lemma FiringsAreAnOverlay(lib: Lib, db: Db, id: Id, firings: seq<Firing>, user: Id)
    requires id in db.issues && RowOk(db, db.issues[id])
    requires ApplyFirings(lib, db, id, firings, user).Ok?
    ensures var next := ApplyFirings(lib, db, id, firings, user).value;
      && next == Overlay(db, id, FieldsOf(lib, firings), LabelsOf(db, db.issues[id].team, firings),
                         CommentsOf(Flatten(firings), id, user), NotesOf(lib, Flatten(firings), db.issues[id].team, id))
      && RowOk(next, next.issues[id])
  {
    hide RowOk;
    hide Overlay;
    if firings == [] {
      EmptyOverlay(db, id);
      assert LabelsOf(db, db.issues[id].team, firings) == {};
    } else {
      AppliedEffectsAreAnOverlay(lib, db, id, Flatten(firings), user);
    }
  }

  lemma InsertKeepsRowOk(db: Db, row: Issue, labels: seq<Id>)
    requires RowOk(db, row)
    ensures RowOk(InsertIssue(db, row, labels), row)
  {
    forall c: Column ensures Fits(InsertIssue(db, row, labels), c, row.Get(c)) {
      assert Fits(db, c, row.Get(c));
    }
  }

  /** The tables a create commits: the new row and its labels, overlaid with the effects of the rules that were
      judged against the tables holding that row, and one CREATE entry. */
  lemma CreateIsAnOverlay(lib: Lib, db: Db, team: Id, data: NewIssue, user: Id) returns (firings: seq<Firing>)
    requires CreateIssueSpec(lib, db, team, data, user).Committed?
    ensures CreateProblem(db, team, data).None? && CreateStateOf(db, team, data).Some? && Distinct(data.labels)
    ensures var t, row, id := CreateIssueSpec(lib, db, team, data, user), NewRow(db, team, data, user), db.nextId;
      var mid := InsertIssue(db, row, data.labels);
      && RowOk(db, row) && row.Get(StateId).id in db.states && t.id == id
      && EvaluateInOrder(lib, mid, MatchingRules(db.rules, team, IssueCreated),
           CreateContext(lib, row, db.states[row.Get(StateId).id], user), team) == Accepted(firings)
      && t.db == Logged(Overlay(mid, id, FieldsOf(lib, firings), LabelsOf(mid, team, firings),
                          CommentsOf(Flatten(firings), id, user), NotesOf(lib, Flatten(firings), team, id)),
                        IssueEntry(team, id, Create, user, map[]))
      && RowOk(t.db, t.db.issues[id])
  {
    hide EvaluateInOrder;
    hide Overlay;
    var row, id := NewRow(db, team, data, user), db.nextId;
    var mid := InsertIssue(db, row, data.labels);
    assert Fits(db, StateId, row.Get(StateId));
    InsertKeepsRowOk(db, row, data.labels);
    hide RowOk;
    var state := db.states[CreateStateOf(db, team, data).value];
    firings := EvaluateInOrder(lib, mid, MatchingRules(mid.rules, team, IssueCreated),
      CreateContext(lib, row, state, user), team).firings;
    FiringsAreAnOverlay(lib, mid, id, firings, user);
    LoggingKeepsRowOk(ApplyFirings(lib, mid, id, firings, user).value, id, IssueEntry(team, id, Create, user, map[]));
  }

  lemma LoggingKeepsRowOk(db: Db, id: Id, entry: AuditEntry)
    requires id in db.issues && RowOk(db, db.issues[id])
    ensures RowOk(Logged(db, entry), db.issues[id])
  {
    forall c: Column ensures Fits(Logged(db, entry), c, db.issues[id].Get(c)) {
      assert Fits(db, c, db.issues[id].Get(c));
    }
  }

  function LoggedUpdate(db: Db, id: Id, user: Option<Id>, row: Issue, patch: Patch): Db {
    if user.None? then db else Logged(db, IssueEntry(row.team, id, Update, user.value, DiffOf(row, patch)))
  }

  /** The tables an update commits before its rollup: the old row overlaid with the patch and then with what the
      accepted rules set, the last writer of a column winning; the labels named by the rules attached; and one
      UPDATE entry with the patch's differences when there is an acting user. */
  lemma UpdateIsAnOverlay(lib: Lib, db: Db, id: Id, patch: Patch, user: Option<Id>) returns (firings: seq<Firing>)
    requires UpdateBody(lib, db, id, patch, user).Committed?
    ensures id in db.issues && UpdateProblem(db, id, patch).None? && StateRow(db, db.issues[id].Get(StateId)).Some?
    ensures var t, row := UpdateBody(lib, db, id, patch, user), db.issues[id];
      var current, mid := StateRow(db, row.Get(StateId)).value, Patched(db, id, patch);
      && TransitionProblem(db, row, patch, current).None?
      && EvaluateInOrder(lib, db, UpdateRules(db, row, patch),
           UpdateContext(lib, db, row, patch, current, user), row.team)
         == Accepted(firings)
      && t.db == LoggedUpdate(Overlay(mid, id, FieldsOf(lib, firings), LabelsOf(mid, row.team, firings),
                                CommentsOf(Flatten(firings), id, if user.Some? then user.value else row.createdBy),
                                NotesOf(lib, Flatten(firings), row.team, id)),
                              id, user, row, patch)
      && (user.Some? ==> Serializable(DiffOf(row, patch)))
      && RowOk(t.db, t.db.issues[id])
  {
    hide EvaluateInOrder;
    hide Overlay;
    hide RowOk;
    var row, mid := db.issues[id], Patched(db, id, patch);
    var current := StateRow(db, row.Get(StateId)).value;
    firings := EvaluateInOrder(lib, db, UpdateRules(db, row, patch), UpdateContext(lib, db, row, patch, current, user),
      row.team).firings;
    var actor := if user.Some? then user.value else row.createdBy;
    FiringsAreAnOverlay(lib, mid, id, firings, actor);
    if user.Some? {
      LoggingKeepsRowOk(ApplyFirings(lib, mid, id, firings, actor).value, id,
        IssueEntry(row.team, id, Update, user.value, DiffOf(row, patch)));
    }
  }

  /** A column that no rule sets is not among those the firings write. */
  lemma UnsetColumn(lib: Lib, db: Db, rules: seq<Rule>, ctx: RuleContext, team: Id, c: Column)
    requires NoneSets(rules, c)
    requires EvaluateInOrder(lib, db, rules, ctx, team).Accepted?
    ensures c !in FieldsOf(lib, EvaluateInOrder(lib, db, rules, ctx, team).firings)
  {
    FiringsSetOnlyWhatRulesSet(lib, db, rules, ctx, team, c);
    RulesThatDoNotSet(lib, EvaluateInOrder(lib, db, rules, ctx, team).firings, c);
  }

  lemma NoLoadedRuleSets(rules: seq<Rule>, team: Id, trigger: Trigger, c: Column)
    requires TeamSetsNone(rules, team, c)
    ensures NoneSets(MatchingRules(rules, team, trigger), c)
  {
    MatchingRulesAreTheApplicableOnes(rules, team, trigger);
    var loaded := MatchingRules(rules, team, trigger);
    forall r | r in loaded ensures r in rules && r.team == team {
      assert r in multiset(loaded);
      assert r in multiset(rules);
    }
  }

  lemma CreateSetsOnlyWhatRulesSet(lib: Lib, db: Db, mid: Db, ctx: RuleContext, team: Id, firings: seq<Firing>,
                                   c: Column)
    requires EvaluateInOrder(lib, mid, MatchingRules(db.rules, team, IssueCreated), ctx, team) == Accepted(firings)
    ensures TeamSetsNone(db.rules, team, c) ==> c !in FieldsOf(lib, firings)
    ensures FieldsOf(lib, firings).Keys <= {Priority, Estimate, AssigneeId, ProjectId, DueDate, StateId}
  {
    hide EvaluateInOrder;
    OnlyWhitelistedColumns(lib, Flatten(firings));
    if TeamSetsNone(db.rules, team, c) {
      NoLoadedRuleSets(db.rules, team, IssueCreated, c);
      UnsetColumn(lib, mid, MatchingRules(db.rules, team, IssueCreated), ctx, team, c);
    }
  }

  lemma UpdateSetsOnlyWhatRulesSet(lib: Lib, db: Db, row: Issue, patch: Patch, ctx: RuleContext, firings: seq<Firing>,
                                   c: Column)
    requires EvaluateInOrder(lib, db, UpdateRules(db, row, patch), ctx, row.team) == Accepted(firings)
    ensures TeamSetsNone(db.rules, row.team, c) ==> c !in FieldsOf(lib, firings)
    ensures FieldsOf(lib, firings).Keys <= {Priority, Estimate, AssigneeId, ProjectId, DueDate, StateId}
  {
    hide EvaluateInOrder;
    OnlyWhitelistedColumns(lib, Flatten(firings));
    if TeamSetsNone(db.rules, row.team, c) {
      NoLoadedRuleSets(db.rules, row.team, IssueStateChanged, c);
      NoLoadedRuleSets(db.rules, row.team, IssueAssigned, c);
      NoLoadedRuleSets(db.rules, row.team, IssueUpdated, c);
      assert NoneSets(UpdateRules(db, row, patch), c);
      UnsetColumn(lib, db, UpdateRules(db, row, patch), ctx, row.team, c);
    }
  }

  // ---------- what rules cannot see ----------

  /** Two updates of one issue by one user that fire the same triggers and name the same new state get the same
      verdict and the same effects, whatever else they write. */
  lemma OtherValuesDoNotMatter(lib: Lib, db: Db, row: Issue, p: Patch, q: Patch, current: WorkflowState,
                               user: Option<Id>)
    requires Moves(row, p) == Moves(row, q) && (Moves(row, p) ==> p[StateId] == q[StateId])
    requires Reassigns(row, p) == Reassigns(row, q)
    ensures EvaluateInOrder(lib, db, UpdateRules(db, row, p), UpdateContext(lib, db, row, p, current, user), row.team)
      == EvaluateInOrder(lib, db, UpdateRules(db, row, q), UpdateContext(lib, db, row, q, current, user), row.team)
  {
    hide EvaluateInOrder, MatchingRules, IssueFields;
    assert UpdateRules(db, row, p) == UpdateRules(db, row, q);
    VerdictSeesOnlyTheView(lib, db, UpdateRules(db, row, p), UpdateContext(lib, db, row, p, current, user),
      UpdateContext(lib, db, row, q, current, user), row.team);
  }

  /** `label_has` is false on every creation and every update, whatever labels the issue has or is given: the service
      passes an empty list on creation and none on update. */
  lemma LabelHasNeverHolds(lib: Lib, db: Db, row: Issue, state: WorkflowState, user: Id, patch: Patch,
                           acting: Option<Id>, target: Value)
    ensures EvaluateWithDb(lib, db, LabelHas(Some(target)), CreateContext(lib, row, state, user), row.team) == Ok(false)
    ensures EvaluateWithDb(lib, db, LabelHas(Some(target)), UpdateContext(lib, db, row, patch, state, acting), row.team)
      == Ok(false)
  {
    var fields := IssueFields(lib, row, state);
    assert "labels" !in fields;
    assert Get(fields["labels" := Arr([])], "labels") == Arr([]);
  }

  // ---------- when issue.state_changed fires ----------

  /** The documented condition: the issue moves to a different state category. */
  predicate CategoryChanges(db: Db, patch: Patch, current: WorkflowState) {
    StateId in patch && StateRow(db, patch[StateId]).Some? && StateRow(db, patch[StateId]).value.kind != current.kind
  }

  lemma {:induction false} LoadedRulesApply(rules: seq<Rule>, team: Id, trigger: Trigger, r: Rule)
    ensures r in MatchingRules(rules, team, trigger) <==> r in rules && Applies(r, team, trigger)
  {
    MatchingRulesAreTheApplicableOnes(rules, team, trigger);
    var loaded := MatchingRules(rules, team, trigger);
    assert r in loaded <==> multiset(loaded)[r] > 0;
    assert r in rules <==> multiset(rules)[r] > 0;
  }

  /** A state_changed rule is asked about an update exactly when the patch names another state. This differs from the
      documented condition exactly when that state is of the category the issue is in already. */
  lemma StateChangedFiresOnEveryOtherState(db: Db, row: Issue, patch: Patch, current: WorkflowState, r: Rule)
    requires r in db.rules && Applies(r, row.team, IssueStateChanged)
    requires StateRow(db, row.Get(StateId)) == Some(current)
    requires StateId in patch ==> StateRow(db, patch[StateId]).Some?
    ensures r in UpdateRules(db, row, patch) <==> Moves(row, patch)
    ensures (r in UpdateRules(db, row, patch) <==> CategoryChanges(db, patch, current))
      <==> !(Moves(row, patch) && TargetKind(db, row, patch) == Some(current.kind))
  {
    hide MatchingRules;
    LoadedRulesApply(db.rules, row.team, IssueStateChanged, r);
    LoadedRulesApply(db.rules, row.team, IssueAssigned, r);
    LoadedRulesApply(db.rules, row.team, IssueUpdated, r);
  }

  const STATE_RULE: Rule := Rule(6, 0, "frozen", true, IssueStateChanged, None, [Reject(None)], 0)

  /** Two started states of one team, its member's issue in the first of them and a rule that rejects every state
      change. */
  const TWO_STARTED: Db := EMPTY.(
    nextId := 7, users := map[1 := User("a", "a")], teams := map[0 := Team("A", true)], members := map[(0, 1) := Owner],
    states := map[3 := WorkflowState(0, "Doing", Started, 0), 4 := WorkflowState(0, "Review", Started, 1)],
    issues := map[5 := Issue(0, 1, false,
      map[Title := Str("t"), Kind := Str("task"), Priority := Int(0), StateId := Ref(3)])],
    rules := [STATE_RULE])

  lemma TheIssueFits()
    ensures RowOk(TWO_STARTED, TWO_STARTED.issues[5]) && (0, TWO_STARTED.issues[5].createdBy) in TWO_STARTED.members
  {
    forall c: Column ensures Fits(TWO_STARTED, c, TWO_STARTED.issues[5].Get(c)) {
    }
  }

  /** The documentation says the rule stays silent on a move from one started state to the other; it is refused. */
  lemma StateChangedFiresWithinACategory(lib: Lib, user: Option<Id>)
    ensures !CategoryChanges(TWO_STARTED, map[StateId := Ref(4)], TWO_STARTED.states[3])
    ensures UpdateIssueSpec(lib, TWO_STARTED, 5, map[StateId := Ref(4)], user) == Refused(RuleRefused(6))
  {
    MoveIsValid();
    OnlyTheStateRuleIsAsked();
    hide UpdateProblem, TransitionProblem, UpdateRules, UpdateContext, EvaluateInOrder, RollUp, StateRow;
    hide UpdateAccepted;
    var row, patch := TWO_STARTED.issues[5], map[StateId := Ref(4)];
    RejectingRuleStops(lib, TWO_STARTED, UpdateRules(TWO_STARTED, row, patch),
      UpdateContext(lib, TWO_STARTED, row, patch, TWO_STARTED.states[3], user), 0);
  }

  lemma MoveIsValid()
    ensures var row, patch := TWO_STARTED.issues[5], map[StateId := Ref(4)];
      && StateRow(TWO_STARTED, row.Get(StateId)) == Some(TWO_STARTED.states[3])
      && UpdateProblem(TWO_STARTED, 5, patch).None?
      && TransitionProblem(TWO_STARTED, row, patch, TWO_STARTED.states[3]).None?
      && !CategoryChanges(TWO_STARTED, patch, TWO_STARTED.states[3])
  {
  }

  lemma OnlyTheStateRuleIsAsked()
    ensures UpdateRules(TWO_STARTED, TWO_STARTED.issues[5], map[StateId := Ref(4)]) == [STATE_RULE]
  {
    var rules := TWO_STARTED.rules;
    assert rules == [STATE_RULE] && rules[1..] == [];
    assert MatchingRules(rules, 0, IssueStateChanged) == [STATE_RULE];
    assert MatchingRules(rules, 0, IssueUpdated) == [];
  }

  lemma RejectingRuleStops(lib: Lib, db: Db, rules: seq<Rule>, ctx: RuleContext, team: Id)
    requires rules != [] && rules[0] == STATE_RULE
    ensures EvaluateInOrder(lib, db, rules, ctx, team).Stopped?
    ensures StopTxn(EvaluateInOrder(lib, db, rules, ctx, team).stop) == Refused(RuleRefused(6))
  {
    hide RenderMessage;
    DefaultMessageRenders(lib, ctx);
    assert STATE_RULE.actions[1..] == [] && PrepareAll(lib, [], ctx) == Ok([]);
    var effects := PrepareAll(lib, STATE_RULE.actions, ctx).value;
    assert effects[0].Rejects? && FirstRejection(effects) == Some(effects[0].message);
  }

  lemma DefaultMessageRenders(lib: Lib, ctx: RuleContext)
    ensures RenderMessage(lib, Str("Operation rejected by rule"), ctx).Ok?
  {
    hide Replacements;
  }

  // ---------- deletion ----------

  /** A delete commits exactly when no subtask, notification or recurrence refers to the issue. The guard asks for
      less: a subtask in a terminal state passes it and then breaks the foreign key. */
  lemma DeleteCommitsExactly(db: Db, id: Id)
    ensures DeleteIssueSpec(db, id).Committed? <==> id in db.issues && NothingRefers(db, id)
    ensures DeleteIssueSpec(db, id) == Refused(ActiveSubtasks) <==> id in db.issues && HasActiveSubtask(db, id)
    ensures DeleteIssueSpec(db, id) == Crashed(BrokenReference)
      <==> id in db.issues && !NothingRefers(db, id) && !HasActiveSubtask(db, id)
    ensures DeleteIssueSpec(db, id) == Refused(NotFound) <==> id !in db.issues
  {
    assert ActiveChildren(db, id) == {} <==> !HasActiveSubtask(db, id) by {
      forall c ensures c in ActiveChildren(db, id)
        <==> c in db.issues && IsActiveSubtask(db, c, id)
      {
      }
    }
  }

  predicate IsSubtask(db: Db, c: Id, id: Id)
    requires c in db.issues
  {
    db.issues[c].Get(ParentId) == Ref(id)
  }

  predicate IsActiveSubtask(db: Db, c: Id, id: Id)
    requires c in db.issues
  {
    && IsSubtask(db, c, id) && KindOf(db, db.issues[c]).Some?
    && KindOf(db, db.issues[c]).value !in {Completed, Canceled}
  }

  ghost predicate NothingRefers(db: Db, id: Id) {
    && (forall c :: c in db.issues ==> !IsSubtask(db, c, id))
    && (forall k :: 0 <= k < |db.notifications| ==> db.notifications[k].issue != id)
    && (forall r :: r in db.recurrences ==> db.recurrences[r].lastIssue != Some(id))
  }

  ghost predicate HasActiveSubtask(db: Db, id: Id) {
    exists c :: c in db.issues && IsActiveSubtask(db, c, id)
  }

  /** So an issue whose subtasks are all done cannot be deleted, and the request ends in a database error. */
  lemma DoneSubtasksBreakTheDelete(db: Db, id: Id, child: Id)
    requires id in db.issues && child in db.issues && db.issues[child].Link(ParentId) == Some(id)
    requires forall c :: c in db.issues && db.issues[c].Link(ParentId) == Some(id) ==>
      KindOf(db, db.issues[c]).Some? && KindOf(db, db.issues[c]).value.Terminal()
    ensures DeleteIssueSpec(db, id) == Crashed(BrokenReference)
  {
    assert ActiveChildren(db, id) == {};
  }
}
