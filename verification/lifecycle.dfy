/** Over a run: every issue's state categories walk the transition table. At one update: the completion rollup
    marks a parent exactly when all its children are done. */
module Lifecycle {
  import opened Values
  import opened Transitions
  import opened Store
  import opened Queries
  import opened Evaluator
  import opened Effects
  import opened IssueSpec
  import opened IssueFacts
  import opened Runs
  import opened Shapes
  import opened Tenancy

  // ---------- state history ----------

  /** The category an issue is in; Triage stands in for a dangling state, which isolation rules out. */
  function Category(db: Db, i: Id): StateType
    requires i in db.issues
  {
    match KindOf(db, db.issues[i])
    case Some(k) => k
    case None => Triage
  }

  /** The issue's category now and after each step of the run, while it exists. */
  function History(lib: Lib, db: Db, ops: seq<Op>, i: Id): seq<StateType>
    decreases |ops|
  {
    (if i in db.issues then [Category(db, i)] else [])
    + (if ops == [] then [] else History(lib, Step(lib, db, ops[0]), ops[1..], i))
  }

  lemma BodyMovesAlongTheTable(db: Db, mid: Db, id: Id, patch: Patch, fields: map<Column, Value>,
    labels: set<Id>, i: Id)
    requires id in db.issues && i in db.issues && (i == id ==> StateId !in fields)
    requires StateRow(db, db.issues[id].Get(StateId)).Some?
    requires TransitionProblem(db, db.issues[id], patch, StateRow(db, db.issues[id].Get(StateId)).value).None?
    requires ChangesIssue(db, mid, id, db.issues[id].cells + patch + fields, labels)
    ensures i in mid.issues && IsValidTransition(Category(db, i), Category(mid, i))
  {
    if i == id {
      StateAfterUpdate(db, id, patch, fields);
    } else {
      assert mid.issues[i] == db.issues[i];
    }
  }

  lemma UpdateMovesAlongTheTable(lib: Lib, db: Db, id: Id, patch: Patch, user: Id, i: Id)
    requires i in db.issues && TeamSetsNone(db.rules, db.issues[i].team, StateId)
    requires UpdateIssueSpec(lib, db, id, patch, Some(user)).Committed?
    ensures var next := UpdateIssueSpec(lib, db, id, patch, Some(user)).db;
      i in next.issues && IsValidTransition(Category(db, i), Category(next, i))
  {
    hide UpdateIssueSpec, UpdateBody, UpdateProblem, TransitionProblem, RowOk, RollUp, Category, ChangesIssue;
    hide IsValidTransition, TargetKind;
    var mid, fields, labels := UpdateShape(lib, db, id, patch, user);
    BodyMovesAlongTheTable(db, mid, id, patch, fields, labels, i);
    RollUpOnlyMarks(mid, id, TargetKind(db, db.issues[id], patch));
    MarkKeepsCategory(mid, RollUp(mid, id, TargetKind(db, db.issues[id], patch)), i);
  }

  lemma MarkKeepsCategory(db: Db, next: Db, i: Id)
    requires i in db.issues
    requires OnlyMarks(db, next)
    ensures i in next.issues && Category(next, i) == Category(db, i)
  {
  }

  lemma CreateKeepsCategory(lib: Lib, db: Db, team: Id, data: NewIssue, user: Id, i: Id)
    requires FreshIds(db) && i in db.issues && CreateIssueSpec(lib, db, team, data, user).Committed?
    ensures i in CreateIssueSpec(lib, db, team, data, user).db.issues
    ensures Category(CreateIssueSpec(lib, db, team, data, user).db, i) == Category(db, i)
  {
    hide RowOk, CreateIssueSpec, CreateProblem, CreateStateOf;
    var _, _ := CreateShape(lib, db, team, data, user);
  }

  lemma OtherStepsKeepCategory(lib: Lib, db: Db, op: Op, i: Id)
    requires FreshIds(db) && i in db.issues && IsolatedIn(db, db.issues[i].team, StateId)
    requires i in Step(lib, db, op).issues
    requires !op.CreateIssue? && !op.UpdateIssue?
    ensures Category(Step(lib, db, op), i) == Category(db, i)
  {
    hide Step;
    assert RefersInside(db, i, db.issues[i], StateId);
    OtherSteps(lib, db, op);
    var next := Step(lib, db, op);
    assert next.issues[i].Get(StateId) == db.issues[i].Get(StateId);
  }

  lemma StepMovesAlongTheTable(lib: Lib, db: Db, op: Op, i: Id)
    requires i in db.issues && i in Step(lib, db, op).issues
    requires FreshIds(db) && IsolatedIn(db, db.issues[i].team, StateId)
    requires TeamSetsNone(db.rules, db.issues[i].team, StateId)
    ensures IsValidTransition(Category(db, i), Category(Step(lib, db, op), i))
  {
    hide Category, UpdateIssueSpec;
    if op.UpdateIssue? {
      if UpdateIssueSpec(lib, db, op.id, op.patch, Some(op.user)).Committed? {
        UpdateMovesAlongTheTable(lib, db, op.id, op.patch, op.user, i);
      }
    } else if op.CreateIssue? {
      hide CreateIssueSpec;
      if CreateIssueSpec(lib, db, op.team, op.data, op.user).Committed? {
        CreateKeepsCategory(lib, db, op.team, op.data, op.user, i);
      }
    } else {
      hide Step;
      OtherStepsKeepCategory(lib, db, op, i);
    }
  }

  /** In a run where no rule of its team sets states, an issue's history has an entry for every state of the run and
      each is equal to, or joined in the table with, the one before. */
  lemma {:induction false} HistoryIsAWalk(lib: Lib, db: Db, ops: seq<Op>, i: Id)
    requires i in db.issues && i in Run(lib, db, ops).issues && FreshIds(db)
    requires IsolatedIn(db, db.issues[i].team, StateId)
    requires var team := db.issues[i].team; Throughout(lib, db, ops, (d: Db) => TeamSetsNone(d.rules, team, StateId))
    ensures IsWalk(History(lib, db, ops, i)) && |History(lib, db, ops, i)| == |ops| + 1
    ensures History(lib, db, ops, i)[0] == Category(db, i)
    decreases |ops|
  {
    if ops != [] {
      hide Step, IsolatedIn, Category, IsValidTransition, Closed;
      var team := db.issues[i].team;
      var next := Step(lib, db, ops[0]);
      StepIds(lib, db, ops[0]);
      TeamNeverChanges(lib, next, ops[1..], i);
      assert TeamSetsNone(db.rules, team, StateId);
      StepMovesAlongTheTable(lib, db, ops[0], i);
      StateClosed(db, team);
      StepIsolates(lib, db, ops[0], team, StateId);
      HistoryIsAWalk(lib, next, ops[1..], i);
      var rest := History(lib, next, ops[1..], i);
      assert History(lib, db, ops, i) == [Category(db, i)] + rest;
      WalkOfCons(Category(db, i), rest);
    }
  }

  lemma StateClosed(db: Db, team: Id)
    requires TeamSetsNone(db.rules, team, StateId)
    ensures Closed(db, team, StateId)
  {
  }

  lemma WalkOfCons(k: StateType, rest: seq<StateType>)
    requires IsWalk(rest) && rest != [] && IsValidTransition(k, rest[0])
    ensures IsWalk([k] + rest)
  {
    hide IsValidTransition;
    var h := [k] + rest;
    forall j | 0 <= j < |h| - 1 ensures IsValidTransition(h[j], h[j + 1]) {
      assert j > 0 ==> h[j] == rest[j - 1] && h[j + 1] == rest[j];
    }
  }

  /** A completed issue that is completed again later, after having left, was reopened as unstarted and then started. */
  lemma RecompletionIsReworked(lib: Lib, db: Db, ops: seq<Op>, i: Id, a: nat, m: nat, b: nat)
    requires i in db.issues && i in Run(lib, db, ops).issues && FreshIds(db)
    requires IsolatedIn(db, db.issues[i].team, StateId)
    requires var team := db.issues[i].team; Throughout(lib, db, ops, (d: Db) => TeamSetsNone(d.rules, team, StateId))
    requires a < m < b <= |ops|
    requires var h := History(lib, db, ops, i); |h| == |ops| + 1 && h[a] == h[b] == Completed && h[m] != Completed
    ensures var h := History(lib, db, ops, i);
      exists u, s :: a < u < s < b && h[u] == Unstarted && h[s] == Started
  {
    HistoryIsAWalk(lib, db, ops, i);
    ReopeningPassesThroughUnstartedAndStarted(History(lib, db, ops, i), a, m, b);
  }

  // ---------- completion rollup ----------

  function ChildrenOf(db: Db, p: Id): set<Id> {
    set i | i in db.issues && db.issues[i].Link(ParentId) == Some(p)
  }

  ghost predicate AllDone(db: Db, p: Id) {
    forall i :: i in ChildrenOf(db, p) ==> Category(db, i).Terminal()
  }

  lemma SiblingIsInTheTeam(db: Db, id: Id, p: Id, s: Id)
    requires id in db.issues && db.issues[id].Link(ParentId) == Some(p) && s in SiblingsOf(db, id, p)
    requires Isolated(db, ParentId)
    ensures db.issues[s].team == db.issues[id].team
  {
    assert RefersInside(db, id, db.issues[id], ParentId) && RefersInside(db, s, db.issues[s], ParentId);
  }

  /** The team-scoped test of the code asks exactly whether there is a sibling and every sibling is in a terminal
      category. Nothing is asked of the issue's own state. */
  lemma SiblingTestIsExact(db: Db, id: Id, p: Id)
    requires id in db.issues && db.issues[id].Link(ParentId) == Some(p) && Isolated(db, ParentId)
    requires forall s :: s in SiblingsOf(db, id, p) ==> RefersInside(db, s, db.issues[s], StateId)
    ensures SiblingsDone(db, db.issues[id].team, SiblingsOf(db, id, p)) <==> SiblingsTerminal(db, id, p)
  {
    hide Isolated;
    var terminal := StateIds(db, db.issues[id].team, {Completed, Canceled});
    forall s | s in SiblingsOf(db, id, p)
      ensures db.issues[s].Link(StateId).Some?
      ensures db.issues[s].Link(StateId).value in terminal <==> Category(db, s).Terminal()
    {
      SiblingIsInTheTeam(db, id, p, s);
    }
  }

  ghost predicate SiblingsTerminal(db: Db, id: Id, p: Id) {
    SiblingsOf(db, id, p) != {} && forall s :: s in SiblingsOf(db, id, p) ==> Category(db, s).Terminal()
  }

  /** With the issue itself in a terminal category, its siblings are done exactly when its parent has another child and
      all its children are done. */
  lemma ChildrenAreSiblingsAndSelf(db: Db, id: Id, p: Id)
    requires id in db.issues && db.issues[id].Link(ParentId) == Some(p) && Category(db, id).Terminal()
    ensures SiblingsTerminal(db, id, p) <==> ChildrenOf(db, p) != {id} && AllDone(db, p)
  {
    hide Category;
    assert ChildrenOf(db, p) == SiblingsOf(db, id, p) + {id};
    assert id !in SiblingsOf(db, id, p);
    assert ChildrenOf(db, p) - {id} == SiblingsOf(db, id, p);
  }

  lemma ParentExists(db: Db, id: Id, p: Id)
    requires id in db.issues && db.issues[id].Link(ParentId) == Some(p) && Isolated(db, ParentId)
    ensures p in db.issues && p != id
  {
    assert RefersInside(db, id, db.issues[id], ParentId);
  }

  /** Neither an update's patch nor its effects touch the siblings' states. */
  lemma SiblingsKeepTheirStates(db: Db, mid: Db, id: Id, cells: map<Column, Value>, labels: set<Id>, p: Id)
    requires id in db.issues && ChangesIssue(db, mid, id, cells, labels)
    requires mid.issues[id].Link(ParentId) == Some(p) && Isolated(mid, ParentId)
    requires IsolatedIn(db, db.issues[id].team, StateId)
    ensures forall s :: s in SiblingsOf(mid, id, p) ==> RefersInside(mid, s, mid.issues[s], StateId)
  {
    forall s | s in SiblingsOf(mid, id, p) ensures RefersInside(mid, s, mid.issues[s], StateId) {
      SiblingIsInTheTeam(mid, id, p, s);
      assert mid.issues[s] == db.issues[s] && RefersInside(db, s, db.issues[s], StateId);
    }
  }

  lemma ParentsStayIsolated(lib: Lib, db: Db, id: Id, patch: Patch, user: Id)
    requires Isolated(db, ParentId) && UpdateIssueSpec(lib, db, id, patch, Some(user)).Committed?
    ensures UpdateBody(lib, db, id, patch, Some(user)).Committed?
    ensures Isolated(UpdateBody(lib, db, id, patch, Some(user)).db, ParentId)
  {
    hide UpdateIssueSpec, UpdateBody, Isolated, IsolatedIn;
    IsolatedEverywhere(db, ParentId);
    BodyIsolates(lib, db, id, patch, user, 0, ParentId);
    forall team: Id ensures IsolatedIn(UpdateBody(lib, db, id, patch, Some(user)).db, team, ParentId) {
      BodyIsolates(lib, db, id, patch, user, team, ParentId);
    }
    IsolatedEverywhere(UpdateBody(lib, db, id, patch, Some(user)).db, ParentId);
  }

  /** When an update moves an issue into a terminal category, its commit is followed by marking the parent if and only
      if the issue has a sibling and every sibling is done, whatever any rule does. */
  lemma RollupIsExact(lib: Lib, db: Db, id: Id, patch: Patch, user: Id, p: Id)
    requires Isolated(db, ParentId) && id in db.issues && IsolatedIn(db, db.issues[id].team, StateId)
    requires UpdateIssueSpec(lib, db, id, patch, Some(user)).Committed?
    requires TargetKind(db, db.issues[id], patch).Some? && TargetKind(db, db.issues[id], patch).value.Terminal()
    requires UpdateBody(lib, db, id, patch, Some(user)).Committed?
    requires UpdateBody(lib, db, id, patch, Some(user)).db.issues[id].Link(ParentId) == Some(p)
    ensures var mid, next := UpdateBody(lib, db, id, patch, Some(user)).db,
      UpdateIssueSpec(lib, db, id, patch, Some(user)).db;
      && p in mid.issues
      && if SiblingsTerminal(mid, id, p) then Marked(mid, next, p) else next == mid
  {
    hide UpdateIssueSpec, UpdateBody, UpdateProblem, RowOk, Isolated, IsolatedIn, SiblingsDone, SiblingsTerminal;
    hide TransitionProblem, TargetKind, MarkDone, Marked;
    var mid, fields, labels := UpdateShape(lib, db, id, patch, user);
    ParentsStayIsolated(lib, db, id, patch, user);
    ParentExists(mid, id, p);
    SiblingsKeepTheirStates(db, mid, id, db.issues[id].cells + patch + fields, labels, p);
    SiblingTestIsExact(mid, id, p);
    MarkDoneMarks(mid, p);
  }

  /** If moreover the effects of this update do not write the state, the parent is marked if and only if it has another
      child and all its children are done at that moment. */
  lemma RollupSeesAllChildren(lib: Lib, db: Db, id: Id, patch: Patch, user: Id, p: Id) returns (firings: seq<Firing>)
    requires Isolated(db, ParentId) && id in db.issues && IsolatedIn(db, db.issues[id].team, StateId)
    requires UpdateIssueSpec(lib, db, id, patch, Some(user)).Committed?
    requires TargetKind(db, db.issues[id], patch).Some? && TargetKind(db, db.issues[id], patch).value.Terminal()
    requires UpdateBody(lib, db, id, patch, Some(user)).Committed?
    requires UpdateBody(lib, db, id, patch, Some(user)).db.issues[id].Link(ParentId) == Some(p)
    ensures var row := db.issues[id];
      && StateRow(db, row.Get(StateId)).Some?
      && EvaluateInOrder(lib, db, UpdateRules(db, row, patch),
           UpdateContext(lib, db, row, patch, StateRow(db, row.Get(StateId)).value, Some(user)), row.team)
             == Accepted(firings)
    ensures var mid, next := UpdateBody(lib, db, id, patch, Some(user)).db,
      UpdateIssueSpec(lib, db, id, patch, Some(user)).db;
      StateId !in FieldsOf(lib, firings) ==>
        && p in mid.issues
        && if ChildrenOf(mid, p) != {id} && AllDone(mid, p) then Marked(mid, next, p) else next == mid
  {
    hide *;
    RollupIsExact(lib, db, id, patch, user, p);
    firings := MovedIntoTarget(lib, db, id, patch, user);
    if StateId !in FieldsOf(lib, firings) {
      ChildrenAreSiblingsAndSelf(UpdateBody(lib, db, id, patch, Some(user)).db, id, p);
    }
  }

  lemma MovedIntoTarget(lib: Lib, db: Db, id: Id, patch: Patch, user: Id) returns (firings: seq<Firing>)
    requires UpdateBody(lib, db, id, patch, Some(user)).Committed? && id in db.issues
    requires TargetKind(db, db.issues[id], patch).Some?
    ensures var row := db.issues[id];
      && StateRow(db, row.Get(StateId)).Some?
      && EvaluateInOrder(lib, db, UpdateRules(db, row, patch),
           UpdateContext(lib, db, row, patch, StateRow(db, row.Get(StateId)).value, Some(user)), row.team)
             == Accepted(firings)
    ensures var mid := UpdateBody(lib, db, id, patch, Some(user)).db;
      && id in mid.issues
      && (StateId !in FieldsOf(lib, firings) ==> Category(mid, id) == TargetKind(db, db.issues[id], patch).value)
  {
    hide UpdateBody, UpdateProblem, RowOk, EvaluateInOrder, UpdateContext, UpdateRules, FieldsOf, LabelsOf, DiffOf;
    firings := UpdateIsAnOverlay(lib, db, id, patch, Some(user));
    var row := db.issues[id];
    OverlayChangesIssue(db, id, patch, user, FieldsOf(lib, firings),
      LabelsOf(Patched(db, id, patch), row.team, firings),
      CommentsOf(Flatten(firings), id, user), NotesOf(lib, Flatten(firings), row.team, id));
    hide Overlay, Patched, LoggedUpdate;
    if StateId !in FieldsOf(lib, firings) {
      StateAfterUpdate(db, id, patch, FieldsOf(lib, firings));
    }
  }
}
