/** What holds in every state that any run of requests and ticks reaches from the empty tables. */
module Reachable {
  import opened Values
  import opened Store
  import opened IssueSpec
  import opened Runs
  import opened Shapes
  import opened Rows
  import opened Tenancy
  import opened Audit
  import opened Members
  import opened RuleService

  lemma {:induction false} RunKeepsIdsFresh(lib: Lib, db: Db, ops: seq<Op>)
    requires FreshIds(db)
    ensures FreshIds(Run(lib, db, ops)) && db.nextId <= Run(lib, db, ops).nextId
    decreases |ops|
  {
    if ops != [] {
      hide Step, FreshIds;
      StepIds(lib, db, ops[0]);
      RunKeepsIdsFresh(lib, Step(lib, db, ops[0]), ops[1..]);
    }
  }

  lemma EmptyTables()
    ensures FreshIds(EMPTY) && LabelsIsolated(EMPTY) && Governed(EMPTY) && Validated(EMPTY.rules) && RowsFit(EMPTY)
    ensures forall team, c :: IsolatedIn(EMPTY, team, c)
  {
    EmptyTablesAreGoverned();
  }

  lemma ParentsStayInside(lib: Lib, ops: seq<Op>)
    ensures Isolated(Run(lib, EMPTY, ops), ParentId)
  {
    hide Run, Isolated, IsolatedIn, FreshIds, Throughout;
    EmptyTables();
    forall team: Id ensures IsolatedIn(Run(lib, EMPTY, ops), team, ParentId) {
      RunIsolates(lib, EMPTY, ops, team, ParentId);
    }
    IsolatedEverywhere(Run(lib, EMPTY, ops), ParentId);
  }

  /** With no assumption at all: ids are never reused, every row fits, parents and labels stay in the issue's team,
      every team with a member has an owner, and stored rules are valid. */
  lemma EveryReachableStateIsSound(lib: Lib, ops: seq<Op>)
    ensures var db := Run(lib, EMPTY, ops);
      && FreshIds(db) && RowsFit(db) && Isolated(db, ParentId) && LabelsIsolated(db) && Governed(db)
      && Validated(db.rules)
  {
    hide Run, FreshIds, RowsFit, Isolated, IsolatedIn, LabelsIsolated, Governed, Validated, Throughout;
    EmptyTables();
    RunKeepsIdsFresh(lib, EMPTY, ops);
    RowsStayFit(lib, EMPTY, ops);
    ParentsStayInside(lib, ops);
    RunIsolatesLabels(lib, EMPTY, ops);
    TeamsKeepAnOwner(lib, EMPTY, ops);
    StoredRulesStayValid(lib, EMPTY, ops);
  }

  /** A team's issues refer to its own state, project or assignee in every state reached while no rule of the team sets
      that column and, for the last two, no recurrence of the team carries it. */
  lemma ReachableReferencesStayInside(lib: Lib, ops: seq<Op>, team: Id, c: Column)
    requires IsReference(c) && Throughout(lib, EMPTY, ops, d => Closed(d, team, c))
    ensures IsolatedIn(Run(lib, EMPTY, ops), team, c)
  {
    hide Run, IsolatedIn, Throughout, FreshIds;
    EmptyTables();
    RunIsolates(lib, EMPTY, ops, team, c);
  }

  /** In every reachable state: an acting user's update whose patch fits, that the rules accept and whose effects apply,
      commits exactly when it leaves the due date as it is. */
  lemma ReachableUpdatesCommitUnlessDueDateChanges(lib: Lib, ops: seq<Op>, id: Id, patch: Patch, user: Id,
                                                   firings: seq<Evaluator.Firing>)
    requires var db := Run(lib, EMPTY, ops);
      && id in db.issues && RowOk(Patched(db, id, patch), Patched(db, id, patch).issues[id])
      && ApplyFirings(lib, Patched(db, id, patch), id, firings, user).Ok?
    ensures var db := Run(lib, EMPTY, ops);
      UpdateAccepted(lib, db, id, patch, Some(user), firings).Committed? <==> !ChangesDueDate(db.issues[id], patch)
  {
    hide Run, Patched, ApplyFirings, UpdateAccepted, RowOk, FreshIds;
    EmptyTables();
    RowsStayFit(lib, EMPTY, ops);
    var db := Run(lib, EMPTY, ops);
    assert RowOk(db, db.issues[id]);
    AcceptedUpdateCommitsUnlessDueDateChanges(lib, db, id, patch, user, firings);
  }
}
