/** Concrete inputs for what fails: one member's team, and in each case requests its API accepts. */
module Inputs {
  import opened Values
  import opened Transitions
  import opened Actions
  import opened Context
  import opened Store
  import opened Evaluator
  import opened IssueSpec
  import opened IssueFacts
  import opened AdminSpec
  import opened SpawnSpec
  import opened Schedules
  import opened Runs
  import opened Scheduler
  import opened Escapes
  import opened RuleService

  // ---------- a due date cannot be changed ----------

  const ONE_ISSUE: Db := ONE_MEMBER.(issues := map[5 := PLAIN])

  const DUE_NEXT_DAY: Patch := map[DueDate := Date(1)]

  lemma DueDateIsValid()
    ensures UpdateProblem(ONE_ISSUE, 5, DUE_NEXT_DAY).None?
    ensures StateRow(ONE_ISSUE, PLAIN.Get(StateId)) == Some(ONE_ISSUE.states[3])
    ensures TransitionProblem(ONE_ISSUE, PLAIN, DUE_NEXT_DAY, ONE_ISSUE.states[3]).None?
    ensures UpdateRules(ONE_ISSUE, PLAIN, DUE_NEXT_DAY) == []
  {
  }

  lemma DueDateFits(db: Db, row: Issue)
    requires db.states == ONE_MEMBER.states && row.cells == PLAIN.cells + DUE_NEXT_DAY
    ensures RowOk(db, row)
  {
    forall c: Column ensures Fits(db, c, row.Get(c)) {
    }
  }

  /** The member gives an issue without a due date one; no rule is involved, and nothing is stored. */
  lemma DueDateChangeCrashes(lib: Lib)
    ensures UpdateIssueSpec(lib, ONE_ISSUE, 5, DUE_NEXT_DAY, Some(0)) == Crashed(NotSerializable)
  {
    DueDateIsValid();
    DueDateFits(Patched(ONE_ISSUE, 5, DUE_NEXT_DAY), Patched(ONE_ISSUE, 5, DUE_NEXT_DAY).issues[5]);
    assert ONE_ISSUE.issues[5] == PLAIN;
    var diff := DiffOf(PLAIN, DUE_NEXT_DAY);
    assert DueDate in diff && diff[DueDate].after == Date(1);
    hide UpdateProblem, TransitionProblem, UpdateRules, UpdateContext, RollUp, StateRow, RowOk, DiffOf;
  }

  // ---------- a zero-length interval ----------

  lemma ZeroDaysParse()
    ensures ParseInterval("0d") == Some(Period(0, Days))
  {
    assert "0d"[..1] == "0" && "0"[..0] == "";
    assert ParseNat("0") == 0;
  }

  /** `0d` passes validation and does not advance. */
  lemma ZeroDaysAreAccepted(lib: Lib)
    ensures ValidSchedule(lib, Interval("0d")) && !StrictlyAdvances(lib, Interval("0d"))
  {
    ZeroDaysParse();
    ZeroIntervalStaysDue(lib, "0d", 0, 0);
    hide ParseInterval;
  }

  const EVERY_ZERO_DAYS: NewRecurrence := NewRecurrence("t", Null, map[], Interval("0d"), None)

  const ZERO_DAYS: Recurrence :=
    Recurrence(HOME, 0, "t", Null, map[], Interval("0d"), 0, None, None, true)

  const ONE_ZERO: Db := ONE_MEMBER.(nextId := 8, recurrences := map[7 := ZERO_DAYS],
    audit := [Entry(HOME, RecurrenceEntity, 7, Create, 0)])

  lemma PlainSpawnFits(lib: Lib, db: Db, rec: Recurrence)
    requires db.users == ONE_MEMBER.users && db.states == ONE_MEMBER.states
    requires rec.titleTemplate == "t" && rec.description == Null
    requires "assignee_id" !in rec.defaults && "project_id" !in rec.defaults && "priority" !in rec.defaults
    requires Default(lib, rec.defaults, CustomFields, "custom_fields", Null).Null?
    ensures RowOk(db, SpawnRow(lib, rec, 3))
  {
    var row := SpawnRow(lib, rec, 3);
    assert ReplaceDate("t", lib.dateText(rec.nextDue)) == "t";
    forall c: Column ensures Fits(db, c, row.Get(c)) {
    }
  }

  lemma TheBacklogIsFound(db: Db)
    requires db.states == ONE_MEMBER.states
    ensures FirstState(db, HOME, Backlog) == Some(3)
  {
    assert 3 in StatesOfKind(db, HOME, Backlog);
    assert FirstState(db, HOME, Backlog).Some?;
  }

  /** The request that creates it commits, and the first tick that meets it never ends. */
  lemma ZeroDaysHangTheTick(lib: Lib)
    ensures CreateRecurrenceSpec(lib, ONE_MEMBER, HOME, EVERY_ZERO_DAYS, 0, 0) == Committed(ONE_ZERO, 7)
    ensures SpawnDue(lib, ONE_ZERO, 7, 0) == Hung
  {
    ZeroDaysAreAccepted(lib);
    ZeroDaysParse();
    ZeroIntervalStaysDue(lib, "0d", 0, 0);
    TheBacklogIsFound(ONE_ZERO);
    PlainSpawnFits(lib, ONE_ZERO, ZERO_DAYS);
    assert ONE_ZERO.recurrences[7] == ZERO_DAYS;
    hide RowOk, NextDue, SpawnRow, FirstState, ValidSchedule, SpawnInto, ParseInterval, StrictlyAdvances;
  }

  // ---------- a text that is none ----------

  const NUMBER_MESSAGE: seq<Action> := [Reject(Some(Int(5)))]

  const REJECTING: NewRule := NewRule("no", IssueUpdated, None, NUMBER_MESSAGE, 0, true)

  const STORED_REJECTING: Rule := Rule(7, HOME, "no", true, IssueUpdated, None, NUMBER_MESSAGE, 0)

  const WITH_REJECTING: Db :=
    ONE_ISSUE.(nextId := 8, rules := [STORED_REJECTING], audit := [Entry(HOME, RuleEntity, 7, Create, 0)])

  lemma OnlyTheRejectingRuleIsAsked()
    ensures UpdateRules(WITH_REJECTING, PLAIN, RENAMING) == [STORED_REJECTING]
  {
    assert [STORED_REJECTING][1..] == [] && WITH_REJECTING.rules == [STORED_REJECTING];
    assert MatchingRules(WITH_REJECTING.rules, HOME, IssueUpdated) == [STORED_REJECTING];
  }

  lemma RenamingIsValid()
    ensures UpdateProblem(WITH_REJECTING, 5, RENAMING).None?
    ensures StateRow(WITH_REJECTING, PLAIN.Get(StateId)) == Some(WITH_REJECTING.states[3])
    ensures TransitionProblem(WITH_REJECTING, PLAIN, RENAMING, WITH_REJECTING.states[3]).None?
  {
  }

  lemma NumberMessageIsStored()
    ensures CreateRuleSpec(ONE_ISSUE, HOME, REJECTING, Some(0)) == Committed(WITH_REJECTING, 7)
  {
    assert ValidAction(NUMBER_MESSAGE[0]);
    assert [] + [STORED_REJECTING] == [STORED_REJECTING];
  }

  lemma NumberMessageStops(lib: Lib, ctx: RuleContext)
    ensures EvaluateInOrder(lib, WITH_REJECTING, [STORED_REJECTING], ctx, HOME) == Stopped(Uncaught(NotText))
  {
    assert FirstDefect(NUMBER_MESSAGE) == Some(NotText);
    JudgementOfDefects(lib, WITH_REJECTING, STORED_REJECTING, ctx, HOME);
    hide Judge, FirstDefect;
  }

  /** A rule whose reject message is a number is stored, and an update of the team's issue then ends in an error that
      nobody catches. */
  lemma NumberMessageCrashesUpdates(lib: Lib)
    ensures CreateRuleSpec(ONE_ISSUE, HOME, REJECTING, Some(0)) == Committed(WITH_REJECTING, 7)
    ensures UpdateIssueSpec(lib, WITH_REJECTING, 5, RENAMING, Some(0)) == Crashed(NotText)
  {
    NumberMessageIsStored();
    OnlyTheRejectingRuleIsAsked();
    RenamingIsValid();
    assert WITH_REJECTING.issues[5] == PLAIN;
    NumberMessageStops(lib, UpdateContext(lib, WITH_REJECTING, PLAIN, RENAMING, WITH_REJECTING.states[3], Some(0)));
    hide CreateRuleSpec;
    hide UpdateProblem, TransitionProblem, UpdateRules, UpdateContext, RollUp, StateRow, UpdateAccepted,
      EvaluateInOrder;
  }

  // ---------- a failed flush ends the tick ----------

  const NO_DEFAULTS: Recurrence :=
    Recurrence(HOME, 0, "t", Null, map[], Interval("1d"), 0, None, None, true)

  /** Two due recurrences, the default assignee of the first being nobody. */
  const TWO_DUE: Db := ONE_MEMBER.(recurrences := map[4 := DAILY, 6 := NO_DEFAULTS])

  lemma NobodysRowFails(lib: Lib)
    requires lib.bind(AssigneeId, Str("u")) == Ref(9)
    ensures RowFails(lib, TWO_DUE, 4, 0)
  {
    TheBacklogIsFound(TWO_DUE);
    assert TWO_DUE.recurrences[4] == DAILY;
    assert !Fits(TWO_DUE, AssigneeId, SpawnRow(lib, DAILY, 3).Get(AssigneeId));
    hide FirstState;
  }

  lemma TheOtherWouldSpawn(lib: Lib)
    ensures SpawnDue(lib, TWO_DUE, 6, 0).Spawned?
  {
    TheBacklogIsFound(TWO_DUE);
    assert TWO_DUE.recurrences[6] == NO_DEFAULTS;
    PlainSpawnFits(lib, TWO_DUE, NO_DEFAULTS);
    DailyIsDueTomorrow(lib);
    hide RowOk, NextDue, SpawnRow, FirstState, SpawnInto;
  }

  lemma BothAreDue()
    ensures DueIn(TWO_DUE, 0) == {4, 6}
  {
  }

  /** The handler around each transaction is there to keep a failing recurrence from affecting the others. Here the
      first keeps the second from spawning, and both are still due afterwards. */
  lemma FailedFlushEndsTheTick(lib: Lib)
    requires lib.bind(AssigneeId, Str("u")) == Ref(9)
    ensures SpawnDue(lib, TWO_DUE, 6, 0).Spawned?
    ensures Tick(lib, TWO_DUE, [4, 6], 0, [[], []]) == TickResult(TWO_DUE, [], true)
  {
    NobodysRowFails(lib);
    TheOtherWouldSpawn(lib);
    BreaksExactlyOnBadRows(lib, TWO_DUE, 4, 0);
    hide SpawnDue, RowFails, Breaks, SpawnOutcome, Tick;
    var due: seq<Id>, nothing: seq<seq<Op>> := [4, 6], [[], []];
    assert due[0] == 4 && nothing[0] == [];
    TickOfCons(lib, TWO_DUE, due, 0, nothing);
  }

  // ---------- done subtasks and deletion ----------

  const DONE_CHILD: Issue := PLAIN.(cells := PLAIN.cells[StateId := Ref(4)][ParentId := Ref(5)])

  /** An issue whose one subtask is completed. */
  const DONE_SUBTASK: Db := ONE_MEMBER.(
    states := ONE_MEMBER.states[4 := WorkflowState(HOME, "Done", Completed, 1)],
      issues := map[5 := PLAIN, 6 := DONE_CHILD])

  lemma TheSubtaskFits()
    ensures RowOk(DONE_SUBTASK, PLAIN) && RowOk(DONE_SUBTASK, DONE_CHILD)
  {
    forall c: Column ensures Fits(DONE_SUBTASK, c, PLAIN.Get(c)) && Fits(DONE_SUBTASK, c, DONE_CHILD.Get(c)) {
    }
  }

  lemma DoneSubtaskBreaksTheDelete()
    ensures RowOk(DONE_SUBTASK, PLAIN) && RowOk(DONE_SUBTASK, DONE_CHILD) && ActiveChildren(DONE_SUBTASK, 5) == {}
    ensures DeleteIssueSpec(DONE_SUBTASK, 5) == Crashed(BrokenReference)
  {
    TheSubtaskFits();
    assert DONE_SUBTASK.issues[6] == DONE_CHILD && DONE_SUBTASK.issues[5] == PLAIN;
    hide RowOk, Fits;
    DoneSubtasksBreakTheDelete(DONE_SUBTASK, 5, 6);
  }
}
