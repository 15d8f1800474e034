/** scheduler.py: the tick that spawns issues from due recurrences, with other requests between its transactions. */
module Scheduler {
  import opened Values
  import opened Transitions
  import opened Store
  import opened Effects
  import opened IssueSpec
  import opened SpawnSpec
  import opened Schedules
  import opened Sessions
  import opened Runs
  import opened Shapes

  /** If the recurrence spawns at all, its own schedule advances. */
  ghost predicate Advances(lib: Lib, db: Db, r: Id, now: Time) {
    IsDue(db, r, now) ==> StrictlyAdvances(lib, db.recurrences[r].schedule)
  }

  // ---------- one recurrence ----------

  /** `spawn_issue`: the new row and its audit entry, not yet committed. */
  method SpawnIssue(lib: Lib, s: Session, r: Id) returns (issue: Result<Id>)
    requires r in s.working.recurrences
    modifies s`working
    ensures var db, rec := old(s.working), old(s.working).recurrences[r];
      var state := FirstState(db, rec.team, Backlog);
      && (state.None? ==> issue == Err(NoBacklogState))
      && (state.Some? && !RowOk(db, SpawnRow(lib, rec, state.value)) ==> issue == Err(BadRow))
      && (state.Some? && RowOk(db, SpawnRow(lib, rec, state.value)) ==>
            && issue == Ok(db.nextId)
            && s.working == db.(nextId := db.nextId + 1,
                                issues := db.issues[db.nextId := SpawnRow(lib, rec, state.value)],
                                audit := db.audit + [SpawnEntry(rec, r, db.nextId)]))
  {
    hide RowOk, SpawnRow;
    var rec := s.working.recurrences[r];
    var state := FirstState(s.working, rec.team, Backlog);
    if state.None? {
      return Err(NoBacklogState);
    }
    var row, id := SpawnRow(lib, rec, state.value), s.working.nextId;
    if !RowOk(s.working, row) {
      return Err(BadRow);
    }
    s.working := s.working.(nextId := id + 1, issues := s.working.issues[id := row]);
    s.working := s.working.(audit := s.working.audit + [SpawnEntry(rec, r, id)]);
    issue := Ok(id);
  }

  /** A flush that fails expires the loaded recurrence, and leaving the block detaches it; the handler that logs its id
      then raises in its turn. Every other failure is only logged. */
  predicate Breaks(t: SpawnTxn) {
    t == SpawnTxn.Failed(BadRow)
  }

  /** The recurrence is due and its team has a backlog state, but the row it would spawn does not fit. */
  predicate RowFails(lib: Lib, db: Db, r: Id, now: Time) {
    IsDue(db, r, now) &&
    var state := FirstState(db, db.recurrences[r].team, Backlog);
    state.Some? && !RowOk(db, SpawnRow(lib, db.recurrences[r], state.value))
  }

  lemma BreaksExactlyOnBadRows(lib: Lib, db: Db, r: Id, now: Time)
    ensures Breaks(SpawnDue(lib, db, r, now)) <==> RowFails(lib, db, r, now)
  {
    hide RowOk, SpawnRow;
  }

  lemma NextDueFailsOutsideTheFlush(lib: Lib, s: Schedule, now: Time)
    ensures NextDue(lib, s, now).Err? ==>
      NextDue(lib, s, now).error.BadSchedule? || NextDue(lib, s, now).error.Overflow?
  {
  }

  /** The body of the loop over due recurrences: re-check, spawn, advance past now, commit. An exception leaves
      the stored tables as they were, and leaves the loop itself if it came from the flush. */
  method SpawnTransaction(lib: Lib, s: Session, r: Id, now: Time) returns (issue: Option<Id>, raised: bool)
    requires s.Idle() && Advances(lib, s.committed, r, now)
    modifies s
    ensures var t := SpawnDue(lib, old(s.committed), r, now);
      && s.Idle() && s.committed == SpawnOutcome(old(s.committed), t) && !t.Hung?
      && issue == (if t.Spawned? then Some(t.issue) else None)
      && raised == Breaks(t)
  {
    hide RowOk, SpawnRow, FirstPast, NextDue;
    var db := s.working;
    if !IsDue(db, r, now) {
      return None, false;
    }
    var rec := db.recurrences[r];
    var spawned := SpawnIssue(lib, s, r);
    if spawned.Err? {
      s.Rollback();
      return None, spawned.error.BadRow?;
    }
    NextDueFailsOutsideTheFlush(lib, rec.schedule, now);
    var first := NextDue(lib, rec.schedule, now);
    if first.Err? {
      s.Rollback();
      return None, false;
    }
    assert first.value > now;
    var due := AdvancePast(lib, rec.schedule, first.value, now);
    LoopHasNothingLeft(lib, rec.schedule, first.value, now);
    s.working := s.working.(recurrences := s.working.recurrences[r :=
      rec.(lastSpawned := Some(now), lastIssue := Some(spawned.value), nextDue := due.value)]);
    s.Commit();
    issue, raised := Some(spawned.value), false;
  }

  lemma LoopHasNothingLeft(lib: Lib, s: Schedule, first: Time, now: Time)
    requires StrictlyAdvances(lib, s) && first > now
    ensures FirstPast(lib, s, first, now) == Ok(first)
  {
  }

  /** What one spawn does: the recurrence was active and due when its own transaction ran; exactly one issue is
      added, of the recurrence's team and in one of that team's backlog states; exactly one entry is logged; the
      recurrence is due only after now; nothing else changes. */
  lemma SpawnIsOneIssue(lib: Lib, db: Db, r: Id, now: Time)
    requires SpawnDue(lib, db, r, now).Spawned?
    ensures IsDue(db, r, now)
    ensures var next, id, rec := SpawnDue(lib, db, r, now).db, SpawnDue(lib, db, r, now).issue, db.recurrences[r];
      && id == db.nextId && id in next.issues
      && next.issues == db.issues[id := next.issues[id]]
      && next.issues[id].team == rec.team
      && KindOf(next, next.issues[id]) == Some(Backlog)
      && next.states[next.issues[id].Link(StateId).value].team == rec.team
      && next.audit == db.audit + [SpawnEntry(rec, r, id)]
      && r in next.recurrences && rec.nextDue <= now < next.recurrences[r].nextDue
      && next.recurrences[r].lastIssue == Some(id)
      && next.recurrences == db.recurrences[r := next.recurrences[r]] && next.recurrences[r].team == rec.team
      && next == db.(nextId := next.nextId, issues := next.issues, audit := next.audit, recurrences := next.recurrences)
  {
    hide RowOk, NextDue, Default, ReplaceDate;
  }

  // ---------- a tick ----------

  /** The tables, the spawns as (recurrence, issue), and whether the tick ended with an exception. */
  datatype TickResult = TickResult(db: Db, spawned: seq<(Id, Id)>, raised: bool)

  function Head(others: seq<seq<Op>>): seq<Op> {
    if others == [] then [] else others[0]
  }

  function Tail(others: seq<seq<Op>>): seq<seq<Op>> {
    if others == [] then [] else others[1..]
  }

  function SpawnedBy(r: Id, t: SpawnTxn): seq<(Id, Id)> {
    if t.Spawned? then [(r, t.issue)] else []
  }

  /** The snapshot's recurrences one after another, the k-th list of other requests running before the k-th, until one
      breaks the tick. */
  function Tick(lib: Lib, db: Db, due: seq<Id>, now: Time, others: seq<seq<Op>>): TickResult
    decreases |due|
  {
    if due == [] then TickResult(db, [], false) else
      var before := Run(lib, db, Head(others));
      var t := SpawnDue(lib, before, due[0], now);
      if Breaks(t) then TickResult(before, [], true)
      else
        var rest := Tick(lib, SpawnOutcome(before, t), due[1..], now, Tail(others));
        TickResult(rest.db, SpawnedBy(due[0], t) + rest.spawned, rest.raised)
  }

  /** No transaction meets a zero-length interval in its own recurrence. */
  ghost predicate TickAdvances(lib: Lib, db: Db, due: seq<Id>, now: Time, others: seq<seq<Op>>)
    decreases |due|
  {
    due == [] ||
    var before := Run(lib, db, Head(others));
    var t := SpawnDue(lib, before, due[0], now);
    && Advances(lib, before, due[0], now)
    && (!Breaks(t) ==> TickAdvances(lib, SpawnOutcome(before, t), due[1..], now, Tail(others)))
  }

  function DueIn(db: Db, now: Time): set<Id> {
    set r | r in db.recurrences && db.recurrences[r].active && db.recurrences[r].nextDue <= now
  }

  /** The snapshot takes exactly the recurrences whose transaction, run at once, would not skip them. */
  lemma SnapshotTakesTheDue(lib: Lib, db: Db, now: Time)
    ensures forall r :: r in DueIn(db, now) <==> SpawnDue(lib, db, r, now) != Skipped
  {
    hide RowOk, SpawnRow, NextDue, SpawnInto, FirstState;
  }

  /** Other sessions commit between two of the scheduler's transactions. */
  method OthersCommit(lib: Lib, s: Session, ops: seq<Op>)
    requires s.Idle()
    modifies s
    ensures s.Idle() && s.committed == Run(lib, old(s.committed), ops)
  {
    s.working := Run(lib, s.working, ops);
    s.Commit();
  }

  lemma TickOfCons(lib: Lib, db: Db, due: seq<Id>, now: Time, others: seq<seq<Op>>)
    requires due != [] && others != []
    ensures var before := Run(lib, db, others[0]);
      var t := SpawnDue(lib, before, due[0], now);
      var rest := Tick(lib, SpawnOutcome(before, t), due[1..], now, others[1..]);
      Tick(lib, db, due, now, others)
      == if Breaks(t) then TickResult(before, [], true)
         else TickResult(rest.db, SpawnedBy(due[0], t) + rest.spawned, rest.raised)
  {
    hide SpawnDue, SpawnOutcome, SpawnedBy, Breaks, Run;
  }

  /** A tick over two lists goes on with the second unless the first has broken it. */
  lemma {:induction false} TickStep(lib: Lib, db: Db, xs: seq<Id>, ys: seq<Id>, now: Time, others: seq<seq<Op>>)
    requires |xs| <= |others|
    ensures var x := Tick(lib, db, xs, now, others);
      var y := Tick(lib, x.db, ys, now, others[|xs|..]);
      Tick(lib, db, xs + ys, now, others) == if x.raised then x else TickResult(y.db, x.spawned + y.spawned, y.raised)
    decreases |xs|
  {
    hide SpawnDue, SpawnOutcome, SpawnedBy, Breaks, Run;
    if xs == [] {
      assert xs + ys == ys && others[0..] == others;
    } else {
      assert (xs + ys)[0] == xs[0] && (xs + ys)[1..] == xs[1..] + ys && others[1..][|xs| - 1..] == others[|xs|..];
      var before := Run(lib, db, others[0]);
      var t := SpawnDue(lib, before, xs[0], now);
      var after := SpawnOutcome(before, t);
      TickStep(lib, after, xs[1..], ys, now, others[1..]);
      TickOfCons(lib, db, xs + ys, now, others);
      TickOfCons(lib, db, xs, now, others);
      hide Tick;
      var x := Tick(lib, after, xs[1..], now, others[1..]);
      AppendTwice(SpawnedBy(xs[0], t), x.spawned, Tick(lib, x.db, ys, now, others[|xs|..]).spawned);
    }
  }

  lemma TickAdvancesOfCons(lib: Lib, db: Db, due: seq<Id>, now: Time, others: seq<seq<Op>>)
    requires due != [] && others != [] && TickAdvances(lib, db, due, now, others)
    ensures var before := Run(lib, db, others[0]);
      var t := SpawnDue(lib, before, due[0], now);
      && Advances(lib, before, due[0], now)
      && (!Breaks(t) ==> TickAdvances(lib, SpawnOutcome(before, t), due[1..], now, others[1..]))
  {
    hide SpawnDue, SpawnOutcome, Breaks, Run, Advances;
  }

  lemma {:induction false} TickAdvancesLater(lib: Lib, db: Db, xs: seq<Id>, ys: seq<Id>, now: Time,
                                             others: seq<seq<Op>>)
    requires |xs| <= |others| && TickAdvances(lib, db, xs + ys, now, others) && !Tick(lib, db, xs, now, others).raised
    ensures TickAdvances(lib, Tick(lib, db, xs, now, others).db, ys, now, others[|xs|..])
    decreases |xs|
  {
    hide SpawnDue, SpawnOutcome, SpawnedBy, Breaks, Run, Advances;
    if xs == [] {
      assert xs + ys == ys && others[0..] == others;
    } else {
      assert (xs + ys)[0] == xs[0] && (xs + ys)[1..] == xs[1..] + ys && others[1..][|xs| - 1..] == others[|xs|..];
      var before := Run(lib, db, others[0]);
      TickOfCons(lib, db, xs, now, others);
      TickAdvancesOfCons(lib, db, xs + ys, now, others);
      hide Tick, TickAdvances;
      TickAdvancesLater(lib, SpawnOutcome(before, SpawnDue(lib, before, xs[0], now)), xs[1..], ys, now, others[1..]);
    }
  }

  /** The tables that the (k + 1)-st transaction meets. */
  function Before(lib: Lib, db: Db, due: seq<Id>, now: Time, others: seq<seq<Op>>, k: nat): Db
    requires k < |due| == |others|
  {
    Run(lib, Tick(lib, db, due[..k], now, others).db, others[k])
  }

  /** The (k + 1)-st transaction, seen from the first k. */
  lemma TickSnoc(lib: Lib, db: Db, due: seq<Id>, now: Time, others: seq<seq<Op>>, k: nat)
    requires k < |due| == |others|
    ensures var sofar, before := Tick(lib, db, due[..k], now, others), Before(lib, db, due, now, others, k);
      var t := SpawnDue(lib, before, due[k], now);
      Tick(lib, db, due[..k + 1], now, others)
      == if sofar.raised then sofar
         else TickResult(SpawnOutcome(before, t), sofar.spawned + SpawnedBy(due[k], t), Breaks(t))
  {
    var sofar, before := Tick(lib, db, due[..k], now, others), Before(lib, db, due, now, others, k);
    var t := SpawnDue(lib, before, due[k], now);
    hide SpawnDue, Run, SpawnOutcome, SpawnedBy, Breaks;
    assert due[..k + 1] == due[..k] + [due[k]] && [due[k]][1..] == [] && others[k..][0] == others[k];
    hide Tick;
    TickStep(lib, db, due[..k], [due[k]], now, others);
    TickOfCons(lib, sofar.db, [due[k]], now, others[k..]);
    TickOfNone(lib, SpawnOutcome(before, t), now, others[k..][1..]);
    assert SpawnedBy(due[k], t) + [] == SpawnedBy(due[k], t);
    assert sofar.spawned + [] == sofar.spawned;
  }

  lemma TransactionAdvances(lib: Lib, db: Db, due: seq<Id>, now: Time, others: seq<seq<Op>>, k: nat)
    requires k < |due| == |others| && TickAdvances(lib, db, due, now, others)
    requires !Tick(lib, db, due[..k], now, others).raised
    ensures Advances(lib, Before(lib, db, due, now, others, k), due[k], now)
  {
    hide SpawnDue, Run, Advances, Breaks, Tick;
    assert due == due[..k] + due[k..] && due[k..][0] == due[k] && others[k..][0] == others[k];
    TickAdvancesLater(lib, db, due[..k], due[k..], now, others);
    TickAdvancesOfCons(lib, Tick(lib, db, due[..k], now, others).db, due[k..], now, others[k..]);
  }

  /** A tick broken within its first transactions stays as it is. */
  lemma BrokenTickEnds(lib: Lib, db: Db, due: seq<Id>, now: Time, others: seq<seq<Op>>, k: nat)
    requires k <= |due| == |others| && Tick(lib, db, due[..k], now, others).raised
    ensures Tick(lib, db, due, now, others) == Tick(lib, db, due[..k], now, others)
  {
    hide Tick;
    assert due == due[..k] + due[k..];
    TickStep(lib, db, due[..k], due[k..], now, others);
  }

  /** `process_due_recurrences`: `due` is the snapshot's rows in the order the query returned them, `others[k]`
      what other sessions commit between the snapshot (or the previous transaction) and the k-th transaction. There is
      no count when the tick raises. */
  method ProcessDueRecurrences(lib: Lib, s: Session, now: Time, due: seq<Id>, others: seq<seq<Op>>)
    returns (count: Option<nat>)
    requires s.Idle() && Distinct(due) && (forall r :: r in due <==> r in DueIn(s.committed, now))
    requires |others| == |due| && TickAdvances(lib, s.committed, due, now, others)
    modifies s
    ensures var t := Tick(lib, old(s.committed), due, now, others);
      && s.Idle() && s.committed == t.db
      && count == (if t.raised then None else Some(|t.spawned|))
  {
    hide SpawnDue, Run, Tick, TickAdvances, Advances, Breaks;
    ghost var start := s.committed;
    TickOfNone(lib, start, now, others);
    var spawned: nat := 0;
    var i := 0;
    while i < |due|
      invariant i <= |due| && s.Idle()
      invariant var sofar := Tick(lib, start, due[..i], now, others);
        s.committed == sofar.db && !sofar.raised && spawned == |sofar.spawned|
    {
      TickSnoc(lib, start, due, now, others, i);
      TransactionAdvances(lib, start, due, now, others, i);
      OthersCommit(lib, s, others[i]);
      var issue, raised := SpawnTransaction(lib, s, due[i], now);
      if raised {
        BrokenTickEnds(lib, start, due, now, others, i + 1);
        return None;
      }
      if issue.Some? {
        spawned := spawned + 1;
      }
      i := i + 1;
    }
    assert due[..i] == due;
    count := Some(spawned);
  }

  lemma TickOfNone(lib: Lib, db: Db, now: Time, others: seq<seq<Op>>)
    ensures Tick(lib, db, [], now, others) == TickResult(db, [], false)
  {
  }

  /** A tick reaches the first n recurrences of its snapshot and survives them exactly when none of them, at its own
      transaction, is due in a team with a backlog state and has a row that does not fit. */
  lemma {:induction false} TickReachesExactly(lib: Lib, db: Db, due: seq<Id>, now: Time, others: seq<seq<Op>>, n: nat)
    requires n <= |due| == |others|
    ensures !Tick(lib, db, due[..n], now, others).raised
      <==> forall k :: 0 <= k < n ==> !RowFails(lib, Before(lib, db, due, now, others, k), due[k], now)
  {
    hide Tick, SpawnDue, RowFails, Breaks, Before;
    if n == 0 {
      TickOfNone(lib, db, now, others);
      assert due[..0] == [];
    } else {
      TickReachesExactly(lib, db, due, now, others, n - 1);
      TickSnoc(lib, db, due, now, others, n - 1);
      BreaksExactlyOnBadRows(lib, Before(lib, db, due, now, others, n - 1), due[n - 1], now);
    }
  }

  /** So no failure but a row that does not fit keeps a tick from its other recurrences. */
  lemma TickSurvivesExactly(lib: Lib, db: Db, due: seq<Id>, now: Time, others: seq<seq<Op>>)
    requires |due| == |others|
    ensures !Tick(lib, db, due, now, others).raised
      <==> forall k :: 0 <= k < |due| ==> !RowFails(lib, Before(lib, db, due, now, others, k), due[k], now)
  {
    hide Tick, RowFails, Before;
    assert due[..|due|] == due;
    TickReachesExactly(lib, db, due, now, others, |due|);
  }

  // ---------- conservation ----------

  /** The spawns the audit log records, oldest first. */
  function SpawnLog(audit: seq<AuditEntry>): seq<(Id, Id)> {
    if audit == [] then [] else
      (if audit[0].entity.SpawnEntity? && audit[0].recurrence.Some?
       then [(audit[0].recurrence.value, audit[0].entityId)] else [])
      + SpawnLog(audit[1..])
  }

  lemma {:induction false} SpawnLogConcat(a: seq<AuditEntry>, b: seq<AuditEntry>)
    ensures SpawnLog(a + b) == SpawnLog(a) + SpawnLog(b)
  {
    if a == [] {
      assert a + b == b;
    } else {
      assert (a + b)[0] == a[0] && (a + b)[1..] == a[1..] + b;
      SpawnLogConcat(a[1..], b);
    }
  }

  lemma {:induction false} QuietSpawnLog(a: seq<AuditEntry>)
    requires forall k :: 0 <= k < |a| ==> !a[k].entity.SpawnEntity?
    ensures SpawnLog(a) == []
  {
    if a != [] {
      QuietSpawnLog(a[1..]);
    }
  }

  ghost predicate NoSpawnsLogged(db: Db, next: Db) {
    db.audit <= next.audit && forall k :: |db.audit| <= k < |next.audit| ==> !next.audit[k].entity.SpawnEntity?
  }

  lemma RequestsLogNoSpawns(lib: Lib, db: Db, op: Op)
    requires FreshIds(db) && !op.Spawn?
    ensures NoSpawnsLogged(db, Step(lib, db, op))
  {
    hide RowOk, AdminTxn, Referenced, CreateIssueSpec, CreateProblem, CreateStateOf, UpdateIssueSpec, UpdateBody;
    hide UpdateProblem, TransitionProblem, RollUp;
    if op.Admin? {
      AdminStepShape(lib, db, op.request);
    } else if op.DeleteIssue? {
      if DeleteIssueSpec(db, op.id).Committed? {
      }
    } else if op.Convert? {
      if ConvertSpec(db, op.id).Committed? {
      }
    } else if op.UpdateIssue? {
      if UpdateIssueSpec(lib, db, op.id, op.patch, Some(op.user)).Committed? {
        var mid, _, _ := UpdateShape(lib, db, op.id, op.patch, op.user);
        RollUpOnlyMarks(mid, op.id, TargetKind(db, db.issues[op.id], op.patch));
      }
    } else {
      if CreateIssueSpec(lib, db, op.team, op.data, op.user).Committed? {
        var _, _ := CreateShape(lib, db, op.team, op.data, op.user);
      }
    }
  }

  /** The list holds requests only, no other scheduler's spawns. */
  predicate RequestsOnly(ops: seq<Op>) {
    forall k :: 0 <= k < |ops| ==> !ops[k].Spawn?
  }

  lemma SpawnLogUnchanged(db: Db, next: Db)
    requires NoSpawnsLogged(db, next)
    ensures SpawnLog(next.audit) == SpawnLog(db.audit)
  {
    var added := next.audit[|db.audit|..];
    assert next.audit == db.audit + added;
    SpawnLogConcat(db.audit, added);
    QuietSpawnLog(added);
  }

  lemma {:induction false} RunLogsNoSpawns(lib: Lib, db: Db, ops: seq<Op>)
    requires FreshIds(db) && RequestsOnly(ops)
    ensures FreshIds(Run(lib, db, ops)) && db.nextId <= Run(lib, db, ops).nextId
    ensures SpawnLog(Run(lib, db, ops).audit) == SpawnLog(db.audit)
    decreases |ops|
  {
    if ops != [] {
      hide Step, FreshIds, SpawnLog, NoSpawnsLogged;
      var next := Step(lib, db, ops[0]);
      RequestsLogNoSpawns(lib, db, ops[0]);
      StepIds(lib, db, ops[0]);
      SpawnLogUnchanged(db, next);
      assert RequestsOnly(ops[1..]);
      RunLogsNoSpawns(lib, next, ops[1..]);
    }
  }

  /** The issues of the pairs were handed out in order, from `from` on. */
  predicate FreshInOrder(pairs: seq<(Id, Id)>, from: Id) {
    forall k :: 0 <= k < |pairs| ==> from <= pairs[k].1 && (k > 0 ==> pairs[k - 1].1 < pairs[k].1)
  }

  lemma FreshCons(pair: (Id, Id), rest: seq<(Id, Id)>, from: Id)
    requires from <= pair.1 && FreshInOrder(rest, pair.1 + 1)
    ensures FreshInOrder([pair] + rest, from)
  {
    var all := [pair] + rest;
    forall k | 0 <= k < |all| ensures from <= all[k].1 && (k > 0 ==> all[k - 1].1 < all[k].1) {
      if k > 0 {
        assert all[k] == rest[k - 1];
        assert k > 1 ==> all[k - 1] == rest[k - 2];
      }
    }
  }

  /** The recurrences of the pairs are taken from the snapshot, each at most once. */
  predicate AtMostOnce(pairs: seq<(Id, Id)>, due: seq<Id>) {
    && (forall k :: 0 <= k < |pairs| ==> pairs[k].0 in due)
    && (forall j, k :: 0 <= j < k < |pairs| ==> pairs[j].0 != pairs[k].0)
  }

  lemma OnceCons(pair: (Id, Id), rest: seq<(Id, Id)>, due: seq<Id>)
    requires due != [] && Distinct(due) && pair.0 == due[0] && AtMostOnce(rest, due[1..])
    ensures AtMostOnce([pair] + rest, due)
  {
    var all := [pair] + rest;
    forall k | 0 <= k < |all| ensures all[k].0 in due && (k > 0 ==> all[k].0 != pair.0) {
      if k > 0 {
        assert all[k] == rest[k - 1] && rest[k - 1].0 in due[1..];
      }
    }
    forall j, k | 0 <= j < k < |all| ensures all[j].0 != all[k].0 {
      assert j > 0 ==> all[j] == rest[j - 1] && all[k] == rest[k - 1];
    }
  }

  /** Whatever other requests run in between, and whether or not the tick is broken, its spawns are exactly the spawn
      entries it adds to the log, in order; no recurrence spawns twice; and their issues are new and all different. */
  lemma {:induction false} TickConserves(lib: Lib, db: Db, due: seq<Id>, now: Time, others: seq<seq<Op>>)
    requires FreshIds(db) && Distinct(due) && forall k :: 0 <= k < |others| ==> RequestsOnly(others[k])
    ensures var t := Tick(lib, db, due, now, others);
      && SpawnLog(t.db.audit) == SpawnLog(db.audit) + t.spawned
      && AtMostOnce(t.spawned, due)
      && FreshInOrder(t.spawned, db.nextId)
    decreases |due|
  {
    hide SpawnDue, Breaks, FreshIds, Run, SpawnLog, AtMostOnce, FreshInOrder, RequestsOnly, Distinct;
    NothingSpawned(db, due);
    if due != [] {
      DistinctTail(due);
      var before := Run(lib, db, Head(others));
      NothingToRun();
      RunLogsNoSpawns(lib, db, Head(others));
      var t := SpawnDue(lib, before, due[0], now);
      if !Breaks(t) {
        var after := SpawnOutcome(before, t);
        SpawnKeepsIdsFresh(lib, before, due[0], now);
        TickConserves(lib, after, due[1..], now, Tail(others));
        HeadConserves(lib, db, before, due, now, Tick(lib, after, due[1..], now, Tail(others)));
      }
    }
  }

  /** One transaction in front of the rest of a tick. */
  lemma HeadConserves(lib: Lib, db: Db, before: Db, due: seq<Id>, now: Time, rest: TickResult)
    requires due != [] && Distinct(due) && db.nextId <= before.nextId && SpawnLog(before.audit) == SpawnLog(db.audit)
    requires var after := SpawnOutcome(before, SpawnDue(lib, before, due[0], now));
      && SpawnLog(rest.db.audit) == SpawnLog(after.audit) + rest.spawned
      && AtMostOnce(rest.spawned, due[1..]) && FreshInOrder(rest.spawned, after.nextId)
    ensures var all := SpawnedBy(due[0], SpawnDue(lib, before, due[0], now)) + rest.spawned;
      && SpawnLog(rest.db.audit) == SpawnLog(db.audit) + all
      && AtMostOnce(all, due) && FreshInOrder(all, db.nextId)
  {
    hide SpawnDue, SpawnLog, AtMostOnce, FreshInOrder, Distinct;
    var t := SpawnDue(lib, before, due[0], now);
    if t.Spawned? {
      SpawnLogsItself(lib, before, due[0], now);
      AppendTwice(SpawnLog(db.audit), [(due[0], t.issue)], rest.spawned);
      SpawnAdvancesCounter(lib, before, due[0], now);
      FreshCons((due[0], t.issue), rest.spawned, db.nextId);
      OnceCons((due[0], t.issue), rest.spawned, due);
    } else {
      assert [] + rest.spawned == rest.spawned;
      FreshLater(rest.spawned, before.nextId, db.nextId);
      OnceLater(rest.spawned, due);
    }
  }

  lemma NothingSpawned(db: Db, due: seq<Id>)
    ensures AtMostOnce([], due) && FreshInOrder([], db.nextId) && SpawnLog(db.audit) + [] == SpawnLog(db.audit)
  {
  }

  lemma NothingToRun()
    ensures RequestsOnly([])
  {
  }

  lemma DistinctTail(ids: seq<Id>)
    requires Distinct(ids) && ids != []
    ensures Distinct(ids[1..])
  {
  }

  lemma SpawnLogsItself(lib: Lib, db: Db, r: Id, now: Time)
    requires SpawnDue(lib, db, r, now).Spawned?
    ensures var t := SpawnDue(lib, db, r, now);
      t.issue == db.nextId && SpawnLog(t.db.audit) == SpawnLog(db.audit) + [(r, t.issue)]
  {
    hide SpawnDue;
    SpawnIsOneIssue(lib, db, r, now);
    var entry := SpawnEntry(db.recurrences[r], r, db.nextId);
    SpawnLogConcat(db.audit, [entry]);
    assert [entry][1..] == [];
  }

  lemma SpawnAdvancesCounter(lib: Lib, db: Db, r: Id, now: Time)
    requires SpawnDue(lib, db, r, now).Spawned?
    ensures SpawnDue(lib, db, r, now).db.nextId == db.nextId + 1
  {
    hide RowOk, NextDue, SpawnRow;
  }

  lemma FreshLater(pairs: seq<(Id, Id)>, later: Id, from: Id)
    requires FreshInOrder(pairs, later) && from <= later
    ensures FreshInOrder(pairs, from)
  {
  }

  lemma OnceLater(pairs: seq<(Id, Id)>, due: seq<Id>)
    requires due != [] && AtMostOnce(pairs, due[1..])
    ensures AtMostOnce(pairs, due)
  {
  }

  // ---------- issues and recurrences are conserved with the log ----------

  /** The team of the state an issue is in. */
  function StateTeam(db: Db, i: Issue): Option<Id> {
    match i.Link(StateId)
    case Some(s) => if s in db.states then Some(db.states[s].team) else None
    case None => None
  }

  /** One transaction: it spawns exactly when one issue is added and the recurrence's due time moves past now; otherwise
      nothing changes at all. */
  lemma OneTransactionConserves(lib: Lib, db: Db, r: Id, now: Time)
    requires FreshIds(db)
    ensures var t := SpawnDue(lib, db, r, now);
      var next := SpawnOutcome(db, t);
      && (!t.Spawned? ==> next == db)
      && (t.Spawned? ==>
            && IsDue(db, r, now) && t.issue !in db.issues
            && next.issues.Keys == db.issues.Keys + {t.issue}
            && (forall i :: i in db.issues ==> next.issues[i] == db.issues[i])
            && KindOf(next, next.issues[t.issue]) == Some(Backlog)
            && next.issues[t.issue].team == next.recurrences[r].team == db.recurrences[r].team
            && StateTeam(next, next.issues[t.issue]) == Some(db.recurrences[r].team)
            && next.states == db.states
            && next.recurrences.Keys == db.recurrences.Keys
            && next.recurrences[r].nextDue > now >= db.recurrences[r].nextDue
            && (forall other :: other in db.recurrences && other != r ==>
                 next.recurrences[other] == db.recurrences[other]))
  {
    if SpawnDue(lib, db, r, now).Spawned? {
      SpawnIsOneIssue(lib, db, r, now);
    }
    hide SpawnDue, KindOf;
  }

  lemma SpawnKeepsIdsFresh(lib: Lib, db: Db, r: Id, now: Time)
    requires FreshIds(db)
    ensures FreshIds(SpawnOutcome(db, SpawnDue(lib, db, r, now)))
  {
    hide SpawnDue, FreshIds;
    SpawnIds(lib, db, r, now);
  }

  lemma {:induction false} TickKeepsIdsFresh(lib: Lib, db: Db, due: seq<Id>, now: Time, others: seq<seq<Op>>)
    requires FreshIds(db) && forall k :: 0 <= k < |others| ==> RequestsOnly(others[k])
    ensures FreshIds(Tick(lib, db, due, now, others).db)
    decreases |due|
  {
    if due != [] {
      hide SpawnDue, SpawnOutcome, Breaks, FreshIds, Run, RequestsOnly;
      NothingToRun();
      var before := Run(lib, db, Head(others));
      RunLogsNoSpawns(lib, db, Head(others));
      SpawnKeepsIdsFresh(lib, before, due[0], now);
      TickKeepsIdsFresh(lib, SpawnOutcome(before, SpawnDue(lib, before, due[0], now)), due[1..], now, Tail(others));
    }
  }

  /** Every transaction of a tick that is not broken before it, whatever requests ran since the one before: the tick's
      spawns grow by one exactly when the stored issues do and the recurrence's due time moves; otherwise the
      transaction changes nothing. */
  lemma EachTransactionOfATick(lib: Lib, db: Db, due: seq<Id>, now: Time, others: seq<seq<Op>>, k: nat)
    requires FreshIds(db) && k < |due| == |others| && forall j :: 0 <= j < |others| ==> RequestsOnly(others[j])
    requires !Tick(lib, db, due[..k], now, others).raised
    ensures var sofar, upto := Tick(lib, db, due[..k], now, others), Tick(lib, db, due[..k + 1], now, others);
      var before := Before(lib, db, due, now, others, k);
      || (upto.db == before && upto.spawned == sofar.spawned)
      || exists issue :: upto.spawned == sofar.spawned + [(due[k], issue)] && !upto.raised
           && issue !in before.issues && upto.db.issues.Keys == before.issues.Keys + {issue}
           && due[k] in before.recurrences && upto.db.recurrences.Keys == before.recurrences.Keys
           && upto.db.recurrences[due[k]].nextDue > now >= before.recurrences[due[k]].nextDue
  {
    var sofar, before := Tick(lib, db, due[..k], now, others), Before(lib, db, due, now, others, k);
    hide SpawnDue, Run, FreshIds, RequestsOnly, KindOf, StateTeam, IsDue;
    TickKeepsIdsFresh(lib, db, due[..k], now, others);
    RunLogsNoSpawns(lib, sofar.db, others[k]);
    TickSnoc(lib, db, due, now, others, k);
    OneTransactionConserves(lib, before, due[k], now);
    hide Tick;
    assert sofar.spawned + [] == sofar.spawned;
  }
}
