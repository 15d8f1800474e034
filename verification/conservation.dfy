/** What a tick does to the issues and recurrences when other requests run between its transactions. */
module Conservation {
  import opened Values
  import opened Transitions
  import opened Store
  import opened IssueSpec
  import opened AdminSpec
  import opened SpawnSpec
  import opened Schedules
  import opened Runs
  import opened Shapes
  import opened Scheduler
  import opened SpawnRate

  function IssuesOf(spawned: seq<(Id, Id)>): set<Id> {
    set k | 0 <= k < |spawned| :: spawned[k].1
  }

  predicate SpawnsFrom(spawned: seq<(Id, Id)>, r: Id) {
    exists k :: 0 <= k < |spawned| && spawned[k].0 == r
  }

  lemma ConsOf(r: Id, issue: Id, rest: seq<(Id, Id)>)
    ensures var all := [(r, issue)] + rest;
      && IssuesOf(all) == {issue} + IssuesOf(rest)
      && forall other :: SpawnsFrom(all, other) <==> other == r || SpawnsFrom(rest, other)
  {
    var all := [(r, issue)] + rest;
    assert all[0] == (r, issue) && forall k :: 0 < k < |all| ==> all[k] == rest[k - 1];
    assert forall k :: 0 <= k < |rest| ==> all[k + 1] == rest[k];
  }

  // ---------- issues, with administrative requests between the transactions ----------

  /** Pausing, editing and deleting recurrences, and every other request on rows that are not issues. */
  predicate Administrative(ops: seq<Op>) {
    forall k :: 0 <= k < |ops| ==> ops[k].Admin?
  }

  /** The issues are the same, states stay, and recurrences keep their team: an id that was handed out does not come
      back. */
  ghost predicate IssuesKept(db: Db, next: Db) {
    && next.issues == db.issues && db.nextId <= next.nextId
    && (forall s :: s in db.states ==> s in next.states && next.states[s] == db.states[s])
    && (forall r :: r in next.recurrences && r < db.nextId ==>
          r in db.recurrences && next.recurrences[r].team == db.recurrences[r].team)
  }

  lemma RecurrenceRequestsKeepTeams(lib: Lib, db: Db, op: AdminOp)
    requires FreshIds(db) && (op.CreateRecurrence? || op.UpdateRecurrence? || op.DeleteRecurrence?)
    ensures var next := Outcome(db, AdminTxn(lib, db, op));
      forall r :: r in next.recurrences && r < db.nextId ==>
        r in db.recurrences && next.recurrences[r].team == db.recurrences[r].team
  {
    hide NextDue, ValidSchedule;
    if AdminTxn(lib, db, op).Committed? {
    }
  }

  lemma OtherRequestsKeepRecurrences(lib: Lib, db: Db, op: AdminOp)
    requires !op.CreateRecurrence? && !op.UpdateRecurrence? && !op.DeleteRecurrence?
    ensures Outcome(db, AdminTxn(lib, db, op)).recurrences == db.recurrences
  {
    if op.CreateRule? || op.UpdateRule? || op.DeleteRule? {
      hide AdminTxn;
      RuleRequestsLeave(db, op, lib);
    } else if op.CreateTeam? || op.AddUser? || op.ChangeRole? {
      hide AdminTxn;
      TeamRequestsLeave(db, op, lib);
    } else {
      if AdminTxn(lib, db, op).Committed? {
      }
    }
  }

  lemma AdminKeepsIssues(lib: Lib, db: Db, op: Op)
    requires FreshIds(db) && op.Admin?
    ensures FreshIds(Step(lib, db, op)) && IssuesKept(db, Step(lib, db, op))
  {
    hide AdminTxn, FreshIds;
    AdminStepShape(lib, db, op.request);
    if op.request.CreateRecurrence? || op.request.UpdateRecurrence? || op.request.DeleteRecurrence? {
      RecurrenceRequestsKeepTeams(lib, db, op.request);
    } else {
      OtherRequestsKeepRecurrences(lib, db, op.request);
    }
    hide ProjectInUse;
  }

  lemma {:induction false} AdminRunKeepsIssues(lib: Lib, db: Db, ops: seq<Op>)
    requires FreshIds(db) && Administrative(ops)
    ensures FreshIds(Run(lib, db, ops)) && IssuesKept(db, Run(lib, db, ops))
    decreases |ops|
  {
    if ops != [] {
      hide Step, FreshIds, IssuesKept;
      AdminKeepsIssues(lib, db, ops[0]);
      AdminRunKeepsIssues(lib, Step(lib, db, ops[0]), ops[1..]);
      IssuesKeptTwice(db, Step(lib, db, ops[0]), Run(lib, db, ops));
    } else {
      IssuesKeptNone(db);
    }
  }

  lemma IssuesKeptTwice(db: Db, mid: Db, next: Db)
    requires IssuesKept(db, mid) && IssuesKept(mid, next)
    ensures IssuesKept(db, next)
  {
  }

  lemma IssuesKeptNone(db: Db)
    ensures IssuesKept(db, db)
  {
  }

  /** The tick's issues: the old ones as they were, and one for each spawn, in a backlog state of its own team, which is
      the team of its recurrence if that was there when the tick began. */
  ghost predicate TickIssues(db: Db, t: TickResult) {
    && (forall s :: s in db.states ==> s in t.db.states && t.db.states[s] == db.states[s])
    && t.db.issues.Keys == db.issues.Keys + IssuesOf(t.spawned) && IssuesOf(t.spawned) !! db.issues.Keys
    && (forall i :: i in db.issues ==> t.db.issues[i] == db.issues[i])
    && (forall k :: 0 <= k < |t.spawned| ==> SpawnedWell(db, t, t.spawned[k]))
  }

  ghost predicate SpawnedWell(db: Db, t: TickResult, pair: (Id, Id)) {
    && pair.1 in t.db.issues
    && var i := t.db.issues[pair.1];
       && KindOf(t.db, i) == Some(Backlog) && StateTeam(t.db, i) == Some(i.team)
       && (pair.0 < db.nextId ==> pair.0 in db.recurrences && i.team == db.recurrences[pair.0].team)
  }

  /** Requests in front of a tick. */
  lemma TickIssuesAfterRequests(db: Db, before: Db, t: TickResult)
    requires IssuesKept(db, before) && TickIssues(before, t)
    ensures TickIssues(db, t)
  {
    hide IssuesOf;
    forall k | 0 <= k < |t.spawned| ensures SpawnedWell(db, t, t.spawned[k]) {
      assert SpawnedWell(before, t, t.spawned[k]);
    }
  }

  /** A spawning transaction in front of a tick. */
  lemma TickIssuesAfterSpawn(db: Db, after: Db, rest: TickResult, r: Id, issue: Id)
    requires r in db.recurrences && issue !in db.issues && after.issues.Keys == db.issues.Keys + {issue}
    requires forall i :: i in db.issues ==> after.issues[i] == db.issues[i]
    requires KindOf(after, after.issues[issue]) == Some(Backlog) && after.states == db.states
      && db.nextId <= after.nextId
    requires after.issues[issue].team == db.recurrences[r].team
    requires StateTeam(after, after.issues[issue]) == Some(db.recurrences[r].team)
    requires after.recurrences.Keys == db.recurrences.Keys
    requires forall other :: other in db.recurrences ==> after.recurrences[other].team == db.recurrences[other].team
    requires TickIssues(after, rest)
    ensures TickIssues(db, TickResult(rest.db, [(r, issue)] + rest.spawned, rest.raised))
  {
    var t := TickResult(rest.db, [(r, issue)] + rest.spawned, rest.raised);
    ConsOf(r, issue, rest.spawned);
    forall k | 0 <= k < |t.spawned| ensures SpawnedWell(db, t, t.spawned[k]) {
      if k == 0 {
        assert rest.db.issues[issue] == after.issues[issue];
      } else {
        assert t.spawned[k] == rest.spawned[k - 1];
        assert SpawnedWell(after, rest, rest.spawned[k - 1]);
      }
    }
    hide IssuesOf;
  }

  lemma NoTickIssues(db: Db, raised: bool)
    ensures TickIssues(db, TickResult(db, [], raised))
  {
    assert IssuesOf([]) == {};
  }

  /** One transaction in front of the rest of a tick. */
  lemma TickIssuesAfterTransaction(lib: Lib, db: Db, r: Id, now: Time, rest: TickResult)
    requires FreshIds(db) && TickIssues(SpawnOutcome(db, SpawnDue(lib, db, r, now)), rest)
    ensures TickIssues(db, TickResult(rest.db, SpawnedBy(r, SpawnDue(lib, db, r, now)) + rest.spawned, rest.raised))
  {
    hide SpawnDue, FreshIds, TickIssues, KindOf, StateTeam;
    OneTransactionConserves(lib, db, r, now);
    var t := SpawnDue(lib, db, r, now);
    if t.Spawned? {
      SpawnAdvancesCounter(lib, db, r, now);
      TickIssuesAfterSpawn(db, t.db, rest, r, t.issue);
    } else {
      assert [] + rest.spawned == rest.spawned;
    }
  }

  /** Whatever administrative requests run between the transactions, and whether or not the tick is broken, its new
      issues are exactly those of its spawns, each in a backlog state of its recurrence's team, and no other issue
      changes. */
  lemma {:induction false} TickConservesIssues(lib: Lib, db: Db, due: seq<Id>, now: Time, others: seq<seq<Op>>)
    requires FreshIds(db) && forall k :: 0 <= k < |others| ==> Administrative(others[k])
    ensures TickIssues(db, Tick(lib, db, due, now, others))
    decreases |due|
  {
    hide SpawnDue, SpawnOutcome, SpawnedBy, Breaks, FreshIds, TickIssues, IssuesKept, Run, Administrative;
    if due == [] {
      NoTickIssues(db, false);
    } else {
      assert Administrative(Head(others)) by { NothingIsAdministrative(); }
      var before := Run(lib, db, Head(others));
      AdminRunKeepsIssues(lib, db, Head(others));
      var t := SpawnDue(lib, before, due[0], now);
      if Breaks(t) {
        NoTickIssues(before, true);
      } else {
        var after := SpawnOutcome(before, t);
        SpawnKeepsIdsFresh(lib, before, due[0], now);
        TickConservesIssues(lib, after, due[1..], now, Tail(others));
        TickIssuesAfterTransaction(lib, before, due[0], now, Tick(lib, after, due[1..], now, Tail(others)));
      }
      TickIssuesAfterRequests(db, before, Tick(lib, db, due, now, others));
    }
  }

  lemma NothingIsAdministrative()
    ensures Administrative([])
  {
  }

  // ---------- recurrences, with any requests between the transactions ----------

  lemma {:induction false} RunLeavesRecurrence(lib: Lib, db: Db, ops: seq<Op>, r: Id)
    requires FreshIds(db) && r in db.recurrences && RequestsOnly(ops) && NeverEdited(ops, r)
    ensures FreshIds(Run(lib, db, ops))
    ensures r in Run(lib, db, ops).recurrences && Run(lib, db, ops).recurrences[r] == db.recurrences[r]
    decreases |ops|
  {
    if ops != [] {
      hide Step, FreshIds;
      assert LeavesAlone(ops[0], r) && !ops[0].Spawn?;
      OthersLeaveRecurrence(lib, db, ops[0], r);
      StepIds(lib, db, ops[0]);
      TailNeverEdited(ops, r);
      assert RequestsOnly(ops[1..]);
      RunLeavesRecurrence(lib, Step(lib, db, ops[0]), ops[1..], r);
    }
  }

  /** A recurrence across a tick: it spawned and its due time moved from at most now to after now, or it is the same. */
  ghost predicate MovedIffSpawned(db: Db, t: TickResult, r: Id, now: Time)
    requires r in db.recurrences
  {
    r in t.db.recurrences &&
    if SpawnsFrom(t.spawned, r) then IsDue(db, r, now) && t.db.recurrences[r].nextDue > now
    else t.db.recurrences[r] == db.recurrences[r]
  }

  lemma SpawnsOnlyFromDue(lib: Lib, db: Db, due: seq<Id>, now: Time, others: seq<seq<Op>>, r: Id)
    requires FreshIds(db) && Distinct(due) && r !in due && forall k :: 0 <= k < |others| ==> RequestsOnly(others[k])
    ensures !SpawnsFrom(Tick(lib, db, due, now, others).spawned, r)
  {
    hide Tick, SpawnLog, FreshInOrder, Distinct, FreshIds, RequestsOnly;
    TickConserves(lib, db, due, now, others);
  }

  /** One transaction, of r or of another recurrence, in front of the rest of a tick. */
  lemma MovedAfterTransaction(lib: Lib, db: Db, d: Id, now: Time, rest: TickResult, r: Id)
    requires FreshIds(db) && r in db.recurrences && (d == r ==> !SpawnsFrom(rest.spawned, r))
    requires var after := SpawnOutcome(db, SpawnDue(lib, db, d, now));
      r in after.recurrences && MovedIffSpawned(after, rest, r, now)
    ensures MovedIffSpawned(db, TickResult(rest.db, SpawnedBy(d, SpawnDue(lib, db, d, now)) + rest.spawned,
      rest.raised), r, now)
  {
    hide SpawnDue, FreshIds, SpawnsFrom, KindOf, StateTeam;
    OneTransactionConserves(lib, db, d, now);
    var t := SpawnDue(lib, db, d, now);
    if t.Spawned? {
      ConsOf(d, t.issue, rest.spawned);
    } else {
      assert [] + rest.spawned == rest.spawned;
    }
  }

  lemma SpawnKeepsRecurrences(lib: Lib, db: Db, d: Id, now: Time)
    requires FreshIds(db)
    ensures SpawnOutcome(db, SpawnDue(lib, db, d, now)).recurrences.Keys == db.recurrences.Keys
  {
    hide SpawnDue, FreshIds, KindOf, StateTeam;
    OneTransactionConserves(lib, db, d, now);
  }

  /** Whatever requests run between the transactions: a recurrence that none of them edits or deletes has its due time
      moved exactly when it spawned; it was due, and is due only after now; otherwise its row is the same. */
  lemma {:induction false} UneditedMovesExactlyWhenItSpawns(lib: Lib, db: Db, due: seq<Id>, now: Time,
                                                            others: seq<seq<Op>>, r: Id)
    requires FreshIds(db) && Distinct(due) && r in db.recurrences
    requires forall k :: 0 <= k < |others| ==> RequestsOnly(others[k]) && NeverEdited(others[k], r)
    ensures MovedIffSpawned(db, Tick(lib, db, due, now, others), r, now)
    decreases |due|
  {
    hide SpawnDue, SpawnOutcome, SpawnedBy, Breaks, FreshIds, MovedIffSpawned, Run, RequestsOnly, NeverEdited, Distinct;
    if due == [] {
      NothingMoved(db, false, r, now);
    } else {
      NothingEdits(r);
      assert RequestsOnly(Head(others)) && NeverEdited(Head(others), r);
      var before := Run(lib, db, Head(others));
      RunLeavesRecurrence(lib, db, Head(others), r);
      var t := SpawnDue(lib, before, due[0], now);
      if Breaks(t) {
        NothingMoved(before, true, r, now);
      } else {
        var after := SpawnOutcome(before, t);
        SpawnKeepsIdsFresh(lib, before, due[0], now);
        SpawnKeepsRecurrences(lib, before, due[0], now);
        DistinctTail(due);
        UneditedMovesExactlyWhenItSpawns(lib, after, due[1..], now, Tail(others), r);
        if due[0] == r {
          HeadIsElsewhere(due);
          SpawnsOnlyFromDue(lib, after, due[1..], now, Tail(others), r);
        }
        MovedAfterTransaction(lib, before, due[0], now, Tick(lib, after, due[1..], now, Tail(others)), r);
      }
      MovedFromSameRow(db, before, Tick(lib, db, due, now, others), r, now);
    }
  }

  lemma NothingMoved(db: Db, raised: bool, r: Id, now: Time)
    requires r in db.recurrences
    ensures MovedIffSpawned(db, TickResult(db, [], raised), r, now)
  {
  }

  lemma NothingEdits(r: Id)
    ensures RequestsOnly([]) && NeverEdited([], r)
  {
  }

  lemma HeadIsElsewhere(ids: seq<Id>)
    requires ids != [] && Distinct(ids)
    ensures ids[0] !in ids[1..]
  {
  }

  lemma MovedFromSameRow(db: Db, before: Db, t: TickResult, r: Id, now: Time)
    requires r in db.recurrences && r in before.recurrences && before.recurrences[r] == db.recurrences[r]
    requires MovedIffSpawned(before, t, r, now)
    ensures MovedIffSpawned(db, t, r, now)
  {
  }

  // ---------- the count ----------

  /** The recurrences whose due time differs. */
  function Moved(db: Db, next: Db): set<Id> {
    set r | r in db.recurrences && r in next.recurrences && next.recurrences[r].nextDue != db.recurrences[r].nextDue
  }

  function Spawners(spawned: seq<(Id, Id)>): set<Id> {
    set k | 0 <= k < |spawned| :: spawned[k].0
  }

  /** None of these requests edits or deletes a recurrence. */
  predicate NeverEdits(ops: seq<Op>) {
    forall k :: 0 <= k < |ops| ==>
      !(ops[k].Admin? && (ops[k].request.UpdateRecurrence? || ops[k].request.DeleteRecurrence?))
  }

  /** The number of a tick's spawns, which is the count it returns unless it is broken, is the number of new issues when
      only administrative requests run in between. */
  lemma CountEqualsNewIssues(lib: Lib, db: Db, due: seq<Id>, now: Time, others: seq<seq<Op>>)
    requires FreshIds(db) && Distinct(due) && forall k :: 0 <= k < |others| ==> Administrative(others[k])
    ensures var t := Tick(lib, db, due, now, others);
      |t.db.issues.Keys| == |db.issues.Keys| + |t.spawned|
  {
    var t := Tick(lib, db, due, now, others);
    assert forall k :: 0 <= k < |others| ==> RequestsOnly(others[k]);
    hide Tick, FreshIds, Administrative, RequestsOnly, Distinct, FreshInOrder, SpawnLog, AtMostOnce;
    TickConserves(lib, db, due, now, others);
    TickConservesIssues(lib, db, due, now, others);
    CountOfIssues(t.spawned, db.nextId);
    hide IssuesOf;
  }

  /** It is also the number of recurrences whose due time moved, all of them due, when no request in between edits or
      deletes one. */
  lemma CountEqualsMoved(lib: Lib, db: Db, due: seq<Id>, now: Time, others: seq<seq<Op>>)
    requires FreshIds(db) && Distinct(due) && forall r :: r in due ==> r in db.recurrences
    requires forall k :: 0 <= k < |others| ==> RequestsOnly(others[k]) && NeverEdits(others[k])
    ensures var t := Tick(lib, db, due, now, others);
      |Moved(db, t.db)| == |t.spawned| && Moved(db, t.db) <= DueIn(db, now)
  {
    var t := Tick(lib, db, due, now, others);
    forall r | r in db.recurrences ensures MovedIffSpawned(db, t, r, now) {
      assert forall k :: 0 <= k < |others| ==> NeverEdited(others[k], r);
      hide Tick, FreshIds, Distinct, MovedIffSpawned;
      UneditedMovesExactlyWhenItSpawns(lib, db, due, now, others, r);
    }
    hide Tick, FreshIds, RequestsOnly, NeverEdits, Distinct, FreshInOrder, SpawnLog;
    TickConserves(lib, db, due, now, others);
    MovedAreSpawned(db, t, due, now);
    CountOfRecurrences(t.spawned, due);
  }

  lemma MovedAreSpawned(db: Db, t: TickResult, due: seq<Id>, now: Time)
    requires AtMostOnce(t.spawned, due) && forall r :: r in due ==> r in db.recurrences
    requires forall r :: r in db.recurrences ==> MovedIffSpawned(db, t, r, now)
    ensures Moved(db, t.db) == Spawners(t.spawned) && Moved(db, t.db) <= DueIn(db, now)
  {
    forall r ensures r in Moved(db, t.db) <==> SpawnsFrom(t.spawned, r) {
      if r in db.recurrences {
        assert MovedIffSpawned(db, t, r, now);
      }
    }
    forall r ensures r in Spawners(t.spawned) <==> SpawnsFrom(t.spawned, r) {
    }
  }

  lemma {:induction false} LaterAreLarger(pairs: seq<(Id, Id)>, from: Id, k: nat)
    requires FreshInOrder(pairs, from) && 0 < k < |pairs|
    ensures pairs[0].1 < pairs[k].1
  {
    if k > 1 {
      LaterAreLarger(pairs, from, k - 1);
    }
  }

  lemma {:induction false} CountOfIssues(pairs: seq<(Id, Id)>, from: Id)
    requires FreshInOrder(pairs, from)
    ensures |IssuesOf(pairs)| == |pairs|
  {
    if pairs != [] {
      var rest := pairs[1..];
      forall k | 0 <= k < |rest| ensures pairs[0].1 < rest[k].1 && (k > 0 ==> rest[k - 1].1 < rest[k].1) {
        LaterAreLarger(pairs, from, k + 1);
        assert rest[k] == pairs[k + 1] && (k > 0 ==> rest[k - 1] == pairs[k]);
      }
      CountOfIssues(rest, pairs[0].1 + 1);
      ConsOf(pairs[0].0, pairs[0].1, rest);
      assert pairs == [(pairs[0].0, pairs[0].1)] + rest;
      assert pairs[0].1 !in IssuesOf(rest);
    }
  }

  lemma {:induction false} CountOfRecurrences(pairs: seq<(Id, Id)>, due: seq<Id>)
    requires AtMostOnce(pairs, due)
    ensures |Spawners(pairs)| == |pairs|
  {
    if pairs != [] {
      var rest := pairs[1..];
      assert forall k :: 0 <= k < |rest| ==> rest[k] == pairs[k + 1];
      CountOfRecurrences(rest, due);
      assert Spawners(pairs) == {pairs[0].0} + Spawners(rest);
      assert pairs[0].0 !in Spawners(rest);
    }
  }
}
