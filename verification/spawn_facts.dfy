/** The issue a recurrence spawns, cell by cell. */
module SpawnFacts {
  import opened Values
  import opened Transitions
  import opened Store
  import opened ConditionFacts
  import opened IssueSpec
  import opened SpawnSpec
  import opened Schedules
  import opened RequestFacts

  // ---------- the title ----------

  ghost predicate HasDate(s: string) {
    IsPart("{date}", s)
  }

  lemma NoDateInTheRest(s: string)
    requires s != "" && !HasDate(s)
    ensures !HasDate(s[1..]) && !("{date}" <= s)
  {
    if i: nat :| PartAt("{date}", s[1..], i) {
      assert s[i + 1..i + 1 + |"{date}"|] == s[1..][i..i + |"{date}"|];
      assert PartAt("{date}", s, i + 1);
    }
    assert PartAt("{date}", s, 0) <==> "{date}" <= s;
  }

  /** A title without the placeholder is left as it is. */
  lemma {:induction false} OtherTitlesStay(t: string, text: string)
    requires !HasDate(t)
    ensures ReplaceDate(t, text) == t
  {
    if |t| >= |"{date}"| {
      NoDateInTheRest(t);
      OtherTitlesStay(t[1..], text);
    }
  }

  /** The first placeholder gives way to the date, the text before it stays, and the rest is treated alike. */
  lemma {:induction false} FirstDateIsReplaced(a: string, b: string, text: string)
    requires !HasDate(a)
    ensures ReplaceDate(a + "{date}" + b, text) == a + text + ReplaceDate(b, text)
  {
    var t := a + "{date}" + b;
    if a == "" {
      assert t == "{date}" + b && t[|"{date}"|..] == b;
    } else {
      NoDateInTheRest(a);
      FirstDateIsReplaced(a[1..], b, text);
      assert t[1..] == a[1..] + "{date}" + b;
      assert !("{date}" <= t) by {
        if |a| < |"{date}"| {
          assert t[|a|] == '{' && "{date}"[|a|] != '{';
        } else {
          assert t[..|"{date}"|] == a[..|"{date}"|];
        }
      }
    }
  }

  // ---------- the row ----------

  /** What the recurrence gives for a column: nothing where its defaults have no value or null under the name. */
  ghost predicate Gives(lib: Lib, rec: Recurrence, key: string, c: Column, v: Value, absent: Value) {
    v == if key in rec.defaults && rec.defaults[key] != Null then lib.bind(c, rec.defaults[key]) else absent
  }

  /** The row of a spawned issue. */
  ghost predicate IsSpawnOf(lib: Lib, db: Db, rec: Recurrence, row: Issue) {
    && row.team == rec.team && row.createdBy == rec.createdBy && !row.archived
    && row.Get(Title) == Str(ReplaceDate(rec.titleTemplate, lib.dateText(rec.nextDue)))
    && row.Get(Description) == rec.description && row.Get(Kind) == Str("task")
    && (exists s: Id :: row.Get(StateId) == Ref(s) && FirstOfKind(db, rec.team, Backlog, s))
    && Gives(lib, rec, "priority", Priority, row.Get(Priority), Int(0))
    && Gives(lib, rec, "assignee_id", AssigneeId, row.Get(AssigneeId), Null)
    && Gives(lib, rec, "project_id", ProjectId, row.Get(ProjectId), Null)
    && Gives(lib, rec, "custom_fields", CustomFields, row.Get(CustomFields), Null)
    && row.Get(Estimate) == Null && row.Get(ParentId) == Null && row.Get(DueDate) == Null
    && row.Get(Position) == Null && row.Get(TriageContext) == Null
  }

  lemma SpawnRowIsOf(lib: Lib, db: Db, rec: Recurrence, state: Id)
    requires FirstState(db, rec.team, Backlog) == Some(state)
    ensures IsSpawnOf(lib, db, rec, SpawnRow(lib, rec, state))
  {
    forall s: Id | s in db.states && db.states[s].team == rec.team && db.states[s].kind == Backlog
      ensures s in StatesOfKind(db, rec.team, Backlog)
    {
    }
    assert FirstOfKind(db, rec.team, Backlog, state);
    SpawnedTexts(lib, rec, state);
    SpawnedDefaults(lib, rec, state);
    hide SpawnRow, FirstOfKind, FirstState, Gives, Issue.Get;
  }

  lemma SpawnedTexts(lib: Lib, rec: Recurrence, state: Id)
    ensures var row := SpawnRow(lib, rec, state);
      && row.team == rec.team && row.createdBy == rec.createdBy && !row.archived
      && row.Get(Title) == Str(ReplaceDate(rec.titleTemplate, lib.dateText(rec.nextDue)))
      && row.Get(Description) == rec.description && row.Get(Kind) == Str("task") && row.Get(StateId) == Ref(state)
      && row.Get(Estimate) == Null && row.Get(ParentId) == Null && row.Get(DueDate) == Null
      && row.Get(Position) == Null && row.Get(TriageContext) == Null
  {
    hide ReplaceDate, Default, PriorityDefault;
  }

  lemma SpawnedDefaults(lib: Lib, rec: Recurrence, state: Id)
    ensures var row := SpawnRow(lib, rec, state);
      && Gives(lib, rec, "priority", Priority, row.Get(Priority), Int(0))
      && Gives(lib, rec, "assignee_id", AssigneeId, row.Get(AssigneeId), Null)
      && Gives(lib, rec, "project_id", ProjectId, row.Get(ProjectId), Null)
      && Gives(lib, rec, "custom_fields", CustomFields, row.Get(CustomFields), Null)
  {
    hide ReplaceDate;
  }

  /** A spawn stores this row, and of the recurrence only when it spawned, what, and when it is due next, one step from
      now. */
  lemma SpawnStoresTheRow(lib: Lib, db: Db, r: Id, now: Time)
    requires SpawnDue(lib, db, r, now).Spawned?
    ensures r in db.recurrences
    ensures var t, rec := SpawnDue(lib, db, r, now), db.recurrences[r];
      && t.issue in t.db.issues && IsSpawnOf(lib, db, rec, t.db.issues[t.issue])
      && r in t.db.recurrences && NextDue(lib, rec.schedule, now) == Ok(t.db.recurrences[r].nextDue)
      && t.db.recurrences[r].lastSpawned == Some(now) && t.db.recurrences[r].lastIssue == Some(t.issue)
      && t.db.recurrences[r]
         == rec.(nextDue := t.db.recurrences[r].nextDue, lastSpawned := Some(now), lastIssue := Some(t.issue))
      && LogsOnce(db, t.db, rec.team, SpawnEntity, t.issue, Create, Some(rec.createdBy))
      && t.db.audit[|db.audit|].recurrence == Some(r)
  {
    var rec := db.recurrences[r];
    SpawnRowIsOf(lib, db, rec, FirstState(db, rec.team, Backlog).value);
    hide NextDue, RowOk, SpawnRow, IsSpawnOf, FirstState;
  }

  /** How a recurrence's transaction ends: skipped unless the recurrence is there, active and due; then the first that
      goes wrong of the backlog state, the row and the schedule; else a spawn, if the schedule moves past now. */
  lemma TransactionEndsExactly(lib: Lib, db: Db, r: Id, now: Time)
    ensures SpawnDue(lib, db, r, now) == Skipped
      <==> !(r in db.recurrences && db.recurrences[r].active && db.recurrences[r].nextDue <= now)
    ensures SpawnDue(lib, db, r, now) != Skipped ==>
      var t, rec := SpawnDue(lib, db, r, now), db.recurrences[r];
      var state := FirstState(db, rec.team, Backlog);
      if !HasKind(db, rec.team, Backlog) then t == Failed(NoBacklogState)
      else state.Some? && if !RowOk(db, SpawnRow(lib, rec, state.value)) then t == Failed(BadRow)
      else if NextDue(lib, rec.schedule, now).Err? then t == Failed(NextDue(lib, rec.schedule, now).error)
      else if NextDue(lib, rec.schedule, now).value > now then t.Spawned? else t == Hung
  {
    hide RowOk, SpawnRow, NextDue, SpawnInto;
  }
}
