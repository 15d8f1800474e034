/** `spawn_issue` and the per-recurrence transaction of scheduler.py, as a function of the stored tables. */
module SpawnSpec {
  import opened Values
  import opened Transitions
  import opened Store
  import opened Schedules

  /** `template.replace("{date}", text)`. */
  function ReplaceDate(template: string, text: string): string {
    if |template| < |"{date}"| then template
    else if "{date}" <= template then text + ReplaceDate(template[|"{date}"|..], text)
    else [template[0]] + ReplaceDate(template[1..], text)
  }

  /** `defaults.get(key, fallback)` as the driver stores it. */
  function Default(lib: Lib, defaults: map<string, Value>, c: Column, key: string, fallback: Value): Value {
    if key !in defaults then fallback
    else if defaults[key].Null? then Null
    else lib.bind(c, defaults[key])
  }

  /** The column's own default replaces a priority that is absent or null. */
  function PriorityDefault(lib: Lib, defaults: map<string, Value>): Value {
    if "priority" !in defaults || defaults["priority"].Null? then Int(0) else lib.bind(Priority, defaults["priority"])
  }

  function SpawnRow(lib: Lib, rec: Recurrence, state: Id): Issue {
    Issue(rec.team, rec.createdBy, false, map[
      Title := Str(ReplaceDate(rec.titleTemplate, lib.dateText(rec.nextDue))),
      Description := rec.description,
      Kind := Str("task"),
      Priority := PriorityDefault(lib, rec.defaults),
      StateId := Ref(state),
      AssigneeId := Default(lib, rec.defaults, AssigneeId, "assignee_id", Null),
      ProjectId := Default(lib, rec.defaults, ProjectId, "project_id", Null),
      CustomFields := Default(lib, rec.defaults, CustomFields, "custom_fields", Null)
    ])
  }

  function SpawnEntry(rec: Recurrence, recurrence: Id, issue: Id): AuditEntry {
    AuditEntry(rec.team, SpawnEntity, issue, Create, rec.createdBy, map[], Some(recurrence))
  }

  /** How a recurrence's transaction ends. `Hung` is a zero-length interval's endless advance loop. */
  datatype SpawnTxn = Spawned(db: Db, issue: Id) | Skipped | Failed(error: Error) | Hung

  predicate IsDue(db: Db, r: Id, now: Time) {
    r in db.recurrences && db.recurrences[r].active && db.recurrences[r].nextDue <= now
  }

  /** The tables with the new issue, its audit entry and the advanced recurrence. */
  function SpawnInto(db: Db, r: Id, row: Issue, now: Time, next: Time): Db
    requires r in db.recurrences
  {
    var rec := db.recurrences[r];
    db.(nextId := db.nextId + 1,
        issues := db.issues[db.nextId := row],
        audit := db.audit + [SpawnEntry(rec, r, db.nextId)],
        recurrences := db.recurrences[r :=
          rec.(lastSpawned := Some(now), lastIssue := Some(db.nextId), nextDue := next)])
  }

  /** The transaction for one recurrence in a tick at `now`: re-check, spawn, advance. A strictly advancing
      schedule is past `now` after its first step, so its advance loop has nothing left to do. */
  function SpawnDue(lib: Lib, db: Db, r: Id, now: Time): SpawnTxn {
    if !IsDue(db, r, now) then Skipped
    else
      var rec := db.recurrences[r];
      var state := FirstState(db, rec.team, Backlog);
      if state.None? then Failed(NoBacklogState)
      else if !RowOk(db, SpawnRow(lib, rec, state.value)) then Failed(BadRow)
      else match NextDue(lib, rec.schedule, now)
        case Err(e) => Failed(e)
        case Ok(next) =>
          if next <= now then Hung
          else Spawned(SpawnInto(db, r, SpawnRow(lib, rec, state.value), now, next), db.nextId)
  }

  function SpawnOutcome(db: Db, t: SpawnTxn): Db {
    if t.Spawned? then t.db else db
  }
}
