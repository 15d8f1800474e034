/** services/summary_service.py: the counts, lists and per-assignee tallies of a team, and how they fit together. */
module Summaries {
  import opened Values
  import opened Transitions
  import opened Store
  import opened Queries
  import opened Tenancy
  import opened Schedules

  datatype DueItem = DueItem(id: Id, due: int, days: int)

  /** The keys of an assignee's tally: a state category, or the overdue count added to it. */
  datatype TallyKey = InState(kind: StateType) | Overdue

  datatype Completion = Completion(id: Id, at: Time)
  datatype StalledProject = StalledProject(id: Id, backlog: nat, idleDays: int)
  datatype WaitingItem = WaitingItem(id: Id, assignee: Id)

  datatype Summary = Summary(
    triageCount: nat,
    byStateType: map<StateType, nat>,
    overdue: seq<DueItem>,
    dueSoon: seq<DueItem>,
    byAssignee: map<Id, map<TallyKey, nat>>,
    recentlyCompleted: seq<Completion>,
    stalled: seq<StalledProject>,
    waitingFor: seq<WaitingItem>
  )

  /** The `updated_at` columns, which are not among the modelled ones. */
  datatype Updated = Updated(issue: Id -> Time, project: Id -> Time)

  // ---------- the queries ----------

  function TeamIssues(db: Db, team: Id): set<Id> {
    set i | i in db.issues && db.issues[i].team == team
  }

  predicate IsIn(db: Db, i: Id, ids: set<Id>)
    requires i in db.issues
  {
    db.issues[i].Link(StateId).Some? && db.issues[i].Link(StateId).value in ids
  }

  /** The join with the state table. */
  function OfKind(db: Db, team: Id, k: StateType): set<Id> {
    set i | i in TeamIssues(db, team) && KindOf(db, db.issues[i]) == Some(k)
  }

  function DueOn(db: Db, i: Id): Option<int>
    requires i in db.issues
  {
    match db.issues[i].Get(DueDate)
    case Date(day) => Some(day)
    case _ => None
  }

  function OverdueIssues(db: Db, team: Id, today: int, states: set<Id>): set<Id> {
    set i | i in TeamIssues(db, team) && DueOn(db, i).Some? && DueOn(db, i).value < today && IsIn(db, i, states)
  }

  function DueSoonIssues(db: Db, team: Id, today: int, states: set<Id>): set<Id> {
    set i | i in TeamIssues(db, team) && DueOn(db, i).Some? && today <= DueOn(db, i).value <= today + 7
      && IsIn(db, i, states)
  }

  function AssigneeOf(db: Db, i: Id): Option<Id> {
    if i in db.issues then db.issues[i].Link(AssigneeId) else None
  }

  function AssignedTo(db: Db, issues: set<Id>, a: Id): set<Id> {
    set i | i in issues && AssigneeOf(db, i) == Some(a)
  }

  function AssignedAmong(db: Db, issues: set<Id>, people: set<Id>): set<Id> {
    set i | i in issues && AssigneeOf(db, i).Some? && AssigneeOf(db, i).value in people
  }

  /** The rows of `group_by(assignee_id)`: every assignee with its count. */
  function CountsByAssignee(db: Db, issues: set<Id>): map<Id, nat> {
    map a | a in (set i | i in issues && AssigneeOf(db, i).Some? :: AssigneeOf(db, i).value) ::
      |AssignedTo(db, issues, a)|
  }

  /** The rows of `group_by(assignee_id, type)`. */
  function CountsByAssigneeAndKind(db: Db, team: Id): map<(Id, StateType), nat> {
    map g | g in (set i | i in TeamIssues(db, team) && AssigneeOf(db, i).Some? && KindOf(db, db.issues[i]).Some?
                    :: (AssigneeOf(db, i).value, KindOf(db, db.issues[i]).value))
      :: |AssignedTo(db, OfKind(db, team, g.1), g.0)|
  }

  const NON_TERMINAL: set<StateType> := {Triage, Backlog, Unstarted, Started}

  // ---------- the service ----------

  /** `state_ids_by_type.setdefault(s.type, []).append(s.id)` over the team's states. */
  method StatesByType(db: Db, team: Id) returns (byType: map<StateType, set<Id>>)
    ensures forall k :: (if k in byType then byType[k] else {}) == StateIds(db, team, {k})
  {
    byType := map[];
    var todo := set s | s in db.states && db.states[s].team == team;
    while todo != {}
      invariant forall s :: s in todo ==> s in db.states && db.states[s].team == team
      invariant forall k :: (if k in byType then byType[k] else {}) == StateIds(db, team, {k}) - todo
    {
      var s :| s in todo;
      var k := db.states[s].kind;
      byType := byType[k := (if k in byType then byType[k] else {}) + {s}];
      todo := todo - {s};
    }
  }

  function DueDates(db: Db, issues: set<Id>): map<Id, int> {
    map i | i in issues && i in db.issues && DueOn(db, i).Some? :: DueOn(db, i).value
  }

  function ItemIds(items: seq<DueItem>): set<Id> {
    set k | 0 <= k < |items| :: items[k].id
  }

  function ItemFor(i: Id, due: int, today: int): DueItem {
    DueItem(i, due, if due < today then today - due else due - today)
  }

  /** One of the two due lists: an item for each selected row, in the order the rows come. */
  method DueList(rows: map<Id, int>, today: int) returns (items: seq<DueItem>)
    ensures ItemIds(items) == rows.Keys && |items| == |rows|
    ensures forall k :: 0 <= k < |items| ==>
      items[k].id in rows && items[k] == ItemFor(items[k].id, rows[items[k].id], today)
  {
    items := [];
    var todo := rows.Keys;
    while todo != {}
      invariant todo <= rows.Keys
      invariant ItemIds(items) == rows.Keys - todo && |items| == |rows| - |todo|
      invariant forall k :: 0 <= k < |items| ==>
        items[k].id in rows && items[k] == ItemFor(items[k].id, rows[items[k].id], today)
    {
      var i :| i in todo;
      IdsSnoc(items, ItemFor(i, rows[i], today));
      items := items + [ItemFor(i, rows[i], today)];
      todo := todo - {i};
    }
  }

  lemma IdsSnoc(items: seq<DueItem>, item: DueItem)
    ensures ItemIds(items + [item]) == ItemIds(items) + {item.id}
  {
    var more := items + [item];
    assert more[|items|] == item;
    forall k | 0 <= k < |items| ensures items[k].id in ItemIds(more) {
      assert more[k] == items[k];
    }
  }

  /** The dictionary of tallies holds exactly the rows written so far. */
  ghost predicate Holds(tally: map<Id, map<TallyKey, nat>>, counts: map<(Id, StateType), nat>, late: map<Id, nat>) {
    && (forall a, k :: (a in tally && InState(k) in tally[a]) <==> (a, k) in counts)
    && (forall a, k :: (a, k) in counts ==> tally[a][InState(k)] == counts[(a, k)])
    && (forall a :: (a in tally && Overdue in tally[a]) <==> a in late)
    && (forall a :: a in late ==> tally[a][Overdue] == late[a])
  }

  function Write(tally: map<Id, map<TallyKey, nat>>, a: Id, key: TallyKey, n: nat): map<Id, map<TallyKey, nat>> {
    tally[a := (if a in tally then tally[a] else map[])[key := n]]
  }

  lemma WriteCount(tally: map<Id, map<TallyKey, nat>>, counts: map<(Id, StateType), nat>, late: map<Id, nat>, a: Id,
                   k: StateType, n: nat)
    requires Holds(tally, counts, late)
    ensures Holds(Write(tally, a, InState(k), n), counts[(a, k) := n], late)
  {
  }

  lemma WriteLate(tally: map<Id, map<TallyKey, nat>>, counts: map<(Id, StateType), nat>, late: map<Id, nat>, a: Id,
                  n: nat)
    requires Holds(tally, counts, late)
    ensures Holds(Write(tally, a, Overdue, n), counts, late[a := n])
  {
  }

  /** The two loops that fill `by_assignee`: the counts per category, then the overdue counts added to them. */
  method Tallies(counts: map<(Id, StateType), nat>, late: map<Id, nat>) returns (tally: map<Id, map<TallyKey, nat>>)
    ensures Holds(tally, counts, late)
  {
    tally := map[];
    var todo := counts.Keys;
    ghost var written: map<(Id, StateType), nat> := map[];
    assert Holds(tally, written, map[]);
    while todo != {}
      invariant todo <= counts.Keys && written.Keys == counts.Keys - todo
      invariant forall g :: g in written ==> written[g] == counts[g]
      invariant Holds(tally, written, map[])
    {
      hide Holds;
      var g :| g in todo;
      WriteCount(tally, written, map[], g.0, g.1, counts[g]);
      tally := Write(tally, g.0, InState(g.1), counts[g]);
      written := written[(g.0, g.1) := counts[g]];
      todo := todo - {g};
    }
    assert written == counts;
    var rest := late.Keys;
    ghost var added: map<Id, nat> := map[];
    while rest != {}
      invariant rest <= late.Keys && added.Keys == late.Keys - rest && forall a :: a in added ==> added[a] == late[a]
      invariant Holds(tally, counts, added)
    {
      hide Holds;
      var a :| a in rest;
      WriteLate(tally, counts, added, a, late[a]);
      tally := Write(tally, a, Overdue, late[a]);
      added := added[a := late[a]];
      rest := rest - {a};
    }
    assert added == late;
  }

  /** The two due selections. */
  function OverdueNow(db: Db, team: Id, today: int): set<Id> {
    OverdueIssues(db, team, today, StateIds(db, team, NON_TERMINAL))
  }

  function SoonDue(db: Db, team: Id, today: int): set<Id> {
    DueSoonIssues(db, team, today, StateIds(db, team, NON_TERMINAL))
  }

  function TriageIssues(db: Db, team: Id): set<Id> {
    set i | i in TeamIssues(db, team) && IsIn(db, i, StateIds(db, team, {Triage}))
  }

  /** One item for each of the issues, with its due date and the days between it and today. */
  ghost predicate ItemsFor(db: Db, items: seq<DueItem>, issues: set<Id>, today: int) {
    && ItemIds(items) == issues && |items| == |issues|
    && (forall k :: 0 <= k < |items| ==> items[k].id in db.issues && DueOn(db, items[k].id) == Some(items[k].due))
    && (forall k :: 0 <= k < |items| ==>
          items[k].days == if items[k].due < today then today - items[k].due else items[k].due - today)
  }

  /** What `get_summary` returns, said of the tables. */
  ghost predicate Summarises(s: Summary, db: Db, team: Id, today: int) {
    && s.triageCount == |TriageIssues(db, team)|
    && s.byStateType == (map k: StateType | OfKind(db, team, k) != {} :: |OfKind(db, team, k)|)
    && ItemsFor(db, s.overdue, OverdueNow(db, team, today), today)
    && ItemsFor(db, s.dueSoon, SoonDue(db, team, today), today)
    && Holds(s.byAssignee, CountsByAssigneeAndKind(db, team), CountsByAssignee(db, OverdueNow(db, team, today)))
  }

  /** The four non-terminal categories' states, collected one category after another. */
  method NonTerminalStates(db: Db, team: Id, byType: map<StateType, set<Id>>) returns (states: set<Id>)
    requires forall k :: (if k in byType then byType[k] else {}) == StateIds(db, team, {k})
    ensures states == StateIds(db, team, NON_TERMINAL)
  {
    states := {};
    var kinds := [Triage, Backlog, Unstarted, Started];
    ghost var seen: set<StateType> := {};
    for i := 0 to |kinds|
      invariant seen == set k | 0 <= k < i :: kinds[k]
      invariant states == StateIds(db, team, seen)
    {
      states := states + if kinds[i] in byType then byType[kinds[i]] else {};
      seen := seen + {kinds[i]};
    }
    assert seen == NON_TERMINAL by {
      assert kinds[0] == Triage && kinds[1] == Backlog && kinds[2] == Unstarted && kinds[3] == Started;
    }
  }

  method DueItems(db: Db, issues: set<Id>, today: int) returns (items: seq<DueItem>)
    requires forall i :: i in issues ==> i in db.issues && DueOn(db, i).Some?
    ensures ItemsFor(db, items, issues, today)
  {
    assert DueDates(db, issues).Keys == issues;
    items := DueList(DueDates(db, issues), today);
  }

  // ---------- recent completions, stalled projects, waiting for ----------

  /** The team's issues in completed states whose row was updated in the last seven days. */
  function CompletedSince(db: Db, team: Id, now: Time, updated: Updated): set<Id> {
    set i | i in TeamIssues(db, team) && IsIn(db, i, StateIds(db, team, {Completed}))
      && updated.issue(i) >= now - 7 * DAY
  }

  /** The issues of the project in one of the states, whatever their team. */
  function ProjectIssues(db: Db, project: Id, states: set<Id>): set<Id> {
    set i | i in db.issues && db.issues[i].Link(ProjectId) == Some(project) && IsIn(db, i, states)
  }

  function StartedProjects(db: Db, team: Id): set<Id> {
    set p | p in db.projects && db.projects[p].team == team && db.projects[p].state == "started"
  }

  const ACTIVE: set<StateType> := {Unstarted, Started}

  predicate IsStalled(db: Db, team: Id, project: Id) {
    project in StartedProjects(db, team) && ProjectIssues(db, project, StateIds(db, team, ACTIVE)) == {}
  }

  /** The active issues that the user created and somebody else has. */
  function WaitingIssues(db: Db, team: Id, user: Id): set<Id> {
    set i | i in TeamIssues(db, team) && db.issues[i].createdBy == user && AssigneeOf(db, i).Some?
            && AssigneeOf(db, i) != Some(user) && IsIn(db, i, StateIds(db, team, ACTIVE))
  }

  function CompletedIn(items: seq<Completion>): set<Id> {
    set k | 0 <= k < |items| :: items[k].id
  }

  function WaitedIn(items: seq<WaitingItem>): set<Id> {
    set k | 0 <= k < |items| :: items[k].id
  }

  ghost predicate CompletionsFor(items: seq<Completion>, issues: set<Id>, updated: Updated) {
    && CompletedIn(items) == issues && |items| == |issues|
    && (forall k :: 0 <= k < |items| ==> items[k].at == updated.issue(items[k].id))
    && (forall j, k :: 0 <= j < k < |items| ==> items[j].at >= items[k].at)
  }

  ghost predicate StalledFor(db: Db, items: seq<StalledProject>, team: Id, todo: set<Id>, now: Time, updated: Updated) {
    && (forall p :: (exists k :: 0 <= k < |items| && items[k].id == p) <==> IsStalled(db, team, p) && p !in todo)
    && (forall j, k :: 0 <= j < k < |items| ==> items[j].id != items[k].id)
    && (forall k :: 0 <= k < |items| ==> IdleSince(db, items[k], team, now, updated))
  }

  ghost predicate IdleSince(db: Db, item: StalledProject, team: Id, now: Time, updated: Updated) {
    && item.backlog == |ProjectIssues(db, item.id, StateIds(db, team, {Backlog}))|
    && item.idleDays * DAY <= now - updated.project(item.id) < (item.idleDays + 1) * DAY
  }

  ghost predicate WaitingFor(db: Db, items: seq<WaitingItem>, issues: set<Id>) {
    && WaitedIn(items) == issues && |items| == |issues|
    && (forall k :: 0 <= k < |items| ==> AssigneeOf(db, items[k].id) == Some(items[k].assignee))
  }

  lemma OneLess(issues: set<Id>, todo: set<Id>, i: Id)
    requires i in todo && todo <= issues
    ensures issues - todo + {i} == issues - (todo - {i})
  {
  }

  /** No issue still to come was updated after one that is listed. */
  ghost predicate NoneLater(items: seq<Completion>, todo: set<Id>, updated: Updated) {
    forall k, i :: 0 <= k < |items| && i in todo ==> items[k].at >= updated.issue(i)
  }

  lemma CompletionsSnoc(items: seq<Completion>, item: Completion, issues: set<Id>, todo: set<Id>, updated: Updated)
    requires CompletionsFor(items, issues, updated) && item.id !in issues && item.at == updated.issue(item.id)
    requires NoneLater(items, todo, updated) && item.id in todo
    requires forall other :: other in todo ==> updated.issue(other) <= item.at
    ensures CompletionsFor(items + [item], issues + {item.id}, updated)
    ensures NoneLater(items + [item], todo - {item.id}, updated)
  {
    CompletedSnoc(items, item);
    var more := items + [item];
    assert more[|items|] == item && forall k :: 0 <= k < |items| ==> more[k] == items[k];
    hide CompletedIn;
    forall k | 0 <= k < |items| ensures more[k].at >= item.at && more[k].at == updated.issue(more[k].id) {
      assert more[k] == items[k];
    }
  }

  lemma CompletedSnoc(items: seq<Completion>, item: Completion)
    ensures CompletedIn(items + [item]) == CompletedIn(items) + {item.id}
  {
    var more := items + [item];
    assert more[|items|] == item;
    forall k | 0 <= k < |items| ensures items[k].id in CompletedIn(more) {
      assert more[k] == items[k];
    }
  }

  lemma WaitingSnoc(db: Db, items: seq<WaitingItem>, item: WaitingItem, issues: set<Id>)
    requires WaitingFor(db, items, issues) && item.id !in issues && AssigneeOf(db, item.id) == Some(item.assignee)
    ensures WaitingFor(db, items + [item], issues + {item.id})
  {
    hide AssigneeOf;
    var more := items + [item];
    assert more[|items|] == item && forall k :: 0 <= k < |items| ==> more[k] == items[k];
    forall i ensures i in WaitedIn(more) <==> i in issues + {item.id} {
      if i in issues {
        var k :| 0 <= k < |items| && items[k].id == i;
        assert more[k] == items[k];
      }
    }
  }

  lemma {:induction false} LatestExists(issues: set<Id>, updated: Updated) returns (latest: Id)
    requires issues != {}
    ensures latest in issues && forall i :: i in issues ==> updated.issue(i) <= updated.issue(latest)
    decreases |issues|
  {
    var first :| first in issues;
    var rest := issues - {first};
    assert issues == rest + {first};
    latest := first;
    if rest != {} {
      var other := LatestExists(rest, updated);
      latest := if updated.issue(first) < updated.issue(other) then other else first;
      forall i | i in issues ensures updated.issue(i) <= updated.issue(latest) {
        if i == first {
        } else {
          assert i in rest;
        }
      }
    }
  }

  /** The rows come ordered by their update, the latest first. */
  method CompletionList(issues: set<Id>, updated: Updated) returns (items: seq<Completion>)
    ensures CompletionsFor(items, issues, updated)
  {
    items := [];
    var todo := issues;
    assert CompletionsFor(items, {}, updated) && NoneLater(items, todo, updated);
    assert issues - todo == {};
    hide CompletionsFor, NoneLater;
    while todo != {}
      invariant todo <= issues && CompletionsFor(items, issues - todo, updated)
      invariant NoneLater(items, todo, updated)
    {
      ghost var _ := LatestExists(todo, updated);
      var i :| i in todo && forall other :: other in todo ==> updated.issue(other) <= updated.issue(i);
      CompletionsSnoc(items, Completion(i, updated.issue(i)), issues - todo, todo, updated);
      OneLess(issues, todo, i);
      items := items + [Completion(i, updated.issue(i))];
      todo := todo - {i};
    }
    assert issues - todo == issues;
  }

  /** One count of active issues per started project, and for those without any a second count of the backlog. */
  method StalledList(db: Db, team: Id, active: set<Id>, backlog: set<Id>, now: Time, updated: Updated)
    returns (items: seq<StalledProject>)
    requires active == StateIds(db, team, ACTIVE) && backlog == StateIds(db, team, {Backlog})
    ensures StalledFor(db, items, team, {}, now, updated)
  {
    hide StateIds, IsIn;
    items := [];
    var todo := StartedProjects(db, team);
    while todo != {}
      invariant todo <= StartedProjects(db, team) && StalledFor(db, items, team, todo, now, updated)
    {
      hide ProjectIssues, StartedProjects, IdleSince;
      var p :| p in todo;
      if ProjectIssues(db, p, active) == {} {
        var item := StalledProject(p, |ProjectIssues(db, p, backlog)|, (now - updated.project(p)) / DAY);
        assert IdleSince(db, item, team, now, updated) by { DaysFloor(now - updated.project(p)); }
        StalledSnoc(db, items, item, team, todo, now, updated);
        items := items + [item];
      } else {
        assert !IsStalled(db, team, p);
      }
      todo := todo - {p};
    }
  }

  lemma DaysFloor(elapsed: int)
    ensures elapsed / DAY * DAY <= elapsed < (elapsed / DAY + 1) * DAY
  {
  }

  lemma StalledSnoc(db: Db, items: seq<StalledProject>, item: StalledProject, team: Id, todo: set<Id>, now: Time,
                    updated: Updated)
    requires StalledFor(db, items, team, todo, now, updated) && item.id in todo && IsStalled(db, team, item.id)
    requires IdleSince(db, item, team, now, updated)
    ensures StalledFor(db, items + [item], team, todo - {item.id}, now, updated)
  {
    hide IsStalled, IdleSince;
    var more := items + [item];
    assert more[|items|] == item && forall k :: 0 <= k < |items| ==> more[k] == items[k];
  }

  method WaitingList(db: Db, issues: set<Id>) returns (items: seq<WaitingItem>)
    requires forall i :: i in issues ==> AssigneeOf(db, i).Some?
    ensures WaitingFor(db, items, issues)
  {
    items := [];
    var todo := issues;
    assert WaitingFor(db, items, {});
    assert issues - todo == {};
    hide WaitingFor, AssigneeOf;
    while todo != {}
      invariant todo <= issues && WaitingFor(db, items, issues - todo)
    {
      var i :| i in todo;
      WaitingSnoc(db, items, WaitingItem(i, AssigneeOf(db, i).value), issues - todo);
      OneLess(issues, todo, i);
      items := items + [WaitingItem(i, AssigneeOf(db, i).value)];
      todo := todo - {i};
    }
    assert issues - todo == issues;
  }

  /** The team's unstarted and started states. */
  method ActiveStates(db: Db, team: Id, byType: map<StateType, set<Id>>) returns (states: set<Id>)
    requires forall k :: (if k in byType then byType[k] else {}) == StateIds(db, team, {k})
    ensures states == StateIds(db, team, ACTIVE)
  {
    states := (if Unstarted in byType then byType[Unstarted] else {})
      + (if Started in byType then byType[Started] else {});
    assert states == StateIds(db, team, {Unstarted}) + StateIds(db, team, {Started});
  }

  /** The last three lists, from the team's states by category. */
  method Progress(db: Db, team: Id, now: Time, updated: Updated, user: Option<Id>, byType: map<StateType, set<Id>>)
    returns (recent: seq<Completion>, stalled: seq<StalledProject>, waiting: seq<WaitingItem>)
    requires forall k :: (if k in byType then byType[k] else {}) == StateIds(db, team, {k})
    ensures CompletionsFor(recent, CompletedSince(db, team, now, updated), updated)
    ensures StalledFor(db, stalled, team, {}, now, updated)
    ensures WaitingFor(db, waiting, if user.Some? then WaitingIssues(db, team, user.value) else {})
  {
    hide StateIds, IsIn, CompletionsFor, StalledFor, WaitingFor;
    var completed := if Completed in byType then byType[Completed] else {};
    var done := set i | i in TeamIssues(db, team) && IsIn(db, i, completed) && updated.issue(i) >= now - 7 * DAY;
    recent := CompletionList(done, updated);
    var active := ActiveStates(db, team, byType);
    stalled := StalledList(db, team, active, if Backlog in byType then byType[Backlog] else {}, now, updated);
    var waited := if user.None? then {} else
      set i | i in TeamIssues(db, team) && db.issues[i].createdBy == user.value && AssigneeOf(db, i).Some?
              && AssigneeOf(db, i) != user && IsIn(db, i, active);
    waiting := WaitingList(db, waited);
  }

  /** The lists of recent completions, stalled projects and issues waited for; without a user nothing waits. */
  ghost predicate Lists(s: Summary, db: Db, team: Id, now: Time, updated: Updated, user: Option<Id>) {
    && CompletionsFor(s.recentlyCompleted, CompletedSince(db, team, now, updated), updated)
    && StalledFor(db, s.stalled, team, {}, now, updated)
    && WaitingFor(db, s.waitingFor, if user.Some? then WaitingIssues(db, team, user.value) else {})
  }

  method GetSummary(db: Db, team: Id, today: int, now: Time, updated: Updated, user: Option<Id>) returns (s: Summary)
    ensures Summarises(s, db, team, today)
    ensures Lists(s, db, team, now, updated, user)
  {
    hide Holds, ItemsFor, StateIds, CountsByAssigneeAndKind, CountsByAssignee, OfKind, IsIn, DueOn;
    hide CompletionsFor, StalledFor, WaitingFor;
    var byType := StatesByType(db, team);
    var triage := if Triage in byType then byType[Triage] else {};
    var triageCount := |set i | i in TeamIssues(db, team) && IsIn(db, i, triage)|;
    var byStateType := map k: StateType | OfKind(db, team, k) != {} :: |OfKind(db, team, k)|;
    var states := NonTerminalStates(db, team, byType);
    var late, soon := OverdueIssues(db, team, today, states), DueSoonIssues(db, team, today, states);
    var overdueItems := DueItems(db, late, today);
    var soonItems := DueItems(db, soon, today);
    var tally := Tallies(CountsByAssigneeAndKind(db, team), CountsByAssignee(db, late));
    var recent, stalled, waiting := Progress(db, team, now, updated, user, byType);
    s := Summary(triageCount, byStateType, overdueItems, soonItems, tally, recent, stalled, waiting);
  }

  // ---------- how the figures add up ----------

  function CountIn(s: Summary, k: StateType): nat {
    if k in s.byStateType then s.byStateType[k] else 0
  }

  lemma EveryIssueHasAKind(db: Db, team: Id, i: Id)
    requires IsolatedIn(db, team, Column.StateId) && i in TeamIssues(db, team)
    ensures KindOf(db, db.issues[i]).Some? && i in OfKind(db, team, KindOf(db, db.issues[i]).value)
    ensures forall ks :: IsIn(db, i, StateIds(db, team, ks)) <==> KindOf(db, db.issues[i]).value in ks
  {
    assert RefersInside(db, i, db.issues[i], Column.StateId);
  }

  lemma KindsAreDisjoint(db: Db, team: Id, j: StateType, k: StateType)
    requires j != k
    ensures OfKind(db, team, j) !! OfKind(db, team, k)
  {
  }

  lemma SixParts(a: set<Id>, b: set<Id>, c: set<Id>, d: set<Id>, e: set<Id>, f: set<Id>)
    requires a !! b !! c !! d !! e !! f
    ensures |(a + b + c) + (d + e + f)| == |a| + |b| + |c| + |d| + |e| + |f|
  {
    assert |a + b + c| == |a| + |b| + |c|;
    assert |d + e + f| == |d| + |e| + |f|;
  }

  lemma KindCounts(s: Summary, db: Db, team: Id, today: int, k: StateType)
    requires Summarises(s, db, team, today)
    ensures CountIn(s, k) == |OfKind(db, team, k)| && s.triageCount == |TriageIssues(db, team)|
  {
    hide OfKind, Holds, TriageIssues, OverdueNow, SoonDue, CountsByAssigneeAndKind, CountsByAssignee;
  }

  /** With states inside their team, the state counts sum to the number of the team's issues and the triage count
      is the triage entry. */
  lemma StateCountsSumToTheTeam(s: Summary, db: Db, team: Id, today: int)
    requires Summarises(s, db, team, today) && IsolatedIn(db, team, Column.StateId)
    ensures CountIn(s, Triage) + CountIn(s, Backlog) + CountIn(s, Unstarted)
      + CountIn(s, Started) + CountIn(s, Completed) + CountIn(s, Canceled) == |TeamIssues(db, team)|
    ensures s.triageCount == CountIn(s, Triage)
  {
    hide *;
    var triage, backlog, unstarted := OfKind(db, team, Triage), OfKind(db, team, Backlog), OfKind(db, team, Unstarted);
    var started, completed, canceled := OfKind(db, team, Started), OfKind(db, team, Completed),
      OfKind(db, team, Canceled);
    forall j: StateType, k: StateType | j != k ensures OfKind(db, team, j) !! OfKind(db, team, k) {
      KindsAreDisjoint(db, team, j, k);
    }
    forall k: StateType ensures CountIn(s, k) == |OfKind(db, team, k)| && s.triageCount == |TriageIssues(db, team)| {
      KindCounts(s, db, team, today, k);
    }
    SixParts(triage, backlog, unstarted, started, completed, canceled);
    TeamIsItsKinds(db, team, triage + backlog + unstarted, started + completed + canceled);
    TriageIsItsKind(db, team);
  }

  lemma TeamIsItsKinds(db: Db, team: Id, early: set<Id>, rest: set<Id>)
    requires IsolatedIn(db, team, Column.StateId)
    requires early == OfKind(db, team, Triage) + OfKind(db, team, Backlog) + OfKind(db, team, Unstarted)
    requires rest == OfKind(db, team, Started) + OfKind(db, team, Completed) + OfKind(db, team, Canceled)
    ensures TeamIssues(db, team) == early + rest
  {
    hide IsolatedIn, KindOf;
    forall i ensures i in TeamIssues(db, team) <==> i in early + rest {
      if i in TeamIssues(db, team) {
        EveryIssueHasAKind(db, team, i);
        var k := KindOf(db, db.issues[i]).value;
        assert k == Triage || k == Backlog || k == Unstarted || k == Started || k == Completed || k == Canceled;
      }
    }
  }

  lemma TriageIsItsKind(db: Db, team: Id)
    requires IsolatedIn(db, team, Column.StateId)
    ensures TriageIssues(db, team) == OfKind(db, team, Triage)
  {
    hide IsolatedIn, KindOf, IsIn;
    forall i | i in TeamIssues(db, team) ensures i in TriageIssues(db, team) <==> i in OfKind(db, team, Triage) {
      EveryIssueHasAKind(db, team, i);
    }
  }

  function SumOver(people: set<Id>, f: map<Id, nat>): nat
    requires people <= f.Keys
  {
    if people == {} then 0 else
      var x := Least(people);
      f[x] + SumOver(people - {x}, f)
  }

  lemma SplitOff(db: Db, issues: set<Id>, people: set<Id>, a: Id)
    requires a in people
    ensures |AssignedAmong(db, issues, people)|
      == |AssignedTo(db, issues, a)| + |AssignedAmong(db, issues, people - {a})|
  {
    assert AssignedAmong(db, issues, people) == AssignedTo(db, issues, a) + AssignedAmong(db, issues, people - {a});
  }

  lemma {:induction false} SumOfParts(db: Db, issues: set<Id>, people: set<Id>, f: map<Id, nat>)
    requires people <= f.Keys && forall a :: a in people ==> f[a] == |AssignedTo(db, issues, a)|
    ensures SumOver(people, f) == |AssignedAmong(db, issues, people)|
    decreases |people|
  {
    hide AssignedTo;
    if people == {} {
      assert AssignedAmong(db, issues, people) == {};
    } else {
      hide Least, AssignedAmong;
      var a := Least(people);
      SumOfParts(db, issues, people - {a}, f);
      SplitOff(db, issues, people, a);
    }
  }

  /** The overdue figures of the tallies. */
  function OverdueTally(s: Summary): map<Id, nat> {
    map a | a in s.byAssignee && Overdue in s.byAssignee[a] :: s.byAssignee[a][Overdue]
  }

  /** The overdue tallies sum to the assigned part of the overdue list. */
  lemma OverdueTalliesSumToTheList(s: Summary, db: Db, team: Id, today: int)
    requires Summarises(s, db, team, today)
    ensures SumOver(OverdueTally(s).Keys, OverdueTally(s))
      == |set i | i in ItemIds(s.overdue) && AssigneeOf(db, i).Some?|
  {
    var late, f := OverdueNow(db, team, today), OverdueTally(s);
    hide OverdueNow, CountsByAssigneeAndKind;
    var rows := CountsByAssignee(db, late);
    assert f == rows by {
      assert f.Keys == rows.Keys;
    }
    hide Holds, Summarises;
    SumOfParts(db, late, f.Keys, f);
    assert AssignedAmong(db, late, f.Keys) == set i | i in late && AssigneeOf(db, i).Some?;
  }

  /** Overdue and due soon have no issue in common, and together they are the team's issues in no terminal
      category that are due by a week from today. */
  lemma DueListsCoverTheWeek(s: Summary, db: Db, team: Id, today: int)
    requires Summarises(s, db, team, today) && IsolatedIn(db, team, Column.StateId)
    ensures ItemIds(s.overdue) !! ItemIds(s.dueSoon)
    ensures forall i :: i in ItemIds(s.overdue) + ItemIds(s.dueSoon) <==>
      i in TeamIssues(db, team) && DueOn(db, i).Some? && DueOn(db, i).value <= today + 7
      && KindOf(db, db.issues[i]).Some? && !KindOf(db, db.issues[i]).value.Terminal()
  {
    hide IsolatedIn, KindOf, Holds, IsIn, StateIds;
    var late, soon := OverdueNow(db, team, today), SoonDue(db, team, today);
    forall i ensures i in late + soon <==>
      i in TeamIssues(db, team) && DueOn(db, i).Some? && DueOn(db, i).value <= today + 7
      && KindOf(db, db.issues[i]).Some? && !KindOf(db, db.issues[i]).value.Terminal()
    {
      if i in TeamIssues(db, team) {
        EveryIssueHasAKind(db, team, i);
      }
    }
    assert ItemIds(s.overdue) == late && ItemIds(s.dueSoon) == soon;
  }

  /** No recently completed issue is on a due list or waited for. */
  lemma CompletedIsNotPending(s: Summary, db: Db, team: Id, today: int, now: Time, updated: Updated, user: Option<Id>)
    requires Summarises(s, db, team, today) && Lists(s, db, team, now, updated, user)
    ensures CompletedIn(s.recentlyCompleted) !! ItemIds(s.overdue) + ItemIds(s.dueSoon) + WaitedIn(s.waitingFor)
  {
    hide Holds, StalledFor, StateIds, CountsByAssigneeAndKind, CountsByAssignee, OfKind, DueOn, AssigneeOf, IsIn;
    hide CompletedIn, WaitedIn, ItemIds, TriageIssues;
    forall i | i in db.issues ensures !(IsIn(db, i, StateIds(db, team, {Completed}))
      && (IsIn(db, i, StateIds(db, team, NON_TERMINAL)) || IsIn(db, i, StateIds(db, team, ACTIVE)))) {
      OneStateOnly(db, team, i);
    }
  }

  lemma OneStateOnly(db: Db, team: Id, i: Id)
    requires i in db.issues
    ensures !(IsIn(db, i, StateIds(db, team, {Completed}))
      && (IsIn(db, i, StateIds(db, team, NON_TERMINAL)) || IsIn(db, i, StateIds(db, team, ACTIVE))))
  {
  }

  /** No project of an issue that the user waits for is reported as stalled. */
  lemma WaitedProjectsAreNotStalled(s: Summary, db: Db, team: Id, now: Time, updated: Updated, user: Option<Id>)
    requires Lists(s, db, team, now, updated, user)
    ensures forall i, k :: i in WaitedIn(s.waitingFor) && 0 <= k < |s.stalled| ==>
      i in db.issues && db.issues[i].Link(ProjectId) != Some(s.stalled[k].id)
  {
    hide IdleSince, StateIds, AssigneeOf, CompletionsFor, WaitedIn, IsIn, StartedProjects;
    forall i, k | i in WaitedIn(s.waitingFor) && 0 <= k < |s.stalled|
      ensures i in db.issues && db.issues[i].Link(ProjectId) != Some(s.stalled[k].id)
    {
      assert IsStalled(db, team, s.stalled[k].id);
      assert i !in ProjectIssues(db, s.stalled[k].id, StateIds(db, team, ACTIVE));
    }
  }

  /** With the project's issues in its team and states inside the team, a started project is reported as stalled exactly
      when none of its issues is unstarted or started. */
  lemma StalledExactly(s: Summary, db: Db, team: Id, now: Time, updated: Updated, user: Option<Id>, p: Id)
    requires Lists(s, db, team, now, updated, user) && IsolatedIn(db, team, Column.StateId)
    requires p in StartedProjects(db, team)
    requires forall i :: i in db.issues && db.issues[i].Link(ProjectId) == Some(p) ==> i in TeamIssues(db, team)
    ensures (exists k :: 0 <= k < |s.stalled| && s.stalled[k].id == p)
      <==> forall i :: i in db.issues && db.issues[i].Link(ProjectId) == Some(p) ==>
             KindOf(db, db.issues[i]).Some? && KindOf(db, db.issues[i]).value !in ACTIVE
  {
    var active := ProjectIssues(db, p, StateIds(db, team, ACTIVE));
    forall i | i in db.issues && db.issues[i].Link(ProjectId) == Some(p)
      ensures KindOf(db, db.issues[i]).Some? && (i in active <==> KindOf(db, db.issues[i]).value in ACTIVE)
    {
      hide IsolatedIn, KindOf, IsIn, StateIds, IdleSince, StartedProjects;
      EveryIssueHasAKind(db, team, i);
    }
    hide IsolatedIn, KindOf, IsIn, StateIds, IdleSince, StartedProjects, CompletionsFor, WaitingFor;
    assert IsStalled(db, team, p) <==> active == {};
    assert active != {} ==> exists i :: i in active;
  }

  // ---------- the figures, without the queries ----------

  /** The team's issues of a category. */
  ghost function InCategory(db: Db, team: Id, kind: StateType): set<Id> {
    set i | i in db.issues && db.issues[i].team == team && KindOf(db, db.issues[i]) == Some(kind)
  }

  /** An issue of the team that is due on the day and not done. */
  ghost predicate IsDueOn(db: Db, team: Id, i: Id, day: int) {
    && i in db.issues && db.issues[i].team == team && db.issues[i].Get(DueDate) == Date(day)
    && KindOf(db, db.issues[i]).Some? && KindOf(db, db.issues[i]).value !in {Completed, Canceled}
  }

  ghost predicate Has(db: Db, i: Id, a: Id) {
    i in db.issues && db.issues[i].Get(AssigneeId) == Ref(a)
  }

  function TallyIn(s: Summary, a: Id, key: TallyKey): nat {
    if a in s.byAssignee && key in s.byAssignee[a] then s.byAssignee[a][key] else 0
  }

  /** With states inside their team: the counts, the two due lists and the tallies, said of the issues themselves. */
  lemma CountsMean(s: Summary, db: Db, team: Id, today: int, kind: StateType, i: Id)
    requires Summarises(s, db, team, today) && IsolatedIn(db, team, Column.StateId)
    ensures CountIn(s, kind) == |InCategory(db, team, kind)| && s.triageCount == |InCategory(db, team, Triage)|
    ensures i in ItemIds(s.overdue) <==> exists day :: IsDueOn(db, team, i, day) && day < today
    ensures i in ItemIds(s.dueSoon) <==> exists day :: IsDueOn(db, team, i, day) && today <= day <= today + 7
  {
    assert InCategory(db, team, kind) == OfKind(db, team, kind);
    assert InCategory(db, team, Triage) == OfKind(db, team, Triage);
    KindCounts(s, db, team, today, kind);
    TriageIsItsKind(db, team);
    DueMeans(db, team, i);
    assert ItemIds(s.overdue) == OverdueNow(db, team, today) && ItemIds(s.dueSoon) == SoonDue(db, team, today);
    hide Summarises, OfKind, IsIn, StateIds, DueOn, IsDueOn, ItemIds, IsolatedIn, InCategory, TriageIssues, TeamIssues;
  }

  lemma NonTerminalMeans(k: StateType)
    ensures k in NON_TERMINAL <==> k !in {Completed, Canceled}
  {
    assert k == Triage || k == Backlog || k == Unstarted || k == Started || k == Completed || k == Canceled;
  }

  lemma DueMeans(db: Db, team: Id, i: Id)
    requires IsolatedIn(db, team, Column.StateId)
    ensures forall day ::
      (IsDueOn(db, team, i, day)
       <==> i in TeamIssues(db, team) && DueOn(db, i) == Some(day) && IsIn(db, i, StateIds(db, team, NON_TERMINAL)))
  {
    if i in TeamIssues(db, team) {
      EveryIssueHasAKind(db, team, i);
      NonTerminalMeans(KindOf(db, db.issues[i]).value);
    }
    hide IsolatedIn, KindOf, IsIn, StateIds;
  }

  lemma TalliesMean(s: Summary, db: Db, team: Id, today: int, kind: StateType, a: Id)
    requires Summarises(s, db, team, today)
    ensures TallyIn(s, a, InState(kind)) == |set i | i in InCategory(db, team, kind) && Has(db, i, a)|
    ensures TallyIn(s, a, Overdue) == |set i | i in ItemIds(s.overdue) && Has(db, i, a)|
  {
    var late := OverdueNow(db, team, today);
    assert ItemIds(s.overdue) == late;
    assert AssignedTo(db, OfKind(db, team, kind), a) == set i | i in InCategory(db, team, kind) && Has(db, i, a);
    assert AssignedTo(db, late, a) == set i | i in late && Has(db, i, a);
    CountedWhenThere(db, team, late, kind, a);
    hide OfKind, AssignedTo, InCategory, Has, OverdueNow, ItemIds, CountsByAssignee, CountsByAssigneeAndKind;
  }

  /** The grouped queries have a row exactly for what is there. */
  lemma CountedWhenThere(db: Db, team: Id, late: set<Id>, kind: StateType, a: Id)
    ensures var rows := CountsByAssigneeAndKind(db, team);
      |AssignedTo(db, OfKind(db, team, kind), a)| == if (a, kind) in rows then rows[(a, kind)] else 0
    ensures var rows := CountsByAssignee(db, late);
      |AssignedTo(db, late, a)| == if a in rows then rows[a] else 0
  {
    hide AssigneeOf, KindOf;
    if i :| i in AssignedTo(db, OfKind(db, team, kind), a) {
      assert (a, kind) in CountsByAssigneeAndKind(db, team);
    } else {
      assert AssignedTo(db, OfKind(db, team, kind), a) == {};
    }
    if i :| i in AssignedTo(db, late, a) {
      assert a in CountsByAssignee(db, late);
    } else {
      assert AssignedTo(db, late, a) == {};
    }
  }

  /** The recent completions and the issues waited for, said of the issues themselves. */
  lemma ListsMean(s: Summary, db: Db, team: Id, now: Time, updated: Updated, user: Option<Id>, i: Id)
    requires Lists(s, db, team, now, updated, user) && IsolatedIn(db, team, Column.StateId)
    ensures i in CompletedIn(s.recentlyCompleted)
      <==> i in InCategory(db, team, Completed) && updated.issue(i) >= now - 7 * DAY
    ensures i in WaitedIn(s.waitingFor)
      <==>
        && i in InCategory(db, team, Unstarted) + InCategory(db, team, Started)
        && user == Some(db.issues[i].createdBy) && exists a: Id :: Has(db, i, a) && Some(a) != user
  {
    if i in TeamIssues(db, team) {
      EveryIssueHasAKind(db, team, i);
    }
    hide IsolatedIn, KindOf, IsIn, StateIds, CompletedIn, WaitedIn, StalledFor;
  }
}
