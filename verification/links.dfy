/** services/fragment_link_service.py: links from fragments, their grouped hydration and both directions of lookup. */
module Links {
  import opened Values
  import opened Store

  datatype TargetType = ToFragment | ToIssue | ToProject | ToSession
  datatype Link = Link(id: Id, fragment: Id, kind: TargetType, target: Id)

  datatype Fragment = Fragment(team: Id, text: string, summary: string, kind: string)   // no summary is ""
  datatype SessionRow = SessionRow(kind: string, state: string)

  datatype Entities = Entities(
    fragments: map<Id, Fragment>, issues: map<Id, Issue>, projects: map<Id, Project>, sessions: map<Id, SessionRow>)

  datatype Hydration = Hydration(summary: string, detail: map<string, Value>)
  datatype Direction = Outgoing | Incoming
  datatype Response = Response(id: Id, direction: Direction, kind: TargetType, target: Id, shown: Hydration)

  const DELETED := Hydration("(deleted)", map[])

  // ---------- hydration ----------

  function HydrateFragment(f: Fragment): Hydration {
    Hydration(if f.summary != "" then f.summary else if |f.text| <= 80 then f.text else f.text[..80],
              map["fragment_type" := Str(f.kind)])
  }

  function HydrateIssue(lib: Lib, i: Issue): Hydration {
    Hydration(Show(lib, i.Get(Title)), map["state_id" := Str(Show(lib, i.Get(StateId))), "priority" := i.Get(Priority)])
  }

  function HydrateProject(p: Project): Hydration {
    Hydration(p.name, map["state" := Str(p.state)])
  }

  function HydrateSession(s: SessionRow): Hydration {
    Hydration(s.kind + " session", map["state" := Str(s.state), "type" := Str(s.kind)])
  }

  /** The target of one link, looked up by itself. */
  function LookUp(lib: Lib, e: Entities, kind: TargetType, id: Id): Option<Hydration> {
    match kind
    case ToFragment => if id in e.fragments then Some(HydrateFragment(e.fragments[id])) else None
    case ToIssue => if id in e.issues then Some(HydrateIssue(lib, e.issues[id])) else None
    case ToProject => if id in e.projects then Some(HydrateProject(e.projects[id])) else None
    case ToSession => if id in e.sessions then Some(HydrateSession(e.sessions[id])) else None
  }

  function Shown(lib: Lib, e: Entities, l: Link): Hydration {
    match LookUp(lib, e, l.kind, l.target)
    case Some(h) => h
    case None => DELETED
  }

  /** The target's own table has a row of this id. */
  predicate TargetExists(e: Entities, kind: TargetType, id: Id) {
    match kind
    case ToFragment => id in e.fragments
    case ToIssue => id in e.issues
    case ToProject => id in e.projects
    case ToSession => id in e.sessions
  }

  /** A link shows `(deleted)` exactly when its target is not in its own table, and otherwise what identifies the
      target: a fragment's summary or the start of its text, an issue's title, a project's name, a session's type. */
  lemma DeletedIsShownExactly(lib: Lib, e: Entities, l: Link)
    ensures Shown(lib, e, l) == DELETED <==> !TargetExists(e, l.kind, l.target)
    ensures l.kind == ToIssue && l.target in e.issues ==>
      var i, h := e.issues[l.target], Shown(lib, e, l);
      && (i.Get(Title).Str? ==> Str(h.summary) == i.Get(Title))
      && "priority" in h.detail && h.detail["priority"] == i.Get(Priority)
      && "state_id" in h.detail && h.detail["state_id"] == Str(Show(lib, i.Get(StateId)))
    ensures l.kind == ToProject && l.target in e.projects ==>
      Shown(lib, e, l) == Hydration(e.projects[l.target].name, map["state" := Str(e.projects[l.target].state)])
    ensures l.kind == ToFragment && l.target in e.fragments ==>
      var f, h := e.fragments[l.target], Shown(lib, e, l);
      && (f.summary != "" ==> h.summary == f.summary)
      && (f.summary == "" ==> h.summary <= f.text && |h.summary| == if |f.text| < 80 then |f.text| else 80)
      && "fragment_type" in h.detail && h.detail["fragment_type"] == Str(f.kind)
    ensures l.kind == ToSession && l.target in e.sessions ==>
      var s, h := e.sessions[l.target], Shown(lib, e, l);
      && h.summary == s.kind + " session" && "state" in h.detail && h.detail["state"] == Str(s.state)
      && "type" in h.detail && h.detail["type"] == Str(s.kind)
  {
    assert "state_id" !in DELETED.detail && "state" !in DELETED.detail && "fragment_type" !in DELETED.detail;
    assert "state_id"[0] == 's' && "priority"[0] == 'p' && "state"[0] == 's' && "type"[0] == 't';
  }

  /** `select(model).where(model.id.in_(ids))`, keyed by id and hydrated. */
  function SelectIn(lib: Lib, e: Entities, kind: TargetType, ids: seq<Id>): map<Id, Hydration> {
    map id | id in ids && LookUp(lib, e, kind, id).Some? :: LookUp(lib, e, kind, id).value
  }

  /** The list can hold a row twice, but not two rows with one id. */
  ghost predicate RowsById(links: seq<Link>) {
    forall i, j :: 0 <= i < |links| && 0 <= j < |links| && links[i].id == links[j].id ==> links[i] == links[j]
  }

  /** `grouped.setdefault(link.target_type, []).append(link)` over all links. */
  method Group(links: seq<Link>) returns (grouped: map<TargetType, seq<Link>>)
    ensures forall l :: l in links ==> l.kind in grouped && l in grouped[l.kind]
    ensures forall t, l :: t in grouped && l in grouped[t] ==> l in links && l.kind == t
  {
    grouped := map[];
    for i := 0 to |links|
      invariant forall l :: l in links[..i] ==> l.kind in grouped && l in grouped[l.kind]
      invariant forall t, l :: t in grouped && l in grouped[t] ==> l in links[..i] && l.kind == t
    {
      var l := links[i];
      assert links[..i + 1] == links[..i] + [l];
      grouped := grouped[l.kind := (if l.kind in grouped then grouped[l.kind] else []) + [l]];
    }
    assert links[..|links|] == links;
  }

  /** The dictionary of one group's existing targets, added to what the earlier groups gave. */
  method HydrateGroup(lib: Lib, e: Entities, kind: TargetType, group: seq<Link>, before: map<Id, Hydration>)
    returns (hydrated: map<Id, Hydration>)
    requires RowsById(group) && forall l :: l in group ==> l.kind == kind
    ensures forall l :: l in group ==>
      if LookUp(lib, e, l.kind, l.target).Some?
      then l.id in hydrated && hydrated[l.id] == LookUp(lib, e, l.kind, l.target).value
      else l.id in hydrated <==> l.id in before
    ensures forall id :: (forall l :: l in group ==> l.id != id) ==>
      (id in hydrated <==> id in before) && (id in before ==> hydrated[id] == before[id])
  {
    hide LookUp;
    var entities := SelectIn(lib, e, kind, seq(|group|, k requires 0 <= k < |group| => group[k].target));
    hydrated := before;
    for i := 0 to |group|
      invariant forall k :: 0 <= k < i ==>
        if LookUp(lib, e, kind, group[k].target).Some?
        then group[k].id in hydrated && hydrated[group[k].id] == LookUp(lib, e, kind, group[k].target).value
        else group[k].id in hydrated <==> group[k].id in before
      invariant forall id :: (forall k :: 0 <= k < i ==> group[k].id != id) ==>
        (id in hydrated <==> id in before) && (id in before ==> hydrated[id] == before[id])
    {
      var l := group[i];
      assert l.target in seq(|group|, k requires 0 <= k < |group| => group[k].target) by {
        assert seq(|group|, k requires 0 <= k < |group| => group[k].target)[i] == l.target;
      }
      if l.target in entities {
        hydrated := hydrated[l.id := entities[l.target]];
      }
    }
  }

  /** `_hydrate_links`: grouped by target type, one query a group, answered in the original order. It gives what
      looking each link up by itself would give. */
  method HydrateLinks(lib: Lib, e: Entities, links: seq<Link>, directions: map<Id, Direction>)
    returns (responses: seq<Response>)
    requires RowsById(links) && forall l :: l in links ==> l.id in directions
    ensures |responses| == |links|
    ensures forall k :: 0 <= k < |links| ==>
      responses[k] == Response(links[k].id, directions[links[k].id], links[k].kind, links[k].target,
        Shown(lib, e, links[k]))
  {
    hide LookUp;
    var grouped := Group(links);
    var hydrated: map<Id, Hydration> := map[];
    var todo := grouped.Keys;
    while todo != {}
      invariant todo <= grouped.Keys
      invariant forall l :: l in links && l.kind !in todo ==>
        if LookUp(lib, e, l.kind, l.target).Some?
        then l.id in hydrated && hydrated[l.id] == LookUp(lib, e, l.kind, l.target).value
        else l.id !in hydrated
      invariant forall l :: l in links && l.kind in todo ==> l.id !in hydrated
    {
      var kind :| kind in todo;
      var group := grouped[kind];
      GroupHasRowsById(links, group);
      hydrated := HydrateGroup(lib, e, kind, group, hydrated);
      todo := todo - {kind};
    }
    responses := [];
    for i := 0 to |links|
      invariant |responses| == i
      invariant forall k :: 0 <= k < i ==>
        responses[k] == Response(links[k].id, directions[links[k].id], links[k].kind, links[k].target,
          Shown(lib, e, links[k]))
    {
      var l := links[i];
      var shown := if l.id in hydrated then hydrated[l.id] else DELETED;
      responses := responses + [Response(l.id, directions[l.id], l.kind, l.target, shown)];
    }
  }

  lemma GroupHasRowsById(links: seq<Link>, group: seq<Link>)
    requires RowsById(links) && forall l :: l in group ==> l in links
    ensures RowsById(group)
  {
    forall i, j | 0 <= i < |group| && 0 <= j < |group| && group[i].id == group[j].id ensures group[i] == group[j] {
      assert group[i] in links && group[j] in links;
      var a :| 0 <= a < |links| && links[a] == group[i];
      var b :| 0 <= b < |links| && links[b] == group[j];
    }
  }

  // ---------- both directions ----------

  function OutgoingOf(table: seq<Link>, f: Id, filter: Option<TargetType>): seq<Link> {
    if table == [] then [] else
      (if table[0].fragment == f && (filter.Some? ==> table[0].kind == filter.value) then [table[0]] else [])
      + OutgoingOf(table[1..], f, filter)
  }

  predicate PointsTo(l: Link, f: Id) {
    l.kind == ToFragment && l.target == f
  }

  function IncomingOf(table: seq<Link>, f: Id): seq<Link> {
    if table == [] then [] else (if PointsTo(table[0], f) then [table[0]] else []) + IncomingOf(table[1..], f)
  }

  /** An incoming link shown from the other end. */
  function Turned(l: Link): Link {
    l.(kind := ToFragment, target := l.fragment)
  }

  function TurnAll(links: seq<Link>): (turned: seq<Link>)
    ensures |turned| == |links| && forall k :: 0 <= k < |links| ==> turned[k] == Turned(links[k])
  {
    if links == [] then [] else [Turned(links[0])] + TurnAll(links[1..])
  }

  /** What `get_links` lists: the outgoing links, then the incoming ones turned around. The direction of an id
      is the one written last, so a self-link reads as incoming in both places. */
  function Listed(table: seq<Link>, f: Id, filter: Option<TargetType>): seq<(Link, Direction)> {
    var incoming := ShownIncoming(table, f, filter);
    var out := OutgoingOf(table, f, filter);
    seq(|out|, k requires 0 <= k < |out| => (out[k], if HasId(incoming, out[k].id) then Incoming else Outgoing))
    + seq(|incoming|, k requires 0 <= k < |incoming| => (Turned(incoming[k]), Incoming))
  }

  lemma {:induction false} OutgoingAreRows(table: seq<Link>, f: Id, filter: Option<TargetType>, l: Link)
    ensures l in OutgoingOf(table, f, filter)
      <==> l in table && l.fragment == f && (filter.Some? ==> l.kind == filter.value)
  {
    if table != [] {
      OutgoingAreRows(table[1..], f, filter, l);
    }
  }

  lemma {:induction false} IncomingAreRows(table: seq<Link>, f: Id, l: Link)
    ensures l in IncomingOf(table, f) <==> l in table && PointsTo(l, f)
  {
    if table != [] {
      IncomingAreRows(table[1..], f, l);
    }
  }

  /** The table's primary key. */
  ghost predicate KeyedById(table: seq<Link>) {
    forall i, j :: 0 <= i < j < |table| ==> table[i].id != table[j].id
  }

  lemma SameIdSameRow(table: seq<Link>, a: Link, b: Link)
    requires KeyedById(table) && a in table && b in table && a.id == b.id
    ensures a == b
  {
    var i :| 0 <= i < |table| && table[i] == a;
    var j :| 0 <= j < |table| && table[j] == b;
  }

  /** A listed link is a row of the table, turned around if it points to f. */
  lemma ListedRow(table: seq<Link>, f: Id, filter: Option<TargetType>, incoming: seq<Link>, i: nat) returns (row: Link)
    requires incoming == [] || incoming == IncomingOf(table, f)
    requires i < |OutgoingOf(table, f, filter) + TurnAll(incoming)|
    ensures row in table
    ensures (OutgoingOf(table, f, filter) + TurnAll(incoming))[i] == if PointsTo(row, f) then Turned(row) else row
  {
    hide OutgoingOf, IncomingOf;
    var out := OutgoingOf(table, f, filter);
    row := if i < |out| then out[i] else incoming[i - |out|];
    OutgoingAreRows(table, f, filter, row);
    IncomingAreRows(table, f, row);
  }

  lemma ListedRowsById(table: seq<Link>, f: Id, filter: Option<TargetType>, incoming: seq<Link>)
    requires KeyedById(table) && (incoming == [] || incoming == IncomingOf(table, f))
    ensures RowsById(OutgoingOf(table, f, filter) + TurnAll(incoming))
  {
    hide OutgoingOf, IncomingOf, KeyedById;
    var all := OutgoingOf(table, f, filter) + TurnAll(incoming);
    forall i, j | 0 <= i < |all| && 0 <= j < |all| && all[i].id == all[j].id ensures all[i] == all[j] {
      var a := ListedRow(table, f, filter, incoming, i);
      var b := ListedRow(table, f, filter, incoming, j);
      SameIdSameRow(table, a, b);
    }
  }

  datatype LinkRefusal = SourceNotFound | Forbidden | TargetNotFound | AlreadyExists | LinkNotFound

  function SourceProblem(e: Entities, f: Id, team: Id): Option<LinkRefusal> {
    if f !in e.fragments then Some(SourceNotFound)
    else if e.fragments[f].team != team then Some(Forbidden)
    else None
  }

  predicate HasId(links: seq<Link>, id: Id) {
    exists k :: 0 <= k < |links| && links[k].id == id
  }

  /** Only the fragment's own team may use it. */
  lemma SourceRefusedExactly(e: Entities, f: Id, team: Id)
    ensures SourceProblem(e, f, team) == Some(SourceNotFound) <==> f !in e.fragments
    ensures SourceProblem(e, f, team) == None <==> f in e.fragments && e.fragments[f].team == team
    ensures SourceProblem(e, f, team).Some? ==> SourceProblem(e, f, team).value in {SourceNotFound, Forbidden}
  {
  }

  /** The direction written for each link: outgoing first, then incoming over it. */
  method Directions(out: seq<Link>, incoming: seq<Link>) returns (directions: map<Id, Direction>)
    ensures DirectionsOf(directions, out, incoming)
  {
    directions := map[];
    for i := 0 to |out|
      invariant forall id :: id in directions <==> HasId(out[..i], id)
      invariant forall id :: id in directions ==> directions[id] == Outgoing
    {
      HasIdSnoc(out, i);
      directions := directions[out[i].id := Outgoing];
    }
    assert out[..|out|] == out && !exists id :: HasId(incoming[..0], id);
    for i := 0 to |incoming|
      invariant forall id :: id in directions <==> HasId(out, id) || HasId(incoming[..i], id)
      invariant forall id :: id in directions ==>
        directions[id] == if HasId(incoming[..i], id) then Incoming else Outgoing
    {
      HasIdSnoc(incoming, i);
      directions := directions[incoming[i].id := Incoming];
    }
    assert incoming[..|incoming|] == incoming;
  }

  lemma HasIdSnoc(links: seq<Link>, i: nat)
    requires i < |links|
    ensures forall id :: HasId(links[..i + 1], id) <==> HasId(links[..i], id) || id == links[i].id
  {
    forall id ensures HasId(links[..i + 1], id) <==> HasId(links[..i], id) || id == links[i].id {
      assert links[..i + 1][i] == links[i];
      assert forall k :: 0 <= k < i ==> links[..i + 1][k] == links[..i][k];
    }
  }

  /** The unique constraint on (fragment, target type, target). */
  predicate NoDoubles(table: seq<Link>) {
    forall i, j :: 0 <= i < j < |table| ==>
      !(table[i].fragment == table[j].fragment && table[i].kind == table[j].kind && table[i].target == table[j].target)
  }

  /** Whether the incoming links are looked up at all. */
  predicate ShowsIncoming(filter: Option<TargetType>) {
    filter.Some? ==> filter.value == ToFragment
  }

  /** The table with the incoming links turned around, which the first query of the hydration flushes. */
  function Flushed(table: seq<Link>, f: Id): (flushed: seq<Link>)
    ensures |flushed| == |table|
    ensures forall k :: 0 <= k < |table| ==> flushed[k] == if PointsTo(table[k], f) then Turned(table[k]) else table[k]
  {
    if table == [] then [] else [if PointsTo(table[0], f) then Turned(table[0]) else table[0]] + Flushed(table[1..], f)
  }

  /** Some other fragment that links to f also links to itself. */
  predicate SourceHasSelfLink(table: seq<Link>, f: Id) {
    exists i, j :: 0 <= i < |table| && 0 <= j < |table| && PointsTo(table[i], f) && table[i].fragment != f
      && table[j].fragment == table[i].fragment && PointsTo(table[j], table[j].fragment)
  }

  /** The flush violates the unique constraint exactly when the source of an incoming link, other than f itself, links
      to itself: the turned link takes the self-link's place. */
  lemma FlushFailsExactly(table: seq<Link>, f: Id)
    requires NoDoubles(table)
    ensures NoDoubles(Flushed(table, f)) <==> !SourceHasSelfLink(table, f)
  {
    var flushed := Flushed(table, f);
    if SourceHasSelfLink(table, f) {
      var i, j :| 0 <= i < |table| && 0 <= j < |table| && PointsTo(table[i], f) && table[i].fragment != f
        && table[j].fragment == table[i].fragment && PointsTo(table[j], table[j].fragment);
      assert flushed[i] == Turned(table[i]) && flushed[j] == table[j];
      assert i < j || j < i;
    } else {
      forall i, j | 0 <= i < j < |table|
        ensures !(flushed[i].fragment == flushed[j].fragment && flushed[i].kind == flushed[j].kind
                  && flushed[i].target == flushed[j].target)
      {
        assert flushed[i].fragment == table[i].fragment && flushed[j].fragment == table[j].fragment;
      }
    }
  }

  datatype Answer = Refused(why: LinkRefusal) | Crashed | Answered(responses: seq<Response>)

  /** `get_links`: refused, or failing in its own flush, or answered with the listing. */
  method GetLinks(lib: Lib, e: Entities, table: seq<Link>, f: Id, team: Id, filter: Option<TargetType>)
    returns (answer: Answer)
    requires KeyedById(table) && NoDoubles(table)
    ensures answer.Refused? <==> SourceProblem(e, f, team).Some?
    ensures answer.Refused? ==> SourceProblem(e, f, team) == Some(answer.why)
    ensures answer.Crashed? <==> SourceProblem(e, f, team).None? && ShowsIncoming(filter) && SourceHasSelfLink(table, f)
    ensures answer.Answered? ==> var listed := Listed(table, f, filter);
      && |answer.responses| == |listed|
      && forall k :: 0 <= k < |listed| ==>
           answer.responses[k] == Response(listed[k].0.id, listed[k].1, listed[k].0.kind, listed[k].0.target,
             Shown(lib, e, listed[k].0))
  {
    hide Shown, OutgoingOf, IncomingOf, HasId, DirectionsOf, NoDoubles, SourceHasSelfLink, Flushed;
    var problem := SourceProblem(e, f, team);
    if problem.Some? {
      return Refused(problem.value);
    }
    var out := OutgoingOf(table, f, filter);
    var incoming := ShownIncoming(table, f, filter);
    var directions := Directions(out, incoming);
    var turned: seq<Link> := [];
    for i := 0 to |incoming|
      invariant turned == TurnAll(incoming[..i])
    {
      TurnSnoc(incoming, i);
      turned := turned + [Turned(incoming[i])];
    }
    assert incoming[..|incoming|] == incoming;
    FlushFailsExactly(table, f);
    if ShowsIncoming(filter) && !NoDoubles(Flushed(table, f)) {
      return Crashed;
    }
    ListedRowsById(table, f, filter, incoming);
    EveryLinkHasADirection(table, f, filter, directions);
    var responses := HydrateLinks(lib, e, out + turned, directions);
    answer := Answered(responses);
  }

  /** The dictionary of directions that the two loops leave. */
  ghost predicate DirectionsOf(directions: map<Id, Direction>, out: seq<Link>, incoming: seq<Link>) {
    && (forall id :: id in directions <==> HasId(out, id) || HasId(incoming, id))
    && (forall id :: id in directions ==> directions[id] == if HasId(incoming, id) then Incoming else Outgoing)
  }

  lemma DirectionOfOutgoing(out: seq<Link>, incoming: seq<Link>, directions: map<Id, Direction>, k: nat)
    requires DirectionsOf(directions, out, incoming) && k < |out|
    ensures out[k].id in directions
    ensures directions[out[k].id] == if HasId(incoming, out[k].id) then Incoming else Outgoing
  {
    assert HasId(out, out[k].id);
    hide HasId;
  }

  lemma DirectionOfIncoming(out: seq<Link>, incoming: seq<Link>, directions: map<Id, Direction>, k: nat)
    requires DirectionsOf(directions, out, incoming) && k < |incoming|
    ensures incoming[k].id in directions && directions[incoming[k].id] == Incoming
  {
    assert HasId(incoming, incoming[k].id);
    hide HasId;
  }

  function ShownIncoming(table: seq<Link>, f: Id, filter: Option<TargetType>): seq<Link> {
    if ShowsIncoming(filter) then IncomingOf(table, f) else []
  }

  lemma ListedAt(table: seq<Link>, f: Id, filter: Option<TargetType>, k: nat)
    ensures var out, incoming, listed := OutgoingOf(table, f, filter), ShownIncoming(table, f, filter),
      Listed(table, f, filter);
      && |listed| == |out| + |incoming|
      && (k < |out| ==> listed[k] == (out[k], if HasId(incoming, out[k].id) then Incoming else Outgoing))
      && (|out| <= k < |listed| ==> listed[k] == (Turned(incoming[k - |out|]), Incoming))
  {
    hide OutgoingOf, IncomingOf, HasId;
  }

  lemma DirectionAt(table: seq<Link>, f: Id, filter: Option<TargetType>, directions: map<Id, Direction>, k: nat)
    requires DirectionsOf(directions, OutgoingOf(table, f, filter), ShownIncoming(table, f, filter))
    requires k < |Listed(table, f, filter)|
    ensures var out, incoming := OutgoingOf(table, f, filter), ShownIncoming(table, f, filter);
      var all := out + TurnAll(incoming);
      && |all| == |Listed(table, f, filter)|
      && all[k].id in directions && Listed(table, f, filter)[k] == (all[k], directions[all[k].id])
  {
    hide OutgoingOf, ShownIncoming, HasId, DirectionsOf, Listed;
    var out, incoming := OutgoingOf(table, f, filter), ShownIncoming(table, f, filter);
    ListedAt(table, f, filter, k);
    if k < |out| {
      DirectionOfOutgoing(out, incoming, directions, k);
    } else {
      DirectionOfIncoming(out, incoming, directions, k - |out|);
      assert TurnAll(incoming)[k - |out|] == Turned(incoming[k - |out|]);
    }
  }

  lemma EveryLinkHasADirection(table: seq<Link>, f: Id, filter: Option<TargetType>, directions: map<Id, Direction>)
    requires DirectionsOf(directions, OutgoingOf(table, f, filter), ShownIncoming(table, f, filter))
    ensures var all, listed := OutgoingOf(table, f, filter) + TurnAll(ShownIncoming(table, f, filter)),
      Listed(table, f, filter);
      && |all| == |listed|
      && (forall l :: l in all ==> l.id in directions)
      && (forall k :: 0 <= k < |all| ==> all[k].id in directions && listed[k] == (all[k], directions[all[k].id]))
  {
    hide OutgoingOf, ShownIncoming, DirectionsOf, TurnAll, HasId, Listed;
    ListedAt(table, f, filter, 0);
    var all := OutgoingOf(table, f, filter) + TurnAll(ShownIncoming(table, f, filter));
    forall k | 0 <= k < |all|
      ensures all[k].id in directions && Listed(table, f, filter)[k] == (all[k], directions[all[k].id])
    {
      DirectionAt(table, f, filter, directions, k);
    }
  }

  lemma TurnSnoc(links: seq<Link>, i: nat)
    requires i < |links|
    ensures TurnAll(links[..i + 1]) == TurnAll(links[..i]) + [Turned(links[i])]
  {
    var a, b := TurnAll(links[..i + 1]), TurnAll(links[..i]) + [Turned(links[i])];
    assert |a| == |b| && forall k :: 0 <= k < |a| ==> a[k] == b[k];
  }

  // ---------- what the listing shows ----------

  function CountId(listed: seq<(Link, Direction)>, id: Id): nat {
    if listed == [] then 0 else (if listed[0].0.id == id then 1 else 0) + CountId(listed[1..], id)
  }

  function CountLinks(links: seq<Link>, id: Id): nat {
    if links == [] then 0 else (if links[0].id == id then 1 else 0) + CountLinks(links[1..], id)
  }

  lemma {:induction false} CountOfListed(out: seq<(Link, Direction)>, links: seq<Link>, id: Id)
    requires |out| == |links| && forall k :: 0 <= k < |out| ==> out[k].0.id == links[k].id
    ensures CountId(out, id) == CountLinks(links, id)
  {
    if out != [] {
      CountOfListed(out[1..], links[1..], id);
    }
  }

  lemma {:induction false} CountConcat(a: seq<(Link, Direction)>, b: seq<(Link, Direction)>, id: Id)
    ensures CountId(a + b, id) == CountId(a, id) + CountId(b, id)
  {
    if a == [] {
      assert a + b == b;
    } else {
      assert (a + b)[0] == a[0] && (a + b)[1..] == a[1..] + b;
      CountConcat(a[1..], b, id);
    }
  }

  /** The row is one that the filter selects among the outgoing links of f. */
  predicate IsOutgoing(l: Link, f: Id, filter: Option<TargetType>) {
    l.fragment == f && (filter.None? || filter == Some(l.kind))
  }

  lemma {:induction false} CountOfSelected(table: seq<Link>, f: Id, filter: Option<TargetType>, at: nat)
    requires KeyedById(table) && at < |table|
    ensures CountLinks(OutgoingOf(table, f, filter), table[at].id) == if IsOutgoing(table[at], f, filter) then 1 else 0
    ensures CountLinks(IncomingOf(table, f), table[at].id) == if PointsTo(table[at], f) then 1 else 0
  {
    SplitHead(table, f, filter, table[at].id);
    if at == 0 {
      NoSuchId(table[1..], f, filter, table[0].id);
    } else {
      CountOfSelected(table[1..], f, filter, at - 1);
    }
  }

  lemma {:induction false} NoSuchId(table: seq<Link>, f: Id, filter: Option<TargetType>, id: Id)
    requires forall k :: 0 <= k < |table| ==> table[k].id != id
    ensures CountLinks(OutgoingOf(table, f, filter), id) == 0 && CountLinks(IncomingOf(table, f), id) == 0
  {
    if table != [] {
      SplitHead(table, f, filter, id);
      NoSuchId(table[1..], f, filter, id);
    }
  }

  lemma SplitHead(table: seq<Link>, f: Id, filter: Option<TargetType>, id: Id)
    requires table != []
    ensures CountLinks(OutgoingOf(table, f, filter), id)
      == (if IsOutgoing(table[0], f, filter) && table[0].id == id then 1 else 0)
        + CountLinks(OutgoingOf(table[1..], f, filter), id)
    ensures CountLinks(IncomingOf(table, f), id)
      == (if PointsTo(table[0], f) && table[0].id == id then 1 else 0) + CountLinks(IncomingOf(table[1..], f), id)
  {
    var out, incoming := OutgoingOf(table[1..], f, filter), IncomingOf(table[1..], f);
    assert [] + out == out && ([table[0]] + out)[1..] == out;
    assert [] + incoming == incoming && ([table[0]] + incoming)[1..] == incoming;
  }

  /** A listing shows a link as outgoing from its own fragment, if the filter is absent or names its type, and as
      incoming at a fragment it points to, if the filter is absent or names fragments. */
  lemma FilterSelects(table: seq<Link>, f: Id, filter: Option<TargetType>, at: nat)
    requires KeyedById(table) && at < |table|
    ensures var l := table[at];
      CountId(Listed(table, f, filter), l.id)
      == (if l.fragment == f && (filter == None || filter == Some(l.kind)) then 1 else 0)
         + (if l.kind == ToFragment && l.target == f && (filter == None || filter == Some(ToFragment)) then 1 else 0)
  {
    var out, incoming, id := OutgoingOf(table, f, filter), ShownIncoming(table, f, filter), table[at].id;
    var a := seq(|out|, k requires 0 <= k < |out| =>
      (out[k], if HasId(incoming, out[k].id) then Incoming else Outgoing));
    var b := seq(|incoming|, k requires 0 <= k < |incoming| => (Turned(incoming[k]), Incoming));
    CountConcat(a, b, id);
    CountOfListed(a, out, id);
    CountOfListed(b, incoming, id);
    CountOfSelected(table, f, filter, at);
    hide OutgoingOf, IncomingOf;
  }

  /** The unfiltered listing of f, None when the request fails in its flush. */
  function Listing(table: seq<Link>, f: Id): Option<seq<(Link, Direction)>> {
    if NoDoubles(Flushed(table, f)) then Some(Listed(table, f, None)) else None
  }

  /** The listing of f fails exactly when a fragment that links to f, other than f, links to itself. Otherwise it
      shows a link once for each of its ends at f: exactly once when it is incident and not a self-link, twice when it
      is a self-link of f, never otherwise. */
  lemma EachEndIsListedOnce(table: seq<Link>, f: Id, at: nat)
    requires KeyedById(table) && NoDoubles(table) && at < |table|
    ensures Listing(table, f).None? <==> SourceHasSelfLink(table, f)
    ensures Listing(table, f).Some? ==>
      CountId(Listing(table, f).value, table[at].id)
      == (if table[at].fragment == f then 1 else 0) + (if PointsTo(table[at], f) then 1 else 0)
  {
    hide NoDoubles, SourceHasSelfLink, Listed;
    FlushFailsExactly(table, f);
    FilterSelects(table, f, None, at);
  }

  /** Two links that `create_link` accepts, A to itself and A to B, after which B's links cannot be listed. */
  lemma SelfLinkBreaksTheTargetsListing(a: Id, b: Id)
    requires a != b
    ensures var table := [Link(0, a, ToFragment, a), Link(1, a, ToFragment, b)];
      KeyedById(table) && NoDoubles(table) && Listing(table, b).None? && Listing(table, a).Some?
  {
    var table := [Link(0, a, ToFragment, a), Link(1, a, ToFragment, b)];
    FlushFailsExactly(table, a);
    FlushFailsExactly(table, b);
    assert PointsTo(table[1], b) && PointsTo(table[0], a);
    hide Flushed;
  }

  lemma WithoutSelfLinksListingsSucceed(table: seq<Link>, f: Id)
    requires NoDoubles(table) && forall k :: 0 <= k < |table| ==> !PointsTo(table[k], table[k].fragment)
    ensures Listing(table, f).Some?
  {
    FlushFailsExactly(table, f);
    hide Flushed;
  }

  /** The listing of f shows g, as a fragment, in the given direction through the link of this id. */
  ghost predicate Lists(table: seq<Link>, f: Id, g: Id, id: Id, d: Direction) {
    Shows(Some(Listed(table, f, None)), g, id, d)
  }

  ghost predicate Shows(listing: Option<seq<(Link, Direction)>>, g: Id, id: Id, d: Direction) {
    && listing.Some?
    && exists k :: 0 <= k < |listing.value| && IsEnd(listing.value[k].0, g, id) && listing.value[k].1 == d
  }

  predicate IsEnd(l: Link, g: Id, id: Id) {
    l.id == id && l.kind == ToFragment && l.target == g
  }

  /** There is a link of this id from f to the fragment g. */
  ghost predicate HasLink(table: seq<Link>, f: Id, g: Id, id: Id) {
    exists l :: l in table && l.id == id && l.fragment == f && PointsTo(l, g)
  }

  lemma OutgoingEntryIsALink(table: seq<Link>, f: Id, g: Id, id: Id, k: nat)
    requires k < |Listed(table, f, None)| && IsEnd(Listed(table, f, None)[k].0, g, id)
    requires Listed(table, f, None)[k].1 == Outgoing
    ensures HasLink(table, f, g, id)
  {
    hide OutgoingOf, IncomingOf, HasId, Listed;
    ListedAt(table, f, None, k);
    var l := OutgoingOf(table, f, None)[k];
    OutgoingAreRows(table, f, None, l);
  }

  lemma LinkIsAnOutgoingEntry(table: seq<Link>, f: Id, g: Id, l: Link) returns (k: nat)
    requires KeyedById(table) && f != g && l in table && l.fragment == f && PointsTo(l, g)
    ensures k < |Listed(table, f, None)| && Listed(table, f, None)[k] == (l, Outgoing)
  {
    hide OutgoingOf, IncomingOf, Listed, KeyedById;
    OutgoingAreRows(table, f, None, l);
    var out, incoming := OutgoingOf(table, f, None), IncomingOf(table, f);
    k :| 0 <= k < |out| && out[k] == l;
    forall i | 0 <= i < |incoming| ensures incoming[i].id != l.id {
      IncomingAreRows(table, f, incoming[i]);
      if incoming[i].id == l.id {
        SameIdSameRow(table, incoming[i], l);
      }
    }
    ListedAt(table, f, None, k);
  }

  lemma IncomingEntryIsALink(table: seq<Link>, f: Id, g: Id, id: Id, k: nat)
    requires KeyedById(table) && f != g
    requires k < |Listed(table, g, None)| && IsEnd(Listed(table, g, None)[k].0, f, id)
    requires Listed(table, g, None)[k].1 == Incoming
    ensures HasLink(table, f, g, id)
  {
    hide OutgoingOf, IncomingOf, Listed, KeyedById;
    ListedAt(table, g, None, k);
    var out, incoming := OutgoingOf(table, g, None), IncomingOf(table, g);
    if k < |out| {
      OutgoingAreRows(table, g, None, out[k]);
      var i :| 0 <= i < |incoming| && incoming[i].id == out[k].id;
      IncomingAreRows(table, g, incoming[i]);
      SameIdSameRow(table, incoming[i], out[k]);
    } else {
      IncomingAreRows(table, g, incoming[k - |out|]);
    }
  }

  lemma LinkIsAnIncomingEntry(table: seq<Link>, g: Id, l: Link) returns (k: nat)
    requires l in table && PointsTo(l, g)
    ensures k < |Listed(table, g, None)| && Listed(table, g, None)[k] == (Turned(l), Incoming)
  {
    hide OutgoingOf, IncomingOf, Listed, HasId;
    IncomingAreRows(table, g, l);
    var out, incoming := OutgoingOf(table, g, None), IncomingOf(table, g);
    var at :| 0 <= at < |incoming| && incoming[at] == l;
    k := |out| + at;
    ListedAt(table, g, None, k);
  }

  lemma ListsOutgoing(table: seq<Link>, f: Id, g: Id, id: Id)
    requires KeyedById(table) && f != g
    ensures Lists(table, f, g, id, Outgoing) <==> HasLink(table, f, g, id)
  {
    hide Listed, KeyedById;
    if Lists(table, f, g, id, Outgoing) {
      var listed := Listed(table, f, None);
      var k :| 0 <= k < |listed| && IsEnd(listed[k].0, g, id) && listed[k].1 == Outgoing;
      OutgoingEntryIsALink(table, f, g, id, k);
    }
    if l :| l in table && l.id == id && l.fragment == f && PointsTo(l, g) {
      var k := LinkIsAnOutgoingEntry(table, f, g, l);
      assert IsEnd(Listed(table, f, None)[k].0, g, id);
    }
  }

  lemma ListsIncoming(table: seq<Link>, f: Id, g: Id, id: Id)
    requires KeyedById(table) && f != g
    ensures Lists(table, g, f, id, Incoming) <==> HasLink(table, f, g, id)
  {
    hide Listed, KeyedById;
    if Lists(table, g, f, id, Incoming) {
      var listed := Listed(table, g, None);
      var k :| 0 <= k < |listed| && IsEnd(listed[k].0, f, id) && listed[k].1 == Incoming;
      IncomingEntryIsALink(table, f, g, id, k);
    }
    if l :| l in table && l.id == id && l.fragment == f && PointsTo(l, g) {
      var k := LinkIsAnIncomingEntry(table, g, l);
      assert IsEnd(Listed(table, g, None)[k].0, f, id);
    }
  }

  /** Two different fragments whose listings are answered see the same link: one lists the other as outgoing exactly
      when the other lists it as incoming by the same link id. */
  lemma DirectionsAgree(table: seq<Link>, f: Id, g: Id, id: Id)
    requires KeyedById(table) && NoDoubles(table) && f != g
    ensures Listing(table, f).Some? && Listing(table, g).Some? ==>
      (Shows(Listing(table, f), g, id, Outgoing) <==> Shows(Listing(table, g), f, id, Incoming))
    ensures Shows(Listing(table, f), g, id, Outgoing) ==>
      (Shows(Listing(table, g), f, id, Incoming) <==> !SourceHasSelfLink(table, g))
  {
    ListsOutgoing(table, f, g, id);
    ListsIncoming(table, f, g, id);
    FlushFailsExactly(table, g);
    hide Listed, NoDoubles, SourceHasSelfLink, KeyedById, HasLink;
  }

  // ---------- the table ----------

  predicate HasTwin(table: seq<Link>, f: Id, kind: TargetType, target: Id) {
    exists k :: 0 <= k < |table| && table[k].fragment == f && table[k].kind == kind && table[k].target == target
  }

  class LinkTable {
    var links: seq<Link>
    var nextId: Id

    ghost predicate Valid()
      reads this
    {
      KeyedById(links) && NoDoubles(links) && forall k :: 0 <= k < |links| ==> links[k].id < nextId
    }

    constructor ()
      ensures Valid() && links == []
    {
      links, nextId := [], 0;
    }

    /** `create_link`: the target must exist, in whatever team, and the pair must be new. */
    method CreateLink(lib: Lib, e: Entities, f: Id, kind: TargetType, target: Id, team: Id)
      returns (refused: Option<LinkRefusal>)
      requires Valid()
      modifies this
      ensures Valid()
      ensures var twin := exists l :: l in old(links) && l.fragment == f && l.kind == kind && l.target == target;
        refused == (if SourceProblem(e, f, team).Some? then SourceProblem(e, f, team)
                    else if !TargetExists(e, kind, target) then Some(TargetNotFound)
                    else if twin then Some(AlreadyExists) else None)
      ensures links == if refused.Some? then old(links) else old(links) + [Link(old(nextId), f, kind, target)]
    {
      refused := SourceProblem(e, f, team);
      if refused.Some? {
        return;
      }
      if LookUp(lib, e, kind, target).None? {
        return Some(TargetNotFound);
      }
      if HasTwin(links, f, kind, target) {
        return Some(AlreadyExists);
      }
      links, nextId := links + [Link(nextId, f, kind, target)], nextId + 1;
    }

    /** `delete_link`: only through its own source fragment. */
    method DeleteLink(e: Entities, f: Id, id: Id, team: Id) returns (refused: Option<LinkRefusal>)
      requires Valid()
      modifies this`links
      ensures Valid()
      ensures refused.None? ==>
        (exists k :: 0 <= k < |old(links)| && old(links)[k].id == id && old(links)[k].fragment == f
          && links == old(links)[..k] + old(links)[k + 1..])
      ensures refused.Some? ==> links == old(links)
      ensures refused.None? <==>
        SourceProblem(e, f, team).None? && exists l :: l in old(links) && l.id == id && l.fragment == f
      ensures refused.Some? ==>
        refused == if SourceProblem(e, f, team).Some? then SourceProblem(e, f, team) else Some(LinkNotFound)
    {
      refused := SourceProblem(e, f, team);
      if refused.Some? {
        return;
      }
      var k := 0;
      while k < |links|
        invariant k <= |links|
        invariant forall j :: 0 <= j < k ==> !(links[j].id == id && links[j].fragment == f)
      {
        if links[k].id == id && links[k].fragment == f {
          links := links[..k] + links[k + 1..];
          return None;
        }
        k := k + 1;
      }
      refused := Some(LinkNotFound);
    }
  }
}
