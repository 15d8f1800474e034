/** `apply_effects` of rules/evaluator.py: what fired rules write. */
module Effects {
  import opened Values
  import opened Actions
  import opened Store
  import opened Evaluator

  /** An effect with the rule it came from. */
  datatype Pending = Pending(rule: Id, effect: Effect)

  function Tag(rule: Id, effects: seq<Effect>): seq<Pending> {
    seq(|effects|, k requires 0 <= k < |effects| => Pending(rule, effects[k]))
  }

  function Flatten(firings: seq<Firing>): seq<Pending> {
    if firings == [] then [] else Tag(firings[0].rule, firings[0].effects) + Flatten(firings[1..])
  }

  function SetCell(db: Db, id: Id, c: Column, v: Value): Db
    requires id in db.issues
  {
    var row := db.issues[id];
    db.(issues := db.issues[id := row.(cells := row.cells[c := v])])
  }

  function LabelsNamed(db: Db, team: Id, name: string): set<Id> {
    set l | l in db.labels && db.labels[l].team == team && db.labels[l].name == name
  }

  function Attach(id: Id, labels: set<Id>): set<(Id, Id)> {
    set l | l in labels :: (id, l)
  }

  function Recipient(lib: Lib, db: Db, v: Value): Result<Option<Id>> {
    if !v.Truthy() then Ok(None)
    else if !v.Str? then Err(Uncomparable)
    else match lib.parseId(v.s)
      case None => Err(BadUuid)
      case Some(user) => if user in db.users then Ok(Some(user)) else Err(BrokenReference)
  }

  /** `scalar_one_or_none` of the team's labels with this name; a NULL name equals none, and no other value can be sent
      to the column. */
  function AttachNamed(db: Db, id: Id, name: Value): (r: Result<Db>)
    requires id in db.issues
    ensures r.Ok? ==> r.value.issues == db.issues
  {
    if name.Null? then Ok(db)
    else if !name.Str? then Err(BadParameter)
    else
      var labels := LabelsNamed(db, db.issues[id].team, name.s);
      if |labels| > 1 then Err(TooManyRows) else Ok(db.(issueLabels := db.issueLabels + Attach(id, labels)))
  }

  /** One turn of the inner loop. Looking a label up flushes what is pending on the row first. */
  function ApplyOne(lib: Lib, db: Db, id: Id, p: Pending, user: Id): (r: Result<Db>)
    requires id in db.issues
    ensures r.Ok? ==> r.value.issues.Keys == db.issues.Keys
  {
    match p.effect
    case Sets(field, v) =>
      (match AllowedField(field)
       case None => Err(BlockedField(field))
       case Some(c) => Ok(SetCell(db, id, c, lib.bind(c, v))))
    case Labels(name) =>
      if !RowOk(db, db.issues[id]) then Err(BadRow) else AttachNamed(db, id, name)
    case Comments(body) => Ok(db.(comments := db.comments + [Comment(id, user, body)]))
    case Notifies(message, target) =>
      var recipient :- Recipient(lib, db, target);
      Ok(db.(notifications := db.notifications + [Notification(db.issues[id].team, recipient, p.rule, id, message)]))
    case Rejects(_) => Ok(db)
  }

  function ApplyAll(lib: Lib, db: Db, id: Id, ps: seq<Pending>, user: Id): (r: Result<Db>)
    requires id in db.issues
    ensures r.Ok? ==> r.value.issues.Keys == db.issues.Keys
    decreases |ps|
  {
    if ps == [] then Ok(db) else
      var next :- ApplyOne(lib, db, id, ps[0], user);
      ApplyAll(lib, next, id, ps[1..], user)
  }

  /** `apply_effects`, with the flush that ends it. */
  function ApplyEffects(lib: Lib, db: Db, id: Id, firings: seq<Firing>, user: Id): (r: Result<Db>)
    requires id in db.issues
    ensures r.Ok? ==> r.value.issues.Keys == db.issues.Keys
  {
    var next :- ApplyAll(lib, db, id, Flatten(firings), user);
    if RowOk(next, next.issues[id]) then Ok(next) else Err(BadRow)
  }

  // ---------- the closed form ----------

  /** The columns set, the last writer winning. */
  function SetFields(lib: Lib, ps: seq<Pending>): map<Column, Value> {
    if ps == [] then map[] else
      var rest := SetFields(lib, ps[1..]);
      match ps[0].effect
      case Sets(field, v) =>
        (match AllowedField(field)
         case None => rest
         case Some(c) => map[c := lib.bind(c, v)] + rest)
      case _ => rest
  }

  function LabelNames(ps: seq<Pending>): set<string> {
    set k | 0 <= k < |ps| && ps[k].effect.Labels? && ps[k].effect.name.Str? :: ps[k].effect.name.s
  }

  /** The team's labels with one of these names. */
  function TeamLabels(db: Db, team: Id, names: set<string>): set<Id> {
    set l | l in db.labels && db.labels[l].team == team && db.labels[l].name in names
  }

  function CommentsOf(ps: seq<Pending>, id: Id, user: Id): seq<Comment> {
    if ps == [] then [] else
      (if ps[0].effect.Comments? then [Comment(id, user, ps[0].effect.body)] else []) + CommentsOf(ps[1..], id, user)
  }

  /** Whom a notification that could be added is for. */
  function RecipientOf(lib: Lib, v: Value): Option<Id> {
    if v.Str? && v.s != "" then lib.parseId(v.s) else None
  }

  function NotesOf(lib: Lib, ps: seq<Pending>, team: Id, id: Id): seq<Notification> {
    if ps == [] then [] else
      (match ps[0].effect
       case Notifies(message, target) => [Notification(team, RecipientOf(lib, target), ps[0].rule, id, message)]
       case _ => [])
      + NotesOf(lib, ps[1..], team, id)
  }

  /** db with one issue's cells overlaid, labels attached to it, and comments and notifications appended. */
  function Overlay(db: Db, id: Id, fields: map<Column, Value>, labels: set<Id>, comments: seq<Comment>,
                   notes: seq<Notification>): Db
    requires id in db.issues
  {
    db.(
      issues := db.issues[id := db.issues[id].(cells := db.issues[id].cells + fields)],
      issueLabels := db.issueLabels + Attach(id, labels),
      comments := db.comments + comments,
      notifications := db.notifications + notes
    )
  }

  lemma OverlaysCompose(db: Db, id: Id, f: map<Column, Value>, g: map<Column, Value>, a: set<Id>, b: set<Id>,
                        c: seq<Comment>, d: seq<Comment>, m: seq<Notification>, n: seq<Notification>)
    requires id in db.issues
    ensures Overlay(Overlay(db, id, f, a, c, m), id, g, b, d, n) == Overlay(db, id, f + g, a + b, c + d, m + n)
  {
    OverlayTwice(db.issues[id].cells, f, g);
    AttachUnion(db.issueLabels, id, a, b);
    AppendTwice(db.comments, c, d);
    AppendTwice(db.notifications, m, n);
    UpdateTwice(db.issues, id, db.issues[id].(cells := db.issues[id].cells + f),
      db.issues[id].(cells := db.issues[id].cells + f + g));
    hide Attach;
  }

  lemma OverlayTwice(cells: map<Column, Value>, f: map<Column, Value>, g: map<Column, Value>)
    ensures cells + f + g == cells + (f + g)
  {
  }

  lemma UpdateTwice(issues: map<Id, Issue>, id: Id, i: Issue, j: Issue)
    ensures issues[id := i][id := j] == issues[id := j]
  {
  }

  lemma AppendTwice<T>(s: seq<T>, a: seq<T>, b: seq<T>)
    ensures s + a + b == s + (a + b)
  {
  }

  lemma AttachUnion(pairs: set<(Id, Id)>, id: Id, a: set<Id>, b: set<Id>)
    ensures pairs + Attach(id, a) + Attach(id, b) == pairs + Attach(id, a + b)
  {
  }

  lemma EmptyOverlay(db: Db, id: Id)
    requires id in db.issues
    ensures Overlay(db, id, map[], {}, [], []) == db
  {
    var next := Overlay(db, id, map[], {}, [], []);
    assert db.issues[id].cells + map[] == db.issues[id].cells;
    assert next.issues == db.issues;
    assert next.comments == db.comments && next.notifications == db.notifications;
  }

  /** Applied effects overlay the row with the set_field values, the last writer of a column winning, attach
      exactly the team's labels of the named ones, add the comments and the notifications in order and touch nothing
      else. */
  lemma {:induction false} AppliedEffectsAreAnOverlay(lib: Lib, db: Db, id: Id, ps: seq<Pending>, user: Id)
    requires id in db.issues
    requires ApplyAll(lib, db, id, ps, user).Ok?
    ensures var team := db.issues[id].team;
      ApplyAll(lib, db, id, ps, user).value
      == Overlay(db, id, SetFields(lib, ps), TeamLabels(db, team, LabelNames(ps)), CommentsOf(ps, id, user),
        NotesOf(lib, ps, team, id))
    decreases |ps|
  {
    hide ApplyOne, Overlay, RecipientOf;
    var team := db.issues[id].team;
    if ps == [] {
      EmptyOverlay(db, id);
      assert TeamLabels(db, team, LabelNames(ps)) == {};
    } else {
      var mid := ApplyOne(lib, db, id, ps[0], user).value;
      var head, rest := [ps[0]], ps[1..];
      OneEffectIsAnOverlay(lib, db, id, ps[0], user);
      AppliedEffectsAreAnOverlay(lib, mid, id, rest, user);
      LabelNamesOfCons(ps);
      SetFieldsOfCons(lib, ps);
      LogsOfCons(lib, ps, team, id, user);
      assert TeamLabels(db, team, LabelNames(ps))
        == TeamLabels(db, team, LabelNames(head)) + TeamLabels(db, team, LabelNames(rest));
      hide SetFields, TeamLabels, LabelNames, CommentsOf, NotesOf;
      var f, a := SetFields(lib, head), TeamLabels(db, team, LabelNames(head));
      var c, m := CommentsOf(head, id, user), NotesOf(lib, head, team, id);
      OverlayKeepsLabels(db, id, f, a, c, m, LabelNames(rest));
      OverlaysCompose(db, id, f, SetFields(lib, rest), a, TeamLabels(db, team, LabelNames(rest)),
        c, CommentsOf(rest, id, user), m, NotesOf(lib, rest, team, id));
    }
  }

  lemma LogsOfCons(lib: Lib, ps: seq<Pending>, team: Id, id: Id, user: Id)
    requires ps != []
    ensures CommentsOf(ps, id, user) == CommentsOf([ps[0]], id, user) + CommentsOf(ps[1..], id, user)
    ensures NotesOf(lib, ps, team, id) == NotesOf(lib, [ps[0]], team, id) + NotesOf(lib, ps[1..], team, id)
  {
    assert [ps[0]][1..] == [];
  }

  lemma OverlayKeepsLabels(db: Db, id: Id, f: map<Column, Value>, a: set<Id>, c: seq<Comment>, m: seq<Notification>,
                           names: set<string>)
    requires id in db.issues
    ensures var next := Overlay(db, id, f, a, c, m);
      && next.issues[id].team == db.issues[id].team
      && TeamLabels(next, next.issues[id].team, names) == TeamLabels(db, db.issues[id].team, names)
  {
  }

  lemma SetCellIsAnOverlay(db: Db, id: Id, c: Column, v: Value)
    requires id in db.issues
    ensures SetCell(db, id, c, v) == Overlay(db, id, map[c := v], {}, [], [])
  {
    EmptyOverlay(db, id);
    var row := db.issues[id];
    assert row.cells + map[c := v] == row.cells[c := v];
  }

  lemma AttachIsAnOverlay(db: Db, id: Id, labels: set<Id>)
    requires id in db.issues
    ensures db.(issueLabels := db.issueLabels + Attach(id, labels)) == Overlay(db, id, map[], labels, [], [])
  {
    EmptyOverlay(db, id);
  }

  lemma AppendIsAnOverlay(db: Db, id: Id, comments: seq<Comment>, notes: seq<Notification>)
    requires id in db.issues
    ensures db.(comments := db.comments + comments, notifications := db.notifications + notes)
      == Overlay(db, id, map[], {}, comments, notes)
  {
    EmptyOverlay(db, id);
  }

  lemma OneEffectIsAnOverlay(lib: Lib, db: Db, id: Id, p: Pending, user: Id)
    requires id in db.issues
    requires ApplyOne(lib, db, id, p, user).Ok?
    ensures var team := db.issues[id].team;
      ApplyOne(lib, db, id, p, user).value
        == Overlay(db, id, SetFields(lib, [p]), TeamLabels(db, team, LabelNames([p])),
                                                      CommentsOf([p], id, user), NotesOf(lib, [p], team, id))
  {
    hide RowOk, SetFields, TeamLabels, LabelNames, CommentsOf, NotesOf, Overlay, SetCell;
    SinglePending(lib, db, id, p, user);
    EmptyOverlay(db, id);
    match p.effect
    case Sets(field, v) =>
      var c := AllowedField(field).value;
      SetCellIsAnOverlay(db, id, c, lib.bind(c, v));
    case Labels(name) =>
      if name.Str? {
        AttachIsAnOverlay(db, id, LabelsNamed(db, db.issues[id].team, name.s));
      }
    case Comments(body) =>
      AppendIsAnOverlay(db, id, [Comment(id, user, body)], []);
      assert db.notifications + [] == db.notifications;
    case Notifies(message, target) =>
      assert Recipient(lib, db, target) == Ok(RecipientOf(lib, target));
      AppendIsAnOverlay(db, id, [], [Notification(db.issues[id].team, RecipientOf(lib, target), p.rule, id, message)]);
      assert db.comments + [] == db.comments;
    case Rejects(_) =>
  }

  lemma SinglePending(lib: Lib, db: Db, id: Id, p: Pending, user: Id)
    requires id in db.issues
    ensures var team := db.issues[id].team;
      && SetFields(lib, [p])
         == (if p.effect.Sets? && AllowedField(p.effect.field).Some?
             then (var c := AllowedField(p.effect.field).value; map[c := lib.bind(c, p.effect.value)]) else map[])
      && TeamLabels(db, team, LabelNames([p]))
         == (if p.effect.Labels? && p.effect.name.Str? then LabelsNamed(db, team, p.effect.name.s) else {})
      && CommentsOf([p], id, user) == (if p.effect.Comments? then [Comment(id, user, p.effect.body)] else [])
      && NotesOf(lib, [p], team, id)
         == (if p.effect.Notifies?
             then [Notification(team, RecipientOf(lib, p.effect.userId), p.rule, id, p.effect.message)] else [])
  {
    assert [p][0] == p && [p][1..] == [];
    assert LabelNames([p]) == if p.effect.Labels? && p.effect.name.Str? then {p.effect.name.s} else {};
  }

  lemma LabelNamesOfCons(ps: seq<Pending>)
    requires ps != []
    ensures LabelNames(ps) == LabelNames([ps[0]]) + LabelNames(ps[1..])
  {
    forall k | 0 <= k < |ps| && ps[k].effect.Labels? && ps[k].effect.name.Str?
      ensures ps[k].effect.name.s in LabelNames([ps[0]]) + LabelNames(ps[1..])
    {
      assert k == 0 ==> [ps[0]][0] == ps[k];
      assert k > 0 ==> ps[1..][k - 1] == ps[k];
    }
    forall k | 0 <= k < |ps[1..]| && ps[1..][k].effect.Labels? && ps[1..][k].effect.name.Str?
      ensures ps[1..][k].effect.name.s in LabelNames(ps)
    {
      assert ps[k + 1] == ps[1..][k];
    }
  }

  lemma SetFieldsOfCons(lib: Lib, ps: seq<Pending>)
    requires ps != []
    ensures SetFields(lib, ps) == SetFields(lib, [ps[0]]) + SetFields(lib, ps[1..])
  {
    assert [ps[0]][1..] == [];
  }

  /** The value set_field leaves in a column is the one of its last writer. */
  lemma {:induction false} LastWriterWins(lib: Lib, ps: seq<Pending>, k: nat, c: Column)
    requires k < |ps| && ps[k].effect.Sets? && AllowedField(ps[k].effect.field) == Some(c)
    requires forall j :: k < j < |ps| ==> !(ps[j].effect.Sets? && AllowedField(ps[j].effect.field) == Some(c))
    ensures c in SetFields(lib, ps) && SetFields(lib, ps)[c] == lib.bind(c, ps[k].effect.value)
  {
    if k == 0 {
      UnwrittenColumn(lib, ps[1..], c);
    } else {
      LastWriterWins(lib, ps[1..], k - 1, c);
    }
  }

  lemma {:induction false} UnwrittenColumn(lib: Lib, ps: seq<Pending>, c: Column)
    requires forall j :: 0 <= j < |ps| ==> !(ps[j].effect.Sets? && AllowedField(ps[j].effect.field) == Some(c))
    ensures c !in SetFields(lib, ps)
  {
    if ps != [] {
      UnwrittenColumn(lib, ps[1..], c);
    }
  }

  /** set_field reaches no column outside the whitelist. */
  lemma {:induction false} OnlyWhitelistedColumns(lib: Lib, ps: seq<Pending>)
    ensures SetFields(lib, ps).Keys <= {Priority, Estimate, AssigneeId, ProjectId, DueDate, StateId}
  {
    if ps != [] {
      OnlyWhitelistedColumns(lib, ps[1..]);
    }
  }

  lemma {:induction false} FlattenedSets(firings: seq<Firing>, c: Column)
    requires forall f :: f in firings ==> !EffectsSet(f.effects, c)
    ensures forall j :: 0 <= j < |Flatten(firings)| ==>
      !(Flatten(firings)[j].effect.Sets? && AllowedField(Flatten(firings)[j].effect.field) == Some(c))
  {
    if firings != [] {
      FlattenedSets(firings[1..], c);
      var head := Tag(firings[0].rule, firings[0].effects);
      forall j | 0 <= j < |head| ensures !(head[j].effect.Sets? && AllowedField(head[j].effect.field) == Some(c)) {
        assert firings[0] in firings;
      }
    }
  }

  /** When no rule sets a column, no accepted write's effects do. */
  lemma RulesThatDoNotSet(lib: Lib, firings: seq<Firing>, c: Column)
    requires forall f :: f in firings ==> !EffectsSet(f.effects, c)
    ensures c !in SetFields(lib, Flatten(firings))
  {
    FlattenedSets(firings, c);
    UnwrittenColumn(lib, Flatten(firings), c);
  }

  lemma {:induction false} ApplyAllConcat(lib: Lib, db: Db, id: Id, xs: seq<Pending>, ys: seq<Pending>, user: Id)
    requires id in db.issues
    ensures var x, xy := ApplyAll(lib, db, id, xs, user), ApplyAll(lib, db, id, xs + ys, user);
      xy == if x.Err? then x else ApplyAll(lib, x.value, id, ys, user)
    decreases |xs|
  {
    hide ApplyOne;
    if xs == [] {
      assert xs + ys == ys;
    } else {
      assert (xs + ys)[0] == xs[0] && (xs + ys)[1..] == xs[1..] + ys;
      var first := ApplyOne(lib, db, id, xs[0], user);
      if first.Ok? {
        ApplyAllConcat(lib, first.value, id, xs[1..], ys, user);
      }
    }
  }

  lemma {:induction false} FlattenConcat(xs: seq<Firing>, ys: seq<Firing>)
    ensures Flatten(xs + ys) == Flatten(xs) + Flatten(ys)
  {
    if xs == [] {
      assert xs + ys == ys;
    } else {
      assert (xs + ys)[0] == xs[0] && (xs + ys)[1..] == xs[1..] + ys;
      FlattenConcat(xs[1..], ys);
    }
  }
}
