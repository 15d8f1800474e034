/** The database half of the condition language: `_build_query_filters`, `_eval_count_query`,
    `_eval_estimate_sum` and `_evaluate_condition_with_db` of rules/evaluator.py. */
module Queries {
  import opened Values
  import opened Transitions
  import opened Context
  import opened Conditions
  import opened Store

  datatype Filter =
    | InTeam(team: Id)
    | NotArchived
    | StateIn(ids: set<Id>)
    | StateNotIn(ids: set<Id>)
    | ColumnIs(column: Column, id: Id)
  {
    predicate Passes(i: Issue) {
      match this
      case InTeam(team) => i.team == team
      case NotArchived => !i.archived
      case StateIn(ids) => i.Link(StateId).Some? && i.Link(StateId).value in ids
      case StateNotIn(ids) => !(i.Link(StateId).Some? && i.Link(StateId).value in ids)
      case ColumnIs(column, id) => i.Link(column) == Some(id)
    }
  }

  predicate Accepts(fs: seq<Filter>, i: Issue) {
    forall k :: 0 <= k < |fs| ==> fs[k].Passes(i)
  }

  function Selected(db: Db, fs: seq<Filter>): set<Id> {
    set i | i in db.issues && Accepts(fs, db.issues[i])
  }

  /** `[StateType(s) for s in values]`. */
  function ParseTypes(values: seq<Value>): Result<set<StateType>> {
    if values == [] then Ok({})
    else if !values[0].Str? || ParseStateType(values[0].s).None? then Err(BadStateType)
    else
      var rest :- ParseTypes(values[1..]);
      Ok({ParseStateType(values[0].s).value} + rest)
  }

  function StateIds(db: Db, team: Id, kinds: set<StateType>): set<Id> {
    set s | s in db.states && db.states[s].team == team && db.states[s].kind in kinds
  }

  function TypeFilter(db: Db, team: Id, values: Option<seq<Value>>, negated: bool): Result<seq<Filter>> {
    if values.None? then Ok([]) else
      var kinds :- ParseTypes(values.value);
      var ids := StateIds(db, team, kinds);
      Ok([if negated then StateNotIn(ids) else StateIn(ids)])
  }

  /** A falsy value adds no filter; anything else must be the text of a UUID. */
  function ColumnFilter(lib: Lib, ctx: RuleContext, column: Column, value: Option<Value>): Result<seq<Filter>> {
    if value.None? || !ctx.ResolveValue(value.value).Truthy() then Ok([])
    else match lib.parseId(Show(lib, ctx.ResolveValue(value.value)))
      case None => Err(BadUuid)
      case Some(id) => Ok([ColumnIs(column, id)])
  }

  function OtherFilters(lib: Lib, w: Where, ctx: RuleContext): Result<seq<Filter>> {
    var assignee :- ColumnFilter(lib, ctx, AssigneeId, w.assignee);
    var project :- ColumnFilter(lib, ctx, ProjectId, w.project);
    var parent :- ColumnFilter(lib, ctx, ParentId, w.parent);
    Ok(assignee + project + parent)
  }

  function BuildFilters(lib: Lib, db: Db, w: Where, ctx: RuleContext, team: Id): Result<seq<Filter>> {
    var included :- TypeFilter(db, team, w.stateType, false);
    var excluded :- TypeFilter(db, team, w.stateTypeNotIn, true);
    var others :- OtherFilters(lib, w, ctx);
    Ok([InTeam(team)] + (if w.includeArchived then [] else [NotArchived]) + included + excluded + others)
  }

  function EstimateOf(i: Issue): int {
    if i.Get(Estimate).Int? then i.Get(Estimate).n else 0
  }

  ghost predicate IsLeast(x: Id, ids: set<Id>) {
    x in ids && forall y :: y in ids ==> x <= y
  }

  lemma {:induction false} LeastExists(ids: set<Id>, bound: Id)
    requires bound in ids
    ensures exists x :: IsLeast(x, ids)
    decreases bound
  {
    if y :| y in ids && y < bound {
      LeastExists(ids, y);
    } else {
      assert IsLeast(bound, ids);
    }
  }

  function Least(ids: set<Id>): (x: Id)
    requires ids != {}
    ensures IsLeast(x, ids)
  {
    assert exists x :: IsLeast(x, ids) by {
      var any :| any in ids;
      LeastExists(ids, any);
    }
    var x :| x in ids && forall y :: y in ids ==> x <= y;
    x
  }

  /** `coalesce(sum(estimate), 0)` over the given rows, NULL counting as 0. */
  function SumEstimates(db: Db, ids: set<Id>): int
    requires ids <= db.issues.Keys
    decreases |ids|
  {
    if ids == {} then 0 else
      var x := Least(ids);
      EstimateOf(db.issues[x]) + SumEstimates(db, ids - {x})
  }

  /** `_COMPARE_OPS`. */
  function Compare(n: int, op: string, bound: Value): Result<bool> {
    if op == ">=" then (var less :- PyLess(Int(n), bound); Ok(!less))
    else if op == "<=" then (var less :- PyLess(bound, Int(n)); Ok(!less))
    else if op == ">" then PyLess(bound, Int(n))
    else if op == "<" then PyLess(Int(n), bound)
    else if op == "==" then Ok(PyEq(Int(n), bound))
    else Err(UnknownOperator(op))
  }

  function CountOf(lib: Lib, db: Db, w: Where, ctx: RuleContext, team: Id): Result<nat> {
    var fs :- BuildFilters(lib, db, w, ctx, team);
    Ok(|Selected(db, fs)|)
  }

  function SumOf(lib: Lib, db: Db, w: Where, ctx: RuleContext, team: Id): Result<int> {
    var fs :- BuildFilters(lib, db, w, ctx, team);
    Ok(SumEstimates(db, Selected(db, fs)))
  }

  /** `_evaluate_condition_with_db`. */
  function EvaluateWithDb(lib: Lib, db: Db, c: Cond, ctx: RuleContext, team: Id): Result<bool>
    decreases c, 1
  {
    match c
    case CountQuery(w, op, bound) => (var n :- CountOf(lib, db, w, ctx, team); Compare(n, op, bound))
    case EstimateSum(w, op, bound) => (var n :- SumOf(lib, db, w, ctx, team); Compare(n, op, bound))
    case And(cs) => EvaluateAllWithDb(lib, db, cs, ctx, team)
    case Or(cs) => EvaluateAnyWithDb(lib, db, cs, ctx, team)
    case Not(None) => Err(MissingInner)
    case Not(Some(inner)) => (var b :- EvaluateWithDb(lib, db, inner, ctx, team); Ok(!b))
    case _ => Evaluate(lib, c, ctx)
  }

  function EvaluateAllWithDb(lib: Lib, db: Db, cs: seq<Cond>, ctx: RuleContext, team: Id): Result<bool>
    decreases cs, 0
  {
    if cs == [] then Ok(true) else
      var b :- EvaluateWithDb(lib, db, cs[0], ctx, team);
      if !b then Ok(false) else EvaluateAllWithDb(lib, db, cs[1..], ctx, team)
  }

  function EvaluateAnyWithDb(lib: Lib, db: Db, cs: seq<Cond>, ctx: RuleContext, team: Id): Result<bool>
    decreases cs, 0
  {
    if cs == [] then Ok(false) else
      var b :- EvaluateWithDb(lib, db, cs[0], ctx, team);
      if b then Ok(true) else EvaluateAnyWithDb(lib, db, cs[1..], ctx, team)
  }

  // ---------- the two evaluators agree ----------

  /** On every tree the database evaluator gives the pure evaluator's answer, value or error alike, except
      where evaluation reaches a database node, which the pure one reports. */
  lemma {:induction false} DbEvaluatorRefinesPure(lib: Lib, db: Db, c: Cond, ctx: RuleContext, team: Id)
    ensures Evaluate(lib, c, ctx) != Err(NeedsDatabase) ==>
      EvaluateWithDb(lib, db, c, ctx, team) == Evaluate(lib, c, ctx)
    decreases c, 1
  {
    match c
    case And(cs) => DbEvaluatorRefinesPureAll(lib, db, cs, ctx, team);
    case Or(cs) => DbEvaluatorRefinesPureAny(lib, db, cs, ctx, team);
    case Not(Some(inner)) => DbEvaluatorRefinesPure(lib, db, inner, ctx, team);
    case _ =>
  }

  lemma {:induction false} DbEvaluatorRefinesPureAll(lib: Lib, db: Db, cs: seq<Cond>, ctx: RuleContext, team: Id)
    ensures EvaluateAll(lib, cs, ctx) != Err(NeedsDatabase) ==>
      EvaluateAllWithDb(lib, db, cs, ctx, team) == EvaluateAll(lib, cs, ctx)
    decreases cs, 0
  {
    if cs != [] {
      DbEvaluatorRefinesPure(lib, db, cs[0], ctx, team);
      DbEvaluatorRefinesPureAll(lib, db, cs[1..], ctx, team);
    }
  }

  lemma {:induction false} DbEvaluatorRefinesPureAny(lib: Lib, db: Db, cs: seq<Cond>, ctx: RuleContext, team: Id)
    ensures EvaluateAny(lib, cs, ctx) != Err(NeedsDatabase) ==>
      EvaluateAnyWithDb(lib, db, cs, ctx, team) == EvaluateAny(lib, cs, ctx)
    decreases cs, 0
  {
    if cs != [] {
      DbEvaluatorRefinesPure(lib, db, cs[0], ctx, team);
      DbEvaluatorRefinesPureAny(lib, db, cs[1..], ctx, team);
    }
  }

  /** A tree without database nodes never makes the pure evaluator ask for the database, so there the two
      evaluators are equal, errors included. */
  lemma {:induction false} PureTreesEvaluateAlike(lib: Lib, db: Db, c: Cond, ctx: RuleContext, team: Id)
    requires !UsesDatabase(c)
    ensures Evaluate(lib, c, ctx) != Err(NeedsDatabase)
    ensures EvaluateWithDb(lib, db, c, ctx, team) == Evaluate(lib, c, ctx)
    decreases c, 1
  {
    DbEvaluatorRefinesPure(lib, db, c, ctx, team);
    match c
    case And(cs) => PureListsNeverAsk(lib, db, cs, ctx, team);
    case Or(cs) => PureListsNeverAsk(lib, db, cs, ctx, team);
    case Not(Some(inner)) => PureTreesEvaluateAlike(lib, db, inner, ctx, team);
    case _ =>
  }

  lemma {:induction false} PureListsNeverAsk(lib: Lib, db: Db, cs: seq<Cond>, ctx: RuleContext, team: Id)
    requires forall i :: 0 <= i < |cs| ==> !UsesDatabase(cs[i])
    ensures EvaluateAll(lib, cs, ctx) != Err(NeedsDatabase)
    ensures EvaluateAny(lib, cs, ctx) != Err(NeedsDatabase)
    decreases cs, 0
  {
    if cs != [] {
      PureTreesEvaluateAlike(lib, db, cs[0], ctx, team);
      PureListsNeverAsk(lib, db, cs[1..], ctx, team);
    }
  }

  /** What a context hides from conditions, no evaluation can depend on. */
  lemma {:induction false} EvaluationSeesOnlyTheView(lib: Lib, db: Db, c: Cond, ctx: RuleContext, other: RuleContext,
                                                     team: Id)
    requires ctx.SameView(other)
    ensures EvaluateWithDb(lib, db, c, ctx, team) == EvaluateWithDb(lib, db, c, other, team)
    decreases c, 1
  {
    hide EvaluateLeaf;
    hide CountOf;
    hide SumOf;
    hide Compare;
    match c
    case And(cs) => EvaluationListsSeeOnlyTheView(lib, db, cs, ctx, other, team);
    case Or(cs) => EvaluationListsSeeOnlyTheView(lib, db, cs, ctx, other, team);
    case Not(Some(inner)) => EvaluationSeesOnlyTheView(lib, db, inner, ctx, other, team);
    case Not(None) =>
    case CountQuery(w, _, _) => QueriesSeeOnlyTheView(lib, db, w, ctx, other, team);
    case EstimateSum(w, _, _) => QueriesSeeOnlyTheView(lib, db, w, ctx, other, team);
    case _ => LeavesSeeOnlyTheView(lib, c, ctx, other);
  }

  lemma {:induction false} EvaluationListsSeeOnlyTheView(lib: Lib, db: Db, cs: seq<Cond>, ctx: RuleContext,
                                                         other: RuleContext, team: Id)
    requires ctx.SameView(other)
    ensures EvaluateAllWithDb(lib, db, cs, ctx, team) == EvaluateAllWithDb(lib, db, cs, other, team)
    ensures EvaluateAnyWithDb(lib, db, cs, ctx, team) == EvaluateAnyWithDb(lib, db, cs, other, team)
    decreases cs, 0
  {
    if cs != [] {
      EvaluationSeesOnlyTheView(lib, db, cs[0], ctx, other, team);
      EvaluationListsSeeOnlyTheView(lib, db, cs[1..], ctx, other, team);
    }
  }

  lemma LeavesSeeOnlyTheView(lib: Lib, c: Cond, ctx: RuleContext, other: RuleContext)
    requires ctx.SameView(other) && !c.And? && !c.Or? && !c.Not?
    ensures EvaluateLeaf(lib, c, ctx) == EvaluateLeaf(lib, c, other)
  {
    ResolutionSeesOnlyTheView(ctx, other);
  }

  lemma QueriesSeeOnlyTheView(lib: Lib, db: Db, w: Where, ctx: RuleContext, other: RuleContext, team: Id)
    requires ctx.SameView(other)
    ensures CountOf(lib, db, w, ctx, team) == CountOf(lib, db, w, other, team)
    ensures SumOf(lib, db, w, ctx, team) == SumOf(lib, db, w, other, team)
  {
    assert OtherFilters(lib, w, ctx) == OtherFilters(lib, w, other) by {
      ResolutionSeesOnlyTheView(ctx, other);
    }
    hide OtherFilters, TypeFilter;
  }

  lemma ResolutionSeesOnlyTheView(ctx: RuleContext, other: RuleContext)
    requires ctx.SameView(other)
    ensures forall name :: ctx.ResolveField(name) == other.ResolveField(name)
    ensures forall v :: ctx.ResolveValue(v) == other.ResolveValue(v)
  {
  }

  // ---------- counts and sums partition ----------

  lemma {:induction false} SumWithout(db: Db, ids: set<Id>, x: Id)
    requires ids <= db.issues.Keys && x in ids
    ensures SumEstimates(db, ids) == EstimateOf(db.issues[x]) + SumEstimates(db, ids - {x})
    decreases |ids|
  {
    hide Least;
    var y := Least(ids);
    if y != x {
      SumWithout(db, ids - {y}, x);
      SumWithout(db, ids - {x}, y);
      assert ids - {y} - {x} == ids - {x} - {y};
    }
  }

  lemma {:induction false} SumOfDisjointUnion(db: Db, a: set<Id>, b: set<Id>)
    requires a + b <= db.issues.Keys && a !! b
    ensures SumEstimates(db, a + b) == SumEstimates(db, a) + SumEstimates(db, b)
    decreases |a|
  {
    if a == {} {
      assert a + b == b;
    } else {
      var x :| x in a;
      SumWithout(db, a + b, x);
      SumWithout(db, a, x);
      assert a + b - {x} == (a - {x}) + b;
      SumOfDisjointUnion(db, a - {x}, b);
    }
  }

  lemma FilterOfOne(f: Filter, i: Issue)
    ensures Accepts([f], i) <==> f.Passes(i)
  {
    assert Accepts([f], i) ==> [f][0].Passes(i);
  }

  lemma FilterOfConcat(a: seq<Filter>, b: seq<Filter>, i: Issue)
    ensures Accepts(a + b, i) <==> Accepts(a, i) && Accepts(b, i)
  {
    forall k | 0 <= k < |b| && Accepts(a + b, i) ensures b[k].Passes(i) {
      assert (a + b)[|a| + k] == b[k];
    }
    forall k | 0 <= k < |a| && Accepts(a + b, i) ensures a[k].Passes(i) {
      assert (a + b)[k] == a[k];
    }
  }

  /** Filters other than the two on state types. */
  ghost predicate NoTypeFilter(w: Where) {
    w.stateType.None? && w.stateTypeNotIn.None?
  }

  /** What an assignee, project or parent filter asks of a row: nothing when it is absent or resolves to a falsy value,
      and otherwise that the column holds the UUID its text spells. */
  ghost predicate Selects(lib: Lib, ctx: RuleContext, value: Option<Value>, i: Issue, column: Column) {
    value.Some? && ctx.ResolveValue(value.value).Truthy() ==>
      i.Link(column).Some? && lib.parseId(Show(lib, ctx.ResolveValue(value.value))) == i.Link(column)
  }

  lemma ColumnFilterMeans(lib: Lib, ctx: RuleContext, column: Column, value: Option<Value>, i: Issue)
    requires ColumnFilter(lib, ctx, column, value).Ok?
    ensures Accepts(ColumnFilter(lib, ctx, column, value).value, i) <==> Selects(lib, ctx, value, i, column)
  {
    var fs := ColumnFilter(lib, ctx, column, value).value;
    if fs != [] {
      FilterOfOne(fs[0], i);
    }
  }

  lemma OtherFiltersMean(lib: Lib, w: Where, ctx: RuleContext, i: Issue)
    requires OtherFilters(lib, w, ctx).Ok?
    ensures Accepts(OtherFilters(lib, w, ctx).value, i)
      <==>
        && Selects(lib, ctx, w.assignee, i, AssigneeId)
        && Selects(lib, ctx, w.project, i, ProjectId)
        && Selects(lib, ctx, w.parent, i, ParentId)
  {
    var a, b := ColumnFilter(lib, ctx, AssigneeId, w.assignee).value,
      ColumnFilter(lib, ctx, ProjectId, w.project).value;
    var c := ColumnFilter(lib, ctx, ParentId, w.parent).value;
    ColumnFilterMeans(lib, ctx, AssigneeId, w.assignee, i);
    ColumnFilterMeans(lib, ctx, ProjectId, w.project, i);
    ColumnFilterMeans(lib, ctx, ParentId, w.parent, i);
    hide ColumnFilter, Selects;
    FilterOfConcat(a + b, c, i);
    FilterOfConcat(a, b, i);
  }

  /** What the filters of a where clause mean, row by row. */
  lemma FiltersMean(lib: Lib, db: Db, w: Where, ctx: RuleContext, team: Id, i: Issue)
    ensures var r := BuildFilters(lib, db, w, ctx, team);
      r.Ok? ==>
        && OtherFilters(lib, w, ctx).Ok?
        && (w.stateType.Some? ==> ParseTypes(w.stateType.value).Ok?)
        && (w.stateTypeNotIn.Some? ==> ParseTypes(w.stateTypeNotIn.value).Ok?)
        && (Accepts(r.value, i) <==>
              && i.team == team
              && (w.includeArchived || !i.archived)
              && (w.stateType.Some? ==>
                    StateIn(StateIds(db, team, ParseTypes(w.stateType.value).value)).Passes(i))
              && (w.stateTypeNotIn.Some? ==>
                    StateNotIn(StateIds(db, team, ParseTypes(w.stateTypeNotIn.value).value)).Passes(i))
              && Selects(lib, ctx, w.assignee, i, AssigneeId)
              && Selects(lib, ctx, w.project, i, ProjectId)
              && Selects(lib, ctx, w.parent, i, ParentId))
  {
    var r := BuildFilters(lib, db, w, ctx, team);
    if r.Ok? {
      OtherFiltersMean(lib, w, ctx, i);
      hide OtherFilters, ParseTypes, Selects;
      var included := TypeFilter(db, team, w.stateType, false).value;
      var excluded := TypeFilter(db, team, w.stateTypeNotIn, true).value;
      var others := OtherFilters(lib, w, ctx).value;
      var live := if w.includeArchived then [] else [NotArchived];
      FilterOfConcat([InTeam(team)] + live + included + excluded, others, i);
      FilterOfConcat([InTeam(team)] + live + included, excluded, i);
      FilterOfConcat([InTeam(team)] + live, included, i);
      FilterOfConcat([InTeam(team)], live, i);
      FilterOfOne(InTeam(team), i);
      FilterOfOne(NotArchived, i);
      if w.stateType.Some? {
        FilterOfOne(included[0], i);
      }
      if w.stateTypeNotIn.Some? {
        FilterOfOne(excluded[0], i);
      }
    }
  }

  /** Restricting to the listed types and excluding them split any other query in two: they fail together,
      and otherwise the counts and the sums add up. */
  lemma TypeFilterPartitions(lib: Lib, db: Db, w: Where, types: seq<Value>, ctx: RuleContext, team: Id)
    requires NoTypeFilter(w)
    ensures var within, outside := w.(stateType := Some(types)), w.(stateTypeNotIn := Some(types));
      var a, b, all := CountOf(lib, db, within, ctx, team), CountOf(lib, db, outside, ctx, team),
        CountOf(lib, db, w, ctx, team);
      && (a.Ok? <==> b.Ok?) && (a.Ok? <==> ParseTypes(types).Ok? && all.Ok?)
      && (a.Ok? ==> a.value + b.value == all.value)
      && (a.Ok? ==> SumOf(lib, db, within, ctx, team).value + SumOf(lib, db, outside, ctx, team).value
                    == SumOf(lib, db, w, ctx, team).value)
  {
    var within, outside := w.(stateType := Some(types)), w.(stateTypeNotIn := Some(types));
    var f, g, h := BuildFilters(lib, db, within, ctx, team), BuildFilters(lib, db, outside, ctx, team),
      BuildFilters(lib, db, w, ctx, team);
    assert OtherFilters(lib, within, ctx) == OtherFilters(lib, outside, ctx) == OtherFilters(lib, w, ctx);
    if f.Ok? {
      SelectionsPartition(lib, db, w, types, ctx, team, f.value, g.value, h.value);
      SumOfDisjointUnion(db, Selected(db, f.value), Selected(db, g.value));
    }
  }

  lemma SelectionsPartition(lib: Lib, db: Db, w: Where, types: seq<Value>, ctx: RuleContext, team: Id,
                            f: seq<Filter>, g: seq<Filter>, h: seq<Filter>)
    requires NoTypeFilter(w)
    requires BuildFilters(lib, db, w.(stateType := Some(types)), ctx, team) == Ok(f)
    requires BuildFilters(lib, db, w.(stateTypeNotIn := Some(types)), ctx, team) == Ok(g)
    requires BuildFilters(lib, db, w, ctx, team) == Ok(h)
    ensures Selected(db, f) !! Selected(db, g) && Selected(db, f) + Selected(db, g) == Selected(db, h)
  {
    var within, outside := w.(stateType := Some(types)), w.(stateTypeNotIn := Some(types));
    assert OtherFilters(lib, within, ctx) == OtherFilters(lib, outside, ctx) == OtherFilters(lib, w, ctx);
    forall i | i in db.issues
      ensures Accepts(h, db.issues[i]) <==> Accepts(f, db.issues[i]) || Accepts(g, db.issues[i])
      ensures !(Accepts(f, db.issues[i]) && Accepts(g, db.issues[i]))
    {
      FiltersMean(lib, db, within, ctx, team, db.issues[i]);
      FiltersMean(lib, db, outside, ctx, team, db.issues[i]);
      FiltersMean(lib, db, w, ctx, team, db.issues[i]);
    }
  }

  lemma {:induction false} TypesOfConcat(xs: seq<Value>, ys: seq<Value>)
    ensures ParseTypes(xs + ys).Ok? <==> ParseTypes(xs).Ok? && ParseTypes(ys).Ok?
    ensures ParseTypes(xs + ys).Ok? ==> ParseTypes(xs + ys).value == ParseTypes(xs).value + ParseTypes(ys).value
  {
    if xs == [] {
      assert xs + ys == ys;
    } else {
      assert (xs + ys)[0] == xs[0] && (xs + ys)[1..] == xs[1..] + ys;
      TypesOfConcat(xs[1..], ys);
    }
  }

  /** Counts and sums are additive over disjoint lists of types. */
  lemma TypeFilterAdds(lib: Lib, db: Db, w: Where, xs: seq<Value>, ys: seq<Value>, ctx: RuleContext, team: Id)
    requires NoTypeFilter(w)
    requires ParseTypes(xs).Ok? && ParseTypes(ys).Ok? && ParseTypes(xs).value !! ParseTypes(ys).value
    ensures var x, y, both := w.(stateType := Some(xs)), w.(stateType := Some(ys)), w.(stateType := Some(xs + ys));
      && (CountOf(lib, db, both, ctx, team).Ok? <==> CountOf(lib, db, w, ctx, team).Ok?)
      && (CountOf(lib, db, both, ctx, team).Ok? ==>
            && CountOf(lib, db, x, ctx, team).Ok? && CountOf(lib, db, y, ctx, team).Ok?
            && CountOf(lib, db, both, ctx, team).value
                 == CountOf(lib, db, x, ctx, team).value + CountOf(lib, db, y, ctx, team).value
            && SumOf(lib, db, both, ctx, team).value
                 == SumOf(lib, db, x, ctx, team).value + SumOf(lib, db, y, ctx, team).value)
  {
    TypesOfConcat(xs, ys);
    var x, y, both := w.(stateType := Some(xs)), w.(stateType := Some(ys)), w.(stateType := Some(xs + ys));
    assert OtherFilters(lib, x, ctx) == OtherFilters(lib, y, ctx) == OtherFilters(lib, both, ctx)
      == OtherFilters(lib, w, ctx);
    var f, g, h := BuildFilters(lib, db, x, ctx, team), BuildFilters(lib, db, y, ctx, team),
      BuildFilters(lib, db, both, ctx, team);
    if h.Ok? {
      SelectionsAdd(lib, db, w, xs, ys, ctx, team, f.value, g.value, h.value);
      SumOfDisjointUnion(db, Selected(db, f.value), Selected(db, g.value));
    }
  }

  lemma SelectionsAdd(lib: Lib, db: Db, w: Where, xs: seq<Value>, ys: seq<Value>, ctx: RuleContext, team: Id,
                      f: seq<Filter>, g: seq<Filter>, h: seq<Filter>)
    requires NoTypeFilter(w)
    requires ParseTypes(xs).Ok? && ParseTypes(ys).Ok? && ParseTypes(xs).value !! ParseTypes(ys).value
    requires BuildFilters(lib, db, w.(stateType := Some(xs)), ctx, team) == Ok(f)
    requires BuildFilters(lib, db, w.(stateType := Some(ys)), ctx, team) == Ok(g)
    requires BuildFilters(lib, db, w.(stateType := Some(xs + ys)), ctx, team) == Ok(h)
    ensures Selected(db, f) !! Selected(db, g) && Selected(db, f) + Selected(db, g) == Selected(db, h)
  {
    TypesOfConcat(xs, ys);
    var x, y, both := w.(stateType := Some(xs)), w.(stateType := Some(ys)), w.(stateType := Some(xs + ys));
    assert OtherFilters(lib, x, ctx) == OtherFilters(lib, y, ctx) == OtherFilters(lib, both, ctx);
    forall i | i in db.issues
      ensures Accepts(h, db.issues[i]) <==> Accepts(f, db.issues[i]) || Accepts(g, db.issues[i])
      ensures !(Accepts(f, db.issues[i]) && Accepts(g, db.issues[i]))
    {
      FiltersMean(lib, db, x, ctx, team, db.issues[i]);
      FiltersMean(lib, db, y, ctx, team, db.issues[i]);
      FiltersMean(lib, db, both, ctx, team, db.issues[i]);
    }
  }
}
