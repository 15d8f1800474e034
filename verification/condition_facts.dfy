/** What conditions and database queries answer, said without their handlers. */
module ConditionFacts {
  import opened Values
  import opened Transitions
  import opened Context
  import opened Conditions
  import opened Store
  import opened Queries

  /** Both evaluators give this answer. */
  ghost predicate Answers(lib: Lib, c: Cond, ctx: RuleContext, r: Result<bool>) {
    Evaluate(lib, c, ctx) == r && forall db, team :: EvaluateWithDb(lib, db, c, ctx, team) == r
  }

  // ---------- equality and order of values ----------

  lemma EqualNumbers(m: int, n: int, x: real, y: real, b: bool)
    ensures PyEq(Int(m), Int(n)) <==> m == n
    ensures PyEq(Float(x), Float(y)) <==> x == y
    ensures PyEq(Int(m), Float(x)) <==> m as real == x
    ensures PyEq(Float(x), Int(m)) <==> m as real == x
    ensures PyEq(Bool(b), Int(m)) <==> m == if b then 1 else 0
  {
    assert (m as real == n as real) <==> m == n;
    assert (m as real == 1.0) <==> m == 1;
    assert (m as real == 0.0) <==> m == 0;
  }

  lemma EqualOthers(a: Value, b: Value)
    requires !(a.Int? || a.Float? || a.Bool?)
    ensures PyEq(a, b) <==> a == b
    ensures PyEq(b, a) <==> a == b
  {
  }

  /** Dictionary order: a common beginning, after which a ends or has the smaller character. */
  ghost predicate Precedes(a: string, b: string) {
    exists k :: SplitAt(a, b, k)
  }

  ghost predicate SplitAt(a: string, b: string, k: nat) {
    k <= |a| && k < |b| && a[..k] == b[..k] && (k == |a| || a[k] < b[k])
  }

  lemma {:induction false} StringsAreOrdered(a: string, b: string)
    ensures StrLess(a, b) <==> Precedes(a, b)
  {
    if b == "" {
    } else if a == "" || a[0] < b[0] {
      assert SplitAt(a, b, 0);
    } else if a[0] == b[0] {
      StringsAreOrdered(a[1..], b[1..]);
      if Precedes(a[1..], b[1..]) {
        var k: nat :| SplitAt(a[1..], b[1..], k);
        assert a[..k + 1] == [a[0]] + a[1..][..k] && b[..k + 1] == [b[0]] + b[1..][..k];
        assert SplitAt(a, b, k + 1);
      }
      if Precedes(a, b) {
        var k: nat :| SplitAt(a, b, k);
        assert a[..k][0] == a[0] || k == 0;
        assert a[1..][..k - 1] == a[..k][1..] && b[1..][..k - 1] == b[..k][1..];
        assert SplitAt(a[1..], b[1..], k - 1);
      }
    } else {
      forall k | 0 < k <= |a| && k <= |b| ensures a[..k] != b[..k] {
        assert a[..k][0] != b[..k][0];
      }
    }
  }

  function Test(order: Order, field: string, value: Value): Cond {
    FieldOrder(order, Some(field), Some(value))
  }

  /** The four order conditions on integers and on null. */
  lemma OrderOfIntegers(lib: Lib, field: string, value: Value, ctx: RuleContext, a: int, b: int)
    requires ctx.ResolveField(field) == Int(a) && ctx.ResolveValue(value) == Int(b)
    ensures Answers(lib, Test(Gt, field, value), ctx, Ok(a > b))
    ensures Answers(lib, Test(Lt, field, value), ctx, Ok(a < b))
    ensures Answers(lib, Test(Gte, field, value), ctx, Ok(a >= b))
    ensures Answers(lib, Test(Lte, field, value), ctx, Ok(a <= b))
  {
    assert (a as real < b as real) <==> a < b;
    assert (b as real < a as real) <==> b < a;
  }

  lemma OrderOfFloats(lib: Lib, field: string, value: Value, ctx: RuleContext, a: real, b: real)
    requires ctx.ResolveField(field) == Float(a) && ctx.ResolveValue(value) == Float(b)
    ensures Answers(lib, Test(Gt, field, value), ctx, Ok(a > b))
    ensures Answers(lib, Test(Lt, field, value), ctx, Ok(a < b))
    ensures Answers(lib, Test(Gte, field, value), ctx, Ok(a >= b))
    ensures Answers(lib, Test(Lte, field, value), ctx, Ok(a <= b))
  {
  }

  lemma OrderOfStrings(lib: Lib, field: string, value: Value, ctx: RuleContext, a: string, b: string)
    requires ctx.ResolveField(field) == Str(a) && ctx.ResolveValue(value) == Str(b)
    ensures Answers(lib, Test(Gt, field, value), ctx, Ok(Precedes(b, a)))
    ensures Answers(lib, Test(Lt, field, value), ctx, Ok(Precedes(a, b)))
    ensures Answers(lib, Test(Gte, field, value), ctx, Ok(!Precedes(a, b)))
    ensures Answers(lib, Test(Lte, field, value), ctx, Ok(!Precedes(b, a)))
  {
    StringsAreOrdered(a, b);
    StringsAreOrdered(b, a);
    hide Precedes, StrLess;
  }

  /** Null is in no order, and a string and a number are not comparable. */
  lemma OrderOfOthers(lib: Lib, order: Order, field: string, value: Value, ctx: RuleContext)
    ensures var a, b := ctx.ResolveField(field), ctx.ResolveValue(value);
      && (a == Null || b == Null ==> Answers(lib, Test(order, field, value), ctx, Ok(false)))
      && (a.Str? && (b.Int? || b.Float? || b.Bool?) ==> Answers(lib, Test(order, field, value), ctx, Err(Uncomparable)))
      && ((a.Int? || a.Float? || a.Bool?) && b.Str? ==> Answers(lib, Test(order, field, value), ctx, Err(Uncomparable)))
  {
  }

  // ---------- the other leaves ----------

  /** field_equals and the null tests; a field is the written issue's or one of the trigger's. */
  lemma LeavesAnswer(lib: Lib, field: string, value: Value, ctx: RuleContext)
    ensures Answers(lib, FieldEquals(Some(field), Some(value)), ctx,
                    Ok(PyEq(ctx.ResolveField(field), ctx.ResolveValue(value))))
    ensures Answers(lib, FieldIsNull(Some(field)), ctx, Ok(ctx.ResolveField(field) == Null))
    ensures Answers(lib, Not(Some(FieldNotNull(Some(field)))), ctx, Ok(ctx.ResolveField(field) == Null))
  {
  }

  lemma LabelHasAnswers(lib: Lib, value: Value, ctx: RuleContext, items: seq<Value>)
    requires "labels" in ctx.issue && ctx.issue["labels"] == Arr(items)
    ensures Answers(lib, LabelHas(Some(value)), ctx, Ok(exists i :: 0 <= i < |items| && Names(items[i], value)))
  {
    forall i | 0 <= i < |items|
      ensures Names(items[i], value) <==> PyEq(if items[i].Obj? then Get(items[i].entries, "name") else items[i], value)
    {
    }
    hide PyEq, Names;
  }

  /** A label in a context is an object with a name, or the name itself. */
  predicate Names(item: Value, target: Value) {
    match item
    case Obj(entries) => if "name" in entries then PyEq(entries["name"], target) else target == Null
    case _ => PyEq(item, target)
  }

  /** field_in answers as the disjunction of its field_equals conditions. */
  lemma FieldInIsADisjunction(lib: Lib, field: string, values: seq<Value>, ctx: RuleContext)
    ensures Answers(lib, FieldIn(Some(field), Some(values)), ctx,
                    Ok(exists i :: 0 <= i < |values|
                         && Evaluate(lib, FieldEquals(Some(field), Some(values[i])), ctx) == Ok(true)))
  {
  }

  ghost predicate IsPart(part: string, s: string) {
    exists i :: PartAt(part, s, i)
  }

  ghost predicate PartAt(part: string, s: string, i: nat) {
    i + |part| <= |s| && s[i..i + |part|] == part
  }

  /** A part is at the start or in the rest. */
  lemma PartsOfCons(part: string, s: string)
    requires s != ""
    ensures IsPart(part, s) <==> part <= s || IsPart(part, s[1..])
  {
    forall i: nat ensures PartAt(part, s[1..], i) <==> PartAt(part, s, i + 1) {
      if i + |part| <= |s[1..]| {
        assert s[1..][i..i + |part|] == s[i + 1..i + 1 + |part|];
      }
    }
    assert PartAt(part, s, 0) <==> part <= s;
    if i: nat :| PartAt(part, s, i) {
      assert i > 0 ==> PartAt(part, s[1..], i - 1);
    }
  }

  lemma {:induction false} ContainsIsPart(s: string, part: string)
    ensures Contains(s, part) <==> IsPart(part, s)
  {
    if s == "" {
      assert PartAt(part, s, 0) <==> part <= s;
    } else {
      PartsOfCons(part, s);
      ContainsIsPart(s[1..], part);
      hide IsPart;
    }
  }

  /** field_contains looks for the lower-cased value in the lower-cased field; a null field contains nothing. */
  lemma FieldContainsAnswers(lib: Lib, field: string, value: Value, ctx: RuleContext)
    ensures var a, b := ctx.ResolveField(field), ctx.ResolveValue(value);
      Answers(lib, FieldContains(Some(field), Some(value)), ctx,
              Ok(a != Null && IsPart(lib.lower(Show(lib, b)), lib.lower(Show(lib, a)))))
  {
    ContainsIsPart(lib.lower(Show(lib, ctx.ResolveField(field))), lib.lower(Show(lib, ctx.ResolveValue(value))));
    hide Contains, IsPart;
  }

  /** What a condition without one of its keys raises. */
  lemma MissingKeysAreRaised(lib: Lib, order: Order, field: string, value: Option<Value>, values: Option<seq<Value>>,
                             ctx: RuleContext)
    ensures Answers(lib, FieldEquals(None, value), ctx, Err(MissingKey("field")))
    ensures Answers(lib, FieldIn(None, values), ctx, Err(MissingKey("field")))
    ensures Answers(lib, FieldIsNull(None), ctx, Err(MissingKey("field")))
    ensures Answers(lib, FieldNotNull(None), ctx, Err(MissingKey("field")))
    ensures Answers(lib, FieldContains(None, value), ctx, Err(MissingKey("field")))
    ensures Answers(lib, FieldOrder(order, None, value), ctx, Err(MissingKey("field")))
    ensures Answers(lib, FieldEquals(Some(field), None), ctx, Err(MissingKey("value")))
    ensures Answers(lib, FieldOrder(order, Some(field), None), ctx, Err(MissingKey("value")))
    ensures Answers(lib, FieldIn(Some(field), None), ctx, Err(MissingKey("values")))
    ensures Answers(lib, LabelHas(None), ctx, Err(MissingKey("value")))
    ensures Answers(lib, FieldContains(Some(field), None), ctx,
                    if ctx.ResolveField(field) == Null then Ok(false) else Err(MissingKey("value")))
  {
  }

  /** What fields and values stand for: the trigger's own five names, the issue's other fields, the two references, and
      any other value itself. */
  lemma NamesResolve(ctx: RuleContext, name: string, v: Value)
    ensures ctx.ResolveField("from_state") == Str(ctx.fromState)
    ensures ctx.ResolveField("from_state_type") == Str(ctx.fromStateType)
    ensures ctx.ResolveField("to_state") == Str(ctx.toState)
    ensures ctx.ResolveField("to_state_type") == Str(ctx.toStateType)
    ensures ctx.ResolveField("current_user") == Str(ctx.currentUser)
    ensures name !in {"from_state", "from_state_type", "to_state", "to_state_type", "current_user"} ==>
      ctx.ResolveField(name) == if name in ctx.issue then ctx.issue[name] else Null
    ensures ctx.ResolveValue(Str("$current_user")) == Str(ctx.currentUser)
    ensures ctx.ResolveValue(Str("$current." + name)) == if name in ctx.issue then ctx.issue[name] else Null
    ensures (v.Str? ==> v.s != "$current_user" && !("$current." <= v.s)) ==> ctx.ResolveValue(v) == v
  {
    assert "from_state"[4] == '_' && |"from_state"| == 10 && |"from_state_type"| == 15 && |"to_state"| == 8;
    assert |"to_state_type"| == 13 && |"current_user"| == 12;
    assert ("$current." + name)[8] == '.' && "$current_user"[8] == '_';
    assert ("$current." + name)[|"$current."|..] == name;
  }

  // ---------- composites ----------

  /** The k-th condition is the first that does not evaluate to `passing`; it evaluates to r. */
  ghost predicate EndsAt(lib: Lib, db: Db, cs: seq<Cond>, ctx: RuleContext, team: Id, passing: bool, k: nat,
                         r: Result<bool>)
  {
    && k < |cs| && EvaluateWithDb(lib, db, cs[k], ctx, team) == r != Ok(passing)
    && forall j :: 0 <= j < k ==> EvaluateWithDb(lib, db, cs[j], ctx, team) == Ok(passing)
  }

  lemma {:induction false} AndEndsAtTheFirstList(lib: Lib, db: Db, cs: seq<Cond>, ctx: RuleContext, team: Id)
    ensures var r := EvaluateAllWithDb(lib, db, cs, ctx, team);
      if r == Ok(true) then forall k :: 0 <= k < |cs| ==> EvaluateWithDb(lib, db, cs[k], ctx, team) == Ok(true)
      else exists k :: EndsAt(lib, db, cs, ctx, team, true, k, r)
  {
    if cs != [] {
      hide EvaluateWithDb;
      var r := EvaluateAllWithDb(lib, db, cs, ctx, team);
      if EvaluateWithDb(lib, db, cs[0], ctx, team) == Ok(true) {
        AndEndsAtTheFirstList(lib, db, cs[1..], ctx, team);
        assert forall j :: 0 < j < |cs| ==> cs[j] == cs[1..][j - 1];
        if r != Ok(true) {
          var k: nat :| EndsAt(lib, db, cs[1..], ctx, team, true, k, r);
          assert EndsAt(lib, db, cs, ctx, team, true, k + 1, r);
        }
      } else {
        assert EndsAt(lib, db, cs, ctx, team, true, 0, r);
      }
    }
  }

  /** `and` is true when all conditions are; otherwise it ends with the first that is not true, false or an error. */
  lemma AndEndsAtTheFirst(lib: Lib, db: Db, cs: seq<Cond>, ctx: RuleContext, team: Id)
    ensures var r := EvaluateWithDb(lib, db, And(cs), ctx, team);
      if r == Ok(true) then forall k :: 0 <= k < |cs| ==> EvaluateWithDb(lib, db, cs[k], ctx, team) == Ok(true)
      else exists k :: EndsAt(lib, db, cs, ctx, team, true, k, r)
  {
    AndEndsAtTheFirstList(lib, db, cs, ctx, team);
  }

  lemma {:induction false} OrEndsAtTheFirstList(lib: Lib, db: Db, cs: seq<Cond>, ctx: RuleContext, team: Id)
    ensures var r := EvaluateAnyWithDb(lib, db, cs, ctx, team);
      if r == Ok(false) then forall k :: 0 <= k < |cs| ==> EvaluateWithDb(lib, db, cs[k], ctx, team) == Ok(false)
      else exists k :: EndsAt(lib, db, cs, ctx, team, false, k, r)
  {
    if cs != [] {
      hide EvaluateWithDb;
      var r := EvaluateAnyWithDb(lib, db, cs, ctx, team);
      if EvaluateWithDb(lib, db, cs[0], ctx, team) == Ok(false) {
        OrEndsAtTheFirstList(lib, db, cs[1..], ctx, team);
        assert forall j :: 0 < j < |cs| ==> cs[j] == cs[1..][j - 1];
        if r != Ok(false) {
          var k: nat :| EndsAt(lib, db, cs[1..], ctx, team, false, k, r);
          assert EndsAt(lib, db, cs, ctx, team, false, k + 1, r);
        }
      } else {
        assert EndsAt(lib, db, cs, ctx, team, false, 0, r);
      }
    }
  }

  /** `or` is false when all conditions are; otherwise it ends with the first that is not false, true or an error. */
  lemma OrEndsAtTheFirst(lib: Lib, db: Db, cs: seq<Cond>, ctx: RuleContext, team: Id)
    ensures var r := EvaluateWithDb(lib, db, Or(cs), ctx, team);
      if r == Ok(false) then forall k :: 0 <= k < |cs| ==> EvaluateWithDb(lib, db, cs[k], ctx, team) == Ok(false)
      else exists k :: EndsAt(lib, db, cs, ctx, team, false, k, r)
  {
    OrEndsAtTheFirstList(lib, db, cs, ctx, team);
  }

  lemma NotNegates(lib: Lib, db: Db, c: Cond, ctx: RuleContext, team: Id)
    ensures var r := EvaluateWithDb(lib, db, c, ctx, team);
      EvaluateWithDb(lib, db, Not(Some(c)), ctx, team) == (if r.Ok? then Ok(!r.value) else r)
    ensures Answers(lib, Not(None), ctx, Err(MissingInner))
    ensures Answers(lib, NoType, ctx, Err(MissingType))
    ensures forall name :: Answers(lib, Unknown(name), ctx, Err(UnknownType(name)))
  {
  }

  // ---------- queries ----------

  /** The list of a `state_type` filter names the category. */
  predicate Lists(types: seq<Value>, k: StateType) {
    Str(StateTypeText(k)) in types
  }

  predicate IsCategory(v: Value) {
    exists k: StateType :: v == Str(StateTypeText(k))
  }

  lemma CategoriesParse(v: Value, k: StateType)
    ensures IsCategory(v) <==> v.Str? && ParseStateType(v.s).Some?
    ensures v == Str(StateTypeText(k)) <==> v.Str? && ParseStateType(v.s) == Some(k)
  {
    forall j: StateType ensures ParseStateType(StateTypeText(j)) == Some(j) {
      ParseInvertsText(j);
    }
    if v.Str? && ParseStateType(v.s).Some? {
      assert v == Str(StateTypeText(ParseStateType(v.s).value));
    }
  }

  lemma {:induction false} TypesMean(types: seq<Value>)
    ensures ParseTypes(types).Ok? <==> forall v :: v in types ==> IsCategory(v)
    ensures ParseTypes(types).Err? ==> ParseTypes(types).error == BadStateType
    ensures ParseTypes(types).Ok? ==> forall k :: k in ParseTypes(types).value <==> Lists(types, k)
  {
    if types != [] {
      var first, rest := types[0], types[1..];
      assert types == [first] + rest;
      TypesMean(rest);
      CategoriesParse(first, Triage);
      hide IsCategory, ParseStateType;
      if ParseTypes(types).Ok? {
        forall k ensures k in ParseTypes(types).value <==> Lists(types, k) {
          CategoriesParse(first, k);
          assert Lists(types, k) <==> first == Str(StateTypeText(k)) || Lists(rest, k);
        }
      } else {
        assert exists v :: v in types && !IsCategory(v) by {
          if first.Str? && ParseStateType(first.s).Some? {
            var v :| v in rest && !IsCategory(v);
            assert v in types;
          } else {
            assert first in types && !IsCategory(first);
          }
        }
      }
    }
  }

  /** The issue is in one of the team's states of a listed category. */
  ghost predicate InListedState(db: Db, team: Id, i: Issue, types: seq<Value>) {
    exists s: Id :: i.Link(StateId) == Some(s) && s in db.states && db.states[s].team == team
      && Lists(types, db.states[s].kind)
  }

  /** What the where clause asks of an issue. */
  ghost predicate Wanted(lib: Lib, db: Db, w: Where, ctx: RuleContext, team: Id, i: Issue) {
    && i.team == team
    && (i.archived ==> w.includeArchived)
    && (w.stateType.Some? ==> InListedState(db, team, i, w.stateType.value))
    && (w.stateTypeNotIn.Some? ==> !InListedState(db, team, i, w.stateTypeNotIn.value))
    && Selects(lib, ctx, w.assignee, i, AssigneeId)
    && Selects(lib, ctx, w.project, i, ProjectId)
    && Selects(lib, ctx, w.parent, i, ParentId)
  }

  ghost function WantedIssues(lib: Lib, db: Db, w: Where, ctx: RuleContext, team: Id): set<Id> {
    set i | i in db.issues && Wanted(lib, db, w, ctx, team, db.issues[i])
  }

  lemma SelectedAreWanted(lib: Lib, db: Db, w: Where, ctx: RuleContext, team: Id)
    requires BuildFilters(lib, db, w, ctx, team).Ok?
    ensures Selected(db, BuildFilters(lib, db, w, ctx, team).value) == WantedIssues(lib, db, w, ctx, team)
  {
    if w.stateType.Some? {
      TypesMean(w.stateType.value);
    }
    if w.stateTypeNotIn.Some? {
      TypesMean(w.stateTypeNotIn.value);
    }
    forall i | i in db.issues
      ensures Accepts(BuildFilters(lib, db, w, ctx, team).value, db.issues[i])
        <==> Wanted(lib, db, w, ctx, team, db.issues[i])
    {
      FiltersMean(lib, db, w, ctx, team, db.issues[i]);
      hide BuildFilters, Accepts, Selects, ParseTypes, OtherFilters, Lists;
    }
  }

  /** A filter on assignee, project or parent is malformed: a truthy value that spells no UUID. */
  predicate BadReference(lib: Lib, ctx: RuleContext, value: Option<Value>) {
    value.Some? && ctx.ResolveValue(value.value).Truthy() && lib.parseId(Show(lib, ctx.ResolveValue(value.value))).None?
  }

  predicate BadReferences(lib: Lib, ctx: RuleContext, w: Where) {
    BadReference(lib, ctx, w.assignee) || BadReference(lib, ctx, w.project) || BadReference(lib, ctx, w.parent)
  }

  predicate BadTypes(types: Option<seq<Value>>) {
    types.Some? && exists v :: v in types.value && !IsCategory(v)
  }

  lemma QueryFailsExactly(lib: Lib, db: Db, w: Where, ctx: RuleContext, team: Id)
    ensures var r := BuildFilters(lib, db, w, ctx, team);
      && (r == Err(BadStateType) <==> BadTypes(w.stateType) || BadTypes(w.stateTypeNotIn))
      && (r == Err(BadUuid) <==> r != Err(BadStateType) && BadReferences(lib, ctx, w))
      && (r.Err? ==> r.error == BadStateType || r.error == BadUuid)
  {
    if w.stateType.Some? {
      TypesMean(w.stateType.value);
    }
    if w.stateTypeNotIn.Some? {
      TypesMean(w.stateTypeNotIn.value);
    }
    hide ParseTypes, IsCategory;
  }

  lemma TruthyExactly(v: Value)
    ensures !v.Truthy() <==> v in [Null, Bool(false), Int(0), Float(0.0), Str(""), Arr([]), Obj(map[])]
  {
  }

  lemma SumOfNone(db: Db)
    ensures SumEstimates(db, {}) == 0
  {
  }

  /** An issue adds its estimate to the sum, and nothing if it has none. */
  lemma SumAdds(db: Db, ids: set<Id>, i: Id)
    requires ids <= db.issues.Keys && i in db.issues && i !in ids
    ensures forall n :: db.issues[i].Get(Estimate) == Int(n) ==>
      SumEstimates(db, ids + {i}) == SumEstimates(db, ids) + n
    ensures db.issues[i].Get(Estimate) == Null ==> SumEstimates(db, ids + {i}) == SumEstimates(db, ids)
  {
    SumWithout(db, ids + {i}, i);
    assert ids + {i} - {i} == ids;
    hide SumEstimates;
  }

  /** The comparison operators on an integer bound, and what other operators and bounds give. */
  lemma ComparisonsMean(n: int, b: int, op: string, bound: Value)
    ensures Compare(n, ">=", Int(b)) == Ok(n >= b)
    ensures Compare(n, "<=", Int(b)) == Ok(n <= b)
    ensures Compare(n, ">", Int(b)) == Ok(n > b)
    ensures Compare(n, "<", Int(b)) == Ok(n < b)
    ensures Compare(n, "==", Int(b)) == Ok(n == b)
    ensures op !in {">=", "<=", ">", "<", "=="} ==> Compare(n, op, bound) == Err(UnknownOperator(op))
    ensures !(bound.Int? || bound.Float? || bound.Bool?) && op in {">=", "<=", ">", "<"} ==>
      Compare(n, op, bound) == Err(Uncomparable)
    ensures !(bound.Int? || bound.Float? || bound.Bool?) ==> Compare(n, "==", bound) == Ok(false)
  {
    assert (n as real < b as real) <==> n < b;
    assert (b as real < n as real) <==> b < n;
    assert (n as real == b as real) <==> n == b;
    assert |">="| == 2 && |"<="| == 2 && |"=="| == 2 && |">"| == 1 && |"<"| == 1;
    assert ">="[0] == '>' && "<="[0] == '<' && "=="[0] == '=' && ">"[0] == '>' && "<"[0] == '<';
  }

  /** count_query compares the number of wanted issues, estimate_sum the sum of their estimates. */
  lemma QueriesAnswer(lib: Lib, db: Db, w: Where, op: string, bound: Value, ctx: RuleContext, team: Id)
    ensures BuildFilters(lib, db, w, ctx, team).Ok? ==>
      var wanted := WantedIssues(lib, db, w, ctx, team);
      && EvaluateWithDb(lib, db, CountQuery(w, op, bound), ctx, team) == Compare(|wanted|, op, bound)
      && EvaluateWithDb(lib, db, EstimateSum(w, op, bound), ctx, team)
         == Compare(SumEstimates(db, wanted), op, bound)
    ensures forall e :: BuildFilters(lib, db, w, ctx, team) == Err(e) ==>
      && EvaluateWithDb(lib, db, CountQuery(w, op, bound), ctx, team) == Err(e)
      && EvaluateWithDb(lib, db, EstimateSum(w, op, bound), ctx, team) == Err(e)
  {
    hide BuildFilters, Compare, Selected, SumEstimates, WantedIssues;
    if BuildFilters(lib, db, w, ctx, team).Ok? {
      SelectedAreWanted(lib, db, w, ctx, team);
    }
  }
}
