/** rules/conditions.py: the condition language and its pure evaluator. */
module Conditions {
  import opened Values
  import opened Context

  datatype Order = Gt | Lt | Gte | Lte

  /** A condition object. An absent key is None; `and`/`or` read a missing list as empty. */
  datatype Cond =
    | FieldEquals(field: Option<string>, value: Option<Value>)
    | FieldIn(field: Option<string>, values: Option<seq<Value>>)
    | FieldIsNull(field: Option<string>)
    | FieldNotNull(field: Option<string>)
    | FieldContains(field: Option<string>, value: Option<Value>)
    | FieldOrder(order: Order, field: Option<string>, value: Option<Value>)
    | LabelHas(value: Option<Value>)
    | And(conditions: seq<Cond>)
    | Or(conditions: seq<Cond>)
    | Not(condition: Option<Cond>)
    | CountQuery(filter: Where, operator: string, bound: Value)
    | EstimateSum(filter: Where, operator: string, bound: Value)
    | NoType
    | Unknown(name: string)

  /** The `where` object of a database condition; a single state type is a one-element list. */
  datatype Where = Where(
    includeArchived: bool,
    stateType: Option<seq<Value>>,
    stateTypeNotIn: Option<seq<Value>>,
    assignee: Option<Value>,
    project: Option<Value>,
    parent: Option<Value>
  )

  function Key<T>(o: Option<T>, key: string): Result<T> {
    match o
    case Some(v) => Ok(v)
    case None => Err(MissingKey(key))
  }

  predicate StrLess(a: string, b: string) {
    if b == "" then false
    else if a == "" then true
    else a[0] < b[0] || (a[0] == b[0] && StrLess(a[1..], b[1..]))
  }

  /** Python's `<` on two JSON values. */
  function PyLess(a: Value, b: Value): Result<bool> {
    if a.IsNumber() && b.IsNumber() then Ok(a.Number() < b.Number())
    else if a.Str? && b.Str? then Ok(StrLess(a.s, b.s))
    else Err(Uncomparable)
  }

  function CompareOrder(order: Order, a: Value, b: Value): Result<bool> {
    if a.Null? || b.Null? then Ok(false)
    else match order
      case Lt => PyLess(a, b)
      case Gt => PyLess(b, a)
      case Gte => (var less :- PyLess(a, b); Ok(!less))
      case Lte => (var less :- PyLess(b, a); Ok(!less))
  }

  predicate Contains(s: string, part: string) {
    part <= s || (s != "" && Contains(s[1..], part))
  }

  predicate HasLabel(labels: seq<Value>, target: Value) {
    exists i :: 0 <= i < |labels| &&
      PyEq(if labels[i].Obj? then Get(labels[i].entries, "name") else labels[i], target)
  }

  function EvaluateLeaf(lib: Lib, c: Cond, ctx: RuleContext): Result<bool>
    requires !c.And? && !c.Or? && !c.Not?
  {
    match c
    case FieldEquals(f, v) =>
      var field :- Key(f, "field");
      var value :- Key(v, "value");
      Ok(PyEq(ctx.ResolveField(field), ctx.ResolveValue(value)))
    case FieldIn(f, vs) =>
      var field :- Key(f, "field");
      var values :- Key(vs, "values");
      Ok(exists i :: 0 <= i < |values| && PyEq(ctx.ResolveField(field), ctx.ResolveValue(values[i])))
    case FieldIsNull(f) =>
      var field :- Key(f, "field");
      Ok(ctx.ResolveField(field) == Null)
    case FieldNotNull(f) =>
      var field :- Key(f, "field");
      Ok(ctx.ResolveField(field) != Null)
    case FieldContains(f, v) =>
      var field :- Key(f, "field");
      var fieldValue := ctx.ResolveField(field);
      if fieldValue.Null? then Ok(false)
      else
        var value :- Key(v, "value");
        Ok(Contains(lib.lower(Show(lib, fieldValue)), lib.lower(Show(lib, ctx.ResolveValue(value)))))
    case FieldOrder(order, f, v) =>
      var field :- Key(f, "field");
      var value :- Key(v, "value");
      CompareOrder(order, ctx.ResolveField(field), ctx.ResolveValue(value))
    case LabelHas(v) =>
      var target :- Key(v, "value");
      var labels := Get(ctx.issue, "labels");
      Ok(labels.Arr? && HasLabel(labels.items, target))
    case CountQuery(_, _, _) => Err(NeedsDatabase)
    case EstimateSum(_, _, _) => Err(NeedsDatabase)
    case NoType => Err(MissingType)
    case Unknown(name) => Err(UnknownType(name))
  }

  /** `evaluate_condition`. */
  function Evaluate(lib: Lib, c: Cond, ctx: RuleContext): Result<bool>
    decreases c, 1
  {
    match c
    case And(cs) => EvaluateAll(lib, cs, ctx)
    case Or(cs) => EvaluateAny(lib, cs, ctx)
    case Not(None) => Err(MissingInner)
    case Not(Some(inner)) => (var b :- Evaluate(lib, inner, ctx); Ok(!b))
    case _ => EvaluateLeaf(lib, c, ctx)
  }

  function EvaluateAll(lib: Lib, cs: seq<Cond>, ctx: RuleContext): Result<bool>
    decreases cs, 0
  {
    if cs == [] then Ok(true)
    else
      var b :- Evaluate(lib, cs[0], ctx);
      if !b then Ok(false) else EvaluateAll(lib, cs[1..], ctx)
  }

  function EvaluateAny(lib: Lib, cs: seq<Cond>, ctx: RuleContext): Result<bool>
    decreases cs, 0
  {
    if cs == [] then Ok(false)
    else
      var b :- Evaluate(lib, cs[0], ctx);
      if b then Ok(true) else EvaluateAny(lib, cs[1..], ctx)
  }

  /** Does the tree hold a node that only the database can answer? */
  predicate UsesDatabase(c: Cond)
    decreases c
  {
    match c
    case CountQuery(_, _, _) => true
    case EstimateSum(_, _, _) => true
    case And(cs) => exists i :: 0 <= i < |cs| && UsesDatabase(cs[i])
    case Or(cs) => exists i :: 0 <= i < |cs| && UsesDatabase(cs[i])
    case Not(Some(inner)) => UsesDatabase(inner)
    case _ => false
  }
}
