/** What a rule sees, when it rejects, and what its actions write, said without the functions that do it. */
module RuleFacts {
  import opened Values
  import opened Transitions
  import opened Context
  import opened Conditions
  import opened Actions
  import opened Store
  import opened Queries
  import opened Evaluator
  import opened Effects
  import opened IssueSpec
  import opened ConditionFacts
  import Template

  // ---------- what a rule sees ----------

  ghost predicate IsId(lib: Lib, shown: Value, v: Value) {
    shown == if v.Ref? then Str(lib.show(v)) else Null
  }

  /** The fields of an issue row under the names that conditions use. */
  ghost predicate Shows(lib: Lib, ctx: RuleContext, row: Issue, state: WorkflowState) {
    && ctx.ResolveField("title") == row.Get(Title) && ctx.ResolveField("description") == row.Get(Description)
    && ctx.ResolveField("type") == row.Get(Kind) && ctx.ResolveField("priority") == row.Get(Priority)
    && ctx.ResolveField("estimate") == row.Get(Estimate)
    && IsId(lib, ctx.ResolveField("assignee_id"), row.Get(AssigneeId))
    && IsId(lib, ctx.ResolveField("project_id"), row.Get(ProjectId))
    && IsId(lib, ctx.ResolveField("parent_id"), row.Get(ParentId))
    && ctx.ResolveField("state") == Str(state.name)
    && (forall k :: ctx.ResolveField("state_type") == Str(StateTypeText(k)) <==> state.kind == k)
  }

  lemma TextsDiffer(j: StateType, k: StateType)
    ensures StateTypeText(j) == StateTypeText(k) <==> j == k
  {
    ParseInvertsText(j);
    ParseInvertsText(k);
  }

  lemma FieldsAreShown(lib: Lib, ctx: RuleContext, row: Issue, state: WorkflowState)
    requires ctx.issue == IssueFields(lib, row, state) || ctx.issue == IssueFields(lib, row, state)["labels" := Arr([])]
    ensures Shows(lib, ctx, row, state)
  {
    TextsAreShown(lib, ctx, row, state);
    IdsAreShown(lib, ctx, row, state);
    forall k ensures StateTypeText(state.kind) == StateTypeText(k) <==> state.kind == k {
      TextsDiffer(state.kind, k);
    }
    hide StateTypeText, IssueFields, RuleContext.ResolveField;
  }

  lemma TextsAreShown(lib: Lib, ctx: RuleContext, row: Issue, state: WorkflowState)
    requires ctx.issue == IssueFields(lib, row, state) || ctx.issue == IssueFields(lib, row, state)["labels" := Arr([])]
    ensures ctx.ResolveField("title") == row.Get(Title) && ctx.ResolveField("description") == row.Get(Description)
    ensures ctx.ResolveField("type") == row.Get(Kind) && ctx.ResolveField("priority") == row.Get(Priority)
    ensures ctx.ResolveField("estimate") == row.Get(Estimate)
  {
    hide StateTypeText, Issue.Get, IdText;
  }

  lemma IdsAreShown(lib: Lib, ctx: RuleContext, row: Issue, state: WorkflowState)
    requires ctx.issue == IssueFields(lib, row, state) || ctx.issue == IssueFields(lib, row, state)["labels" := Arr([])]
    ensures IsId(lib, ctx.ResolveField("assignee_id"), row.Get(AssigneeId))
    ensures IsId(lib, ctx.ResolveField("project_id"), row.Get(ProjectId))
    ensures IsId(lib, ctx.ResolveField("parent_id"), row.Get(ParentId))
    ensures ctx.ResolveField("state") == Str(state.name)
    ensures ctx.ResolveField("state_type") == Str(StateTypeText(state.kind))
  {
    hide StateTypeText, Issue.Get;
  }

  /** A creation's rules see the new row, its state as the one moved to, and no state it came from. */
  lemma CreationShows(lib: Lib, row: Issue, state: WorkflowState, user: Id)
    ensures var ctx := CreateContext(lib, row, state, user);
      && Shows(lib, ctx, row, state) && ctx.ResolveValue(Str("$current_user")) == Str(lib.show(Ref(user)))
      && ctx.ResolveField("from_state") == Str("") && ctx.ResolveField("from_state_type") == Str("")
      && ctx.ResolveField("to_state") == Str(state.name)
      && (forall k :: ctx.ResolveField("to_state_type") == Str(StateTypeText(k)) <==> state.kind == k)
  {
    FieldsAreShown(lib, CreateContext(lib, row, state, user), row, state);
    forall k ensures StateTypeText(state.kind) == StateTypeText(k) <==> state.kind == k {
      TextsDiffer(state.kind, k);
    }
    hide StateTypeText, IssueFields;
    NamesResolve(CreateContext(lib, row, state, user), "", Null);
  }

  /** An update's rules see the row as it was before, whatever the patch says. */
  lemma UpdateShows(lib: Lib, db: Db, row: Issue, patch: Patch, current: WorkflowState, user: Option<Id>)
    ensures var ctx := UpdateContext(lib, db, row, patch, current, user);
      && Shows(lib, ctx, row, current)
      && ctx.ResolveValue(Str("$current_user")) == Str(if user.Some? then lib.show(Ref(user.value)) else "")
  {
    var ctx := UpdateContext(lib, db, row, patch, current, user);
    FieldsAreShown(lib, ctx, row, current);
    NamesResolve(ctx, "", Null);
    hide StateTypeText, IssueFields, Shows;
  }

  /** Of the patch they see only the state it moves to; without a move all four state names are empty. */
  lemma UpdateShowsMoves(lib: Lib, db: Db, row: Issue, patch: Patch, current: WorkflowState, user: Option<Id>, s: Id)
    requires StateId in patch ==> patch[StateId] == Ref(s) && s in db.states
    ensures var ctx := UpdateContext(lib, db, row, patch, current, user);
      if StateId in patch && row.Get(StateId) != Ref(s) then MovesShown(ctx, current, db.states[s])
        else NoMoveShown(ctx)
  {
    var ctx := UpdateContext(lib, db, row, patch, current, user);
    NamesResolve(ctx, "", Null);
    forall j: StateType, k: StateType ensures StateTypeText(j) == StateTypeText(k) <==> j == k {
      TextsDiffer(j, k);
    }
    hide StateTypeText, IssueFields, RuleContext.ResolveField, RuleContext.ResolveValue;
  }

  ghost predicate MovesShown(ctx: RuleContext, from: WorkflowState, to: WorkflowState) {
    && ctx.ResolveField("from_state") == Str(from.name) && ctx.ResolveField("to_state") == Str(to.name)
    && (forall k :: ctx.ResolveField("from_state_type") == Str(StateTypeText(k)) <==> from.kind == k)
    && (forall k :: ctx.ResolveField("to_state_type") == Str(StateTypeText(k)) <==> to.kind == k)
  }

  ghost predicate NoMoveShown(ctx: RuleContext) {
    && ctx.ResolveField("from_state") == Str("") && ctx.ResolveField("from_state_type") == Str("")
    && ctx.ResolveField("to_state") == Str("") && ctx.ResolveField("to_state_type") == Str("")
  }

  // ---------- what an action becomes ----------

  function RejectText(message: Option<Value>): Value {
    match message
    case Some(v) => v
    case None => Str("Operation rejected by rule")
  }

  /** The effect an action stands for in a context. */
  ghost predicate Carries(lib: Lib, a: Action, ctx: RuleContext, e: Effect) {
    match e
    case Rejects(m) => a.Reject? && RenderMessage(lib, RejectText(a.message), ctx) == Ok(m)
    case Sets(f, v) => a.SetField? && a.field == Some(f) && a.value.Some? && v == ctx.ResolveValue(a.value.value)
    case Labels(name) => a == AddLabel(Some(name))
    case Comments(body) => a.AddComment? && a.body.Some? && RenderMessage(lib, a.body.value, ctx) == Ok(body)
    case Notifies(m, user) =>
      && a.Notify? && a.message.Some? && RenderMessage(lib, a.message.value, ctx) == Ok(m)
      && user == ctx.ResolveValue(a.userId)
  }

  lemma {:induction false} PreparedEffectsCarryTheActions(lib: Lib, actions: seq<Action>, ctx: RuleContext)
    requires PrepareAll(lib, actions, ctx).Ok?
    ensures var effects := PrepareAll(lib, actions, ctx).value;
      |effects| == |actions| && forall k :: 0 <= k < |actions| ==> Carries(lib, actions[k], ctx, effects[k])
  {
    if actions != [] {
      PreparedEffectsCarryTheActions(lib, actions[1..], ctx);
      hide RenderMessage;
      assert Carries(lib, actions[0], ctx, Prepare(lib, actions[0], ctx).value);
      hide Carries, Prepare;
      assert PrepareAll(lib, actions, ctx).value
        == [Prepare(lib, actions[0], ctx).value] + PrepareAll(lib, actions[1..], ctx).value;
    }
  }

  /** The five placeholders of a message, in any text around them. */
  function PlaceholderText(lib: Lib, ctx: RuleContext, name: string): string {
    var field := if name == "assignee" then "assignee_id" else if name == "project" then "project_id" else name;
    if name == "state" && ctx.toState != "" then ctx.toState
    else if field in ctx.issue then Show(lib, ctx.issue[field]) else ""
  }

  lemma PlaceholdersAreReplaced(lib: Lib, ctx: RuleContext, a: string, name: string, b: string)
    requires Template.BracesAreNotWords(lib.word) && forall c :: 'a' <= c <= 'z' ==> lib.word(c)
    requires name in ["title", "priority", "assignee", "state", "project"]
    ensures RenderMessage(lib, Str(a), ctx).Ok? && RenderMessage(lib, Str(b), ctx).Ok?
    ensures RenderMessage(lib, Str(a + ("{" + name + "}" + b)), ctx)
      == Ok(RenderMessage(lib, Str(a), ctx).value
            + (PlaceholderText(lib, ctx, name) + RenderMessage(lib, Str(b), ctx).value))
  {
    NamesAreWords(lib, name);
    ReplacementOf(lib, ctx, name);
    hide Template.Render, Replacements, PlaceholderText;
    Template.RenderingIsSinglePass(lib.word, a, name, b, Replacements(lib, ctx));
  }

  lemma NamesAreWords(lib: Lib, name: string)
    requires forall c :: 'a' <= c <= 'z' ==> lib.word(c)
    requires name in ["title", "priority", "assignee", "state", "project"]
    ensures name != "" && forall i :: 0 <= i < |name| ==> lib.word(name[i])
  {
  }

  lemma ReplacementOf(lib: Lib, ctx: RuleContext, name: string)
    requires name in ["title", "priority", "assignee", "state", "project"]
    ensures name in Replacements(lib, ctx) && Replacements(lib, ctx)[name] == PlaceholderText(lib, ctx, name)
  {
  }

  // ---------- when a rule rejects ----------

  ghost predicate FirstReject(actions: seq<Action>, k: nat) {
    k < |actions| && actions[k].Reject? && forall j :: 0 <= j < k ==> !actions[j].Reject?
  }

  /** The rule's condition holds and its actions can be prepared. */
  ghost predicate Acts(lib: Lib, db: Db, rule: Rule, ctx: RuleContext, team: Id) {
    Matches(lib, db, rule, ctx, team) == Ok(true) && PrepareAll(lib, rule.actions, ctx).Ok?
  }

  lemma {:induction false} FirstRejectionIsTheFirst(effects: seq<Effect>)
    ensures match FirstRejection(effects)
      case None => forall j :: 0 <= j < |effects| ==> !effects[j].Rejects?
      case Some(m) => exists k :: 0 <= k < |effects| && effects[k] == Rejects(m) && NoneBefore(effects, k)
  {
    if effects != [] {
      FirstRejectionIsTheFirst(effects[1..]);
      assert effects == [effects[0]] + effects[1..];
      if effects[0].Rejects? {
        assert NoneBefore(effects, 0);
      } else if FirstRejection(effects).Some? {
        var m := FirstRejection(effects).value;
        var k :| 0 <= k < |effects[1..]| && effects[1..][k] == Rejects(m) && NoneBefore(effects[1..], k);
        assert effects[k + 1] == Rejects(m);
        assert forall j :: 0 < j < k + 1 ==> effects[j] == effects[1..][j - 1];
        assert NoneBefore(effects, k + 1);
      }
    }
  }

  ghost predicate NoneBefore(effects: seq<Effect>, k: nat) {
    k <= |effects| && forall j :: 0 <= j < k ==> !effects[j].Rejects?
  }

  /** The rendered message of the first reject among the actions. */
  ghost predicate RejectsWith(lib: Lib, actions: seq<Action>, ctx: RuleContext, k: nat, m: string) {
    FirstReject(actions, k) && RenderMessage(lib, RejectText(actions[k].message), ctx) == Ok(m)
  }

  lemma RejectionOfCarried(lib: Lib, actions: seq<Action>, ctx: RuleContext, effects: seq<Effect>, m: string)
    requires |effects| == |actions| && forall k :: 0 <= k < |actions| ==> Carries(lib, actions[k], ctx, effects[k])
    ensures FirstRejection(effects) == Some(m) <==> exists k :: RejectsWith(lib, actions, ctx, k, m)
  {
    hide RenderMessage;
    FirstRejectionIsTheFirst(effects);
    forall j | 0 <= j < |effects|
      ensures effects[j].Rejects? <==> actions[j].Reject?
      ensures effects[j] == Rejects(m)
        <==> actions[j].Reject? && RenderMessage(lib, RejectText(actions[j].message), ctx) == Ok(m)
    {
      assert Carries(lib, actions[j], ctx, effects[j]);
    }
    hide Carries, FirstRejection;
    if FirstRejection(effects) == Some(m) {
      var k: nat :| k < |effects| && effects[k] == Rejects(m) && NoneBefore(effects, k);
      assert RejectsWith(lib, actions, ctx, k, m);
    }
    if k: nat :| RejectsWith(lib, actions, ctx, k, m) {
      assert effects[k].Rejects?;
      var first := FirstRejection(effects).value;
      var l: nat :| l < |effects| && effects[l] == Rejects(first) && NoneBefore(effects, l);
      assert l == k;
    }
  }

  /** A rule rejects exactly when it acts and one of its actions is a reject, with the rendered message of the first. */
  lemma RejectsExactly(lib: Lib, db: Db, rule: Rule, ctx: RuleContext, team: Id, stop: Stop)
    requires stop.Rejected?
    ensures Judge(lib, db, rule, ctx, team) == Halt(stop)
      <==>
        && Acts(lib, db, rule, ctx, team) && stop.rule == rule.id
        && exists k :: RejectsWith(lib, rule.actions, ctx, k, stop.message)
  {
    if Acts(lib, db, rule, ctx, team) {
      PreparedEffectsCarryTheActions(lib, rule.actions, ctx);
      RejectionOfCarried(lib, rule.actions, ctx, PrepareAll(lib, rule.actions, ctx).value, stop.message);
      hide PrepareAll, Matches, FirstRejection, RejectsWith, Carries;
    } else {
      hide PrepareAll, Matches, FirstRejection, RejectsWith, Carries;
    }
  }

  lemma CarriedRejects(lib: Lib, actions: seq<Action>, ctx: RuleContext, effects: seq<Effect>)
    requires |effects| == |actions| && forall k :: 0 <= k < |actions| ==> Carries(lib, actions[k], ctx, effects[k])
    ensures forall k :: 0 <= k < |effects| ==> (effects[k].Rejects? <==> actions[k].Reject?)
  {
    forall k | 0 <= k < |effects| ensures effects[k].Rejects? <==> actions[k].Reject? {
      assert Carries(lib, actions[k], ctx, effects[k]);
      hide RenderMessage;
    }
  }

  /** It fires exactly when it acts and none of its actions is a reject. */
  lemma FiresExactly(lib: Lib, db: Db, rule: Rule, ctx: RuleContext, team: Id)
    ensures Judge(lib, db, rule, ctx, team).Fire?
      <==> Acts(lib, db, rule, ctx, team) && forall k :: 0 <= k < |rule.actions| ==> !rule.actions[k].Reject?
    ensures Judge(lib, db, rule, ctx, team).Skip? <==> Matches(lib, db, rule, ctx, team) == Ok(false)
    ensures Judge(lib, db, rule, ctx, team).Fire? ==>
      PrepareAll(lib, rule.actions, ctx) == Ok(Judge(lib, db, rule, ctx, team).effects)
  {
    if Acts(lib, db, rule, ctx, team) {
      var effects := PrepareAll(lib, rule.actions, ctx).value;
      PreparedEffectsCarryTheActions(lib, rule.actions, ctx);
      FirstRejectionIsTheFirst(effects);
      CarriedRejects(lib, rule.actions, ctx, effects);
      hide PrepareAll, Matches, FirstRejection, Carries;
    }
  }

  /** A rule without conditions always matches. */
  lemma NoConditionMatches(lib: Lib, db: Db, rule: Rule, ctx: RuleContext, team: Id)
    ensures Matches(lib, db, rule, ctx, team)
      == (if rule.conditions == None then Ok(true) else EvaluateWithDb(lib, db, rule.conditions.value, ctx, team))
  {
  }

  /** The k-th rule is the first that halts. */
  ghost predicate HaltsAt(lib: Lib, db: Db, rules: seq<Rule>, ctx: RuleContext, team: Id, k: nat, stop: Stop) {
    && k < |rules| && Judge(lib, db, rules[k], ctx, team) == Halt(stop)
    && forall j :: 0 <= j < k ==> !Judge(lib, db, rules[j], ctx, team).Halt?
  }

  lemma {:induction false} TheFirstHaltDecides(lib: Lib, db: Db, rules: seq<Rule>, ctx: RuleContext, team: Id)
    ensures var v := EvaluateInOrder(lib, db, rules, ctx, team);
      if v.Stopped? then exists k :: HaltsAt(lib, db, rules, ctx, team, k, v.stop)
      else forall k :: 0 <= k < |rules| ==> !Judge(lib, db, rules[k], ctx, team).Halt?
  {
    hide Judge;
    if rules != [] {
      TheFirstHaltDecides(lib, db, rules[1..], ctx, team);
      assert forall j :: 0 < j < |rules| ==> rules[j] == rules[1..][j - 1];
      var v := EvaluateInOrder(lib, db, rules, ctx, team);
      if v.Stopped? {
        if Judge(lib, db, rules[0], ctx, team).Halt? {
          assert HaltsAt(lib, db, rules, ctx, team, 0, v.stop);
        } else {
          assert EvaluateInOrder(lib, db, rules[1..], ctx, team) == Stopped(v.stop);
          var k: nat :| HaltsAt(lib, db, rules[1..], ctx, team, k, v.stop);
          assert HaltsAt(lib, db, rules, ctx, team, k + 1, v.stop);
        }
      }
    }
  }

  /** A write is rejected by an asked rule whose condition holds and one of whose actions is a reject: nothing else
      rejects. */
  lemma OnlyRejectsReject(lib: Lib, db: Db, rules: seq<Rule>, ctx: RuleContext, team: Id, stop: Stop)
    requires EvaluateInOrder(lib, db, rules, ctx, team) == Stopped(stop) && stop.Rejected?
    ensures exists r, k :: r in rules && RejectsWith(lib, r.actions, ctx, k, stop.message)
                             && r.id == stop.rule && Matches(lib, db, r, ctx, team) == Ok(true)
  {
    TheFirstHaltDecides(lib, db, rules, ctx, team);
    var n: nat :| HaltsAt(lib, db, rules, ctx, team, n, stop);
    RejectsExactly(lib, db, rules[n], ctx, team, stop);
    hide Matches, PrepareAll, RejectsWith;
    assert rules[n] in rules;
  }

  // ---------- which errors are caught ----------

  /** What the database evaluator can raise; it never asks for a database. */
  ghost predicate IsConditionError(e: Error) {
    e.MissingType? || e.UnknownType? || e.MissingInner? || e.UnknownOperator? || e.BadStateType? || e.BadUuid?
    || e.MissingKey? || e.Uncomparable?
  }

  lemma QueryErrors(lib: Lib, db: Db, w: Where, op: string, bound: Value, ctx: RuleContext, team: Id)
    ensures CountOf(lib, db, w, ctx, team).Err? ==> IsConditionError(CountOf(lib, db, w, ctx, team).error)
    ensures SumOf(lib, db, w, ctx, team).Err? ==> IsConditionError(SumOf(lib, db, w, ctx, team).error)
    ensures forall n: int :: Compare(n, op, bound).Err? ==> IsConditionError(Compare(n, op, bound).error)
  {
    QueryFailsExactly(lib, db, w, ctx, team);
    hide BuildFilters, Selected, SumEstimates;
  }

  lemma LeafErrors(lib: Lib, c: Cond, ctx: RuleContext)
    requires !c.And? && !c.Or? && !c.Not? && !c.CountQuery? && !c.EstimateSum?
    ensures Evaluate(lib, c, ctx).Err? ==> IsConditionError(Evaluate(lib, c, ctx).error)
  {
    hide Contains, HasLabel, StrLess, Show, PyEq;
  }

  lemma {:induction false} ConditionErrors(lib: Lib, db: Db, c: Cond, ctx: RuleContext, team: Id)
    ensures EvaluateWithDb(lib, db, c, ctx, team).Err? ==> IsConditionError(EvaluateWithDb(lib, db, c, ctx, team).error)
    decreases c, 1
  {
    hide CountOf, SumOf, Compare, Evaluate;
    if c.CountQuery? || c.EstimateSum? {
      QueryErrors(lib, db, c.filter, c.operator, c.bound, ctx, team);
    } else if c.And? || c.Or? {
      ListErrors(lib, db, c.conditions, ctx, team);
    } else if c.Not? {
      if c.condition.Some? {
        ConditionErrors(lib, db, c.condition.value, ctx, team);
      }
    } else {
      LeafErrors(lib, c, ctx);
    }
  }

  lemma {:induction false} ListErrors(lib: Lib, db: Db, cs: seq<Cond>, ctx: RuleContext, team: Id)
    ensures var r := EvaluateAllWithDb(lib, db, cs, ctx, team); r.Err? ==> IsConditionError(r.error)
    ensures var r := EvaluateAnyWithDb(lib, db, cs, ctx, team); r.Err? ==> IsConditionError(r.error)
    decreases cs, 0
  {
    if cs != [] {
      ConditionErrors(lib, db, cs[0], ctx, team);
      ListErrors(lib, db, cs[1..], ctx, team);
    }
  }

  lemma {:induction false} PreparationErrors(lib: Lib, actions: seq<Action>, ctx: RuleContext)
    requires PrepareAll(lib, actions, ctx).Err?
    ensures var e := PrepareAll(lib, actions,
      ctx).error; e.MissingKey? || e.NotText? || e.MissingType? || e.UnknownType?
  {
    hide RenderMessage;
    RenderingErrors(lib, ctx);
    if Prepare(lib, actions[0], ctx).Ok? {
      PreparationErrors(lib, actions[1..], ctx);
    }
  }

  lemma RenderingErrors(lib: Lib, ctx: RuleContext)
    ensures forall t: Value :: RenderMessage(lib, t, ctx).Ok? <==> t.Str?
    ensures forall t: Value :: RenderMessage(lib, t, ctx).Err? ==> RenderMessage(lib, t, ctx).error == NotText
  {
    hide Template.Render, Replacements;
  }

  /** A condition without a key and a comparison of different types are uncaught errors; every other error of a
      condition is reported as a malformed rule. In an action only a text that is no string is uncaught. */
  lemma MalformedExactly(lib: Lib, db: Db, rule: Rule, ctx: RuleContext, team: Id)
    ensures var j := Judge(lib, db, rule, ctx, team);
      match Matches(lib, db, rule, ctx, team)
      case Err(e) => j == Halt(if e.MissingKey? || e.Uncomparable? then Uncaught(e) else Malformed(rule.id, e))
      case Ok(false) => j == Skip
      case Ok(true) =>
        forall e :: PrepareAll(lib, rule.actions, ctx) == Err(e) ==>
          j == Halt(if e.NotText? then Uncaught(e) else Malformed(rule.id, e))
  {
    if rule.conditions.Some? {
      ConditionErrors(lib, db, rule.conditions.value, ctx, team);
    }
    if PrepareAll(lib, rule.actions, ctx).Err? {
      PreparationErrors(lib, rule.actions, ctx);
    }
    hide PrepareAll, EvaluateWithDb;
  }

  // ---------- what accepted rules write ----------

  function Tagged(id: Id, actions: seq<Action>): seq<(Id, Action)> {
    seq(|actions|, k requires 0 <= k < |actions| => (id, actions[k]))
  }

  /** The actions of the asked rules whose condition holds, in the order of the rules. */
  ghost function ActionsTaken(lib: Lib, db: Db, rules: seq<Rule>, ctx: RuleContext, team: Id): seq<(Id, Action)> {
    if rules == [] then [] else
      (if Matches(lib, db, rules[0], ctx, team) == Ok(true) then Tagged(rules[0].id, rules[0].actions) else [])
      + ActionsTaken(lib, db, rules[1..], ctx, team)
  }

  ghost predicate AreEffectsOf(lib: Lib, ctx: RuleContext, ps: seq<Pending>, taken: seq<(Id, Action)>) {
    && |ps| == |taken|
    && forall k :: 0 <= k < |ps| ==> ps[k].rule == taken[k].0 && Carries(lib, taken[k].1, ctx, ps[k].effect)
  }

  /** The effects of an accepted write are those of the actions taken, one for one and in their order, each under its
      own rule. */
  lemma {:induction false} AcceptedEffectsAreTheActionsTaken(lib: Lib, db: Db, rules: seq<Rule>, ctx: RuleContext,
                                                             team: Id)
    requires EvaluateInOrder(lib, db, rules, ctx, team).Accepted?
    ensures AreEffectsOf(lib, ctx, Flatten(EvaluateInOrder(lib, db, rules, ctx, team).firings),
                         ActionsTaken(lib, db, rules, ctx, team))
  {
    if rules != [] {
      FiresExactly(lib, db, rules[0], ctx, team);
      var j := Judge(lib, db, rules[0], ctx, team);
      hide Judge, Matches, PrepareAll, Carries, Flatten;
      AcceptedEffectsAreTheActionsTaken(lib, db, rules[1..], ctx, team);
      var rest := EvaluateInOrder(lib, db, rules[1..], ctx, team).firings;
      if j.Fire? {
        PreparedEffectsCarryTheActions(lib, rules[0].actions, ctx);
        FlattenConcat([Firing(rules[0].id, j.effects)], rest);
        FlattenOne(rules[0].id, j.effects);
        EffectsOfConcat(lib, ctx, Tag(rules[0].id, j.effects), Flatten(rest), Tagged(rules[0].id, rules[0].actions),
          ActionsTaken(lib, db, rules[1..], ctx, team));
      } else {
        assert [] + ActionsTaken(lib, db, rules[1..], ctx, team) == ActionsTaken(lib, db, rules[1..], ctx, team);
      }
    } else {
      assert Flatten([]) == [];
    }
  }

  lemma EffectsOfConcat(lib: Lib, ctx: RuleContext, ps: seq<Pending>, qs: seq<Pending>, taken: seq<(Id, Action)>,
                        more: seq<(Id, Action)>)
    requires AreEffectsOf(lib, ctx, ps, taken) && AreEffectsOf(lib, ctx, qs, more)
    ensures AreEffectsOf(lib, ctx, ps + qs, taken + more)
  {
    hide Carries;
  }

  lemma FlattenOne(rule: Id, effects: seq<Effect>)
    ensures Flatten([Firing(rule, effects)]) == Tag(rule, effects)
  {
    assert [Firing(rule, effects)][1..] == [];
    assert Tag(rule, effects) + [] == Tag(rule, effects);
  }

  /** The fields a set_field action may name, and the columns they are. */
  lemma AllowedFieldsAre(name: string)
    ensures AllowedField("priority") == Some(Priority) && AllowedField("estimate") == Some(Estimate)
    ensures AllowedField("assignee_id") == Some(AssigneeId) && AllowedField("project_id") == Some(ProjectId)
    ensures AllowedField("due_date") == Some(DueDate) && AllowedField("state_id") == Some(StateId)
    ensures AllowedField(name).Some?
      <==> name in SETTABLE
  {
    assert |"priority"| == 8 && |"estimate"| == 8 && |"assignee_id"| == 11 && |"project_id"| == 10;
    assert |"due_date"| == 8 && |"state_id"| == 8;
    assert "priority"[0] == 'p' && "estimate"[0] == 'e' && "due_date"[0] == 'd' && "state_id"[0] == 's';
  }

  const SETTABLE: seq<string> := ["priority", "estimate", "assignee_id", "project_id", "due_date", "state_id"]

  lemma ValidActionsAre(a: Action)
    ensures ValidAction(a)
      <==> !a.NoType? && !a.Unknown? && (a.SetField? ==> a.field.Some? && a.field.value in SETTABLE)
  {
    if a.SetField? && a.field.Some? {
      AllowedFieldsAre(a.field.value);
    }
    hide AllowedField;
  }

  /** A rule that sets a field and a rule that reads it mean the same column. */
  lemma RulesReadWhatTheySet(lib: Lib, row: Issue, state: WorkflowState, name: string, v: Value, ctx: RuleContext)
    requires name in ["priority", "estimate", "assignee_id", "project_id"]
    requires AllowedField(name).Some?
      && ctx.issue == IssueFields(lib, row.(cells := row.cells[AllowedField(name).value := v]), state)
    ensures name in ["priority", "estimate"] ==> ctx.ResolveField(name) == v
    ensures name in ["assignee_id", "project_id"] ==> IsId(lib, ctx.ResolveField(name), v)
  {
    AllowedFieldsAre(name);
    FieldsAreShown(lib, ctx, row.(cells := row.cells[AllowedField(name).value := v]), state);
    hide AllowedField, IssueFields;
  }

  /** Of the actions taken, the last set_field on a column decides what it holds: the value as it resolves in the
      context, as the driver binds it. */
  lemma LastActionWins(lib: Lib, db: Db, rules: seq<Rule>, ctx: RuleContext, team: Id, k: nat, c: Column)
    requires EvaluateInOrder(lib, db, rules, ctx, team).Accepted?
    requires var taken := ActionsTaken(lib, db, rules, ctx, team);
      && k < |taken| && SetsColumn(taken[k].1, c)
      && forall j :: k < j < |taken| ==> !SetsColumn(taken[j].1, c)
    ensures var taken, ps := ActionsTaken(lib, db, rules, ctx, team),
        Flatten(EvaluateInOrder(lib, db, rules, ctx, team).firings);
      && c in SetFields(lib, ps) && taken[k].1.value.Some?
      && SetFields(lib, ps)[c] == lib.bind(c, ctx.ResolveValue(taken[k].1.value.value))
  {
    AcceptedEffectsAreTheActionsTaken(lib, db, rules, ctx, team);
    hide EvaluateInOrder, ActionsTaken, Flatten, SetFields, RenderMessage, AllowedField;
    var taken, ps := ActionsTaken(lib, db, rules, ctx, team),
      Flatten(EvaluateInOrder(lib, db, rules, ctx, team).firings);
    forall j | 0 <= j < |ps|
      ensures SetsColumn(taken[j].1, c) <==> ps[j].effect.Sets? && AllowedField(ps[j].effect.field) == Some(c)
    {
      assert Carries(lib, taken[j].1, ctx, ps[j].effect);
    }
    LastWriterWins(lib, ps, k, c);
  }

  // ---------- when effects cannot be applied ----------

  /** The effect fails on these tables: a field outside the whitelist, a label looked up while the row does not fit,
      under a name that is no string or that two labels of the team have, or a recipient who is not the text of a
      user's id. */
  ghost predicate EffectFails(lib: Lib, db: Db, id: Id, e: Effect)
    requires id in db.issues
  {
    match e
    case Sets(f, _) => f !in SETTABLE
    case Labels(name) =>
      !RowOk(db, db.issues[id]) || !(name.Null? || name.Str?)
      || (exists l, m :: l != m && HasName(db, id, l, name) && HasName(db, id, m, name))
    case Notifies(_, user) => user.Truthy()
      && !(user.Str? && exists u :: u in db.users && lib.parseId(user.s) == Some(u))
    case _ => false
  }

  ghost predicate HasName(db: Db, id: Id, l: Id, name: Value)
    requires id in db.issues
  {
    l in db.labels && db.labels[l].team == db.issues[id].team && Str(db.labels[l].name) == name
  }

  lemma OneEffectFails(lib: Lib, db: Db, id: Id, p: Pending, user: Id)
    requires id in db.issues
    ensures ApplyOne(lib, db, id, p, user).Err? <==> EffectFails(lib, db, id, p.effect)
  {
    hide RowOk;
    match p.effect
    case Sets(f, v) => AllowedFieldsAre(f);
    case Labels(name) =>
      if name.Str? {
        var labels := LabelsNamed(db, db.issues[id].team, name.s);
        forall l ensures l in labels <==> HasName(db, id, l, name) {
        }
        TwoMembers(labels);
        hide LabelsNamed, HasName;
      }
    case _ =>
  }

  lemma TwoMembers(ids: set<Id>)
    ensures |ids| > 1 <==> exists l, m :: l != m && l in ids && m in ids
  {
    if |ids| > 1 {
      var l :| l in ids;
      assert |ids - {l}| > 0;
      var m :| m in ids - {l};
      assert l != m && l in ids && m in ids;
    }
    forall l, m | l != m && l in ids && m in ids ensures |ids| > 1 {
      assert |{l, m}| == 2 && {l, m} <= ids;
      SubsetSize({l, m}, ids);
    }
  }

  lemma SubsetSize(a: set<Id>, b: set<Id>)
    requires a <= b
    ensures |a| <= |b|
  {
    assert |b| == |a| + |b - a| by {
      assert b == a + (b - a);
    }
  }

  /** Applying effects fails exactly when one of them fails on the tables that the ones before it have left. */
  lemma {:induction false} EffectsFailExactly(lib: Lib, db: Db, id: Id, ps: seq<Pending>, user: Id)
    requires id in db.issues
    ensures ApplyAll(lib, db, id, ps, user).Err? <==> exists k :: FailsAt(lib, db, id, ps, user, k)
    decreases |ps|
  {
    if ps == [] {
    } else {
      var n := |ps| - 1;
      assert ps == ps[..n] + [ps[n]];
      EffectsFailExactly(lib, db, id, ps[..n], user);
      ApplyAllConcat(lib, db, id, ps[..n], [ps[n]], user);
      var before := ApplyAll(lib, db, id, ps[..n], user);
      hide ApplyAll, EffectFails;
      forall k | 0 <= k < n ensures FailsAt(lib, db, id, ps, user, k) <==> FailsAt(lib, db, id, ps[..n], user, k) {
        assert ps[..n][..k] == ps[..k] && ps[..n][k] == ps[k];
      }
      if before.Ok? {
        ApplySingle(lib, before.value, id, ps[n], user);
        OneEffectFails(lib, before.value, id, ps[n], user);
        assert FailsAt(lib, db, id, ps, user, n) <==> ApplyOne(lib, before.value, id, ps[n], user).Err?;
      }
    }
  }

  lemma ApplySingle(lib: Lib, db: Db, id: Id, p: Pending, user: Id)
    requires id in db.issues
    ensures ApplyAll(lib, db, id, [p], user) == ApplyOne(lib, db, id, p, user)
  {
    assert [p][1..] == [];
  }

  ghost predicate FailsAt(lib: Lib, db: Db, id: Id, ps: seq<Pending>, user: Id, k: nat)
    requires id in db.issues
  {
    k < |ps| && var before := ApplyAll(lib, db, id, ps[..k], user);
    before.Ok? && EffectFails(lib, before.value, id, ps[k].effect)
  }

  /** What applied effects leave, said of the tables: only the issue's row changes; it gains the team's labels of the
      names given, and the comments and notifications come after the old ones. */
  lemma EffectsLeave(lib: Lib, db: Db, id: Id, ps: seq<Pending>, user: Id)
    requires id in db.issues && ApplyAll(lib, db, id, ps, user).Ok?
    ensures var next := ApplyAll(lib, db, id, ps, user).value;
      && next.issues.Keys == db.issues.Keys
           && (forall i :: i in db.issues && i != id ==> next.issues[i] == db.issues[i])
      && (forall c :: next.issues[id].Get(c) == if c in SetFields(lib, ps) then SetFields(lib, ps)[c]
           else db.issues[id].Get(c))
      && (forall i: Id, l: Id :: (i, l) in next.issueLabels
            <==> (i, l) in db.issueLabels || (i == id && IsNamed(db, id, ps, l)))
      && next.comments == db.comments + CommentsOf(ps, id, user)
      && next.notifications == db.notifications + NotesOf(lib, ps, db.issues[id].team, id)
  {
    AppliedEffectsAreAnOverlay(lib, db, id, ps, user);
    var labels := TeamLabels(db, db.issues[id].team, LabelNames(ps));
    forall l ensures l in labels <==> IsNamed(db, id, ps, l) {
      if l in labels {
        var k :| 0 <= k < |ps| && ps[k].effect.Labels? && ps[k].effect.name == Str(db.labels[l].name);
        assert NamesLabel(db, id, ps[k].effect, l);
      }
    }
    hide ApplyAll, SetFields, CommentsOf, NotesOf, TeamLabels, LabelNames, IsNamed;
  }

  ghost predicate IsNamed(db: Db, id: Id, ps: seq<Pending>, l: Id)
    requires id in db.issues
  {
    exists k :: 0 <= k < |ps| && NamesLabel(db, id, ps[k].effect, l)
  }

  ghost predicate NamesLabel(db: Db, id: Id, e: Effect, l: Id)
    requires id in db.issues
  {
    e.Labels? && HasName(db, id, l, e.name)
  }
}
