/** `evaluate_rules` of rules/evaluator.py: which rules fire on a write, and which one stops it. */
module Evaluator {
  import opened Values
  import opened Context
  import opened Actions
  import opened Store
  import opened Queries

  /** A matching rule with the effects it prepared. */
  datatype Firing = Firing(rule: Id, effects: seq<Effect>)

  /** Why a write is stopped: RuleRejection, RuleEvaluationError, or an exception nobody catches. */
  datatype Stop = Rejected(rule: Id, message: string) | Malformed(rule: Id, error: Error) | Uncaught(error: Error)

  datatype Judgement = Skip | Fire(effects: seq<Effect>) | Halt(stop: Stop)
  datatype Verdict = Accepted(firings: seq<Firing>) | Stopped(stop: Stop)

  // ---------- one rule ----------

  function PrepareAll(lib: Lib, actions: seq<Action>, ctx: RuleContext): Result<seq<Effect>> {
    if actions == [] then Ok([]) else
      var first :- Prepare(lib, actions[0], ctx);
      var rest :- PrepareAll(lib, actions[1..], ctx);
      Ok([first] + rest)
  }

  function FirstRejection(effects: seq<Effect>): Option<string> {
    if effects == [] then None
    else if effects[0].Rejects? then Some(effects[0].message)
    else FirstRejection(effects[1..])
  }

  function Matches(lib: Lib, db: Db, rule: Rule, ctx: RuleContext, team: Id): Result<bool> {
    match rule.conditions
    case None => Ok(true)
    case Some(c) => EvaluateWithDb(lib, db, c, ctx, team)
  }

  function Judge(lib: Lib, db: Db, rule: Rule, ctx: RuleContext, team: Id): Judgement {
    match Matches(lib, db, rule, ctx, team)
    case Err(e) => Halt(if e.IsValueError() then Malformed(rule.id, e) else Uncaught(e))
    case Ok(false) => Skip
    case Ok(true) =>
      match PrepareAll(lib, rule.actions, ctx)
      case Err(e) => Halt(if e.IsValueError() || e.MissingKey? then Malformed(rule.id, e) else Uncaught(e))
      case Ok(effects) =>
        match FirstRejection(effects)
        case Some(message) => Halt(Rejected(rule.id, message))
        case None => Fire(effects)
  }

  // ---------- the rules of a trigger, in priority order ----------

  function Insert(rule: Rule, sorted: seq<Rule>): seq<Rule> {
    if sorted == [] || rule.priority <= sorted[0].priority then [rule] + sorted
    else [sorted[0]] + Insert(rule, sorted[1..])
  }

  /** The enabled rules of a team and trigger by ascending priority, ties in row order. */
  function MatchingRules(rules: seq<Rule>, team: Id, trigger: Trigger): seq<Rule> {
    if rules == [] then [] else
      var rest := MatchingRules(rules[1..], team, trigger);
      if rules[0].team == team && rules[0].enabled && rules[0].trigger == trigger then Insert(rules[0], rest) else rest
  }

  function EvaluateInOrder(lib: Lib, db: Db, rules: seq<Rule>, ctx: RuleContext, team: Id): Verdict {
    if rules == [] then Accepted([]) else
      match Judge(lib, db, rules[0], ctx, team)
      case Halt(stop) => Stopped(stop)
      case Skip => EvaluateInOrder(lib, db, rules[1..], ctx, team)
      case Fire(effects) =>
        match EvaluateInOrder(lib, db, rules[1..], ctx, team)
        case Stopped(stop) => Stopped(stop)
        case Accepted(rest) => Accepted([Firing(rules[0].id, effects)] + rest)
  }

  lemma {:induction false} EvaluateConcat(lib: Lib, db: Db, xs: seq<Rule>, ys: seq<Rule>, ctx: RuleContext, team: Id)
    ensures var x, y := EvaluateInOrder(lib, db, xs, ctx, team), EvaluateInOrder(lib, db, ys, ctx, team);
      var xy := EvaluateInOrder(lib, db, xs + ys, ctx, team);
      xy == if x.Stopped? then x else if y.Stopped? then y else Accepted(x.firings + y.firings)
  {
    hide Judge;
    if xs == [] {
      assert xs + ys == ys;
    } else {
      EvaluateConcat(lib, db, xs[1..], ys, ctx, team);
      assert (xs + ys)[0] == xs[0] && (xs + ys)[1..] == xs[1..] + ys;
    }
  }

  /** One more rule, the ones before it accepted. */
  lemma EvaluateSnoc(lib: Lib, db: Db, rules: seq<Rule>, i: nat, ctx: RuleContext, team: Id)
    requires i < |rules| && EvaluateInOrder(lib, db, rules[..i], ctx, team).Accepted?
    ensures match Judge(lib, db, rules[i], ctx, team)
      case Halt(stop) => EvaluateInOrder(lib, db, rules, ctx, team) == Stopped(stop)
      case Skip => EvaluateInOrder(lib, db, rules[..i + 1], ctx, team)
        == EvaluateInOrder(lib, db, rules[..i], ctx, team)
      case Fire(effects) =>
        EvaluateInOrder(lib, db, rules[..i + 1], ctx, team)
        == Accepted(EvaluateInOrder(lib, db, rules[..i], ctx, team).firings + [Firing(rules[i].id, effects)])
  {
    hide Judge;
    assert [rules[i]][1..] == [] && rules[i..][0] == rules[i];
    assert rules == rules[..i] + rules[i..] && rules[..i + 1] == rules[..i] + [rules[i]];
    EvaluateConcat(lib, db, rules[..i], rules[i..], ctx, team);
    EvaluateConcat(lib, db, rules[..i], [rules[i]], ctx, team);
  }

  /** The loop of `evaluate_rules`: it stops at the first rule that rejects or is broken. */
  method EvaluateRules(lib: Lib, db: Db, team: Id, trigger: Trigger, ctx: RuleContext) returns (v: Verdict)
    ensures v == EvaluateInOrder(lib, db, MatchingRules(db.rules, team, trigger), ctx, team)
  {
    hide MatchingRules, Judge;
    var rules := MatchingRules(db.rules, team, trigger);
    var matched: seq<Firing> := [];
    var i := 0;
    while i < |rules|
      invariant i <= |rules|
      invariant EvaluateInOrder(lib, db, rules[..i], ctx, team) == Accepted(matched)
    {
      hide EvaluateInOrder;
      EvaluateSnoc(lib, db, rules, i, ctx, team);
      match Judge(lib, db, rules[i], ctx, team) {
        case Halt(stop) => return Stopped(stop);
        case Skip =>
        case Fire(effects) => matched := matched + [Firing(rules[i].id, effects)];
      }
      i := i + 1;
    }
    assert rules[..i] == rules;
    v := Accepted(matched);
  }

  // ---------- order and hidden context cannot matter ----------

  lemma {:induction false} InsertPermutes(rule: Rule, sorted: seq<Rule>)
    ensures multiset(Insert(rule, sorted)) == multiset{rule} + multiset(sorted)
  {
    if sorted == [] || rule.priority <= sorted[0].priority {
    } else {
      InsertPermutes(rule, sorted[1..]);
      assert sorted == [sorted[0]] + sorted[1..];
    }
  }

  ghost predicate Sorted(rules: seq<Rule>) {
    forall i, j :: 0 <= i < j < |rules| ==> rules[i].priority <= rules[j].priority
  }

  lemma {:induction false} InsertSorts(rule: Rule, sorted: seq<Rule>)
    requires Sorted(sorted)
    ensures Sorted(Insert(rule, sorted))
  {
    if sorted == [] || rule.priority <= sorted[0].priority {
    } else {
      InsertSorts(rule, sorted[1..]);
      InsertPermutes(rule, sorted[1..]);
      var rest := Insert(rule, sorted[1..]);
      forall j | 0 <= j < |rest| ensures sorted[0].priority <= rest[j].priority {
        assert rest[j] in multiset(rest);
        assert rest[j] == rule || rest[j] in multiset(sorted[1..]);
      }
    }
  }

  ghost predicate Applies(rule: Rule, team: Id, trigger: Trigger) {
    rule.team == team && rule.enabled && rule.trigger == trigger
  }

  /** The rules loaded are exactly the enabled ones of the team and trigger, each once, by priority. */
  lemma {:induction false} MatchingRulesAreTheApplicableOnes(rules: seq<Rule>, team: Id, trigger: Trigger)
    ensures Sorted(MatchingRules(rules, team, trigger))
    ensures var loaded := multiset(MatchingRules(rules, team, trigger));
      forall r :: loaded[r] == (if Applies(r, team, trigger) then multiset(rules)[r] else 0)
  {
    if rules != [] {
      MatchingRulesAreTheApplicableOnes(rules[1..], team, trigger);
      assert rules == [rules[0]] + rules[1..];
      var rest := MatchingRules(rules[1..], team, trigger);
      InsertSorts(rules[0], rest);
      InsertPermutes(rules[0], rest);
    }
  }

  lemma {:induction false} AcceptedIffNoRuleHalts(lib: Lib, db: Db, rules: seq<Rule>, ctx: RuleContext, team: Id)
    ensures EvaluateInOrder(lib, db, rules, ctx, team).Accepted?
      <==> forall r :: r in multiset(rules) ==> !Judge(lib, db, r, ctx, team).Halt?
  {
    hide Judge;
    if rules != [] {
      AcceptedIffNoRuleHalts(lib, db, rules[1..], ctx, team);
      assert rules == [rules[0]] + rules[1..];
    }
  }

  /** Whether a write is accepted is the same for every order of the rules: ties in priority cannot matter. */
  lemma AcceptanceIgnoresRuleOrder(lib: Lib, db: Db, rules: seq<Rule>, permuted: seq<Rule>, ctx: RuleContext, team: Id)
    requires multiset(rules) == multiset(permuted)
    ensures EvaluateInOrder(lib, db, rules, ctx, team).Accepted?
      <==> EvaluateInOrder(lib, db, permuted, ctx, team).Accepted?
  {
    AcceptedIffNoRuleHalts(lib, db, rules, ctx, team);
    AcceptedIffNoRuleHalts(lib, db, permuted, ctx, team);
  }

  lemma {:induction false} PreparationSeesOnlyTheView(lib: Lib, actions: seq<Action>, ctx: RuleContext,
                                                      other: RuleContext)
    requires ctx.SameView(other)
    ensures PrepareAll(lib, actions, ctx) == PrepareAll(lib, actions, other)
  {
    if actions != [] {
      ResolutionSeesOnlyTheView(ctx, other);
      assert Replacements(lib, ctx) == Replacements(lib, other);
      PreparationSeesOnlyTheView(lib, actions[1..], ctx, other);
    }
  }

  lemma {:induction false} VerdictSeesOnlyTheView(lib: Lib, db: Db, rules: seq<Rule>, ctx: RuleContext,
                                                  other: RuleContext, team: Id)
    requires ctx.SameView(other)
    ensures EvaluateInOrder(lib, db, rules, ctx, team) == EvaluateInOrder(lib, db, rules, other, team)
  {
    if rules != [] {
      VerdictSeesOnlyTheView(lib, db, rules[1..], ctx, other, team);
      JudgementSeesOnlyTheView(lib, db, rules[0], ctx, other, team);
    }
  }

  lemma JudgementSeesOnlyTheView(lib: Lib, db: Db, rule: Rule, ctx: RuleContext, other: RuleContext, team: Id)
    requires ctx.SameView(other)
    ensures Judge(lib, db, rule, ctx, team) == Judge(lib, db, rule, other, team)
  {
    hide EvaluateWithDb;
    hide PrepareAll;
    if rule.conditions.Some? {
      EvaluationSeesOnlyTheView(lib, db, rule.conditions.value, ctx, other, team);
    }
    PreparationSeesOnlyTheView(lib, rule.actions, ctx, other);
  }

  // ---------- rejecting rules and effects ----------

  lemma {:induction false} RejectingActionRejects(lib: Lib, actions: seq<Action>, ctx: RuleContext, k: nat)
    requires k < |actions| && actions[k].Reject?
    ensures PrepareAll(lib, actions, ctx).Ok? ==> FirstRejection(PrepareAll(lib, actions, ctx).value).Some?
  {
    if k > 0 {
      RejectingActionRejects(lib, actions[1..], ctx, k - 1);
    }
  }

  /** An accepted write has found the condition of every applicable rejecting rule false. */
  lemma AcceptedMeansNotRejected(lib: Lib, db: Db, rule: Rule, trigger: Trigger, ctx: RuleContext, team: Id)
    requires rule in db.rules && Applies(rule, team, trigger)
    requires exists k :: 0 <= k < |rule.actions| && rule.actions[k].Reject?
    requires EvaluateInOrder(lib, db, MatchingRules(db.rules, team, trigger), ctx, team).Accepted?
    ensures Matches(lib, db, rule, ctx, team) == Ok(false)
  {
    hide Matches;
    hide PrepareAll;
    MatchingRulesAreTheApplicableOnes(db.rules, team, trigger);
    AcceptedIffNoRuleHalts(lib, db, MatchingRules(db.rules, team, trigger), ctx, team);
    assert rule in multiset(db.rules);
    assert !Judge(lib, db, rule, ctx, team).Halt?;
    var k :| 0 <= k < |rule.actions| && rule.actions[k].Reject?;
    RejectingActionRejects(lib, rule.actions, ctx, k);
  }

  /** No action of these rules is a set_field on this column. */
  ghost predicate NoneSets(rules: seq<Rule>, c: Column) {
    forall r, k :: r in rules && 0 <= k < |r.actions| ==> !SetsColumn(r.actions[k], c)
  }

  /** No action of any of the team's rules is a set_field on this column. */
  ghost predicate TeamSetsNone(rules: seq<Rule>, team: Id, c: Column) {
    forall r, k :: r in rules && r.team == team && 0 <= k < |r.actions| ==> !SetsColumn(r.actions[k], c)
  }

  ghost predicate SetsColumn(a: Action, c: Column) {
    a.SetField? && a.field.Some? && AllowedField(a.field.value) == Some(c)
  }

  ghost predicate EffectsSet(effects: seq<Effect>, c: Column) {
    exists k :: 0 <= k < |effects| && effects[k].Sets? && AllowedField(effects[k].field) == Some(c)
  }

  lemma {:induction false} PreparedSetsComeFromActions(lib: Lib, actions: seq<Action>, ctx: RuleContext, c: Column)
    requires forall k :: 0 <= k < |actions| ==> !SetsColumn(actions[k], c)
    ensures PrepareAll(lib, actions, ctx).Ok? ==> !EffectsSet(PrepareAll(lib, actions, ctx).value, c)
  {
    if actions != [] {
      PreparedSetsComeFromActions(lib, actions[1..], ctx, c);
      assert !SetsColumn(actions[0], c);
    }
  }

  lemma {:induction false} FiringsSetOnlyWhatRulesSet(lib: Lib, db: Db, rules: seq<Rule>, ctx: RuleContext, team: Id,
                                                      c: Column)
    requires NoneSets(rules, c)
    requires EvaluateInOrder(lib, db, rules, ctx, team).Accepted?
    ensures forall f :: f in EvaluateInOrder(lib, db, rules, ctx, team).firings ==> !EffectsSet(f.effects, c)
  {
    if rules != [] {
      hide Matches;
      hide PrepareAll;
      hide EffectsSet;
      FiringsSetOnlyWhatRulesSet(lib, db, rules[1..], ctx, team, c);
      PreparedSetsComeFromActions(lib, rules[0].actions, ctx, c);
    }
  }
}
