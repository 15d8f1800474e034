/** services/rule_service.py: rules are validated when they are written, so applying them never meets a field it may
    not set. */
module RuleService {
  import opened Values
  import opened Transitions
  import opened Context
  import opened Conditions
  import opened Actions
  import opened Store
  import opened Queries
  import opened Evaluator
  import opened Effects
  import opened IssueSpec
  import opened AdminSpec
  import opened Schedules
  import opened Runs
  import opened Shapes
  import opened Sessions
  import opened IssueService

  // ---------- the service ----------

  /** The loop of `validate_actions`. */
  method ValidateActions(actions: seq<Action>) returns (ok: bool)
    ensures ok <==> ValidActions(actions)
  {
    for i := 0 to |actions|
      invariant forall k :: 0 <= k < i ==> ValidAction(actions[k])
    {
      if !ValidAction(actions[i]) {
        return false;
      }
    }
    ok := true;
  }

  method CreateRule(s: Session, team: Id, data: NewRule, user: Option<Id>) returns (reply: Reply)
    requires s.Idle()
    modifies s
    ensures var t := CreateRuleSpec(old(s.committed), team, data, user);
      s.Idle() && s.committed == Outcome(old(s.committed), t) && reply == ReplyTo(t)
  {
    var ok := ValidateActions(data.actions);
    if !ok {
      return Refuse(Invalid);
    }
    var id := s.working.nextId;
    var rule := Rule(id, team, data.name, data.enabled, data.trigger, data.conditions, data.actions, data.priority);
    s.working := s.working.(nextId := id + 1, rules := s.working.rules + [rule]);
    if user.Some? {
      s.working := Logged(s.working, Entry(team, RuleEntity, id, Create, user.value));
    }
    s.Commit();
    reply := Done(id);
  }

  /** `for field, value in update_data.items(): setattr(rule, field, value)`. */
  method SetRuleFields(s: Session, k: nat, p: RulePatch)
    requires k < |s.working.rules|
    modifies s`working
    ensures s.working == old(s.working).(rules := old(s.working).rules[k := PatchedRule(old(s.working).rules[k], p)])
  {
    var rule := s.working.rules[k];
    if p.name.Some? {
      rule := rule.(name := p.name.value);
    }
    if p.trigger.Some? {
      rule := rule.(trigger := p.trigger.value);
    }
    if p.conditions.Some? {
      rule := rule.(conditions := p.conditions.value);
    }
    if p.actions.Some? {
      rule := rule.(actions := p.actions.value);
    }
    if p.priority.Some? {
      rule := rule.(priority := p.priority.value);
    }
    if p.enabled.Some? {
      rule := rule.(enabled := p.enabled.value);
    }
    s.working := s.working.(rules := s.working.rules[k := rule]);
  }

  method UpdateRule(s: Session, id: Id, p: RulePatch, user: Option<Id>) returns (reply: Reply)
    requires s.Idle()
    modifies s
    ensures var t := UpdateRuleSpec(old(s.committed), id, p, user);
      s.Idle() && s.committed == Outcome(old(s.committed), t) && reply == ReplyTo(t)
  {
    hide PatchedRule;
    var k := RuleAt(s.working.rules, id);
    if k.None? {
      return Refuse(NotFound);
    }
    if p.actions.Some? {
      var ok := ValidateActions(p.actions.value);
      if !ok {
        return Refuse(Invalid);
      }
    }
    var team := PatchedRule(s.working.rules[k.value], p).team;
    SetRuleFields(s, k.value, p);
    if user.Some? {
      s.working := Logged(s.working, Entry(team, RuleEntity, id, Update, user.value));
    }
    s.Commit();
    reply := Done(id);
  }

  method DeleteRule(s: Session, id: Id, user: Option<Id>) returns (reply: Reply)
    requires s.Idle()
    modifies s
    ensures var t := DeleteRuleSpec(old(s.committed), id, user);
      s.Idle() && s.committed == Outcome(old(s.committed), t) && reply == ReplyTo(t)
  {
    var k := RuleAt(s.working.rules, id);
    if k.None? {
      return Refuse(NotFound);
    }
    var team := s.working.rules[k.value].team;
    if user.Some? {
      s.working := Logged(s.working, Entry(team, RuleEntity, id, Delete, user.value));
    }
    if exists n :: 0 <= n < |s.working.notifications| && s.working.notifications[n].rule == id {
      s.Rollback();
      return Crash(BrokenReference);
    }
    s.working := s.working.(rules := s.working.rules[..k.value] + s.working.rules[k.value + 1..]);
    s.Commit();
    reply := Done(id);
  }

  // ---------- stored rules are valid ----------

  ghost predicate Validated(rules: seq<Rule>) {
    forall r :: r in rules ==> ValidActions(r.actions)
  }

  lemma RuleRequestsKeepThemValid(lib: Lib, db: Db, op: AdminOp)
    requires Validated(db.rules) && (op.CreateRule? || op.UpdateRule? || op.DeleteRule?)
    ensures Validated(Outcome(db, AdminTxn(lib, db, op)).rules)
  {
    hide ValidActions;
    if AdminTxn(lib, db, op).Committed? {
      if op.actor.Some? {
      }
    }
  }

  lemma {:induction false} SeedKeepsRules(db: Db, team: Id, seeds: seq<(string, StateType)>)
    ensures SeedStates(db, team, seeds).rules == db.rules
    decreases |seeds|
  {
    if seeds != [] {
      SeedKeepsRules(db.(nextId := db.nextId + 1,
                         states := db.states[db.nextId := WorkflowState(team, seeds[0].0, seeds[0].1, 0)]), team,
                           seeds[1..]);
    }
  }

  lemma JoinKeepsRules(db: Db, team: Id, user: Id, actor: Option<Id>)
    ensures Outcome(db, JoinTxn(db, team, user, actor)).rules == db.rules
  {
    if (team, user) !in db.members {
      if actor.Some? {
      }
    }
  }

  lemma OtherRequestsKeepRules(lib: Lib, db: Db, op: AdminOp)
    requires !op.CreateRule? && !op.UpdateRule? && !op.DeleteRule?
    ensures Outcome(db, AdminTxn(lib, db, op)).rules == db.rules
  {
    hide NextDue, ValidSchedule, JoinTxn, SeedStates;
    if op.CreateTeam? {
      SeedKeepsRules(db.(nextId := db.nextId + 1, teams := db.teams[db.nextId := Team(op.key, true)]), db.nextId,
        DEFAULT_STATES);
    } else if op.AddUser? {
      var known := UsersWithEmail(db, op.email);
      if |known| <= 1 {
        if known == {} {
          JoinKeepsRules(db.(nextId := db.nextId + 1, users := db.users[db.nextId := User(op.name, op.email)]), op.team,
            db.nextId, op.actor);
        } else {
          JoinKeepsRules(db, op.team, Least(known), op.actor);
        }
      }
    } else {
      if AdminTxn(lib, db, op).Committed? {
      }
    }
  }

  /** Over every run, stored rules pass `validate_actions`. */
  lemma {:induction false} StoredRulesStayValid(lib: Lib, db: Db, ops: seq<Op>)
    requires Validated(db.rules)
    ensures Validated(Run(lib, db, ops).rules)
    decreases |ops|
  {
    if ops != [] {
      hide Validated, AdminTxn;
      if ops[0].Admin? {
        var op := ops[0].request;
        if op.CreateRule? || op.UpdateRule? || op.DeleteRule? {
          RuleRequestsKeepThemValid(lib, db, op);
        } else {
          OtherRequestsKeepRules(lib, db, op);
        }
      } else {
        hide Step;
        IssueStepsKeepSettings(lib, db, ops[0]);
      }
      StoredRulesStayValid(lib, Step(lib, db, ops[0]), ops[1..]);
    }
  }

  // ---------- so nothing they prepare is blocked ----------

  ghost predicate AllowedEffects(effects: seq<Effect>) {
    forall k :: 0 <= k < |effects| && effects[k].Sets? ==> AllowedField(effects[k].field).Some?
  }

  /** What is wrong with an action that `validate_actions` accepts: a missing key (KeyError), or a message or body that
      is not a string (TypeError). */
  function Defect(a: Action): Option<Error> {
    match a
    case Reject(m) => if m.Some? && !m.value.Str? then Some(NotText) else None
    case SetField(f, v) => if f.None? then Some(MissingKey("field"))
      else if v.None? then Some(MissingKey("value")) else None
    case AddLabel(l) => if l.None? then Some(MissingKey("label")) else None
    case AddComment(b) => if b.None? then Some(MissingKey("body")) else if !b.value.Str? then Some(NotText) else None
    case Notify(m, _) => if m.None? then Some(MissingKey("message")) else if !m.value.Str? then Some(NotText) else None
    case NoType => Some(MissingType)
    case Unknown(name) => Some(UnknownType(name))
  }

  /** The first defect in the order of the actions. */
  function FirstDefect(actions: seq<Action>): (e: Option<Error>)
    ensures e.None? <==> forall k :: 0 <= k < |actions| ==> Defect(actions[k]).None?
  {
    if actions == [] then None
    else if Defect(actions[0]).Some? then Defect(actions[0])
    else FirstDefect(actions[1..])
  }

  lemma PreparationOfOne(lib: Lib, a: Action, ctx: RuleContext)
    ensures Prepare(lib, a, ctx).Err? <==> Defect(a).Some?
    ensures Prepare(lib, a, ctx).Err? ==> Defect(a) == Some(Prepare(lib, a, ctx).error)
    ensures ValidAction(a) && Prepare(lib, a, ctx).Ok? && Prepare(lib, a, ctx).value.Sets? ==>
      AllowedField(Prepare(lib, a, ctx).value.field).Some?
  {
    hide Replacements;
  }

  /** Preparing actions that pass validation fails exactly when one of them has a defect, whatever the context, and then
      with the first one; what it prepares otherwise sets whitelisted fields only. */
  lemma {:induction false} PreparationFailsExactly(lib: Lib, actions: seq<Action>, ctx: RuleContext)
    requires ValidActions(actions)
    ensures match PrepareAll(lib, actions, ctx)
      case Ok(effects) => FirstDefect(actions).None? && AllowedEffects(effects)
      case Err(e) => FirstDefect(actions) == Some(e) && (e.MissingKey? || e.NotText?)
  {
    hide RenderMessage, Prepare, Defect;
    if actions != [] {
      assert ValidAction(actions[0]);
      PreparationOfOne(lib, actions[0], ctx);
      DefectsOfValidActions(actions[0]);
      PreparationFailsExactly(lib, actions[1..], ctx);
    }
  }

  lemma DefectsOfValidActions(a: Action)
    requires ValidAction(a)
    ensures Defect(a).Some? ==> Defect(a).value.MissingKey? || Defect(a).value.NotText?
  {
  }

  /** So a stored rule whose condition holds is reported as malformed when its first defect is a missing key, and is an
      uncaught error when it is a text that is not one. */
  lemma JudgementOfDefects(lib: Lib, db: Db, rule: Rule, ctx: RuleContext, team: Id)
    requires ValidActions(rule.actions) && Matches(lib, db, rule, ctx, team) == Ok(true)
    ensures var j := Judge(lib, db, rule, ctx, team);
      match FirstDefect(rule.actions)
      case Some(NotText) => j == Halt(Uncaught(NotText))
      case Some(e) => j == Halt(Malformed(rule.id, e))
      case None => j.Fire? || (j.Halt? && j.stop.Rejected?)
  {
    hide Matches, PrepareAll, FirstDefect;
    PreparationFailsExactly(lib, rule.actions, ctx);
  }

  lemma {:induction false} AcceptedEffectsAreAllowed(lib: Lib, db: Db, rules: seq<Rule>, ctx: RuleContext, team: Id)
    requires Validated(rules) && EvaluateInOrder(lib, db, rules, ctx, team).Accepted?
    ensures forall f :: f in EvaluateInOrder(lib, db, rules, ctx, team).firings ==> AllowedEffects(f.effects)
  {
    if rules != [] {
      hide Matches, PrepareAll, AllowedEffects;
      AcceptedEffectsAreAllowed(lib, db, rules[1..], ctx, team);
      PreparationFailsExactly(lib, rules[0].actions, ctx);
    }
  }

  lemma {:induction false} FlattenedEffectsAreAllowed(firings: seq<Firing>)
    requires forall f :: f in firings ==> AllowedEffects(f.effects)
    ensures forall j :: 0 <= j < |Flatten(firings)| && Flatten(firings)[j].effect.Sets? ==>
      AllowedField(Flatten(firings)[j].effect.field).Some?
  {
    if firings != [] {
      FlattenedEffectsAreAllowed(firings[1..]);
      assert firings[0] in firings;
    }
  }

  lemma {:induction false} AllowedEffectsAreNotBlocked(lib: Lib, db: Db, id: Id, ps: seq<Pending>, user: Id)
    requires id in db.issues
    requires forall j :: 0 <= j < |ps| && ps[j].effect.Sets? ==> AllowedField(ps[j].effect.field).Some?
    ensures ApplyAll(lib, db, id, ps, user).Err? ==> !ApplyAll(lib, db, id, ps, user).error.BlockedField?
    decreases |ps|
  {
    if ps != [] {
      OneAllowedEffectIsNotBlocked(lib, db, id, ps[0], user);
      hide ApplyOne;
      var first := ApplyOne(lib, db, id, ps[0], user);
      if first.Ok? {
        AllowedEffectsAreNotBlocked(lib, first.value, id, ps[1..], user);
      }
    }
  }

  lemma OneAllowedEffectIsNotBlocked(lib: Lib, db: Db, id: Id, p: Pending, user: Id)
    requires id in db.issues && (p.effect.Sets? ==> AllowedField(p.effect.field).Some?)
    ensures ApplyOne(lib, db, id, p, user).Err? ==> !ApplyOne(lib, db, id, p, user).error.BlockedField?
  {
    hide RowOk, LabelsNamed;
  }

  /** The effects of accepted rules never meet the field whitelist's refusal, whatever tables they are applied to. */
  lemma AcceptedRulesAreNeverBlocked(lib: Lib, db: Db, rules: seq<Rule>, ctx: RuleContext, team: Id, target: Db, id: Id,
                                     user: Id)
    requires Validated(rules) && EvaluateInOrder(lib, db, rules, ctx, team).Accepted? && id in target.issues
    ensures var r := ApplyFirings(lib, target, id, EvaluateInOrder(lib, db, rules, ctx, team).firings, user);
      r.Err? ==> !r.error.BlockedField?
  {
    hide EvaluateInOrder, Validated, ApplyAll, RowOk;
    var firings := EvaluateInOrder(lib, db, rules, ctx, team).firings;
    AcceptedEffectsAreAllowed(lib, db, rules, ctx, team);
    FlattenedEffectsAreAllowed(firings);
    AllowedEffectsAreNotBlocked(lib, target, id, Flatten(firings), user);
  }

  /** The rules an update or a creation is asked about are stored ones. */
  lemma AskedRulesAreValid(db: Db, row: Issue, patch: Patch, team: Id, trigger: Trigger)
    requires Validated(db.rules)
    ensures Validated(MatchingRules(db.rules, team, trigger)) && Validated(UpdateRules(db, row, patch))
  {
    hide ValidActions;
    forall t: Id, g: Trigger ensures Validated(MatchingRules(db.rules, t, g)) {
      MatchingRulesAreTheApplicableOnes(db.rules, t, g);
      forall r | r in MatchingRules(db.rules, t, g) ensures r in db.rules {
        assert multiset(MatchingRules(db.rules, t, g))[r] > 0;
      }
    }
  }

  ghost predicate Blocked<T>(r: Result<T>) {
    r.Err? && r.error.BlockedField?
  }

  lemma {:induction false} TypesAreNotBlocked(values: seq<Value>)
    ensures !Blocked(ParseTypes(values))
  {
    if values != [] {
      TypesAreNotBlocked(values[1..]);
    }
  }

  lemma FiltersAreNotBlocked(lib: Lib, db: Db, w: Where, ctx: RuleContext, team: Id)
    ensures !Blocked(BuildFilters(lib, db, w, ctx, team))
  {
    hide ParseTypes;
    TypesAreNotBlocked(if w.stateType.Some? then w.stateType.value else []);
    TypesAreNotBlocked(if w.stateTypeNotIn.Some? then w.stateTypeNotIn.value else []);
  }

  lemma LeavesAreNotBlocked(lib: Lib, c: Cond, ctx: RuleContext)
    requires !c.And? && !c.Or? && !c.Not?
    ensures !Blocked(Evaluate(lib, c, ctx))
  {
    hide Contains, HasLabel, StrLess, Show, PyEq;
  }

  lemma {:induction false} ConditionsAreNotBlocked(lib: Lib, db: Db, c: Cond, ctx: RuleContext, team: Id)
    ensures !Blocked(EvaluateWithDb(lib, db, c, ctx, team))
    decreases c, 1
  {
    hide CountOf, SumOf, Compare, Evaluate;
    if c.CountQuery? || c.EstimateSum? {
      QueriesAreNotBlocked(lib, db, c.filter, c.operator, c.bound, ctx, team);
    } else if c.And? || c.Or? {
      ListsAreNotBlocked(lib, db, c.conditions, ctx, team);
    } else if c.Not? {
      if c.condition.Some? {
        ConditionsAreNotBlocked(lib, db, c.condition.value, ctx, team);
      }
    } else {
      LeavesAreNotBlocked(lib, c, ctx);
    }
  }

  lemma QueriesAreNotBlocked(lib: Lib, db: Db, w: Where, op: string, bound: Value, ctx: RuleContext, team: Id)
    ensures !Blocked(CountOf(lib, db, w, ctx, team)) && !Blocked(SumOf(lib, db, w, ctx, team))
    ensures forall n: int :: !Blocked(Compare(n, op, bound))
  {
    hide BuildFilters;
    FiltersAreNotBlocked(lib, db, w, ctx, team);
  }

  lemma {:induction false} ListsAreNotBlocked(lib: Lib, db: Db, cs: seq<Cond>, ctx: RuleContext, team: Id)
    ensures !Blocked(EvaluateAllWithDb(lib, db, cs, ctx, team)) && !Blocked(EvaluateAnyWithDb(lib, db, cs, ctx, team))
    decreases cs, 0
  {
    if cs != [] {
      ConditionsAreNotBlocked(lib, db, cs[0], ctx, team);
      ListsAreNotBlocked(lib, db, cs[1..], ctx, team);
    }
  }

  lemma {:induction false} PreparationIsNotBlocked(lib: Lib, actions: seq<Action>, ctx: RuleContext)
    ensures !Blocked(PrepareAll(lib, actions, ctx))
  {
    hide Prepare;
    if actions != [] {
      PreparationOfOne(lib, actions[0], ctx);
      PreparationIsNotBlocked(lib, actions[1..], ctx);
    }
  }

  lemma {:induction false} StopsAreNotBlocked(lib: Lib, db: Db, rules: seq<Rule>, ctx: RuleContext, team: Id)
    ensures match EvaluateInOrder(lib, db, rules, ctx, team)
      case Stopped(Uncaught(e)) => !e.BlockedField?
      case _ => true
  {
    if rules != [] {
      hide EvaluateWithDb, PrepareAll;
      StopsAreNotBlocked(lib, db, rules[1..], ctx, team);
      PreparationIsNotBlocked(lib, rules[0].actions, ctx);
      if rules[0].conditions.Some? {
        ConditionsAreNotBlocked(lib, db, rules[0].conditions.value, ctx, team);
      }
    }
  }

  ghost predicate CrashesBlocked(t: Txn) {
    t.Crashed? && t.error.BlockedField?
  }

  lemma CreationsAreNeverBlocked(lib: Lib, db: Db, team: Id, data: NewIssue, user: Id)
    requires Validated(db.rules)
    ensures !CrashesBlocked(CreateIssueSpec(lib, db, team, data, user))
  {
    hide EvaluateInOrder, MatchingRules, ApplyFirings, RowOk, Validated, CreateStateOf, CreateProblem;
    var t := CreateIssueSpec(lib, db, team, data, user);
    if CreateProblem(db, team, data).None? && CreateStateOf(db, team, data).Some? {
      var row := NewRow(db, team, data, user);
      if RowOk(db, row) && Distinct(data.labels) {
        assert Fits(db, StateId, row.Get(StateId)) by { StateOfGoodRow(db, row, CreateStateOf(db, team, data).value); }
        var state := db.states[CreateStateOf(db, team, data).value];
        FlushedCreationsAreNeverBlocked(lib, InsertIssue(db, row, data.labels), team, db.nextId, user, state);
      }
    }
  }

  lemma FlushedCreationsAreNeverBlocked(lib: Lib, db: Db, team: Id, id: Id, user: Id, state: WorkflowState)
    requires Validated(db.rules) && id in db.issues
    ensures !CrashesBlocked(CreateFlushed(lib, db, team, id, user, state))
  {
    hide EvaluateInOrder, MatchingRules, ApplyFirings, Validated;
    var rules, ctx := MatchingRules(db.rules, team, IssueCreated), CreateContext(lib, db.issues[id], state, user);
    AskedRulesAreValid(db, db.issues[id], map[], team, IssueCreated);
    StopsAreNotBlocked(lib, db, rules, ctx, team);
    if EvaluateInOrder(lib, db, rules, ctx, team).Accepted? {
      AcceptedRulesAreNeverBlocked(lib, db, rules, ctx, team, db, id, user);
    }
  }

  lemma UpdatesAreNeverBlocked(lib: Lib, db: Db, id: Id, patch: Patch, user: Option<Id>)
    requires Validated(db.rules)
    ensures !CrashesBlocked(UpdateIssueSpec(lib, db, id, patch, user))
  {
    hide EvaluateInOrder, UpdateRules, ApplyFirings, RowOk, Validated, UpdateProblem, TransitionProblem, RollUp;
    hide UpdateContext;
    if id in db.issues && StateRow(db, db.issues[id].Get(StateId)).Some? {
      var row := db.issues[id];
      var rules, ctx := UpdateRules(db, row, patch),
        UpdateContext(lib, db, row, patch, StateRow(db, row.Get(StateId)).value, user);
      AskedRulesAreValid(db, row, patch, row.team, IssueUpdated);
      StopsAreNotBlocked(lib, db, rules, ctx, row.team);
      if EvaluateInOrder(lib, db, rules, ctx, row.team).Accepted? {
        AcceptedRulesAreNeverBlocked(lib, db, rules, ctx, row.team, Patched(db, id, patch), id,
          if user.Some? then user.value else row.createdBy);
      }
    }
  }

  /** In no state that a run reaches from valid rules does a creation or an update fail on a field that rules may not
      set: the whitelist test while applying never fires. */
  lemma BlockedFieldsNeverSurface(lib: Lib, db: Db, ops: seq<Op>, team: Id, data: NewIssue, id: Id, patch: Patch,
                                  user: Id)
    requires Validated(db.rules)
    ensures var now := Run(lib, db, ops);
      && !CrashesBlocked(CreateIssueSpec(lib, now, team, data, user))
      && !CrashesBlocked(UpdateIssueSpec(lib, now, id, patch, Some(user)))
  {
    hide Run, Validated, CreateIssueSpec, UpdateIssueSpec;
    StoredRulesStayValid(lib, db, ops);
    CreationsAreNeverBlocked(lib, Run(lib, db, ops), team, data, user);
    UpdatesAreNeverBlocked(lib, Run(lib, db, ops), id, patch, Some(user));
  }
}
