/** rules/actions.py: action definitions, their write-time validation and the effects they prepare. */
module Actions {
  import opened Values
  import opened Context
  import Template

  /** An action object; an absent key is None. Nothing makes a message, a body or a label a string. */
  datatype Action =
    | Reject(message: Option<Value>)
    | SetField(field: Option<string>, value: Option<Value>)
    | AddLabel(labelName: Option<Value>)
    | AddComment(body: Option<Value>)
    | Notify(message: Option<Value>, userId: Value)
    | NoType
    | Unknown(name: string)

  datatype Effect =
    | Rejects(message: string)
    | Sets(field: string, value: Value)
    | Labels(name: Value)
    | Comments(body: string)
    | Notifies(message: string, userId: Value)

  /** SET_FIELD_ALLOWED, with the column each name stands for. */
  function AllowedField(name: string): Option<Column> {
    if name == "priority" then Some(Priority)
    else if name == "estimate" then Some(Estimate)
    else if name == "assignee_id" then Some(AssigneeId)
    else if name == "project_id" then Some(ProjectId)
    else if name == "due_date" then Some(DueDate)
    else if name == "state_id" then Some(StateId)
    else None
  }

  /** `validate_actions`: known type, and a whitelisted target for set_field. */
  predicate ValidAction(a: Action) {
    match a
    case SetField(f, _) => f.Some? && AllowedField(f.value).Some?
    case NoType => false
    case Unknown(_) => false
    case _ => true
  }

  function Replacements(lib: Lib, ctx: RuleContext): map<string, string> {
    var text := (key: string) => if key in ctx.issue then Show(lib, ctx.issue[key]) else "";
    map[
      "title" := text("title"),
      "priority" := text("priority"),
      "assignee" := text("assignee_id"),
      "state" := if ctx.toState != "" then ctx.toState else text("state"),
      "project" := text("project_id")
    ]
  }

  /** `_render_template`: the pattern's `sub` takes nothing but a string. */
  function RenderMessage(lib: Lib, template: Value, ctx: RuleContext): Result<string> {
    if template.Str? then Ok(Template.Render(lib.word, template.s, Replacements(lib, ctx))) else Err(NotText)
  }

  function Key<T>(o: Option<T>, key: string): Result<T> {
    match o
    case Some(v) => Ok(v)
    case None => Err(MissingKey(key))
  }

  /** `prepare_action`. */
  function Prepare(lib: Lib, a: Action, ctx: RuleContext): Result<Effect> {
    match a
    case Reject(m) =>
      var message :- RenderMessage(lib, if m.Some? then m.value else Str("Operation rejected by rule"), ctx);
      Ok(Rejects(message))
    case SetField(f, v) =>
      var field :- Key(f, "field");
      if v.None? then Err(MissingKey("value")) else Ok(Sets(field, ctx.ResolveValue(v.value)))
    case AddLabel(l) => (var name :- Key(l, "label"); Ok(Labels(name)))
    case AddComment(b) =>
      var template :- Key(b, "body");
      var body :- RenderMessage(lib, template, ctx);
      Ok(Comments(body))
    case Notify(m, user) =>
      var template :- Key(m, "message");
      var message :- RenderMessage(lib, template, ctx);
      Ok(Notifies(message, ctx.ResolveValue(user)))
    case NoType => Err(MissingType)
    case Unknown(name) => Err(UnknownType(name))
  }
}
