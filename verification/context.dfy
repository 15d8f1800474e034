/** rules/context.py: what a rule can see of the write it judges. */
module Context {
  import opened Values

  datatype RuleContext = RuleContext(
    issue: map<string, Value>,
    currentUser: string,
    fromState: string,
    fromStateType: string,
    toState: string,
    toStateType: string,
    oldAssignee: Value,
    newAssignee: Value,
    changedFields: set<Column>
  )
  {
    function ResolveField(name: string): Value {
      if name == "from_state" then Str(fromState)
      else if name == "from_state_type" then Str(fromStateType)
      else if name == "to_state" then Str(toState)
      else if name == "to_state_type" then Str(toStateType)
      else if name == "current_user" then Str(currentUser)
      else Get(issue, name)
    }

    function ResolveValue(v: Value): Value {
      if !v.Str? then v
      else if v.s == "$current_user" then Str(currentUser)
      else if "$current." <= v.s then Get(issue, v.s[|"$current."|..])
      else v
    }

    /** The two contexts differ at most in what no condition and no action reads. */
    ghost predicate SameView(other: RuleContext) {
      this == other.(oldAssignee := oldAssignee, newAssignee := newAssignee, changedFields := changedFields)
    }
  }
}
