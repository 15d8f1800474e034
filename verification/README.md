# Verification of taskstore: issue writes, rules engine and scheduler

Taskstore keeps the issues of several teams in one set of tables. Every write to an issue passes reference checks, a
table of state transitions and the team's rules: condition trees, some of which count issues in the database, with
actions that can reject the write or add effects to it. A scheduler writes issues of its own from recurrences. This
project models that core over a value for the whole database (`store.dfy`), proves each service method against a
function from the tables before a request to the tables after it, and proves what those functions keep over every run
of requests and scheduler transactions in any order.

How the files fit together:

- `values`, `store`, `transitions`, `context`, `conditions`, `actions`, `template`: values, tables and the rule language.
- `queries`, `evaluator`, `effects`: the database evaluator, the rules that fire, and what they write.
- `issue_spec`, `admin_spec`, `spawn_spec`, `schedule`: the outcome of each request as a function of the tables.
- `sessions`: stored and working tables with commit, rollback and savepoints. `issue_service`, `scheduler`, `members`,
  `rule_service`, `recurrence_service`: the services as imperative methods, each ending in the tables its function gives.
- `condition_facts`, `rule_facts`, `request_facts`, `spawn_facts`, `calendar`: what conditions answer, when rules reject,
  which requests are refused, what a spawn stores and what a schedule's text means, without the functions that compute it.
- `issue_facts`: committed creates and updates in closed form. `runs`, `shapes`: steps, runs, and what every step has in
  common.
- `rows`, `tenancy`, `escapes`, `wip`, `audit`, `lifecycle`, `spawn_rate`, `members`, `rule_service`,
  `recurrence_service`, `reachable`: invariants of runs and the histories they leave.
- `conservation`: a whole tick's effect on issues and recurrences when other requests run between its transactions.
- `inputs`: concrete requests for what fails. `links`, `summary`: fragment links and the team summary.

Functions of Python and its libraries that are not part of the model (`str`, `lower`, UUID parsing, what the database
driver stores for a value, `\w`, croniter, `strftime`) are fields of `Values.Lib`; every theorem holds for all of them,
except that croniter is assumed to move forward where a theorem says so. Requests and scheduler transactions are atomic
and serial: the code takes no locks, so this is an assumption. The only interleaving is at transaction borders, where a
tick can meet any requests between its snapshot and each recurrence's transaction.

Where code and documentation disagree, the model follows the code:

- `docs/rules-engine.md:51` promises that `label_has` holds when the issue has the label. The service passes an empty
  label list on creation and none on update, so it is never true there (`IssueFacts.LabelHasNeverHolds`).
- `docs/rules-engine.md:24` says `issue.state_changed` fires on a move to a different state category; the code fires it
  whenever the request names another state. The two differ exactly for moves within one category
  (`IssueFacts.StateChangedFiresOnEveryOtherState`, with an input in `IssueFacts.StateChangedFiresWithinACategory`).
- A user's change of the due date never commits: the audit diff would hold a date, which JSON cannot. It is the only
  column with this effect (`Audit.OnlyDueDatesCannotBeLogged`, `Audit.AcceptedUpdateCommitsUnlessDueDateChanges`, with an
  input in `Inputs.DueDateChangeCrashes`).
- Converting an issue to a project sets its `project_id` and logs nothing, so the audit log does not replay that column
  across a conversion (`Audit.ConversionIsNotLogged`).
- Deletion is guarded against active subtasks only. A subtask in a terminal state passes the guard and then breaks the
  foreign key (`IssueFacts.DeleteCommitsExactly`, with an input in `Inputs.DoneSubtaskBreaksTheDelete`).
- Validation at write time does not look at messages, comment bodies and labels. `RuleService.PreparationFailsExactly`
  says when preparing validated actions fails; a message that is not a string raises an error nobody catches
  (`RuleService.JudgementOfDefects`, with an input in `Inputs.NumberMessageCrashesUpdates`).
- Listing the links of a fragment rewrites incoming links in the session, and the next query flushes them. If a fragment
  that links to this one also links to itself, the flush violates the unique constraint and the request crashes
  (`Links.FlushFailsExactly`, with an input in `Links.SelfLinkBreaksTheTargetsListing`).
- Interval expressions accept `0d`, whose advance loop would never end. `Schedules.AdvancesExactlyWhenNotZero` says that
  these are the only accepted intervals that do not advance, and `RecurrenceService.TicksEnd` that without them every
  tick's loops end; `Inputs.ZeroDaysHangTheTick` creates one whose transaction does not.
- The handler around a recurrence's transaction logs the recurrence's id. A flush that fails has expired that row and the
  session is closed, so reading the id raises and the exception leaves the tick: the recurrences after it are not reached
  and there is no count. Every other failure leaves the row loaded, and the tick goes on. `Scheduler.TickSurvivesExactly`
  gives the condition, `Inputs.FailedFlushEndsTheTick` an input: the API stores recurrence defaults unchecked.
- After one step from now every advancing schedule is past now already, so the advance loop never runs its body
  (`Scheduler.LoopHasNothingLeft`).
- Rules, on creation and on update, and recurrence defaults write references that nobody checks. `Escapes` says that such
  a write leaves the team exactly when the reference check of a request would have refused the value, and gives a rule
  and a recurrence that do it.

## Model

| member | source | states |
|---|---|---|
| Transitions.LeavingCompleted | src/taskstore/engine/transitions.py:3-21 | In any walk of the transition table a stay in completed ends by a move to unstarted. |
| Transitions.EnteringCompleted | src/taskstore/engine/transitions.py:3-21 | In any walk, completed is entered from started only. |
| Transitions.ReopeningPassesThroughUnstartedAndStarted | src/taskstore/engine/transitions.py:3-21 | Between two separate visits to completed a walk passes through unstarted and later started. |
| Transitions.TableByTarget | src/taskstore/engine/transitions.py:3-21 | From which categories each one can be entered: the whole table, read by its targets. |
| Transitions.EveryCategoryIsReachable | src/taskstore/engine/transitions.py:3-21 | From every category a walk of the table leads to every other. |
| Template.TokensSpellTheTemplate | src/taskstore/rules/actions.py:69-86 | The scanner's tokens concatenate back to the template. |
| Template.TokensAreLeftmostMatches | src/taskstore/rules/actions.py:18 | Each token is a hole exactly when the pattern matches where it starts, and then it is the pattern's only match there; otherwise it is one literal character. |
| Template.OwnPlaceholdersAreTheIdentity | src/taskstore/rules/actions.py:82-86 | Mapping keys to their own placeholders renders every template to itself. |
| Template.RenderingIsSinglePass | src/taskstore/rules/actions.py:69-86 | A placeholder is replaced by its value verbatim, braces included, and the text on both sides renders as if alone: values are never expanded again. |
| Queries.DbEvaluatorRefinesPure | src/taskstore/rules/evaluator.py:227-259 | Whenever the pure evaluator gives a boolean or any error but its need of a database, the database evaluator gives the same, short-circuiting included. |
| Queries.PureTreesEvaluateAlike | src/taskstore/rules/conditions.py:16-28 | On trees without count_query and estimate_sum the two evaluators agree on value and error alike. |
| Queries.EvaluationSeesOnlyTheView | src/taskstore/rules/context.py:19-34 | No condition can tell apart contexts that differ only in old and new assignee and changed fields. |
| ConditionFacts.OrderOfIntegers | src/taskstore/rules/conditions.py:64-93 | On integers the four order conditions are >, <, >= and <=, in both evaluators. |
| ConditionFacts.OrderOfStrings | src/taskstore/rules/conditions.py:64-93 | On strings they are the dictionary order. |
| ConditionFacts.OrderOfOthers | src/taskstore/rules/conditions.py:64-93 | Null on either side gives false; a string against a number raises. |
| ConditionFacts.LeavesAnswer | src/taskstore/rules/conditions.py:34-53 | field_equals holds for equal values, the null tests for null and for anything else. |
| ConditionFacts.LabelHasAnswers | src/taskstore/rules/conditions.py:96-106 | label_has holds exactly when a listed label is the value or an object of that name. |
| ConditionFacts.FieldInIsADisjunction | src/taskstore/rules/conditions.py:40-43 | field_in answers as the disjunction of its field_equals conditions. |
| ConditionFacts.FieldContainsAnswers | src/taskstore/rules/conditions.py:56-61 | field_contains holds exactly when the lower-cased value is part of the lower-cased field; a null field contains nothing. |
| ConditionFacts.NamesResolve | src/taskstore/rules/context.py:19-34 | The five trigger names, the issue's fields, $current_user and $current.field are what they stand for; other values are themselves. |
| ConditionFacts.AndEndsAtTheFirst | src/taskstore/rules/evaluator.py:240-245 | and is true when all conditions are, and otherwise ends with the first that is not, false or an error. |
| ConditionFacts.OrEndsAtTheFirst | src/taskstore/rules/evaluator.py:246-251 | or is false when all conditions are, and otherwise ends with the first that is not, true or an error. |
| Queries.FiltersMean | src/taskstore/rules/evaluator.py:262-311 | Which issues the built query selects, row by row: team, archived flag, both type filters, and the assignee, project and parent whose text resolves to a UUID, falsy values selecting all. |
| ConditionFacts.QueriesAnswer | src/taskstore/rules/evaluator.py:314-355 | count_query compares the number, estimate_sum the sum of estimates, of the issues that the where clause asks for, the category texts spelled out; an error of the filters is the condition's. |
| ConditionFacts.QueryFailsExactly | src/taskstore/rules/evaluator.py:262-311 | Building the filters fails exactly for a text that is no category or a truthy reference that is no UUID, and in that order. |
| ConditionFacts.SumAdds | src/taskstore/rules/evaluator.py:344-355 | An issue adds its estimate to the sum, and nothing without one: with additivity this is the sum. |
| ConditionFacts.ComparisonsMean | src/taskstore/rules/evaluator.py:218-224 | The five operators on integers; other operators and bounds that are no numbers are errors. |
| Queries.TypeFilterPartitions | src/taskstore/rules/evaluator.py:262-355 | For any other filters, the counts (and estimate sums, null as 0) under state_type S and under state_type_not_in S add up to the unrestricted one, and they fail together. |
| Queries.TypeFilterAdds | src/taskstore/rules/evaluator.py:314-355 | Counts and sums are additive over disjoint sets of state types. |
| Evaluator.EvaluateRules | src/taskstore/rules/evaluator.py:55-137 | The loop gives the verdict of the team's applicable rules in priority order, stopping at the first that rejects or is broken. |
| RuleFacts.TheFirstHaltDecides | src/taskstore/rules/evaluator.py:80-137 | A stop is that of the first rule that halts; a write is accepted when none does. |
| RuleFacts.RejectsExactly | src/taskstore/rules/evaluator.py:102-135 | A rule rejects exactly when its condition holds, its actions can be prepared and one is a reject, with the rendered message of the first. |
| RuleFacts.OnlyRejectsReject | src/taskstore/rules/evaluator.py:80-137 | A rejected write was rejected by an asked rule with a matching condition and a reject action. |
| RuleFacts.FiresExactly | src/taskstore/rules/evaluator.py:102-137 | A rule fires exactly when it acts and has no reject, and is skipped exactly when its condition is false. |
| RuleFacts.MalformedExactly | src/taskstore/rules/evaluator.py:84-124 | Which errors of conditions and actions are reported as a malformed rule and which nobody catches; the database evaluator never asks for a database. |
| RuleFacts.CreationShows | src/taskstore/services/issue_service.py:664-687 | Through the names conditions use, a creation's rules see the new row and its state, and no state it came from. |
| RuleFacts.UpdateShows | src/taskstore/services/issue_service.py:291-311 | An update's rules see the row as it was, whatever the patch says. |
| RuleFacts.UpdateShowsMoves | src/taskstore/services/issue_service.py:291-311 | Of the patch they see the two states of a move, by name and category, and none without a move. |
| RuleFacts.PlaceholdersAreReplaced | src/taskstore/rules/actions.py:69-86 | Each of the five placeholders, in any text, gives way to its own field; the state is the new one when there is a move. |
| Evaluator.MatchingRulesAreTheApplicableOnes | src/taskstore/rules/evaluator.py:66-75 | The rules asked are exactly the enabled ones of the team and trigger, each as often as stored, by ascending priority. |
| Evaluator.AcceptedIffNoRuleHalts | src/taskstore/rules/evaluator.py:80-137 | A write is accepted if and only if no asked rule halts by itself. |
| Evaluator.AcceptanceIgnoresRuleOrder | src/taskstore/rules/evaluator.py:66-137 | Acceptance is the same for every permutation of the rules, so ties in priority cannot matter. |
| Evaluator.VerdictSeesOnlyTheView | src/taskstore/rules/context.py:19-34 | The verdict and all prepared effects are the same for contexts that differ only in what no rule reads. |
| Evaluator.AcceptedMeansNotRejected | src/taskstore/rules/evaluator.py:80-137 | If a write is accepted, every applicable rule with a reject action had a condition that evaluated to false. |
| Effects.AppliedEffectsAreAnOverlay | src/taskstore/rules/evaluator.py:140-213 | Applied effects overlay the row with the set_field values, attach exactly the team's labels of the named ones, add the comments and the notifications with their recipients in order, and change nothing else. |
| Effects.LastWriterWins | src/taskstore/rules/evaluator.py:148-170 | The value set_field leaves in a column is the one of its last writer. |
| Effects.OnlyWhitelistedColumns | src/taskstore/rules/actions.py:24-33 | Effects write no column outside the six whitelisted ones. |
| RuleFacts.AcceptedEffectsAreTheActionsTaken | src/taskstore/rules/evaluator.py:80-137 | The effects of an accepted write are, one for one and in order, what the actions of the matching rules stand for. |
| RuleFacts.LastActionWins | src/taskstore/rules/evaluator.py:148-170 | Of those actions the last set_field on a column decides its value: the action's value as it resolves, as the driver binds it. |
| RuleFacts.RulesReadWhatTheySet | src/taskstore/rules/actions.py:24-33 | A field name means the same column to set_field and to conditions. |
| RuleFacts.ValidActionsAre | src/taskstore/rules/actions.py:36-58 | Validation accepts an action exactly when its type is known and a set_field names one of six fields. |
| RuleFacts.EffectsFailExactly | src/taskstore/rules/evaluator.py:140-213 | Applying effects fails exactly when one fails on the tables that those before it have left. |
| RuleFacts.EffectsLeave | src/taskstore/rules/evaluator.py:140-213 | Applied effects change one row, by the set_field values, attach to it exactly the team's labels of the given names, and append comments and notifications. |
| IssueService.ApplyRuleEffects | src/taskstore/rules/evaluator.py:140-213 | The two nested loops end in the tables, or the error, of applying all effects one after another. |
| IssueService.ComputeDiff | src/taskstore/engine/audit.py:28-35 | The diff holds exactly the tracked fields whose values differ, with the old and the new value. |
| IssueService.SetAttributes | src/taskstore/services/issue_service.py:346-348 | Writing the patch attribute by attribute overlays the row with the patch, in whatever order. |
| IssueService.CreateIssueImpl | src/taskstore/services/issue_service.py:617-713 | Reference checks, flush, rules judged against the flushed tables, effects and audit entry: reply and working tables of the creation, uncommitted. |
| IssueService.CreateIssue | src/taskstore/services/issue_service.py:172-189 | The creation commits as a whole or leaves the stored tables unchanged. |
| IssueService.BatchCreateIssues | src/taskstore/services/issue_service.py:589-614 | Without a crash the stored tables are those of single creates in order with refusals ignored, with one result per item in order; with a crash nothing is stored. |
| IssueService.EvaluateUpdateRules | src/taskstore/services/issue_service.py:314-344 | The three evaluations act as one evaluation of state-change, assignment and update rules in that order. |
| IssueService.WriteUpdate | src/taskstore/services/issue_service.py:346-366 | Mutation, effects and audit entry, seen from the tables before them. |
| IssueService.UpdateIssue | src/taskstore/services/issue_service.py:209-404 | On any refusal or crash before the commit the stored tables are unchanged; otherwise they are the update's, followed by its rollup. |
| IssueService.RollUpParent | src/taskstore/services/issue_service.py:370-401 | What runs after the commit writes the parent's triage context or nothing. |
| IssueSpec.MarkDoneMarks | src/taskstore/services/issue_service.py:398-401 | A marked parent's triage context says children_all_done: true and otherwise what it said; no other column or row changes. |
| IssueService.BatchUpdateIssues | src/taskstore/services/issue_service.py:716-754 | The selected issues are updated one after another, each at most once, until one fails; without a failure each exactly once. |
| IssueService.BatchSelects | src/taskstore/services/issue_service.py:716-749 | A batch update selects exactly the team's issues that have what each given filter names. |
| IssueService.DeleteIssue | src/taskstore/services/issue_service.py:407-428 | Refused for missing issues and active subtasks, undone when another row refers to it, otherwise the row goes with its labels and comments. |
| IssueService.ConvertToProject | src/taskstore/services/issue_service.py:757-793 | The issue becomes linked to a new project of its team with its title and description. |
| IssueFacts.CreateIsAnOverlay | src/taskstore/services/issue_service.py:656-713 | A committed create is the new row overlaid with the effects of the rules accepted on the tables that already held the row, plus one CREATE entry. |
| IssueFacts.UpdateIsAnOverlay | src/taskstore/services/issue_service.py:314-368 | A committed update is the old row overlaid with the patch and then with the accepted rules' effects, labels being the old ones and the matched team labels, plus one UPDATE entry of the patch's differences. |
| IssueFacts.OtherValuesDoNotMatter | src/taskstore/services/issue_service.py:291-329 | Two updates of an issue by one user that fire the same triggers and name the same new state get the same verdict and effects, whatever else they write. |
| IssueFacts.LabelHasNeverHolds | src/taskstore/services/issue_service.py:670-687 | label_has evaluates to false on every creation and every update, whatever labels the issue has. |
| IssueFacts.StateChangedFiresOnEveryOtherState | src/taskstore/services/issue_service.py:318-320 | A state_changed rule is asked if and only if the patch names another state; this differs from the documented condition exactly on moves within one category. |
| IssueFacts.StateChangedFiresWithinACategory | src/taskstore/services/issue_service.py:236-257 | A concrete move between two started states that a state_changed rule refuses. |
| IssueFacts.DeleteCommitsExactly | src/taskstore/services/issue_service.py:407-428 | A delete commits if and only if nothing refers to the issue; with references but no active subtask it ends in a database error. |
| RequestFacts.DefaultStateIs | src/taskstore/services/issue_service.py:103-132 | A new issue without a state starts in the team's first triage state if triage is enabled and there is one, else in its first backlog state; only a team with neither has no default. |
| RequestFacts.CreateRefusedExactly | src/taskstore/services/issue_service.py:625-637 | The checks of a creation and the refusal each gives, in order: default state, state, project, parent, labels, assignee. |
| RequestFacts.NewRowHoldsTheRequest | src/taskstore/services/issue_service.py:639-656 | The inserted row holds the requested values, the default state where none is named, the team and the creator. |
| RequestFacts.UpdateRefusedExactly | src/taskstore/services/issue_service.py:219-231 | The checks of an update and the refusal each gives, in order. |
| RequestFacts.MoveRefusedExactly | src/taskstore/services/issue_service.py:236-257 | A move is refused exactly when the table does not join its categories. |
| RequestFacts.OtherTriggersFire | src/taskstore/services/issue_service.py:322-329 | An assignment rule is asked exactly when the patch names another assignee, an update rule always, any other never. |
| RequestFacts.DeleteRemovesTheIssue | src/taskstore/services/issue_service.py:407-428 | A delete removes the row, its labels and its comments, and nothing else. |
| RequestFacts.ConvertMakesTheProject | src/taskstore/services/issue_service.py:757-793 | A conversion makes a planned project of the issue's team, title and description and links the issue to it. |
| RequestFacts.StoppedUpdatesEnd | src/taskstore/services/issue_service.py:314-344 | An update stopped by a rule is refused in its name if the rule rejects or is malformed, and crashes for an uncaught error. |
| RequestFacts.StoredRowsAreExactly | src/taskstore/models/issue.py:25-57 | What the issues table stores: titles of at most 500 characters, three types, 32-bit numbers, existing references of which only the state is required. |
| RequestFacts.UpdatesAreLogged | src/taskstore/services/issue_service.py:346-366 | A user's committed update adds one entry with exactly the columns the patch changes and both values of each. |
| Runs.BatchCreateIsARun | src/taskstore/services/issue_service.py:589-614 | A batch create is the run of its items as single creates, so every run theorem covers it. |
| Runs.BatchUpdateIsARun | src/taskstore/services/issue_service.py:716-754 | A batch update is the run of its attempted updates. |
| Shapes.AdminStepShape | src/taskstore/services/project_service.py:51-138 | Requests on rules, recurrences, teams, members, labels, states, projects and comments touch no issue, remove no project in use, keep every referenced row in its team and log no issue entry. |
| Shapes.StepIds | src/taskstore/services/issue_service.py:617-713 | Every step keeps keys fresh and changes no issue's team, creator or archived flag. |
| Shapes.TeamNeverChanges | src/taskstore/services/issue_service.py:209-404 | An issue present after a run with a key from before it was there before, with the same team and creator. |
| Rows.RowsStayFit | src/taskstore/models/issue.py:25-57 | Over every run each stored issue fits its columns: types, widths, NOT NULL, and a state, parent, project and assignee that exist. |
| Tenancy.RunIsolates | src/taskstore/services/issue_service.py:42-100 | Over every run a parent exists, is of the issue's team and is not the issue itself; a team's states, projects and assignees stay its own while none of its rules sets them and none of its recurrences carries them. |
| Tenancy.RunIsolatesLabels | src/taskstore/rules/evaluator.py:172-191 | Over every run, with no assumption on rules, attached labels are of the issue's team. |
| Escapes.CheckDecidesIsolation | src/taskstore/services/issue_service.py:42-100 | For a value that fits its column, being inside the team and passing the request's reference check are the same. |
| Escapes.UpdateIsolatesExactly | src/taskstore/rules/evaluator.py:148-170 | An accepted update keeps a reference column of the team's issues inside it if and only if the value the rules left in it would have passed the reference check. |
| Escapes.CreateIsolatesExactly | src/taskstore/services/issue_service.py:689-708 | The same for an accepted creation and its issue.created rules. |
| Escapes.SpawnIsolatesExactly | src/taskstore/scheduler.py:51-61 | A spawned issue keeps it inside if and only if the recurrence's default for the column would have passed. |
| Escapes.DefaultCanLeaveTheTeam | src/taskstore/scheduler.py:57-58 | A concrete recurrence whose spawned issue is assigned to somebody outside the team. |
| Escapes.RuleCanLeaveTheTeam | src/taskstore/rules/evaluator.py:148-170 | A concrete valid rule and an accepted renaming after which the issue is assigned outside the team. |
| Wip.QueryCountsStarted | src/taskstore/rules/evaluator.py:262-332 | With the team's states inside it the count query gives exactly the number of the team's unarchived started issues. |
| Wip.AcceptedRowIsWithinLimit | src/taskstore/services/issue_service.py:656-704 | A creation accepted after its row was flushed leaves at most n started issues. |
| Wip.AcceptedMoveLeavesRoom | src/taskstore/services/issue_service.py:281-348 | A move into started accepted before mutation finds fewer than n started issues. |
| Wip.WipLimitHolds | src/taskstore/services/issue_service.py:209-793 | While a team keeps its two rejecting rules and none of its rules sets states, no state of any run has more than n unarchived started issues in the team. |
| Audit.ReplayConcat | src/taskstore/engine/audit.py:7-35 | Replaying and undoing a log in pieces is replaying and undoing it whole. |
| Audit.RunReplays | src/taskstore/services/issue_service.py:259-368 | Between any two points of a run, folding the logged diffs forwards gives the later value of a column and backwards the earlier one: always for six columns, for five more while no rule of the issue's team sets them, the fifth, the project, as long as the issue is not converted. |
| Audit.ConversionIsNotLogged | src/taskstore/services/issue_service.py:757-793 | A conversion changes the issue's project and adds no entry, so no fold of the log connects the two values. |
| Audit.DueDateChangeNeverCommits | src/taskstore/services/issue_service.py:353-366 | A user's change of the due date leaves the stored tables unchanged. |
| Audit.OnlyDueDatesCannotBeLogged | src/taskstore/engine/audit.py:7-35 | For rows that fit before and after the patch, the diff can be stored if and only if the due date stays as it is. |
| Audit.AcceptedUpdateCommitsUnlessDueDateChanges | src/taskstore/services/issue_service.py:346-368 | A user's update that the rules accept and whose effects apply commits if and only if it leaves the due date as it is. |
| Lifecycle.HistoryIsAWalk | src/taskstore/services/issue_service.py:236-257 | While no rule of its team sets states, an issue's category history has one entry per state of the run and walks the transition table. |
| Lifecycle.RecompletionIsReworked | src/taskstore/engine/transitions.py:3-21 | An issue completed twice in a run was unstarted and later started in between. |
| Lifecycle.SiblingTestIsExact | src/taskstore/services/issue_service.py:376-393 | With parents and the siblings' states inside their teams, the team-scoped terminal-id test asks exactly whether there is a sibling and all are terminal. |
| Lifecycle.RollupIsExact | src/taskstore/services/issue_service.py:370-401 | Whatever any rule does, an update into a terminal category marks the parent, and changes nothing else, if and only if the issue has a sibling and every sibling is terminal. |
| Lifecycle.RollupSeesAllChildren | src/taskstore/services/issue_service.py:370-401 | If this update's effects do not write the state, the parent is marked if and only if it has another child and all its children are terminal at that moment. |
| Schedules.AddMonthsLands | src/taskstore/services/recurrence_service.py:29-30 | Adding n months lands n months later, same time of day, same day or the last day of a shorter month. |
| Calendar.CalendarIsGregorian | src/taskstore/services/recurrence_service.py:29-30 | Months start on the days of the Gregorian calendar, by the closed form for years and leap days. |
| Calendar.DecimalParses | src/taskstore/services/recurrence_service.py:20-24 | The decimal notation of n is read as n. |
| Calendar.IntervalsAreExactly | src/taskstore/services/recurrence_service.py:17-24 | An interval is digits and d, w or m, with perhaps a final newline, and nothing else. |
| Calendar.SchedulesAcceptedExactly | src/taskstore/services/recurrence_service.py:34-53 | Requests may name exactly the intervals so spelled and the expressions croniter accepts, which give what croniter gives. |
| Calendar.NextDueOf | src/taskstore/services/recurrence_service.py:34-41 | The text of n days, weeks or months gives a due time n days, 7n days or n months later, or an overflow. |
| Calendar.RequestsAreDueAfterOnePeriod | src/taskstore/services/recurrence_service.py:60-165 | A recurrence created or rescheduled for every n days or weeks is due that many days from now. |
| Calendar.DailySpawnsAreSpaced | src/taskstore/scheduler.py:91-113 | An unedited recurrence of n days or weeks spawns at least that far apart over every run. |
| Schedules.AdvancesExactlyWhenNotZero | src/taskstore/services/recurrence_service.py:17-41 | A valid schedule advances strictly from every instant if and only if it is not a zero-length interval. |
| Schedules.AdvancePast | src/taskstore/scheduler.py:103-110 | The advance loop terminates past now for every strictly advancing schedule. |
| Schedules.FirstPastOnTheGrid | src/taskstore/scheduler.py:103-110 | In days or weeks the loop lands on the first point after now of the grid through its start. |
| Schedules.ZeroIntervalStaysDue | src/taskstore/services/recurrence_service.py:17-41 | A zero-length interval's next due time is the same time again. |
| Scheduler.SpawnIssue | src/taskstore/scheduler.py:42-75 | The uncommitted issue, in the team's first backlog state, and its audit entry, or the error. |
| Scheduler.SpawnTransaction | src/taskstore/scheduler.py:91-124 | One recurrence's transaction re-checks, spawns and advances; any failure leaves the stored tables unchanged, and a failed flush also raises out of the handler. |
| Scheduler.SnapshotTakesTheDue | src/taskstore/scheduler.py:82-97 | The snapshot query takes exactly the recurrences whose transaction, run at once, would not skip them. |
| Scheduler.ProcessDueRecurrences | src/taskstore/scheduler.py:78-126 | A tick with other requests between its transactions, up to its end or the first failed flush: final tables and, unless it raised, the returned count. |
| Scheduler.TickReachesExactly | src/taskstore/scheduler.py:91-124 | A tick gets past the first n recurrences if and only if none of them, at its own transaction, is due in a team with a backlog state and has a row that does not fit. |
| Scheduler.TickSurvivesExactly | src/taskstore/scheduler.py:91-124 | So a whole tick returns a count if and only if no such transaction is in it; no other failure affects the recurrences after it. |
| Scheduler.SpawnIsOneIssue | src/taskstore/scheduler.py:42-110 | A spawn happens only for an active recurrence due now, adds one issue in a backlog state of the team and one entry, and leaves the recurrence due after now. |
| SpawnFacts.SpawnStoresTheRow | src/taskstore/scheduler.py:42-110 | The spawned row cell by cell, and what the recurrence remembers of it. |
| SpawnFacts.TransactionEndsExactly | src/taskstore/scheduler.py:91-110 | When a recurrence's transaction is skipped, fails and how, hangs, or spawns. |
| SpawnFacts.FirstDateIsReplaced | src/taskstore/services/recurrence_service.py:56-57 | The first {date} of a title gives way to the date, the text before it stays, and the rest is treated alike. |
| Scheduler.TickConserves | src/taskstore/scheduler.py:78-126 | Whatever requests are interleaved, and whether or not it raises, a tick spawns at most once per due recurrence, its spawns are new issues, and the spawn log grows by exactly these pairs. |
| Scheduler.OneTransactionConserves | src/taskstore/scheduler.py:91-124 | A recurrence's transaction either adds one issue in a backlog state of its team and moves its due time from at most now to after now, or changes nothing. |
| Scheduler.EachTransactionOfATick | src/taskstore/scheduler.py:91-124 | With requests interleaved, each transaction that a tick reaches adds a spawn to the tick exactly when it stores a new issue and advances its recurrence. |
| Conservation.TickConservesIssues | src/taskstore/scheduler.py:78-126 | With any requests on rows other than issues between the transactions, a tick's new issues are exactly those of its spawns, each in a backlog state of its recurrence's team, and no other issue changes. |
| Conservation.UneditedMovesExactlyWhenItSpawns | src/taskstore/scheduler.py:78-126 | With any requests between the transactions, a recurrence that none of them edits or deletes moves its due time from at most now to after now if it spawned, and keeps its row if it did not. |
| Conservation.CountEqualsNewIssues | src/taskstore/scheduler.py:78-126 | With such requests in between, the number of spawns is the number of new issues. |
| Conservation.CountEqualsMoved | src/taskstore/scheduler.py:78-126 | With requests that neither edit nor delete recurrences in between, it is the number of recurrences whose due time moved. |
| SpawnRate.SpawnsAreSpaced | src/taskstore/scheduler.py:91-113 | Consecutive spawns of an unedited recurrence of period p are at least p apart, over every run. |
| SpawnRate.SpawnsPerWindow | src/taskstore/scheduler.py:91-113 | A window of length L holds at most floor(L/p)+1 of them, however many periods were missed. |
| Inputs.DueDateChangeCrashes | src/taskstore/services/issue_service.py:353-366 | A member's first due date on a plain issue, without any rule, ends in a serialisation error. |
| Inputs.ZeroDaysHangTheTick | src/taskstore/scheduler.py:103-110 | The request for a `0d` recurrence commits, and its transaction never ends. |
| Inputs.NumberMessageCrashesUpdates | src/taskstore/rules/evaluator.py:102-137 | A rule with a number as its reject message is stored, and an update then ends in an uncaught error. |
| Inputs.FailedFlushEndsTheTick | src/taskstore/scheduler.py:91-124 | Two due recurrences of which the first, with an unknown default assignee, keeps the second from spawning. |
| Inputs.DoneSubtaskBreaksTheDelete | src/taskstore/services/issue_service.py:407-428 | An issue whose one subtask is completed cannot be deleted. |
| Links.HydrateGroup | src/taskstore/services/fragment_link_service.py:86-94 | One type's query gives its links' existing targets and leaves the other links' entries alone. |
| Links.HydrateLinks | src/taskstore/services/fragment_link_service.py:76-110 | Grouped hydration equals looking each link up by itself, in the original order, with (deleted) for missing targets. |
| Links.DeletedIsShownExactly | src/taskstore/services/fragment_link_service.py:48-110 | (deleted) is shown exactly when the target's own table lacks the id; otherwise each type shows its own fields. |
| Links.FlushFailsExactly | src/taskstore/services/fragment_link_service.py:179-185 | Flushing the rewritten incoming links violates the unique constraint if and only if the source of one, other than the fragment itself, links to itself. |
| Links.GetLinks | src/taskstore/services/fragment_link_service.py:145-185 | The refusals, the crash of the flush with its exact condition, and otherwise the answer for both directions. |
| Links.FilterSelects | src/taskstore/services/fragment_link_service.py:145-185 | A filter keeps outgoing links of its type, and incoming ones only if it names fragments; how often each link is shown. |
| Links.SelfLinkBreaksTheTargetsListing | src/taskstore/services/fragment_link_service.py:179-185 | Two links, A to itself and A to B, after which B's links cannot be listed while A's can. |
| Links.WithoutSelfLinksListingsSucceed | src/taskstore/services/fragment_link_service.py:145-185 | On a graph without self-links every listing is answered. |
| Links.EachEndIsListedOnce | src/taskstore/services/fragment_link_service.py:145-185 | An unfiltered listing fails under exactly that condition, and otherwise shows a link once for each of its ends at the fragment, so exactly once when it is not a self-link. |
| Links.DirectionsAgree | src/taskstore/services/fragment_link_service.py:168-185 | Of two answered listings, one shows the other fragment as outgoing if and only if the other shows it as incoming by the same link id; an outgoing link is missing at its target exactly when that listing fails. |
| Links.LinkTable.CreateLink | src/taskstore/services/fragment_link_service.py:113-142 | Refusals in the code's order; otherwise one new link, the triple staying unique. |
| Links.LinkTable.DeleteLink | src/taskstore/services/fragment_link_service.py:188-207 | Removes one link, only through its own source fragment. |
| Summaries.GetSummary | src/taskstore/services/summary_service.py:22-249 | Counts, due lists with their days, per-assignee tallies, recent completions latest first, stalled projects with backlog and idle days, and the issues the user waits for, said of the tables. |
| Summaries.Tallies | src/taskstore/services/summary_service.py:106-138 | The nested dictionary holds exactly the grouped rows of both queries. |
| Summaries.CountsMean | src/taskstore/services/summary_service.py:39-104 | Given tenant isolation, the counts are of the issues in each category, and overdue and due-soon hold the unfinished issues due before today and by today plus seven. |
| Summaries.TalliesMean | src/taskstore/services/summary_service.py:106-138 | An assignee's tallies are the numbers of issues assigned in each category and of overdue ones. |
| Summaries.ListsMean | src/taskstore/services/summary_service.py:140-240 | Recent completions are the completed issues updated within seven days; waiting-for holds the user's active issues that somebody else has. |
| Summaries.StateCountsSumToTheTeam | src/taskstore/services/summary_service.py:39-57 | Given tenant isolation, the state counts sum to the team's issues and triage_count is the triage entry. |
| Summaries.OverdueTalliesSumToTheList | src/taskstore/services/summary_service.py:64-138 | Per-assignee overdue tallies sum to the assigned part of the overdue list. |
| Summaries.DueListsCoverTheWeek | src/taskstore/services/summary_service.py:59-104 | Overdue and due-soon are disjoint and together are exactly the non-terminal issues due within a week. |
| Summaries.CompletedIsNotPending | src/taskstore/services/summary_service.py:140-240 | No recently completed issue is on a due list or among those waited for. |
| Summaries.WaitedProjectsAreNotStalled | src/taskstore/services/summary_service.py:162-240 | No project of an issue that the user waits for is reported as stalled. |
| Summaries.StalledExactly | src/taskstore/services/summary_service.py:162-209 | Given tenant isolation, a started project is reported as stalled if and only if none of its issues is unstarted or started. |
| Members.CreateOrAddUser | src/taskstore/services/user_service.py:12-57 | The user of this email joins the team, the first member as OWNER, or nothing changes; the reply's role is the stored one. |
| Members.ChangeMemberRole | src/taskstore/services/user_service.py:60-107 | The role changes, or the refusal leaves the tables alone. |
| Members.SeedDefaultStates | src/taskstore/engine/defaults.py:8-25 | Six states, one per category, in order. |
| Members.CreateTeam | src/taskstore/services/team_service.py:17-55 | A team with its states and, if known, its creator as OWNER; a taken key or missing creator leaves nothing behind. |
| Members.NewTeamHasEveryCategory | src/taskstore/engine/defaults.py:8-25 | A new team has exactly one state in each category. |
| Members.JoinAddsOneMember | src/taskstore/services/user_service.py:36-49 | Joining adds one membership, OWNER exactly in a team without members, and so leaves the owners of any other team as they were. |
| Members.AddedUserIsTheOneOfTheEmail | src/taskstore/services/user_service.py:19-50 | The user who joins is the one of the email, new only if there was none; no other membership changes. |
| Members.RefusedExactlyForTheLastOwner | src/taskstore/services/user_service.py:84-99 | A change of role is refused if and only if it would leave the team without an owner. |
| Members.TeamsKeepAnOwner | src/taskstore/services/user_service.py:36-49 | Over every run a team with a member has an OWNER, memberships join existing rows and an email names one user. |
| RuleService.ValidateActions | src/taskstore/rules/actions.py:36-58 | Accepts a list exactly when every action has a known type and set_field targets are whitelisted. |
| RuleService.CreateRule | src/taskstore/services/rule_service.py:14-45 | The validated rule is stored with its audit entry, or nothing is. |
| RuleService.UpdateRule | src/taskstore/services/rule_service.py:65-100 | The set fields change and no others, only after their actions are validated. |
| RequestFacts.CreatedRuleIsTheRequest | src/taskstore/services/rule_service.py:14-45 | A rule is refused exactly for an invalid action, and otherwise stored as requested with one entry by the acting user. |
| RequestFacts.UpdatedRuleKeepsTheRest | src/taskstore/services/rule_service.py:65-100 | An update sets the given fields of one rule and keeps the others and the other rules. |
| RuleService.DeleteRule | src/taskstore/services/rule_service.py:103-111 | The rule goes, unless a notification refers to it. |
| RuleService.StoredRulesStayValid | src/taskstore/services/rule_service.py:14-100 | In every state of every run stored actions pass validation. |
| RuleService.PreparationFailsExactly | src/taskstore/rules/actions.py:69-135 | Preparing validated actions fails if and only if one lacks a key or has a message or body that is not a string, with the first such defect; otherwise it sets whitelisted fields only. |
| RuleService.JudgementOfDefects | src/taskstore/rules/evaluator.py:102-137 | A stored rule whose condition holds is reported as malformed for a missing key and raises an uncaught error for a text that is no string. |
| RuleService.BlockedFieldsNeverSurface | src/taskstore/rules/evaluator.py:148-170 | In no state a run reaches does a creation or an update fail on a field that rules may not set: the whitelist test while applying never fires. |
| RecurrenceService.CreateRecurrence | src/taskstore/services/recurrence_service.py:60-89 | Only valid schedules are stored, due as requested or one step from now. |
| RecurrenceService.UpdateRecurrence | src/taskstore/services/recurrence_service.py:141-165 | The set fields change, a changed schedule being validated and rescheduled from now. |
| RequestFacts.CreatedRecurrenceIsTheRequest | src/taskstore/services/recurrence_service.py:60-89 | A recurrence is refused exactly for an invalid schedule, and otherwise stored active as requested. |
| RequestFacts.UpdatedRecurrenceKeepsTheRest | src/taskstore/services/recurrence_service.py:141-165 | An update sets the given fields of one recurrence; its due time is the one asked for, else one step from now for a new schedule, else the old one. |
| RecurrenceService.DeleteRecurrence | src/taskstore/services/recurrence_service.py:168-176 | The recurrence goes with a DELETE entry. |
| RecurrenceService.SchedulesKeepAdvancing | src/taskstore/services/recurrence_service.py:44-53 | While no request asks for a zero-length interval, every schedule stored in any run is valid and advances. |
| RecurrenceService.TicksEnd | src/taskstore/scheduler.py:103-110 | So the advance loops of every tick end, whatever requests come between its transactions. |
| RecurrenceService.RescheduledPastNow | src/taskstore/services/recurrence_service.py:152-158 | After a schedule edit without a due time the recurrence is due at once if and only if it is active and its interval has length zero. |
| Reachable.EveryReachableStateIsSound | src/taskstore/services/issue_service.py:42-100 | From the empty tables, every run keeps keys unique, rows fitting, parents and labels in the team, an owner in every team with members and stored rules valid. |
| Reachable.ReachableReferencesStayInside | src/taskstore/services/issue_service.py:42-100 | From the empty tables, a team's references stay inside as long as neither unchecked way is used in it. |
| Reachable.ReachableUpdatesCommitUnlessDueDateChanges | src/taskstore/services/issue_service.py:346-368 | In every reachable state, an accepted update by a user whose patch fits and whose effects apply commits if and only if it leaves the due date as it is. |

## Left out

- Library behaviour: `str`, `lower`, UUID parsing, driver binding, `\w`, croniter and `strftime` are parameters of the model.
- `uuid4` keys are a counter, so a repeated key is excluded rather than improbable.
- ORM details: identity map, autoflush order and change detection. An attribute assignment is a write and a query sees the session's own writes; in particular the rollup's in-place change of a non-empty `triage_context` is taken to be stored.
- Foreign keys from rows to the acting or creating user, and from rules, recurrences and issues to their team; memberships and comments have theirs.
- Action types and set_field targets that are not strings: validation refuses them or raises, so none is stored.
- Width limits of columns other than the issues table's, and time zones of due times.
- JSON comparisons: numbers nested in lists or objects compare by constructor, and ordering two lists is an error.
- Intervals with non-ASCII digits, which the pattern also accepts.
- Two states of one category with the same position: the one with the smaller id is taken as first; the order of rows a query returns without ORDER BY is arbitrary everywhere else.
- UpdateRule: does not model the diff of its audit entry, because it compares the `str` of conditions and actions, which the model keeps parsed.
- Audit entries of labels, projects and teams, and explicit nulls in patches of rules, recurrences, labels, projects and teams.
- `DELETE /teams/{id}/audit` (src/taskstore/api/audit.py:79-102), which prunes old audit entries: in a run the log only grows.
- Condition trees of the wrong shape: field names that are no strings, a `conditions` or `where` that is no list or object, an unhashable `type`. Every other tree can be written.
- Parsing of the texts in a batch update's filter.
- ProcessDueRecurrences: assumes that no recurrence has a zero-length interval when its own transaction is to spawn; with one, the code's loop would not end. RecurrenceService.TicksEnd says when the assumption holds.
- SpawnDue: a first step that does not pass now counts as an endless loop. That is so for zero-length intervals; croniter is taken to return a later time.
- Scheduler transactions commit between requests; concurrent requests and several schedulers are not modelled.
- LinkTable: audit entries of links.
- Titles and names in summary items. Response building, listing, search, sorting and pagination of issues and fragments: query building.
- Comments, sessions, labels, projects and notifications as methods of their own: easy members only; their writes to the shared tables exist as steps of runs.
- Rule triggers for comments and projects: no modelled operation fires them.
- HTTP routers, authentication, API keys, middleware, configuration and migrations.
