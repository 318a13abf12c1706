# Dynamic approval workflow engine (approval_central), modelled in Dafny

This project models the workflow engine of the Odoo module `approval_central`.
An `approval.request` moves through the steps of an `approval.flow`. Each step
is one of these kinds:

- an **initiator** step, which advances by itself;
- a **condition** step, which branches on the first of its conditions that holds;
- an **organization** step, whose approvers are the holders of a role who sit on
  the creator's job hierarchy; with none, it escalates to the next organization step;
- an **employee** step, approved by the requested-for user;
- a **static** step, approved by role members filtered by branch;
- a **final** step, which approves the request.

Approvers may have active delegations. A committee step needs a share of its
role's members to vote.

Layout, following the source modules:

- `base.dfy`: ids, `Option`, `Result` and the engine's errors. Each `UserError`
  or propagated exception is one `Error` constructor.
- `delegation.dfy` (`approval_delegate.py`): the active-delegation union.
- `orgchart.dfy`: the employee/job/group directory as finite maps. It also holds
  the job-hierarchy walk `get_hierarchy_with_users_and_groups`, as a loop.
- `pystr.dfy`: the Python string behaviour the comparisons rely on.
  This covers ordering, `split('.')`, `float()` on decimal text and `str()` of integers.
- `conditions.dfy` (`approval_condition.py`): the dotted field path walk
  (a loop), aggregation, coercion and the six operators, and the configuration check.
- `workflow.dfy` (`models.py`): step, flow, step action and history
  records; the step constraints; `create`/`write` stamping; `sequence` order.
- `engine.dfy`: the request state machine as pure functions from a request
  state to its new state or its error. The specification, in short:
  - `ProcessAction`, `AutoInitiator`, `AutoConditions`, `CheckOrgChart`;
  - the manual actions, with `Guards` and `Dispatch`.
- `requests.dfy`: the class `ApprovalRequest`, whose methods write the
  request's fields in place as the Python methods do.
  - Each method is proved to end in the state the `Engine` function computes,
    or to report the error that function raises.
  - `ProcessAction` restores the fields on an error, which models the transaction rollback.
- `route_props.dfy`, `progress.dfy`, `action_props.dfy`, `auto_props.dfy`: the
  properties of the engine.

The world the engine reads is a parameter (`Engine.World`). It holds:

- the step arena `map<StepId, Step>`;
- flows, the action catalog, the directory and the delegations;
- the current date and the target records.

`Engine.Closed` requires three things:

- every step id that a step or flow mentions names a step, as Odoo's foreign keys ensure;
- the job hierarchy is acyclic, a precondition of the model, since the walk up `parent_id` in the source would not end otherwise;
- a flow's steps and a step's next steps are listed lowest `sequence` first, as Odoo reads them through `approval.step`'s `_order = 'sequence'`.

Where the module's stated design and its code differ, the model follows the code. The one exception is the `to_employee` branch of `process_action`. That branch raises on every request as written, so the model runs its evidently intended reading; see "## Findings". The differences:

- approve and reject are refused only on an approved request, so a rejected request can still be approved;
- reject removes only the acting user from the approvers;
- amend keeps the completed steps;
- a step's conditions are tried in id order: `approval.condition` declares no `_order`, so its `sequence` ("Priority") field is ignored;
- the job hierarchy walked for organization steps is that of the request's creator (`create_uid`), not of the acting user.

## Model

| member | source | states |
|---|---|---|
| Delegation.GetDelegate | approval_central/models/approval_delegate.py:16-35 | no users give no approvers; every input user stays in the result |
| Delegation.SearchDelegatesIsActiveDelegates | approval_central/models/approval_delegate.py:25-33 | the delegates collected are exactly those of delegations that are active, with start ≤ today ≤ end, and whose original is an input user |
| Delegation.GetDelegateIsUnion | approval_central/models/approval_delegate.py:33-34 | the result is the input users united with their active delegates |
| Delegation.GetDelegateMembership | approval_central/models/approval_delegate.py:25-34 | a user is in the result iff it is an input user or the delegate of an active delegation of an input user |
| Delegation.GetDelegateMonotone | approval_central/models/approval_delegate.py:25-34 | a larger input never gives a smaller result |
| Delegation.DelegationIsSingleLevel | approval_central/models/approval_delegate.py:25-34 | with a→b and b→c active, {a} gives {a, b}: a delegate's own delegation is not followed |
| Delegation.InactiveDelegationIgnored | approval_central/models/approval_delegate.py:27-29 | an inactive or out-of-date delegation adds nobody |
| Delegation.UnionExample | approval_central/models/approval_delegate.py:33-34 | {a, b} with a→a' active gives {a, a', b} |
| OrgChart.Parent | approval_central/models/approval_requests.py:528 | the parent job has a strictly smaller hierarchy level, so the walk terminates |
| OrgChart.UsersOf | approval_central/models/approval_requests.py:556 | a user holds a role's group iff the group is among the user's groups |
| OrgChart.EntriesAt | approval_central/models/approval_requests.py:518-527 | one hierarchy row per employee at the job, in search order |
| OrgChart.GetHierarchy | approval_central/models/approval_requests.py:515-529 | the loop walking `job.parent_id` returns the rows of every job on the chain, nearest first |
| OrgChart.AppendRows | approval_central/models/approval_requests.py:519-527 | the inner loop appends exactly the rows of the job's employees |
| OrgChart.ChainShape | approval_central/models/approval_requests.py:517-528 | the chain is empty iff there is no job; it starts at the given job, each next job is the parent of the previous, and the last has no parent |
| OrgChart.EntriesAtUsers | approval_central/models/approval_requests.py:519-527 | a user appears among a job's rows iff it is the user of an employee holding that job |
| OrgChart.HierarchyUsersOnChain | approval_central/models/approval_requests.py:551-553 | the hierarchy users are exactly the users of employees holding a job on the creator's job chain |
| PyStr.LexCompareEq | approval_central/models/approval_condition.py:198-199 | string comparison says equal iff the strings are equal |
| PyStr.LexCompareFlip | approval_central/models/approval_condition.py:200-203 | a < b iff b > a |
| PyStr.LexCompareTrans | approval_central/models/approval_condition.py:200-203 | string order is transitive: a ≤ b and b ≤ c give a ≤ c |
| PyStr.LexComparePrefix | approval_central/models/approval_condition.py:200-203 | a proper prefix is smaller |
| PyStr.SplitJoin | approval_central/models/approval_condition.py:112 | `split('.')` is undone by joining with dots, and no piece contains a dot |
| PyStr.NatTextValue | approval_central/models/approval_condition.py:194 | the decimal text of a natural reads back as that number |
| PyStr.IntTextParses | approval_central/models/approval_condition.py:188 | `float(str(i))` is `i` for every integer |
| Conditions.ResolveFieldValue | approval_central/models/approval_condition.py:110-132 | the loop along the dotted path returns the path walk aggregated as the `Resolve` definition says |
| Conditions.ConfigurationError | approval_central/models/approval_condition.py:97-105 | no error iff group checks have a group, `custom_field` has a field name, and other selectors have a value |
| Conditions.UserGroupCheck | approval_central/models/approval_condition.py:142-144 | `user_group_id` holds iff the group is among the request creator's groups |
| Conditions.LastUpdatorCheck | approval_central/models/approval_condition.py:146-156 | `last_updator_group` is the same test on the target record's `write_uid` |
| Conditions.UnbrowsableTargetIsFalse | approval_central/models/approval_condition.py:147-165 | an unbrowsable or empty target record makes every non-creator check false |
| Conditions.UnresolvedCustomFieldIsFalse | approval_central/models/approval_condition.py:168-180 | an unresolved custom path raises inside the catch-all, so the condition is false |
| Conditions.DeletedTargetCustomFieldIsFalse | approval_central/models/approval_condition.py:159-180 | a custom field on a deleted target never matches |
| Conditions.OnlyLastUpdatorRaises | approval_central/models/approval_condition.py:146-208 | apart from the last-editor check, evaluation never raises |
| Conditions.WalkSplit | approval_central/models/approval_condition.py:113-117 | walking a path is walking a prefix and then the rest from where it ended |
| Conditions.WalkStopsAtMissingSegment | approval_central/models/approval_condition.py:115-117 | the walk yields nothing once a segment is missing, whatever follows |
| Conditions.CountIsNumberOfRecords | approval_central/models/approval_condition.py:120-128 | `count` over a multi-record value is the number of records |
| Conditions.SumIsTotal | approval_central/models/approval_condition.py:121-122 | `sum` succeeds iff every value is numeric; a text value is Python's `TypeError`, caught as a failed resolution |
| Conditions.SumAppend | approval_central/models/approval_condition.py:121-122 | the sum of numeric values is additive over any split of the sequence, so it is the total of their numbers |
| Conditions.ExtremeIsExtreme | approval_central/models/approval_condition.py:123-126 | `max`/`min` over all-numeric or all-text values returns a value of that kind that no value beats |
| Conditions.ExtremeOfIsExtreme | approval_central/models/approval_condition.py:123-126 | `max`/`min` has a result iff the values are non-empty and all numbers or all texts, and then the result is one of them that no value beats |
| Conditions.NumericComparison | approval_central/models/approval_condition.py:187-188 | a numeric field is compared with `float(value)`, and an unparsable value gives false |
| Conditions.BooleanTakesNumericBranch | approval_central/models/approval_condition.py:187-190 | a boolean field takes the numeric branch: `True = "true"` is false and `True = "1"` is true |
| Conditions.TextComparison | approval_central/models/approval_condition.py:193-204 | text values compare as strings: `=`, `!=`, `<` and `>` agree with Python's string equality and ordering |
| Conditions.UnknownOperatorIsFalse | approval_central/models/approval_condition.py:197-204 | an operator outside the six gives false |
| Conditions.DateTimeNeverMatches | approval_central/models/approval_condition.py:191-208 | a datetime field never matches, since its comparison with a date raises and is caught |
| Workflow.ConditionStepsError | approval_central/models/models.py:65-69 | no error iff a condition step has at least one condition |
| Workflow.PercentRangeError | approval_central/models/models.py:71-75 | no error iff a committee step has 0 < percent ≤ 100; never an error off committee |
| Workflow.RoleError | approval_central/models/models.py:76-84 | no error iff the step is initiator, has a role, or is final, employee or condition |
| Workflow.OrdinaryStepNeedsRole | approval_central/models/models.py:76-84 | a valid ordinary non-initiator step has a role |
| Workflow.ValidStepShape | approval_central/models/models.py:65-75 | a valid step has conditions when it is a condition step, and a percent in range when it is a committee step |
| Workflow.StampCreate | approval_central/models/models.py:24-27 | `create` sets `created_by` to the current user and nothing else |
| Workflow.StampWrite | approval_central/models/models.py:29-31 | `write` sets `updated_by` to the current user and nothing else |
| Workflow.WriteRecordsWriter | approval_central/models/models.py:29-31 | after a write the flow's `updated_by` is the writer, and `created_by` is kept unless the values set it |
| Workflow.InsertBySequence | approval_central/models/models.py:37 | insertion keeps the multiset of step ids and adds the new one |
| Workflow.OrderBySequence | approval_central/models/models.py:37 | ordering by `sequence` is a permutation of the flow's steps |
| Workflow.InsertKeepsSorted | approval_central/models/models.py:37 | inserting into a sequence-ordered list keeps it ordered |
| Workflow.InsertLargestAppends | approval_central/models/approval_requests.py:541 | inserting a step whose sequence is at least every listed one appends it |
| Workflow.OrderBySequenceOfSorted | approval_central/models/approval_requests.py:541 | the sort is stable: a list already in `sequence` order, ties included, comes back unchanged |
| Workflow.OrderBySequenceSorted | approval_central/models/models.py:37 | the resolver's step list is ordered by `sequence` and is a permutation of the flow's steps |
| Engine.FindAction | approval_central/models/approval_requests.py:47-49 | an action is found iff some catalog action has that code, and it is the first such action in catalog order |
| Engine.StepActionFor | approval_central/models/approval_requests.py:64-67 | the step action found is the first of the step's with that code, as `[:1]` takes; none found means no step action has it |
| Engine.FirstMatch | approval_central/models/approval_requests.py:333-337 | the result is the next step of the first condition that holds, all before it being false; no result iff all are false |
| Engine.IndexOf | approval_central/models/approval_requests.py:542 | `list.index`: the first position holding the step, or none when absent |
| Engine.FlowOrder | approval_central/models/approval_requests.py:541 | every step of the sorted flow is a step of the world |
| Engine.OnBranch | approval_central/models/approval_requests.py:605-616 | the branch filter keeps only role members |
| Engine.NextOrganization | approval_central/models/approval_requests.py:565-569 | the first organization step at or after the position, none being skipped; none iff there is no later one |
| Engine.CheckOrgChart | approval_central/models/approval_requests.py:531-634 | only the approvers change; a given step always resolves to some step |
| Engine.RouteFromInOrder | approval_central/models/approval_requests.py:545-626 | the step chosen is the given one or a later organization step |
| Engine.FirstCandidate | approval_central/models/approval_requests.py:69-75 | only the approvers change; a step is found iff there is a candidate |
| Engine.AutoConditions | approval_central/models/approval_requests.py:322-394 | after the chain the current step is a step of the world or is left as it was |
| Engine.InitiatorChoice | approval_central/models/approval_requests.py:254-273 | only the approvers change, and the step chosen is a step of the world |
| Engine.AutoInitiator | approval_central/models/approval_requests.py:247-252 | when nothing is advanced the request is unchanged |
| Engine.RoundHalfEven | approval_central/models/approval_requests.py:91 | `round` gives the nearest integer, ties to even |
| Engine.RequiredVotes | approval_central/models/approval_requests.py:91-92 | the committee threshold is at least one |
| Engine.VotesFor | approval_central/models/approval_requests.py:80-84 | the vote count is the number of history rows for that step and action |
| Engine.FirstInitiator | approval_central/models/approval_requests.py:179 | the step found is an initiator of the flow with the lowest `sequence` of its initiators; none iff the flow has no initiator step |
| Engine.Guards | approval_central/models/approval_requests.py:45-67 | passing the guards means a current step exists and the step action is one of its actions |
| Engine.ManualNext | approval_central/models/approval_requests.py:69-75 | only the approvers change, and the next step is a step of the world; `ActionProps.ManualNextOrder` states which step is chosen |
| ActionProps.ManualNextOrder | approval_central/models/approval_requests.py:69-75 | the step action's own next step if it has one; else, on a step without conditions that has next steps, the first of them resolved by `_check_org_chart`; else none, with the request unchanged |
| RouteProps.NoEmployeeKeepsStep | approval_central/models/approval_requests.py:535-538 | without an employee record the step comes back unchanged and nothing changes |
| RouteProps.RouteNeverMissesDelegation | approval_central/models/approval_requests.py:576-580 | the delegation-missing error of organization steps can never be raised |
| RouteProps.OrganizationRoute | approval_central/models/approval_requests.py:548-587 | from an organization step the choice is a step at or after it with a role holder in the hierarchy; its approvers are those holders and their delegates; every organization step skipped had no holder |
| RouteProps.EscalationWithoutLaterOrganizationRaises | approval_central/models/approval_requests.py:556-573 | no holder and no later organization step raises |
| RouteProps.EmployeeStepRoute | approval_central/models/approval_requests.py:589-600 | an employee step is approved by the requested-for user alone, and raises without one |
| RouteProps.StaticStepRoute | approval_central/models/approval_requests.py:618-626 | a static step gets the branch-filtered members with delegates; nobody raises unless the step is final or a condition step |
| RouteProps.StaticMatchesMembership | approval_central/models/approval_requests.py:603-616 | membership of the branch filter: the request's branch when cross-branch; else the creator's branch, or the fallback branch when that one is empty |
| RouteProps.StepOutsideFlowRaises | approval_central/models/approval_requests.py:541-542 | a step missing from its flow's list raises; Odoo cannot produce such a step, since `flow_id` is required and `step_ids` is its inverse (models.py:20, 39), so this covers worlds outside what Odoo stores |
| RouteProps.CheckOrgChartStaysInFlow | approval_central/models/approval_requests.py:545-626 | only the approvers change; the given step is in its flow's order, and the resolved step is the given one or an organization step at a later position |
| RouteProps.FlowOrderIsFlowSteps | approval_central/models/approval_requests.py:541 | in a closed world the sorted flow is the flow's own step list |
| Progress.CheckOrgChartAdvances | approval_central/models/approval_requests.py:531-634 | resolution keeps the request's own fields, completed steps and history |
| Progress.AutoConditionsAdvances | approval_central/models/approval_requests.py:322-394 | the condition chain only adds completed steps and history rows, leaves a placed current step, and leaves no approvers when it approves |
| Progress.RouteApprovedAdvances | approval_central/models/approval_requests.py:118-145 | the same for the routing after an approval |
| Progress.AutoInitiatorAdvances | approval_central/models/approval_requests.py:247-320 | the same for the initiator advance |
| Progress.DispatchAdvances | approval_central/models/approval_requests.py:76-243 | the same for the branch on the action code once the next step is resolved |
| Progress.ManualAdvances | approval_central/models/approval_requests.py:42-245 | the same for every manual action |
| Progress.ProcessActionAdvances | approval_central/models/approval_requests.py:37-245 | `process_action` never removes a completed step or a history row; it keeps the current step a step of the world; if it approves, the approvers are empty |
| ActionProps.Refusals | approval_central/models/approval_requests.py:45-67 | off an initiator step each refusal is raised when the checks before it pass and it fails; only an approved request is refused for approve or reject |
| ActionProps.GuardsPass | approval_central/models/approval_requests.py:45-67 | the guards pass iff every check holds, yielding the global action and the step action with that code |
| ActionProps.AmendEffect | approval_central/models/approval_requests.py:178-187 | amend: pending at the flow's first initiator, approved by the requester alone (nobody without one); completed steps kept; one history row; every other field, dates included, kept; no initiator raises |
| ActionProps.RejectEffect | approval_central/models/approval_requests.py:197-202 | reject: rejected and dated; only the acting user is removed from the approvers left by the next-step resolution; every other field kept; one history row |
| ActionProps.RevertEffect | approval_central/models/approval_requests.py:231-235 | revert: pending at the resolved next step, else the same step; the resolved approvers, the dates and every other field kept; one history row |
| ActionProps.OtherActionOnlyLogs | approval_central/models/approval_requests.py:237-243 | any other action code only appends its history row after the next-step resolution |
| ActionProps.ToEmployeeEffect | approval_central/models/approval_requests.py:203-222 | send to employee (corrected): pending at the action's next step, approved by the requested-for user alone, every other field kept; each missing piece raises |
| ActionProps.ToEmployeeAsWrittenDiffers | approval_central/models/approval_requests.py:207-210 | as written it raises on every request, while the corrected one succeeds when a requested-for user and a next step exist |
| ActionProps.ApproveSingleEffect | approval_central/models/approval_requests.py:149-170 | single approval completes the step; a final next step approves with no approvers and keeps the current step; an employee next step hands over to the requested-for user and raises without one; no next step only completes and logs |
| ActionProps.ApproveSingleCompletes | approval_central/models/approval_requests.py:149-243 | a successful single approval completes the step and ends with its history row |
| ActionProps.RouteApprovedFinal | approval_central/models/approval_requests.py:118-123 | routing after an approval to a final step approves the request with no approvers, date set, and nothing else changed |
| ActionProps.RouteApprovedEmployee | approval_central/models/approval_requests.py:161-170 | routing after an approval to an employee step that is not final hands the request to the requested-for user alone, and raises without one |
| ActionProps.ApproveSingleToEmployee | approval_central/models/approval_requests.py:149-170 | a single approval whose resolved next step is an employee step completes the step and hands over to the requested-for user, for any creator; raises without one |
| ActionProps.ApproveSingleToFinal | approval_central/models/approval_requests.py:149-160 | a single approval whose resolved next step is final completes the step and approves with no approvers, for any creator |
| ActionProps.CommitteeThresholdToFinal | approval_central/models/approval_requests.py:111-123 | the vote reaching the committee threshold with a final next step completes the step and approves with no approvers |
| ActionProps.CommitteeThresholdRoutes | approval_central/models/approval_requests.py:111-147 | at the threshold the step completes and an employee next step hands over to the requested-for user (raising without one), an ordinary next step becomes current and the chain after it runs, and no next step changes nothing more |
| ActionProps.VotesForAppend | approval_central/models/approval_requests.py:80-101 | a new row for the step and action adds exactly one to its count |
| ActionProps.CommitteeVote | approval_central/models/approval_requests.py:78-147 | an empty committee raises; a vote first adds one row that counts once; below the threshold the voter leaving the approvers is the only other change; at it the step completes |
| ActionProps.RequiredVotesExamples | approval_central/models/approval_requests.py:91-92 | 60% of 3 needs 2, 50% of 5 needs 2 (ties to even), 50% of 1 needs 1, 0% needs 1 |
| ActionProps.RequiredVotesReachable | approval_central/models/approval_requests.py:91-92 | with 0 ≤ percent ≤ 100 the threshold is between 1 and the committee size |
| ActionProps.CommitteeThresholdReachable | approval_central/models/models.py:71-75 | on a committee step satisfying the percentage constraint, the threshold is between 1 and the committee size |
| AutoProps.RevisitRaises | approval_central/models/approval_requests.py:327-328 | reaching a condition step twice raises the loop error |
| AutoProps.NoMatchRaises | approval_central/models/approval_requests.py:332-339 | a condition step none of whose conditions holds raises |
| AutoProps.MissingAutoConditionRaises | approval_central/models/approval_requests.py:346-348 | without the `auto_condition` action a matched step raises |
| AutoProps.ConditionToFinalApproves | approval_central/models/approval_requests.py:332-370 | the first holding condition decides; a final step there approves with no approvers, completes both steps and logs one row |
| AutoProps.FirstAtIndex | approval_central/models/approval_requests.py:333-337 | the first condition that holds gives the next step |
| AutoProps.SelfLoopRaises | approval_central/models/approval_requests.py:326-387 | a condition step whose match leads back to itself is caught on the second visit |
| AutoProps.ChainIgnoresActionType | approval_central/models/approval_requests.py:322-394 | the condition chain reads neither the action type nor the comment |
| AutoProps.InitiatorOnlyOnInitiator | approval_central/models/approval_requests.py:249-320 | off an initiator step nothing happens; on one it advances or raises |
| AutoProps.InitiatorChoiceOrder | approval_central/models/approval_requests.py:254-273 | the initiator's next step is the first holding condition, else the first action's next step, else the first candidate resolved |
| AutoProps.InitiatorToFinalApproves | approval_central/models/approval_requests.py:278-307 | an initiator whose chosen step resolves to a final step approves the request there with no approvers, completes both steps and logs one row; `process_action` returns that state |
| AutoProps.InitiatorWithoutNextRaises | approval_central/models/approval_requests.py:275-276 | with no next step the initiator advance raises, and so does `process_action` |
| AutoProps.InitiatorIgnoresAction | approval_central/models/approval_requests.py:39-40 | on an initiator step `process_action` gives the same result whatever action was asked |
| Requests.NextOrganizationIndex | approval_central/models/approval_requests.py:565-569 | the loop over later steps finds the first organization step |
| Requests.ApprovalRequest.Route | approval_central/models/approval_requests.py:545-626 | resolving from a position writes the approvers the route specification assigns, or reports its error |
| Requests.ApprovalRequest.CheckOrgChart | approval_central/models/approval_requests.py:531-634 | `_check_org_chart` ends in the specified state or error |
| Requests.ApprovalRequest.FindMatchingCondition | approval_central/models/approval_requests.py:333-337 | the loop over conditions returns the first match as specified |
| Requests.ApprovalRequest.FirstAcceptedCandidate | approval_central/models/approval_requests.py:69-75 | the candidate search ends in the specified state |
| Requests.ApprovalRequest.AutoProcessConditionSteps | approval_central/models/approval_requests.py:322-394 | the `while` loop with its `visited` set ends in the specified state or error |
| Requests.ApprovalRequest.ChooseInitiatorNext | approval_central/models/approval_requests.py:254-273 | picks the initiator's next step as specified |
| Requests.ApprovalRequest.AdvanceFromInitiator | approval_central/models/approval_requests.py:278-318 | the writes after the choice end in the specified state or error |
| Requests.ApprovalRequest.AutoProcessInitiatorStep | approval_central/models/approval_requests.py:247-320 | `auto_process_initiator_step` ends in the specified state, result or error |
| Requests.ApprovalRequest.RouteApproved | approval_central/models/approval_requests.py:118-145 | the routing after an approval ends in the specified state or error |
| Requests.ApprovalRequest.ApproveCommittee | approval_central/models/approval_requests.py:78-147 | committee approval ends in the specified state or error |
| Requests.ApprovalRequest.ApproveSingle | approval_central/models/approval_requests.py:149-177 | single approval ends in the specified state or error |
| Requests.ApprovalRequest.CheckGuards | approval_central/models/approval_requests.py:45-67 | the refusals checked in order, changing nothing |
| Requests.ApprovalRequest.ResolveNext | approval_central/models/approval_requests.py:69-75 | ends in the choice of `Engine.ManualNext`, which `ActionProps.ManualNextOrder` states: the step action's next step, else the first next step resolved on a step without conditions, else none |
| Requests.ApprovalRequest.Dispatch | approval_central/models/approval_requests.py:76-243 | the branch on the action code ends in the specified state or error |
| Requests.ApprovalRequest.Run | approval_central/models/approval_requests.py:37-245 | the body of `process_action` ends in the specified state or error |
| Requests.ApprovalRequest.ProcessAction | approval_central/models/approval_requests.py:37-245 | `process_action` ends in the specified state, or reports the error with every write rolled back; it keeps the progress invariant |

## Left out

- Notifications and activities: `activity_schedule`, `_complete_user_activity`,
  `_notify_approvers_via_activity`, and the bus push in `utils/notification.py`.
  They do not affect the request's fields.
- Display and UI: `_compute_step_progress`, `_compute_target_record`,
  `action_open_target_record`, `_open_success_message_wizard`,
  `_onchange_field_to_check`, and the dashboard SQL view.
- `action_approve_all`: it dispatches to `hr.leave` and `onduty.report`, which are
  not part of this model.
- Install hooks, the manifest and the HTTP controller. They hold no engine logic.
- The ORM is not modelled.
  - Searches, `sudo` and logging are reduced to reading the given maps.
  - The catch-and-rewrap of `_check_org_chart` into "Workflow error: …" keeps the
    error's kind and drops its message text.
- Floating point: `required_approval_percent` and numeric field values are exact
  reals. A product that a double rounds onto or off a `.5` tie may round
  differently in the source.
- Date-literal parsing (`fields.Date.from_string`) is not modelled.
  - A datetime field never matches, because its comparison with a date raises.
  - A date field's value is its ISO text, compared as a string.
- `float()` is modelled on optional-sign decimal text only. Exponents, `inf`/`nan`,
  surrounding whitespace and underscores are not accepted.
- `getattr` on scalar attributes of Python values has no model. A path segment past a
  scalar yields nothing.
- `max`/`min` over values that are neither all numbers nor all texts fail the
  resolution, and the condition is then false. For mixed numbers and texts
  this is the source's behaviour: the `TypeError` is caught. Python can also
  compare dates or recordsets among themselves, and the model does not
  capture that.
- Concurrency: simultaneous committee votes and record locking are not
  modelled; one call runs at a time.
- The company and `branch_id` fields of a step are not read by the engine.
  The `user_groups` column of the hierarchy rows is built but never used.
- The escalation recursion in `_check_org_chart` continues from the position of the
  next organization step in the sorted flow. In the source the recursive call finds
  that step again with `list.index`. The two agree when a flow lists each step once.
- The candidate loop over `next_step_ids` is modelled as its first iteration.
  `_check_org_chart` of a step always returns a step, so the loop always stops there.
- The sanity condition `while current_index < len(flow_steps)` and the raise after it
  cannot be reached: each branch of the loop body returns or raises.
- Engine.Dispatch: sends `to_employee` through the corrected `Engine.ToEmployee`. As written (approval_requests.py:208) the branch raises `AttributeError` on `a.name` and rolls back; that reading is `Engine.ToEmployeeAsWritten`, listed under "## Findings".
- Requests.ApprovalRequest.Dispatch: ends `to_employee` in the corrected success state, for the same reason as `Engine.Dispatch`.
- Requests.ApprovalRequest.Run: inherits the corrected `to_employee` branch, for the same reason.
- Requests.ApprovalRequest.ProcessAction: on `to_employee` it commits the corrected state, where the source as written raises and rolls back. Its rollback and progress promises hold for both readings.
- ActionProps.ApproveSingleEffect: states the routing only for a creator without an
  employee record. With one, the next step is first resolved by `_check_org_chart`,
  whose effect `RouteProps` states separately; `ApproveSingleToFinal` and
  `ApproveSingleToEmployee` give the final and employee outcomes for any creator.
- ActionProps.Refusals: covers requests whose current step is not an initiator.
  On an initiator step the automatic advance runs first, as
  `AutoProps.InitiatorIgnoresAction` states.

## Findings

| source | as written | input that shows it | evidently intended | confidence | as-written member | corrected member |
|---|---|---|---|---|---|---|
| approval_central/models/approval_requests.py:207-210 | the `to_employee` branch filters the step's actions with `a.name == 'to_employee'`, but `approval.step.action` has no `name` field, so the filter raises on its first record | a pending request with a requested-for user; its current step has a `to_employee` step action with a next step; the acting user is an approver | filter on `a.action_id.code == 'to_employee'` as the guard at line 64 does, then use that action's next step | not executed | Engine.ToEmployeeAsWritten | Engine.ToEmployee |
