/** The `approval.request` record as an object: its engine methods write the
    request's fields in place, and each is proved to leave the request in the
    state the specification in `Engine` computes, or to report the error the
    specification raises. */
module Requests {
  import opened Base
  import opened OrgChart
  import opened Delegation
  import opened Conditions
  import opened Workflow
  import opened Engine
  import Progress

  /** A method returning `res` with the request now in `now` did what the
      specification `spec` says: its value and new state, or its error. */
  predicate Followed<T(==)>(spec: Result<(T, Req)>, res: Result<T>, now: Req)
  {
    if spec.Ok? then res == Ok(spec.value.0) && now == spec.value.1 else res == Err(spec.error)
  }

  /** The same for a method that only writes state. */
  predicate Reached(spec: Result<Req>, err: Option<Error>, now: Req)
  {
    if spec.Ok? then err.None? && now == spec.value else err == Some(spec.error)
  }

  /** `flow_steps[k:]` searched for an organization step. */
  method NextOrganizationIndex(w: World, order: seq<StepId>, k: nat) returns (r: Option<nat>)
    requires forall i :: 0 <= i < |order| ==> order[i] in w.steps
    ensures r == NextOrganization(w, order, k)
  {
    var j := k;
    while j < |order|
      invariant k <= j || |order| <= k
      invariant NextOrganization(w, order, k) == NextOrganization(w, order, j)
      decreases |order| - j
    {
      if w.steps[order[j]].isOrganization {
        return Some(j);
      }
      j := j + 1;
    }
    return None;
  }

  class ApprovalRequest {
    const flow: FlowId
    const resModel: string
    const resId: int
    const createUid: UserId
    const requestedBy: Option<UserId>
    const requestedFor: Option<UserId>
    const branch: Option<BranchId>
    var status: Status
    var current: Option<StepId>
    var approvers: set<UserId>
    var completed: set<StepId>
    var history: seq<HistoryEntry>
    var approvedDate: Option<int>
    var rejectedDate: Option<int>

    function State(): Req
      reads this
    {
      Req(flow, resModel, resId, createUid, requestedBy, requestedFor, branch,
          status, current, approvers, completed, history, approvedDate, rejectedDate)
    }

    constructor (r: Req)
      ensures State() == r
    {
      flow, resModel, resId, createUid := r.flow, r.resModel, r.resId, r.createUid;
      requestedBy, requestedFor, branch := r.requestedBy, r.requestedFor, r.branch;
      status, current, approvers, completed := r.status, r.current, r.approvers, r.completed;
      history, approvedDate, rejectedDate := r.history, r.approvedDate, r.rejectedDate;
    }

    /** The transaction rollback: the written fields take back their values. */
    method Restore(r: Req)
      requires r == State().(status := r.status, current := r.current, approvers := r.approvers,
        completed := r.completed, history := r.history, approvedDate := r.approvedDate, rejectedDate := r.rejectedDate)
      modifies this
      ensures State() == r
    {
      status, current, approvers, completed := r.status, r.current, r.approvers, r.completed;
      history, approvedDate, rejectedDate := r.history, r.approvedDate, r.rejectedDate;
    }

    /** The case analysis of `_check_org_chart` on the step at position `i`,
        recursing on a later organization step when this one has no holder
        in the hierarchy. */
    method Route(w: World, emp: EmployeeId, hu: set<UserId>, order: seq<StepId>, i: nat) returns (res: Result<StepId>)
      requires i < |order| && forall k :: 0 <= k < |order| ==> order[k] in w.steps
      modifies this
      ensures var spec := RouteFrom(w, old(State()), emp, hu, order, i);
        if spec.Ok? then res == Ok(spec.value.0) && State() == old(State()).(approvers := spec.value.1)
        else res == Err(spec.error)
      decreases |order| - i
    {
      var st := w.steps[order[i]];
      if st.isOrganization {
        var matched := RoleUsers(w.dir, st.role) * hu;
        if matched == {} {
          var j := NextOrganizationIndex(w, order, i + 1);
          if j.None? {
            return Err(NoOrgApprover);
          }
          res := Route(w, emp, hu, order, j.value);
          return;
        }
        var delegated := GetDelegate(matched, w.delegations, w.today);
        if delegated == {} {
          return Err(MissingDelegation);
        }
        approvers := delegated;
        return Ok(order[i]);
      } else if st.isEmployeeStep {
        if requestedFor.None? {
          return Err(NoRequestedFor);
        }
        approvers := {};
        approvers := {requestedFor.value};
        return Ok(order[i]);
      } else {
        var delegated := GetDelegate(StaticMatches(w, State(), emp, st), w.delegations, w.today);
        if delegated == {} && !st.isFinal && !st.isCondition {
          return Err(NoStaticApprover);
        }
        approvers := delegated;
        return Ok(order[i]);
      }
    }

    /** `_check_org_chart(step)`. */
    method CheckOrgChart(w: World, step: Option<StepId>) returns (res: Result<Option<StepId>>)
      requires Closed(w) && (step.Some? ==> step.value in w.steps)
      modifies this
      ensures Followed(Engine.CheckOrgChart(w, old(State()), step), res, State())
    {
      var emp := Get(w.dir.employeeOfUser, createUid);
      if emp.None? {
        return Ok(step);
      }
      var data := GetHierarchy(w.dir, Get(w.dir.employeeJob, emp.value));
      if step.None? {
        return Err(StepNotInFlow);
      }
      var order := FlowOrder(w, step.value);
      var idx := IndexOf(order, step.value);
      if idx.None? {
        return Err(StepNotInFlow);
      }
      var routed := Route(w, emp.value, HierarchyUsers(data), order, idx.value);
      if routed.Err? {
        return Err(routed.error);
      }
      return Ok(Some(routed.value));
    }

    /** `for condition in step.condition_ids: if condition._evaluate_condition(self): ... break`;
        an exception leaving the evaluator propagates. */
    method FindMatchingCondition(w: World, conds: seq<Condition>) returns (res: Result<Option<StepId>>)
      ensures res == FirstMatch(w, State(), conds)
    {
      var i := 0;
      assert conds[0..] == conds;
      while i < |conds|
        invariant 0 <= i <= |conds|
        invariant FirstMatch(w, State(), conds) == FirstMatch(w, State(), conds[i..])
      {
        var holds := Evaluate(w.store, conds[i], SubjectOf(w, State()));
        assert conds[i..][0] == conds[i] && conds[i..][1..] == conds[i + 1..];
        if holds.Err? {
          return Err(holds.error);
        }
        if holds.value {
          return Ok(Some(conds[i].nextStep));
        }
        i := i + 1;
      }
      assert conds[i..] == [];
      return Ok(None);
    }

    /** The escalation candidates of `next_step_ids`: the first candidate
        resolved through the organization chart (the resolution of a step
        is never empty, so the source's loop stops there). */
    method FirstAcceptedCandidate(w: World, cands: seq<StepId>) returns (res: Result<Option<StepId>>)
      requires Closed(w) && forall k :: 0 <= k < |cands| ==> cands[k] in w.steps
      modifies this
      ensures Followed(FirstCandidate(w, old(State()), cands), res, State())
    {
      if cands == [] {
        return Ok(None);
      }
      res := CheckOrgChart(w, Some(cands[0]));
    }

    /** `auto_process_condition_steps(step)`: follow condition steps with a
        `visited` set, then resolve the first step that is not a condition. */
    method AutoProcessConditionSteps(w: World, c: Call, start: StepId) returns (err: Option<Error>)
      requires Closed(w) && start in w.steps
      modifies this
      ensures Reached(AutoConditions(w, old(State()), c, start, {}), err, State())
    {
      ghost var target := AutoConditions(w, State(), c, start, {});
      var step := start;
      var visited: set<StepId> := {};
      while w.steps[step].isCondition
        invariant step in w.steps
        invariant AutoConditions(w, State(), c, step, visited) == target
        decreases w.steps.Keys - visited
      {
        var st := w.steps[step];
        if step in visited {
          return Some(WorkflowLoop(step));
        }
        visited := visited + {step};
        var found := FindMatchingCondition(w, st.conditions);
        if found.Err? {
          return Some(found.error);
        }
        if found.value.None? {
          return Some(NoMatchingCondition(step));
        }
        var next := found.value.value;
        assert next in w.steps by {
          var i :| 0 <= i < |st.conditions| && st.conditions[i].nextStep == next;
          assert StepLinksClosed(w.steps, st);
        }
        completed := completed + {step};
        var action := FindAction(w.catalog, "auto_condition");
        if action.None? {
          return Some(MissingGlobalAction("auto_condition"));
        }
        history := history + [HistoryEntry(step, action.value, c.user, AutoConditionComment, c.now)];
        if w.steps[next].isFinal {
          completed := completed + {next};
          status, approvedDate, current, approvers := Approved, Some(c.now), Some(next), {};
          return None;
        } else if w.steps[next].isEmployeeStep {
          if requestedFor.None? {
            return Some(NoRequestedFor);
          }
          status, current, approvers := Pending, Some(next), {requestedFor.value};
        }
        current := Some(next);
        step := next;
      }
      var resolved := CheckOrgChart(w, Some(step));
      if resolved.Err? {
        return Some(resolved.error);
      }
      current := resolved.value;
      return None;
    }

    /** The initiator's next step: a holding condition, else the first
        action's next step, else the first escalation candidate. */
    method ChooseInitiatorNext(w: World, st: Step) returns (res: Result<Option<StepId>>)
      requires Closed(w) && StepLinksClosed(w.steps, st)
      modifies this
      ensures Followed(InitiatorChoice(w, old(State()), st), res, State())
    {
      var next: Option<StepId> := None;
      if st.isCondition {
        var found := FindMatchingCondition(w, st.conditions);
        if found.Err? {
          return Err(found.error);
        }
        next := found.value;
      }
      if next.None? && st.actions != [] {
        next := st.actions[0].nextStep;
      }
      if next.None? && st.nextSteps != [] {
        res := FirstAcceptedCandidate(w, st.nextSteps);
        return;
      }
      return Ok(next);
    }

    /** The advance from the initiator step `id` to the chosen step. */
    method AdvanceFromInitiator(w: World, c: Call, id: StepId, chosen: StepId) returns (err: Option<Error>)
      requires Closed(w) && chosen in w.steps
      modifies this
      ensures Reached(InitiatorAdvance(w, old(State()), c, id, chosen), err, State())
    {
      var checked := CheckOrgChart(w, Some(chosen));
      if checked.Err? {
        return Some(checked.error);
      }
      var next := checked.value.value;
      completed := completed + {id};
      var action := FindAction(w.catalog, "auto_initiate");
      if action.None? {
        return Some(MissingGlobalAction("auto_initiate"));
      }
      history := history + [HistoryEntry(id, action.value, c.user, AutoInitiateComment, c.now)];
      if w.steps[next].isFinal {
        status, approvedDate, current, approvers := Approved, Some(c.now), Some(next), {};
        completed := completed + {next};
        return None;
      } else if w.steps[next].isEmployeeStep {
        if requestedFor.None? {
          return Some(NoRequestedFor);
        }
        status, current, approvers := Pending, Some(next), {requestedFor.value};
        return None;
      }
      current := Some(next);
      err := AutoProcessConditionSteps(w, c, next);
    }

    /** `auto_process_initiator_step`: `Ok(false)` and no write unless the
        current step is an initiator. */
    method AutoProcessInitiatorStep(w: World, c: Call) returns (res: Result<bool>)
      requires Closed(w) && Placed(w, State())
      modifies this
      ensures Followed(AutoInitiator(w, old(State()), c), res, State())
    {
      if current.None? || !w.steps[current.value].isInitiator {
        return Ok(false);
      }
      var id := current.value;
      assert StepLinksClosed(w.steps, w.steps[id]);
      var next := ChooseInitiatorNext(w, w.steps[id]);
      if next.Err? {
        return Err(next.error);
      }
      if next.value.None? {
        return Err(NoNextFromInitiator);
      }
      var failed := AdvanceFromInitiator(w, c, id, next.value.value);
      if failed.Some? {
        return Err(failed.value);
      }
      return Ok(true);
    }

    /** After an approval completes its step: approve on a final next step,
        hand over on an employee next step, else move on and follow the
        condition chain. */
    method RouteApproved(w: World, c: Call, next: Option<StepId>) returns (err: Option<Error>)
      requires Closed(w) && (next.Some? ==> next.value in w.steps)
      modifies this
      ensures Reached(Engine.RouteApproved(w, old(State()), c, next), err, State())
    {
      err := None;
      if next.None? {
        return None;
      }
      if w.steps[next.value].isFinal {
        status, approvedDate, approvers := Approved, Some(c.now), {};
      } else if w.steps[next.value].isEmployeeStep {
        if requestedFor.None? {
          return Some(NoRequestedFor);
        }
        status, current, approvers := Pending, next, {requestedFor.value};
      } else {
        current := next;
        err := AutoProcessConditionSteps(w, c, next.value);
      }
    }

    /** A committee member's approval. */
    method ApproveCommittee(w: World, c: Call, id: StepId, st: Step, action: ActionId, next: Option<StepId>) returns (err: Option<Error>)
      requires Closed(w) && (next.Some? ==> next.value in w.steps)
      modifies this
      ensures Reached(Engine.ApproveCommittee(w, old(State()), c, id, st, action, next), err, State())
    {
      err := None;
      ghost var before := State();
      var approvedCount := VotesFor(history, id, action);
      var members := |RoleUsers(w.dir, st.role)|;
      if members == 0 {
        return Some(EmptyCommittee);
      }
      var required := RequiredVotes(st.percent, members);
      var entry := HistoryEntry(id, action, c.user, c.comment, c.now);
      history := history + [entry];
      if c.user in approvers {
        approvers := approvers - {c.user};
      }
      ghost var voted := Log(before, entry).(approvers := before.approvers - {c.user});
      assert State() == voted;
      if approvedCount + 1 >= required {
        completed := completed + {id};
        assert State() == Complete(voted, id);
        err := RouteApproved(w, c, next);
      }
    }

    /** A single approver's approval. */
    method ApproveSingle(w: World, c: Call, id: StepId, next: Option<StepId>) returns (err: Option<Error>)
      requires Closed(w) && (next.Some? ==> next.value in w.steps)
      modifies this
      ensures Reached(Engine.ApproveSingle(w, old(State()), c, id, next), err, State())
    {
      completed := completed + {id};
      var checked := CheckOrgChart(w, next);
      if checked.Err? {
        return Some(checked.error);
      }
      err := RouteApproved(w, c, checked.value);
    }

    /** The refusals of `process_action`, checked in order before any write. */
    method CheckGuards(w: World, c: Call) returns (res: Result<(ActionId, StepAction)>)
      requires Closed(w) && Placed(w, State())
      ensures res == Guards(w, State(), c)
    {
      if c.actionType.None? || c.actionType.value == "" {
        return Err(NoActionType);
      }
      var code := c.actionType.value;
      var action := FindAction(w.catalog, code);
      if action.None? {
        return Err(UnknownAction);
      }
      if status == Approved && (code == "approve" || code == "reject") {
        return Err(BadState);
      }
      if current.None? {
        return Err(NoCurrentStep);
      }
      if c.user !in approvers {
        return Err(NotAuthorized);
      }
      var stepAction := StepActionFor(w.catalog, w.steps[current.value].actions, code);
      if stepAction.None? {
        return Err(NoStepAction);
      }
      return Ok((action.value, stepAction.value));
    }

    /** The step action's next step, else the first escalation candidate on
        a step without conditions. */
    method ResolveNext(w: World, st: Step, sa: StepAction) returns (res: Result<Option<StepId>>)
      requires Closed(w) && StepLinksClosed(w.steps, st) && sa in st.actions
      modifies this
      ensures Followed(ManualNext(w, old(State()), st, sa), res, State())
    {
      if sa.nextStep.None? && st.conditions == [] && st.nextSteps != [] {
        res := FirstAcceptedCandidate(w, st.nextSteps);
      } else {
        res := Ok(sa.nextStep);
      }
    }

    /** The branch on the action code. */
    method Dispatch(w: World, c: Call, id: StepId, st: Step, action: ActionId, sa: StepAction, next: Option<StepId>) returns (err: Option<Error>)
      requires Closed(w) && (next.Some? ==> next.value in w.steps) && c.actionType.Some?
      modifies this
      ensures Reached(Engine.Dispatch(w, old(State()), c, id, st, action, sa, next), err, State())
    {
      var code := c.actionType.value;
      if code == "approve" {
        if st.committee {
          err := ApproveCommittee(w, c, id, st, action, next);
          return;
        }
        err := ApproveSingle(w, c, id, next);
        if err.Some? {
          return;
        }
      } else if code == "amend" {
        var initiator := FirstInitiator(w, flow);
        if initiator.None? {
          return Some(NoInitiator);
        }
        status, current := Pending, initiator;
        approvers := if requestedBy.Some? then {requestedBy.value} else {};
      } else if code == "reject" {
        status, rejectedDate, approvers := Rejected, Some(c.now), approvers - {c.user};
      } else if code == "to_employee" {
        if requestedFor.None? {
          return Some(NoRequestedFor);
        }
        if sa.nextStep.None? {
          return Some(NoToEmployeeNext);
        }
        status, current, approvers := Pending, sa.nextStep, {requestedFor.value};
      } else if code == "revert" {
        status, current := Pending, if next.Some? then next else Some(id);
      }
      history := history + [HistoryEntry(id, action, c.user, c.comment, c.now)];
      return None;
    }

    /** The body of `process_action`, without the rollback. */
    method Run(w: World, c: Call) returns (err: Option<Error>)
      requires Closed(w) && Placed(w, State())
      modifies this
      ensures Reached(Engine.ProcessAction(w, old(State()), c), err, State())
    {
      var auto := AutoProcessInitiatorStep(w, c);
      if auto.Err? {
        return Some(auto.error);
      }
      if auto.value {
        return None;
      }
      var found := CheckGuards(w, c);
      if found.Err? {
        return Some(found.error);
      }
      var (action, sa) := found.value;
      var id := current.value;
      var st := w.steps[id];
      assert StepLinksClosed(w.steps, st);
      var next := ResolveNext(w, st, sa);
      if next.Err? {
        return Some(next.error);
      }
      err := Dispatch(w, c, id, st, action, sa, next.value);
    }

    /** `process_action` in its transaction: on an error every write is
        rolled back. */
    method ProcessAction(w: World, c: Call) returns (err: Option<Error>)
      requires Closed(w) && Placed(w, State())
      modifies this
      ensures Reached(Engine.ProcessAction(w, old(State()), c), err, State())
      ensures err.Some? ==> State() == old(State())
      ensures Progress.Advances(w, old(State()), State())
    {
      var snapshot := State();
      err := Run(w, c);
      if err.Some? {
        Restore(snapshot);
      }
      Progress.ProcessActionAdvances(w, snapshot, c);
    }
  }
}
