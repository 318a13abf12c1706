/** Properties of approver resolution (`_check_org_chart`). */
module RouteProps {
  import opened Base
  import opened OrgChart
  import opened Delegation
  import opened Workflow
  import opened Engine

  /** A creator without an employee record: the step comes back unchanged and
      no approver is touched, whatever the step. */
  lemma NoEmployeeKeepsStep(w: World, r: Req, step: Option<StepId>)
    requires Closed(w) && (step.Some? ==> step.value in w.steps)
    requires r.createUid !in w.dir.employeeOfUser
    ensures CheckOrgChart(w, r, step) == Ok((step, r))
  {
  }

  /** Organization steps never raise the missing-delegation error: the
      delegated set always contains the matched users. */
  lemma {:induction false} RouteNeverMissesDelegation(w: World, r: Req, emp: EmployeeId, hu: set<UserId>, order: seq<StepId>, i: nat)
    requires i < |order| && forall k :: 0 <= k < |order| ==> order[k] in w.steps
    ensures RouteFrom(w, r, emp, hu, order, i) != Err(MissingDelegation)
    decreases |order| - i
  {
    var st := w.steps[order[i]];
    if st.isOrganization {
      var matched := RoleUsers(w.dir, st.role) * hu;
      if matched == {} {
        var n := NextOrganization(w, order, i + 1);
        if n.Some? {
          RouteNeverMissesDelegation(w, r, emp, hu, order, n.value);
        }
      } else {
        assert matched <= GetDelegate(matched, w.delegations, w.today);
      }
    }
  }

  /** Starting from an organization step, the step chosen is an organization
      step at the same or a later position whose role has a holder in the
      hierarchy, and its approvers are those holders with their delegates;
      every organization step skipped on the way had no such holder. */
  lemma {:induction false} OrganizationRoute(w: World, r: Req, emp: EmployeeId, hu: set<UserId>, order: seq<StepId>, i: nat)
    requires i < |order| && forall k :: 0 <= k < |order| ==> order[k] in w.steps
    requires w.steps[order[i]].isOrganization
    ensures RouteFrom(w, r, emp, hu, order, i).Ok? ==>
      var (s, users) := RouteFrom(w, r, emp, hu, order, i).value;
      exists j :: i <= j < |order| && order[j] == s &&
        w.steps[s].isOrganization &&
        RoleUsers(w.dir, w.steps[s].role) * hu != {} &&
        users == GetDelegate(RoleUsers(w.dir, w.steps[s].role) * hu, w.delegations, w.today) &&
        forall k :: i <= k < j && w.steps[order[k]].isOrganization ==> RoleUsers(w.dir, w.steps[order[k]].role) * hu == {}
    decreases |order| - i
  {
    var st := w.steps[order[i]];
    var matched := RoleUsers(w.dir, st.role) * hu;
    if matched == {} {
      var n := NextOrganization(w, order, i + 1);
      if n.Some? {
        OrganizationRoute(w, r, emp, hu, order, n.value);
      }
    }
  }

  /** An organization step with no holder in the hierarchy and no later
      organization step raises. */
  lemma EscalationWithoutLaterOrganizationRaises(w: World, r: Req, emp: EmployeeId, hu: set<UserId>, order: seq<StepId>, i: nat)
    requires i < |order| && forall k :: 0 <= k < |order| ==> order[k] in w.steps
    requires w.steps[order[i]].isOrganization
    requires RoleUsers(w.dir, w.steps[order[i]].role) * hu == {}
    requires forall k :: i < k < |order| ==> !w.steps[order[k]].isOrganization
    ensures RouteFrom(w, r, emp, hu, order, i) == Err(NoOrgApprover)
  {
    assert NextOrganization(w, order, i + 1).None?;
  }

  /** An employee step goes to the requested-for user, and raises without one. */
  lemma EmployeeStepRoute(w: World, r: Req, emp: EmployeeId, hu: set<UserId>, order: seq<StepId>, i: nat)
    requires i < |order| && forall k :: 0 <= k < |order| ==> order[k] in w.steps
    requires !w.steps[order[i]].isOrganization && w.steps[order[i]].isEmployeeStep
    ensures r.requestedFor.None? ==> RouteFrom(w, r, emp, hu, order, i) == Err(NoRequestedFor)
    ensures r.requestedFor.Some? ==> RouteFrom(w, r, emp, hu, order, i) == Ok((order[i], {r.requestedFor.value}))
  {
  }

  /** A static step is assigned the branch-filtered role members with their
      delegates; an empty result raises unless the step is final or a
      condition step. */
  lemma StaticStepRoute(w: World, r: Req, emp: EmployeeId, hu: set<UserId>, order: seq<StepId>, i: nat)
    requires i < |order| && forall k :: 0 <= k < |order| ==> order[k] in w.steps
    requires !w.steps[order[i]].isOrganization && !w.steps[order[i]].isEmployeeStep
    ensures var st := w.steps[order[i]];
      var delegated := GetDelegate(StaticMatches(w, r, emp, st), w.delegations, w.today);
      RouteFrom(w, r, emp, hu, order, i) ==
        if delegated == {} && !st.isFinal && !st.isCondition then Err(NoStaticApprover)
        else Ok((order[i], delegated))
  {
  }

  /** The branch filter: a cross-branch step takes the role members on the
      request's branch; another step those on the creator's branch, or, when
      there are none and a fallback branch is set, those on the fallback
      branch.  Every member picked holds the role. */
  lemma StaticMatchesMembership(w: World, r: Req, emp: EmployeeId, st: Step, u: UserId)
    ensures u in StaticMatches(w, r, emp, st) ==> u in RoleUsers(w.dir, st.role)
    ensures st.crossBranch ==>
      (u in StaticMatches(w, r, emp, st) <==> u in RoleUsers(w.dir, st.role) && Get(w.dir.userBranch, u) == r.branch)
    ensures !st.crossBranch && OnBranch(w, RoleUsers(w.dir, st.role), Get(w.dir.employeeBranch, emp)) != {} ==>
      (u in StaticMatches(w, r, emp, st) <==> u in RoleUsers(w.dir, st.role) && Get(w.dir.userBranch, u) == Get(w.dir.employeeBranch, emp))
    ensures !st.crossBranch && OnBranch(w, RoleUsers(w.dir, st.role), Get(w.dir.employeeBranch, emp)) == {} && st.fallbackBranch.Some? ==>
      (u in StaticMatches(w, r, emp, st) <==> u in RoleUsers(w.dir, st.role) && Get(w.dir.userBranch, u) == st.fallbackBranch)
  {
  }

  /** Since a closed world lists a flow's steps in `sequence` order and the
      sort is stable, `_check_org_chart` walks the flow's own list. */
  lemma FlowOrderIsFlowSteps(w: World, id: StepId)
    requires Closed(w) && id in w.steps && w.steps[id].flow in w.flows
    ensures FlowOrder(w, id) == w.flows[w.steps[id].flow].steps
  {
    assert FlowClosed(w.steps, w.flows[w.steps[id].flow]);
    OrderBySequenceOfSorted(w.steps, w.flows[w.steps[id].flow].steps);
  }

  /** With an employee record, a step that is not in its own flow's steps
      raises.  Odoo cannot produce such a step (`flow_id` is required and
      `step_ids` is its inverse); the model keeps the raise for the worlds
      where it is reachable. */
  lemma StepOutsideFlowRaises(w: World, r: Req, step: StepId)
    requires Closed(w) && step in w.steps
    requires r.createUid in w.dir.employeeOfUser
    requires step !in FlowOrder(w, step)
    ensures CheckOrgChart(w, r, Some(step)) == Err(StepNotInFlow)
  {
  }

  /** Resolving a routed step changes only the approvers, and the step it
      resolves to is the given step or a later organization step of the same
      flow. */
  lemma CheckOrgChartStaysInFlow(w: World, r: Req, step: StepId)
    requires Closed(w) && step in w.steps
    requires r.createUid in w.dir.employeeOfUser
    ensures CheckOrgChart(w, r, Some(step)).Ok? ==>
      var res := CheckOrgChart(w, r, Some(step)).value;
      res.1 == r.(approvers := res.1.approvers)
    ensures CheckOrgChart(w, r, Some(step)).Ok? ==>
      var s := CheckOrgChart(w, r, Some(step)).value.0.value;
      var order := FlowOrder(w, step);
      && IndexOf(order, step).Some?
      && exists j :: IndexOf(order, step).value <= j < |order| && order[j] == s && (s != step ==> w.steps[s].isOrganization)
  {
    var order := FlowOrder(w, step);
    var idx := IndexOf(order, step);
    if idx.Some? {
      var emp := Get(w.dir.employeeOfUser, r.createUid).value;
      var users := HierarchyUsers(Hierarchy(w.dir, Get(w.dir.employeeJob, emp)));
      RouteFromInOrder(w, r, emp, users, order, idx.value);
    }
  }
}
