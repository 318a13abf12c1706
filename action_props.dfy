/** Properties of `process_action`: the order of its refusals and the
    effect of each action once they pass. */
module ActionProps {
  import opened Base
  import opened OrgChart
  import opened Workflow
  import opened Engine
  import Progress

  predicate OnInitiator(w: World, r: Req)
    requires Placed(w, r)
  {
    r.current.Some? && w.steps[r.current.value].isInitiator
  }

  /** An action type is given and names a global action. */
  predicate KnownAction(w: World, c: Call)
  {
    c.actionType.Some? && c.actionType.value != "" && FindAction(w.catalog, c.actionType.value).Some?
  }

  /** Away from the initiator step, each refusal is raised exactly when the
      checks before it pass and its own fails; an approval or rejection is
      refused as to state only on an approved request, so a rejected request
      can still be approved. */
  lemma Refusals(w: World, r: Req, c: Call)
    requires Closed(w) && Placed(w, r) && !OnInitiator(w, r)
    ensures c.actionType.None? || c.actionType == Some("") ==> ProcessAction(w, r, c) == Err(NoActionType)
    ensures c.actionType.Some? && c.actionType.value != "" && FindAction(w.catalog, c.actionType.value).None? ==>
      ProcessAction(w, r, c) == Err(UnknownAction)
    ensures KnownAction(w, c) && r.status == Approved && c.actionType.value in ["approve", "reject"] ==>
      ProcessAction(w, r, c) == Err(BadState)
    ensures r.status != Approved ==> Guards(w, r, c) != Err(BadState)
    ensures KnownAction(w, c) && !(r.status == Approved && c.actionType.value in ["approve", "reject"]) ==>
      (r.current.None? ==> ProcessAction(w, r, c) == Err(NoCurrentStep)) &&
      (r.current.Some? && c.user !in r.approvers ==> ProcessAction(w, r, c) == Err(NotAuthorized)) &&
      (r.current.Some? && c.user in r.approvers &&
        StepActionFor(w.catalog, w.steps[r.current.value].actions, c.actionType.value).None? ==>
        ProcessAction(w, r, c) == Err(NoStepAction))
  {
  }

  /** The guards pass exactly when every check holds. */
  lemma GuardsPass(w: World, r: Req, c: Call)
    requires Closed(w) && Placed(w, r)
    ensures Guards(w, r, c).Ok? <==>
      KnownAction(w, c) && !(r.status == Approved && c.actionType.value in ["approve", "reject"]) &&
      r.current.Some? && c.user in r.approvers &&
      StepActionFor(w.catalog, w.steps[r.current.value].actions, c.actionType.value).Some?
    ensures Guards(w, r, c).Ok? ==>
      Some(Guards(w, r, c).value.0) == FindAction(w.catalog, c.actionType.value) &&
      CodeOf(w.catalog, Guards(w, r, c).value.1.action) == c.actionType
  {
  }

  /** The state the manual actions start from: the guards passed and the
      next step was resolved. */
  predicate Dispatched(w: World, r: Req, c: Call, action: ActionId, sa: StepAction, next: Option<StepId>, r1: Req)
    requires Closed(w) && Placed(w, r)
  {
    && !OnInitiator(w, r)
    && Guards(w, r, c) == Ok((action, sa))
    && StepLinksClosed(w.steps, w.steps[r.current.value])
    && ManualNext(w, r, w.steps[r.current.value], sa) == Ok((next, r1))
  }

  function EntryOf(r: Req, c: Call, action: ActionId): HistoryEntry
    requires r.current.Some?
  {
    HistoryEntry(r.current.value, action, c.user, c.comment, c.now)
  }

  /** The next step every manual action starts from: the step action's own
      next step when it has one; otherwise, on a step without conditions
      that has next steps, the first of them (lowest `sequence`) as
      `_check_org_chart` resolves it; otherwise none, the request unchanged. */
  lemma ManualNextOrder(w: World, r: Req, st: Step, sa: StepAction)
    requires Closed(w) && StepLinksClosed(w.steps, st) && sa in st.actions
    ensures sa.nextStep.Some? ==> ManualNext(w, r, st, sa) == Ok((sa.nextStep, r))
    ensures sa.nextStep.None? && st.conditions == [] && st.nextSteps != [] ==>
      ManualNext(w, r, st, sa) == CheckOrgChart(w, r, Some(st.nextSteps[0]))
    ensures sa.nextStep.None? && (st.conditions != [] || st.nextSteps == []) ==>
      ManualNext(w, r, st, sa) == Ok((None, r))
  {
  }

  /** Amend: back to pending at the flow's first initiator step, approved by
      the requester alone, with the completed steps kept and one history row;
      without an initiator step it raises. */
  lemma AmendEffect(w: World, r: Req, c: Call, action: ActionId, sa: StepAction, next: Option<StepId>, r1: Req)
    requires Closed(w) && Placed(w, r) && Dispatched(w, r, c, action, sa, next, r1)
    requires c.actionType == Some("amend")
    ensures FirstInitiator(w, r.flow).None? ==> ProcessAction(w, r, c) == Err(NoInitiator)
    ensures FirstInitiator(w, r.flow).Some? ==>
      ProcessAction(w, r, c) ==
        Ok(r1.(status := Pending, current := FirstInitiator(w, r.flow),
          approvers := if r.requestedBy.Some? then {r.requestedBy.value} else {},
          history := r.history + [EntryOf(r, c, action)]))
    ensures FirstInitiator(w, r.flow).Some? ==>
      var r2 := ProcessAction(w, r, c).value;
      && ProcessAction(w, r, c).Ok?
      && r2.status == Pending
      && r2.current == FirstInitiator(w, r.flow) && w.steps[r2.current.value].isInitiator
      && (r.requestedBy.Some? ==> r2.approvers == {r.requestedBy.value})
      && (r.requestedBy.None? ==> r2.approvers == {})
      && r2.completed == r.completed
      && r2.history == r.history + [EntryOf(r, c, action)]
      && r2.approvedDate == r.approvedDate && r2.rejectedDate == r.rejectedDate
  {
  }

  /** Reject: the request is rejected and dated, only the acting user leaves
      the approvers the next-step resolution left, and nothing else but one
      history row changes. */
  lemma RejectEffect(w: World, r: Req, c: Call, action: ActionId, sa: StepAction, next: Option<StepId>, r1: Req)
    requires Closed(w) && Placed(w, r) && Dispatched(w, r, c, action, sa, next, r1)
    requires c.actionType == Some("reject")
    ensures ProcessAction(w, r, c) ==
      Ok(r1.(status := Rejected, rejectedDate := Some(c.now), approvers := r1.approvers - {c.user},
        history := r.history + [EntryOf(r, c, action)]))
    ensures ProcessAction(w, r, c).Ok?
    ensures var r2 := ProcessAction(w, r, c).value;
      && r2.status == Rejected && r2.rejectedDate == Some(c.now)
      && r2.approvers == r1.approvers - {c.user} && c.user !in r2.approvers
      && (sa.nextStep.Some? ==> r2.approvers == r.approvers - {c.user})
      && r2.current == r.current && r2.completed == r.completed
      && r2.history == r.history + [EntryOf(r, c, action)]
  {
  }

  /** Revert: pending again, at the resolved next step or else the same
      step; the approvers the resolution left and both dates are kept. */
  lemma RevertEffect(w: World, r: Req, c: Call, action: ActionId, sa: StepAction, next: Option<StepId>, r1: Req)
    requires Closed(w) && Placed(w, r) && Dispatched(w, r, c, action, sa, next, r1)
    requires c.actionType == Some("revert")
    ensures ProcessAction(w, r, c) ==
      Ok(r1.(status := Pending, current := if next.Some? then next else r.current,
        history := r.history + [EntryOf(r, c, action)]))
    ensures ProcessAction(w, r, c).Ok?
    ensures var r2 := ProcessAction(w, r, c).value;
      && r2.status == Pending
      && r2.current == (if next.Some? then next else r.current)
      && r2.completed == r.completed
      && r2.history == r.history + [EntryOf(r, c, action)]
  {
  }

  /** Any other action only records a history row (and whatever approvers
      the next-step resolution assigned). */
  lemma OtherActionOnlyLogs(w: World, r: Req, c: Call, action: ActionId, sa: StepAction, next: Option<StepId>, r1: Req)
    requires Closed(w) && Placed(w, r) && Dispatched(w, r, c, action, sa, next, r1)
    requires c.actionType.value !in ["approve", "amend", "reject", "to_employee", "revert"]
    ensures ProcessAction(w, r, c) == Ok(r1.(history := r.history + [EntryOf(r, c, action)]))
    ensures sa.nextStep.Some? ==> ProcessAction(w, r, c) == Ok(r.(history := r.history + [EntryOf(r, c, action)]))
  {
  }

  /** Send to employee (as intended): pending at the action's next step,
      approved by the requested-for user alone. */
  lemma ToEmployeeEffect(w: World, r: Req, c: Call, action: ActionId, sa: StepAction, next: Option<StepId>, r1: Req)
    requires Closed(w) && Placed(w, r) && Dispatched(w, r, c, action, sa, next, r1)
    requires c.actionType == Some("to_employee")
    ensures r.requestedFor.None? ==> ProcessAction(w, r, c) == Err(NoRequestedFor)
    ensures r.requestedFor.Some? && sa.nextStep.None? ==> ProcessAction(w, r, c) == Err(NoToEmployeeNext)
    ensures r.requestedFor.Some? && sa.nextStep.Some? ==>
      ProcessAction(w, r, c) ==
        Ok(r.(status := Pending, current := sa.nextStep, approvers := {r.requestedFor.value},
          history := r.history + [EntryOf(r, c, action)]))
    ensures r.requestedFor.Some? && sa.nextStep.Some? ==>
      var r2 := ProcessAction(w, r, c).value;
      && ProcessAction(w, r, c).Ok?
      && r2.status == Pending && r2.current == sa.nextStep
      && r2.approvers == {r.requestedFor.value}
      && r2.completed == r.completed
      && r2.history == r.history + [EntryOf(r, c, action)]
  {
  }

  /** Send to employee as written raises on every request, while the
      intended version succeeds whenever a requested-for user and a next
      step exist. */
  lemma ToEmployeeAsWrittenDiffers(r: Req, sa: StepAction)
    ensures ToEmployeeAsWritten(r).Err?
    ensures r.requestedFor.Some? && sa.nextStep.Some? ==>
      ToEmployeeAsWritten(r) == Err(StepActionHasNoName) && ToEmployee(r, sa).Ok?
  {
  }

  /** Single approval: the step is completed before routing; a final next
      step approves the request (the current step stays where it was), an
      employee next step goes to the requested-for user. */
  lemma ApproveSingleEffect(w: World, r: Req, c: Call, action: ActionId, sa: StepAction, next: Option<StepId>, r1: Req)
    requires Closed(w) && Placed(w, r) && Dispatched(w, r, c, action, sa, next, r1)
    requires c.actionType == Some("approve") && !w.steps[r.current.value].committee
    requires r.createUid !in w.dir.employeeOfUser
    ensures next.Some? && w.steps[next.value].isFinal ==>
      ProcessAction(w, r, c) == Ok(Complete(r1, r.current.value).(status := Approved, approvedDate := Some(c.now), approvers := {},
        history := r.history + [EntryOf(r, c, action)]))
    ensures next.Some? && !w.steps[next.value].isFinal && w.steps[next.value].isEmployeeStep && r.requestedFor.Some? ==>
      ProcessAction(w, r, c) == Ok(Complete(r1, r.current.value).(status := Pending, current := next,
        approvers := {r.requestedFor.value}, history := r.history + [EntryOf(r, c, action)]))
    ensures next.Some? && !w.steps[next.value].isFinal && w.steps[next.value].isEmployeeStep && r.requestedFor.None? ==>
      ProcessAction(w, r, c) == Err(NoRequestedFor)
    ensures next.None? ==>
      ProcessAction(w, r, c) == Ok(Complete(r1, r.current.value).(history := r.history + [EntryOf(r, c, action)]))
  {
  }

  lemma ApproveSingleCompletes(w: World, r: Req, c: Call, action: ActionId, sa: StepAction, next: Option<StepId>, r1: Req)
    requires Closed(w) && Placed(w, r) && Dispatched(w, r, c, action, sa, next, r1)
    requires c.actionType == Some("approve") && !w.steps[r.current.value].committee
    ensures ProcessAction(w, r, c).Ok? ==>
      var r2 := ProcessAction(w, r, c).value;
      r.current.value in r2.completed && |r2.history| >= |r.history| + 1 &&
      r2.history[|r2.history| - 1] == EntryOf(r, c, action)
  {
    var id := r.current.value;
    var checked := CheckOrgChart(w, Complete(r1, id), next);
    if checked.Ok? {
      Progress.RouteApprovedAdvances(w, checked.value.1, c, checked.value.0);
    }
  }

  lemma VotesForAppend(h: seq<HistoryEntry>, e: HistoryEntry, step: StepId, action: ActionId)
    ensures VotesFor(h + [e], step, action) ==
      VotesFor(h, step, action) + (if e.step == step && e.action == action then 1 else 0)
  {
    assert (h + [e])[..|h|] == h;
  }

  /** Committee approval: an empty committee raises; otherwise the vote is
      recorded as one history row that adds one to the step's count and the
      voter leaves the approvers.  Below the threshold nothing else changes;
      at the threshold the step is completed and routed. */
  lemma CommitteeVote(w: World, r: Req, c: Call, action: ActionId, sa: StepAction, next: Option<StepId>, r1: Req)
    requires Closed(w) && Placed(w, r) && Dispatched(w, r, c, action, sa, next, r1)
    requires c.actionType == Some("approve") && w.steps[r.current.value].committee
    ensures var st := w.steps[r.current.value];
      |RoleUsers(w.dir, st.role)| == 0 ==> ProcessAction(w, r, c) == Err(EmptyCommittee)
    ensures var st := w.steps[r.current.value];
      var members := |RoleUsers(w.dir, st.role)|;
      members > 0 && VotesFor(r.history, r.current.value, action) + 1 < RequiredVotes(st.percent, members) ==>
      ProcessAction(w, r, c) == Ok(r1.(history := r.history + [EntryOf(r, c, action)], approvers := r1.approvers - {c.user}))
    ensures var st := w.steps[r.current.value];
      var members := |RoleUsers(w.dir, st.role)|;
      (members > 0 && VotesFor(r.history, r.current.value, action) + 1 >= RequiredVotes(st.percent, members) &&
       ProcessAction(w, r, c).Ok?) ==> r.current.value in ProcessAction(w, r, c).value.completed
    ensures ProcessAction(w, r, c).Ok? ==>
      var h := ProcessAction(w, r, c).value.history;
      |h| > |r.history| && h[..|r.history| + 1] == r.history + [EntryOf(r, c, action)] &&
      VotesFor(h[..|r.history| + 1], r.current.value, action) == VotesFor(r.history, r.current.value, action) + 1
  {
    var id := r.current.value;
    var st := w.steps[id];
    var members := |RoleUsers(w.dir, st.role)|;
    var e := EntryOf(r, c, action);
    VotesForAppend(r.history, e, id, action);
    if members > 0 {
      var voted := Log(r1, e).(approvers := r1.approvers - {c.user});
      Progress.RouteApprovedAdvances(w, Complete(voted, id), c, next);
      if ProcessAction(w, r, c).Ok? {
        var h := ProcessAction(w, r, c).value.history;
        assert voted.history <= h;
        assert h[..|r.history| + 1] == voted.history;
      }
    }
  }

  /** Routing after an approval to a final step approves the request and
      leaves nobody to approve; the current step stays where it was. */
  lemma RouteApprovedFinal(w: World, r: Req, c: Call, next: StepId)
    requires Closed(w) && next in w.steps && w.steps[next].isFinal
    ensures RouteApproved(w, r, c, Some(next)) == Ok(r.(status := Approved, approvedDate := Some(c.now), approvers := {}))
  {
  }

  /** Routing after an approval to an employee step that is not final hands
      the request to the requested-for user alone, and raises without one. */
  lemma RouteApprovedEmployee(w: World, r: Req, c: Call, next: StepId)
    requires Closed(w) && next in w.steps && !w.steps[next].isFinal && w.steps[next].isEmployeeStep
    ensures RouteApproved(w, r, c, Some(next)) ==
      if r.requestedFor.None? then Err(NoRequestedFor)
      else Ok(r.(status := Pending, current := Some(next), approvers := {r.requestedFor.value}))
  {
  }

  /** A single approval whose next step `_check_org_chart` resolves to a
      final step approves the request with no approvers left, whatever the
      resolution assigned on the way. */
  lemma ApproveSingleToFinal(w: World, r: Req, c: Call, action: ActionId, sa: StepAction, next: Option<StepId>, r1: Req,
                             f: StepId, r2: Req)
    requires Closed(w) && Placed(w, r) && Dispatched(w, r, c, action, sa, next, r1)
    requires c.actionType == Some("approve") && !w.steps[r.current.value].committee
    requires CheckOrgChart(w, Complete(r1, r.current.value), next) == Ok((Some(f), r2))
    requires f in w.steps && w.steps[f].isFinal
    ensures ProcessAction(w, r, c) ==
      Ok(Complete(r1, r.current.value).(status := Approved, approvedDate := Some(c.now), approvers := {},
        history := r.history + [EntryOf(r, c, action)]))
  {
    RouteApprovedFinal(w, r2, c, f);
  }

  /** The vote that reaches the committee threshold, with a final next step,
      completes the step and approves the request with no approvers left. */
  lemma CommitteeThresholdToFinal(w: World, r: Req, c: Call, action: ActionId, sa: StepAction, next: Option<StepId>, r1: Req)
    requires Closed(w) && Placed(w, r) && Dispatched(w, r, c, action, sa, next, r1)
    requires c.actionType == Some("approve") && w.steps[r.current.value].committee
    requires |RoleUsers(w.dir, w.steps[r.current.value].role)| > 0
    requires VotesFor(r.history, r.current.value, action) + 1 >=
      RequiredVotes(w.steps[r.current.value].percent, |RoleUsers(w.dir, w.steps[r.current.value].role)|)
    requires next.Some? && w.steps[next.value].isFinal
    ensures ProcessAction(w, r, c) ==
      Ok(Complete(r1, r.current.value).(status := Approved, approvedDate := Some(c.now), approvers := {},
        history := r.history + [EntryOf(r, c, action)]))
  {
    var id := r.current.value;
    var voted := Log(r1, EntryOf(r, c, action)).(approvers := r1.approvers - {c.user});
    RouteApprovedFinal(w, Complete(voted, id), c, next.value);
  }

  /** A single approval whose next step `_check_org_chart` resolves to an
      employee step that is not final hands the request to the requested-for
      user, for any creator, and raises without one. */
  lemma ApproveSingleToEmployee(w: World, r: Req, c: Call, action: ActionId, sa: StepAction, next: Option<StepId>, r1: Req,
                                n: StepId, r2: Req)
    requires Closed(w) && Placed(w, r) && Dispatched(w, r, c, action, sa, next, r1)
    requires c.actionType == Some("approve") && !w.steps[r.current.value].committee
    requires CheckOrgChart(w, Complete(r1, r.current.value), next) == Ok((Some(n), r2))
    requires n in w.steps && !w.steps[n].isFinal && w.steps[n].isEmployeeStep
    ensures r.requestedFor.None? ==> ProcessAction(w, r, c) == Err(NoRequestedFor)
    ensures r.requestedFor.Some? ==>
      ProcessAction(w, r, c) ==
        Ok(Complete(r1, r.current.value).(status := Pending, current := Some(n), approvers := {r.requestedFor.value},
          history := r.history + [EntryOf(r, c, action)]))
  {
    RouteApprovedEmployee(w, r2, c, n);
  }

  /** The vote that reaches the committee threshold completes the step and
      routes it: an employee next step goes to the requested-for user (or
      raises without one), an ordinary next step becomes current and the
      condition chain after it is followed, and without a next step nothing
      but the vote and the completion changes. */
  lemma CommitteeThresholdRoutes(w: World, r: Req, c: Call, action: ActionId, sa: StepAction, next: Option<StepId>, r1: Req)
    requires Closed(w) && Placed(w, r) && Dispatched(w, r, c, action, sa, next, r1)
    requires c.actionType == Some("approve") && w.steps[r.current.value].committee
    requires |RoleUsers(w.dir, w.steps[r.current.value].role)| > 0
    requires VotesFor(r.history, r.current.value, action) + 1 >=
      RequiredVotes(w.steps[r.current.value].percent, |RoleUsers(w.dir, w.steps[r.current.value].role)|)
    ensures next.Some? && !w.steps[next.value].isFinal && w.steps[next.value].isEmployeeStep ==>
      ProcessAction(w, r, c) ==
        if r.requestedFor.None? then Err(NoRequestedFor)
        else Ok(Complete(r1, r.current.value).(status := Pending, current := next, approvers := {r.requestedFor.value},
          history := r.history + [EntryOf(r, c, action)]))
    ensures next.Some? && !w.steps[next.value].isFinal && !w.steps[next.value].isEmployeeStep ==>
      ProcessAction(w, r, c) ==
        AutoConditions(w, Complete(r1, r.current.value).(current := next, approvers := r1.approvers - {c.user},
          history := r.history + [EntryOf(r, c, action)]), c, next.value, {})
    ensures next.None? ==>
      ProcessAction(w, r, c) ==
        Ok(Complete(r1, r.current.value).(approvers := r1.approvers - {c.user}, history := r.history + [EntryOf(r, c, action)]))
  {
    if next.Some? && !w.steps[next.value].isFinal && w.steps[next.value].isEmployeeStep {
      var voted := Log(r1, EntryOf(r, c, action)).(approvers := r1.approvers - {c.user});
      RouteApprovedEmployee(w, Complete(voted, r.current.value), c, next.value);
    }
  }

  /** The threshold: Python's `round` of the share of the role's members,
      at least one. */
  lemma RequiredVotesExamples()
    ensures RequiredVotes(60.0, 3) == 2
    ensures RequiredVotes(50.0, 4) == 2
    ensures RequiredVotes(50.0, 3) == 2
    ensures RequiredVotes(50.0, 5) == 2
    ensures RequiredVotes(50.0, 1) == 1
    ensures RequiredVotes(100.0, 4) == 4
    ensures RequiredVotes(0.0, 4) == 1
  {
  }

  /** With a percentage between 0 and 100 the threshold never exceeds the
      committee, so it can always be reached. */
  lemma RequiredVotesReachable(percent: real, members: nat)
    requires 0.0 <= percent <= 100.0 && members >= 1
    ensures 1 <= RequiredVotes(percent, members) <= members
  {
    var x := percent / 100.0 * members as real;
    assert x <= members as real by {
      assert percent / 100.0 <= 1.0;
    }
  }

  /** On a committee step that satisfies the step constraints, the threshold
      can always be met: it lies between one and the committee size. */
  lemma CommitteeThresholdReachable(st: Step, members: nat)
    requires ValidStep(st) && st.committee && members >= 1
    ensures 1 <= RequiredVotes(st.percent, members) <= members
  {
    ValidStepShape(st);
    RequiredVotesReachable(st.percent, members);
  }
}
