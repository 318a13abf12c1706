/** What every successful operation preserves: the request's own fields,
    the completed steps and the history (which only grow), a current step
    that names a step, and an empty approver set once the request becomes
    approved. */
module Progress {
  import opened Base
  import opened OrgChart
  import opened Workflow
  import opened Engine

  predicate SameRequest(a: Req, b: Req)
  {
    && a.flow == b.flow && a.resModel == b.resModel && a.resId == b.resId
    && a.createUid == b.createUid && a.requestedBy == b.requestedBy
    && a.requestedFor == b.requestedFor && a.branch == b.branch
  }

  predicate Advances(w: World, a: Req, b: Req)
  {
    && SameRequest(a, b)
    && a.completed <= b.completed
    && a.history <= b.history
    && (Placed(w, a) ==> Placed(w, b))
    && (a.status != Approved && b.status == Approved ==> b.approvers == {})
  }

  lemma CheckOrgChartAdvances(w: World, r: Req, step: Option<StepId>)
    requires Closed(w) && (step.Some? ==> step.value in w.steps)
    ensures CheckOrgChart(w, r, step).Ok? ==> Advances(w, r, CheckOrgChart(w, r, step).value.1)
  {
  }

  lemma {:induction false} AutoConditionsAdvances(w: World, r: Req, c: Call, step: StepId, visited: set<StepId>)
    requires Closed(w) && step in w.steps
    ensures AutoConditions(w, r, c, step, visited).Ok? ==>
      Advances(w, r, AutoConditions(w, r, c, step, visited).value) &&
      Placed(w, AutoConditions(w, r, c, step, visited).value)
    decreases w.steps.Keys - visited
  {
    var st := w.steps[step];
    if st.isCondition && step !in visited {
      var m := FirstMatch(w, r, st.conditions);
      var action := FindAction(w.catalog, "auto_condition");
      if m.Ok? && m.value.Some? && action.Some? {
        var next := m.value.value;
        assert next in w.steps by {
          var i :| 0 <= i < |st.conditions| && st.conditions[i].nextStep == next;
          assert StepLinksClosed(w.steps, st);
        }
        var r1 := Log(Complete(r, step), HistoryEntry(step, action.value, c.user, AutoConditionComment, c.now));
        var ns := w.steps[next];
        if !ns.isFinal && !(ns.isEmployeeStep && r.requestedFor.None?) {
          var r2 := if ns.isEmployeeStep then r1.(status := Pending, approvers := {r.requestedFor.value}) else r1;
          var r3 := r2.(current := Some(next));
          AutoConditionsAdvances(w, r3, c, next, visited + {step});
          assert Advances(w, r, r3);
        }
      }
    }
  }

  lemma RouteApprovedAdvances(w: World, r: Req, c: Call, next: Option<StepId>)
    requires Closed(w) && (next.Some? ==> next.value in w.steps)
    ensures RouteApproved(w, r, c, next).Ok? ==> Advances(w, r, RouteApproved(w, r, c, next).value)
  {
    if next.Some? && !w.steps[next.value].isFinal && !w.steps[next.value].isEmployeeStep {
      AutoConditionsAdvances(w, r.(current := next), c, next.value, {});
    }
  }

  lemma AutoInitiatorAdvances(w: World, r: Req, c: Call)
    requires Closed(w) && Placed(w, r)
    ensures AutoInitiator(w, r, c).Ok? ==> Advances(w, r, AutoInitiator(w, r, c).value.1)
  {
    if r.current.Some? && w.steps[r.current.value].isInitiator {
      var id := r.current.value;
      var st := w.steps[id];
      var choice := InitiatorChoice(w, r, st);
      if choice.Ok? && choice.value.0.Some? {
        var checked := CheckOrgChart(w, choice.value.1, choice.value.0);
        var action := FindAction(w.catalog, "auto_initiate");
        if checked.Ok? && action.Some? {
          var next := checked.value.0.value;
          var r1 := Log(Complete(checked.value.1, id), HistoryEntry(id, action.value, c.user, AutoInitiateComment, c.now));
          if !w.steps[next].isFinal && !w.steps[next].isEmployeeStep {
            AutoConditionsAdvances(w, r1.(current := Some(next)), c, next, {});
          }
        }
      }
    }
  }

  /** The branch on the action code, from the request after the next step
      was resolved. */
  lemma DispatchAdvances(w: World, r: Req, c: Call, id: StepId, st: Step, action: ActionId, sa: StepAction, next: Option<StepId>)
    requires Closed(w) && (next.Some? ==> next.value in w.steps) && c.actionType.Some?
    requires id in w.steps && st == w.steps[id] && sa in st.actions
    ensures Dispatch(w, r, c, id, st, action, sa, next).Ok? ==> Advances(w, r, Dispatch(w, r, c, id, st, action, sa, next).value)
  {
    var code := c.actionType.value;
    assert StepLinksClosed(w.steps, st);
    if code == "approve" && st.committee {
      var members := |RoleUsers(w.dir, st.role)|;
      if members > 0 {
        var voted := Log(r, HistoryEntry(id, action, c.user, c.comment, c.now)).(approvers := r.approvers - {c.user});
        RouteApprovedAdvances(w, Complete(voted, id), c, next);
      }
    } else if code == "approve" {
      var checked := CheckOrgChart(w, Complete(r, id), next);
      if checked.Ok? {
        RouteApprovedAdvances(w, checked.value.1, c, checked.value.0);
      }
    } else if code == "to_employee" {
      var i :| 0 <= i < |st.actions| && st.actions[i] == sa;
    }
  }

  lemma ManualAdvances(w: World, r: Req, c: Call)
    requires Closed(w) && Placed(w, r)
    ensures Manual(w, r, c).Ok? ==> Advances(w, r, Manual(w, r, c).value)
  {
    var g := Guards(w, r, c);
    if g.Ok? {
      var (action, sa) := g.value;
      var id := r.current.value;
      var st := w.steps[id];
      assert StepLinksClosed(w.steps, st);
      var resolved := ManualNext(w, r, st, sa);
      if resolved.Ok? {
        var (next, r1) := resolved.value;
        DispatchAdvances(w, r1, c, id, st, action, sa, next);
      }
    }
  }

  /** `process_action` as a whole: a successful call only adds completed
      steps and history rows, keeps the current step a step of the world,
      and leaves nobody to approve once it approves the request. */
  lemma ProcessActionAdvances(w: World, r: Req, c: Call)
    requires Closed(w) && Placed(w, r)
    ensures ProcessAction(w, r, c).Ok? ==> Advances(w, r, ProcessAction(w, r, c).value)
  {
    AutoInitiatorAdvances(w, r, c);
    ManualAdvances(w, r, c);
  }
}
