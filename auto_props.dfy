/** Properties of the automatic advances: through condition steps
    (`auto_process_condition_steps`) and from the initiator step
    (`auto_process_initiator_step`). */
module AutoProps {
  import opened Base
  import opened Conditions
  import opened Workflow
  import opened Engine
  import ActionProps

  /** Reaching a condition step a second time raises the loop error. */
  lemma RevisitRaises(w: World, r: Req, c: Call, step: StepId, visited: set<StepId>)
    requires Closed(w) && step in w.steps && w.steps[step].isCondition && step in visited
    ensures AutoConditions(w, r, c, step, visited) == Err(WorkflowLoop(step))
  {
  }

  /** A condition step none of whose conditions holds raises. */
  lemma NoMatchRaises(w: World, r: Req, c: Call, step: StepId, visited: set<StepId>)
    requires Closed(w) && step in w.steps && w.steps[step].isCondition && step !in visited
    requires forall i :: 0 <= i < |w.steps[step].conditions| ==>
      Evaluate(w.store, w.steps[step].conditions[i], SubjectOf(w, r)) == Ok(false)
    ensures AutoConditions(w, r, c, step, visited) == Err(NoMatchingCondition(step))
  {
  }

  /** Without the global `auto_condition` action a matched condition step raises. */
  lemma MissingAutoConditionRaises(w: World, r: Req, c: Call, step: StepId, visited: set<StepId>)
    requires Closed(w) && step in w.steps && w.steps[step].isCondition && step !in visited
    requires FirstMatch(w, r, w.steps[step].conditions).Ok? && FirstMatch(w, r, w.steps[step].conditions).value.Some?
    requires FindAction(w.catalog, "auto_condition").None?
    ensures AutoConditions(w, r, c, step, visited) == Err(MissingGlobalAction("auto_condition"))
  {
  }

  /** The first condition that holds decides; when its step is final the
      request is approved there, both steps completed, one history row
      recorded and nobody left to approve. */
  lemma ConditionToFinalApproves(w: World, r: Req, c: Call, step: StepId, visited: set<StepId>, i: nat, action: ActionId)
    requires Closed(w) && step in w.steps && w.steps[step].isCondition && step !in visited
    requires i < |w.steps[step].conditions|
    requires Evaluate(w.store, w.steps[step].conditions[i], SubjectOf(w, r)) == Ok(true)
    requires forall j :: 0 <= j < i ==> Evaluate(w.store, w.steps[step].conditions[j], SubjectOf(w, r)) == Ok(false)
    requires w.steps[step].conditions[i].nextStep in w.steps && w.steps[w.steps[step].conditions[i].nextStep].isFinal
    requires FindAction(w.catalog, "auto_condition") == Some(action)
    ensures var next := w.steps[step].conditions[i].nextStep;
      AutoConditions(w, r, c, step, visited) == Ok(r.(
        status := Approved, approvedDate := Some(c.now), current := Some(next), approvers := {},
        completed := r.completed + {step, next},
        history := r.history + [HistoryEntry(step, action, c.user, AutoConditionComment, c.now)]))
  {
    var next := w.steps[step].conditions[i].nextStep;
    FirstAtIndex(w, r, w.steps[step].conditions, i);
    FinalUnfold(w, r, c, step, visited, next, action);
    assert r.completed + {step} + {next} == r.completed + {step, next};
  }

  lemma FinalUnfold(w: World, r: Req, c: Call, step: StepId, visited: set<StepId>, next: StepId, action: ActionId)
    requires Closed(w) && step in w.steps && w.steps[step].isCondition && step !in visited
    requires FirstMatch(w, r, w.steps[step].conditions) == Ok(Some(next))
    requires next in w.steps && w.steps[next].isFinal
    requires FindAction(w.catalog, "auto_condition") == Some(action)
    ensures AutoConditions(w, r, c, step, visited) ==
      Ok(Complete(Log(Complete(r, step), HistoryEntry(step, action, c.user, AutoConditionComment, c.now)), next).(
        status := Approved, approvedDate := Some(c.now), current := Some(next), approvers := {}))
  {
  }

  /** `FirstMatch` returns the next step of the condition at `i` when it is
      the first to hold. */
  lemma {:induction false} FirstAtIndex(w: World, r: Req, conds: seq<Condition>, i: nat)
    requires i < |conds|
    requires Evaluate(w.store, conds[i], SubjectOf(w, r)) == Ok(true)
    requires forall j :: 0 <= j < i ==> Evaluate(w.store, conds[j], SubjectOf(w, r)) == Ok(false)
    ensures FirstMatch(w, r, conds) == Ok(Some(conds[i].nextStep))
  {
    if i > 0 {
      assert Evaluate(w.store, conds[0], SubjectOf(w, r)) == Ok(false);
      assert forall j :: 0 <= j < i - 1 ==> conds[1..][j] == conds[j + 1];
      FirstAtIndex(w, r, conds[1..], i - 1);
    }
  }

  /** A condition step whose matching condition leads back to itself is
      caught on the second visit. */
  lemma SelfLoopRaises(w: World, r: Req, c: Call, step: StepId)
    requires Closed(w) && step in w.steps && w.steps[step].isCondition
    requires !w.steps[step].isFinal && !w.steps[step].isEmployeeStep
    requires FirstMatch(w, r, w.steps[step].conditions) == Ok(Some(step))
    requires FindAction(w.catalog, "auto_condition").Some?
    ensures AutoConditions(w, r, c, step, {}) == Err(WorkflowLoop(step))
  {
  }

  /** The condition chain reads neither the action type nor the comment. */
  lemma {:induction false} ChainIgnoresActionType(w: World, r: Req, c: Call, a: Option<string>, m: string, step: StepId, visited: set<StepId>)
    requires Closed(w) && step in w.steps
    ensures AutoConditions(w, r, c, step, visited) == AutoConditions(w, r, c.(actionType := a, comment := m), step, visited)
    decreases w.steps.Keys - visited
  {
    var st := w.steps[step];
    if st.isCondition && step !in visited {
      var fm := FirstMatch(w, r, st.conditions);
      var action := FindAction(w.catalog, "auto_condition");
      if fm.Ok? && fm.value.Some? && action.Some? {
        var next := fm.value.value;
        assert next in w.steps by {
          var i :| 0 <= i < |st.conditions| && st.conditions[i].nextStep == next;
          assert StepLinksClosed(w.steps, st);
        }
        var r1 := Log(Complete(r, step), HistoryEntry(step, action.value, c.user, AutoConditionComment, c.now));
        var ns := w.steps[next];
        if !ns.isFinal && !(ns.isEmployeeStep && r.requestedFor.None?) {
          var r2 := if ns.isEmployeeStep then r1.(status := Pending, approvers := {r.requestedFor.value}) else r1;
          ChainIgnoresActionType(w, r2.(current := Some(next)), c, a, m, next, visited + {step});
        }
      }
    }
  }

  /** The initiator advance applies exactly on an initiator step, and there
      it either advances or raises. */
  lemma InitiatorOnlyOnInitiator(w: World, r: Req, c: Call)
    requires Closed(w) && Placed(w, r)
    ensures !ActionProps.OnInitiator(w, r) ==> AutoInitiator(w, r, c) == Ok((false, r))
    ensures ActionProps.OnInitiator(w, r) && AutoInitiator(w, r, c).Ok? ==> AutoInitiator(w, r, c).value.0
  {
  }

  /** The order in which the initiator's next step is chosen: a holding
      condition first, then the first action's next step, then the first
      candidate of `next_step_ids` resolved through the organization chart. */
  lemma InitiatorChoiceOrder(w: World, r: Req, st: Step)
    requires Closed(w) && StepLinksClosed(w.steps, st)
    ensures st.isCondition && FirstMatch(w, r, st.conditions).Err? ==>
      InitiatorChoice(w, r, st) == Err(FirstMatch(w, r, st.conditions).error)
    ensures st.isCondition && FirstMatch(w, r, st.conditions).Ok? && FirstMatch(w, r, st.conditions).value.Some? ==>
      InitiatorChoice(w, r, st) == Ok((FirstMatch(w, r, st.conditions).value, r))
    ensures (!st.isCondition || FirstMatch(w, r, st.conditions) == Ok(None)) && st.actions != [] && st.actions[0].nextStep.Some? ==>
      InitiatorChoice(w, r, st) == Ok((st.actions[0].nextStep, r))
    ensures ((!st.isCondition || FirstMatch(w, r, st.conditions) == Ok(None)) &&
       (st.actions == [] || st.actions[0].nextStep.None?) && st.nextSteps != []) ==>
      InitiatorChoice(w, r, st) == CheckOrgChart(w, r, Some(st.nextSteps[0]))
    ensures ((!st.isCondition || FirstMatch(w, r, st.conditions) == Ok(None)) &&
       (st.actions == [] || st.actions[0].nextStep.None?) && st.nextSteps == []) ==>
      InitiatorChoice(w, r, st) == Ok((None, r))
  {
  }

  /** An initiator step with nothing to go to raises. */
  lemma InitiatorWithoutNextRaises(w: World, r: Req, c: Call)
    requires Closed(w) && Placed(w, r) && ActionProps.OnInitiator(w, r)
    requires StepLinksClosed(w.steps, w.steps[r.current.value])
    requires InitiatorChoice(w, r, w.steps[r.current.value]).Ok?
    requires InitiatorChoice(w, r, w.steps[r.current.value]).value.0.None?
    ensures AutoInitiator(w, r, c) == Err(NoNextFromInitiator)
    ensures ProcessAction(w, r, c) == Err(NoNextFromInitiator)
  {
  }

  /** On an initiator step the request advances by itself, whatever action
      was asked for and with whatever comment. */
  lemma InitiatorIgnoresAction(w: World, r: Req, c: Call, a: Option<string>, m: string)
    requires Closed(w) && Placed(w, r) && ActionProps.OnInitiator(w, r)
    ensures ProcessAction(w, r, c) == ProcessAction(w, r, c.(actionType := a, comment := m))
  {
    var c2 := c.(actionType := a, comment := m);
    var id := r.current.value;
    var choice := InitiatorChoice(w, r, w.steps[id]);
    if choice.Ok? && choice.value.0.Some? {
      var checked := CheckOrgChart(w, choice.value.1, choice.value.0);
      var action := FindAction(w.catalog, "auto_initiate");
      if checked.Ok? && action.Some? {
        var next := checked.value.0.value;
        var r1 := Log(Complete(checked.value.1, id), HistoryEntry(id, action.value, c.user, AutoInitiateComment, c.now));
        ChainIgnoresActionType(w, r1.(current := Some(next)), c, a, m, next, {});
      }
    }
  }

  /** From the initiator step to a final step: once `_check_org_chart`
      resolves the chosen next step to a final step, the request is approved
      and placed on it with nobody left to approve, both steps are completed,
      and one automatic row is logged; `process_action` returns that state. */
  lemma InitiatorToFinalApproves(w: World, r: Req, c: Call, chosen: StepId, r0: Req, f: StepId, r2: Req, action: ActionId)
    requires Closed(w) && Placed(w, r) && ActionProps.OnInitiator(w, r)
    requires StepLinksClosed(w.steps, w.steps[r.current.value])
    requires InitiatorChoice(w, r, w.steps[r.current.value]) == Ok((Some(chosen), r0))
    requires CheckOrgChart(w, r0, Some(chosen)) == Ok((Some(f), r2))
    requires w.steps[f].isFinal
    requires FindAction(w.catalog, "auto_initiate") == Some(action)
    ensures var id := r.current.value;
      var done := r.(status := Approved, approvedDate := Some(c.now), current := Some(f), approvers := {},
        completed := r.completed + {id, f},
        history := r.history + [HistoryEntry(id, action, c.user, AutoInitiateComment, c.now)]);
      AutoInitiator(w, r, c) == Ok((true, done)) && ProcessAction(w, r, c) == Ok(done)
  {
    var id := r.current.value;
    var r1 := Log(Complete(r2, id), HistoryEntry(id, action, c.user, AutoInitiateComment, c.now));
    var done := r.(status := Approved, approvedDate := Some(c.now), current := Some(f), approvers := {},
      completed := r.completed + {id, f},
      history := r.history + [HistoryEntry(id, action, c.user, AutoInitiateComment, c.now)]);
    assert r2 == r.(approvers := r2.approvers);
    assert r.completed + {id} + {f} == r.completed + {id, f};
    assert Complete(r1.(status := Approved, approvedDate := Some(c.now), current := Some(f), approvers := {}), f) == done;
    assert InitiatorAdvance(w, r0, c, id, chosen) == Ok(done);
  }
}
