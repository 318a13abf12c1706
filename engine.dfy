/** The request state machine of `approval.request` as pure functions: each
    operation maps the request's state to its new state, or to the error it
    raises (the transaction is then rolled back, so nothing changes). */
module Engine {
  import opened Base
  import opened OrgChart
  import opened Delegation
  import opened Conditions
  import opened Workflow

  datatype Status = Pending | Approved | Rejected

  /** Everything the engine reads and never writes.  `catalog` lists the
      global actions in id order, Odoo's default, since `approval.action`
      declares no `_order`. */
  datatype World = World(
    steps: map<StepId, Step>,
    flows: map<FlowId, Flow>,
    catalog: seq<ActionRec>,
    dir: Directory,
    delegations: seq<Delegation>,
    today: int,
    store: RecordStore)

  /** An `approval.request`: the fields fixed at creation, then the fields
      the engine writes. */
  datatype Req = Req(
    flow: FlowId,
    resModel: string,
    resId: int,
    createUid: UserId,
    requestedBy: Option<UserId>,
    requestedFor: Option<UserId>,
    branch: Option<BranchId>,
    status: Status,
    current: Option<StepId>,
    approvers: set<UserId>,
    completed: set<StepId>,
    history: seq<HistoryEntry>,
    approvedDate: Option<int>,
    rejectedDate: Option<int>)

  /** The call context: `action_type` and `comment` from the context, the
      acting user, and the clock. */
  datatype Call = Call(actionType: Option<string>, comment: string, user: UserId, now: int)

  // ----------------------------------------------------------------------
  // Well-formed worlds: every step id a record mentions names a step, and
  // the step lists Odoo reads in `approval.step`'s `_order = 'sequence'` (a
  // flow's steps, a step's next steps) come lowest sequence first.

  predicate StepLinksClosed(steps: map<StepId, Step>, st: Step)
  {
    && (forall i :: 0 <= i < |st.nextSteps| ==> st.nextSteps[i] in steps)
    && SortedBySequence(steps, st.nextSteps)
    && (forall i :: 0 <= i < |st.actions| ==> st.actions[i].nextStep.Some? ==> st.actions[i].nextStep.value in steps)
    && (forall i :: 0 <= i < |st.conditions| ==> st.conditions[i].nextStep in steps)
  }

  predicate FlowClosed(steps: map<StepId, Step>, f: Flow)
  {
    && (forall i :: 0 <= i < |f.steps| ==> f.steps[i] in steps)
    && SortedBySequence(steps, f.steps)
  }

  predicate Closed(w: World)
  {
    && Acyclic(w.dir)
    && (forall id :: id in w.steps ==> StepLinksClosed(w.steps, w.steps[id]))
    && (forall f :: f in w.flows ==> FlowClosed(w.steps, w.flows[f]))
  }

  /** The request's current step, when set, is a step of the world. */
  predicate Placed(w: World, r: Req)
  {
    r.current.Some? ==> r.current.value in w.steps
  }

  // ----------------------------------------------------------------------
  // Lookups

  /** `search([('code', '=', code)], limit=1)` on the global actions: the
      first action, in catalog (id) order, with that code.  `unique=True` on
      a field creates no database constraint, so two actions may share a
      code; the one with the lowest id wins. */
  function FindAction(catalog: seq<ActionRec>, code: string): (r: Option<ActionId>)
    ensures r.Some? <==> exists i :: 0 <= i < |catalog| && catalog[i].code == code
    ensures r.Some? ==>
      exists i :: 0 <= i < |catalog| && catalog[i].code == code && catalog[i].id == r.value &&
        forall j :: 0 <= j < i ==> catalog[j].code != code
  {
    if catalog == [] then None
    else if catalog[0].code == code then Some(catalog[0].id)
    else
      var t := FindAction(catalog[1..], code);
      assert (exists i :: 0 <= i < |catalog[1..]| && catalog[1..][i].code == code) <==>
        (exists i :: 1 <= i < |catalog| && catalog[i].code == code) by {
        forall i | 1 <= i < |catalog| ensures catalog[i] == catalog[1..][i - 1] {}
      }
      assert t.Some? ==>
        exists i :: 0 <= i < |catalog| && catalog[i].code == code && catalog[i].id == t.value &&
          forall j :: 0 <= j < i ==> catalog[j].code != code by {
        if t.Some? {
          var k :| 0 <= k < |catalog[1..]| && catalog[1..][k].code == code && catalog[1..][k].id == t.value &&
            forall j :: 0 <= j < k ==> catalog[1..][j].code != code;
          assert forall j :: 1 <= j < k + 1 ==> catalog[j] == catalog[1..][j - 1];
          assert catalog[k + 1] == catalog[1..][k];
        }
      }
      t
  }

  /** `action_id.code` of a step action. */
  function CodeOf(catalog: seq<ActionRec>, id: ActionId): Option<string>
  {
    if catalog == [] then None
    else if catalog[0].id == id then Some(catalog[0].code)
    else CodeOf(catalog[1..], id)
  }

  /** `step.action_ids.filtered(lambda a: a.action_id.code == code)[:1]`:
      the first step action, in record (id) order since `approval.step.action`
      declares no `_order`, whose action has that code. */
  function StepActionFor(catalog: seq<ActionRec>, actions: seq<StepAction>, code: string): (r: Option<StepAction>)
    ensures r.Some? ==> r.value in actions && CodeOf(catalog, r.value.action) == Some(code)
    ensures r.Some? ==>
      exists i :: 0 <= i < |actions| && actions[i] == r.value &&
        forall j :: 0 <= j < i ==> CodeOf(catalog, actions[j].action) != Some(code)
    ensures r.None? ==> forall i :: 0 <= i < |actions| ==> CodeOf(catalog, actions[i].action) != Some(code)
  {
    if actions == [] then None
    else if CodeOf(catalog, actions[0].action) == Some(code) then Some(actions[0])
    else
      var t := StepActionFor(catalog, actions[1..], code);
      assert forall i :: 1 <= i < |actions| ==> actions[i] == actions[1..][i - 1];
      assert t.Some? ==>
        exists i :: 0 <= i < |actions| && actions[i] == t.value &&
          forall j :: 0 <= j < i ==> CodeOf(catalog, actions[j].action) != Some(code) by {
        if t.Some? {
          var k :| 0 <= k < |actions[1..]| && actions[1..][k] == t.value &&
            forall j :: 0 <= j < k ==> CodeOf(catalog, actions[1..][j].action) != Some(code);
          assert actions[k + 1] == t.value;
        }
      }
      t
  }

  /** What the condition evaluator sees of the request. */
  function SubjectOf(w: World, r: Req): Subject
  {
    Subject(r.resModel, r.resId, GroupsOf(w.dir, r.createUid), w.dir.userGroups)
  }

  /** `for condition in step.condition_ids: if condition._evaluate_condition(self): ... break`.
      `conds` is in id order: `approval.condition` declares no `_order`, so
      its `sequence` ("Priority") field does not decide the order. */
  function FirstMatch(w: World, r: Req, conds: seq<Condition>): (m: Result<Option<StepId>>)
    ensures m.Ok? && m.value.Some? ==>
      exists i :: 0 <= i < |conds| && conds[i].nextStep == m.value.value &&
        Evaluate(w.store, conds[i], SubjectOf(w, r)) == Ok(true) &&
        forall j :: 0 <= j < i ==> Evaluate(w.store, conds[j], SubjectOf(w, r)) == Ok(false)
    ensures m == Ok(None) <==>
      forall i :: 0 <= i < |conds| ==> Evaluate(w.store, conds[i], SubjectOf(w, r)) == Ok(false)
  {
    if conds == [] then Ok(None)
    else
      match Evaluate(w.store, conds[0], SubjectOf(w, r))
      case Err(e) => Err(e)
      case Ok(true) => Ok(Some(conds[0].nextStep))
      case Ok(false) =>
        var t := FirstMatch(w, r, conds[1..]);
        assert forall i :: 1 <= i < |conds| ==> conds[i] == conds[1..][i - 1];
        if t.Ok? && t.value.Some? then
          var i :| 0 <= i < |conds[1..]| && conds[1..][i].nextStep == t.value.value &&
            Evaluate(w.store, conds[1..][i], SubjectOf(w, r)) == Ok(true) &&
            forall j :: 0 <= j < i ==> Evaluate(w.store, conds[1..][j], SubjectOf(w, r)) == Ok(false);
          assert conds[i + 1] == conds[1..][i];
          t
        else t
  }

  function IndexOf(s: seq<StepId>, x: StepId): (r: Option<nat>)
    ensures r.Some? ==> r.value < |s| && s[r.value] == x && x !in s[..r.value]
    ensures r.None? ==> x !in s
  {
    if s == [] then None
    else if s[0] == x then Some(0)
    else
      var t := IndexOf(s[1..], x);
      assert s == [s[0]] + s[1..];
      if t.None? then None
      else
        assert s[..t.value + 1] == [s[0]] + s[1..][..t.value];
        Some(t.value + 1)
  }

  /** The steps of the step's flow in `sequence` order. */
  function FlowOrder(w: World, id: StepId): (order: seq<StepId>)
    requires Closed(w) && id in w.steps
    ensures forall i :: 0 <= i < |order| ==> order[i] in w.steps
  {
    var f := w.steps[id].flow;
    if f !in w.flows then []
    else
      var order := OrderBySequence(w.steps, w.flows[f].steps);
      assert forall i :: 0 <= i < |order| ==> order[i] in w.steps by {
        forall i | 0 <= i < |order| ensures order[i] in w.steps {
          assert order[i] in multiset(w.flows[f].steps);
        }
      }
      order
  }

  // ----------------------------------------------------------------------
  // Approver resolution (`_check_org_chart`)

  /** Role members whose default branch equals `b` (both unset counts as equal). */
  function OnBranch(w: World, users: set<UserId>, b: Option<BranchId>): (r: set<UserId>)
    ensures r <= users
  {
    set u | u in users && Get(w.dir.userBranch, u) == b
  }

  /** The branch filter of a static step. */
  function StaticMatches(w: World, r: Req, emp: EmployeeId, st: Step): set<UserId>
  {
    var members := RoleUsers(w.dir, st.role);
    if st.crossBranch then OnBranch(w, members, r.branch)
    else
      var own := OnBranch(w, members, Get(w.dir.employeeBranch, emp));
      if own == {} && st.fallbackBranch.Some? then OnBranch(w, members, st.fallbackBranch) else own
  }

  /** The first organization step at position `k` or later. */
  function NextOrganization(w: World, order: seq<StepId>, k: nat): (r: Option<nat>)
    requires forall i :: 0 <= i < |order| ==> order[i] in w.steps
    ensures r.Some? ==> k <= r.value < |order| && w.steps[order[r.value]].isOrganization
    ensures r.Some? ==> forall i :: k <= i < r.value ==> !w.steps[order[i]].isOrganization
    ensures r.None? ==> forall i :: k <= i < |order| ==> !w.steps[order[i]].isOrganization
    decreases |order| - k
  {
    if k >= |order| then None
    else if w.steps[order[k]].isOrganization then Some(k)
    else NextOrganization(w, order, k + 1)
  }

  /** The case analysis on the step at position `i`, escalating an
      organization step nobody in the hierarchy can take to the next
      organization step.  Yields the step chosen and the approvers assigned. */
  function RouteFrom(w: World, r: Req, emp: EmployeeId, hierarchyUsers: set<UserId>, order: seq<StepId>, i: nat): Result<(StepId, set<UserId>)>
    requires i < |order| && forall k :: 0 <= k < |order| ==> order[k] in w.steps
    decreases |order| - i
  {
    var st := w.steps[order[i]];
    if st.isOrganization then
      var matched := RoleUsers(w.dir, st.role) * hierarchyUsers;
      if matched == {} then
        match NextOrganization(w, order, i + 1)
        case None => Err(NoOrgApprover)
        case Some(j) => RouteFrom(w, r, emp, hierarchyUsers, order, j)
      else
        var delegated := GetDelegate(matched, w.delegations, w.today);
        if delegated == {} then Err(MissingDelegation) else Ok((order[i], delegated))
    else if st.isEmployeeStep then
      if r.requestedFor.None? then Err(NoRequestedFor) else Ok((order[i], {r.requestedFor.value}))
    else
      var delegated := GetDelegate(StaticMatches(w, r, emp, st), w.delegations, w.today);
      if delegated == {} && !st.isFinal && !st.isCondition then Err(NoStaticApprover)
      else Ok((order[i], delegated))
  }

  /** `_check_org_chart(step)`: the step to move to and the request with the
      approvers it assigned.  A creator without an employee record leaves
      everything as it is. */
  function CheckOrgChart(w: World, r: Req, step: Option<StepId>): (res: Result<(Option<StepId>, Req)>)
    requires Closed(w) && (step.Some? ==> step.value in w.steps)
    ensures res.Ok? ==> res.value.1 == r.(approvers := res.value.1.approvers)
    ensures res.Ok? && step.Some? ==> res.value.0.Some? && res.value.0.value in w.steps
  {
    var emp := Get(w.dir.employeeOfUser, r.createUid);
    if emp.None? then Ok((step, r))
    else if step.None? then Err(StepNotInFlow)
    else
      var order := FlowOrder(w, step.value);
      match IndexOf(order, step.value)
      case None => Err(StepNotInFlow)
      case Some(i) =>
        var users := HierarchyUsers(Hierarchy(w.dir, Get(w.dir.employeeJob, emp.value)));
        match RouteFrom(w, r, emp.value, users, order, i)
        case Err(e) => Err(e)
        case Ok(routed) =>
          RouteFromInOrder(w, r, emp.value, users, order, i);
          Ok((Some(routed.0), r.(approvers := routed.1)))
  }

  lemma {:induction false} RouteFromInOrder(w: World, r: Req, emp: EmployeeId, users: set<UserId>, order: seq<StepId>, i: nat)
    requires i < |order| && forall k :: 0 <= k < |order| ==> order[k] in w.steps
    ensures RouteFrom(w, r, emp, users, order, i).Ok? ==>
      exists j :: i <= j < |order| && order[j] == RouteFrom(w, r, emp, users, order, i).value.0 &&
        (j > i ==> w.steps[order[j]].isOrganization)
    decreases |order| - i
  {
    var st := w.steps[order[i]];
    if st.isOrganization && RoleUsers(w.dir, st.role) * users == {} {
      var n := NextOrganization(w, order, i + 1);
      if n.Some? {
        RouteFromInOrder(w, r, emp, users, order, n.value);
      }
    }
  }

  /** `for candidate in step.next_step_ids: checked = self._check_org_chart(candidate)`
      up to the first non-empty result.  `_check_org_chart` of a step never
      yields an empty step, so the loop always stops at the first candidate. */
  function FirstCandidate(w: World, r: Req, cands: seq<StepId>): (res: Result<(Option<StepId>, Req)>)
    requires Closed(w) && forall k :: 0 <= k < |cands| ==> cands[k] in w.steps
    ensures res.Ok? ==> res.value.1 == r.(approvers := res.value.1.approvers)
    ensures res.Ok? ==> (res.value.0.Some? <==> cands != [])
    ensures res.Ok? && res.value.0.Some? ==> res.value.0.value in w.steps
  {
    if cands == [] then Ok((None, r)) else CheckOrgChart(w, r, Some(cands[0]))
  }

  // ----------------------------------------------------------------------
  // Writes shared by several operations

  function Log(r: Req, e: HistoryEntry): Req
  {
    r.(history := r.history + [e])
  }

  function Complete(r: Req, id: StepId): Req
  {
    r.(completed := r.completed + {id})
  }

  const AutoConditionComment := "Automatically advanced via conditional logic."
  const AutoInitiateComment := "Automatically advanced from initiator step."

  // ----------------------------------------------------------------------
  // Auto-advance through condition steps

  /** `auto_process_condition_steps(step)`, with the `visited` set of the loop. */
  function AutoConditions(w: World, r: Req, c: Call, step: StepId, visited: set<StepId>): (res: Result<Req>)
    requires Closed(w) && step in w.steps
    ensures res.Ok? ==> Placed(w, res.value) || res.value.current == r.current
    decreases w.steps.Keys - visited
  {
    var st := w.steps[step];
    if !st.isCondition then
      match CheckOrgChart(w, r, Some(step))
      case Err(e) => Err(e)
      case Ok(checked) => Ok(checked.1.(current := checked.0))
    else if step in visited then Err(WorkflowLoop(step))
    else
      match FirstMatch(w, r, st.conditions)
      case Err(e) => Err(e)
      case Ok(None) => Err(NoMatchingCondition(step))
      case Ok(Some(next)) =>
        assert next in w.steps by {
          var i :| 0 <= i < |st.conditions| && st.conditions[i].nextStep == next;
          assert StepLinksClosed(w.steps, st);
        }
        match FindAction(w.catalog, "auto_condition")
        case None => Err(MissingGlobalAction("auto_condition"))
        case Some(action) =>
          var r1 := Log(Complete(r, step), HistoryEntry(step, action, c.user, AutoConditionComment, c.now));
          var ns := w.steps[next];
          if ns.isFinal then
            Ok(Complete(r1, next).(status := Approved, approvedDate := Some(c.now), current := Some(next), approvers := {}))
          else if ns.isEmployeeStep && r.requestedFor.None? then Err(NoRequestedFor)
          else
            var r2 := if ns.isEmployeeStep then r1.(status := Pending, approvers := {r.requestedFor.value}) else r1;
            AutoConditions(w, r2.(current := Some(next)), c, next, visited + {step})
  }

  /** The routing shared by both kinds of approval once the step is done:
      a final next step approves the request, an employee next step goes to
      the requested-for user, any other next step becomes current and the
      condition chain after it is followed. */
  function RouteApproved(w: World, r: Req, c: Call, next: Option<StepId>): Result<Req>
    requires Closed(w) && (next.Some? ==> next.value in w.steps)
  {
    if next.None? then Ok(r)
    else if w.steps[next.value].isFinal then
      Ok(r.(status := Approved, approvedDate := Some(c.now), approvers := {}))
    else if w.steps[next.value].isEmployeeStep then
      if r.requestedFor.None? then Err(NoRequestedFor)
      else Ok(r.(status := Pending, current := next, approvers := {r.requestedFor.value}))
    else AutoConditions(w, r.(current := next), c, next.value, {})
  }

  // ----------------------------------------------------------------------
  // Auto-advance from the initiator step

  /** The initiator's next step: the first matching condition, else the first
      action's next step, else the first escalation candidate accepted. */
  function InitiatorChoice(w: World, r: Req, st: Step): (res: Result<(Option<StepId>, Req)>)
    requires Closed(w) && StepLinksClosed(w.steps, st)
    ensures res.Ok? ==> res.value.1 == r.(approvers := res.value.1.approvers)
    ensures res.Ok? && res.value.0.Some? ==> res.value.0.value in w.steps
  {
    var fromCondition := if st.isCondition then FirstMatch(w, r, st.conditions) else Ok(None);
    match fromCondition
    case Err(e) => Err(e)
    case Ok(chosen) =>
      assert chosen.Some? ==> chosen.value in w.steps by {
        if chosen.Some? {
          var i :| 0 <= i < |st.conditions| && st.conditions[i].nextStep == chosen.value;
        }
      }
      var fromAction := if chosen.None? && st.actions != [] then st.actions[0].nextStep else chosen;
      if fromAction.None? && st.nextSteps != [] then FirstCandidate(w, r, st.nextSteps)
      else Ok((fromAction, r))
  }

  /** The advance once the initiator's next step is chosen: resolve its
      approvers, complete the initiator step, log, and route. */
  function InitiatorAdvance(w: World, r: Req, c: Call, id: StepId, chosen: StepId): Result<Req>
    requires Closed(w) && chosen in w.steps
  {
    match CheckOrgChart(w, r, Some(chosen))
    case Err(e) => Err(e)
    case Ok(checked) =>
      var next := checked.0.value;
      match FindAction(w.catalog, "auto_initiate")
      case None => Err(MissingGlobalAction("auto_initiate"))
      case Some(action) =>
        var r1 := Log(Complete(checked.1, id), HistoryEntry(id, action, c.user, AutoInitiateComment, c.now));
        if w.steps[next].isFinal then
          Ok(Complete(r1.(status := Approved, approvedDate := Some(c.now), current := Some(next), approvers := {}), next))
        else if w.steps[next].isEmployeeStep then
          if r.requestedFor.None? then Err(NoRequestedFor)
          else Ok(r1.(status := Pending, current := Some(next), approvers := {r.requestedFor.value}))
        else AutoConditions(w, r1.(current := Some(next)), c, next, {})
  }

  /** `auto_process_initiator_step`: `(False, r)` unless the current step is
      an initiator; otherwise `(True, r')` after advancing. */
  function AutoInitiator(w: World, r: Req, c: Call): (res: Result<(bool, Req)>)
    requires Closed(w) && Placed(w, r)
    ensures res.Ok? && !res.value.0 ==> res.value.1 == r
  {
    if r.current.None? || !w.steps[r.current.value].isInitiator then Ok((false, r))
    else
      var id := r.current.value;
      match InitiatorChoice(w, r, w.steps[id])
      case Err(e) => Err(e)
      case Ok(choice) =>
        if choice.0.None? then Err(NoNextFromInitiator)
        else
          match InitiatorAdvance(w, choice.1, c, id, choice.0.value)
          case Err(e) => Err(e)
          case Ok(r2) => Ok((true, r2))
  }

  // ----------------------------------------------------------------------
  // Manual actions

  /** Python's `round` on a float: to the nearest integer, ties to even. */
  function RoundHalfEven(x: real): (n: int)
    ensures -(1.0 / 2.0) <= x - n as real <= 1.0 / 2.0
    ensures (x - n as real == 1.0 / 2.0 || n as real - x == 1.0 / 2.0) ==> n % 2 == 0
  {
    var f := x.Floor;
    var d := x - f as real;
    if d < 1.0 / 2.0 then f
    else if d > 1.0 / 2.0 then f + 1
    else if f % 2 == 0 then f else f + 1
  }

  /** `max(round(percent / 100 * members), 1)`. */
  function RequiredVotes(percent: real, members: nat): (n: int)
    ensures n >= 1
  {
    var k := RoundHalfEven(percent / 100.0 * members as real);
    if k < 1 then 1 else k
  }

  /** `search_count` of the history rows for this step and action. */
  function VotesFor(history: seq<HistoryEntry>, step: StepId, action: ActionId): (n: nat)
    ensures n <= |history|
    ensures n == |set i | 0 <= i < |history| && history[i].step == step && history[i].action == action|
  {
    if history == [] then 0
    else
      var k := |history| - 1;
      var init := history[..k];
      var last := history[k];
      var rows := set i | 0 <= i < |history| && history[i].step == step && history[i].action == action;
      var before := set i | 0 <= i < |init| && init[i].step == step && init[i].action == action;
      assert before == set i | 0 <= i < k && history[i].step == step && history[i].action == action;
      assert k !in before;
      assert rows == before + (if last.step == step && last.action == action then {k} else {});
      VotesFor(init, step, action) + (if last.step == step && last.action == action then 1 else 0)
  }

  /** Committee approval: record the vote, drop the voter from the approvers,
      and complete and route the step once the votes reach the threshold.
      This branch returns before the common history row. */
  function ApproveCommittee(w: World, r: Req, c: Call, id: StepId, st: Step, action: ActionId, next: Option<StepId>): Result<Req>
    requires Closed(w) && (next.Some? ==> next.value in w.steps)
  {
    var members := |RoleUsers(w.dir, st.role)|;
    if members == 0 then Err(EmptyCommittee)
    else
      var voted := Log(r, HistoryEntry(id, action, c.user, c.comment, c.now)).(approvers := r.approvers - {c.user});
      if VotesFor(r.history, id, action) + 1 >= RequiredVotes(st.percent, members) then
        RouteApproved(w, Complete(voted, id), c, next)
      else Ok(voted)
  }

  /** Single approval: complete the step, resolve the next step's approvers, route. */
  function ApproveSingle(w: World, r: Req, c: Call, id: StepId, next: Option<StepId>): Result<Req>
    requires Closed(w) && (next.Some? ==> next.value in w.steps)
  {
    match CheckOrgChart(w, Complete(r, id), next)
    case Err(e) => Err(e)
    case Ok(checked) => RouteApproved(w, checked.1, c, checked.0)
  }

  /** `flow_id.step_ids.filtered(lambda s: s.is_initiator)[:1]`: the flow's
      initiator step of lowest `sequence`, or none when it has none. */
  function FirstInitiator(w: World, flow: FlowId): (r: Option<StepId>)
    requires Closed(w)
    ensures r.Some? ==> r.value in w.steps && w.steps[r.value].isInitiator
    ensures r.None? <==>
      flow !in w.flows ||
        forall i :: 0 <= i < |w.flows[flow].steps| ==> !w.steps[w.flows[flow].steps[i]].isInitiator
    ensures r.Some? ==>
      r.value in w.flows[flow].steps &&
        forall i :: 0 <= i < |w.flows[flow].steps| && w.steps[w.flows[flow].steps[i]].isInitiator ==>
          w.steps[r.value].sequence <= w.steps[w.flows[flow].steps[i]].sequence
  {
    if flow !in w.flows then None
    else
      var ids := w.flows[flow].steps;
      var r := FirstInitiatorIn(w, ids);
      assert r.Some? ==> forall i :: 0 <= i < |ids| && w.steps[ids[i]].isInitiator ==>
        w.steps[r.value].sequence <= w.steps[ids[i]].sequence by {
        if r.Some? {
          var k :| 0 <= k < |ids| && ids[k] == r.value && forall j :: 0 <= j < k ==> !w.steps[ids[j]].isInitiator;
          forall i | 0 <= i < |ids| && w.steps[ids[i]].isInitiator
            ensures w.steps[r.value].sequence <= w.steps[ids[i]].sequence {
            assert k <= i;
            if k < i {
              assert SequenceOf(w.steps, ids[k]) <= SequenceOf(w.steps, ids[i]);
            }
          }
        }
      }
      r
  }

  /** The first initiator in a list of steps. */
  function FirstInitiatorIn(w: World, ids: seq<StepId>): (r: Option<StepId>)
    requires forall i :: 0 <= i < |ids| ==> ids[i] in w.steps
    ensures r.Some? ==> r.value in w.steps && w.steps[r.value].isInitiator
    ensures r.None? <==> forall i :: 0 <= i < |ids| ==> !w.steps[ids[i]].isInitiator
    ensures r.Some? ==>
      exists i :: 0 <= i < |ids| && ids[i] == r.value &&
        forall j :: 0 <= j < i ==> !w.steps[ids[j]].isInitiator
  {
    if ids == [] then None
    else if w.steps[ids[0]].isInitiator then Some(ids[0])
    else
      var t := FirstInitiatorIn(w, ids[1..]);
      assert forall i :: 1 <= i < |ids| ==> ids[i] == ids[1..][i - 1];
      assert t.Some? ==>
        exists i :: 0 <= i < |ids| && ids[i] == t.value &&
          forall j :: 0 <= j < i ==> !w.steps[ids[j]].isInitiator by {
        if t.Some? {
          var k :| 0 <= k < |ids[1..]| && ids[1..][k] == t.value &&
            forall j :: 0 <= j < k ==> !w.steps[ids[1..][j]].isInitiator;
          assert ids[k + 1] == t.value;
        }
      }
      t
  }

  /** Amend: back to pending at the initiator, approved by the requester only
      (nobody when there is no requester); the completed steps are kept. */
  function Amend(w: World, r: Req): Result<Req>
    requires Closed(w)
  {
    match FirstInitiator(w, r.flow)
    case None => Err(NoInitiator)
    case Some(init) =>
      Ok(r.(status := Pending, current := Some(init),
            approvers := if r.requestedBy.Some? then {r.requestedBy.value} else {}))
  }

  /** Reject: only the acting user leaves the approvers. */
  function Reject(r: Req, c: Call): Req
  {
    r.(status := Rejected, rejectedDate := Some(c.now), approvers := r.approvers - {c.user})
  }

  /** Send to employee, as written: the step actions are filtered on a `name`
      field that `approval.step.action` does not have, so the filter raises
      on the first step action (one exists, since the step action for the
      code was found). */
  function ToEmployeeAsWritten(r: Req): Result<Req>
  {
    if r.requestedFor.None? then Err(NoRequestedFor) else Err(StepActionHasNoName)
  }

  /** Send to employee, as intended: go to the next step of the step's
      `to_employee` action, approved by the requested-for user. */
  function ToEmployee(r: Req, sa: StepAction): Result<Req>
  {
    if r.requestedFor.None? then Err(NoRequestedFor)
    else if sa.nextStep.None? then Err(NoToEmployeeNext)
    else Ok(r.(status := Pending, current := sa.nextStep, approvers := {r.requestedFor.value}))
  }

  /** The next step resolved before dispatching on the action: the step
      action's own next step, else (on a step without conditions) the first
      escalation candidate accepted. */
  function ManualNext(w: World, r: Req, st: Step, sa: StepAction): (res: Result<(Option<StepId>, Req)>)
    requires Closed(w) && StepLinksClosed(w.steps, st) && sa in st.actions
    ensures res.Ok? ==> res.value.1 == r.(approvers := res.value.1.approvers)
    ensures res.Ok? && res.value.0.Some? ==> res.value.0.value in w.steps
  {
    if sa.nextStep.None? && st.conditions == [] && st.nextSteps != [] then FirstCandidate(w, r, st.nextSteps)
    else Ok((sa.nextStep, r))
  }

  /** The guards of `process_action`, in order; `Ok` carries the global
      action and the step action found. */
  function Guards(w: World, r: Req, c: Call): (res: Result<(ActionId, StepAction)>)
    requires Closed(w) && Placed(w, r)
    ensures res.Ok? ==> r.current.Some? && res.value.1 in w.steps[r.current.value].actions
  {
    if c.actionType.None? || c.actionType.value == "" then Err(NoActionType)
    else
      var code := c.actionType.value;
      match FindAction(w.catalog, code)
      case None => Err(UnknownAction)
      case Some(action) =>
        if r.status == Approved && (code == "approve" || code == "reject") then Err(BadState)
        else if r.current.None? then Err(NoCurrentStep)
        else if c.user !in r.approvers then Err(NotAuthorized)
        else
          match StepActionFor(w.catalog, w.steps[r.current.value].actions, code)
          case None => Err(NoStepAction)
          case Some(sa) => Ok((action, sa))
  }

  /** The part of `process_action` after the initiator check. */
  function Manual(w: World, r: Req, c: Call): Result<Req>
    requires Closed(w) && Placed(w, r)
  {
    match Guards(w, r, c)
    case Err(e) => Err(e)
    case Ok(found) =>
      var id := r.current.value;
      var st := w.steps[id];
      assert StepLinksClosed(w.steps, st);
      match ManualNext(w, r, st, found.1)
      case Err(e) => Err(e)
      case Ok(resolved) => Dispatch(w, resolved.1, c, id, st, found.0, found.1, resolved.0)
  }

  /** The branch on the action code, from the request `r` after the next
      step was resolved.  Every branch but the committee approval ends with
      the history row of the action. */
  function Dispatch(w: World, r: Req, c: Call, id: StepId, st: Step, action: ActionId, sa: StepAction, next: Option<StepId>): Result<Req>
    requires Closed(w) && (next.Some? ==> next.value in w.steps) && c.actionType.Some?
  {
    var code := c.actionType.value;
    if code == "approve" && st.committee then ApproveCommittee(w, r, c, id, st, action, next)
    else
      var r2 :=
        if code == "approve" then ApproveSingle(w, r, c, id, next)
        else if code == "amend" then Amend(w, r)
        else if code == "reject" then Ok(Reject(r, c))
        else if code == "to_employee" then ToEmployee(r, sa)
        else if code == "revert" then Ok(r.(status := Pending, current := if next.Some? then next else Some(id)))
        else Ok(r);
      match r2
      case Err(e) => Err(e)
      case Ok(r3) => Ok(Log(r3, HistoryEntry(id, action, c.user, c.comment, c.now)))
  }

  /** `process_action`. */
  function ProcessAction(w: World, r: Req, c: Call): Result<Req>
    requires Closed(w) && Placed(w, r)
  {
    match AutoInitiator(w, r, c)
    case Err(e) => Err(e)
    case Ok(auto) => if auto.0 then Ok(auto.1) else Manual(w, r, c)
  }
}
