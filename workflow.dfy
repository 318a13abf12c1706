/** Workflow definitions (`approval.flow`, `approval.step`,
    `approval.step.action`, `approval.action`, `approval.history`): the
    record shapes, the step constraints, the stamping of the flow's
    author, and the `sequence` order of a flow's steps. */
module Workflow {
  import opened Base
  import opened Conditions

  /** A step-local mapping of a global action to a next step. */
  datatype StepAction = StepAction(action: ActionId, nextStep: Option<StepId>)

  /** One `approval.step` record. `conditions` and `actions` are in record
      order; `nextSteps` is read through `approval.step`'s `_order =
      'sequence'`, so it comes lowest sequence first (`Engine.Closed`
      requires that order). */
  datatype Step = Step(
    flow: FlowId,
    name: string,
    sequence: int,
    role: Option<GroupId>,
    committee: bool,
    percent: real,
    isOrganization: bool,
    isCondition: bool,
    conditions: seq<Condition>,
    fallbackBranch: Option<BranchId>,
    nextSteps: seq<StepId>,
    isInitiator: bool,
    isFinal: bool,
    crossBranch: bool,
    actions: seq<StepAction>,
    isEmployeeStep: bool)

  /** One `approval.flow` record; `steps` lists its step ids as Odoo reads
      them, lowest `sequence` first (`Engine.Closed` requires that order). */
  datatype Flow = Flow(
    name: string,
    requestType: string,
    steps: seq<StepId>,
    createdBy: Option<UserId>,
    updatedBy: Option<UserId>,
    active: bool)

  /** One global `approval.action` record. */
  datatype ActionRec = ActionRec(id: ActionId, name: string, code: string)

  /** One `approval.history` row. */
  datatype HistoryEntry = HistoryEntry(step: StepId, action: ActionId, user: UserId, comment: string, date: int)

  // ----------------------------------------------------------------------
  // Step constraints: each returns the ValidationError message, or None.

  /** `_check_condition_steps`. */
  function ConditionStepsError(s: Step): (r: Option<string>)
    ensures r.None? <==> (s.isCondition ==> |s.conditions| >= 1)
  {
    if s.isCondition && s.conditions == [] then Some("Condition steps must have at least one condition.") else None
  }

  /** `_check_percent_range`. */
  function PercentRangeError(s: Step): (r: Option<string>)
    ensures r.None? <==> (s.committee ==> 0.0 < s.percent <= 100.0)
    ensures !s.committee ==> r.None?
  {
    if s.committee && !(0.0 < s.percent <= 100.0) then Some("Required approval percentage must be between 1 and 100.") else None
  }

  /** `_check_role_for_non_initiator`. */
  function RoleError(s: Step): (r: Option<string>)
    ensures r.None? <==> (s.isInitiator || s.role.Some? || s.isFinal || s.isEmployeeStep || s.isCondition)
  {
    if !s.isInitiator && s.role.None? && !(s.isFinal || s.isEmployeeStep || s.isCondition) then
      Some("You must select a User Group when the step is not an Initiator.")
    else None
  }

  /** A step record the three constraints accept. */
  predicate ValidStep(s: Step)
  {
    ConditionStepsError(s).None? && PercentRangeError(s).None? && RoleError(s).None?
  }

  /** An ordinary step (not initiator, final, employee or condition) needs a role. */
  lemma OrdinaryStepNeedsRole(s: Step)
    requires ValidStep(s) && !s.isInitiator && !s.isFinal && !s.isEmployeeStep && !s.isCondition
    ensures s.role.Some?
  {
  }

  /** A valid condition step owns a condition, and a valid committee step has
      a percentage in (0, 100]. */
  lemma ValidStepShape(s: Step)
    requires ValidStep(s)
    ensures s.isCondition ==> s.conditions != []
    ensures s.committee ==> 0.0 < s.percent <= 100.0
  {
  }

  // ----------------------------------------------------------------------
  // Flow create/write stamping

  /** The values dictionary given to `create` or `write`; absent keys are None. */
  datatype FlowVals = FlowVals(
    name: Option<string>,
    requestType: Option<string>,
    steps: Option<seq<StepId>>,
    createdBy: Option<UserId>,
    updatedBy: Option<UserId>,
    active: Option<bool>)

  /** `create`: `vals['created_by']` is overwritten with the current user. */
  function StampCreate(vals: FlowVals, user: UserId): (r: FlowVals)
    ensures r.createdBy == Some(user)
    ensures r.(createdBy := vals.createdBy) == vals
  {
    vals.(createdBy := Some(user))
  }

  /** `write`: `vals['updated_by']` is overwritten with the current user. */
  function StampWrite(vals: FlowVals, user: UserId): (r: FlowVals)
    ensures r.updatedBy == Some(user)
    ensures r.(updatedBy := vals.updatedBy) == vals
  {
    vals.(updatedBy := Some(user))
  }

  function Pick<T>(given: Option<T>, current: T): T
  {
    if given.Some? then given.value else current
  }

  /** The record write that `super().write(vals)` performs. */
  function ApplyWrite(f: Flow, vals: FlowVals): Flow
  {
    Flow(Pick(vals.name, f.name), Pick(vals.requestType, f.requestType), Pick(vals.steps, f.steps),
         if vals.createdBy.Some? then vals.createdBy else f.createdBy,
         if vals.updatedBy.Some? then vals.updatedBy else f.updatedBy,
         Pick(vals.active, f.active))
  }

  /** Whatever was asked, a written flow records the writer as `updated_by`
      and keeps its author unless the values name one. */
  lemma WriteRecordsWriter(f: Flow, vals: FlowVals, user: UserId)
    ensures ApplyWrite(f, StampWrite(vals, user)).updatedBy == Some(user)
    ensures vals.createdBy.None? ==> ApplyWrite(f, StampWrite(vals, user)).createdBy == f.createdBy
  {
  }

  // ----------------------------------------------------------------------
  // Order of a flow's steps: `sorted(step_ids, key=sequence)`, stable.

  function SequenceOf(steps: map<StepId, Step>, id: StepId): int
  {
    if id in steps then steps[id].sequence else 0
  }

  predicate SortedBySequence(steps: map<StepId, Step>, ids: seq<StepId>)
  {
    forall i, j :: 0 <= i < j < |ids| ==> SequenceOf(steps, ids[i]) <= SequenceOf(steps, ids[j])
  }

  /** Insert after every element whose sequence is not larger (keeps ties in order). */
  function InsertBySequence(steps: map<StepId, Step>, x: StepId, sorted: seq<StepId>): (r: seq<StepId>)
    ensures multiset(r) == multiset(sorted) + multiset{x}
    ensures |r| == |sorted| + 1
  {
    if sorted == [] then [x]
    else if SequenceOf(steps, x) < SequenceOf(steps, sorted[0]) then [x] + sorted
    else
      assert sorted == [sorted[0]] + sorted[1..];
      [sorted[0]] + InsertBySequence(steps, x, sorted[1..])
  }

  function OrderBySequence(steps: map<StepId, Step>, ids: seq<StepId>): (r: seq<StepId>)
    ensures multiset(r) == multiset(ids)
  {
    if ids == [] then []
    else
      assert ids == ids[..|ids| - 1] + [ids[|ids| - 1]];
      InsertBySequence(steps, ids[|ids| - 1], OrderBySequence(steps, ids[..|ids| - 1]))
  }

  predicate AtLeast(steps: map<StepId, Step>, lo: int, ids: seq<StepId>)
  {
    forall k :: 0 <= k < |ids| ==> lo <= SequenceOf(steps, ids[k])
  }

  lemma SortedCons(steps: map<StepId, Step>, a: StepId, t: seq<StepId>)
    requires AtLeast(steps, SequenceOf(steps, a), t) && SortedBySequence(steps, t)
    ensures SortedBySequence(steps, [a] + t)
  {
    var r := [a] + t;
    forall i, j | 0 <= i < j < |r| ensures SequenceOf(steps, r[i]) <= SequenceOf(steps, r[j]) {
      assert r[j] == t[j - 1];
      if i > 0 {
        assert r[i] == t[i - 1];
      }
    }
  }

  lemma SortedTail(steps: map<StepId, Step>, s: seq<StepId>)
    requires s != [] && SortedBySequence(steps, s)
    ensures SortedBySequence(steps, s[1..]) && AtLeast(steps, SequenceOf(steps, s[0]), s[1..])
  {
    var t := s[1..];
    forall i, j | 0 <= i < j < |t| ensures SequenceOf(steps, t[i]) <= SequenceOf(steps, t[j]) {
      assert t[i] == s[i + 1] && t[j] == s[j + 1];
    }
    forall k | 0 <= k < |t| ensures SequenceOf(steps, s[0]) <= SequenceOf(steps, t[k]) {
      assert t[k] == s[k + 1];
    }
  }

  lemma {:induction false} InsertLowerBound(steps: map<StepId, Step>, x: StepId, sorted: seq<StepId>, lo: int)
    requires lo <= SequenceOf(steps, x) && AtLeast(steps, lo, sorted)
    ensures AtLeast(steps, lo, InsertBySequence(steps, x, sorted))
  {
    var r := InsertBySequence(steps, x, sorted);
    if sorted != [] && SequenceOf(steps, x) >= SequenceOf(steps, sorted[0]) {
      var tail := sorted[1..];
      assert AtLeast(steps, lo, tail) by {
        forall k | 0 <= k < |tail| ensures lo <= SequenceOf(steps, tail[k]) {
          assert tail[k] == sorted[k + 1];
        }
      }
      InsertLowerBound(steps, x, tail, lo);
      var t := InsertBySequence(steps, x, tail);
      assert r == [sorted[0]] + t;
      forall k | 0 <= k < |r| ensures lo <= SequenceOf(steps, r[k]) {
        if k > 0 {
          assert r[k] == t[k - 1];
        }
      }
    } else if sorted != [] {
      forall k | 0 <= k < |r| ensures lo <= SequenceOf(steps, r[k]) {
        if k > 0 {
          assert r[k] == sorted[k - 1];
        }
      }
    }
  }

  lemma {:induction false} InsertKeepsSorted(steps: map<StepId, Step>, x: StepId, sorted: seq<StepId>)
    requires SortedBySequence(steps, sorted)
    ensures SortedBySequence(steps, InsertBySequence(steps, x, sorted))
  {
    if sorted != [] {
      SortedTail(steps, sorted);
      var tail := sorted[1..];
      if SequenceOf(steps, x) >= SequenceOf(steps, sorted[0]) {
        InsertKeepsSorted(steps, x, tail);
        InsertLowerBound(steps, x, tail, SequenceOf(steps, sorted[0]));
        SortedCons(steps, sorted[0], InsertBySequence(steps, x, tail));
      } else {
        assert sorted == [sorted[0]] + tail;
        SortedCons(steps, sorted[0], tail);
        assert AtLeast(steps, SequenceOf(steps, x), sorted) by {
          forall k | 0 <= k < |sorted| ensures SequenceOf(steps, x) <= SequenceOf(steps, sorted[k]) {
            if k > 0 {
              assert sorted[k] == tail[k - 1];
            }
          }
        }
        SortedCons(steps, x, sorted);
      }
    }
  }

  /** The escalation order is non-decreasing in `sequence` and lists exactly
      the flow's steps. */
  lemma {:induction false} OrderBySequenceSorted(steps: map<StepId, Step>, ids: seq<StepId>)
    ensures SortedBySequence(steps, OrderBySequence(steps, ids))
    ensures multiset(OrderBySequence(steps, ids)) == multiset(ids)
    decreases |ids|
  {
    if ids != [] {
      OrderBySequenceSorted(steps, ids[..|ids| - 1]);
      InsertKeepsSorted(steps, ids[|ids| - 1], OrderBySequence(steps, ids[..|ids| - 1]));
    }
  }

  /** Inserting an id whose sequence is at least every listed one appends it. */
  lemma {:induction false} InsertLargestAppends(steps: map<StepId, Step>, x: StepId, sorted: seq<StepId>)
    requires forall k :: 0 <= k < |sorted| ==> SequenceOf(steps, sorted[k]) <= SequenceOf(steps, x)
    ensures InsertBySequence(steps, x, sorted) == sorted + [x]
  {
    if sorted != [] {
      InsertLargestAppends(steps, x, sorted[1..]);
      assert sorted == [sorted[0]] + sorted[1..];
    }
  }

  /** Dropping the last id keeps a list sorted, and that id is the largest. */
  lemma SortedInit(steps: map<StepId, Step>, init: seq<StepId>, x: StepId)
    requires SortedBySequence(steps, init + [x])
    ensures SortedBySequence(steps, init)
    ensures forall k :: 0 <= k < |init| ==> SequenceOf(steps, init[k]) <= SequenceOf(steps, x)
  {
    var ids := init + [x];
    forall k | 0 <= k < |init| ensures SequenceOf(steps, init[k]) <= SequenceOf(steps, x) {
      assert ids[k] == init[k] && ids[|init|] == x;
    }
    forall i, j | 0 <= i < j < |init| ensures SequenceOf(steps, init[i]) <= SequenceOf(steps, init[j]) {
      assert ids[i] == init[i] && ids[j] == init[j];
    }
  }

  /** The order is stable: a list already in `sequence` order comes back
      unchanged, ties included. */
  lemma {:induction false} OrderBySequenceOfSorted(steps: map<StepId, Step>, ids: seq<StepId>)
    requires SortedBySequence(steps, ids)
    ensures OrderBySequence(steps, ids) == ids
    decreases |ids|
  {
    if ids != [] {
      var init, x := ids[..|ids| - 1], ids[|ids| - 1];
      assert ids == init + [x];
      SortedInit(steps, init, x);
      OrderBySequenceOfSorted(steps, init);
      InsertLargestAppends(steps, x, init);
    }
  }

}
