/** Shared vocabulary of the approval engine: record identifiers, the
    Option/Result wrappers used for Python's falsy values and raised
    exceptions, and the reasons an operation raises. */
module Base {

  type UserId = int
  type GroupId = int
  type StepId = int
  type FlowId = int
  type ActionId = int
  type JobId = int
  type EmployeeId = int
  type BranchId = int

  datatype Option<+T> = None | Some(value: T)

  /** Why an operation raised.  Every raise of the engine rolls back the
      whole transaction, so an `Err` always means "no visible change". */
  datatype Error =
    | NoActionType            // process_action without an action type
    | UnknownAction           // no global action with that code
    | BadState                // approve/reject on an approved request
    | NoCurrentStep
    | NotAuthorized           // acting user is not a current approver
    | NoStepAction            // current step has no step-action for the code
    | EmptyCommittee          // committee step whose role has no users
    | NoRequestedFor          // employee routing without a requested-for user
    | NoInitiator             // amend on a flow without an initiator step
    | NoToEmployeeAction
    | NoToEmployeeNext
    | StepActionHasNoName     // `a.name` on a step action raises AttributeError
    | NoNextFromInitiator
    | MissingGlobalAction(code: string)
    | WorkflowLoop(step: StepId)
    | NoMatchingCondition(step: StepId)
    | NoOrgApprover           // no later organization step to escalate to
    | MissingDelegation
    | NoStaticApprover
    | StepNotInFlow           // `flow_steps.index(step)` raises ValueError
    | RecordUnreadable        // reading `write_uid` on the target raised

  datatype Result<+T> = Ok(value: T) | Err(error: Error) {
    predicate IsFailure() { Err? }
    function PropagateFailure<U>(): Result<U>
      requires Err?
    {
      Err(error)
    }
    function Extract(): T
      requires Ok?
    {
      value
    }
  }

  /** Sequence concatenation is associative (stated once, for the proofs
      that rebuild a sequence piece by piece). */
  lemma ConcatAssoc<T>(a: seq<T>, b: seq<T>, c: seq<T>)
    ensures (a + b) + c == a + (b + c)
  {
  }
}
