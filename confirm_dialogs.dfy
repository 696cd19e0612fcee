/** The values both confirm-dialog hooks work with. A pending action is a
    callback; the model names it by an opaque token and passes the outcome
    of running it (resolved, or rejected with an error) to `HandleConfirm`. */
module ConfirmActions {
  datatype Action = Action(token: nat)

  datatype ActionOutcome = Resolved | Rejected(error: string)

  /** How `handleConfirm` ends for its caller: it returns, or it throws. */
  datatype Completion = Returned | Threw(error: string)
}

/** hooks/useConfirm.ts: a failing action keeps the dialog open with the
    action still pending, and its error is re-thrown. */
module UseConfirm {
  import opened Wrappers
  import opened ConfirmActions

  class ConfirmDialog {
    var isOpen: bool
    var isLoading: bool
    var pendingAction: Option<Action>

    /** Between calls the dialog is open exactly when an action waits, and
        nothing is loading. */
    ghost predicate Valid()
      reads this
    {
      (isOpen <==> pendingAction.Some?) && !isLoading
    }

    constructor ()
      ensures !isOpen && !isLoading && pendingAction == None
      ensures Valid()
    {
      isOpen := false;
      isLoading := false;
      pendingAction := None;
    }

    /** `confirm(action)`: remember the action and open the dialog. */
    method Confirm(action: Action)
      requires Valid()
      modifies this
      ensures pendingAction == Some(action) && isOpen && isLoading == old(isLoading)
      ensures Valid()
    {
      pendingAction := Some(action);
      isOpen := true;
    }

    /** `handleConfirm`: nothing without a pending action; otherwise run it.
        Success closes the dialog and clears the action; failure leaves both
        and re-throws the error. Loading is over on either path. */
    method HandleConfirm(outcome: ActionOutcome) returns (completion: Completion)
      requires Valid()
      modifies this
      ensures old(pendingAction).None? ==>
                completion == Returned && isOpen == old(isOpen) && pendingAction == old(pendingAction) &&
                isLoading == old(isLoading)
      ensures old(pendingAction).Some? && outcome.Resolved? ==>
                completion == Returned && !isOpen && pendingAction == None
      ensures old(pendingAction).Some? && outcome.Rejected? ==>
                completion == Threw(outcome.error) && isOpen == old(isOpen) && pendingAction == old(pendingAction)
      ensures !isLoading
      ensures Valid()
    {
      if pendingAction.None? {
        return Returned;
      }
      isLoading := true;
      match outcome {
        case Resolved =>
          isOpen := false;
          pendingAction := None;
          completion := Returned;
        case Rejected(error) =>
          completion := Threw(error);
      }
      isLoading := false;
    }

    /** `handleCancel`: close the dialog and drop the action. */
    method HandleCancel()
      requires Valid()
      modifies this
      ensures !isOpen && pendingAction == None && isLoading == old(isLoading)
      ensures Valid()
    {
      isOpen := false;
      pendingAction := None;
    }
  }
}

/** hooks/use-confirm.ts: whatever the action does, the dialog closes and
    the action is dropped; an error still reaches the caller. */
module UseConfirmClosing {
  import opened Wrappers
  import opened ConfirmActions

  class ConfirmDialog {
    var isOpen: bool
    var isLoading: bool
    var pendingAction: Option<Action>

    /** Between calls the dialog is open exactly when an action waits, and
        nothing is loading. */
    ghost predicate Valid()
      reads this
    {
      (isOpen <==> pendingAction.Some?) && !isLoading
    }

    constructor ()
      ensures !isOpen && !isLoading && pendingAction == None
      ensures Valid()
    {
      isOpen := false;
      isLoading := false;
      pendingAction := None;
    }

    /** `confirm(action)`: remember the action and open the dialog. */
    method Confirm(action: Action)
      requires Valid()
      modifies this
      ensures pendingAction == Some(action) && isOpen && isLoading == old(isLoading)
      ensures Valid()
    {
      pendingAction := Some(action);
      isOpen := true;
    }

    /** `handleConfirm`: nothing without a pending action; otherwise run it,
        and in the `finally` block close the dialog and clear the action
        whether it resolved or threw. The error is not caught. */
    method HandleConfirm(outcome: ActionOutcome) returns (completion: Completion)
      requires Valid()
      modifies this
      ensures old(pendingAction).None? ==>
                completion == Returned && isOpen == old(isOpen) && pendingAction == old(pendingAction) &&
                isLoading == old(isLoading)
      ensures old(pendingAction).Some? ==> !isOpen && pendingAction == None
      ensures old(pendingAction).Some? ==>
                completion == (if outcome.Resolved? then Returned else Threw(outcome.error))
      ensures !isLoading
      ensures Valid()
    {
      if pendingAction.None? {
        return Returned;
      }
      isLoading := true;
      completion := if outcome.Rejected? then Threw(outcome.error) else Returned;
      isLoading := false;
      isOpen := false;
      pendingAction := None;
    }

    /** `handleCancel`: close the dialog and drop the action. */
    method HandleCancel()
      requires Valid()
      modifies this
      ensures !isOpen && pendingAction == None && isLoading == old(isLoading)
      ensures Valid()
    {
      isOpen := false;
      pendingAction := None;
    }
  }
}
