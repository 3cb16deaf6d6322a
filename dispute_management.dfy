/**
 * The dispute management dialog: the colour of each status, the status changes
 * it offers, and the submit, comment and status-update handlers.
 */
module DisputeManagement {
  import opened Wrappers
  import opened Effects
  import opened TextUtil
  import opened RefundTypes

  datatype Colors = Colors(bg: string, text: string)

  /** `statusColors`: a badge colour for every status. */
  function StatusColors(s: DisputeStatus): Colors {
    match s
    case Open => Colors("bg-yellow-100", "text-yellow-800")
    case Investigating => Colors("bg-blue-100", "text-blue-800")
    case Resolved => Colors("bg-green-100", "text-green-800")
    case Rejected => Colors("bg-red-100", "text-red-800")
    case Escalated => Colors("bg-purple-100", "text-purple-800")
  }

  /** Distinct statuses get distinct badges. */
  lemma StatusColorsDistinct(s: DisputeStatus, t: DisputeStatus)
    ensures s != t ==> StatusColors(s).bg != StatusColors(t).bg
    ensures s != t ==> StatusColors(s).text != StatusColors(t).text
  {
  }

  /** The status buttons the dialog shows for a dispute in status `s`, in screen order. */
  function OfferedActions(s: DisputeStatus): seq<DisputeStatus> {
    match s
    case Open => [Investigating, Rejected]
    case Investigating => [Escalated, Resolved]
    case _ => []
  }

  /** How far along its life a dispute is. */
  function Stage(s: DisputeStatus): nat {
    match s
    case Open => 0
    case Investigating => 1
    case _ => 2
  }

  /**
   * Every offered change moves the dispute forward, so no status is offered
   * back to `open` and any run of updates through the dialog ends after at most
   * two; resolved, rejected and escalated offer nothing.
   */
  lemma OfferedActionsMoveForward(s: DisputeStatus, t: DisputeStatus)
    ensures t in OfferedActions(s) ==> Stage(t) > Stage(s) && t != Open
    ensures OfferedActions(s) == [] <==> s in {Resolved, Rejected, Escalated}
    ensures s == Open ==> (t in OfferedActions(s) <==> t == Investigating || t == Rejected)
    ensures s == Investigating ==> (t in OfferedActions(s) <==> t == Escalated || t == Resolved)
  {
  }

  const SubmitFailed := "Failed to create dispute"
  const CommentFailed := "Failed to add comment"
  const StatusFailed := "Failed to update status"

  /** A call the dialog makes to one of its callbacks. */
  datatype CommentCall = CommentCall(disputeId: string, comment: string)
  datatype StatusCall = StatusCall(disputeId: string, status: DisputeStatus)

  /** The dialog's state. */
  class DisputeDialog {
    const existingDispute: Option<Dispute>
    var newComment: string
    var error: Option<string>
    /** Set when the dialog asks its parent to close it. */
    var closeRequested: bool

    constructor (existingDispute: Option<Dispute>)
      ensures this.existingDispute == existingDispute
      ensures newComment == "" && error == None && !closeRequested
    {
      this.existingDispute := existingDispute;
      newComment := "";
      error := None;
      closeRequested := false;
    }

    /** `handleSubmit` of the create form, given how `onSubmitDispute` ended. */
    method HandleSubmit(outcome: Outcome)
      modifies this`closeRequested, this`error
      ensures outcome.Done? ==> closeRequested && error == old(error)
      ensures outcome.Threw? ==> closeRequested == old(closeRequested) && error == Some(ErrorText(outcome, SubmitFailed))
    {
      match outcome
      case Done => closeRequested := true;
      case Threw(_) => error := Some(ErrorText(outcome, SubmitFailed));
    }

    /**
     * `handleAddComment`, given how `onAddComment` would end: returns the call
     * made, if the guard lets one through.
     */
    method HandleAddComment(outcome: Outcome) returns (call: Option<CommentCall>)
      modifies this`newComment, this`error
      ensures var go := existingDispute.Some? && Trim(old(newComment)) != "";
        && (go <==> call.Some?)
        && (go ==> call.value == CommentCall(existingDispute.value.disputeId, old(newComment)))
        && (!go || outcome.Threw? ==> newComment == old(newComment))
        && (go && outcome.Done? ==> newComment == "" && error == None)
        && (go && outcome.Threw? ==> error == Some(ErrorText(outcome, CommentFailed)))
        && (!go ==> error == old(error))
    {
      if existingDispute.None? || Trim(newComment) == "" {
        return None;
      }
      call := Some(CommentCall(existingDispute.value.disputeId, newComment));
      match outcome
      case Done =>
        newComment := "";
        error := None;
      case Threw(_) =>
        error := Some(ErrorText(outcome, CommentFailed));
    }

    /**
     * `handleStatusUpdate`, given how `onUpdateStatus` would end. The dispute's
     * own status is not changed here; the parent supplies the updated dispute.
     */
    method HandleStatusUpdate(status: DisputeStatus, outcome: Outcome) returns (call: Option<StatusCall>)
      modifies this`error
      ensures existingDispute.None? ==> call == None && error == old(error)
      ensures existingDispute.Some? ==> call == Some(StatusCall(existingDispute.value.disputeId, status))
      ensures existingDispute.Some? && outcome.Done? ==> error == None
      ensures existingDispute.Some? && outcome.Threw? ==> error == Some(ErrorText(outcome, StatusFailed))
    {
      if existingDispute.None? {
        return None;
      }
      call := Some(StatusCall(existingDispute.value.disputeId, status));
      match outcome
      case Done => error := None;
      case Threw(_) => error := Some(ErrorText(outcome, StatusFailed));
    }
  }

  /** A draft made only of white space is never sent, whatever its length. */
  lemma BlankCommentIsNotSent(draft: string)
    requires forall i :: 0 <= i < |draft| ==> IsSpace(draft[i])
    ensures Trim(draft) == ""
    ensures Trim(draft + "ok") != ""
  {
    TrimEmptyIffBlank(draft);
    TrimEmptyIffBlank(draft + "ok");
    assert !IsSpace((draft + "ok")[|draft|]);
  }
}
