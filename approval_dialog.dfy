/**
  The refund dialog opened by "Approuver l'annulation" (src/app/trips/approval-dialog.tsx):
  a refund amount typed as text, a confirm guard, and the call into the owner's
  `handleApprovalConfirm`, which is declared with a comment parameter the dialog
  never passes.
*/
module ApprovalDialog {
  import opened Wrappers
  import opened Text
  import opened Types
  import opened TripDetails

  /** The guard of `handleConfirm`: a non-empty text whose `Number(...)` is a number that is not
      negative. NaN fails the comparison. */
  predicate Accepts(text: string, number: NumberParser) {
    text != "" && number(text).Some? && number(text).value >= 0
  }

  /** The confirm button's `disabled`: empty text, or a negative number. NaN is not `< 0`, so a text
      that is not a number leaves the button enabled although `handleConfirm` refuses it. */
  function ConfirmDisabled(text: string, number: NumberParser): (r: bool)
    ensures Accepts(text, number) ==> !r
    ensures !r && !Accepts(text, number) <==> text != "" && number(text).None?
    ensures text == "" ==> r
  {
    text == "" || (number(text).Some? && number(text).value < 0)
  }

  /** The request a click on the confirm button sends for the typed text: the owner's approval
      request with the parsed amount and no comment, or none when the guard refuses the text or
      no booking is selected. */
  function ConfirmRequest(selected: Option<Booking>, text: string, number: NumberParser): (r: Option<CancellationRequest>)
    ensures r.Some? <==> selected.Some? && Accepts(text, number)
    ensures r.Some? ==> r.value.bookingId == selected.value.bookingId && r.value.action == Approve
    ensures r.Some? ==> r.value.refundAmount == number(text).value && r.value.refundAmount >= 0
    ensures r.Some? ==> r.value.comments == None
  {
    if Accepts(text, number) then ApprovalRequestFor(selected, number(text).value, None) else None
  }

  /** The texts and colour that depend on the booking: the approval wording for a pending
      cancellation, the cancel-trip wording otherwise. */
  datatype Wording = Wording(title: string, prompt: string, confirmLabel: string, confirmTone: Tone)

  const ApprovalPrompt: string := "Enter the refund amount for this cancellation:"
  const CancelTripPrompt: string := "Enter the refund amount for canceling this trip:"

  function DialogWording(selected: Option<Booking>): (r: Wording)
    ensures r.title in {"Approve Cancellation", "Cancel Trip"}
    ensures r.title == "Approve Cancellation" <==> SelectedPending(selected)
    ensures r.prompt in {ApprovalPrompt, CancelTripPrompt}
    ensures r.prompt == ApprovalPrompt <==> SelectedPending(selected)
    ensures r.confirmLabel in {"Confirm Approval", "Confirm Cancellation"}
    ensures r.confirmLabel == "Confirm Approval" <==> SelectedPending(selected)
    ensures r.confirmTone in {Green, Red}
    ensures r.confirmTone == Green <==> SelectedPending(selected)
  {
    if SelectedPending(selected) then
      Wording("Approve Cancellation", ApprovalPrompt, "Confirm Approval", Green)
    else
      Wording("Cancel Trip", CancelTripPrompt, "Confirm Cancellation", Red)
  }

  /** The whole wording depends on the booking only through `cancellationStatus === "PENDING"`. */
  lemma WordingDependsOnlyOnPending(a: Option<Booking>, b: Option<Booking>)
    requires SelectedPending(a) == SelectedPending(b)
    ensures DialogWording(a) == DialogWording(b)
  {
  }

  /** The only button that opens the dialog is offered for pending cancellations, so the dialog
      opened from it shows the approval wording. */
  lemma OfferedApprovalShowsApprovalWording(selected: Option<Booking>)
    requires ApproveCancellation in OfferedActions(selected)
    ensures DialogWording(selected).title == "Approve Cancellation"
    ensures DialogWording(selected).confirmTone == Green
  {
  }

  class ApprovalDialog {
    /** The details view whose `handleApprovalClose` and `handleApprovalConfirm` are the dialog's
        `onClose` and `onConfirm`, and whose `selectedBooking` it shows. */
    const owner: TripDetails
    /** The text typed in the refund amount field. */
    var refundedAmount: string

    constructor (owner: TripDetails)
      ensures this.owner == owner && refundedAmount == ""
    {
      this.owner := owner;
      refundedAmount := "";
    }

    /** Typing in the refund amount field. */
    method EditAmount(text: string)
      modifies this`refundedAmount
      ensures refundedAmount == text
    {
      refundedAmount := text;
    }

    /** `handleCancel`: clear the field and close through the owner. */
    method HandleCancel()
      modifies this`refundedAmount, owner`approval
      ensures refundedAmount == "" && !owner.approval
    {
      refundedAmount := "";
      owner.HandleApprovalClose();
    }

    /** `handleConfirm`: when the guard accepts the text, `onConfirm(Number(text))` runs the
        owner's handler up to its `await`, which posts the request, and the field is cleared at
        once; the dialog closes only when the post settles (`TripDetails.FinishApprovalConfirm`).
        Meanwhile the cleared field disables the confirm button, so the request cannot be sent
        twice. When the guard refuses the text nothing happens. */
    method HandleConfirm(number: NumberParser) returns (request: Option<CancellationRequest>)
      modifies this`refundedAmount
      ensures request == ConfirmRequest(owner.selectedBooking, old(refundedAmount), number)
      ensures Accepts(old(refundedAmount), number) ==> refundedAmount == "" && ConfirmDisabled(refundedAmount, number)
      ensures !Accepts(old(refundedAmount), number) ==> refundedAmount == old(refundedAmount)
    {
      if refundedAmount != "" && number(refundedAmount).Some? && number(refundedAmount).value >= 0 {
        request := owner.BeginApprovalConfirm(number(refundedAmount).value, None);
        refundedAmount := "";
      } else {
        request := None;
      }
    }
  }
}
