/**
  The dialog opened by "Rejeter l'annulation" (src/app/trips/rejection-dialog.tsx): a
  comment of at most 500 characters, a validity test on it, and the rejection
  request it sends itself before closing through its owner.
*/
module RejectionDialog {
  import opened Wrappers
  import opened Text
  import opened Types
  import opened TripDetails

  /** The textarea's `maxLength`. */
  const MaxCommentLength: nat := 500

  /** `isFormValid`: the trimmed comment is not empty, which holds exactly when the comment has
      a character that is not white space. */
  function FormValid(comment: string): (r: bool)
    ensures r <==> exists i :: 0 <= i < |comment| && !IsWhitespace(comment[i])
  {
    Trim(comment) != []
  }

  /** The request `handleRejectionConfirm` sends: a rejection with refund 0 and the comment as
      typed (untrimmed), or none while no booking is selected. */
  function RejectionRequestFor(selected: Option<Booking>, comment: string): (r: Option<CancellationRequest>)
    ensures r.Some? <==> selected.Some?
    ensures r.Some? ==> r.value.bookingId == selected.value.bookingId && r.value.action == Reject
    ensures r.Some? ==> r.value.refundAmount == 0 && r.value.comments == Some(comment)
  {
    if selected.Some? then Some(CancellationRequest(selected.value.bookingId, Reject, 0, Some(comment)))
    else None
  }

  /** What the textarea keeps of a typed or pasted text: at most its first 500 characters. */
  function ClipComment(text: string): (r: string)
    ensures |r| <= MaxCommentLength
    ensures r <= text
    ensures |text| <= MaxCommentLength ==> r == text
    ensures |text| > MaxCommentLength ==> |r| == MaxCommentLength
  {
    if |text| <= MaxCommentLength then text else text[..MaxCommentLength]
  }

  /** The texts that depend on the booking. */
  function DialogTitle(selected: Option<Booking>): (r: string)
    ensures r in {"Review Cancellation Request", "Cancel Trip"}
    ensures r == "Review Cancellation Request" <==> SelectedPending(selected)
  {
    if SelectedPending(selected) then "Review Cancellation Request" else "Cancel Trip"
  }

  function ReasonLabel(selected: Option<Booking>): (r: string)
    ensures r in {"Decision Reason", "Cancellation Reason"}
    ensures r == "Decision Reason" <==> SelectedPending(selected)
  {
    if SelectedPending(selected) then "Decision Reason" else "Cancellation Reason"
  }

  class RejectionDialog {
    /** The details view whose `handleRejectionClose` is the dialog's `onClose`, and whose
        `selectedBooking` it shows. */
    const owner: TripDetails
    /** Cleared on cancel; the dialog has no field that sets it. */
    var refundedAmount: string
    var comment: string

    /** The comment never exceeds the textarea's limit. */
    ghost predicate Valid()
      reads this
    {
      |comment| <= MaxCommentLength
    }

    constructor (owner: TripDetails)
      ensures this.owner == owner && refundedAmount == "" && comment == ""
      ensures Valid()
    {
      this.owner := owner;
      refundedAmount := "";
      comment := "";
    }

    /** Typing or pasting into the textarea. */
    method EditComment(text: string)
      modifies this`comment
      ensures comment == ClipComment(text)
      ensures Valid()
    {
      comment := ClipComment(text);
    }

    /** The "n/500 characters" counter. */
    method CharacterCount() returns (n: nat)
      requires Valid()
      ensures n == |comment| && n <= MaxCommentLength
    {
      n := |comment|;
    }

    /** `handleCancel`: clear both fields and close through the owner. */
    method HandleCancel()
      modifies this`refundedAmount, this`comment, owner`rejected
      ensures refundedAmount == "" && comment == "" && !owner.rejected
      ensures Valid()
    {
      refundedAmount := "";
      comment := "";
      owner.HandleRejectionClose();
    }

    /** `handleRejectionConfirm` up to its `await`: the rejection it posts for the selected
        booking. The handler does not test `FormValid`; only the button's `disabled` does. Nothing
        changes until the post settles, so the dialog stays open with its comment and, while that
        comment is valid, a second click posts the same request again. */
    method BeginRejectionConfirm() returns (request: Option<CancellationRequest>)
      ensures request == RejectionRequestFor(owner.selectedBooking, comment)
    {
      request := RejectionRequestFor(owner.selectedBooking, comment);
    }

    /** The `finally` of `handleRejectionConfirm`, once the post has settled either way (the
        outcome only chooses the toast): the comment is cleared and the dialog closes. The amount
        field is left as it was. */
    method FinishRejectionConfirm()
      modifies this`comment, owner`rejected
      ensures comment == "" && !owner.rejected
      ensures Valid()
    {
      comment := "";
      owner.HandleRejectionClose();
    }
  }
}
