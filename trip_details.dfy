/**
  The booking details modal (src/app/trips/tripdetails.tsx): which actions it
  offers for a booking, its display mappings (status, cancellation status,
  payment status, subtotal), the approval handler it gives the approval dialog,
  and the open/close flags of its two dialogs and its e-mail modal.
*/
module TripDetails {
  import opened Wrappers
  import opened Text
  import opened Types
  import opened EmailDialog

  /** The `action` field of a handle-cancellation request. */
  datatype Decision = Approve | Reject

  function DecisionText(d: Decision): (r: string)
    ensures r == "APPROVE" <==> d == Approve
  {
    match d
    case Approve => "APPROVE"
    case Reject => "REJECT"
  }

  /** The body of `POST /bookings/admin/{bookingId}/handle-cancellation`, with the booking it is
      sent for. `comments == None` is an `undefined` comment, which the JSON body leaves out. */
  datatype CancellationRequest = CancellationRequest(
    bookingId: string,
    action: Decision,
    refundAmount: int,
    comments: Option<string>)

  /** `cancellationStatus === "PENDING"`: exact and case-sensitive; `null` is not pending. */
  predicate CancellationPending(cancellationStatus: Option<string>) {
    cancellationStatus == Some("PENDING")
  }

  /** `selectedBooking?.cancellationStatus === "PENDING"`: false while no booking is selected. */
  predicate SelectedPending(selected: Option<Booking>) {
    selected.Some? && CancellationPending(selected.value.cancellationStatus)
  }

  /** The buttons at the bottom of the modal. */
  datatype DetailAction = ApproveCancellation | RejectCancellation | SendTripInfo

  /** The buttons shown for the selected booking (none while no booking is selected). */
  function OfferedActions(selected: Option<Booking>): (r: set<DetailAction>)
    ensures selected.None? ==> r == {}
    ensures selected.Some? ==> SendTripInfo in r
    ensures ApproveCancellation in r <==> SelectedPending(selected)
    ensures RejectCancellation in r <==> SelectedPending(selected)
  {
    if selected.None? then {}
    else if CancellationPending(selected.value.cancellationStatus) then
      {ApproveCancellation, RejectCancellation, SendTripInfo}
    else
      {SendTripInfo}
  }

  /** The gating reads only `cancellationStatus`: the trip's own status, even COMPLETED or
      CANCELLED, changes nothing. */
  lemma GatingIgnoresTripStatus(b: Booking, s: BookingStatus)
    ensures OfferedActions(Some(b.(status := s))) == OfferedActions(Some(b))
  {
  }

  /** The status badge of the modal; the status is upper-cased before the comparison. */
  function DetailStatusLabel(status: string): (r: string)
    ensures ToUpper(status) == "COMPLETED" ==> r == "Terminé"
    ensures ToUpper(status) == "PENDING" ==> r == "En attente"
    ensures ToUpper(status) == "CANCELLED" ==> r == "Annulé"
    ensures ToUpper(status) !in {"COMPLETED", "PENDING", "CANCELLED"} ==> r == status
  {
    var upper := ToUpper(status);
    if upper == "COMPLETED" then "Terminé"
    else if upper == "PENDING" then "En attente"
    else if upper == "CANCELLED" then "Annulé"
    else status
  }

  /** The colours of the badges. */
  datatype Tone = Green | Orange | Yellow | Red

  /** The status badge's colour: green for COMPLETED, orange for PENDING, red otherwise. */
  function DetailStatusTone(status: string): (r: Tone)
    ensures r == Green <==> ToUpper(status) == "COMPLETED"
    ensures r == Orange <==> ToUpper(status) == "PENDING"
    ensures r in {Green, Orange, Red}
  {
    var upper := ToUpper(status);
    if upper == "COMPLETED" then Green
    else if upper == "PENDING" then Orange
    else Red
  }

  /** For the statuses the `Booking` type allows, badge text and colour go together. */
  lemma TypedStatusBadge(s: BookingStatus)
    ensures s == Completed ==> DetailStatusLabel(StatusText(s)) == "Terminé" && DetailStatusTone(StatusText(s)) == Green
    ensures s == Pending ==> DetailStatusLabel(StatusText(s)) == "En attente" && DetailStatusTone(StatusText(s)) == Orange
    ensures s == Cancelled ==> DetailStatusLabel(StatusText(s)) == "Annulé" && DetailStatusTone(StatusText(s)) == Red
  {
    UpperIdentityOnStatus(s);
  }

  /** Status texts are already upper case. */
  lemma UpperIdentityOnStatus(s: BookingStatus)
    ensures ToUpper(StatusText(s)) == StatusText(s)
  {
    var t := StatusText(s);
    assert forall i :: 0 <= i < |t| ==> 'A' <= t[i] <= 'Z';
  }

  /** The cancellation status line: "PENDING" reads "En attente", `null` and "" read "Aucun", any
      other value is shown as it is. */
  function CancellationLabel(cancellationStatus: Option<string>): (r: string)
    ensures CancellationPending(cancellationStatus) ==> r == "En attente"
    ensures cancellationStatus.None? || cancellationStatus == Some("") ==> r == "Aucun"
    ensures cancellationStatus.Some? && cancellationStatus.value !in {"PENDING", ""} ==> r == cancellationStatus.value
  {
    if CancellationPending(cancellationStatus) then "En attente"
    else if cancellationStatus.None? || cancellationStatus.value == "" then "Aucun"
    else cancellationStatus.value
  }

  /** The payment status line as written: it compares with lower-case 'paid'. */
  function PaymentLabelAsWritten(paymentStatus: string): string {
    if paymentStatus == "paid" then "Payé" else "En attente"
  }

  /** With the values the `Booking` type allows, the line as written never reads "Payé". */
  lemma PaidBookingDisplaysPending(b: Booking)
    requires b.paymentStatus == Paid
    ensures PaymentLabelAsWritten(PaymentText(b.paymentStatus)) == "En attente"
  {
    assert PaymentText(b.paymentStatus) == "PAID";
    assert "PAID"[0] != "paid"[0];
  }

  /** The payment status line as evidently intended: paid bookings read "Payé". */
  function PaymentLabel(p: PaymentStatus): (r: string)
    ensures r == "Payé" <==> p == Paid
    ensures r == "En attente" <==> p == Unpaid
  {
    match p
    case Paid => "Payé"
    case Unpaid => "En attente"
  }

  /** The "SubTotal" line: the total without the driver-language and welcome-sign fees. On integer
      amounts `fee || 0` is the fee itself. */
  function Subtotal(b: Booking): (r: int)
    ensures r + b.languageFee + b.welcomeSignFee == b.totalPrice
    ensures b.languageFee >= 0 && b.welcomeSignFee >= 0 ==> r <= b.totalPrice
  {
    b.totalPrice - b.languageFee - b.welcomeSignFee
  }

  /** The request `handleApprovalConfirm(refundAmount, comment)` sends: none without a selected
      booking. */
  function ApprovalRequestFor(selected: Option<Booking>, refundAmount: int, comment: Option<string>): (r: Option<CancellationRequest>)
    ensures r.Some? <==> selected.Some?
    ensures r.Some? ==> r.value.bookingId == selected.value.bookingId && r.value.action == Approve
    ensures r.Some? ==> r.value.refundAmount == refundAmount && r.value.comments == comment
  {
    if selected.Some? then Some(CancellationRequest(selected.value.bookingId, Approve, refundAmount, comment))
    else None
  }

  /** `undefined === undefined`: the booking id of an optional booking. */
  function BookingIdOf(b: Option<Booking>): Option<string> {
    if b.Some? then Some(b.value.bookingId) else None
  }

  class TripDetails {
    /** The `selectedBooking` prop. */
    var selectedBooking: Option<Booking>
    /** Whether the approval dialog is open. */
    var approval: bool
    /** Whether the rejection dialog is open. */
    var rejected: bool
    const email: EmailModal

    constructor (selected: Option<Booking>)
      ensures selectedBooking == selected && !approval && !rejected
      ensures fresh(email) && email.Valid() && !email.open && !email.isSending
    {
      selectedBooking := selected;
      approval := false;
      rejected := false;
      email := new EmailModal();
    }

    /** The e-mail modal of this view is shown when it is open for the selected booking. */
    predicate EmailDialogOpen()
      reads this, email
    {
      email.open && BookingIdOf(email.booking) == BookingIdOf(selectedBooking)
    }

    /** The parent selects another booking (or none). */
    method Select(selected: Option<Booking>)
      modifies this`selectedBooking
      ensures selectedBooking == selected
    {
      selectedBooking := selected;
    }

    /** A click on one of the offered buttons. `tripDate` is the trip date in the browser's locale. */
    method Click(action: DetailAction, tripDate: string)
      requires action in OfferedActions(selectedBooking)
      modifies this, email
      ensures selectedBooking == old(selectedBooking)
      ensures action == ApproveCancellation ==> approval && rejected == old(rejected) && unchanged(email)
      ensures action == RejectCancellation ==> rejected && approval == old(approval) && unchanged(email)
      ensures action == SendTripInfo ==> approval == old(approval) && rejected == old(rejected)
      ensures action == SendTripInfo ==> EmailDialogOpen() && email.Valid()
      ensures action == SendTripInfo ==> email.booking == Some(selectedBooking.value) && email.isSending == old(email.isSending)
      ensures action == SendTripInfo ==> email.subject == PrefillSubject(selectedBooking.value)
      ensures action == SendTripInfo ==> email.message == PrefillMessage(selectedBooking.value, tripDate)
    {
      match action
      case ApproveCancellation => approval := true;
      case RejectCancellation => rejected := true;
      case SendTripInfo => email.OpenFor(selectedBooking.value, tripDate);
    }

    /** `handleApprovalClose`. */
    method HandleApprovalClose()
      modifies this`approval
      ensures !approval
    {
      approval := false;
    }

    /** `handleRejectionClose`. */
    method HandleRejectionClose()
      modifies this`rejected
      ensures !rejected
    {
      rejected := false;
    }

    /** `handleApprovalConfirm(refundAmount, comment)` up to its `await`: the approval it posts for
        the selected booking. Nothing changes yet, so the approval dialog stays open while the
        post is in flight. */
    method BeginApprovalConfirm(refundAmount: int, comment: Option<string>)
      returns (request: Option<CancellationRequest>)
      ensures request == ApprovalRequestFor(selectedBooking, refundAmount, comment)
    {
      request := ApprovalRequestFor(selectedBooking, refundAmount, comment);
    }

    /** The `finally` of `handleApprovalConfirm`, once the post has settled either way (the outcome
        only chooses the toast): the approval dialog closes, as `handleApprovalClose` does. */
    method FinishApprovalConfirm()
      modifies this`approval
      ensures !approval
    {
      HandleApprovalClose();
    }
  }
}
