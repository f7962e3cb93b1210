/**
  The bookings table (src/app/trip-table.tsx): an empty state for an empty list,
  one row per booking with a case-sensitive status badge and a pending
  cancellation badge, and one e-mail modal shared by all rows.
*/
module TripTable {
  import opened Wrappers
  import opened Text
  import opened Types
  import opened EmailDialog
  import opened TripDetails

  /** The row's status badge text: compared as it is, without upper-casing. */
  function TableStatusLabel(status: string): (r: string)
    ensures status == "COMPLETED" ==> r == "Terminé"
    ensures status == "PENDING" ==> r == "En attente"
    ensures status == "CANCELLED" ==> r == "Annulé"
    ensures status !in {"COMPLETED", "PENDING", "CANCELLED"} ==> r == status
  {
    if status == "COMPLETED" then "Terminé"
    else if status == "PENDING" then "En attente"
    else if status == "CANCELLED" then "Annulé"
    else status
  }

  /** The row's status badge colour: green for COMPLETED, yellow for PENDING, red otherwise. */
  function TableStatusTone(status: string): (r: Tone)
    ensures r == Green <==> status == "COMPLETED"
    ensures r == Yellow <==> status == "PENDING"
    ensures r in {Green, Yellow, Red}
  {
    if status == "COMPLETED" then Green
    else if status == "PENDING" then Yellow
    else Red
  }

  /** For the statuses the `Booking` type allows, the table and the details modal show the same
      text. */
  lemma LabelsAgreeOnTypedStatus(s: BookingStatus)
    ensures TableStatusLabel(StatusText(s)) == DetailStatusLabel(StatusText(s))
  {
    UpperIdentityOnStatus(s);
  }

  /** On a lower-case status the two badges disagree: the table shows the raw text. */
  lemma LabelsDisagreeOnLowerCase()
    ensures TableStatusLabel("completed") == "completed"
    ensures DetailStatusLabel("completed") == "Terminé"
  {
    assert "completed"[0] != "COMPLETED"[0];
    UpperCompleted();
  }

  lemma UpperCompleted()
    ensures ToUpper("completed") == "COMPLETED"
  {
  }

  /** A pending trip is yellow in the table and orange in the details modal. */
  lemma PendingTonesDiffer(b: Booking)
    requires b.status == Pending
    ensures TableStatusTone(StatusText(b.status)) == Yellow
    ensures DetailStatusTone(StatusText(b.status)) == Orange
  {
    UpperIdentityOnStatus(b.status);
  }

  /** What one row shows besides the booking's own fields. */
  datatype RowView = RowView(bookingId: string, statusLabel: string, statusTone: Tone, cancellationBadge: bool)

  datatype TableView = EmptyState | Rows(rows: seq<RowView>)

  /** The row of one booking: its id, the table's status label and colour, and whether the
      cancellation badge shows. */
  function Row(b: Booking): RowView {
    RowView(b.bookingId, TableStatusLabel(StatusText(b.status)), TableStatusTone(StatusText(b.status)),
            CancellationPending(b.cancellationStatus))
  }

  /** The component's output: the empty-state message for no bookings, otherwise one row per
      booking in the given order, with the "Annulation en attente" badge exactly on the bookings
      whose cancellation is pending. */
  function View(bookings: seq<Booking>): (r: TableView)
    ensures r.EmptyState? <==> bookings == []
    ensures r.Rows? ==> |r.rows| == |bookings|
    ensures r.Rows? ==> forall i :: 0 <= i < |bookings| ==> r.rows[i] == Row(bookings[i])
    ensures r.Rows? ==> forall i :: 0 <= i < |bookings| ==> r.rows[i].bookingId == bookings[i].bookingId
    ensures r.Rows? ==> forall i :: 0 <= i < |bookings| ==>
      (r.rows[i].cancellationBadge <==> bookings[i].cancellationStatus == Some("PENDING"))
  {
    if bookings == [] then EmptyState
    else Rows(seq(|bookings|, i requires 0 <= i < |bookings| => Row(bookings[i])))
  }

  /** The booking ids of the list are pairwise distinct (they are the rows' React keys). */
  predicate UniqueIds(bookings: seq<Booking>) {
    forall i, j :: 0 <= i < |bookings| && 0 <= j < |bookings| && bookings[i].bookingId == bookings[j].bookingId ==> i == j
  }

  /** The row `rowId`'s e-mail dialog is shown: the shared modal is open for that booking id. */
  predicate RowDialogOpen(m: EmailModal, rowId: string)
    reads m
  {
    m.open && m.booking.Some? && m.booking.value.bookingId == rowId
  }

  /** With distinct ids, the shared modal shows in at most one row. */
  lemma AtMostOneRowDialog(m: EmailModal, bookings: seq<Booking>, i: int, j: int)
    requires UniqueIds(bookings)
    requires 0 <= i < |bookings| && 0 <= j < |bookings|
    requires RowDialogOpen(m, bookings[i].bookingId) && RowDialogOpen(m, bookings[j].bookingId)
    ensures i == j
  {
  }

  class TripTable {
    /** The `bookings` prop. */
    var bookings: seq<Booking>
    const email: EmailModal

    constructor (bookings: seq<Booking>)
      ensures this.bookings == bookings
      ensures fresh(email) && email.Valid() && !email.open && !email.isSending
    {
      this.bookings := bookings;
      email := new EmailModal();
    }

    /** "Envoyer un email" in row `i`; `tripDate` is that trip's date in the browser's locale. With
        distinct ids, row `i` is then the only row whose dialog is shown. */
    method OpenEmailFor(i: nat, tripDate: string)
      requires i < |bookings|
      modifies email
      ensures email.Valid()
      ensures RowDialogOpen(email, bookings[i].bookingId)
      ensures email.booking == Some(bookings[i])
      ensures UniqueIds(bookings) ==> forall j :: 0 <= j < |bookings| && RowDialogOpen(email, bookings[j].bookingId) ==> j == i
      ensures email.subject == PrefillSubject(bookings[i])
      ensures email.message == PrefillMessage(bookings[i], tripDate)
      ensures email.isSending == old(email.isSending)
    {
      email.OpenFor(bookings[i], tripDate);
    }

    /** "Voir les détails" in row `i`: the booking handed to `onViewDetails`. */
    method ViewDetails(i: nat) returns (selected: Booking)
      requires i < |bookings|
      ensures selected == bookings[i]
    {
      selected := bookings[i];
    }
  }
}
