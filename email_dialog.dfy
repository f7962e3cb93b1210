/**
  The "send an e-mail to the customer" modal. Its state and handlers are written
  out twice in the source, identically, in src/app/trips/tripdetails.tsx and in
  src/app/trip-table.tsx; both are this one class.
*/
module EmailDialog {
  import opened Wrappers
  import opened Text
  import opened Types

  /** The body of `POST /bookings/admin/send-email`. */
  datatype EmailRequest = EmailRequest(subject: string, message: string, email: string)

  /** The fixed parts of the pre-filled texts. */
  const SubjectPrefix: string := "Trip Update - "
  const Greeting: string := "Dear "
  const MessageBody: string :=
    ",\n\nWe hope this message finds you well. We wanted to reach out regarding your upcoming trip scheduled for "
  const Signature: string := ".\n\nBest regards,\nYour Travel Team"

  /** The subject pre-filled when the modal opens. */
  function PrefillSubject(b: Booking): string {
    SubjectPrefix + b.departureLocation + " to " + b.destinationLocation
  }

  /** The message pre-filled when the modal opens; `tripDate` is the trip date rendered by
      `toLocaleDateString()`, which depends on the browser's locale. */
  function PrefillMessage(b: Booking, tripDate: string): string {
    Greeting + b.customer.firstName + " " + b.customer.lastName + MessageBody + tripDate + Signature
  }

  /** The send button's enabling condition, `!subject.trim() || !message.trim() || isSending`
      negated: both texts keep something once trimmed, which holds exactly when each has a
      character that is not white space. */
  function SendEnabled(subject: string, message: string, isSending: bool): (r: bool)
    ensures r <==> !AllWhitespace(subject) && !AllWhitespace(message) && !isSending
  {
    Trim(subject) != [] && Trim(message) != [] && !isSending
  }

  /** A pre-filled subject always lets the send button be enabled, whatever the locations are. */
  lemma PrefillSubjectNotBlank(b: Booking)
    ensures !IsBlank(PrefillSubject(b))
  {
    assert PrefillSubject(b)[0] == 'T';
  }

  class EmailModal {
    var open: bool
    var booking: Option<Booking>
    var subject: string
    var message: string
    var isSending: bool

    /** The modal is open exactly when it has a booking. */
    ghost predicate Valid()
      reads this
    {
      open <==> booking.Some?
    }

    constructor ()
      ensures Valid() && !open && booking == None && subject == "" && message == "" && !isSending
    {
      open := false;
      booking := None;
      subject := "";
      message := "";
      isSending := false;
    }

    /** `handleOpenEmailModal(booking)`; `isSending` is left as it was. */
    method OpenFor(b: Booking, tripDate: string)
      modifies this
      ensures Valid()
      ensures open && booking == Some(b)
      ensures subject == PrefillSubject(b) && message == PrefillMessage(b, tripDate)
      ensures isSending == old(isSending)
    {
      open := true;
      booking := Some(b);
      subject := PrefillSubject(b);
      message := PrefillMessage(b, tripDate);
    }

    /** `handleCloseEmailModal`: back to the initial state. */
    method Close()
      modifies this
      ensures Valid()
      ensures !open && booking == None && subject == "" && message == "" && !isSending
    {
      open := false;
      booking := None;
      subject := "";
      message := "";
      isSending := false;
    }

    /** Typing in the subject and message fields. */
    method Edit(subject: string, message: string)
      modifies this
      ensures this.subject == subject && this.message == message
      ensures open == old(open) && booking == old(booking) && isSending == old(isSending)
    {
      this.subject := subject;
      this.message := message;
    }

    /** `handleSendEmail` up to the `await`: without a booking nothing happens; otherwise the
        request is issued with `isSending` set. The handler itself does not test `SendEnabled`. */
    method BeginSend() returns (request: Option<EmailRequest>)
      modifies this
      ensures booking.None? ==> request == None && isSending == old(isSending)
      ensures booking.Some? ==> isSending && request == Some(EmailRequest(subject, message, booking.value.customer.email))
      ensures open == old(open) && booking == old(booking)
      ensures subject == old(subject) && message == old(message)
    {
      if booking.None? {
        request := None;
      } else {
        isSending := true;
        request := Some(EmailRequest(subject, message, booking.value.customer.email));
      }
    }

    /** `handleSendEmail` after the `await`: success closes the modal; failure keeps it as it is;
        `isSending` is cleared either way. */
    method FinishSend(outcome: Outcome)
      requires Valid()
      modifies this
      ensures Valid() && !isSending
      ensures outcome == Ok ==> !open && booking == None && subject == "" && message == ""
      ensures outcome == Err ==> open == old(open) && booking == old(booking)
      ensures outcome == Err ==> subject == old(subject) && message == old(message)
    {
      if outcome == Ok {
        Close();
      }
      isSending := false;
    }
  }
}
