/**
  The records the dashboard exchanges with its backend (src/types/index.ts).

  Dates stay the strings the backend sends (parsing them is not modelled);
  amounts and counts are `int`.
*/
module Types {
  import opened Wrappers

  /** A customer account. `isActive == false` means the account is suspended. */
  datatype User = User(
    id: string,
    firstName: string,
    lastName: string,
    email: string,
    phone: string,
    isActive: bool,
    createdAt: string)

  /** The customer's details, copied into the booking (not a reference to a `User`). */
  datatype Customer = Customer(firstName: string, lastName: string, email: string, phone: string)

  /** The trip's own lifecycle status: `'PENDING' | 'COMPLETED' | 'CANCELLED'`. */
  datatype BookingStatus = Pending | Completed | Cancelled

  /** `'PAID' | 'UNPAID'`. */
  datatype PaymentStatus = Paid | Unpaid

  /** One reserved trip. `cancellationStatus` is any string or `null`; it is not an enumeration. */
  datatype Booking = Booking(
    bookingId: string,
    customer: Customer,
    tripDateTime: string,
    createdAt: string,
    status: BookingStatus,
    cancellationStatus: Option<string>,
    paymentStatus: PaymentStatus,
    departureLocation: string,
    destinationLocation: string,
    flightNumber: string,
    driverLanguage: string,
    vehicleType: string,
    distance: int,
    time: int,
    passengers: int,
    bags: int,
    pets: int,
    wheelchair: bool,
    boosterSeat: bool,
    childSeat: bool,
    strollers: int,
    welcomeSign: bool,
    specificLanguage: bool,
    specialInstructions: string,
    cancellationReason: Option<string>,
    totalPrice: int,
    languageFee: int,
    welcomeSignFee: int,
    refundedAmount: int,
    paymentMethod: string)

  /** The string a status travels as. */
  function StatusText(s: BookingStatus): (r: string)
    ensures r == "PENDING" || r == "COMPLETED" || r == "CANCELLED"
  {
    match s
    case Pending => "PENDING"
    case Completed => "COMPLETED"
    case Cancelled => "CANCELLED"
  }

  /** Distinct statuses travel as distinct strings. */
  lemma StatusTextInjective(s: BookingStatus, t: BookingStatus)
    ensures StatusText(s) == StatusText(t) <==> s == t
  {
  }

  /** The string a payment status travels as. */
  function PaymentText(p: PaymentStatus): (r: string)
    ensures r == "PAID" || r == "UNPAID"
    ensures p == Paid <==> r == "PAID"
  {
    match p
    case Paid => "PAID"
    case Unpaid => "UNPAID"
  }

  /** The status badge of the users table: active accounts read "Actif", suspended ones "Suspendu". */
  function ActivityLabel(u: User): (r: string)
    ensures r == "Actif" <==> u.isActive
    ensures r == "Suspendu" <==> !u.isActive
  {
    if u.isActive then "Actif" else "Suspendu"
  }
}
