/**
  The records the screens exchange with the server and keep in storage
  under the key 'user', and the navigation targets the handlers issue.
 */
module Records {
  import opened Js

  /** The account record the server returns and the app stores as 'user'. */
  datatype User = User(
    id: string,
    name: string,
    email: string,
    phone: string,
    role: string,
    kycStatus: string)

  /** The body of a register or login response: `success` and the account. */
  datatype AuthResponse = AuthResponse(success: bool, user: User)

  /** A booking as the booking endpoints return it. */
  datatype Booking = Booking(
    id: string,
    bookingNumber: string,
    eventType: string,
    status: string,
    dateMs: Option<int>,  // `new Date(date)`; None when the date does not parse
    price: int)

  /** Where a handler sends the user. */
  datatype Nav =
    | HomeTabs
    | OtpScreen(phoneNumber: string)
    | PendingAmount(amountDue: int)
    | GoBack
}
