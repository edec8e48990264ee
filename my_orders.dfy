/**
  The vendor's order list: loading it, cancelling an order, the
  three-hour confirmation rule and the status or action each card shows.
  Source: screens/MyOrdersScreen.js.
 */
module MyOrders {
  import opened Js
  import opened Records

  const CancelledStatus := "Cancelled"
  const OngoingStatus := "Ongoing"
  const HourMs := 3600000
  const ConfirmationHours := 3

  // ---------------------------------------------------------------------
  // Cancelling one order in the list (lines 56-60)

  /** `orders.map(o => o._id === id ? { ...o, status: 'Cancelled' } : o)`. */
  function CancelInList(orders: seq<Booking>, id: string): (r: seq<Booking>)
    ensures |r| == |orders|
    ensures forall i :: 0 <= i < |orders| ==>
      r[i].(status := orders[i].status) == orders[i] &&
      (r[i].status == CancelledStatus || r[i].status == orders[i].status)
  {
    seq(|orders|, i requires 0 <= i < |orders| =>
      if orders[i].id == id then orders[i].(status := CancelledStatus) else orders[i])
  }

  /** Exactly the orders carrying the id become 'Cancelled'; every other order is left as it was. */
  lemma CancelTouchesOnlyMatching(orders: seq<Booking>, id: string, i: int)
    requires 0 <= i < |orders|
    ensures orders[i].id == id ==> CancelInList(orders, id)[i].status == CancelledStatus
    ensures orders[i].id != id ==> CancelInList(orders, id)[i] == orders[i]
  {
  }

  lemma CancelIdempotent(orders: seq<Booking>, id: string)
    ensures CancelInList(CancelInList(orders, id), id) == CancelInList(orders, id)
  {
    var once := CancelInList(orders, id);
    var twice := CancelInList(once, id);
    forall i | 0 <= i < |orders| ensures twice[i] == once[i] {
      CancelTouchesOnlyMatching(orders, id, i);
      CancelTouchesOnlyMatching(once, id, i);
    }
  }

  // ---------------------------------------------------------------------
  // The confirmation rule (lines 71-76)

  /**
    `bookingTime.diff(now, 'hours') <= 3`, where moment truncates the hour
    count toward zero; an unparsable date gives NaN and the test fails.
   */
  function IsBookingConfirmed(dateMs: Option<int>, nowMs: int): bool {
    dateMs.Some? && TruncDiv(dateMs.value - nowMs, HourMs) <= ConfirmationHours
  }

  /** Because the hours are truncated, a booking counts as confirmed while it is less than four full hours away. */
  lemma ConfirmedWithinFourHours(dateMs: Option<int>, nowMs: int)
    ensures IsBookingConfirmed(dateMs, nowMs) <==>
      dateMs.Some? && dateMs.value < nowMs + (ConfirmationHours + 1) * HourMs
  {
    if dateMs.Some? {
      TruncDivAtMost(dateMs.value - nowMs, HourMs, ConfirmationHours);
    }
  }

  // ---------------------------------------------------------------------
  // What each card shows (lines 112-129)

  datatype CardAction = ConfirmedLabel | CancelledLabel | CancelButton

  /** As written: `confirmed && status !== 'Cancelled' || status !== 'Ongoing'`, `&&` binding tighter. */
  function CardActionAsWritten(confirmed: bool, status: string): CardAction {
    if (confirmed && status != CancelledStatus) || status != OngoingStatus then ConfirmedLabel
    else if status == CancelledStatus then CancelledLabel
    else CancelButton
  }

  /**
    As written, "Order Cancelled" is never shown (a cancelled order shows
    "Confirmed Order"), and the cancel button shows exactly for an
    'Ongoing' order that is not yet confirmed.
   */
  lemma CancelledLabelUnreachable(confirmed: bool, status: string)
    ensures CardActionAsWritten(confirmed, status) != CancelledLabel
    ensures CardActionAsWritten(confirmed, CancelledStatus) == ConfirmedLabel
    ensures CardActionAsWritten(confirmed, status) == CancelButton <==> status == OngoingStatus && !confirmed
  {
  }

  /** As intended: a cancelled order shows "Order Cancelled" before anything else is considered. */
  function CardActionIntended(confirmed: bool, status: string): CardAction {
    if status == CancelledStatus then CancelledLabel
    else if confirmed || status != OngoingStatus then ConfirmedLabel
    else CancelButton
  }

  /** The corrected choice shows "Order Cancelled" exactly for cancelled orders and otherwise agrees with the code. */
  lemma CardActionIntendedMeaning(confirmed: bool, status: string)
    ensures CardActionIntended(confirmed, status) == CancelledLabel <==> status == CancelledStatus
    ensures CardActionIntended(confirmed, status) == CancelButton <==> status == OngoingStatus && !confirmed
    ensures status != CancelledStatus ==> CardActionIntended(confirmed, status) == CardActionAsWritten(confirmed, status)
  {
  }

  /** A successful cancel turns the card's cancel button into the "Order Cancelled" label. */
  lemma CancelShowsCancelledLabel(orders: seq<Booking>, id: string, i: int, nowMs: int)
    requires 0 <= i < |orders| && orders[i].id == id
    ensures var o := CancelInList(orders, id)[i];
      CardActionIntended(IsBookingConfirmed(o.dateMs, nowMs), o.status) == CancelledLabel
  {
    CancelTouchesOnlyMatching(orders, id, i);
  }

  // ---------------------------------------------------------------------
  // The screen

  class MyOrdersScreen {
    var orders: seq<Booking>
    var loading: bool
    var chefId: Option<string>

    constructor ()
      ensures orders == [] && loading && chefId == None
    {
      orders, loading, chefId := [], true, None;
    }

    /**
      `fetchOrders` on focus: with a stored user the chef id is kept and the
      orders replaced when the fetch succeeds (`fetched` is Some exactly
      when `success`); `loading` is cleared in every case.
     */
    method FetchOrders(storedUser: Option<User>, fetched: Reply<Option<seq<Booking>>>)
      modifies this`orders, this`loading, this`chefId
      ensures !loading
      ensures chefId == (if storedUser.Some? then Some(storedUser.value.id) else old(chefId))
      ensures orders == (if storedUser.Some? && fetched.Returned? && fetched.value.Some?
                         then fetched.value.value else old(orders))
    {
      loading := true;
      if storedUser.Some? {
        chefId := Some(storedUser.value.id);
        if fetched.Returned? && fetched.value.Some? {
          orders := fetched.value.value;
        }
      }
      loading := false;
    }

    /** `handleCancelOrder`: only a reply with `success` changes the list. */
    method HandleCancelOrder(id: string, reply: Reply<bool>) returns (cancelled: bool)
      modifies this`orders
      ensures cancelled <==> reply == Returned(true)
      ensures orders == (if cancelled then CancelInList(old(orders), id) else old(orders))
    {
      cancelled := reply == Returned(true);
      if cancelled {
        orders := CancelInList(orders, id);
      }
    }
  }
}
