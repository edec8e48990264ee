/**
  The vendor home screen: loading the stored user, the KYC status, the
  latest accepted order and the open bookings with the locally rejected
  ones hidden; rejecting a booking; and what the screen shows.
  Source: screens/HomeScreen/HomeScreen.js and the `rejectBooking`
  wrapper of services/api.js.
 */
module Home {
  import opened Js
  import opened Records

  const PendingStatus := "Pending"

  // ---------------------------------------------------------------------
  // The rejected-booking filter

  /** `bookings.filter(b => !rejected.includes(b._id))`. */
  function VisibleBookings(fetched: seq<Booking>, rejected: seq<string>): (r: seq<Booking>)
    ensures |r| <= |fetched|
    decreases |fetched|
  {
    if fetched == [] then []
    else (if fetched[0].id in rejected then [] else [fetched[0]]) + VisibleBookings(fetched[1..], rejected)
  }

  /** A booking is shown exactly when it was fetched and its id is not rejected. */
  lemma {:induction false} VisibleBookingsMembers(fetched: seq<Booking>, rejected: seq<string>, b: Booking)
    ensures b in VisibleBookings(fetched, rejected) <==> b in fetched && b.id !in rejected
    decreases |fetched|
  {
    if fetched != [] {
      VisibleBookingsMembers(fetched[1..], rejected, b);
      assert fetched == [fetched[0]] + fetched[1..];
    }
  }

  /** The filter works booking by booking, so the kept bookings stay in their original order. */
  lemma {:induction false} VisibleBookingsAppend(a: seq<Booking>, b: seq<Booking>, rejected: seq<string>)
    ensures VisibleBookings(a + b, rejected) == VisibleBookings(a, rejected) + VisibleBookings(b, rejected)
    decreases |a|
  {
    if a == [] {
      assert a + b == b;
    } else {
      assert (a + b)[1..] == a[1..] + b;
      VisibleBookingsAppend(a[1..], b, rejected);
    }
  }

  /** A list in which nothing is rejected is shown whole, contents and order. */
  lemma {:induction false} NothingRejectedKeepsAll(fetched: seq<Booking>, rejected: seq<string>)
    requires forall i :: 0 <= i < |fetched| ==> fetched[i].id !in rejected
    ensures VisibleBookings(fetched, rejected) == fetched
    decreases |fetched|
  {
    if fetched != [] {
      NothingRejectedKeepsAll(fetched[1..], rejected);
    }
  }

  /**
    Removing one id from the displayed list (line 114) leaves exactly what
    a later fetch would show with that id appended to the stored list.
   */
  lemma {:induction false} RejectThenFilter(fetched: seq<Booking>, rejected: seq<string>, id: string)
    ensures VisibleBookings(VisibleBookings(fetched, rejected), [id]) == VisibleBookings(fetched, rejected + [id])
    decreases |fetched|
  {
    if fetched != [] {
      var rest := VisibleBookings(fetched[1..], rejected);
      var head := if fetched[0].id in rejected then [] else [fetched[0]];
      VisibleBookingsAppend(head, rest, [id]);
      RejectThenFilter(fetched[1..], rejected, id);
      if fetched[0].id !in rejected {
        assert head == [fetched[0]];
        assert VisibleBookings(head, [id]) == (if fetched[0].id == id then [] else [fetched[0]]) by {
          assert head[1..] == [];
        }
      }
    }
  }

  // ---------------------------------------------------------------------
  // What `rejectBooking` resolves to

  /** `response.success` from the server, or the error object the wrapper returns instead of throwing. */
  datatype RejectValue = Flag(success: bool) | ErrorObject

  /** `if (result)`: a flag is its own truth value; any object is truthy. */
  predicate RejectTruthy(v: RejectValue) {
    v.ErrorObject? || v.success
  }

  /** As written: the catch block returns `{ success: false, message }`, an object. */
  function RejectBookingAsWritten(reply: Reply<bool>): (v: RejectValue)
    ensures reply.Returned? ==> v == Flag(reply.value)
  {
    match reply
    case Threw => ErrorObject
    case Returned(success) => Flag(success)
  }

  /** As written, a reject request that fails reads as a successful reject. */
  lemma FailedRejectReadsAsSuccess()
    ensures RejectTruthy(RejectBookingAsWritten(Threw))
  {
  }

  /** As intended: a failed request yields a falsy result. */
  function RejectBookingIntended(reply: Reply<bool>): (v: RejectValue)
    ensures RejectTruthy(v) <==> reply == Returned(true)
  {
    match reply
    case Threw => Flag(false)
    case Returned(success) => Flag(success)
  }

  // ---------------------------------------------------------------------
  // What the screen shows (lines 137-168)

  datatype HomeBody = KycPrompt | BookingCards(cards: seq<Booking>) | NoBookingsText

  /** RecentOrders is shown exactly when the KYC status is not 'Pending' (an unset status included). */
  predicate ShowsRecentOrders(kycStatus: Option<string>) {
    kycStatus != Some(PendingStatus)
  }

  function Body(kycStatus: Option<string>, bookings: seq<Booking>): (b: HomeBody)
    ensures b == KycPrompt <==> kycStatus == Some(PendingStatus)
    ensures b.BookingCards? ==> b.cards == bookings && |bookings| > 0
    ensures b == NoBookingsText <==> kycStatus != Some(PendingStatus) && bookings == []
  {
    if kycStatus == Some(PendingStatus) then KycPrompt
    else if |bookings| > 0 then BookingCards(bookings)
    else NoBookingsText
  }

  /** The KYC prompt and RecentOrders never show together, and one of them always shows. */
  lemma PromptXorRecentOrders(kycStatus: Option<string>, bookings: seq<Booking>)
    ensures ShowsRecentOrders(kycStatus) <==> Body(kycStatus, bookings) != KycPrompt
  {
  }

  // ---------------------------------------------------------------------
  // The screen

  class HomeScreen {
    var bookings: seq<Booking>
    var loading: bool
    var userData: Option<User>
    var kycStatus: Option<string>
    var latestOrder: Option<Booking>
    var rejectedIds: seq<string>   // AsyncStorage 'rejectedBookings'; absent reads as []

    constructor (storedRejected: seq<string>)
      ensures bookings == [] && loading && userData == None && kycStatus == None && latestOrder == None
      ensures rejectedIds == storedRejected
    {
      bookings, loading, userData, kycStatus, latestOrder := [], true, None, None, None;
      rejectedIds := storedRejected;
    }

    /**
      `fetchData`. The replies stand for `getVendorDetails(id).kyc_status`,
      `fetchLatestAcceptedOrder` (Some exactly when it succeeded with an
      order) and `fetchBookings` (Some exactly when `success`). A call that
      throws skips everything after it; `loading` is cleared either way.
     */
    method FetchData(storedUser: Option<User>, vendorStatus: Reply<string>,
                     latest: Reply<Option<Booking>>, fetched: Reply<Option<seq<Booking>>>)
      modifies this`bookings, this`loading, this`userData, this`kycStatus, this`latestOrder
      ensures !loading
      ensures storedUser.None? ==> userData == old(userData) && kycStatus == old(kycStatus) && latestOrder == old(latestOrder)
      ensures storedUser.Some? ==> userData == storedUser
      ensures storedUser.Some? ==>
        var u := storedUser.value;
        var asks := u.id != "" && u.kycStatus == PendingStatus;
        && (!asks ==> kycStatus == Some(u.kycStatus))
        && (asks ==> kycStatus == (if vendorStatus.Returned? then Some(vendorStatus.value) else Some(u.kycStatus)))
      ensures var reachedOrder := storedUser.Some? &&
          (storedUser.value.id != "" && storedUser.value.kycStatus == PendingStatus ==> vendorStatus.Returned?);
        && (reachedOrder && latest.Returned? ==> latestOrder == latest.value)
        && (!(reachedOrder && latest.Returned?) ==> latestOrder == old(latestOrder))
      ensures var reachedBookings := storedUser.None? ||
          ((storedUser.value.id != "" && storedUser.value.kycStatus == PendingStatus ==> vendorStatus.Returned?)
           && latest.Returned?);
        && (reachedBookings && fetched.Returned? && fetched.value.Some? ==>
              bookings == VisibleBookings(fetched.value.value, rejectedIds))
        && (!(reachedBookings && fetched.Returned? && fetched.value.Some?) ==> bookings == old(bookings))
    {
      loading := true;
      if storedUser.Some? {
        var u := storedUser.value;
        userData := Some(u);
        kycStatus := Some(u.kycStatus);
        if u.id != "" && u.kycStatus == PendingStatus {
          if vendorStatus.Threw? {
            loading := false;
            return;
          }
          kycStatus := Some(vendorStatus.value);
        }
        if latest.Threw? {
          loading := false;
          return;
        }
        latestOrder := latest.value;
      }
      if fetched.Returned? && fetched.value.Some? {
        bookings := VisibleBookings(fetched.value.value, rejectedIds);
      }
      loading := false;
    }

    /**
      `handleReject`: a truthy result appends the id to the stored list and
      drops every booking with that id from the displayed list; a falsy one
      changes nothing.
     */
    method HandleReject(id: string, result: RejectValue) returns (recorded: bool)
      modifies this`rejectedIds, this`bookings
      ensures recorded <==> RejectTruthy(result)
      ensures recorded ==> rejectedIds == old(rejectedIds) + [id] && bookings == VisibleBookings(old(bookings), [id])
      ensures !recorded ==> rejectedIds == old(rejectedIds) && bookings == old(bookings)
    {
      recorded := RejectTruthy(result);
      if recorded {
        rejectedIds := rejectedIds + [id];
        bookings := VisibleBookings(bookings, [id]);
      }
    }
  }
}
