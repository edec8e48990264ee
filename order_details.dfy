/**
  The order-details screen of an accepted booking: the start window, the
  start-cooking OTP, starting and ending cooking, the elapsed time sent to
  the server, and the amount still due.
  Source: screens/OrderDetails/OrderDetails.js.
 */
module OrderDetails {
  import opened Js
  import opened Records

  /** The part of the order total that needs no further payment. */
  const IncludedAmount := 1199
  /** `orderEndAmount` starts at 1599 and nothing on the screen changes it. */
  const InitialOrderEndAmount := 1599
  /** The start-cooking code is this fixed literal. */
  const StartOtp := "1234"
  const MinuteMs := 60000
  const HourMs := 3600000
  const StartWindowHours := 2

  // ---------------------------------------------------------------------
  // Amount due (`calculateOrderAmount`)

  /** What is left to pay beyond the included amount: never negative, and positive exactly when the total exceeds it. */
  function AmountDue(orderEnd: int): (r: int)
    ensures r >= 0
    ensures r == 0 <==> orderEnd <= IncludedAmount
    ensures r > 0 ==> r + IncludedAmount == orderEnd
  {
    if orderEnd <= IncludedAmount then 0 else orderEnd - IncludedAmount
  }

  /** The navigation `calculateOrderAmount` issues: to PendingAmount, with the amount, only when something is due. */
  function AmountNavigation(orderEnd: int): (nav: Option<Nav>)
    ensures nav.Some? <==> AmountDue(orderEnd) > 0
    ensures nav.Some? ==> nav.value == PendingAmount(AmountDue(orderEnd)) && nav.value.amountDue > 0
  {
    var due := AmountDue(orderEnd);
    if due > 0 then Some(PendingAmount(due)) else None
  }

  /** Nothing on the screen changes the total, so ending cooking always asks for 400 more. */
  lemma EndAmountAlwaysOwes()
    ensures AmountDue(InitialOrderEndAmount) == 400
    ensures AmountNavigation(InitialOrderEndAmount) == Some(PendingAmount(400))
  {
  }

  // ---------------------------------------------------------------------
  // The start window (`checkStartCookingTime`)

  /**
    `(bookingTime - now) / 3600000 <= 2`: true exactly when the booking is
    at most two hours away (or already past); false for a date that does
    not parse, whose difference is NaN.
   */
  function CanStartCooking(bookingMs: Option<int>, nowMs: int): (can: bool)
    ensures can <==> bookingMs.Some? && bookingMs.value <= nowMs + StartWindowHours * HourMs
  {
    bookingMs.Some? && bookingMs.value - nowMs <= StartWindowHours * HourMs
  }

  // ---------------------------------------------------------------------
  // Elapsed time (`handleEndCooking`, lines 106-108)

  /** `Math.round(ms / 60000)`: the nearest whole minute, halves rounded up. */
  function RoundToMinutes(ms: int): (t: int)
    ensures t * MinuteMs - MinuteMs / 2 <= ms < t * MinuteMs + MinuteMs / 2
  {
    FloorDivBounds(ms + MinuteMs / 2, MinuteMs);
    (ms + MinuteMs / 2) / MinuteMs
  }

  /** `${Math.floor(t / 60)}:${t % 60}`: hours, a colon, minutes, with no zero padding. */
  function FormatHoursMinutes(t: int): string {
    IntToString(t / 60) + ":" + IntToString(JsRem(t, 60))
  }

  /** The `timeToPrepare` text sent with `endBooking`. */
  function ElapsedLabel(startMs: int, endMs: int): string {
    FormatHoursMinutes(RoundToMinutes(endMs - startMs))
  }

  /** The text before and after the first ':' of `s`, if there is one. */
  function SplitAtColon(s: string): Option<(string, string)>
    decreases |s|
  {
    if s == [] then None
    else if s[0] == ':' then Some(([], s[1..]))
    else match SplitAtColon(s[1..])
      case None => None
      case Some(parts) => Some(([s[0]] + parts.0, parts.1))
  }

  /** Reads an `H:M` label back as a number of minutes. */
  function ParseHoursMinutes(s: string): Option<int> {
    match SplitAtColon(s)
    case None => None
    case Some(parts) =>
      if parts.0 != "" && parts.1 != "" && AllDigits(parts.0) && AllDigits(parts.1)
      then Some(ParseDigits(parts.0) * 60 + ParseDigits(parts.1))
      else None
  }

  lemma {:induction false} SplitAtFirstColon(a: string, b: string)
    requires ':' !in a
    ensures SplitAtColon(a + ":" + b) == Some((a, b))
    decreases |a|
  {
    if a != [] {
      assert (a + ":" + b)[1..] == a[1..] + ":" + b;
      assert a[0] != ':';
      assert ':' !in a[1..] by {
        forall k | 0 <= k < |a| - 1 ensures a[1..][k] != ':' { assert a[1..][k] == a[k + 1]; }
      }
      SplitAtFirstColon(a[1..], b);
      assert [a[0]] + a[1..] == a;
    } else {
      assert a + ":" + b == [':'] + b;
    }
  }

  lemma DigitsHaveNoColon(s: string)
    requires AllDigits(s)
    ensures ':' !in s
  {
    forall k | 0 <= k < |s| ensures s[k] != ':' {
      assert IsDigit(s[k]);
    }
  }

  /**
    For a non-negative number of minutes the label has no sign, its minutes
    part is below 60, and it reads back as the same number of minutes.
   */
  lemma HoursMinutesRoundTrip(t: nat)
    ensures ParseHoursMinutes(FormatHoursMinutes(t)) == Some(t)
    ensures FormatHoursMinutes(t) == NatToString(t / 60) + ":" + NatToString(t % 60)
    ensures t % 60 < 60 && (t / 60) * 60 + t % 60 == t
  {
    var h, m := NatToString(t / 60), NatToString(t % 60);
    assert FormatHoursMinutes(t) == h + ":" + m;
    DigitsHaveNoColon(h);
    SplitAtFirstColon(h, m);
    ParseNatToString(t / 60);
    ParseNatToString(t % 60);
  }

  /** A cooking time that is not negative is sent as `H:M` whose value is the rounded minutes. */
  lemma ElapsedLabelMeaning(startMs: int, endMs: int)
    requires startMs <= endMs
    ensures var t := RoundToMinutes(endMs - startMs);
      && t >= 0
      && ParseHoursMinutes(ElapsedLabel(startMs, endMs)) == Some(t)
  {
    var t := RoundToMinutes(endMs - startMs);
    HoursMinutesRoundTrip(t);
  }

  // ---------------------------------------------------------------------
  // Which actions the screen shows (lines 144-180)

  datatype ActionView =
    | StartControls      // Start Cooking, the OTP field and Verify OTP
    | TooEarlyMessage    // "You can start cooking 2 hours before the scheduled time."
    | CompletedLabel     // "Order Completed"
    | EndCookingButton

  /** As written: the start controls appear when `canStartCooking` is FALSE. */
  function ActionsAsWritten(isCookingStarted: bool, status: string, canStart: bool): ActionView {
    if !isCookingStarted && status == "Accepted" then
      (if !canStart then StartControls else TooEarlyMessage)
    else if status == "Completed" then CompletedLabel
    else EndCookingButton
  }

  /** As the message evidently means: the start controls appear inside the two-hour window. */
  function ActionsIntended(isCookingStarted: bool, status: string, canStart: bool): ActionView {
    if !isCookingStarted && status == "Accepted" then
      (if canStart then StartControls else TooEarlyMessage)
    else if status == "Completed" then CompletedLabel
    else EndCookingButton
  }

  /** As written, an accepted booking one hour away shows the "too early" message and no Start button. */
  lemma StartControlsInverted(nowMs: int)
    ensures CanStartCooking(Some(nowMs + HourMs), nowMs)
    ensures ActionsAsWritten(false, "Accepted", CanStartCooking(Some(nowMs + HourMs), nowMs)) == TooEarlyMessage
    ensures ActionsAsWritten(false, "Accepted", CanStartCooking(Some(nowMs + 5 * HourMs), nowMs)) == StartControls
  {
  }

  /** Intended: the start controls show exactly for an accepted, not yet started booking at most two hours away. */
  lemma StartControlsInsideWindow(isCookingStarted: bool, status: string, bookingMs: Option<int>, nowMs: int)
    ensures ActionsIntended(isCookingStarted, status, CanStartCooking(bookingMs, nowMs)) == StartControls <==>
      && !isCookingStarted && status == "Accepted"
      && bookingMs.Some? && bookingMs.value <= nowMs + StartWindowHours * HourMs
  {
  }

  // ---------------------------------------------------------------------
  // The screen

  class OrderDetailsScreen {
    const bookingId: string
    const bookingMs: Option<int>
    const orderEndAmount: int   // never set again after 1599
    var amountDue: int
    var isCookingStarted: bool
    var otp: string
    var isOtpVerified: bool
    var canStartCooking: bool
    var startTime: Option<int>   // AsyncStorage 'startTime'

    constructor (bookingId: string, bookingMs: Option<int>, storedStartTime: Option<int>)
      ensures this.bookingId == bookingId && this.bookingMs == bookingMs
      ensures orderEndAmount == InitialOrderEndAmount && amountDue == 0
      ensures !isCookingStarted && otp == "" && !isOtpVerified && !canStartCooking
      ensures startTime == storedStartTime
    {
      this.bookingId, this.bookingMs := bookingId, bookingMs;
      orderEndAmount, amountDue := InitialOrderEndAmount, 0;
      isCookingStarted, otp, isOtpVerified, canStartCooking := false, "", false, false;
      startTime := storedStartTime;
    }

    /** The OTP field's `onChangeText`. */
    method SetOtp(text: string)
      modifies this`otp
      ensures otp == text
    {
      otp := text;
    }

    /** Runs on mount and every minute. */
    method CheckStartCookingTime(nowMs: int)
      modifies this`canStartCooking
      ensures canStartCooking == CanStartCooking(bookingMs, nowMs)
    {
      canStartCooking := CanStartCooking(bookingMs, nowMs);
    }

    method CalculateOrderAmount() returns (nav: Option<Nav>)
      modifies this`amountDue
      ensures amountDue == AmountDue(orderEndAmount) && amountDue >= 0
      ensures nav == AmountNavigation(orderEndAmount)
    {
      if orderEndAmount <= IncludedAmount {
        amountDue := 0;
        nav := None;
      } else {
        amountDue := orderEndAmount - IncludedAmount;
        nav := Some(PendingAmount(amountDue));
      }
    }

    /** Only the literal '1234' verifies; a mismatch leaves the flag as it was. */
    method HandleOtpVerification() returns (matched: bool)
      modifies this`isOtpVerified
      ensures matched <==> otp == StartOtp
      ensures isOtpVerified == (matched || old(isOtpVerified))
    {
      matched := otp == StartOtp;
      if matched {
        isOtpVerified := true;
      }
    }

    /**
      `startBooking` is called only once the OTP is verified; a successful
      start sets `isCookingStarted` and stores the start time.
     */
    method HandleStartCooking(reply: Reply<bool>, nowMs: int) returns (startCalled: bool)
      modifies this`isCookingStarted, this`startTime
      ensures startCalled <==> isOtpVerified
      ensures var started := isOtpVerified && reply == Returned(true);
        && (started ==> isCookingStarted && startTime == Some(nowMs))
        && (!started ==> isCookingStarted == old(isCookingStarted) && startTime == old(startTime))
    {
      startCalled := isOtpVerified;
      if isOtpVerified && reply == Returned(true) {
        isCookingStarted := true;
        startTime := Some(nowMs);
      }
    }

    /**
      Without a (truthy) stored start time nothing happens. Otherwise the
      amount due is computed, the elapsed `H:M` is sent with `endBooking`,
      and once that call returns, whatever its `success`, cooking is marked
      ended and the start time removed.
     */
    method HandleEndCooking(nowMs: int, reply: Reply<bool>) returns (sent: Option<string>, nav: Option<Nav>)
      modifies this`amountDue, this`isCookingStarted, this`startTime
      ensures var has := old(startTime).Some? && old(startTime).value != 0;
        && (!has ==> sent == None && nav == None && amountDue == old(amountDue)
                     && isCookingStarted == old(isCookingStarted) && startTime == old(startTime))
        && (has ==> sent == Some(ElapsedLabel(old(startTime).value, nowMs))
                    && amountDue == AmountDue(orderEndAmount) && nav == AmountNavigation(orderEndAmount))
        && (has && reply.Returned? ==> !isCookingStarted && startTime == None)
        && (has && reply.Threw? ==> isCookingStarted == old(isCookingStarted) && startTime == old(startTime))
    {
      sent, nav := None, None;
      if startTime.None? || startTime.value == 0 {
        return;
      }
      nav := CalculateOrderAmount();
      var start := startTime.value;
      var t := (nowMs - start + MinuteMs / 2) / MinuteMs;
      sent := Some(IntToString(t / 60) + ":" + IntToString(JsRem(t, 60)));
      if reply.Returned? {
        isCookingStarted := false;
        startTime := None;
      }
    }
  }
}
