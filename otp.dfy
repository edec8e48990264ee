/**
  The OTP (one-time password) screen: the four-slot code buffer, the
  30-second resend countdown, resend, and what "Continue" does for a
  registration and for a login.
  Source: screens/AuthScreen/OTPScreen.js.

  The screen never compares the typed code with the one that was sent:
  `Continue` goes straight to register or login.
 */
module Otp {
  import opened Js
  import opened Records

  const OtpSlots := 4
  const ResendSeconds := 30
  const VendorRole := "Vendor"
  const UnknownIp := "Unknown IP"

  // ---------------------------------------------------------------------
  // The resend countdown

  /** `resendTimer` and `resendDisabled`. */
  datatype Countdown = Countdown(timer: int, disabled: bool)

  const InitialCountdown := Countdown(ResendSeconds, true)

  /** The timer stays within 0..30, and resend is disabled exactly while it is above 0. */
  predicate CountdownValid(c: Countdown) {
    0 <= c.timer <= ResendSeconds && (c.disabled <==> c.timer > 0)
  }

  /** The effect of lines 59-70 re-running after a change: at 0, resend is enabled. */
  function Settle(c: Countdown): Countdown {
    if !(c.disabled && c.timer > 0) && c.timer == 0 then c.(disabled := false) else c
  }

  /** One interval tick (running only while disabled and above 0), then the effect. */
  function Tick(c: Countdown): (d: Countdown)
    ensures d.timer <= c.timer
    ensures d.timer == 0 ==> !d.disabled
  {
    Settle(if c.disabled && c.timer > 0 then c.(timer := c.timer - 1) else c)
  }

  function Ticks(c: Countdown, n: nat): Countdown
    decreases n
  {
    if n == 0 then c else Ticks(Tick(c), n - 1)
  }

  /** `handleResendCode`: a successful send restarts the 30 seconds; a failed one changes nothing. */
  function Resend(c: Countdown, sent: bool): Countdown {
    if sent then Countdown(ResendSeconds, true) else c
  }

  /** A tick decrements by exactly one while resend is disabled, never goes below 0, and keeps the countdown valid. */
  lemma TickStep(c: Countdown)
    requires CountdownValid(c)
    ensures CountdownValid(Tick(c))
    ensures c.disabled ==> Tick(c).timer == c.timer - 1
    ensures !c.disabled ==> Tick(c) == c
    ensures Tick(c).timer >= 0
  {
  }

  /** Resend is enabled exactly when the timer reads 0. */
  lemma ResendEnabledOnlyAtZero(c: Countdown)
    requires CountdownValid(c)
    ensures !c.disabled <==> c.timer == 0
  {
  }

  /** After `n` ticks a valid countdown reads `max(timer - n, 0)`. */
  lemma {:induction false} TicksFrom(c: Countdown, n: nat)
    requires CountdownValid(c)
    ensures Ticks(c, n) == Countdown(if c.timer > n then c.timer - n else 0, c.timer > n)
    decreases n
  {
    if n > 0 {
      TickStep(c);
      TicksFrom(Tick(c), n - 1);
    }
  }

  /** From the start, or after any successful resend, resend stays disabled for exactly 30 ticks. */
  lemma ResendDisabledForThirtyTicks(c: Countdown, n: nat)
    requires CountdownValid(c)
    ensures CountdownValid(Resend(c, true))
    ensures Ticks(Resend(c, true), n).disabled <==> n < ResendSeconds
    ensures Ticks(InitialCountdown, n) == Ticks(Resend(c, true), n)
  {
    TicksFrom(Resend(c, true), n);
  }

  /** The text of the resend control (line 248). */
  function ResendLabel(c: Countdown): string {
    if c.disabled then "Resend Code (" + IntToString(c.timer) + "s)" else "Resend Code"
  }

  /** While disabled, the label carries the seconds left, and they can be read back from it. */
  lemma ResendLabelShowsSeconds(c: Countdown)
    requires CountdownValid(c)
    ensures var l := ResendLabel(c);
      && (l == "Resend Code" <==> !c.disabled)
      && (c.disabled ==> |l| > 15 && l[..13] == "Resend Code ("
                         && AllDigits(l[13..|l| - 2]) && ParseDigits(l[13..|l| - 2]) == c.timer)
  {
    if c.disabled {
      var l := ResendLabel(c);
      var digits := NatToString(c.timer);
      assert l == "Resend Code (" + digits + "s)";
      assert l[13..|l| - 2] == digits;
      ParseNatToString(c.timer);
    }
  }

  /** `getDeviceName`. */
  function DeviceName(os: string): (d: string)
    ensures d == "iOS Device" <==> os == "ios"
    ensures d != "iOS Device" ==> d == "Android Device"
  {
    if os == "ios" then "iOS Device" else "Android Device"
  }

  /** `getIpAddress`: the looked-up address, or a fixed sentinel when the lookup throws. */
  function IpAddress(lookup: Reply<string>): string {
    match lookup
    case Returned(ip) => ip
    case Threw => UnknownIp
  }

  // ---------------------------------------------------------------------
  // Continue: register or log in

  /** `route.params` as this screen reads them. */
  datatype RouteParams = RouteParams(
    isRegister: bool,
    name: string,
    email: string,
    password: string,
    phone: string,        // read by the registration branch
    phoneNumber: string)  // read by the login branch

  datatype AccountCall =
    | RegisterCall(name: string, email: string, password: string, phone: string, role: string)
    | LoginCall(phoneNumber: string)

  datatype Notification =
    | RegisterMail(email: string, name: string, ip: string, device: string)
    | LoginMail(email: string, ip: string, device: string)

  /** Everything one press of Continue does. */
  datatype VerifyOutcome = VerifyOutcome(
    call: AccountCall,
    stored: Option<User>,               // the user written under 'user', if any
    notification: Option<Notification>, // the best-effort mail, if one is sent
    nav: Option<Nav>,
    alerted: bool,                      // an error alert is shown
    loading: bool,                      // `loading` when the handler is done
    rejected: bool)                     // the handler's promise rejects

  /** The one decision on `isRegister`: register as a vendor, or log in with the phone number. */
  function AccountCallFor(p: RouteParams): (call: AccountCall)
    ensures p.isRegister <==> call.RegisterCall?
    ensures call.RegisterCall? ==> call == RegisterCall(p.name, p.email, p.password, p.phone, VendorRole)
    ensures call.LoginCall? ==> call.phoneNumber == p.phoneNumber
  {
    if p.isRegister then RegisterCall(p.name, p.email, p.password, p.phone, VendorRole)
    else LoginCall(p.phoneNumber)
  }

  /** The mail sent after a successful register or login, when there is an address to send it to. */
  function NotificationFor(p: RouteParams, user: User, os: string, ipLookup: Reply<string>): (n: Option<Notification>)
    ensures n.Some? ==> (n.value.RegisterMail? <==> p.isRegister)
    ensures n.Some? <==> (if p.isRegister then p.email else user.email) != ""
    ensures n.Some? ==> n.value.device == DeviceName(os) && n.value.ip == IpAddress(ipLookup)
  {
    if p.isRegister then
      (if p.email != "" then Some(RegisterMail(p.email, p.name, IpAddress(ipLookup), DeviceName(os))) else None)
    else
      (if user.email != "" then Some(LoginMail(user.email, IpAddress(ipLookup), DeviceName(os))) else None)
  }

  /**
    `handleOtpVerification` as written. `Alert` is not imported by this
    file, so every `Alert.alert` call throws: the failure branch throws
    into the catch block, whose own `Alert.alert` throws again, and the
    handler rejects before `setLoading(false)`. The mail's own failure is
    caught, so its result decides nothing.
   */
  function VerifyAsWritten(p: RouteParams, reply: Reply<AuthResponse>, os: string, ipLookup: Reply<string>): (o: VerifyOutcome)
    ensures o.call == AccountCallFor(p)
    ensures !o.alerted
    ensures o.loading <==> o.rejected
    ensures o.rejected <==> !(reply.Returned? && reply.value.success)
  {
    var call := AccountCallFor(p);
    match reply
    case Returned(r) =>
      if r.success then
        VerifyOutcome(call, Some(r.user), NotificationFor(p, r.user, os, ipLookup), Some(HomeTabs), false, false, false)
      else
        VerifyOutcome(call, None, None, None, false, true, true)
    case Threw =>
      VerifyOutcome(call, None, None, None, false, true, true)
  }

  /** The evidently intended handler, with `Alert` in scope: failures alert and clear `loading`. */
  function VerifyIntended(p: RouteParams, reply: Reply<AuthResponse>, os: string, ipLookup: Reply<string>): (o: VerifyOutcome)
    ensures !o.loading && !o.rejected
    ensures o.call == AccountCallFor(p)
    ensures o.nav == Some(HomeTabs) <==> reply.Returned? && reply.value.success
    ensures o.nav.None? <==> o.alerted
    ensures o.stored.Some? <==> o.nav.Some?
    ensures o.stored.Some? ==> reply.Returned? && o.stored == Some(reply.value.user)
    ensures o.notification.Some? ==> o.stored.Some?
  {
    var call := AccountCallFor(p);
    match reply
    case Returned(r) =>
      if r.success then
        VerifyOutcome(call, Some(r.user), NotificationFor(p, r.user, os, ipLookup), Some(HomeTabs), false, false, false)
      else
        VerifyOutcome(call, None, None, None, true, false, false)
    case Threw =>
      VerifyOutcome(call, None, None, None, true, false, false)
  }

  /** As written, a failed register or login leaves the skeleton loader up and rejects the handler. */
  lemma FailedVerificationKeepsLoading(p: RouteParams, u: User, os: string, ipLookup: Reply<string>)
    ensures VerifyAsWritten(p, Returned(AuthResponse(false, u)), os, ipLookup).loading
    ensures VerifyAsWritten(p, Threw, os, ipLookup).rejected
    ensures !VerifyIntended(p, Returned(AuthResponse(false, u)), os, ipLookup).loading
  {
  }

  /** On success the two agree: the missing import only matters on the failure paths. */
  lemma VerifyAgreesOnSuccess(p: RouteParams, r: AuthResponse, os: string, ipLookup: Reply<string>)
    requires r.success
    ensures VerifyAsWritten(p, Returned(r), os, ipLookup) == VerifyIntended(p, Returned(r), os, ipLookup)
  {
  }

  /**
    After a successful account call the user is stored and the screen moves
    to HomeTabs, whatever the IP lookup does; the notification address is
    the registration e-mail or the logged-in user's e-mail.
   */
  lemma SuccessStoresThenNavigates(p: RouteParams, r: AuthResponse, os: string, ip1: Reply<string>, ip2: Reply<string>)
    requires r.success
    ensures var o := VerifyIntended(p, Returned(r), os, ip1);
      && o.stored == Some(r.user) && o.nav == Some(HomeTabs)
      && o.nav == VerifyIntended(p, Returned(r), os, ip2).nav
      && (o.notification.Some? <==> (if p.isRegister then p.email else r.user.email) != "")
      && (o.notification.Some? ==> (o.notification.value.RegisterMail? <==> p.isRegister))
  {
  }

  // ---------------------------------------------------------------------
  // The screen

  class OtpScreen {
    var otp: seq<string>
    var loading: bool
    var resendTimer: int
    var resendDisabled: bool
    var storedUser: Option<User>   // AsyncStorage 'user'

    ghost predicate Valid()
      reads this
    {
      |otp| == OtpSlots && CountdownValid(Countdown(resendTimer, resendDisabled))
    }

    constructor (stored: Option<User>)
      ensures Valid()
      ensures otp == ["", "", "", ""] && loading
      ensures Countdown(resendTimer, resendDisabled) == InitialCountdown
      ensures storedUser == stored
    {
      otp := ["", "", "", ""];
      loading := true;
      resendTimer, resendDisabled := ResendSeconds, true;
      storedUser := stored;
    }

    /** The first send settles (after the skeleton's delay), whether it succeeded or not. */
    method FirstSendSettled()
      modifies this`loading
      ensures !loading
    {
      loading := false;
    }

    /** `handleOtpChange`: only slot `index` changes; focus moves on after a single character, except from the last slot. */
    method HandleOtpChange(value: string, index: nat) returns (focusNext: Option<nat>)
      requires Valid() && index < |otp|
      modifies this`otp
      ensures Valid()
      ensures otp == old(otp)[index := value]
      ensures focusNext == if |value| == 1 && index < OtpSlots - 1 then Some(index + 1) else None
    {
      otp := otp[index := value];
      focusNext := if |value| == 1 && index < |otp| - 1 then Some(index + 1) else None;
    }

    /** One second of the interval. */
    method TickSecond()
      requires Valid()
      modifies this`resendTimer, this`resendDisabled
      ensures Valid()
      ensures Countdown(resendTimer, resendDisabled) == Tick(old(Countdown(resendTimer, resendDisabled)))
    {
      if resendDisabled && resendTimer > 0 {
        resendTimer := resendTimer - 1;
      }
      if !(resendDisabled && resendTimer > 0) && resendTimer == 0 {
        resendDisabled := false;
      }
    }

    /** `handleResendCode`; the returned code is kept nowhere that matters. */
    method HandleResendCode(reply: Reply<string>)
      requires Valid()
      modifies this`resendTimer, this`resendDisabled
      ensures Valid()
      ensures Countdown(resendTimer, resendDisabled) == Resend(old(Countdown(resendTimer, resendDisabled)), reply.Returned?)
    {
      if reply.Returned? {
        resendDisabled := true;
        resendTimer := ResendSeconds;
      }
    }

    /**
      `handleOtpVerification`, with `Alert` in scope as intended; the
      handler as written differs only on its failure paths
      (`VerifyAsWritten`, `FailedVerificationKeepsLoading`).
     */
    method HandleOtpVerification(p: RouteParams, reply: Reply<AuthResponse>, os: string, ipLookup: Reply<string>)
      returns (o: VerifyOutcome)
      modifies this`loading, this`storedUser
      ensures o == VerifyIntended(p, reply, os, ipLookup)
      ensures !loading
      ensures storedUser == if o.stored.Some? then o.stored else old(storedUser)
    {
      loading := true;
      o := VerifyIntended(p, reply, os, ipLookup);
      if o.stored.Some? {
        storedUser := o.stored;
      }
      loading := o.loading;
    }
  }
}
