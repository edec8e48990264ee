# cook_app vendor screens in Dafny

This project models the vendor side of the cook_app mobile app. A vendor
is a chef who signs in with a phone number and a one-time code, completes
KYC (Know-Your-Customer) verification with an Aadhar or PAN identity
number, accepts or rejects bookings, and starts and ends cooking
sessions. The vendor then sees what is still owed, cancels orders,
requests withdrawals of their earnings and edits their profile.

Each screen is a Dafny module, and each screen's state is a class whose
fields are the screen's `useState` variables. Each event handler is a
method whose `ensures` clause gives the new state in terms of the old one
and of pure specification functions. The properties those functions
promise are proved as lemmas. Two shared modules come first:

- `Js`: the JavaScript semantics the screens rely on. It covers
  truthiness, `trim` and the white space it removes, `replace(/-/g, '')`,
  ASCII `toUpperCase`, `${n}` for integers, and the truncating `%`
  together with moment's truncating `diff`.
- `Records`: the stored `user` record, a booking, a login/register
  response and the navigation targets.

Network calls, storage reads, the clock and the platform are not
modelled. Their results are parameters of the handlers. A call that can
fail is a `Reply<T>`, which is either `Threw` or `Returned(value)`. A
storage key the screens read is a typed field: `storedUser`,
`rejectedIds`, `startTime` or `storedAvatar`.

Where the code and its evident intent differ, the model keeps both. An
"as written" definition has a lemma that exhibits the difference, and a
corrected definition carries the intended property (see "## Findings").

## Model

| member | source | states |
|---|---|---|
| Kyc.FormatAadhar | screens/KYCScreen/KYCVerificationScreen.js:92-99 | a dash goes after the 4th digit when there are more than 4 digits, and after the 8th when there are more than 8 |
| Kyc.FormatAadharLayout | screens/KYCScreen/KYCVerificationScreen.js:92-99 | 12 digits are laid out as XXXX-XXXX-XXXX, 14 characters, with dashes at positions 4 and 9 and digits everywhere else |
| Kyc.FormatAadharRoundTrip | screens/KYCScreen/KYCVerificationScreen.js:83 | removing the dashes from a formatted number gives back the digits it was made from |
| Kyc.AadharEdit | screens/KYCScreen/KYCVerificationScreen.js:80-107 | definition of one edit of the Aadhar field: the dashes are removed, a non-digit sets the digits error, 12 digits or fewer are stored formatted with the length error unless there are exactly 12, and more than 12 are ignored; properties in the lemmas below |
| Kyc.AadharNonDigitRefused | screens/KYCScreen/KYCVerificationScreen.js:83-89 | any character other than a digit or a dash sets 'Aadhar should contain only digits' and keeps the stored number |
| Kyc.AadharTooLongIgnored | screens/KYCScreen/KYCVerificationScreen.js:92 | more than 12 digits changes neither the number nor the error |
| Kyc.AadharErrorCleared | screens/KYCScreen/KYCVerificationScreen.js:100-107 | the error is cleared exactly when there are 12 digits and is 'Aadhar should be 12 digits' otherwise; the stored number fits the 14-character field |
| Kyc.AadharEditIdempotent | screens/KYCScreen/KYCVerificationScreen.js:83-107 | feeding the stored, formatted number back into the field changes nothing |
| Kyc.PanEdit | screens/KYCScreen/KYCVerificationScreen.js:111-125 | a PAN edit never sets an error alone; a stored PAN has the length of the typed text, at most 10, and holds only upper-case letters and digits |
| Kyc.PanEditStoresUppercase | screens/KYCScreen/KYCVerificationScreen.js:111-125 | only input matching `[A-Za-z0-9]{0,10}` is stored, and it is stored in upper case; the error is cleared exactly when the length is 10 and the upper-cased text has the shape AAAAA0000A |
| Kyc.PanEditIdempotent | screens/KYCScreen/KYCVerificationScreen.js:111-125 | feeding the stored PAN back into the field changes nothing |
| Kyc.SubmitGate | screens/KYCScreen/KYCVerificationScreen.js:150-177 | the name is checked first, and its alert shows exactly for a blank name; a number alert means the name passed and the number did not; an image alert means both passed and an image the type needs is missing |
| Kyc.SubmitGateReady | screens/KYCScreen/KYCVerificationScreen.js:150-177 | submission proceeds exactly when the name has a non-blank character, the number is valid for its type, and the images are present: both sides for Aadhar, the front for PAN |
| Kyc.EditErrorAgreesWithGate | screens/KYCScreen/KYCVerificationScreen.js:100-125 | the field shows no error exactly when the stored number would pass the submit check |
| Kyc.BuildUpload | screens/KYCScreen/KYCVerificationScreen.js:186-206 | the form carries the user id, the type name, the number and the front image; it carries the back image only for Aadhar with a back image, and experience details only when the vendor has experience |
| Kyc.KycBodyFor | screens/KYCScreen/KYCVerificationScreen.js:271-275 | definition: "Loading..." while the status is unknown, the message once verified, the inputs otherwise; properties in Kyc.TitleWithoutMessage and Kyc.KycScreen.CheckStatusOnMount |
| Kyc.TitleWithoutMessage | screens/KYCScreen/KYCVerificationScreen.js:262-275 | the card title shows exactly when the verification message does not, so it always shows above the inputs |
| Kyc.KycScreen.constructor | screens/KYCScreen/KYCVerificationScreen.js:21-32 | the form starts empty, with type Aadhar, nothing submitting and no error |
| Kyc.KycScreen.CheckStatusOnMount | screens/KYCScreen/KYCVerificationScreen.js:50-77 | the status is queried with the stored user's id; only a reply with `success` marks the vendor verified, shows "Your profile is under verification." instead of the form and writes the server's status back into the stored user's `kyc_status`; no stored user, a reply without `success` or a thrown call shows the form and writes nothing |
| Kyc.KycScreen.SetFullName | screens/KYCScreen/KYCVerificationScreen.js:282 | the name field holds the typed text |
| Kyc.KycScreen.SetHasExperience | screens/KYCScreen/KYCVerificationScreen.js:369 | the experience flag takes the switch's value |
| Kyc.KycScreen.SetExperienceDetails | screens/KYCScreen/KYCVerificationScreen.js:381 | the experience text holds the typed text |
| Kyc.KycScreen.ValidateIdNumber | screens/KYCScreen/KYCVerificationScreen.js:80-128 | the number and the error change as the edit for the current ID type says, and nothing else changes |
| Kyc.KycScreen.ToggleIdType | screens/KYCScreen/KYCVerificationScreen.js:244-253 | the type flips, the number and the error are cleared, and the back image is dropped when switching to PAN |
| Kyc.KycScreen.SelectImage | screens/KYCScreen/KYCVerificationScreen.js:141-142 | a picked image sets exactly its own side |
| Kyc.KycScreen.BeginSubmit | screens/KYCScreen/KYCVerificationScreen.js:150-179 | the submit check is computed, and `isSubmitting` is raised only when every check passes |
| Kyc.KycScreen.FinishSubmit | screens/KYCScreen/KYCVerificationScreen.js:181-240 | the upload is built from the stored user; only `success === true` clears the images, marks the vendor verified and goes to HomeTabs; `isSubmitting` is cleared on every path |
| Otp.TickStep | screens/AuthScreen/OTPScreen.js:59-70 | a tick keeps the countdown valid: it counts one second down while the button is disabled and changes nothing otherwise |
| Otp.ResendEnabledOnlyAtZero | screens/AuthScreen/OTPScreen.js:67-69 | in a valid countdown the resend button is enabled exactly when the timer is 0 |
| Otp.Tick | screens/AuthScreen/OTPScreen.js:59-70 | a tick never raises the timer, and a timer at 0 leaves resend enabled; the step itself in Otp.TickStep |
| Otp.TicksFrom | screens/AuthScreen/OTPScreen.js:59-70 | after n ticks the timer is max(t - n, 0), and the button stays disabled exactly while seconds remain |
| Otp.ResendDisabledForThirtyTicks | screens/AuthScreen/OTPScreen.js:22-23 | after a successful resend the button stays disabled for exactly 30 ticks, the same countdown as on mount |
| Otp.Resend | screens/AuthScreen/OTPScreen.js:182-203 | definition: a successful send restarts the 30-second countdown, a failed one keeps it; properties in Otp.ResendDisabledForThirtyTicks |
| Otp.ResendLabel | screens/AuthScreen/OTPScreen.js:248 | definition of the label; properties in Otp.ResendLabelShowsSeconds |
| Otp.ResendLabelShowsSeconds | screens/AuthScreen/OTPScreen.js:248 | the label is 'Resend Code' exactly when the button is enabled; otherwise it reads `Resend Code (Ns)` with the seconds left |
| Otp.DeviceName | screens/AuthScreen/OTPScreen.js:82-84 | 'iOS Device' exactly on iOS, 'Android Device' otherwise |
| Otp.IpAddress | screens/AuthScreen/OTPScreen.js:86-95 | definition: the looked-up address, or 'Unknown IP' when the lookup throws |
| Otp.NotificationFor | screens/AuthScreen/OTPScreen.js:140-163 | a mail is sent exactly when there is an address: the registration e-mail when registering, the returned user's e-mail when logging in; the mail's kind follows `isRegister`, and it carries the device name and the looked-up address |
| Otp.AccountCallFor | screens/AuthScreen/OTPScreen.js:101-104 | register with role 'Vendor' exactly when `isRegister`, otherwise log in with the phone number |
| Otp.VerifyIntended | screens/AuthScreen/OTPScreen.js:97-178 | `loading` always ends false; the user is stored and the app goes to HomeTabs exactly when the call succeeded; every failure alerts; a mail is sent only after success |
| Otp.VerifyAsWritten | screens/AuthScreen/OTPScreen.js:97-178 | as written: no alert is ever shown; the handler rejects and leaves `loading` true exactly when the call did not succeed; the account call is the one `isRegister` chooses |
| Otp.FailedVerificationKeepsLoading | screens/AuthScreen/OTPScreen.js:2-12 | as written, a failed call leaves `loading` true and a thrown call rejects the handler, while the corrected handler clears `loading` |
| Otp.VerifyAgreesOnSuccess | screens/AuthScreen/OTPScreen.js:106-129 | on success the handler as written and the corrected one do the same thing |
| Otp.SuccessStoresThenNavigates | screens/AuthScreen/OTPScreen.js:106-164 | after a successful call the user is stored and the app goes to HomeTabs whatever the IP lookup does; a mail goes to the registration e-mail or to the logged-in user's e-mail when one is set |
| Otp.OtpScreen.constructor | screens/AuthScreen/OTPScreen.js:20-23 | four empty slots, loading, and a 30-second countdown with the button disabled |
| Otp.OtpScreen.FirstSendSettled | screens/AuthScreen/OTPScreen.js:40-52 | the first send clears `loading` whether it succeeded or not |
| Otp.OtpScreen.HandleOtpChange | screens/AuthScreen/OTPScreen.js:72-79 | only slot `index` changes; focus moves to the next slot after a single character, except from the last slot |
| Otp.OtpScreen.TickSecond | screens/AuthScreen/OTPScreen.js:59-70 | the countdown advances by one tick and stays valid |
| Otp.OtpScreen.HandleResendCode | screens/AuthScreen/OTPScreen.js:182-203 | a successful resend restarts the 30-second countdown; a failed one changes nothing |
| Otp.OtpScreen.HandleOtpVerification | screens/AuthScreen/OTPScreen.js:97-178 | the outcome is the corrected handler's; the user is stored only on success and `loading` ends false |
| OrderDetails.AmountDue | screens/OrderDetails/OrderDetails.js:46-54 | the amount due is never negative, is 0 exactly up to 1199, and otherwise is the part above 1199 |
| OrderDetails.AmountNavigation | screens/OrderDetails/OrderDetails.js:46-54 | the app goes to PendingAmount, with the amount, exactly when something is due |
| OrderDetails.EndAmountAlwaysOwes | screens/OrderDetails/OrderDetails.js:19 | the total stays at 1599, so ending cooking always asks for 400 |
| OrderDetails.CanStartCooking | screens/OrderDetails/OrderDetails.js:27-38 | cooking may start exactly when the booking is at most two hours away or already past; never for a date that does not parse |
| OrderDetails.RoundToMinutes | screens/OrderDetails/OrderDetails.js:107 | the elapsed milliseconds round to the nearest minute, halves up |
| OrderDetails.FormatHoursMinutes | screens/OrderDetails/OrderDetails.js:108 | definition of `H:M`; properties in OrderDetails.HoursMinutesRoundTrip |
| OrderDetails.HoursMinutesRoundTrip | screens/OrderDetails/OrderDetails.js:108 | for a non-negative number of minutes, `H:M` has a minutes part below 60 and reads back as the same number of minutes |
| OrderDetails.ElapsedLabel | screens/OrderDetails/OrderDetails.js:106-108 | definition of the sent label; properties in OrderDetails.ElapsedLabelMeaning |
| OrderDetails.ElapsedLabelMeaning | screens/OrderDetails/OrderDetails.js:106-108 | when the end is not before the start, the label sent to the server reads back as the rounded minutes |
| OrderDetails.ActionsAsWritten | screens/OrderDetails/OrderDetails.js:144-180 | definition of the render as written; the inversion is shown by OrderDetails.StartControlsInverted |
| OrderDetails.ActionsIntended | screens/OrderDetails/OrderDetails.js:144-180 | definition of the corrected render; properties in OrderDetails.StartControlsInsideWindow |
| OrderDetails.StartControlsInverted | screens/OrderDetails/OrderDetails.js:144-166 | as written, a booking one hour away shows the "too early" message, and one five hours away shows the Start controls |
| OrderDetails.StartControlsInsideWindow | screens/OrderDetails/OrderDetails.js:144-166 | corrected: the Start controls show exactly for an accepted booking that has not started and is at most two hours away |
| OrderDetails.OrderDetailsScreen.constructor | screens/OrderDetails/OrderDetails.js:19-25 | a total of 1599, nothing due, not started, no OTP entered or verified, and the stored start time |
| OrderDetails.OrderDetailsScreen.SetOtp | screens/OrderDetails/OrderDetails.js:156 | the OTP field holds the typed text |
| OrderDetails.OrderDetailsScreen.CheckStartCookingTime | screens/OrderDetails/OrderDetails.js:27-44 | the flag becomes the two-hour-window test at the given time |
| OrderDetails.OrderDetailsScreen.CalculateOrderAmount | screens/OrderDetails/OrderDetails.js:46-54 | the amount due becomes the amount above 1199, with navigation only when it is positive |
| OrderDetails.OrderDetailsScreen.HandleOtpVerification | screens/OrderDetails/OrderDetails.js:56-63 | only the code '1234' verifies; a wrong code leaves the flag as it was |
| OrderDetails.OrderDetailsScreen.HandleStartCooking | screens/OrderDetails/OrderDetails.js:65-87 | `startBooking` is called only once the OTP is verified; only a successful start marks cooking started and stores the start time |
| OrderDetails.OrderDetailsScreen.HandleEndCooking | screens/OrderDetails/OrderDetails.js:90-125 | without a stored start time nothing happens; otherwise the amount is computed and the elapsed `H:M` is sent; once the call returns, cooking ends and the start time is removed; a thrown call keeps both |
| Home.VisibleBookingsMembers | screens/HomeScreen/HomeScreen.js:69-73 | a booking is shown exactly when it was fetched and its id is not in the rejected list |
| Home.VisibleBookings | screens/HomeScreen/HomeScreen.js:70-72 | the filter never adds bookings; membership and order in Home.VisibleBookingsMembers and Home.VisibleBookingsAppend |
| Home.VisibleBookingsAppend | screens/HomeScreen/HomeScreen.js:70-72 | the filter works booking by booking, so the shown bookings keep their original order |
| Home.NothingRejectedKeepsAll | screens/HomeScreen/HomeScreen.js:70-72 | when no id is rejected the list is shown whole and unchanged |
| Home.RejectThenFilter | screens/HomeScreen/HomeScreen.js:111-114 | dropping a rejected id from the shown list gives the same list that a later fetch shows with that id appended to the stored list |
| Home.RejectBookingAsWritten | services/api.js:106-116 | a reply that returned passes the server's `success` through |
| Home.FailedRejectReadsAsSuccess | services/api.js:111-115 | as written, a reject request that throws yields a truthy result, so the handler records the reject |
| Home.RejectBookingIntended | services/api.js:106-116 | corrected: the result is truthy exactly when the server returned `success: true` |
| Home.Body | screens/HomeScreen/HomeScreen.js:142-168 | the KYC prompt shows exactly when the status is 'Pending'; otherwise the cards show when there are bookings, or the "no bookings" text when there are none |
| Home.PromptXorRecentOrders | screens/HomeScreen/HomeScreen.js:137-143 | RecentOrders shows exactly when the KYC prompt does not |
| Home.HomeScreen.constructor | screens/HomeScreen/HomeScreen.js:22-26 | no bookings, loading, no user, no status and no latest order |
| Home.HomeScreen.FetchData | screens/HomeScreen/HomeScreen.js:39-82 | the status starts as the stored `kyc_status`; for a user with an id whose status is 'Pending' the server's vendor status replaces it; a call that throws skips the rest; the bookings become the filtered list when the fetch succeeds; `loading` always ends false |
| Home.HomeScreen.HandleReject | screens/HomeScreen/HomeScreen.js:107-123 | a truthy result appends the id to the stored list and drops every booking with that id; a falsy result changes nothing |
| MyOrders.CancelInList | screens/MyOrdersScreen.js:56-60 | the list keeps its length, and every order keeps every field except its status, which either stays the same or becomes 'Cancelled' |
| MyOrders.CancelTouchesOnlyMatching | screens/MyOrdersScreen.js:56-60 | orders with the id become 'Cancelled', and every other order is unchanged |
| MyOrders.CancelIdempotent | screens/MyOrdersScreen.js:56-60 | cancelling the same id twice gives the same list as cancelling it once |
| MyOrders.IsBookingConfirmed | screens/MyOrdersScreen.js:71-76 | definition with moment's truncating hour count; meaning in MyOrders.ConfirmedWithinFourHours |
| MyOrders.ConfirmedWithinFourHours | screens/MyOrdersScreen.js:71-76 | with the hours truncated, a booking is confirmed exactly while it is less than four full hours away |
| MyOrders.CardActionAsWritten | screens/MyOrdersScreen.js:112-129 | definition of the card's choice as the operators group it; properties in MyOrders.CancelledLabelUnreachable |
| MyOrders.CardActionIntended | screens/MyOrdersScreen.js:112-129 | definition of the corrected choice; properties in MyOrders.CardActionIntendedMeaning |
| MyOrders.CancelledLabelUnreachable | screens/MyOrdersScreen.js:113-128 | as written, "Order Cancelled" never shows and a cancelled order shows "Confirmed Order"; the cancel button shows exactly for an 'Ongoing' order that is not confirmed |
| MyOrders.CardActionIntendedMeaning | screens/MyOrdersScreen.js:113-128 | corrected: "Order Cancelled" shows exactly for cancelled orders, the cancel button still shows exactly for unconfirmed 'Ongoing' orders, and on every other status the choice matches the code |
| MyOrders.CancelShowsCancelledLabel | screens/MyOrdersScreen.js:56-60 | after a successful cancel, the corrected card shows "Order Cancelled" for that order |
| MyOrders.MyOrdersScreen.constructor | screens/MyOrdersScreen.js:19-21 | no orders, loading, and no chef id |
| MyOrders.MyOrdersScreen.FetchOrders | screens/MyOrdersScreen.js:25-46 | a stored user sets the chef id; the orders are replaced only when the fetch succeeds; `loading` always ends false |
| MyOrders.MyOrdersScreen.HandleCancelOrder | screens/MyOrdersScreen.js:52-69 | only a reply with `success` cancels the order; a failed or thrown call leaves the list unchanged |
| Login.CheckLoginInputMeaning | screens/AuthScreen/LoginScreen.js:17-31 | the checks run in the order empty, then length 10 of the trimmed phone, then terms, and the first failure decides; the characters are never checked to be digits |
| Login.CheckLoginInput | screens/AuthScreen/LoginScreen.js:17-31 | definition of the three checks in order; their meaning in Login.CheckLoginInputMeaning |
| Login.GuardMessage | screens/AuthScreen/LoginScreen.js:18-29 | an empty phone alerts 'Phone number cannot be empty', a wrong length 'Please Enter Correct Number', unaccepted terms "You've not agree the terms and condition", and no two checks share an alert |
| Login.LettersPassTheChecks | screens/AuthScreen/LoginScreen.js:22-25 | every phone of ten ASCII letters passes all the checks when the terms are accepted |
| Login.PaddedPhonePasses | screens/AuthScreen/LoginScreen.js:17-25 | any white space before and after ten characters with non-blank ends is trimmed away; the phone then passes with the terms accepted and is refused only for the terms without them |
| Login.LoginNavigation | screens/AuthScreen/LoginScreen.js:44-77 | the app goes to HomeTabs first exactly when login succeeded, and in every case ends on the OTP screen with the phone exactly as typed |
| Login.LoginScreen.constructor | screens/AuthScreen/LoginScreen.js:10-12 | empty phone, terms unchecked, not loading |
| Login.LoginScreen.SetPhone | screens/AuthScreen/LoginScreen.js:10 | the phone field holds the typed text |
| Login.LoginScreen.HandleCheckboxPress | screens/AuthScreen/LoginScreen.js:82-84 | the terms flag flips |
| Login.LoginScreen.HandleLogin | screens/AuthScreen/LoginScreen.js:14-79 | a refused check makes no call; a thrown existence check rejects the handler; `exist === 'No'` stops before login; otherwise login is called, the user is stored only on success, and navigation follows the rule above |
| WithdrawNow.Substring | screens/MyEarningsScreen/WithdrawNowScreen.js:23 | `substring` with both ends clamped gives at most end - start characters |
| WithdrawNow.TransactionId | screens/MyEarningsScreen/WithdrawNowScreen.js:22-24 | the id is 'TXN' followed by at most 13 characters, which are upper-case letters or digits when the random text has the shape that `toString(36)` gives |
| WithdrawNow.CheckWithdrawal | screens/MyEarningsScreen/WithdrawNowScreen.js:32-41 | an empty amount or id is refused first, then an amount above the balance; a NaN amount passes |
| WithdrawNow.WholeBalanceAllowed | screens/MyEarningsScreen/WithdrawNowScreen.js:38-41 | an amount equal to the balance is allowed and one unit more is refused |
| WithdrawNow.UnparsableAmountIsSent | screens/MyEarningsScreen/WithdrawNowScreen.js:38 | an amount that does not parse is not stopped by the balance check |
| WithdrawNow.WithdrawNowScreen.constructor | screens/MyEarningsScreen/WithdrawNowScreen.js:17-19 | the balance comes from the route, the amount starts empty, and the transaction id is generated once |
| WithdrawNow.WithdrawNowScreen.SetAmount | screens/MyEarningsScreen/WithdrawNowScreen.js:18 | the amount field holds the typed text |
| WithdrawNow.WithdrawNowScreen.HandleWithdraw | screens/MyEarningsScreen/WithdrawNowScreen.js:27-68 | with no stored user the handler fails before any check; a refused check sends nothing; otherwise the request carries the stored user's id, the parsed amount and the screen's transaction id, and the screen goes back exactly when the reply has `success` |
| OrderList.OpenShowsOnlyThatMenu | screens/HomeScreen/OrderList.js:9 | opening a menu shows it and leaves every other menu as it was |
| OrderList.OpenCloseLaws | screens/HomeScreen/OrderList.js:9-10 | open then close leaves the menu hidden, and opening or closing twice is the same as doing it once |
| OrderList.CardActions | screens/HomeScreen/OrderList.js:52-57 | Accept and Reject show exactly for orders of type 'New' |
| OrderList.OrderListView.constructor | screens/HomeScreen/OrderList.js:7 | the visibility map starts empty and no menu shows |
| OrderList.OrderListView.OpenMenu | screens/HomeScreen/OrderList.js:9 | the map gains `id` set to true, that menu shows, and no other menu changes |
| OrderList.OrderListView.CloseMenu | screens/HomeScreen/OrderList.js:10 | the map gains `id` set to false, that menu hides, and no other menu changes |
| WithdrawalsDetails.StatusColor | screens/MyEarningsScreen/WithdrawalsDetailsScreen.js:64-75 | 'Pending' is orange, 'Completed' green, 'Rejected' red, and every other status black |
| WithdrawalsDetails.WithdrawalsDetailsScreen.constructor | screens/MyEarningsScreen/WithdrawalsDetailsScreen.js:16-18 | no chef id, no data, loading |
| WithdrawalsDetails.WithdrawalsDetailsScreen.LoadUser | screens/MyEarningsScreen/WithdrawalsDetailsScreen.js:21-35 | a stored user's id becomes the chef id |
| WithdrawalsDetails.WithdrawalsDetailsScreen.FetchWithdrawals | screens/MyEarningsScreen/WithdrawalsDetailsScreen.js:38-54 | the fetch runs only for a truthy chef id and then clears `loading` on success and on failure; the data is replaced only on success; without an id nothing changes |
| EditProfile.ProfileOf | screens/EditProfileScreen/EditProfileScreen.js:39-41 | the stored user replaces the whole form, which then has no avatar |
| EditProfile.LoadedProfile | screens/EditProfileScreen/EditProfileScreen.js:39-47 | a truthy stored avatar changes the avatar of the loaded form and nothing else |
| EditProfile.SetField | screens/EditProfileScreen/EditProfileScreen.js:57-59 | the edited field takes the new value and every other field is unchanged |
| EditProfile.SetFieldLaws | screens/EditProfileScreen/EditProfileScreen.js:57-59 | writing a field's own value changes nothing, and a second edit of the same field overrides the first |
| EditProfile.PayloadOf | screens/EditProfileScreen/EditProfileScreen.js:65-71 | definition of the request body; properties in EditProfile.PayloadIgnoresAvatar and EditProfile.EditReachesPayload |
| EditProfile.PayloadIgnoresAvatar | screens/EditProfileScreen/EditProfileScreen.js:65-71 | two forms send the same payload exactly when they agree on name, email, phone and role; the avatar and id never matter |
| EditProfile.EditReachesPayload | screens/EditProfileScreen/EditProfileScreen.js:57-71 | an edit shows up in the next payload, in its own field only |
| EditProfile.EditProfileScreen.constructor | screens/EditProfileScreen/EditProfileScreen.js:25-32 | role 'Vendor', every other field empty, not loading |
| EditProfile.EditProfileScreen.LoadProfile | screens/EditProfileScreen/EditProfileScreen.js:35-54 | with a stored user the form becomes the loaded profile; without one it keeps its values |
| EditProfile.EditProfileScreen.HandleChange | screens/EditProfileScreen/EditProfileScreen.js:57-59 | the form becomes the edit of one field |
| EditProfile.EditProfileScreen.HandleSelectImage | screens/EditProfileScreen/EditProfileScreen.js:92-113 | a picked image becomes the avatar, both on the form and in storage; a cancel or an error changes nothing |
| EditProfile.EditProfileScreen.BeginUpdate | screens/EditProfileScreen/EditProfileScreen.js:62-74 | `loading` is raised, and the form's id and its four text fields are sent |
| EditProfile.EditProfileScreen.FinishUpdate | screens/EditProfileScreen/EditProfileScreen.js:74-88 | the stored user becomes `response.user` only on success, and `loading` is cleared in every case |

## Left out

- Network calls and the API wrappers are not modelled. Each call is a parameter holding its reply. Several wrappers the screens import are not in this snapshot of services/api.js: `sendOtp`, `sendLoginEmail`, `sendRegisterEmail`, `checkUserExistence`, `getVendorDetails`, `fetchLatestAcceptedOrder`, `editVendorProfile`, `startBooking`, `endBooking` and `sentKycSubmitMail`. Their replies are inputs with the shape the screens read.
- AsyncStorage and JSON are not modelled. Each key a screen reads is a typed field, and an absent key is `None`. A stored value that does not parse is not modelled.
- Timers and clocks are not modelled. One `setInterval` tick is one `TickSecond` or `CheckStartCookingTime` call. The current time is a whole number of milliseconds passed in.
- Floating point is not modelled. `parseFloat(amount)` is a `Parsed` input, either a whole number or NaN, that is not tied to the typed text. Balances and prices are integers.
- Randomness is not modelled. The text of `Math.random().toString(36)` is a constructor argument.
- `Platform.OS`, the image and document pickers, Toast and the bodies of alerts are not modelled. The OS name and the picker result are parameters.
- KYCVerificationScreen.js's document picker (`handleFilePick` and `selectedFile`) is not modelled. `DocumentPicker` is not imported there, and the picked file is never uploaded.
- The KYC status write-back assumes that the storage write succeeds and that a successful reply carries `kyc.status`. A failing write, which would leave the message unset, and an absent status are not modelled.
- HomeScreen's `handleAccept` is not modelled. It makes one call and refetches.
- OrderList's "View" item is not modelled. It closes the menu, which `CloseMenu` does, and navigates.
- String lengths are counted in Unicode scalar values, not in UTF-16 code units. They differ only for characters outside the Basic Multilingual Plane.
- The model assumes that a response with `success` carries a `user`. A missing `user` would be stored as undefined, and that case is not modelled.
- Async interleavings are not modelled. Each handler runs to completion, except where a flag shows in between. KYC `isSubmitting` and EditProfile `loading` are handled by splitting the handler at its await into `Begin…` and `Finish…`.
- The OTP field's `maxLength={4}` in OrderDetails is not modelled. `SetOtp` accepts any text, and every text other than '1234' fails verification anyway.
- The login screen does not check that the phone is all digits. The code checks only the trimmed length, and the model follows the code.
- Otp.OtpScreen.HandleOtpVerification: the screen class uses the corrected handler (`VerifyIntended`). The handler as written is `VerifyAsWritten`, and the two differ only on failure paths.
- The model makes no OTP comparison in the sign-in flow, because the code makes none. The entered code is joined and never used.

## Findings

| source | as written | input that shows it | evidently intended | confidence | as-written member | corrected member |
|---|---|---|---|---|---|---|
| services/api.js:111-115 | `rejectBooking` returns `{ success: false, … }` when the request throws, and HomeScreen.js:110 treats any truthy result as a rejection | a reject request that throws: the id is stored as rejected and the booking disappears | a failed request yields a falsy result and the booking stays | high (not executed) | Home.FailedRejectReadsAsSuccess | Home.RejectBookingIntended |
| screens/AuthScreen/OTPScreen.js:2-12 | `Alert` is not imported but is called at lines 134, 169 and 175, so every failure path throws and the catch block throws again before `setLoading(false)` (the handler as written is Otp.VerifyAsWritten) | a login reply with `success: false`: the skeleton loader stays up and the handler rejects | failures show an alert and clear `loading` | high (not executed) | Otp.FailedVerificationKeepsLoading | Otp.VerifyIntended |
| screens/OrderDetails/OrderDetails.js:145 | the Start controls render when `!canStartCooking` | an accepted booking one hour away shows "You can start cooking 2 hours before the scheduled time." and no Start button, while one five hours away shows the button | the Start controls render inside the two-hour window | high (not executed) | OrderDetails.StartControlsInverted | OrderDetails.StartControlsInsideWindow |
| screens/MyOrdersScreen.js:113 | `confirmed && status !== 'Cancelled' \|\| status !== 'Ongoing'` groups as `(…) \|\| status !== 'Ongoing'` | an order with status 'Cancelled' shows "Confirmed Order"; the "Order Cancelled" branch is unreachable | cancelled orders show "Order Cancelled" | high (not executed) | MyOrders.CancelledLabelUnreachable | MyOrders.CardActionIntendedMeaning |
