/**
  The phone-number login screen: the input checks, the account-existence
  check, the login call and where the user is sent afterwards.
  Source: screens/AuthScreen/LoginScreen.js.
 */
module Login {
  import opened Js
  import opened Records

  const PhoneLength := 10
  const EmptyPhoneMessage := "Phone number cannot be empty"
  const WrongLengthMessage := "Please Enter Correct Number"
  const TermsMessage := "You've not agree the terms and condition"
  const NoUserMessage := "No User Found, Please Register to Continue"
  /** The `exist` value with which the existence check reports an unknown number. */
  const NoUser := "No"

  // ---------------------------------------------------------------------
  // The input checks (lines 17-31)

  datatype LoginGuard = PhoneEmpty | WrongLength | TermsNotAccepted | Proceed

  /** The three checks in their order: the first that fails decides. */
  function CheckLoginInput(phone: string, isChecked: bool): LoginGuard {
    if Trim(phone) == "" then PhoneEmpty
    else if |Trim(phone)| != PhoneLength then WrongLength
    else if !isChecked then TermsNotAccepted
    else Proceed
  }

  /**
    What each outcome means: a phone of white space only is refused as
    empty, a trimmed length other than 10 as wrong, then unchecked terms.
    Only the length is checked, not that the characters are digits.
   */
  lemma CheckLoginInputMeaning(phone: string, isChecked: bool)
    ensures var g := CheckLoginInput(phone, isChecked);
      && (g == PhoneEmpty <==> forall i :: 0 <= i < |phone| ==> IsJsWhitespace(phone[i]))
      && (g == WrongLength <==> Trim(phone) != "" && |Trim(phone)| != PhoneLength)
      && (g == TermsNotAccepted <==> |Trim(phone)| == PhoneLength && !isChecked)
      && (g == Proceed <==> |Trim(phone)| == PhoneLength && isChecked)
  {
    TrimEmptyIffBlank(phone);
  }

  /** The alert each refusing check shows: a different text for each. */
  function GuardMessage(g: LoginGuard): (m: string)
    requires g != Proceed
    ensures g == PhoneEmpty <==> m == EmptyPhoneMessage
    ensures g == WrongLength <==> m == WrongLengthMessage
    ensures g == TermsNotAccepted <==> m == TermsMessage
  {
    match g
    case PhoneEmpty => EmptyPhoneMessage
    case WrongLength => WrongLengthMessage
    case TermsNotAccepted => TermsMessage
  }

  /** Any ten letters pass every check: the characters are never tested to be digits. */
  lemma LettersPassTheChecks(phone: string)
    requires |phone| == PhoneLength
    requires forall i :: 0 <= i < |phone| ==> IsAsciiLower(phone[i]) || IsAsciiUpper(phone[i])
    ensures CheckLoginInput(phone, true) == Proceed
  {
    assert "" + phone + "" == phone;
    TrimPadded("", phone, "");
  }

  /**
    Any white space before and after the number is ignored: ten characters
    with non-blank ends pass whatever surrounds them, and the terms check
    still decides.
   */
  lemma PaddedPhonePasses(pre: string, phone: string, post: string)
    requires forall i :: 0 <= i < |pre| ==> IsJsWhitespace(pre[i])
    requires forall i :: 0 <= i < |post| ==> IsJsWhitespace(post[i])
    requires |phone| == PhoneLength && !IsJsWhitespace(phone[0]) && !IsJsWhitespace(phone[PhoneLength - 1])
    ensures Trim(pre + phone + post) == phone
    ensures CheckLoginInput(pre + phone + post, true) == Proceed
    ensures CheckLoginInput(pre + phone + post, false) == TermsNotAccepted
  {
    TrimPadded(pre, phone, post);
  }

  // ---------------------------------------------------------------------
  // Where the handler sends the user (lines 44-77)

  /**
    After the login call: HomeTabs first when it reported success, then,
    in every case, the OTP screen with the phone exactly as typed.
   */
  function LoginNavigation(login: Reply<AuthResponse>, phone: string): (navs: seq<Nav>)
    ensures |navs| >= 1 && navs[|navs| - 1] == OtpScreen(phone)
    ensures HomeTabs in navs <==> login.Returned? && login.value.success
    ensures HomeTabs in navs ==> navs[0] == HomeTabs
  {
    if login.Returned? && login.value.success then [HomeTabs, OtpScreen(phone)] else [OtpScreen(phone)]
  }

  datatype LoginOutcome =
    | Refused(guard: LoginGuard)   // an alert, no call made
    | NoUserFound                  // the existence check said "No"
    | ExistenceCheckThrew          // the handler itself rejects; nothing else happens
    | Navigated(navs: seq<Nav>)

  // ---------------------------------------------------------------------
  // The screen

  class LoginScreen {
    var phone: string
    var isChecked: bool
    var isLoading: bool
    var storedUser: Option<User>   // AsyncStorage 'user'

    constructor (storedUser: Option<User>)
      ensures phone == "" && !isChecked && !isLoading && this.storedUser == storedUser
    {
      phone, isChecked, isLoading := "", false, false;
      this.storedUser := storedUser;
    }

    method SetPhone(text: string)
      modifies this`phone
      ensures phone == text
    {
      phone := text;
    }

    /** The terms checkbox toggles. */
    method HandleCheckboxPress()
      modifies this`isChecked
      ensures isChecked == !old(isChecked)
    {
      isChecked := !isChecked;
    }

    /**
      `handleLogin`. `exist` is the existence check's `exist` field and
      `login` the login call's reply. The user is stored only after a
      successful login; `isLoading` is only ever set back to false.
     */
    method HandleLogin(exist: Reply<string>, login: Reply<AuthResponse>) returns (out: LoginOutcome, loginCalled: bool)
      modifies this`storedUser, this`isLoading
      ensures var g := CheckLoginInput(old(phone), old(isChecked));
        && (g != Proceed ==> out == Refused(g))
        && (g == Proceed && exist.Threw? ==> out == ExistenceCheckThrew)
        && (g == Proceed && exist == Returned(NoUser) ==> out == NoUserFound)
        && (loginCalled <==> g == Proceed && exist.Returned? && exist.value != NoUser)
      ensures loginCalled ==> out == Navigated(LoginNavigation(login, phone)) && !isLoading
      ensures !loginCalled ==> storedUser == old(storedUser) && isLoading == old(isLoading)
      ensures loginCalled ==> storedUser == (if login.Returned? && login.value.success
                                             then Some(login.value.user) else old(storedUser))
    {
      loginCalled := false;
      var g := CheckLoginInput(phone, isChecked);
      if g != Proceed {
        out := Refused(g);
        return;
      }
      if exist.Threw? {
        out := ExistenceCheckThrew;
        return;
      }
      if exist.value == NoUser {
        out := NoUserFound;
        return;
      }
      loginCalled := true;
      if login.Returned? && login.value.success {
        storedUser := Some(login.value.user);
      }
      isLoading := false;
      out := Navigated(LoginNavigation(login, phone));
    }
  }
}
