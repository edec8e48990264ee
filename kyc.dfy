/**
  The KYC (Know-Your-Customer) verification form: the government-ID field
  with its Aadhar / PAN validation and formatting, the switch between the
  two ID types, the checks that guard submission, and the status check
  that decides whether the form shows at all.
  Source: screens/KYCScreen/KYCVerificationScreen.js.
 */
module Kyc {
  import opened Js
  import opened Records

  datatype IdType = Aadhar | Pan

  /** The value of `govtIdType`, which is also sent as `govt_id_name`. */
  function IdTypeName(t: IdType): string {
    match t
    case Aadhar => "Aadhar Card"
    case Pan => "PAN Card"
  }

  const AadharDigits := 12
  /** `maxLength` of the ID field while the type is Aadhar: 12 digits and 2 dashes. */
  const AadharFieldMaxLength := 14
  const PanLength := 10

  const ErrAadharOnlyDigits := "Aadhar should contain only digits"
  const ErrAadharLength := "Aadhar should be 12 digits"
  const ErrPanFormat := "Invalid PAN format (should be AAAAA0000A)"
  const ErrPanLength := "PAN should be 10 characters"

  const AlertFullName := "Please enter your full name"
  const AlertAadharNumber := "Please enter a valid 12-digit Aadhar number"
  const AlertAadharImages := "Both front and back images of Aadhar Card are required"
  const AlertPanNumber := "Please enter a valid PAN number (format: AAAAA0000A)"
  const AlertPanImage := "Front image of PAN Card is required"

  const UnderVerification := "Your profile is under verification."

  // ---------------------------------------------------------------------
  // Aadhar formatting

  /** Dashes after the 4th digit (when there are more than 4) and after the 8th (when more than 8). */
  function FormatAadhar(clean: string): (r: string)
    ensures |clean| <= 4 ==> r == clean
    ensures 4 < |clean| <= 8 ==> r == clean[..4] + "-" + clean[4..]
    ensures 8 < |clean| ==> r == clean[..4] + "-" + clean[4..8] + "-" + clean[8..]
  {
    var once := if |clean| > 4 then clean[..4] + "-" + clean[4..] else clean;
    if |clean| > 8 then once[..9] + "-" + once[9..] else once
  }

  /** Twelve digits are shown as XXXX-XXXX-XXXX: 14 characters, exactly the field's maxLength. */
  lemma FormatAadharLayout(clean: string)
    requires |clean| == AadharDigits && AllDigits(clean)
    ensures var r := FormatAadhar(clean);
      && |r| == AadharFieldMaxLength
      && r[4] == '-' && r[9] == '-'
      && (forall i :: 0 <= i < 14 && i != 4 && i != 9 ==> IsDigit(r[i]))
  {
    var r := FormatAadhar(clean);
    forall i | 0 <= i < 14 && i != 4 && i != 9 ensures IsDigit(r[i]) {
      if i < 4 { assert r[i] == clean[i]; }
      else if i < 9 { assert r[i] == clean[i - 1]; }
      else { assert r[i] == clean[i - 2]; }
    }
  }

  /** Removing the dashes from the formatted value gives back the digits it was built from. */
  lemma FormatAadharRoundTrip(clean: string)
    requires '-' !in clean
    ensures Strip(FormatAadhar(clean), '-') == clean
  {
    if 4 < |clean| <= 8 {
      var a, b := clean[..4], clean[4..];
      DashFreeParts(clean, 4, |clean|);
      StripDashJoin(a, b);
      assert a + b == clean;
    } else if 8 < |clean| {
      var a, b, c := clean[..4], clean[4..8], clean[8..];
      DashFreeParts(clean, 4, 8);
      StripDashJoin(a + "-" + b, c);
      StripDashJoin(a, b);
      assert a + b + c == clean;
    }
  }

  /** A dash followed by dash-free text: the dash goes, the text stays. */
  lemma StripDashJoin(a: string, b: string)
    requires '-' !in b
    ensures Strip(a + "-" + b, '-') == Strip(a, '-') + b
  {
    assert a + "-" + b == a + ("-" + b);
    StripAppend(a, "-" + b, '-');
    StripDashFirst(b);
  }

  lemma StripDashFirst(x: string)
    ensures Strip("-" + x, '-') == Strip(x, '-')
  {
    assert ("-" + x)[1..] == x;
  }

  lemma DashFreeParts(s: string, i: nat, j: nat)
    requires '-' !in s && i <= j <= |s|
    ensures '-' !in s[..i] && '-' !in s[i..j] && '-' !in s[j..]
  {
    assert forall k :: 0 <= k < i ==> s[..i][k] == s[k];
    assert forall k :: 0 <= k < j - i ==> s[i..j][k] == s[i + k];
    assert forall k :: 0 <= k < |s| - j ==> s[j..][k] == s[j + k];
  }

  // ---------------------------------------------------------------------
  // One change of the ID field (`validateIdNumber`)

  /** What one change of the ID text does to `govtIdNumber` and `idError`. */
  datatype IdEdit =
    | Ignored                                // neither changes
    | ErrorOnly(error: string)               // the error is set, the number is kept
    | Stored(number: string, error: string)  // both are set

  function AadharEdit(text: string): IdEdit {
    var clean := Strip(text, '-');
    if !AllDigits(clean) then ErrorOnly(ErrAadharOnlyDigits)
    else if |clean| <= AadharDigits then
      Stored(FormatAadhar(clean), if |clean| == AadharDigits then "" else ErrAadharLength)
    else Ignored
  }

  /** `/^[A-Z0-9]{0,10}$/i`. */
  predicate PanInput(text: string) {
    |text| <= PanLength && forall i :: 0 <= i < |text| ==> IsAsciiAlnum(text[i])
  }

  /** `/^[A-Z]{5}[0-9]{4}[A-Z]{1}$/`: the shape AAAAA0000A. */
  predicate PanShape(s: string) {
    && |s| == PanLength
    && (forall i :: 0 <= i < 5 ==> IsAsciiUpper(s[i]))
    && (forall i :: 5 <= i < 9 ==> IsDigit(s[i]))
    && IsAsciiUpper(s[9])
  }

  /** Only upper-case letters and digits are ever stored, never more than the field's 10. */
  function PanEdit(text: string): (r: IdEdit)
    ensures !r.ErrorOnly?
    ensures r.Stored? ==> |r.number| == |text| <= PanLength
    ensures r.Stored? ==> forall i :: 0 <= i < |r.number| ==> IsDigit(r.number[i]) || IsAsciiUpper(r.number[i])
  {
    if !PanInput(text) then Ignored
    else
      var upper := AsciiUpper(text);
      Stored(upper, if |text| == PanLength then (if PanShape(upper) then "" else ErrPanFormat) else ErrPanLength)
  }

  function IdEditFor(t: IdType, text: string): IdEdit {
    match t
    case Aadhar => AadharEdit(text)
    case Pan => PanEdit(text)
  }

  /** Aadhar: a character other than a digit or a dash is refused with the digits error, and the number is kept. */
  lemma AadharNonDigitRefused(text: string, k: nat)
    requires k < |text| && text[k] != '-' && !IsDigit(text[k])
    ensures AadharEdit(text) == ErrorOnly(ErrAadharOnlyDigits)
  {
    StripKeeps(text, '-', k);
    var clean := Strip(text, '-');
    var i :| 0 <= i < |clean| && clean[i] == text[k];
    assert !IsDigit(clean[i]);
  }

  /** Aadhar: more than 12 digits change neither the number nor the error. */
  lemma AadharTooLongIgnored(text: string)
    requires AllDigits(Strip(text, '-')) && |Strip(text, '-')| > AadharDigits
    ensures AadharEdit(text) == Ignored
  {
  }

  /** Aadhar: the error is cleared exactly when the digits number 12; otherwise it asks for 12 digits. */
  lemma AadharErrorCleared(text: string)
    requires AadharEdit(text).Stored?
    ensures AadharEdit(text).error == "" <==> |Strip(text, '-')| == AadharDigits
    ensures AadharEdit(text).error != "" ==> AadharEdit(text).error == ErrAadharLength
    ensures |AadharEdit(text).number| <= AadharFieldMaxLength
  {
  }

  /** Typing the formatted value back in changes nothing: formatting is idempotent. */
  lemma AadharEditIdempotent(text: string)
    requires AadharEdit(text).Stored?
    ensures AadharEdit(AadharEdit(text).number) == AadharEdit(text)
  {
    var clean := Strip(text, '-');
    FormatAadharRoundTrip(clean);
  }

  /** PAN: the stored number is the upper-cased input, accepted only when it matches [A-Za-z0-9]{0,10}. */
  lemma PanEditStoresUppercase(text: string)
    ensures PanEdit(text).Stored? <==> PanInput(text)
    ensures PanEdit(text).Stored? ==> PanEdit(text).number == AsciiUpper(text)
    ensures PanEdit(text).Stored? ==> (PanEdit(text).error == "" <==> |text| == PanLength && PanShape(AsciiUpper(text)))
    ensures PanEdit(text).Stored? ==> forall i :: 0 <= i < |text| ==> !IsAsciiLower(PanEdit(text).number[i])
  {
  }

  /** Entering the stored PAN again changes nothing. */
  lemma PanEditIdempotent(text: string)
    requires PanEdit(text).Stored?
    ensures PanEdit(PanEdit(text).number) == PanEdit(text)
  {
    var u := AsciiUpper(text);
    AsciiUpperIdempotent(text);
    forall i | 0 <= i < |u| ensures IsAsciiAlnum(u[i]) {
      assert IsAsciiAlnum(text[i]);
    }
  }

  // ---------------------------------------------------------------------
  // The submit gate (`handleSubmit`, lines 150-177)

  /** The ID check of `handleSubmit` for the stored number. */
  predicate IdNumberAccepted(t: IdType, number: string) {
    match t
    case Aadhar => var clean := Strip(number, '-'); |clean| == AadharDigits && AllDigits(clean)
    case Pan => PanShape(number)
  }

  datatype SubmitCheck = Ready | Refused(alert: string)

  /**
    The checks in their order: the name first, then the number, then the
    images; an image alert therefore means the number was accepted.
   */
  function SubmitGate(fullName: string, t: IdType, number: string, front: Option<string>, back: Option<string>): (g: SubmitCheck)
    ensures g == Refused(AlertFullName) <==> Trim(fullName) == ""
    ensures g == Refused(AlertAadharNumber) || g == Refused(AlertPanNumber) ==>
      Trim(fullName) != "" && !IdNumberAccepted(t, number)
    ensures g == Refused(AlertAadharImages) || g == Refused(AlertPanImage) ==>
      Trim(fullName) != "" && IdNumberAccepted(t, number) && (!Present(front) || (t == Aadhar && !Present(back)))
  {
    if Trim(fullName) == "" then Refused(AlertFullName)
    else match t
      case Aadhar =>
        if !IdNumberAccepted(Aadhar, number) then Refused(AlertAadharNumber)
        else if !Present(front) || !Present(back) then Refused(AlertAadharImages)
        else Ready
      case Pan =>
        if !IdNumberAccepted(Pan, number) then Refused(AlertPanNumber)
        else if !Present(front) then Refused(AlertPanImage)
        else Ready
  }

  /**
    The gate passes exactly when the name has a non-blank character, the
    number is valid for its type, and the images the type needs are there:
    both sides for Aadhar, the front for PAN.
   */
  lemma SubmitGateReady(fullName: string, t: IdType, number: string, front: Option<string>, back: Option<string>)
    ensures SubmitGate(fullName, t, number, front, back) == Ready <==>
      && (exists i :: 0 <= i < |fullName| && !IsJsWhitespace(fullName[i]))
      && IdNumberAccepted(t, number)
      && Present(front)
      && (t == Aadhar ==> Present(back))
  {
    TrimEmptyIffBlank(fullName);
  }

  /**
    The field's error message is empty exactly when the number it stores
    would pass the submit gate's ID check.
   */
  lemma EditErrorAgreesWithGate(t: IdType, text: string)
    requires IdEditFor(t, text).Stored?
    ensures IdEditFor(t, text).error == "" <==> IdNumberAccepted(t, IdEditFor(t, text).number)
  {
    if t == Aadhar {
      FormatAadharRoundTrip(Strip(text, '-'));
    }
  }

  // ---------------------------------------------------------------------
  // What is uploaded

  datatype KycUpload = KycUpload(
    userId: string,
    govtIdName: string,
    govtIdNumber: string,
    frontPic: Option<string>,
    backPic: Option<string>,
    experienceDetails: Option<string>)

  /** The form data of lines 186-206. */
  function BuildUpload(user: User, t: IdType, number: string, front: Option<string>, back: Option<string>,
                       hasExperience: bool, experience: string): (u: KycUpload)
    ensures u.userId == user.id && u.govtIdName == IdTypeName(t) && u.govtIdNumber == number
    ensures u.frontPic == front
    ensures u.backPic.Some? <==> t == Aadhar && Present(back)
    ensures u.backPic.Some? ==> u.backPic == back
    ensures u.experienceDetails.Some? <==> hasExperience
  {
    KycUpload(user.id, IdTypeName(t), number, front,
              if t == Aadhar && Present(back) then back else None,
              if hasExperience then Some(experience) else None)
  }

  datatype Side = Front | Back

  // ---------------------------------------------------------------------
  // The status check on mount and what the card shows (lines 50-77, 262-275)

  /** The parts of the `checkKYCStatus` response the screen reads: `success` and `kyc.status`. */
  datatype KycStatusResponse = KycStatusResponse(success: bool, kycStatus: string)

  /** The card's content: a loading text, the verification message, or the form's inputs. */
  datatype KycBody = LoadingText | VerificationMessage(text: string) | FormInputs

  /** `isKYCVerified === null ? Loading… : isKYCVerified ? message : inputs`. */
  function KycBodyFor(isKycVerified: Option<bool>, kycMessage: string): KycBody {
    match isKycVerified
    case None => LoadingText
    case Some(verified) => if verified then VerificationMessage(kycMessage) else FormInputs
  }

  /** `!isKYCVerified && <Card.Title …/>`: the title shows while the status is unknown or negative. */
  predicate ShowsTitle(isKycVerified: Option<bool>) {
    isKycVerified != Some(true)
  }

  /** The title and the inputs go together; the title shows exactly when the message does not. */
  lemma TitleWithoutMessage(isKycVerified: Option<bool>, kycMessage: string)
    ensures ShowsTitle(isKycVerified) <==> !KycBodyFor(isKycVerified, kycMessage).VerificationMessage?
    ensures KycBodyFor(isKycVerified, kycMessage) == FormInputs ==> ShowsTitle(isKycVerified)
  {
  }

  /** The screen's state. */
  class KycScreen {
    var fullName: string
    var govtIdNumber: string
    var govtIdType: IdType
    var frontUri: Option<string>
    var backUri: Option<string>
    var hasExperience: bool
    var experienceDetails: string
    var isKycVerified: Option<bool>  // null while the status is being checked
    var kycMessage: string
    var isSubmitting: bool
    var idError: string

    constructor ()
      ensures fullName == "" && govtIdNumber == "" && govtIdType == Aadhar
      ensures frontUri == None && backUri == None
      ensures !hasExperience && experienceDetails == ""
      ensures isKycVerified == None && kycMessage == ""
      ensures !isSubmitting && idError == ""
    {
      fullName, govtIdNumber, govtIdType := "", "", Aadhar;
      frontUri, backUri := None, None;
      hasExperience, experienceDetails := false, "";
      isKycVerified, kycMessage := None, "";
      isSubmitting, idError := false, "";
    }

    /**
      The status check that runs once on mount. Without a stored user,
      reading its `id` throws and the form is shown. Otherwise the status is
      fetched: on `success` the vendor counts as verified, the stored user's
      `kyc_status` is rewritten to the server's status (the field the home
      screen starts from) and the message replaces the form; a reply without
      `success`, or a call that throws, shows the form. `written` is the
      user record stored back under 'user', if any.
     */
    method CheckStatusOnMount(storedUser: Option<User>, reply: Reply<KycStatusResponse>)
      returns (queried: Option<string>, written: Option<User>)
      modifies this`isKycVerified, this`kycMessage
      ensures queried == if storedUser.Some? then Some(storedUser.value.id) else None
      ensures var accepted := storedUser.Some? && reply.Returned? && reply.value.success;
        && isKycVerified == Some(accepted)
        && (written == if accepted then Some(storedUser.value.(kycStatus := reply.value.kycStatus)) else None)
        && kycMessage == (if accepted then UnderVerification else old(kycMessage))
        && (KycBodyFor(isKycVerified, kycMessage) == FormInputs <==> !accepted)
        && (accepted ==> KycBodyFor(isKycVerified, kycMessage) == VerificationMessage(UnderVerification))
    {
      queried, written := None, None;
      if storedUser.None? {
        isKycVerified := Some(false);
        return;
      }
      var user := storedUser.value;
      queried := Some(user.id);
      if reply.Returned? && reply.value.success {
        isKycVerified := Some(true);
        written := Some(user.(kycStatus := reply.value.kycStatus));
        kycMessage := UnderVerification;
      } else {
        isKycVerified := Some(false);
      }
    }

    /** The name field's `onChangeText`. */
    method SetFullName(text: string)
      modifies this`fullName
      ensures fullName == text
    {
      fullName := text;
    }

    /** The experience switch's `onValueChange`. */
    method SetHasExperience(on: bool)
      modifies this`hasExperience
      ensures hasExperience == on
    {
      hasExperience := on;
    }

    /** The experience text's `onChangeText`; the field shows only while the switch is on. */
    method SetExperienceDetails(text: string)
      modifies this`experienceDetails
      ensures experienceDetails == text
    {
      experienceDetails := text;
    }

    /** The ID field's `onChangeText`. */
    method ValidateIdNumber(text: string)
      modifies this`govtIdNumber, this`idError
      ensures match IdEditFor(govtIdType, text)
        case Ignored => govtIdNumber == old(govtIdNumber) && idError == old(idError)
        case ErrorOnly(e) => govtIdNumber == old(govtIdNumber) && idError == e
        case Stored(n, e) => govtIdNumber == n && idError == e
    {
      match IdEditFor(govtIdType, text)
      case Ignored =>
      case ErrorOnly(e) => idError := e;
      case Stored(n, e) => govtIdNumber, idError := n, e;
    }

    /** Aadhar and PAN swap; the number and error are cleared; the back image is dropped on the way to PAN. */
    method ToggleIdType()
      modifies this`govtIdType, this`govtIdNumber, this`idError, this`backUri
      ensures govtIdType == (if old(govtIdType) == Aadhar then Pan else Aadhar)
      ensures govtIdNumber == "" && idError == ""
      ensures backUri == (if govtIdType == Pan then None else old(backUri))
    {
      govtIdType := if govtIdType == Aadhar then Pan else Aadhar;
      govtIdNumber := "";
      idError := "";
      if govtIdType == Pan {
        backUri := None;
      }
    }

    /** A successful image pick (lines 141-142). */
    method SelectImage(side: Side, uri: string)
      modifies this`frontUri, this`backUri
      ensures side == Front ==> frontUri == Some(uri) && backUri == old(backUri)
      ensures side == Back ==> backUri == Some(uri) && frontUri == old(frontUri)
    {
      if side == Front { frontUri := Some(uri); } else { backUri := Some(uri); }
    }

    /**
      `handleSubmit` up to its first await: the checks, then `isSubmitting`.
      A refused check leaves the whole screen as it was.
     */
    method BeginSubmit() returns (check: SubmitCheck)
      modifies this`isSubmitting
      ensures check == SubmitGate(fullName, govtIdType, govtIdNumber, frontUri, backUri)
      ensures isSubmitting == (check == Ready || old(isSubmitting))
    {
      check := SubmitGate(fullName, govtIdType, govtIdNumber, frontUri, backUri);
      if check == Ready {
        isSubmitting := true;
      }
    }

    /**
      The rest of `handleSubmit`, after the checks passed: read the stored
      user, upload, send the acknowledgement mail, and on `success === true`
      clear the images and show the verification message. `isSubmitting`
      is cleared on every path.
     */
    method FinishSubmit(storedUser: Option<User>, reply: Reply<bool>)
      returns (upload: Option<KycUpload>, mailAttempted: bool, nav: Option<Nav>)
      modifies this`isSubmitting, this`frontUri, this`backUri, this`isKycVerified, this`kycMessage
      ensures !isSubmitting
      ensures storedUser.None? ==> upload == None
      ensures storedUser.Some? ==> upload == Some(BuildUpload(storedUser.value, govtIdType, govtIdNumber,
                                                          old(frontUri), old(backUri), hasExperience, experienceDetails))
      ensures mailAttempted <==> storedUser.Some? && reply.Returned?
      ensures var accepted := storedUser.Some? && reply == Returned(true);
        && (nav == if accepted then Some(HomeTabs) else None)
        && (accepted ==> frontUri == None && backUri == None && isKycVerified == Some(true) && kycMessage == UnderVerification)
        && (!accepted ==> frontUri == old(frontUri) && backUri == old(backUri)
                          && isKycVerified == old(isKycVerified) && kycMessage == old(kycMessage))
    {
      upload, mailAttempted, nav := None, false, None;
      if storedUser.Some? {
        upload := Some(BuildUpload(storedUser.value, govtIdType, govtIdNumber, frontUri, backUri,
                                   hasExperience, experienceDetails));
        if reply.Returned? {
          mailAttempted := true;
          if reply.value {
            frontUri, backUri := None, None;
            isKycVerified, kycMessage := Some(true), UnderVerification;
            nav := Some(HomeTabs);
          }
        }
      }
      isSubmitting := false;
    }
  }
}
